/** Runs of the lane: any number of run executions, interrupts, native notifications and failures,
    interleaved one critical section, channel operation or native call at a time. A cancelled context
    and a failing native call are actions that may be taken whenever the source can meet them. */
module LaneRun {
  import opened Prelude
  import opened LaneTurn
  import opened LaneSteer

  /** What a run is started with: the source demands exactly one of text and delivery. `message` is the
      message that a delivery carries. */
  datatype Seed = Seed(text: bool, delivery: bool, message: nat)

  datatype Receipt = Rejected | Injected | Uncertain

  /** Where an execution stands. */
  datatype Phase =
    | Checking | Entering | Starting | Calling | Abandoning | Awaiting | Unsure | Admitted | Reported | Waiting | Returned

  /** `asked` is the SDK's interrupt flag, `reply` the identifier in the start reply, `passed` that the
      execution has looked at the flag after its admission, `stopped` that it then called the native
      interrupt, `shared` that another execution was inside the lane at the same time. */
  datatype Run = Run(
    seed: Seed, phase: Phase, turn: Option<nat>, receipts: seq<Receipt>, asked: bool, reply: string,
    written: bool, passed: bool, stopped: bool, shared: bool)

  /** An interrupt request, after the SDK has set the flag. `Missed` made no native call; `late` says
      that the run had returned when it looked. */
  datatype Interrupt = Asked(run: nat) | Seen(run: nat, turn: nat) | Called(run: nat, turn: nat) | Missed(run: nat, late: bool)

  datatype Outcome = Delivered | Declined | NotRunning | Unknown

  /** A delivery into a running turn: its first look at the active turn, its second look and the native
      call, native's answer, and what it reports. */
  datatype Stage = Offered | Found | Steering | Judging | Concluded(outcome: Outcome)

  /** `seen` is the identifier found by the first look on the turn with index `turn`, `sent` the one put
      into the native call, `submitted` what native made of it. */
  datatype Delivery = Delivery(
    message: nat, stage: Stage, turn: nat, seen: string, sent: Option<string>, reply: Option<Reply>, submitted: bool)

  /** `owners` gives the run behind each turn, `events` the notifications received, `since` how many had
      been received when each turn was started. */
  datatype World = World(
    thread: string, turns: seq<Turn>, active: Option<nat>, failed: bool, boundary: nat, current: Option<nat>,
    runs: seq<Run>, interrupts: seq<Interrupt>, owners: seq<nat>, events: seq<Event>, since: seq<nat>,
    deliveries: seq<Delivery>)

  datatype Action =
    | Begin(seed: Seed)
    | Check(run: nat, fine: bool)
    | Enter(run: nat)
    | Start(run: nat)
    | StartReply(run: nat, reply: Option<string>)
    | Abandon(run: nat)
    | TakeReady(run: nat)
    | CancelStart(run: nat)
    | ReportUnsure(run: nat)
    | ReportInjected(run: nat, fine: bool)
    | FinalCheck(run: nat, fine: bool)
    | WaitEnds(run: nat)
    | Retire(run: nat)
    | Notice(e: Event)
    | FailLane
    | Ask(run: nat)
    | Look(index: nat)
    | Strike(index: nat)
    | Offer(message: nat)
    | Decline(delivery: nat)
    | FirstLook(delivery: nat)
    | SecondLook(delivery: nat)
    | NativeAnswers(delivery: nat, answer: Reply, submitted: bool)
    | Conclude(delivery: nat)

  function Initial(thread: string): World {
    World(thread, [], None, false, 0, None, [], [], [], [], [], [])
  }

  function View(w: World): Lane
    requires Placed(w)
  {
    Lane(w.thread, if w.active.None? then None else Some(w.turns[w.active.value]), w.failed, w.boundary)
  }

  predicate Placed(w: World) {
    w.active.Some? ==> w.active.value < |w.turns|
  }

  /** The world after a locked section of the lane. */
  function Applied(w: World, f: Effect): World
    requires Placed(w)
  {
    w.(turns := if w.active.Some? && f.turn.Some? then w.turns[w.active.value := f.turn.value] else w.turns,
       active := if f.lane.active.None? then None else w.active,
       failed := f.lane.failed, boundary := f.lane.boundary)
  }

  predicate At(w: World, r: nat, p: Phase) {
    r < |w.runs| && w.runs[r].phase == p
  }

  /** The execution has a turn. */
  predicate Turned(w: World, r: nat) {
    r < |w.runs| && w.runs[r].turn.Some? && w.runs[r].turn.value < |w.turns|
  }

  predicate Enabled(w: World, a: Action) {
    Placed(w) &&
    match a
    case Begin(_) => true
    case Check(r, _) => At(w, r, Checking)
    case Enter(r) => At(w, r, Entering)
    case Start(r) => At(w, r, Starting)
    case StartReply(r, _) => At(w, r, Calling) && Turned(w, r)
    case Abandon(r) => At(w, r, Abandoning) && Turned(w, r)
    case TakeReady(r) => At(w, r, Awaiting) && Turned(w, r) && w.turns[w.runs[r].turn.value].ready != []
    case CancelStart(r) => At(w, r, Awaiting) && Turned(w, r)
    case ReportUnsure(r) => At(w, r, Unsure)
    case ReportInjected(r, _) => At(w, r, Admitted)
    case FinalCheck(r, _) => At(w, r, Reported)
    case WaitEnds(r) => At(w, r, Waiting)
    case Retire(r) => At(w, r, Returned)
    case Notice(_) => true
    case FailLane => true
    case Ask(r) => r < |w.runs|
    case Look(k) => k < |w.interrupts| && w.interrupts[k].Asked? && w.interrupts[k].run < |w.runs|
    case Strike(k) => k < |w.interrupts| && w.interrupts[k].Seen? && w.interrupts[k].turn < |w.turns|
    case Offer(_) => true
    case Decline(d) => Stands(w, d, Offered)
    case FirstLook(d) => Stands(w, d, Offered)
    case SecondLook(d) => Stands(w, d, Found)
    case NativeAnswers(d, reply, submitted) =>
      Stands(w, d, Steering) && w.deliveries[d].sent.Some? && NativeMay(w.deliveries[d].sent.value, reply, submitted)
    case Conclude(d) => Stands(w, d, Judging) && w.deliveries[d].reply.Some?
  }

  predicate Stands(w: World, d: nat, stage: Stage) {
    d < |w.deliveries| && w.deliveries[d].stage == stage
  }

  /** What native is relied on for, given the identifier it was sent: nothing is submitted under the two
      texts, and a steer that is confirmed was submitted. */
  predicate NativeMay(sent: string, reply: Reply, submitted: bool) {
    (submitted ==> !DefinitelyNotSubmitted(reply, sent)) && (reply.Steered? ==> submitted)
  }

  function Put(w: World, r: nat, x: Run): World {
    if r < |w.runs| then w.(runs := w.runs[r := x]) else w
  }

  function Next(w: World, a: Action): World
    requires Enabled(w, a)
  {
    match a
    case Begin(seed) => w.(runs := w.runs + [Run(seed, Checking, None, [], false, "", false, false, false, false)])
    case Check(r, _) => Put(w, r, Own(w.runs[r], a))
    case Enter(r) => OnEnter(w, r)
    case Start(r) => OnStart(w, r)
    case StartReply(r, reply) => OnStartReply(w, r, reply)
    case Abandon(r) => Cleared(Put(w, r, w.runs[r].(phase := Unsure)), w.runs[r].turn.value)
    case TakeReady(r) =>
      Put(w, r, w.runs[r].(phase := if w.turns[w.runs[r].turn.value].ready[0].Good? then Admitted else Unsure))
    case CancelStart(r) => Cleared(Put(w, r, w.runs[r].(phase := Unsure)), w.runs[r].turn.value)
    case ReportUnsure(r) => Put(w, r, Own(w.runs[r], a))
    case ReportInjected(r, _) => Put(w, r, Own(w.runs[r], a))
    case FinalCheck(r, _) => Put(w, r, Own(w.runs[r], a))
    case WaitEnds(r) => Put(w, r, Own(w.runs[r], a))
    case Retire(r) => w.(current := if w.current == Some(r) then None else w.current)
    case Notice(e) => OnNotice(w, e)
    case FailLane => Applied(w, Fail(View(w)))
    case Ask(r) => Put(w, r, w.runs[r].(asked := true)).(interrupts := w.interrupts + [Asked(r)])
    case Look(k) => w.(interrupts := w.interrupts[k := OnLook(w, w.interrupts[k].run)])
    case Strike(k) => w.(interrupts := w.interrupts[k := OnStrike(w, w.interrupts[k])])
    case Offer(m) => w.(deliveries := w.deliveries + [Delivery(m, Offered, 0, "", None, None, false)])
    case Decline(d) => Hand(w, d, w.deliveries[d].(stage := Concluded(Declined)))
    case FirstLook(d) => Hand(w, d, OnFirstLook(w, w.deliveries[d]))
    case SecondLook(d) => Hand(w, d, OnSecondLook(w, w.deliveries[d]))
    case NativeAnswers(d, reply, submitted) =>
      Hand(w, d, w.deliveries[d].(stage := Judging, reply := Some(reply), submitted := submitted))
    case Conclude(d) => Hand(w, d, w.deliveries[d].(stage := Concluded(Verdict(w.deliveries[d]))))
  }

  function Hand(w: World, d: nat, x: Delivery): World
    requires d < |w.deliveries|
  {
    w.(deliveries := w.deliveries[d := x])
  }

  /** The first look: the identifier of the active turn, if it has started. */
  function OnFirstLook(w: World, x: Delivery): Delivery
    requires Placed(w)
  {
    var expected := if w.active.Some? && w.turns[w.active.value].started then w.turns[w.active.value].id else "";
    if expected == "" then x.(stage := Concluded(NotRunning))
    else x.(stage := Found, turn := w.active.value, seen := expected)
  }

  /** The second look: the same turn must still be active; its identifier is read again for the call. */
  function OnSecondLook(w: World, x: Delivery): Delivery
    requires Placed(w)
  {
    if w.active == Some(x.turn) && w.turns[x.turn].started then x.(stage := Steering, sent := Some(w.turns[x.turn].id))
    else x.(stage := Concluded(NotRunning))
  }

  /** What the delivery makes of the answer: a confirmation must name the turn that was sent, and an error
      is looked up with the identifier seen first. */
  function Verdict(x: Delivery): Outcome {
    match x.reply
    case None => Unknown
    case Some(Steered(turn)) => if x.sent == Some(turn) then Delivered else Unknown
    case Some(reply) => if DefinitelyNotSubmitted(reply, x.seen) then NotRunning else Unknown
  }

  function OnNotice(w: World, e: Event): World
    requires Placed(w)
  {
    var f := Receive(View(w), e);
    var w' := Applied(w, f).(events := w.events + [e]);
    if f.fault then Applied(w', Fail(View(w'))) else w'
  }

  /** A receipt is due for a delivery only. */
  function Receipted(x: Run, receipt: Receipt): Run {
    if x.seed.delivery then x.(receipts := x.receipts + [receipt]) else x
  }

  /** The moves of an execution that touch nothing of the lane. In the first, `fine` is the context and
      the rendering; in the others, the report and the native interrupt. */
  function Own(x: Run, a: Action): Run {
    match a
    case Check(_, fine) =>
      if x.seed.text == x.seed.delivery || !fine || x.asked then Receipted(x, Rejected).(phase := Returned)
      else x.(phase := Entering)
    case ReportUnsure(_) => Receipted(x, Uncertain).(phase := Returned)
    case ReportInjected(_, fine) =>
      Receipted(x, Injected).(phase := if fine || !x.seed.delivery then Reported else Returned)
    case FinalCheck(_, fine) =>
      x.(passed := true, stopped := x.asked, phase := if x.asked && !fine then Returned else Waiting)
    case WaitEnds(_) => x.(phase := Returned)
    case _ => x
  }

  /** An execution is inside from its entry until it returns. */
  predicate Inside(p: Phase) {
    !p.Checking? && !p.Entering? && !p.Returned?
  }

  function OnEnter(w: World, r: nat): World
    requires r < |w.runs|
  {
    var meets := exists k | 0 <= k < |w.runs| :: k != r && Inside(w.runs[k].phase);
    w.(current := Some(r),
       runs := seq(|w.runs|, k requires 0 <= k < |w.runs| =>
         if k == r then w.runs[k].(phase := Starting, shared := w.runs[k].shared || meets)
         else if Inside(w.runs[k].phase) then w.runs[k].(shared := true)
         else w.runs[k]))
  }

  function OnStart(w: World, r: nat): World
    requires r < |w.runs|
  {
    if w.active.Some? then Put(w, r, w.runs[r].(phase := Unsure))
    else
      Put(w, r, w.runs[r].(phase := Calling, turn := Some(|w.turns|), written := true))
        .(turns := w.turns + [Idle], owners := w.owners + [r], since := w.since + [|w.events|], active := Some(|w.turns|), boundary := w.boundary + 1)
  }

  function OnStartReply(w: World, r: nat, reply: Option<string>): World
    requires Turned(w, r)
  {
    var t := w.runs[r].turn.value;
    var named := if reply.None? then None else Named(w.turns[t], reply.value);
    if named.None? then Put(w, r, w.runs[r].(phase := Abandoning))
    else Put(w, r, w.runs[r].(phase := Awaiting, reply := reply.value)).(turns := w.turns[t := named.value])
  }

  function Cleared(w: World, t: nat): World {
    if w.active == Some(t) then w.(active := None) else w
  }

  /** The first locked section of an interrupt: the active turn, if the run is the lane's current one. */
  function OnLook(w: World, r: nat): Interrupt
    requires r < |w.runs|
  {
    if w.current != Some(r) || w.active.None? then Missed(r, w.runs[r].phase.Returned?) else Seen(r, w.active.value)
  }

  /** The second: a turn that has not started yet is left to the execution. */
  function OnStrike(w: World, i: Interrupt): Interrupt
    requires i.Seen? && i.turn < |w.turns|
  {
    if w.turns[i.turn].started then Called(i.run, i.turn) else Missed(i.run, i.run < |w.runs| && w.runs[i.run].phase.Returned?)
  }

  ghost predicate Runs(ws: seq<World>, acts: seq<Action>) {
    && |ws| == |acts| + 1
    && ws[0] == Initial(ws[0].thread)
    && forall i | 0 <= i < |acts| :: Enabled(ws[i], acts[i]) && ws[i + 1] == Next(ws[i], acts[i])
  }

  // ----- invariants ----------------------------------------------------------------------------

  /** A notification for the lane's thread has named the turn, after the first `since`. */
  ghost predicate Announced(w: World, id: string, since: nat) {
    exists k :: since <= k < |w.events| && w.events[k].thread == w.thread && w.events[k].turn == id
  }

  ghost predicate TurnsOk(w: World) {
    && Placed(w) && |w.owners| == |w.turns| && |w.since| == |w.turns|
    && (forall t | 0 <= t < |w.turns| :: w.since[t] <= |w.events|)
    && (forall t | 0 <= t < |w.turns| ::
          Orderly(w.turns[t]) && (w.turns[t].ready == [Good] ==> Announced(w, w.turns[t].id, w.since[t])))
    && (w.active.Some? ==> Open(w.turns[w.active.value]))
    && (forall t | 0 <= t < |w.turns| :: w.owners[t] < |w.runs| && w.runs[w.owners[t]].turn == Some(t))
    && (forall r | 0 <= r < |w.runs| && w.runs[r].turn.Some? :: w.runs[r].turn.value < |w.turns| && w.owners[w.runs[r].turn.value] == r)
  }

  /** The start reply and an event agreed on the turn, and the turn's readiness was announced. */
  ghost predicate Agreed(w: World, x: Run) {
    && x.turn.Some? && x.turn.value < |w.turns| && x.reply != ""
    && w.turns[x.turn.value].ready == [Good] && w.turns[x.turn.value].id == x.reply
  }

  /** The start reply named the turn. */
  ghost predicate Replied(w: World, x: Run) {
    x.turn.Some? && x.turn.value < |w.turns| && x.reply != "" && w.turns[x.turn.value].id == x.reply
  }

  /** An execution's record, given whether its turn is named by the reply and whether an event agreed. */
  predicate Steady(x: Run, agreed: bool, replied: bool) {
    && (x.written <==> x.turn.Some?)
    && (x.stopped ==> x.passed)
    && (x.passed ==> agreed && (x.phase.Waiting? || x.phase.Returned?))
    && (x.receipts != [] ==> x.seed.delivery)
    && (Rejected in x.receipts ==> !x.written)
    && (Injected in x.receipts ==> agreed)
    && match x.phase
       case Checking => !x.written && x.receipts == []
       case Entering => !x.written && x.receipts == [] && x.seed.text != x.seed.delivery
       case Starting => !x.written && x.receipts == [] && x.seed.text != x.seed.delivery
       case Calling => x.written && x.receipts == []
       case Abandoning => x.written && x.receipts == []
       case Awaiting => x.written && x.receipts == [] && replied
       case Unsure => x.receipts == []
       case Admitted => agreed && x.receipts == []
       case Reported => agreed && x.receipts == if x.seed.delivery then [Injected] else []
       case Waiting => x.passed && agreed && x.receipts == if x.seed.delivery then [Injected] else []
       case Returned => |x.receipts| == if x.seed.delivery then 1 else 0
  }

  ghost predicate RunOk(w: World, x: Run) {
    Steady(x, Agreed(w, x), Replied(w, x))
  }

  ghost predicate RunsOk(w: World) {
    forall r | 0 <= r < |w.runs| :: RunOk(w, w.runs[r])
  }

  /** An unstarted active turn belongs to an execution that is still starting it. */
  ghost predicate StartingOwned(w: World) {
    w.active.Some? && w.active.value < |w.turns| && w.active.value < |w.owners| && !w.turns[w.active.value].started ==>
      w.owners[w.active.value] < |w.runs| && w.runs[w.owners[w.active.value]].phase in {Calling, Abandoning, Awaiting}
  }

  /** Who may be the lane's current run. */
  ghost predicate CurrentOk(w: World) {
    && (forall r | 0 <= r < |w.runs| && Inside(w.runs[r].phase) && !w.runs[r].shared :: w.current == Some(r))
    && (w.current.Some? ==> w.current.value < |w.runs| && !w.runs[w.current.value].phase.Checking? && !w.runs[w.current.value].phase.Entering?)
    && (forall r | 0 <= r < |w.runs| && w.current.Some? && w.current != Some(r) && Inside(w.runs[r].phase) :: w.runs[w.current.value].shared)
    && StartingOwned(w)
  }

  /** The turn an interrupt saw was the run's own, or left behind by an execution that had returned. */
  ghost predicate Aimed(w: World, r: nat, t: nat) {
    && r < |w.runs| && t < |w.turns| && t < |w.owners| && w.owners[t] < |w.runs|
    && (w.runs[r].turn == Some(t) || w.runs[r].shared || (w.turns[t].started && w.runs[w.owners[t]].phase.Returned?))
  }

  /** The interrupt was not lost. */
  ghost predicate Heeded(w: World, x: Run) {
    !x.passed || x.stopped || x.turn != w.active
  }

  ghost predicate InterruptOk(w: World, i: Interrupt) {
    && i.run < |w.runs| && w.runs[i.run].asked
    && match i
       case Asked(_) => true
       case Seen(r, t) => Aimed(w, r, t)
       case Called(r, t) => Aimed(w, r, t) && w.turns[t].started
       case Missed(r, late) => late || w.runs[r].shared || Heeded(w, w.runs[r])
  }

  ghost predicate InterruptsOk(w: World) {
    forall k | 0 <= k < |w.interrupts| :: InterruptOk(w, w.interrupts[k])
  }

  // ----- steps: turns --------------------------------------------------------------------------

  /** Nothing said about a turn is taken back, and the logs grow. */
  ghost predicate Grown(w: World, w': World) {
    && w'.thread == w.thread && w.events <= w'.events && w.owners <= w'.owners && w.since <= w'.since
    && |w.turns| <= |w'.turns|
    && forall t | 0 <= t < |w.turns| :: Extends(w'.turns[t], w.turns[t]) && (w.turns[t].started ==> w'.turns[t].started)
  }

  lemma AnnouncedGrows(w: World, w': World, id: string, since: nat)
    requires w'.thread == w.thread && w.events <= w'.events && Announced(w, id, since)
    ensures Announced(w', id, since)
  {
    var k :| since <= k < |w.events| && w.events[k].thread == w.thread && w.events[k].turn == id;
    assert w'.events[k] == w.events[k];
  }

  /** At most the active turn changed; the runs kept their turns. */
  lemma ActiveChanged(w: World, w': World, t: nat)
    requires TurnsOk(w) && t < |w.turns| == |w'.turns| && w'.turns == w.turns[t := w'.turns[t]]
    requires Orderly(w'.turns[t]) && Extends(w'.turns[t], w.turns[t])
    requires t < |w.since| && (w'.turns[t].ready == [Good] ==> w.turns[t].ready == [Good] || Announced(w', w'.turns[t].id, w.since[t]))
    requires w'.active == None || (w'.active == w.active && (w.active == Some(t) ==> Open(w'.turns[t])))
    requires w'.thread == w.thread && w.events <= w'.events && w'.owners == w.owners && w'.since == w.since
    requires SameTurns(w, w')
    ensures TurnsOk(w') && Grown(w, w')
  {
    forall i | 0 <= i < |w'.turns| && w'.turns[i].ready == [Good] ensures Announced(w', w'.turns[i].id, w'.since[i]) {
      if w.turns[i].ready == [Good] { AnnouncedGrows(w, w', w.turns[i].id, w.since[i]); }
    }
    hide Announced;
    assert w.turns[t].started ==> w'.turns[t].started;
  }

  predicate SameTurns(w: World, w': World) {
    |w'.runs| >= |w.runs| && (forall r | 0 <= r < |w.runs| :: w'.runs[r].turn == w.runs[r].turn)
    && forall r | |w.runs| <= r < |w'.runs| :: w'.runs[r].turn == None
  }

  /** No turn changed. */
  lemma TurnsSame(w: World, w': World)
    requires TurnsOk(w) && w'.turns == w.turns && w'.thread == w.thread && w'.owners == w.owners && w.events <= w'.events
    requires w'.since == w.since
    requires w'.active == None || w'.active == w.active
    requires SameTurns(w, w')
    ensures TurnsOk(w') && Grown(w, w')
  {
    forall i | 0 <= i < |w'.turns| && w'.turns[i].ready == [Good] ensures Announced(w', w'.turns[i].id, w'.since[i]) {
      AnnouncedGrows(w, w', w.turns[i].id, w.since[i]);
    }
    hide Announced, Orderly;
  }

  lemma StartTurns(w: World, r: nat)
    requires TurnsOk(w) && At(w, r, Starting) && w.runs[r].turn.None?
    ensures TurnsOk(OnStart(w, r)) && Grown(w, OnStart(w, r))
  {
    var w' := OnStart(w, r);
    if w.active.Some? {
      hide TurnsOk, Grown;
      TurnsSame(w, w');
    } else {
      assert |w.owners| == |w.turns|;
      hide TurnsOk, Grown;
      NewTurn(w, w', r);
    }
  }

  /** A fresh turn behind the others. */
  lemma NewTurn(w: World, w': World, r: nat)
    requires TurnsOk(w) && r < |w.runs| == |w'.runs| && w.runs[r].turn.None? && w'.runs[r].turn == Some(|w.turns|)
    requires forall k | 0 <= k < |w.runs| && k != r :: w'.runs[k] == w.runs[k]
    requires w'.turns == w.turns + [Idle] && w'.owners == w.owners + [r] && w'.active == Some(|w.turns|)
    requires w'.thread == w.thread && w'.events == w.events && w'.since == w.since + [|w.events|]
    ensures TurnsOk(w') && Grown(w, w')
  {
    forall i | 0 <= i < |w'.turns|
      ensures Orderly(w'.turns[i]) && (w'.turns[i].ready == [Good] ==> Announced(w', w'.turns[i].id, w'.since[i]))
    {
      if i < |w.turns| && w.turns[i].ready == [Good] { AnnouncedGrows(w, w', w.turns[i].id, w.since[i]); }
    }
    assert Open(Idle);
    hide Announced, Orderly, Open;
  }

  lemma FailTurns(w: World)
    requires TurnsOk(w)
    ensures var w' := Applied(w, Fail(View(w))); TurnsOk(w') && Grown(w, w') && w'.runs == w.runs
  {
    var w' := Applied(w, Fail(View(w)));
    if w.active.Some? {
      FailureReachesTurn(View(w));
      hide Fail, Orderly, Announced;
      ActiveChanged(w, w', w.active.value);
    } else {
      TurnsSame(w, w');
    }
  }

  lemma NoticeTurns(w: World, e: Event)
    requires TurnsOk(w)
    ensures TurnsOk(OnNotice(w, e)) && Grown(w, OnNotice(w, e)) && OnNotice(w, e).runs == w.runs
  {
    var f := Receive(View(w), e);
    var w' := Applied(w, f).(events := w.events + [e]);
    assert w'.events[|w.events|] == e && (w.active.Some? ==> w.since[w.active.value] <= |w.events|);
    if w.active.Some? {
      EventOrderly(View(w), e);
      ReadyAnnounced(View(w), e);
      hide Receive, Orderly;
      ActiveChanged(w, w', w.active.value);
    } else {
      TurnsSame(w, w');
    }
    hide Receive, Orderly, TurnsOk, Fail;
    FailTurns(w');
  }

  /** An event that makes a turn ready carries the lane's thread and the turn's identifier. */
  lemma ReadyAnnounced(l: Lane, e: Event)
    requires l.active.Some?
    ensures var t' := Receive(l, e).turn;
            t'.Some? && (t'.value == l.active.value || (e.thread == l.thread && e.turn == t'.value.id))
  {
  }

  lemma ReplyTurns(w: World, r: nat, reply: Option<string>)
    requires TurnsOk(w) && Turned(w, r)
    ensures TurnsOk(OnStartReply(w, r, reply)) && Grown(w, OnStartReply(w, r, reply))
  {
    var w', t := OnStartReply(w, r, reply), w.runs[r].turn.value;
    if reply.Some? { NameOrderly(w.turns[t], reply.value); }
    hide Orderly, Announced;
    ActiveChanged(w, w', t);
  }

  lemma StepTurns(w: World, a: Action)
    requires TurnsOk(w) && RunsOk(w) && Enabled(w, a)
    ensures TurnsOk(Next(w, a)) && Grown(w, Next(w, a))
  {
    if a.Start? { assert RunOk(w, w.runs[a.run]); }
    hide TurnsOk, Grown, Receive, Fail, Own, RunsOk, OnEnter;
    match a
    case Start(r) => StartTurns(w, r);
    case StartReply(r, reply) => ReplyTurns(w, r, reply);
    case Notice(e) => NoticeTurns(w, e);
    case FailLane => FailTurns(w);
    case Enter(r) => TurnsSame(w, Next(w, a)) by { EnterTurns(w, r); }
    case _ =>
      hide OnNotice, OnStart, OnStartReply;
      OtherTurns(w, a);
      TurnsSame(w, Next(w, a));
  }

  lemma EnterTurns(w: World, r: nat)
    requires r < |w.runs|
    ensures SameTurns(w, OnEnter(w, r)) && OnEnter(w, r) == w.(current := Some(r), runs := OnEnter(w, r).runs)
  {
  }

  lemma OtherTurns(w: World, a: Action)
    requires Enabled(w, a) && !a.Start? && !a.StartReply? && !a.Notice? && !a.FailLane? && !a.Enter?
    ensures var w' := Next(w, a);
            && SameTurns(w, w') && w'.turns == w.turns && w'.owners == w.owners && w'.events == w.events && w'.thread == w.thread
            && w'.since == w.since
            && (w'.active == None || w'.active == w.active)
  {
  }

  // ----- steps: executions ---------------------------------------------------------------------

  /** What an execution relies on is still there. */
  lemma AgreedKept(w: World, w': World, x: Run)
    requires TurnsOk(w') && Grown(w, w') && Agreed(w, x)
    ensures Agreed(w', x)
  {
    var t := x.turn.value;
    assert Extends(w'.turns[t], w.turns[t]);
    assert Orderly(w'.turns[t]);
    assert w'.turns[t].ready[0] == Good;
  }

  lemma RepliedKept(w: World, w': World, x: Run)
    requires Grown(w, w') && Replied(w, x)
    ensures Replied(w', x)
  {
    assert Extends(w'.turns[x.turn.value], w.turns[x.turn.value]);
  }

  lemma SteadyMore(x: Run, x': Run, agreed: bool, replied: bool, agreed': bool, replied': bool)
    requires Steady(x, agreed, replied) && (agreed ==> agreed') && (replied ==> replied')
    requires x' == x.(asked := x'.asked, shared := x'.shared)
    ensures Steady(x', agreed', replied')
  {
  }

  /** An execution that did not move; the flags `asked` and `shared` are not part of its progress. */
  lemma RunKept(w: World, w': World, x: Run, x': Run)
    requires TurnsOk(w') && Grown(w, w') && RunOk(w, x)
    requires x' == x.(asked := x'.asked, shared := x'.shared)
    ensures RunOk(w', x')
  {
    if Agreed(w, x) { AgreedKept(w, w', x); }
    if Replied(w, x) { RepliedKept(w, w', x); }
    assert Agreed(w', x') == Agreed(w', x) && Replied(w', x') == Replied(w', x);
    hide TurnsOk, Grown, Steady, Agreed, Replied;
    SteadyMore(x, x', Agreed(w, x), Replied(w, x), Agreed(w', x'), Replied(w', x'));
  }

  lemma OneRunMoved(w: World, w': World, r: nat)
    requires RunsOk(w) && TurnsOk(w') && Grown(w, w') && r < |w.runs| == |w'.runs|
    requires RunOk(w', w'.runs[r])
    requires forall k | 0 <= k < |w.runs| && k != r ::
               w'.runs[k] == w.runs[k].(asked := w'.runs[k].asked, shared := w'.runs[k].shared)
    ensures RunsOk(w')
  {
    hide RunOk, Grown, TurnsOk;
    forall k | 0 <= k < |w'.runs| ensures RunOk(w', w'.runs[k]) {
      if k != r { RunKept(w, w', w.runs[k], w'.runs[k]); }
    }
  }

  lemma NoRunMoved(w: World, w': World)
    requires RunsOk(w) && TurnsOk(w') && Grown(w, w') && |w.runs| == |w'.runs|
    requires forall k | 0 <= k < |w.runs| :: w'.runs[k] == w.runs[k].(asked := w'.runs[k].asked, shared := w'.runs[k].shared)
    ensures RunsOk(w')
  {
    hide RunOk, Grown, TurnsOk;
    forall k | 0 <= k < |w'.runs| ensures RunOk(w', w'.runs[k]) {
      RunKept(w, w', w.runs[k], w'.runs[k]);
    }
  }

  lemma BeginRuns(w: World, w': World, seed: Seed)
    requires RunsOk(w) && TurnsOk(w') && Grown(w, w')
    requires w'.runs == w.runs + [Run(seed, Checking, None, [], false, "", false, false, false, false)]
    ensures RunsOk(w')
  {
    forall k | 0 <= k < |w'.runs| ensures RunOk(w', w'.runs[k]) {
      if k < |w.runs| {
        hide RunOk, Grown, TurnsOk;
        RunKept(w, w', w.runs[k], w'.runs[k]);
      }
    }
  }

  lemma ReadyRuns(w: World, r: nat)
    requires RunsOk(w) && TurnsOk(w) && Enabled(w, TakeReady(r))
    ensures RunOk(Next(w, TakeReady(r)), Next(w, TakeReady(r)).runs[r])
  {
    assert RunOk(w, w.runs[r]);
    var t := w.runs[r].turn.value;
    assert Orderly(w.turns[t]);
    hide Announced;
  }

  lemma ReplyRuns(w: World, r: nat, reply: Option<string>)
    requires RunsOk(w) && Enabled(w, StartReply(r, reply))
    ensures RunOk(OnStartReply(w, r, reply), OnStartReply(w, r, reply).runs[r])
  {
    assert RunOk(w, w.runs[r]);
  }

  lemma OwnSteady(x: Run, a: Action, agreed: bool, replied: bool)
    requires Steady(x, agreed, replied)
    requires match a
             case Check(_, _) => x.phase.Checking?
             case ReportUnsure(_) => x.phase.Unsure?
             case ReportInjected(_, _) => x.phase.Admitted?
             case FinalCheck(_, _) => x.phase.Reported?
             case WaitEnds(_) => x.phase.Waiting?
             case _ => false
    ensures Steady(Own(x, a), agreed, replied)
    ensures Own(x, a).turn == x.turn && Own(x, a).reply == x.reply
  {
  }

  predicate IsOwn(a: Action) {
    a.Check? || a.ReportUnsure? || a.ReportInjected? || a.FinalCheck? || a.WaitEnds?
  }

  lemma OwnRuns(w: World, a: Action)
    requires RunsOk(w) && Enabled(w, a) && IsOwn(a) && Grown(w, Next(w, a)) && TurnsOk(Next(w, a))
    ensures RunsOk(Next(w, a))
  {
    var w', x := Next(w, a), w.runs[a.run];
    assert w' == Put(w, a.run, Own(x, a)) by { hide Own, Steady; }
    assert RunOk(w, x);
    hide Steady, Own, TurnsOk, Grown;
    OwnSteady(x, a, Agreed(w, x), Replied(w, x));
    assert Agreed(w', Own(x, a)) == Agreed(w, x) && Replied(w', Own(x, a)) == Replied(w, x);
    assert RunOk(w', w'.runs[a.run]);
    hide RunsOk, RunOk, Agreed, Replied, Next;
    OneRunMoved(w, w', a.run);
  }

  lemma EarlySteady(x: Run, t: nat, agreed: bool, replied: bool, agreed': bool, replied': bool)
    requires Steady(x, agreed, replied) && x.phase in {Starting, Abandoning, Awaiting}
    ensures Steady(x.(phase := Unsure), agreed', replied')
    ensures x.phase.Starting? ==> Steady(x.(phase := Calling, turn := Some(t), written := true), agreed', replied')
  {
  }

  lemma StartRuns(w: World, r: nat)
    requires RunsOk(w) && Enabled(w, Start(r)) && Grown(w, OnStart(w, r)) && TurnsOk(OnStart(w, r))
    ensures RunsOk(OnStart(w, r))
  {
    var w', x := OnStart(w, r), w.runs[r];
    assert RunOk(w, x);
    hide Steady, Agreed, Replied, Grown, TurnsOk;
    EarlySteady(x, |w.turns|, Agreed(w, x), Replied(w, x), Agreed(w', w'.runs[r]), Replied(w', w'.runs[r]));
    assert RunOk(w', w'.runs[r]);
    hide RunsOk, RunOk;
    OneRunMoved(w, w', r);
  }

  /** A start that is given up. */
  lemma ClearRuns(w: World, r: nat, w': World)
    requires RunsOk(w) && r < |w.runs| && w.runs[r].phase in {Abandoning, Awaiting} && Grown(w, w') && TurnsOk(w')
    requires w'.runs == w.runs[r := w.runs[r].(phase := Unsure)]
    ensures RunsOk(w')
  {
    var x := w.runs[r];
    assert RunOk(w, x);
    hide Steady, Agreed, Replied, Grown, TurnsOk;
    EarlySteady(x, 0, Agreed(w, x), Replied(w, x), Agreed(w', w'.runs[r]), Replied(w', w'.runs[r]));
    assert RunOk(w', w'.runs[r]);
    hide RunsOk, RunOk;
    OneRunMoved(w, w', r);
  }

  /** The steps in which no execution moves. */
  predicate IsIdle(a: Action) {
    a.Notice? || a.FailLane? || a.Ask? || a.Look? || a.Strike? || a.Retire? || IsDelivery(a)
  }

  predicate IsDelivery(a: Action) {
    a.Offer? || a.Decline? || a.FirstLook? || a.SecondLook? || a.NativeAnswers? || a.Conclude?
  }

  lemma IdleRuns(w: World, a: Action)
    requires TurnsOk(w) && Enabled(w, a) && IsIdle(a)
    ensures var w' := Next(w, a);
            && |w.runs| == |w'.runs|
            && forall k | 0 <= k < |w.runs| ::
                 w'.runs[k] == w.runs[k].(asked := w'.runs[k].asked) && (w.runs[k].asked ==> w'.runs[k].asked)
  {
    if a.Notice? { NoticeTurns(w, a.e); }
    if a.FailLane? { FailTurns(w); }
    hide TurnsOk, OnNotice, Receive, Fail;
  }

  lemma StepRuns(w: World, a: Action)
    requires RunsOk(w) && TurnsOk(w) && Enabled(w, a)
    ensures RunsOk(Next(w, a))
  {
    StepTurns(w, a);
    var w' := Next(w, a);
    hide TurnsOk, Grown, RunOk, RunsOk, OnEnter, OnStart, OnNotice, Own, Steady, OnStartReply;
    match a
    case Begin(seed) => BeginRuns(w, w', seed);
    case Enter(r) => EnterRuns(w, r);
    case Start(r) => StartRuns(w, r);
    case StartReply(r, reply) => ReplyMoves(w, r, reply);
    case TakeReady(r) => ReadyRuns(w, r); OneRunMoved(w, w', r);
    case Abandon(r) => ClearRuns(w, r, w');
    case CancelStart(r) => ClearRuns(w, r, w');
    case Check(_, _) => OwnRuns(w, a);
    case ReportUnsure(_) => OwnRuns(w, a);
    case ReportInjected(_, _) => OwnRuns(w, a);
    case FinalCheck(_, _) => OwnRuns(w, a);
    case WaitEnds(_) => OwnRuns(w, a);
    case _ => IdleRuns(w, a); hide Next; NoRunMoved(w, w');
  }

  lemma ReplyMoves(w: World, r: nat, reply: Option<string>)
    requires RunsOk(w) && Enabled(w, StartReply(r, reply)) && Grown(w, OnStartReply(w, r, reply)) && TurnsOk(OnStartReply(w, r, reply))
    ensures RunsOk(OnStartReply(w, r, reply))
  {
    ReplyRuns(w, r, reply);
    hide RunsOk, RunOk, Grown, TurnsOk;
    OneRunMoved(w, OnStartReply(w, r, reply), r);
  }

  lemma EnterRuns(w: World, r: nat)
    requires RunsOk(w) && At(w, r, Entering) && Grown(w, OnEnter(w, r)) && TurnsOk(OnEnter(w, r))
    ensures RunsOk(OnEnter(w, r))
  {
    var w' := OnEnter(w, r);
    assert RunOk(w, w.runs[r]);
    assert RunOk(w', w'.runs[r]);
    hide RunsOk, RunOk, TurnsOk, Grown;
    OneRunMoved(w, w', r);
  }

  // ----- steps: the current run ----------------------------------------------------------------

  /** Nobody entered, and nobody inside was forgotten. */
  lemma CurrentKept(w: World, w': World)
    requires CurrentOk(w) && |w.runs| == |w'.runs|
    requires forall r | 0 <= r < |w.runs| ::
               && w'.runs[r].shared == w.runs[r].shared && (Inside(w'.runs[r].phase) ==> Inside(w.runs[r].phase))
               && (!w.runs[r].phase.Checking? && !w.runs[r].phase.Entering? ==> !w'.runs[r].phase.Checking? && !w'.runs[r].phase.Entering?)
    requires w'.current == w.current || (w'.current.None? && w.current.Some? && !Inside(w.runs[w.current.value].phase))
    requires StartingOwned(w')
    ensures CurrentOk(w')
  {
  }

  lemma EnterCurrent(w: World, r: nat)
    requires CurrentOk(w) && RunsOk(w) && TurnsOk(w) && At(w, r, Entering)
    ensures CurrentOk(OnEnter(w, r))
  {
    var w' := OnEnter(w, r);
    assert RunOk(w, w.runs[r]);
    forall k | 0 <= k < |w'.runs| && k != r && Inside(w'.runs[k].phase) ensures w'.runs[r].shared {
      assert Inside(w.runs[k].phase);
    }
    hide RunOk, TurnsOk;
  }

  lemma BeginCurrent(w: World, w': World, seed: Seed)
    requires CurrentOk(w) && w' == w.(runs := w.runs + [Run(seed, Checking, None, [], false, "", false, false, false, false)])
    ensures CurrentOk(w')
  {
  }

  /** The moves between entry and admission stay inside. */
  lemma StartCurrent(w: World, w': World, r: nat)
    requires CurrentOk(w) && r < |w.runs| && Inside(w.runs[r].phase) && w'.current == w.current && StartingOwned(w')
    requires |w'.runs| == |w.runs| && w'.runs[r].shared == w.runs[r].shared && Inside(w'.runs[r].phase)
    requires forall k | 0 <= k < |w.runs| && k != r :: w'.runs[k] == w.runs[k]
    ensures CurrentOk(w')
  {
  }

  lemma StartOwned(w: World, r: nat)
    requires StartingOwned(w) && |w.owners| == |w.turns| && Enabled(w, Start(r))
    ensures StartingOwned(OnStart(w, r))
  {
  }

  lemma ReplyOwned(w: World, r: nat, reply: Option<string>)
    requires StartingOwned(w) && |w.owners| == |w.turns| && Enabled(w, StartReply(r, reply))
    ensures StartingOwned(OnStartReply(w, r, reply))
  {
  }

  /** A start that is given up clears its own turn; a turn that is ready has started. */
  lemma LeaveOwned(w: World, w': World, r: nat)
    requires StartingOwned(w) && TurnsOk(w) && r < |w.runs| && w.runs[r].turn.Some?
    requires w'.turns == w.turns && w'.owners == w.owners && |w'.runs| == |w.runs|
    requires w'.active == None || w'.active == w.active
    requires w'.active.Some? && w'.active == w.runs[r].turn ==> w.turns[w.active.value].started
    requires forall k | 0 <= k < |w.runs| && k != r :: w'.runs[k].phase == w.runs[k].phase
    ensures StartingOwned(w')
  {
    hide Orderly, Announced;
  }

  lemma LeaveCurrent(w: World, w': World, r: nat)
    requires CurrentOk(w) && TurnsOk(w) && r < |w.runs| && w.runs[r].turn.Some? && Inside(w.runs[r].phase)
    requires w'.turns == w.turns && w'.owners == w.owners && w'.current == w.current
    requires w'.active == None || w'.active == w.active
    requires w'.active.Some? && w'.active == w.runs[r].turn ==> w.turns[w.active.value].started
    requires exists x :: w'.runs == w.runs[r := x] && x.shared == w.runs[r].shared && Inside(x.phase)
    ensures CurrentOk(w')
  {
    assert StartingOwned(w);
    hide TurnsOk, CurrentOk, StartingOwned, Inside;
    LeaveOwned(w, w', r);
    StartCurrent(w, w', r);
  }

  lemma EnterTurn(w: World, a: Action)
    requires CurrentOk(w) && TurnsOk(w) && Enabled(w, a) && (a.Start? || a.StartReply?)
    ensures CurrentOk(Next(w, a))
  {
    assert StartingOwned(w) && |w.owners| == |w.turns|;
    hide TurnsOk, CurrentOk, StartingOwned;
    if a.Start? { StartOwned(w, a.run); } else { ReplyOwned(w, a.run, a.reply); }
    StartCurrent(w, Next(w, a), a.run);
  }

  lemma LeaveTurn(w: World, a: Action)
    requires CurrentOk(w) && TurnsOk(w) && Enabled(w, a) && (a.Abandon? || a.CancelStart? || a.TakeReady?)
    ensures CurrentOk(Next(w, a))
  {
    var w', r := Next(w, a), a.run;
    if a.TakeReady? { ReadyStarted(w, w.runs[r].turn.value); }
    hide TurnsOk, CurrentOk;
    assert w'.runs == w.runs[r := w'.runs[r]];
    LeaveCurrent(w, w', r);
  }

  lemma StepCurrent(w: World, a: Action)
    requires CurrentOk(w) && RunsOk(w) && TurnsOk(w) && Enabled(w, a)
    ensures CurrentOk(Next(w, a))
  {
    hide RunsOk, TurnsOk, CurrentOk, OnNotice, OnEnter, OnStart, OnStartReply, Own;
    match a
    case Begin(seed) => BeginCurrent(w, Next(w, a), seed);
    case Enter(r) => EnterCurrent(w, r);
    case Start(_) => EnterTurn(w, a);
    case StartReply(_, _) => EnterTurn(w, a);
    case Abandon(_) => LeaveTurn(w, a);
    case CancelStart(_) => LeaveTurn(w, a);
    case TakeReady(_) => LeaveTurn(w, a);
    case _ => OtherCurrent(w, a);
  }

  lemma ReadyStarted(w: World, t: nat)
    requires TurnsOk(w) && t < |w.turns| && w.turns[t].ready != []
    ensures w.turns[t].started
  {
    assert Orderly(w.turns[t]);
  }

  lemma OtherCurrent(w: World, a: Action)
    requires CurrentOk(w) && RunsOk(w) && TurnsOk(w) && Enabled(w, a) && (IsOwn(a) || IsIdle(a))
    ensures CurrentOk(Next(w, a))
  {
    var w' := Next(w, a);
    StepTurns(w, a);
    if IsOwn(a) {
      OwnOutside(w, a);
    } else {
      IdleRuns(w, a);
      IdleActive(w, a);
    }
    assert StartingOwned(w');
    hide Next, TurnsOk, RunsOk, Own, Orderly, StartingOwned;
    CurrentKept(w, w');
  }

  lemma IdleActive(w: World, a: Action)
    requires TurnsOk(w) && Enabled(w, a) && IsIdle(a)
    ensures var w' := Next(w, a);
            && (w'.active == None || w'.active == w.active) && w'.owners == w.owners && |w'.turns| == |w.turns|
            && (w'.current == w.current || (w'.current.None? && w.current.Some? && At(w, w.current.value, Returned)))
  {
    hide TurnsOk, Receive, Fail;
  }

  /** An execution's own moves never enter the lane. */
  lemma OwnOutside(w: World, a: Action)
    requires Enabled(w, a) && IsOwn(a)
    ensures var w' := Next(w, a);
            && w' == w.(runs := w'.runs) && |w'.runs| == |w.runs|
            && (forall k | 0 <= k < |w.runs| :: w'.runs[k].shared == w.runs[k].shared && w'.runs[k].turn == w.runs[k].turn)
            && (forall k | 0 <= k < |w.runs| && k != a.run :: w'.runs[k] == w.runs[k])
            && (Inside(w'.runs[a.run].phase) ==> Inside(w.runs[a.run].phase))
            && !(w.runs[a.run].phase in {Calling, Abandoning, Awaiting})
            && (!w.runs[a.run].phase.Checking? ==> !w'.runs[a.run].phase.Checking? && !w'.runs[a.run].phase.Entering?)
  {
    hide OnNotice, OnEnter, OnStart, OnStartReply, OnLook, OnStrike;
  }

  // ----- steps: interrupts ---------------------------------------------------------------------

  /** What an interrupt depends on changes only in its favour. */
  ghost predicate Favours(w: World, w': World) {
    && |w.runs| <= |w'.runs| && w.owners <= w'.owners && |w.turns| <= |w'.turns|
    && (forall t | 0 <= t < |w.turns| && w.turns[t].started :: w'.turns[t].started)
    && forall r | 0 <= r < |w.runs| ::
         var x, x' := w.runs[r], w'.runs[r];
         && (x.asked ==> x'.asked) && (x.shared ==> x'.shared) && (x.turn.Some? ==> x'.turn == x.turn)
         && (x.phase.Returned? ==> x'.phase.Returned?)
         && (x.asked && Heeded(w, x) ==> Heeded(w', x'))
  }

  lemma InterruptKept(w: World, w': World, i: Interrupt)
    requires Favours(w, w') && InterruptOk(w, i)
    ensures InterruptOk(w', i)
  {
    hide Heeded;
  }

  lemma InterruptsKept(w: World, w': World)
    requires Favours(w, w') && InterruptsOk(w) && w'.interrupts == w.interrupts
    ensures InterruptsOk(w')
  {
    hide Favours, InterruptOk;
    forall k | 0 <= k < |w'.interrupts| ensures InterruptOk(w', w'.interrupts[k]) {
      InterruptKept(w, w', w.interrupts[k]);
    }
  }

  ghost predicate RunMoved(x: Run, x': Run) {
    && (x.asked ==> x'.asked) && (x.shared ==> x'.shared) && (x.turn.Some? ==> x'.turn == x.turn)
    && x'.seed == x.seed && (x.phase.Returned? ==> x'.phase.Returned? && x'.receipts == x.receipts)
    && ((x'.passed == x.passed && x'.stopped == x.stopped) || (x.asked ==> x'.stopped))
  }

  lemma RunMoves(w: World, a: Action)
    requires TurnsOk(w) && RunsOk(w) && Enabled(w, a)
    ensures var w' := Next(w, a);
            |w.runs| <= |w'.runs| && forall r | 0 <= r < |w.runs| :: RunMoved(w.runs[r], w'.runs[r])
  {
    if IsIdle(a) {
      IdleRuns(w, a);
      hide Next, TurnsOk;
    } else if IsOwn(a) {
      OwnMoved(w, a);
    } else {
      LaneMoved(w, a);
    }
  }

  lemma LaneMoved(w: World, a: Action)
    requires TurnsOk(w) && RunsOk(w) && Enabled(w, a) && !IsIdle(a) && !IsOwn(a)
    ensures var w' := Next(w, a);
            |w.runs| <= |w'.runs| && forall r | 0 <= r < |w.runs| :: RunMoved(w.runs[r], w'.runs[r])
  {
    if a.Enter? {
      hide TurnsOk, RunsOk;
    } else if a.Begin? {
      hide TurnsOk, RunsOk;
    } else {
      if a.Start? { assert RunOk(w, w.runs[a.run]); }
      OneMoved(w, a);
      hide TurnsOk, RunsOk, Next;
    }
  }

  lemma OneMoved(w: World, a: Action)
    requires Enabled(w, a) && !IsIdle(a) && !IsOwn(a) && !a.Enter? && !a.Begin? && (a.Start? ==> w.runs[a.run].turn.None?)
    ensures var w' := Next(w, a);
            && |w'.runs| == |w.runs| && RunMoved(w.runs[a.run], w'.runs[a.run])
            && forall k | 0 <= k < |w.runs| && k != a.run :: w'.runs[k] == w.runs[k]
  {
    match a
    case Start(_) => hide OnStartReply, Cleared;
    case StartReply(_, _) => hide OnStart, Cleared, Named;
    case _ => hide OnStart, OnStartReply;
  }

  lemma OwnMoved(w: World, a: Action)
    requires Enabled(w, a) && IsOwn(a)
    ensures var w' := Next(w, a);
            |w.runs| <= |w'.runs| && forall r | 0 <= r < |w.runs| :: RunMoved(w.runs[r], w'.runs[r])
  {
    OwnOutside(w, a);
    var x, x' := w.runs[a.run], Next(w, a).runs[a.run];
    assert x' == Own(x, a) by { hide Own; }
    hide Next;
    assert RunMoved(x, x');
  }

  lemma ActiveMoves(w: World, a: Action)
    requires TurnsOk(w) && Enabled(w, a)
    ensures var w' := Next(w, a);
            w'.active == w.active || w'.active == None || w'.active == Some(|w.turns|)
  {
    if IsIdle(a) {
      IdleActive(w, a);
      hide Next, TurnsOk;
    } else {
      hide TurnsOk, OnNotice, Own;
    }
  }

  lemma StepFavours(w: World, a: Action)
    requires TurnsOk(w) && RunsOk(w) && Enabled(w, a)
    ensures Favours(w, Next(w, a))
  {
    var w' := Next(w, a);
    StepTurns(w, a);
    RunMoves(w, a);
    ActiveMoves(w, a);
    hide Next;
    forall r | 0 <= r < |w.runs|
      ensures w.runs[r].asked && Heeded(w, w.runs[r]) ==> Heeded(w', w'.runs[r])
    {
      assert RunMoved(w.runs[r], w'.runs[r]);
      assert RunOk(w, w.runs[r]);
    }
    hide TurnsOk, RunsOk, Heeded, Extends;
  }

  lemma LookOk(w: World, r: nat)
    requires TurnsOk(w) && RunsOk(w) && CurrentOk(w) && r < |w.runs| && w.runs[r].asked
    ensures InterruptOk(w, OnLook(w, r))
  {
    assert RunOk(w, w.runs[r]);
    var i := OnLook(w, r);
    if i.Seen? {
      var o := w.owners[i.turn];
      assert w.runs[o].turn == Some(i.turn);
      assert RunOk(w, w.runs[o]);
      assert o != r && !w.runs[o].phase.Returned? ==> Inside(w.runs[o].phase);
    }
    hide Orderly, Announced;
  }

  lemma StrikeOk(w: World, i: Interrupt)
    requires TurnsOk(w) && RunsOk(w) && i.Seen? && InterruptOk(w, i)
    ensures InterruptOk(w, OnStrike(w, i))
  {
    var x := w.runs[i.run];
    assert RunOk(w, x);
    assert Orderly(w.turns[i.turn]);
    if !w.turns[i.turn].started && x.turn == Some(i.turn) {
      assert !Agreed(w, x);
      assert !x.passed;
    }
    hide Announced;
  }

  lemma StepInterrupts(w: World, a: Action)
    requires TurnsOk(w) && RunsOk(w) && CurrentOk(w) && InterruptsOk(w) && Enabled(w, a)
    ensures InterruptsOk(Next(w, a))
  {
    var w' := Next(w, a);
    StepFavours(w, a);
    match a
    case Look(k) =>
      assert InterruptOk(w, w.interrupts[k]);
      LookOk(w, w.interrupts[k].run);
      hide TurnsOk, RunsOk, CurrentOk, InterruptOk, OnLook, Favours;
      OneInterrupt(w, w', k);
    case Strike(k) =>
      assert InterruptOk(w, w.interrupts[k]);
      StrikeOk(w, w.interrupts[k]);
      hide TurnsOk, RunsOk, CurrentOk, InterruptOk, OnStrike, Favours;
      OneInterrupt(w, w', k);
    case Ask(r) =>
      hide TurnsOk, RunsOk, CurrentOk, InterruptsOk;
      AskInterrupts(w, w', r);
    case _ =>
      InterruptsUntouched(w, a);
      hide TurnsOk, RunsOk, CurrentOk, InterruptsOk, Next, Favours;
      InterruptsKept(w, w');
  }

  lemma InterruptsUntouched(w: World, a: Action)
    requires Enabled(w, a) && !a.Look? && !a.Strike? && !a.Ask?
    ensures Next(w, a).interrupts == w.interrupts
  {
    hide Receive, Fail, Own;
  }

  lemma OneInterrupt(w: World, w': World, k: nat)
    requires InterruptsOk(w) && k < |w.interrupts| && w' == w.(interrupts := w'.interrupts)
    requires exists i :: w'.interrupts == w.interrupts[k := i] && InterruptOk(w, i)
    ensures InterruptsOk(w')
  {
    forall j | 0 <= j < |w'.interrupts| ensures InterruptOk(w', w'.interrupts[j]) {
      assert InterruptOk(w, w'.interrupts[j]);
      InterruptSame(w, w', w'.interrupts[j]);
    }
    hide InterruptOk;
  }

  lemma InterruptSame(w: World, w': World, i: Interrupt)
    requires w' == w.(interrupts := w'.interrupts)
    ensures InterruptOk(w, i) == InterruptOk(w', i)
  {
  }

  lemma AskInterrupts(w: World, w': World, r: nat)
    requires InterruptsOk(w) && Favours(w, w') && r < |w'.runs| && w'.runs[r].asked
    requires w'.interrupts == w.interrupts + [Asked(r)]
    ensures InterruptsOk(w')
  {
    hide Favours;
    forall k | 0 <= k < |w'.interrupts| ensures InterruptOk(w', w'.interrupts[k]) {
      if k < |w.interrupts| {
        assert InterruptOk(w, w.interrupts[k]);
        InterruptKept(w, w', w.interrupts[k]);
      }
    }
  }

  // ----- theorems ------------------------------------------------------------------------------

  ghost predicate Sound(w: World) {
    TurnsOk(w) && RunsOk(w) && CurrentOk(w) && InterruptsOk(w)
  }

  lemma {:induction false} RunSound(ws: seq<World>, acts: seq<Action>, i: nat)
    requires Runs(ws, acts) && i < |ws|
    ensures Sound(ws[i])
  {
    if i > 0 {
      RunSound(ws, acts, i - 1);
      hide Next, Enabled, TurnsOk, RunsOk, CurrentOk, InterruptsOk;
      var w, a := ws[i - 1], acts[i - 1];
      StepTurns(w, a);
      StepRuns(w, a);
      StepCurrent(w, a);
      StepInterrupts(w, a);
    }
  }

  lemma RunGrown(ws: seq<World>, acts: seq<Action>, i: nat)
    requires Runs(ws, acts) && i < |acts|
    ensures Grown(ws[i], ws[i + 1])
  {
    RunSound(ws, acts, i);
    hide Next, Enabled, TurnsOk, RunsOk, CurrentOk, InterruptsOk, Grown;
    StepTurns(ws[i], acts[i]);
  }

  lemma ExtendsTransitive(a: Turn, b: Turn, c: Turn)
    requires Extends(b, a) && Extends(c, b)
    ensures Extends(c, a)
  {
  }

  lemma StepKept(ws: seq<World>, acts: seq<Action>, i: nat, t: nat)
    requires Runs(ws, acts) && i < |acts| && t < |ws[i].turns|
    ensures t < |ws[i + 1].turns| && Extends(ws[i + 1].turns[t], ws[i].turns[t])
    ensures ws[i].active != Some(t) ==> ws[i + 1].active != Some(t)
  {
    RunGrown(ws, acts, i);
    RunSound(ws, acts, i);
    hide Next, Enabled, TurnsOk, RunsOk, CurrentOk, InterruptsOk, Extends;
    ActiveMoves(ws[i], acts[i]);
  }

  lemma {:induction false} TurnsKept(ws: seq<World>, acts: seq<Action>, i: nat, k: nat, t: nat)
    requires Runs(ws, acts) && i <= k < |ws| == |acts| + 1 && t < |ws[i].turns|
    ensures t < |ws[k].turns| && Extends(ws[k].turns[t], ws[i].turns[t])
    ensures ws[i].active != Some(t) ==> ws[k].active != Some(t)
    decreases k
  {
    hide Runs;
    if i < k {
      TurnsKept(ws, acts, i, k - 1, t);
      StepKept(ws, acts, k - 1, t);
      hide Extends;
      ExtendsTransitive(ws[i].turns[t], ws[k - 1].turns[t], ws[k].turns[t]);
    }
  }

  /** The turn machine under every order of notifications, replies, cancellations and failures: at any
      later time the identifier, the signals and the result of a turn are as they were or have been
      added to, never changed; each channel got at most one signal, the second only after success on
      the first, so no send ever waits; a completed turn keeps its completion; and a turn that is no
      longer active never is again. */
  lemma TurnsNeverTakenBack(ws: seq<World>, acts: seq<Action>, i: nat, k: nat, t: nat)
    requires Runs(ws, acts) && i <= k < |ws| && t < |ws[i].turns|
    ensures t < |ws[k].turns| && Orderly(ws[k].turns[t]) && Extends(ws[k].turns[t], ws[i].turns[t])
    ensures ws[i].turns[t].done == [Good] ==> ws[k].turns[t].done == [Good] && ws[k].turns[t].observed == ws[i].turns[t].observed
    ensures ws[i].active != Some(t) ==> ws[k].active != Some(t)
  {
    TurnsKept(ws, acts, i, k, t);
    RunSound(ws, acts, k);
    RunSound(ws, acts, i);
    assert Orderly(ws[k].turns[t]) && Orderly(ws[i].turns[t]);
    hide Runs, TurnsOk, RunsOk, CurrentOk, InterruptsOk;
    if ws[i].turns[t].done == [Good] { CompletionKept(ws[i].turns[t], ws[k].turns[t]); }
  }

  lemma CompletionKept(a: Turn, b: Turn)
    requires Orderly(a) && Orderly(b) && Extends(b, a) && a.done == [Good]
    ensures b.done == [Good] && b.observed == a.observed
  {
    assert b.done[0] == Good;
  }

  /** Receipts never overclaim. Whatever an execution's seed and whatever races with it: by the time it
      returns it has reported exactly one receipt for a delivery and none for a text, and never more
      before; `rejected` means that no start was ever sent; `injected` means that the start reply and a
      notification of the lane's own thread, received after the start was begun, named the same turn. */
  lemma ReceiptsAreHonest(ws: seq<World>, acts: seq<Action>, i: nat, r: nat)
    requires Runs(ws, acts) && i < |ws| && r < |ws[i].runs|
    ensures var x := ws[i].runs[r];
            && |x.receipts| <= (if x.seed.delivery then 1 else 0)
            && (x.phase.Returned? ==> |x.receipts| == if x.seed.delivery then 1 else 0)
            && (Rejected in x.receipts ==> !x.written && forall t | 0 <= t < |ws[i].owners| :: ws[i].owners[t] != r)
            && (Injected in x.receipts ==>
                  && x.reply != "" && x.turn.Some? && x.turn.value < |ws[i].since|
                  && Announced(ws[i], x.reply, ws[i].since[x.turn.value]))
  {
    RunSound(ws, acts, i);
    var w := ws[i];
    assert RunOk(w, w.runs[r]);
    hide Runs, CurrentOk, InterruptsOk, Orderly, Announced;
  }

  /** No lost interrupt: an interrupt that made no native call, of a run that had the lane to itself and
      had not returned, finds the execution still short of its own look at the flag (or returned without
      having been admitted), or that look has called the native interrupt, or the run's turn is over. */
  lemma NoLostInterrupt(ws: seq<World>, acts: seq<Action>, i: nat, k: nat)
    requires Runs(ws, acts) && i < |ws| && k < |ws[i].interrupts| && ws[i].interrupts[k].Missed?
    requires !ws[i].interrupts[k].late
    ensures var r := ws[i].interrupts[k].run;
            && r < |ws[i].runs| && ws[i].runs[r].asked
            && (!ws[i].runs[r].shared ==> Heeded(ws[i], ws[i].runs[r]))
  {
    RunSound(ws, acts, i);
    assert InterruptOk(ws[i], ws[i].interrupts[k]);
    hide Runs, TurnsOk, RunsOk, CurrentOk, Heeded;
  }

  /** A native interrupt is aimed at the run's own turn, or at one left behind by an execution that had
      returned, unless executions shared the lane. */
  lemma InterruptsAreAimed(ws: seq<World>, acts: seq<Action>, i: nat, k: nat)
    requires Runs(ws, acts) && i < |ws| && k < |ws[i].interrupts| && ws[i].interrupts[k].Called?
    ensures var c := ws[i].interrupts[k];
            && c.run < |ws[i].runs| && ws[i].runs[c.run].asked && c.turn < |ws[i].turns| && ws[i].turns[c.turn].started
            && (ws[i].runs[c.run].shared || ws[i].runs[c.run].turn == Some(c.turn)
                || (c.turn < |ws[i].owners| && ws[i].owners[c.turn] < |ws[i].runs| && ws[i].runs[ws[i].owners[c.turn]].phase.Returned?))
  {
    RunSound(ws, acts, i);
    assert InterruptOk(ws[i], ws[i].interrupts[k]);
    hide Runs, RunsOk, CurrentOk, Orderly, Announced;
  }

  /** For a run that waits on its active turn, an interrupt reaches native exactly when the run is still
      the lane's current one. */
  lemma InterruptExact(ws: seq<World>, acts: seq<Action>, i: nat, r: nat)
    requires Runs(ws, acts) && i < |ws| && r < |ws[i].runs| && ws[i].runs[r].phase.Waiting?
    requires ws[i].active.Some? && ws[i].active == ws[i].runs[r].turn
    ensures var seen := OnLook(ws[i], r);
            (seen.Seen? && seen.turn < |ws[i].turns| && OnStrike(ws[i], seen) == Called(r, ws[i].active.value))
            <==> ws[i].current == Some(r)
    ensures !ws[i].runs[r].shared ==> ws[i].current == Some(r)
  {
    RunSound(ws, acts, i);
    var w := ws[i];
    assert RunOk(w, w.runs[r]);
    ReadyStarted(w, w.active.value);
    hide Runs, InterruptsOk, Orderly, Announced;
  }
}
