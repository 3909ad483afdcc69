/** Runs of the native client: any number of callers, the writers that share one gate, the reader, the
    request handlers and failing threads, interleaved one critical section or channel operation at a
    time. A cancelled context is an action that may be taken whenever the source looks at the context. */
module AppRun {
  import opened Prelude
  import opened BrokerIds
  import opened AppClient

  /** What a caller may find on its one-slot channel; `source` is the index of the response. */
  datatype Reply = Settled(source: nat) | Abandoned

  datatype Outcome = Got(reply: Reply) | GaveUp | WriteError

  /** Where a caller stands: before or in its write, waiting for the reply, cancelled after its call had
      been claimed and so owed the reply, about to withdraw after a failed write, or returned. */
  datatype Phase = Writing | Waiting | Owed | Withdrawing | Returned(outcome: Outcome)

  datatype Caller = Caller(phase: Phase, mail: seq<Reply>, observed: bool)

  datatype Writer = ByCaller(id: nat) | ByOther

  /** The holder of the write gate. `ended` is what the transport returned, once it has. */
  datatype Gate =
    | Free
    | Entered(who: Writer)
    | Cleared(who: Writer)
    | Flying(who: Writer)
    | Landed(who: Writer, ok: bool)
    | Deserting(who: Writer, ended: Option<bool>)
    | Joining(who: Writer, ended: Option<bool>)
    | Leaving(who: Writer, ok: bool)

  /** One transport write: what it returned, and whether its writer was cancelled meanwhile. */
  datatype Write = Write(who: Writer, ended: Option<bool>, deserted: bool)

  datatype Reader = Listening | Settling(id: nat, observes: bool) | Faulting | Stopped

  /** `running` gives each request handler, by the index of its frame, the key it serves; `notified` lists
      the frames handed to the notification handler. */
  datatype World = World(
    client: Client, gate: Gate, wire: seq<Write>, reader: Reader, failing: set<nat>,
    callers: map<nat, Caller>, running: map<nat, Key>, incoming: seq<Incoming>, answered: set<nat>,
    notified: seq<nat>)

  datatype Action =
    | OpenCall(observes: bool)
    | SkipGate(id: nat)
    | TakeGate(who: Writer)
    | Balk
    | Start
    | Finish(ok: bool)
    | Desert
    | Advance
    | Withdraw(id: nat)
    | CancelCaller(id: nat)
    | Receive(id: nat)
    | Arrive(f: Incoming)
    | Settle
    | ReaderFails
    | ContextFails
    | Wake(id: nat)
    | HandlerEnds(index: nat)

  function Initial(): World {
    World(Client(0, map[], false, map[]), Free, [], Listening, {}, map[], map[], [], {}, [])
  }

  /** The caller has neither written nor given up writing. */
  predicate Queued(w: World, id: nat) {
    id in w.callers && w.callers[id].phase == Writing && !(!w.gate.Free? && w.gate.who == ByCaller(id))
  }

  predicate Enabled(w: World, a: Action) {
    match a
    case OpenCall(_) => true
    case SkipGate(id) => Queued(w, id)
    case TakeGate(who) => w.gate.Free? && (who.ByCaller? ==> Queued(w, who.id))
    case Balk => w.gate.Cleared?
    case Start => w.gate.Cleared?
    case Finish(_) => w.gate.Flying? || ((w.gate.Deserting? || w.gate.Joining?) && w.gate.ended.None?)
    case Desert => w.gate.Flying?
    case Advance => || w.gate.Entered? || w.gate.Landed? || w.gate.Deserting? || w.gate.Leaving?
                    || (w.gate.Joining? && w.gate.ended.Some?)
    case Withdraw(id) => id in w.callers && w.callers[id].phase == Withdrawing
    case CancelCaller(id) => id in w.callers && w.callers[id].phase == Waiting
    case Receive(id) => id in w.callers && w.callers[id].phase in {Waiting, Owed} && w.callers[id].mail != []
    case Arrive(_) => w.reader.Listening?
    case Settle => w.reader.Settling? && w.incoming != []
    case ReaderFails => w.reader.Listening? || w.reader.Faulting?
    case ContextFails => true
    case Wake(id) => id in w.failing
    case HandlerEnds(index) => index in w.running
  }

  function Next(j: Json, w: World, a: Action): World
    requires Enabled(w, a)
  {
    match a
    case OpenCall(observes) => OnOpen(w, observes)
    case SkipGate(id) => Move(w, id, Withdrawing)
    case TakeGate(who) => w.(gate := Entered(who))
    case Balk => w.(gate := Leaving(w.gate.who, false))
    case Start => w.(gate := Flying(w.gate.who), wire := w.wire + [Write(w.gate.who, None, false)])
    case Finish(ok) => OnFinish(w, ok)
    case Desert => w.(gate := Deserting(w.gate.who, None), wire := Mark(w.wire, (x: Write) => x.(deserted := true)))
    case Advance => OnAdvance(w)
    case Withdraw(id) => Move(w, id, Returned(WriteError)).(client := Remove(w.client, id))
    case CancelCaller(id) =>
      var (c, unclaimed) := Cancel(w.client, id);
      Move(w, id, if unclaimed then Returned(GaveUp) else Owed).(client := c)
    case Receive(id) => Move(w, id, Returned(Got(w.callers[id].mail[0])))
    case Arrive(f) => OnArrive(j, w, f)
    case Settle => OnSettle(w)
    case ReaderFails => Failed(w).(reader := Stopped)
    case ContextFails => Failed(w)
    case Wake(id) => Deliver(w, id, Abandoned, false).(failing := w.failing - {id})
    case HandlerEnds(index) => w.(client := End(w.client, w.running[index]), running := w.running - {index})
  }

  /** The last write, changed. */
  function Mark(wire: seq<Write>, change: Write -> Write): seq<Write> {
    if wire == [] then wire else wire[|wire| - 1 := change(wire[|wire| - 1])]
  }

  function Move(w: World, id: nat, phase: Phase): World {
    if id in w.callers then w.(callers := w.callers[id := w.callers[id].(phase := phase)]) else w
  }

  function Deliver(w: World, id: nat, r: Reply, observed: bool): World {
    if id in w.callers then
      var x := w.callers[id];
      w.(callers := w.callers[id := x.(mail := x.mail + [r], observed := x.observed || observed)])
    else w
  }

  function Failed(w: World): World {
    w.(client := Fail(w.client), failing := w.failing + Orphans(w.client))
  }

  function OnOpen(w: World, observes: bool): World {
    var (c, r) := Register(w.client, observes);
    if r.Taken? then w.(client := c, callers := w.callers[r.id := Caller(Writing, [], false)]) else w
  }

  function OnFinish(w: World, ok: bool): World
    requires Enabled(w, Finish(ok))
  {
    var wire := Mark(w.wire, (x: Write) => x.(ended := Some(ok)));
    match w.gate
    case Flying(who) => w.(gate := Landed(who, ok), wire := wire)
    case Deserting(who, _) => w.(gate := Deserting(who, Some(ok)), wire := wire)
    case Joining(who, _) => w.(gate := Joining(who, Some(ok)), wire := wire)
    case _ => w
  }

  /** The steps of the gate's holder that are not a choice. */
  function OnAdvance(w: World): World {
    match w.gate
    case Entered(who) => w.(gate := if w.client.failed then Leaving(who, false) else Cleared(who))
    case Landed(who, ok) => (if ok then w else Failed(w)).(gate := Leaving(who, ok))
    case Deserting(who, ended) => Failed(w).(gate := Joining(who, ended))
    case Joining(who, _) => Failed(w).(gate := Leaving(who, false))
    case Leaving(who, ok) =>
      var w' := w.(gate := Free);
      if who.ByCaller? then Move(w', who.id, if ok then Waiting else Withdrawing) else w'
    case _ => w
  }

  function OnArrive(j: Json, w: World, f: Incoming): World {
    var (c, v) := Handle(j, w.client, f);
    var w' := w.(client := c, incoming := w.incoming + [f]);
    match v
    case Fault => w'.(reader := Faulting)
    case Serve(key) => w'.(running := w.running[|w.incoming| := key])
    case Discard(id) => w'.(answered := w.answered + {id})
    case Claimed(id, observes) => w'.(reader := Settling(id, observes), answered := w.answered + {id})
    case Notify => w'.(notified := w.notified + [|w.incoming|])
    case Resolved => w'
  }

  /** The observer of a result, then the send. */
  function OnSettle(w: World): World
    requires w.reader.Settling? && w.incoming != []
  {
    var i := |w.incoming| - 1;
    Deliver(w, w.reader.id, Settled(i), w.reader.observes && !w.incoming[i].refused).(reader := Listening)
  }

  /** Every state reached after a finite number of steps from the start. */
  ghost predicate Run(j: Json, ws: seq<World>, acts: seq<Action>) {
    && |ws| == |acts| + 1
    && ws[0] == Initial()
    && forall i | 0 <= i < |acts| :: Enabled(ws[i], acts[i]) && ws[i + 1] == Next(j, ws[i], acts[i])
  }

  // ----- whole frames --------------------------------------------------------------------------

  /** The write ended, fully written, and nobody walked away from it. */
  predicate Whole(x: Write) {
    x.ended == Some(true) && !x.deserted
  }

  /** The transport is writing for the holder of the gate. */
  predicate InFlight(g: Gate) {
    g.Flying? || ((g.Deserting? || g.Joining?) && g.ended.None?)
  }

  ghost predicate WireOk(w: World) {
    && (forall i | 0 <= i < |w.wire| - 1 :: Whole(w.wire[i]))
    && (InFlight(w.gate) <==> w.wire != [] && w.wire[|w.wire| - 1].ended.None?)
    && match w.gate
       case Flying(who) => w.wire[|w.wire| - 1] == Write(who, None, false)
       case Landed(who, ok) => w.wire != [] && w.wire[|w.wire| - 1] == Write(who, Some(ok), false)
       case Cleared(_) => w.wire == [] || Whole(w.wire[|w.wire| - 1])
       case Deserting(_, _) => true
       case Joining(_, _) => w.client.failed
       case _ => w.wire == [] || w.client.failed || Whole(w.wire[|w.wire| - 1])
  }

  lemma StepWire(j: Json, w: World, a: Action)
    requires WireOk(w) && Enabled(w, a)
    ensures WireOk(Next(j, w, a))
  {
    match a {
      case Start => GateWire(j, w, a);
      case Balk => GateWire(j, w, a);
      case TakeGate(_) => GateWire(j, w, a);
      case Desert => GateWire(j, w, a);
      case Finish(ok) => FinishWire(w, ok);
      case Advance => AdvanceWire(w);
      case Arrive(f) =>
        HandleKeepsFailed(j, w.client, f);
        hide Handle, WireOk;
        WireSame(w, OnArrive(j, w, f));
      case _ =>
        hide Handle, WireOk, OnArrive, OnFinish, OnAdvance;
        WireSame(w, Next(j, w, a));
    }
  }

  lemma WireSame(w: World, w': World)
    requires WireOk(w) && w'.wire == w.wire && w'.gate == w.gate && (w.client.failed ==> w'.client.failed)
    ensures WireOk(w')
  {
  }

  lemma GateWire(j: Json, w: World, a: Action)
    requires WireOk(w) && Enabled(w, a) && (a.Start? || a.Balk? || a.TakeGate? || a.Desert?)
    ensures WireOk(Next(j, w, a))
  {
    hide OnArrive, OnAdvance, OnFinish, OnOpen, OnSettle, Fail, Orphans;
  }

  lemma FinishWire(w: World, ok: bool)
    requires WireOk(w) && Enabled(w, Finish(ok))
    ensures WireOk(OnFinish(w, ok))
  {
  }

  lemma AdvanceWire(w: World)
    requires WireOk(w) && Enabled(w, Advance)
    ensures WireOk(OnAdvance(w))
  {
  }

  lemma HandleKeepsFailed(j: Json, c: Client, f: Incoming)
    ensures Handle(j, c, f).0.failed == c.failed && Handle(j, c, f).0.next == c.next
  {
    hide RequestKey;
  }

  /** In every run there is at most one transport write at a time, and no write was ever started after
      one that did not complete, failed, or was walked away from. */
  lemma {:induction false} WholeFrames(j: Json, ws: seq<World>, acts: seq<Action>, i: nat)
    requires Run(j, ws, acts) && i < |ws|
    ensures WireOk(ws[i])
    ensures forall k | 0 <= k < |ws[i].wire| - 1 :: Whole(ws[i].wire[k])
  {
    if i > 0 {
      hide Next, Enabled, WireOk;
      WholeFrames(j, ws, acts, i - 1);
      StepWire(j, ws[i - 1], acts[i - 1]);
      assert WireOk(ws[i]);
    }
    assert WireOk(ws[i]);
  }

  // ----- claim against cancellation ------------------------------------------------------------

  predicate ClaimedFor(r: Reader, id: nat) {
    r.Settling? && r.id == id
  }

  /** Somebody other than the caller owns completion. */
  predicate Committed(w: World, id: nat) {
    ClaimedFor(w.reader, id) || id in w.failing
  }

  predicate Listened(c: Client, id: nat) {
    id in c.pending && c.pending[id].Live?
  }

  ghost predicate Answers(j: Json, f: Incoming, id: nat) {
    f.verb == "" && ResponseId(j, f) == Some(id)
  }

  function Slot(c: Client, id: nat): Option<Entry> {
    if id in c.pending then Some(c.pending[id]) else None
  }

  /** A caller against who owns its completion and what its slot holds. */
  predicate Consistent(x: Caller, claimed: bool, failing: bool, slot: Option<Entry>) {
    && |x.mail| <= 1
    && !(claimed && failing)
    && (claimed || failing ==> x.mail == [])
    && (claimed || failing || x.mail != [] ==> slot == None)
    && (x.observed ==> x.mail != [] && x.mail[0].Settled?)
    && match x.phase
       case Owed => x.mail != [] || claimed || failing
       case Returned(GaveUp) => x.mail == [] && !claimed && !failing && (slot == None || slot == Some(Drained))
       case Returned(Got(r)) => x.mail == [r]
       case Returned(WriteError) => slot == None
       case _ => (x.mail != [] || claimed || failing || slot.Some?) && slot != Some(Drained)
  }

  /** Whatever was sent on the channel is the response that carries the caller's identifier. */
  ghost predicate MailOk(j: Json, incoming: seq<Incoming>, id: nat, x: Caller) {
    forall r | r in x.mail && r.Settled? :: r.source < |incoming| && Answers(j, incoming[r.source], id)
  }

  ghost predicate CallerOk(j: Json, w: World, id: nat, x: Caller) {
    && Consistent(x, ClaimedFor(w.reader, id), id in w.failing, Slot(w.client, id))
    && MailOk(j, w.incoming, id, x)
  }

  ghost predicate Known(j: Json, w: World) {
    && |w.client.pending| <= RequestLimit
    && (forall id | id in w.client.pending :: id in w.callers)
    && (forall id | id in w.failing :: id in w.callers)
    && (forall id | id in w.callers :: id <= w.client.next)
    && (w.reader.Settling? ==> w.reader.id in w.callers && w.incoming != []
                               && Answers(j, w.incoming[|w.incoming| - 1], w.reader.id))
    && (w.client.failed ==> w.client.pending == map[])
  }

  ghost predicate CallersOk(j: Json, w: World) {
    Known(j, w) && forall id | id in w.callers :: CallerOk(j, w, id, w.callers[id])
  }

  /** At most one caller moved. */
  lemma OneCallerMoved(j: Json, w: World, w': World, id: nat)
    requires CallersOk(j, w) && Known(j, w') && w.incoming <= w'.incoming
    requires id in w'.callers ==> CallerOk(j, w', id, w'.callers[id])
    requires forall i | i in w'.callers && i != id ::
               && i in w.callers && w'.callers[i] == w.callers[i]
               && ClaimedFor(w'.reader, i) == ClaimedFor(w.reader, i)
               && (i in w'.failing <==> i in w.failing)
               && Slot(w'.client, i) == Slot(w.client, i)
    ensures CallersOk(j, w')
  {
    hide Consistent, Answers, Slot;
    forall i | i in w'.callers ensures CallerOk(j, w', i, w'.callers[i]) {
      if i != id { assert CallerOk(j, w, i, w.callers[i]); }
    }
  }

  /** No caller moved. */
  lemma NoCallerMoved(j: Json, w: World, w': World)
    requires CallersOk(j, w) && w'.callers == w.callers && w'.failing == w.failing
    requires (w'.reader == w.reader && w'.incoming == w.incoming)
             || (!w.reader.Settling? && !w'.reader.Settling? && w.incoming <= w'.incoming)
    requires w'.client.pending == w.client.pending && w'.client.next == w.client.next
    requires w'.client.failed == w.client.failed
    ensures CallersOk(j, w')
  {
    hide Consistent, Answers, Slot;
    forall i | i in w'.callers ensures CallerOk(j, w', i, w'.callers[i]) {
      assert CallerOk(j, w, i, w.callers[i]);
      assert Slot(w'.client, i) == Slot(w.client, i) by { SlotOf(w.client, w'.client, i); }
    }
  }

  lemma SlotOf(a: Client, b: Client, id: nat)
    requires a.pending == b.pending
    ensures Slot(a, id) == Slot(b, id)
  {
  }

  lemma RemoveShrinks(c: Client, id: nat)
    ensures |Remove(c, id).pending| <= |c.pending|
  {
    if id in c.pending {
      assert c.pending == Remove(c, id).pending[id := c.pending[id]];
    } else {
      assert c.pending == Remove(c, id).pending;
    }
  }

  // How one caller's record follows its slot and its completion.

  lemma WithdrawConsistent(x: Caller, claimed: bool, failing: bool, slot: Option<Entry>)
    requires Consistent(x, claimed, failing, slot) && x.phase == Withdrawing
    ensures Consistent(x.(phase := Returned(WriteError)), claimed, failing, None)
  {
  }

  lemma CancelConsistent(x: Caller, claimed: bool, failing: bool, slot: Option<Entry>)
    requires Consistent(x, claimed, failing, slot) && x.phase == Waiting
    ensures if slot.Some? then Consistent(x.(phase := Returned(GaveUp)), claimed, failing, Some(Drained))
            else Consistent(x.(phase := Owed), claimed, failing, None)
  {
  }

  lemma ReceiveConsistent(x: Caller, claimed: bool, failing: bool, slot: Option<Entry>)
    requires Consistent(x, claimed, failing, slot) && x.phase in {Waiting, Owed} && x.mail != []
    ensures Consistent(x.(phase := Returned(Got(x.mail[0]))), claimed, failing, slot)
  {
  }

  /** Whoever owns completion finds the channel empty and gives completion up by sending. */
  lemma SendConsistent(x: Caller, claimed: bool, failing: bool, slot: Option<Entry>, r: Reply, observed: bool)
    requires Consistent(x, claimed, failing, slot) && (claimed || failing) && (observed ==> r.Settled?)
    ensures x.mail == []
    ensures Consistent(x.(mail := x.mail + [r], observed := x.observed || observed), false, false, slot)
  {
  }

  lemma ClaimConsistent(x: Caller, claimed: bool, failing: bool, slot: Option<Entry>)
    requires Consistent(x, claimed, failing, slot) && slot.Some?
    ensures !claimed && !failing && Consistent(x, slot.value.Live?, false, None)
  {
  }

  lemma WithdrawCallers(j: Json, w: World, id: nat)
    requires CallersOk(j, w) && Enabled(w, Withdraw(id))
    ensures CallersOk(j, Next(j, w, Withdraw(id)))
  {
    hide Answers, Consistent;
    assert CallerOk(j, w, id, w.callers[id]);
    WithdrawConsistent(w.callers[id], ClaimedFor(w.reader, id), id in w.failing, Slot(w.client, id));
    RemoveShrinks(w.client, id);
    var w' := Next(j, w, Withdraw(id));
    assert CallerOk(j, w', id, w'.callers[id]);
    OneCallerMoved(j, w, w', id);
  }

  lemma CancelCallers(j: Json, w: World, id: nat)
    requires CallersOk(j, w) && Enabled(w, CancelCaller(id))
    ensures CallersOk(j, Next(j, w, CancelCaller(id)))
  {
    hide Answers, Consistent;
    assert CallerOk(j, w, id, w.callers[id]);
    CancelConsistent(w.callers[id], ClaimedFor(w.reader, id), id in w.failing, Slot(w.client, id));
    var w' := Next(j, w, CancelCaller(id));
    if id in w.client.pending {
      assert w'.client.pending.Keys == w.client.pending.Keys;
      assert |w'.client.pending| == |w'.client.pending.Keys| == |w.client.pending.Keys| == |w.client.pending|;
    }
    assert CallerOk(j, w', id, w'.callers[id]);
    OneCallerMoved(j, w, w', id);
  }

  lemma ReceiveCallers(j: Json, w: World, id: nat)
    requires CallersOk(j, w) && Enabled(w, Receive(id))
    ensures CallersOk(j, Next(j, w, Receive(id)))
  {
    hide Answers, Consistent;
    assert CallerOk(j, w, id, w.callers[id]);
    ReceiveConsistent(w.callers[id], ClaimedFor(w.reader, id), id in w.failing, Slot(w.client, id));
    var w' := Next(j, w, Receive(id));
    assert CallerOk(j, w', id, w'.callers[id]);
    OneCallerMoved(j, w, w', id);
  }

  /** One send, by the reader or by a failing thread. */
  lemma SendCallers(j: Json, w: World, w': World, id: nat, r: Reply, observed: bool)
    requires CallersOk(j, w) && Committed(w, id) && id in w.callers && (observed ==> r.Settled?)
    requires r.Settled? ==> r.source < |w.incoming| && Answers(j, w.incoming[r.source], id)
    requires w' == Deliver(w, id, r, observed).(reader := w'.reader, failing := w'.failing)
    requires if ClaimedFor(w.reader, id) then w'.reader == Listening && w'.failing == w.failing
             else w'.reader == w.reader && w'.failing == w.failing - {id}
    ensures CallersOk(j, w')
  {
    hide Answers, Consistent;
    assert CallerOk(j, w, id, w.callers[id]);
    SendConsistent(w.callers[id], ClaimedFor(w.reader, id), id in w.failing, Slot(w.client, id), r, observed);
    assert !(ClaimedFor(w.reader, id) && id in w.failing) by { BothOwn(j, w, id); }
    assert CallerOk(j, w', id, w'.callers[id]);
    OneCallerMoved(j, w, w', id);
  }

  lemma BothOwn(j: Json, w: World, id: nat)
    requires CallersOk(j, w) && id in w.callers
    ensures !(ClaimedFor(w.reader, id) && id in w.failing)
  {
    assert CallerOk(j, w, id, w.callers[id]);
  }

  lemma FailConsistent(x: Caller, claimed: bool, failing: bool, slot: Option<Entry>)
    requires Consistent(x, claimed, failing, slot)
    ensures Consistent(x, claimed, failing || (slot.Some? && slot.value.Live?), None)
  {
  }

  lemma FailCallers(j: Json, w: World, w': World)
    requires CallersOk(j, w)
    requires w'.client == Fail(w.client) && w'.failing == w.failing + Orphans(w.client) && w'.callers == w.callers
    requires w'.incoming == w.incoming && (w'.reader == w.reader || (!w.reader.Settling? && !w'.reader.Settling?))
    ensures CallersOk(j, w')
  {
    hide Answers, Consistent;
    forall id | id in w'.callers ensures CallerOk(j, w', id, w'.callers[id]) {
      assert CallerOk(j, w, id, w.callers[id]);
      FailConsistent(w.callers[id], ClaimedFor(w.reader, id), id in w.failing, Slot(w.client, id));
    }
  }

  /** A caller that moves on within its write. */
  lemma MoveCallers(j: Json, w: World, id: nat, phase: Phase)
    requires CallersOk(j, w) && phase in {Waiting, Withdrawing} && (id in w.callers ==> w.callers[id].phase == Writing)
    ensures CallersOk(j, Move(w, id, phase))
  {
    hide Answers;
    var w' := Move(w, id, phase);
    if id in w.callers {
      assert CallerOk(j, w, id, w.callers[id]);
      assert CallerOk(j, w', id, w'.callers[id]);
    }
    OneCallerMoved(j, w, w', id);
  }

  lemma OpenCallers(j: Json, w: World, observes: bool)
    requires CallersOk(j, w)
    ensures CallersOk(j, OnOpen(w, observes))
  {
    hide Answers;
    var w' := OnOpen(w, observes);
    if w' != w {
      var id := w.client.next + 1;
      assert id !in w.client.pending;
      assert CallerOk(j, w', id, w'.callers[id]);
      OneCallerMoved(j, w, w', id);
    }
  }

  lemma HandlePending(j: Json, c: Client, f: Incoming)
    ensures var (c', v) := Handle(j, c, f);
            && c'.failed == c.failed && c'.next == c.next
            && (if v.Claimed? || v.Discard? then
                  v.id in c.pending && c'.pending == c.pending - {v.id} && Answers(j, f, v.id)
                  && c.pending[v.id] == (if v.Claimed? then Live(v.observes) else Drained)
                else c'.pending == c.pending)
  {
    hide RequestKey;
    if f.verb == "" { hide Begin, Resolve; } else { hide Respond; }
  }

  /** The reader takes a correlation out of the table. */
  lemma ClaimCallers(j: Json, w: World, w': World, id: nat, f: Incoming)
    requires CallersOk(j, w) && w.reader.Listening? && id in w.client.pending && Answers(j, f, id)
    requires w'.client == Remove(w.client, id).(serving := w'.client.serving)
    requires w'.callers == w.callers && w'.failing == w.failing && w'.incoming == w.incoming + [f]
    requires if w.client.pending[id].Live? then w'.reader.Settling? && w'.reader.id == id else w'.reader == w.reader
    ensures CallersOk(j, w')
  {
    RemoveShrinks(w.client, id);
    hide Consistent, Answers;
    assert CallerOk(j, w, id, w.callers[id]);
    ClaimConsistent(w.callers[id], ClaimedFor(w.reader, id), id in w.failing, Slot(w.client, id));
    assert CallerOk(j, w', id, w'.callers[id]);
    OneCallerMoved(j, w, w', id);
  }

  lemma ArriveCallers(j: Json, w: World, f: Incoming)
    requires CallersOk(j, w) && w.reader.Listening?
    ensures CallersOk(j, OnArrive(j, w, f))
  {
    HandlePending(j, w.client, f);
    var w' := OnArrive(j, w, f);
    var v := Handle(j, w.client, f).1;
    hide Handle, Answers, CallersOk;
    if v.Claimed? || v.Discard? { ClaimCallers(j, w, w', v.id, f); } else { NoCallerMoved(j, w, w'); }
  }

  lemma StepCallers(j: Json, w: World, a: Action)
    requires CallersOk(j, w) && SlotsOk(w) && Enabled(w, a)
    ensures CallersOk(j, Next(j, w, a))
  {
    hide CallersOk, OnArrive, OnOpen, Fail, Orphans, Move, Deliver, Sent;
    match a
    case Arrive(f) => ArriveCallers(j, w, f);
    case OpenCall(observes) => OpenCallers(j, w, observes);
    case SkipGate(id) => MoveCallers(j, w, id, Withdrawing);
    case Withdraw(id) => WithdrawCallers(j, w, id);
    case CancelCaller(id) => CancelCallers(j, w, id);
    case Receive(id) => ReceiveCallers(j, w, id);
    case Settle => SettleCallers(j, w);
    case Wake(id) => WakeCallers(j, w, id);
    case ReaderFails => FailCallers(j, w, Next(j, w, a));
    case ContextFails => FailCallers(j, w, Next(j, w, a));
    case Advance => AdvanceCallers(j, w);
    case _ => NoCallerMoved(j, w, Next(j, w, a));
  }

  lemma SettleCallers(j: Json, w: World)
    requires CallersOk(j, w) && Enabled(w, Settle)
    ensures CallersOk(j, OnSettle(w))
  {
    var i := |w.incoming| - 1;
    assert Known(j, w);
    hide CallersOk, Answers;
    SendCallers(j, w, OnSettle(w), w.reader.id, Settled(i), w.reader.observes && !w.incoming[i].refused);
  }

  lemma WakeCallers(j: Json, w: World, id: nat)
    requires CallersOk(j, w) && Enabled(w, Wake(id))
    ensures CallersOk(j, Next(j, w, Wake(id)))
  {
    assert Known(j, w);
    BothOwn(j, w, id);
    hide CallersOk, Answers;
    SendCallers(j, w, Next(j, w, Wake(id)), id, Abandoned, false);
  }

  lemma AdvanceCallers(j: Json, w: World)
    requires CallersOk(j, w) && SlotsOk(w) && Enabled(w, Advance)
    ensures CallersOk(j, OnAdvance(w))
  {
    var w' := OnAdvance(w);
    hide CallersOk, Fail, Orphans, Sent;
    match w.gate
    case Leaving(who, ok) =>
      if who.ByCaller? {
        var moved := Move(w, who.id, if ok then Waiting else Withdrawing);
        MoveCallers(j, w, who.id, if ok then Waiting else Withdrawing);
        NoCallerMoved(j, moved, w');
      } else {
        NoCallerMoved(j, w, w');
      }
    case Landed(_, ok) => if ok { NoCallerMoved(j, w, w'); } else { FailCallers(j, w, w'); }
    case Entered(_) => NoCallerMoved(j, w, w');
    case _ => FailCallers(j, w, w');
  }

  // ----- slots ---------------------------------------------------------------------------------

  /** The caller's frame reached the transport, whole or not. */
  ghost predicate Sent(w: World, id: nat) {
    exists k :: 0 <= k < |w.wire| && w.wire[k].who == ByCaller(id)
  }

  predicate Holds(g: Gate, id: nat) {
    !g.Free? && g.who == ByCaller(id)
  }

  /** The caller's frame cannot have been started, unless the client failed at its write. */
  predicate BeforeWrite(w: World, id: nat)
    requires id in w.callers
  {
    || (w.callers[id].phase == Writing && !Holds(w.gate, id))
    || (Holds(w.gate, id) && (w.gate.Entered? || w.gate.Cleared? || (w.gate.Leaving? && !w.gate.ok && !w.client.failed)))
    || (w.callers[id].phase == Withdrawing && !w.client.failed)
  }

  ghost predicate SlotsOk(w: World) {
    && (forall k | 0 <= k < |w.wire| && w.wire[k].who.ByCaller? :: w.wire[k].who.id in w.callers)
    && (!w.gate.Free? && w.gate.who.ByCaller? ==> w.gate.who.id in w.callers && w.callers[w.gate.who.id].phase == Writing)
    && (forall id | id in w.callers && BeforeWrite(w, id) :: !Sent(w, id))
    && (forall id | id in w.callers && Sent(w, id) && !w.client.failed :: id in w.client.pending || id in w.answered)
    && (forall i, k | 0 <= i < k < |w.wire| && w.wire[i].who.ByCaller? :: w.wire[i].who != w.wire[k].who)
  }

  /** The wire keeps its writers. */
  predicate SameWriters(a: seq<Write>, b: seq<Write>) {
    |a| == |b| && forall k | 0 <= k < |a| :: a[k].who == b[k].who
  }

  lemma SlotsSame(w: World, w': World)
    requires SlotsOk(w) && SameWriters(w.wire, w'.wire) && w.callers.Keys <= w'.callers.Keys
    requires forall id | id in w'.callers && BeforeWrite(w', id) :: id !in w.callers || BeforeWrite(w, id)
    requires !w'.gate.Free? && w'.gate.who.ByCaller? ==> w'.gate.who.id in w'.callers && w'.callers[w'.gate.who.id].phase == Writing
    requires w.client.failed ==> w'.client.failed
    requires w.answered <= w'.answered
    requires forall id | id in w.callers && id in w.client.pending && Sent(w, id) && !w'.client.failed ::
               id in w'.client.pending || id in w'.answered
    ensures SlotsOk(w')
  {
    forall id ensures Sent(w', id) == Sent(w, id) {
      if Sent(w, id) {
        var k :| 0 <= k < |w.wire| && w.wire[k].who == ByCaller(id);
        assert w'.wire[k].who == ByCaller(id);
      }
      if Sent(w', id) {
        var k :| 0 <= k < |w'.wire| && w'.wire[k].who == ByCaller(id);
        assert w.wire[k].who == ByCaller(id);
      }
    }
    hide BeforeWrite;
  }

  lemma StartSlots(w: World)
    requires SlotsOk(w) && w.gate.Cleared? && CallersHaveSlot(w)
    ensures SlotsOk(w.(gate := Flying(w.gate.who), wire := w.wire + [Write(w.gate.who, None, false)]))
  {
    var w' := w.(gate := Flying(w.gate.who), wire := w.wire + [Write(w.gate.who, None, false)]);
    assert w.gate.who.ByCaller? ==> BeforeWrite(w, w.gate.who.id);
    forall id ensures Sent(w', id) <==> Sent(w, id) || w.gate.who == ByCaller(id) {
      if Sent(w, id) {
        var k :| 0 <= k < |w.wire| && w.wire[k].who == ByCaller(id);
        assert w'.wire[k].who == ByCaller(id);
      }
      if w.gate.who == ByCaller(id) { assert w'.wire[|w.wire|].who == ByCaller(id); }
    }
    forall k | 0 <= k < |w.wire| && w.wire[k].who.ByCaller? ensures w.wire[k].who != w.gate.who {
      if w.wire[k].who == w.gate.who { assert Sent(w, w.gate.who.id); }
    }
  }

  /** A caller in its write holds its slot, or the slot was answered, or the client failed. */
  ghost predicate CallersHaveSlot(w: World) {
    forall id | id in w.callers && w.callers[id].phase == Writing && !w.client.failed ::
      id in w.client.pending || id in w.answered
  }

  lemma ArriveHaveSlot(j: Json, w: World, f: Incoming)
    requires CallersHaveSlot(w)
    ensures CallersHaveSlot(OnArrive(j, w, f))
  {
    HandlePending(j, w.client, f);
    hide Handle, Answers, Slot;
    var w' := OnArrive(j, w, f);
    assert w'.callers == w.callers && w'.client.failed == w.client.failed && w.answered <= w'.answered;
    assert forall id | id in w.client.pending :: id in w'.client.pending || id in w'.answered;
  }

  lemma StepHaveSlot(j: Json, w: World, a: Action)
    requires CallersHaveSlot(w) && Enabled(w, a)
    ensures CallersHaveSlot(Next(j, w, a))
  {
    hide OnArrive, OnAdvance, OnOpen, Mark, Handle;
    match a
    case Arrive(f) => ArriveHaveSlot(j, w, f); hide CallersHaveSlot;
    case Advance => AdvanceHaveSlot(w); hide CallersHaveSlot;
    case OpenCall(observes) => OpenHaveSlot(w, observes); hide CallersHaveSlot;
    case _ =>
  }

  lemma AdvanceHaveSlot(w: World)
    requires CallersHaveSlot(w) && Enabled(w, Advance)
    ensures CallersHaveSlot(OnAdvance(w))
  {
    hide Orphans;
  }

  lemma OpenHaveSlot(w: World, observes: bool)
    requires CallersHaveSlot(w)
    ensures CallersHaveSlot(OnOpen(w, observes))
  {
  }

  lemma StepSlots(j: Json, w: World, a: Action)
    requires SlotsOk(w) && WireOk(w) && CallersHaveSlot(w) && Enabled(w, a)
    requires forall id | id in w.callers :: id <= w.client.next
    ensures SlotsOk(Next(j, w, a))
  {
    match a
    case Start => StartSlots(w);
    case Arrive(f) => ArriveSlots(j, w, f);
    case Advance => AdvanceSlots(w);
    case CancelCaller(_) => CallerSlots(j, w, a);
    case Withdraw(_) => CallerSlots(j, w, a);
    case OpenCall(_) => CallerSlots(j, w, a);
    case _ => OtherSlots(j, w, a);
  }

  lemma OtherSlots(j: Json, w: World, a: Action)
    requires SlotsOk(w) && Enabled(w, a)
    requires !(a.Start? || a.Arrive? || a.Advance? || a.CancelCaller? || a.Withdraw? || a.OpenCall?)
    ensures SlotsOk(Next(j, w, a))
  {
    hide Sent, Handle, OnAdvance, OnArrive;
    SlotsSame(w, Next(j, w, a));
  }

  lemma ArriveSlots(j: Json, w: World, f: Incoming)
    requires SlotsOk(w) && w.reader.Listening?
    ensures SlotsOk(OnArrive(j, w, f))
  {
    HandlePending(j, w.client, f);
    hide Sent, Handle, Answers;
    SlotsSame(w, OnArrive(j, w, f));
  }

  lemma AdvanceSlots(w: World)
    requires SlotsOk(w) && WireOk(w) && CallersHaveSlot(w) && Enabled(w, Advance)
    ensures SlotsOk(OnAdvance(w))
  {
    hide Sent;
    SlotsSame(w, OnAdvance(w));
  }

  lemma CallerSlots(j: Json, w: World, a: Action)
    requires SlotsOk(w) && CallersHaveSlot(w) && Enabled(w, a) && (a.CancelCaller? || a.Withdraw? || a.OpenCall?)
    requires forall id | id in w.callers :: id <= w.client.next
    ensures SlotsOk(Next(j, w, a))
  {
    hide Sent;
    SlotsSame(w, Next(j, w, a));
  }

  // ----- the caller's own write ----------------------------------------------------------------

  /** The caller's frame was written whole, with the caller waiting for it. */
  ghost predicate WroteWhole(w: World, id: nat) {
    exists k :: 0 <= k < |w.wire| && w.wire[k].who == ByCaller(id) && Whole(w.wire[k])
  }

  /** What a caller's phase says about its write. */
  ghost predicate WriteOk(w: World, id: nat)
    requires id in w.callers
  {
    match w.callers[id].phase
    case Writing => Holds(w.gate, id) && w.gate.Leaving? ==> (w.gate.ok <==> WroteWhole(w, id))
    case Withdrawing => !WroteWhole(w, id) && (Sent(w, id) ==> w.client.failed)
    case Returned(WriteError) => !WroteWhole(w, id) && (Sent(w, id) ==> w.client.failed)
    case _ => WroteWhole(w, id)
  }

  /** The holder of the gate stands behind the last write. */
  ghost predicate HolderOk(w: World) {
    && (w.gate.Flying? || w.gate.Landed? || w.gate.Deserting? || w.gate.Joining? ==>
          w.wire != [] && w.wire[|w.wire| - 1].who == w.gate.who)
    && (w.gate.Deserting? || w.gate.Joining? ==> w.wire[|w.wire| - 1].deserted)
  }

  ghost predicate WritesOk(w: World) {
    HolderOk(w) && forall id | id in w.callers :: WriteOk(w, id)
  }

  lemma StepHolder(j: Json, w: World, a: Action)
    requires HolderOk(w) && WireOk(w) && Enabled(w, a)
    ensures HolderOk(Next(j, w, a))
  {
    hide Handle, Fail, Orphans;
  }

  /** The writes of one caller, before and after a step that touches at most the last write of another. */
  lemma WritesOfSame(w: World, w': World, id: nat)
    requires |w'.wire| >= |w.wire|
    requires forall k | 0 <= k < |w.wire| && (w.wire[k].who == ByCaller(id) || w'.wire[k].who == ByCaller(id)) :: w'.wire[k] == w.wire[k]
    requires forall k | |w.wire| <= k < |w'.wire| :: w'.wire[k].who != ByCaller(id)
    ensures Sent(w', id) == Sent(w, id) && WroteWhole(w', id) == WroteWhole(w, id)
  {
    if Sent(w, id) {
      var k :| 0 <= k < |w.wire| && w.wire[k].who == ByCaller(id);
      assert w'.wire[k].who == ByCaller(id);
    }
    if Sent(w', id) {
      var k :| 0 <= k < |w'.wire| && w'.wire[k].who == ByCaller(id);
      assert w.wire[k].who == ByCaller(id);
    }
    if WroteWhole(w, id) {
      var k :| 0 <= k < |w.wire| && w.wire[k].who == ByCaller(id) && Whole(w.wire[k]);
      assert w'.wire[k].who == ByCaller(id) && Whole(w'.wire[k]);
    }
    if WroteWhole(w', id) {
      var k :| 0 <= k < |w'.wire| && w'.wire[k].who == ByCaller(id) && Whole(w'.wire[k]);
      assert w.wire[k].who == ByCaller(id) && Whole(w.wire[k]);
    }
  }

  /** With its one write last on the wire, a caller wrote whole exactly if that write is whole. */
  lemma LastIsOwn(w: World, id: nat)
    requires SlotsOk(w) && w.wire != [] && w.wire[|w.wire| - 1].who == ByCaller(id)
    ensures WroteWhole(w, id) <==> Whole(w.wire[|w.wire| - 1])
    ensures Sent(w, id)
  {
    var last := |w.wire| - 1;
    assert w.wire[last].who == ByCaller(id);
    if WroteWhole(w, id) {
      var k :| 0 <= k < |w.wire| && w.wire[k].who == ByCaller(id) && Whole(w.wire[k]);
      assert k == last;
    }
  }

  lemma UnsentUnwritten(w: World, id: nat)
    requires !Sent(w, id)
    ensures !WroteWhole(w, id)
  {
  }

  lemma {:induction false} StepWrites(j: Json, w: World, a: Action)
    requires WritesOk(w) && WireOk(w) && SlotsOk(w) && Enabled(w, a)
    requires forall id | id in w.callers :: id <= w.client.next
    ensures WritesOk(Next(j, w, a))
  {
    StepHolder(j, w, a);
    var w' := Next(j, w, a);
    match a {
      case Start => GateWrites(w, w');
      case Finish(_) => GateWrites(w, w');
      case Desert => GateWrites(w, w');
      case TakeGate(_) => QuietGate(w, w');
      case Balk => BalkWrites(w, w');
      case Advance => AdvanceWrites(w);
      case _ => CallerWrites(j, w, a);
    }
  }

  /** The transport's steps touch only the write of the gate's holder, which is still writing. */
  lemma GateWrites(w: World, w': World)
    requires WritesOk(w) && SlotsOk(w) && HolderOk(w')
    requires w'.callers == w.callers && w'.client == w.client
    requires !w.gate.Free? && !w'.gate.Free? && !w'.gate.Leaving? && w'.gate.who == w.gate.who
    requires |w'.wire| >= |w.wire|
    requires forall k | 0 <= k < |w.wire| && w'.wire[k] != w.wire[k] :: w.wire[k].who == w.gate.who == w'.wire[k].who
    requires forall k | |w.wire| <= k < |w'.wire| :: w'.wire[k].who == w.gate.who
    ensures WritesOk(w')
  {
    hide Sent, WroteWhole, HolderOk;
    forall id | id in w'.callers ensures WriteOk(w', id) {
      assert WriteOk(w, id);
      if w.gate.who != ByCaller(id) { WritesOfSame(w, w', id); }
    }
  }

  lemma QuietGate(w: World, w': World)
    requires WritesOk(w) && HolderOk(w') && w'.callers == w.callers && w'.client == w.client && w'.wire == w.wire && !w'.gate.Leaving?
    ensures WritesOk(w')
  {
    hide Sent, WroteWhole, HolderOk;
    forall id | id in w'.callers ensures WriteOk(w', id) {
      assert WriteOk(w, id);
      WritesOfSame(w, w', id);
    }
  }

  lemma BalkWrites(w: World, w': World)
    requires WritesOk(w) && SlotsOk(w) && HolderOk(w') && w.gate.Cleared? && w' == w.(gate := Leaving(w.gate.who, false))
    ensures WritesOk(w')
  {
    hide Sent, WroteWhole, HolderOk;
    forall id | id in w'.callers ensures WriteOk(w', id) {
      assert WriteOk(w, id);
      WritesOfSame(w, w', id);
      if w.gate.who == ByCaller(id) {
        assert BeforeWrite(w, id);
        UnsentUnwritten(w, id);
      }
    }
  }

  lemma AdvanceWrites(w: World)
    requires WritesOk(w) && WireOk(w) && SlotsOk(w) && Enabled(w, Advance) && HolderOk(OnAdvance(w))
    ensures WritesOk(OnAdvance(w))
  {
    var w' := OnAdvance(w);
    forall id | id in w'.callers ensures WriteOk(w', id) {
      assert WriteOk(w, id);
      WritesOfSame(w, w', id);
      HolderAdvances(w, id);
    }
    hide HolderOk;
  }

  /** What the holder's last section says about its own write. */
  lemma HolderAdvances(w: World, id: nat)
    requires WritesOk(w) && WireOk(w) && SlotsOk(w) && Enabled(w, Advance) && id in w.callers
    ensures var w' := OnAdvance(w); id in w'.callers && WriteOk(w', id)
  {
    var w' := OnAdvance(w);
    assert WriteOk(w, id);
    WritesOfSame(w, w', id);
    if w.gate.who != ByCaller(id) {
      hide Sent, WroteWhole, WireOk, SlotsOk, WritesOk, Fail, Orphans;
    } else if w.gate.Entered? || w.gate.Leaving? {
      assert w.gate.Entered? || (!w.gate.ok && !w.client.failed) ==> BeforeWrite(w, id);
      if w.gate.Entered? || (!w.gate.ok && !w.client.failed) { NothingWritten(w, id); }
      hide Sent, WroteWhole, WireOk, SlotsOk, WritesOk, Fail, Orphans;
    } else {
      LastIsOwn(w, id);
      hide Sent, WroteWhole, SlotsOk, Orphans;
    }
  }

  lemma CallerWrites(j: Json, w: World, a: Action)
    requires WritesOk(w) && SlotsOk(w) && Enabled(w, a) && HolderOk(Next(j, w, a))
    requires !a.Start? && !a.Finish? && !a.Desert? && !a.TakeGate? && !a.Balk? && !a.Advance?
    requires forall id | id in w.callers :: id <= w.client.next
    ensures WritesOk(Next(j, w, a))
  {
    var w' := Next(j, w, a);
    CallerGate(j, w, a);
    forall id | id in w'.callers ensures WriteOk(w', id) {
      CallerMoves(j, w, a, id);
      if id in w.callers { assert WriteOk(w, id); }
      WritesOfSame(w, w', id);
      if id !in w.callers || w'.callers[id].phase == Withdrawing != w.callers[id].phase {
        NothingWritten(w, id);
      }
      hide Sent, WroteWhole, Next;
    }
    hide HolderOk, Next;
  }

  /** Who is new, or has not written yet, has no write on the wire. */
  lemma NothingWritten(w: World, id: nat)
    requires SlotsOk(w) && (id !in w.callers || BeforeWrite(w, id))
    ensures !Sent(w, id) && !WroteWhole(w, id)
  {
  }

  lemma CallerGate(j: Json, w: World, a: Action)
    requires Enabled(w, a) && !a.Start? && !a.Finish? && !a.Desert? && !a.TakeGate? && !a.Balk? && !a.Advance?
    ensures var w' := Next(j, w, a);
            w'.wire == w.wire && w'.gate == w.gate && (w.client.failed ==> w'.client.failed)
  {
    hide OnArrive, OnOpen, OnAdvance, OnFinish, Mark, Failed, Deliver;
    if a.Arrive? { ArriveGate(j, w, a.f); }
    if a.OpenCall? { OpenGate(w, a.observes); }
    FailedGate(w);
    if a.Settle? { DeliverGate(w, w.reader.id, Settled(|w.incoming| - 1), w.reader.observes && !w.incoming[|w.incoming| - 1].refused); }
    if a.Wake? { DeliverGate(w, a.id, Abandoned, false); }
  }

  lemma ArriveGate(j: Json, w: World, f: Incoming)
    ensures var w' := OnArrive(j, w, f); w'.wire == w.wire && w'.gate == w.gate && (w.client.failed ==> w'.client.failed)
  {
    HandleKeepsFailed(j, w.client, f);
    hide Handle;
  }

  lemma OpenGate(w: World, observes: bool)
    ensures var w' := OnOpen(w, observes); w'.wire == w.wire && w'.gate == w.gate && (w.client.failed ==> w'.client.failed)
  {
  }

  lemma FailedGate(w: World)
    ensures var w' := Failed(w); w'.wire == w.wire && w'.gate == w.gate && w'.client.failed
  {
    hide Orphans;
  }

  lemma DeliverGate(w: World, id: nat, r: Reply, observed: bool)
    ensures var w' := Deliver(w, id, r, observed); w'.wire == w.wire && w'.gate == w.gate && w'.client == w.client
  {
  }

  /** How a caller moves outside the gate. */
  lemma CallerMoves(j: Json, w: World, a: Action, id: nat)
    requires Enabled(w, a) && !a.Start? && !a.Finish? && !a.Desert? && !a.TakeGate? && !a.Balk? && !a.Advance?
    requires id in Next(j, w, a).callers && forall i | i in w.callers :: i <= w.client.next
    ensures var w' := Next(j, w, a);
            var q := w'.callers[id].phase;
            if id !in w.callers then q == Writing && id == w.client.next + 1
            else
              var p := w.callers[id].phase;
              || q == p
              || (p == Writing && !Holds(w.gate, id) && q == Withdrawing)
              || (p == Withdrawing && q == Returned(WriteError))
              || (p in {Waiting, Owed} && (q == Owed || (q.Returned? && !q.outcome.WriteError?)))
  {
    match a {
      case Arrive(_) => hide Handle, Fail, OnFinish, OnAdvance, OnOpen;
      case OpenCall(_) => hide Handle, Fail, OnFinish, OnAdvance, OnArrive;
      case SkipGate(_) => hide Handle, Fail, OnFinish, OnAdvance, OnArrive, OnOpen;
      case Withdraw(_) => hide Handle, Fail, OnFinish, OnAdvance, OnArrive, OnOpen, Holds;
      case CancelCaller(_) => hide Handle, Fail, OnFinish, OnAdvance, OnArrive, OnOpen, Holds;
      case Receive(_) => hide Handle, Fail, OnFinish, OnAdvance, OnArrive, OnOpen, Holds;
      case _ => hide Handle, Fail, Orphans, OnFinish, OnAdvance, OnArrive, OnOpen, Holds;
    }
  }

  // ----- served requests -----------------------------------------------------------------------

  ghost predicate RequestsOk(j: Json, w: World) {
    && |w.client.serving| <= RequestLimit
    && (forall i, k | i in w.running && k in w.running && w.running[i] == w.running[k] :: i == k)
    && (forall i | i in w.running ::
          && i < |w.incoming| && w.running[i] in w.client.serving
          && RequestKey(j, w.incoming[i].id) == Some(w.running[i])
          && w.client.serving[w.running[i]].thread == j.threadId(w.incoming[i].params))
  }

  lemma HandleServing(j: Json, c: Client, f: Incoming)
    requires |c.serving| <= RequestLimit
    ensures var (c', v) := Handle(j, c, f);
            && |c'.serving| <= RequestLimit
            && if v.Serve? then
                 && v.key !in c.serving && RequestKey(j, f.id) == Some(v.key)
                 && c'.serving == c.serving[v.key := Work(j.threadId(f.params), false)]
               else SameThreads(c, c')
  {
    hide RequestKey, ResponseId;
    var (c', v) := Handle(j, c, f);
    if !v.Serve? {
      assert c'.serving.Keys == c.serving.Keys;
      assert |c'.serving| == |c'.serving.Keys| && |c.serving| == |c.serving.Keys|;
    }
  }

  ghost predicate SameThreads(c: Client, c': Client) {
    c'.serving.Keys == c.serving.Keys && forall k | k in c.serving :: c'.serving[k].thread == c.serving[k].thread
  }

  lemma RequestsSame(j: Json, w: World, w': World)
    requires RequestsOk(j, w) && w'.running == w.running && w.incoming <= w'.incoming
    requires |w'.client.serving| <= RequestLimit && SameThreads(w.client, w'.client)
    ensures RequestsOk(j, w')
  {
    hide RequestKey;
  }

  lemma ServeRequests(j: Json, w: World, w': World, f: Incoming, key: Key)
    requires RequestsOk(j, w) && key !in w.client.serving && RequestKey(j, f.id) == Some(key)
    requires w'.client.serving == w.client.serving[key := Work(j.threadId(f.params), false)]
    requires |w'.client.serving| <= RequestLimit
    requires w'.running == w.running[|w.incoming| := key] && w'.incoming == w.incoming + [f]
    ensures RequestsOk(j, w')
  {
    hide RequestKey;
  }

  lemma ArriveRuns(j: Json, w: World, f: Incoming)
    ensures var w', v := OnArrive(j, w, f), Handle(j, w.client, f).1;
            && w'.incoming == w.incoming + [f] && w'.client == Handle(j, w.client, f).0
            && w'.running == if v.Serve? then w.running[|w.incoming| := v.key] else w.running
  {
    hide Handle;
  }

  lemma ArriveRequests(j: Json, w: World, f: Incoming)
    requires RequestsOk(j, w)
    ensures RequestsOk(j, OnArrive(j, w, f))
  {
    HandleServing(j, w.client, f);
    var v := Handle(j, w.client, f).1;
    var w' := OnArrive(j, w, f);
    assert |w.client.serving| <= RequestLimit;
    hide RequestsOk, SameThreads, RequestKey;
    ArriveRuns(j, w, f);
    hide OnArrive, Handle;
    if v.Serve? { ServeRequests(j, w, w', f, v.key); } else { RequestsSame(j, w, w'); }
  }

  lemma EndRequests(j: Json, w: World, w': World, index: nat)
    requires RequestsOk(j, w) && index in w.running
    requires w'.client == End(w.client, w.running[index]) && w'.running == w.running - {index} && w'.incoming == w.incoming
    ensures RequestsOk(j, w')
  {
    hide RequestKey;
    EndShrinks(w.client, w.running[index]);
    forall i | i in w'.running
      ensures w'.running[i] == w.running[i] && w.running[i] != w.running[index]
    {
      assert i in w.running && i != index;
    }
  }

  lemma EndShrinks(c: Client, key: Key)
    ensures |End(c, key).serving| <= |c.serving|
  {
    if key in c.serving {
      assert c.serving == End(c, key).serving[key := c.serving[key]];
    } else {
      assert c.serving == End(c, key).serving;
    }
  }

  lemma StepRequests(j: Json, w: World, a: Action)
    requires RequestsOk(j, w) && Enabled(w, a)
    ensures RequestsOk(j, Next(j, w, a))
  {
    match a
    case Arrive(f) => ArriveRequests(j, w, f);
    case HandlerEnds(index) =>
      hide RequestsOk;
      EndRequests(j, w, Next(j, w, a), index);
    case _ =>
      assert |w.client.serving| <= RequestLimit;
      OtherRequests(j, w, a);
      hide RequestsOk, Next;
      RequestsSame(j, w, Next(j, w, a));
  }

  lemma OtherRequests(j: Json, w: World, a: Action)
    requires Enabled(w, a) && !a.Arrive? && !a.HandlerEnds?
    ensures var w' := Next(j, w, a);
            w'.client.serving == w.client.serving && w'.running == w.running && w'.incoming == w.incoming
  {
    if a.Advance? { hide OnArrive, OnFinish, OnOpen; }
    else if a.OpenCall? { hide OnArrive, OnFinish, OnAdvance; }
    else { hide OnArrive, OnAdvance, OnOpen, Mark; }
  }

  // ----- theorems ------------------------------------------------------------------------------

  ghost predicate Sound(j: Json, w: World) {
    WireOk(w) && CallersOk(j, w) && SlotsOk(w) && CallersHaveSlot(w) && RequestsOk(j, w) && WritesOk(w)
  }

  lemma {:induction false} RunSound(j: Json, ws: seq<World>, acts: seq<Action>, i: nat)
    requires Run(j, ws, acts) && i < |ws|
    ensures Sound(j, ws[i])
  {
    if i == 0 {
      hide Run;
      InitialSound(j);
    } else {
      RunSound(j, ws, acts, i - 1);
      var w := ws[i - 1];
      assert forall id | id in w.callers :: id <= w.client.next;
      hide Next, Enabled, WireOk, CallersOk, SlotsOk, CallersHaveSlot, RequestsOk, WritesOk;
      StepWire(j, ws[i - 1], acts[i - 1]);
      StepWrites(j, ws[i - 1], acts[i - 1]);
      StepCallers(j, ws[i - 1], acts[i - 1]);
      StepSlots(j, ws[i - 1], acts[i - 1]);
      StepHaveSlot(j, ws[i - 1], acts[i - 1]);
      StepRequests(j, ws[i - 1], acts[i - 1]);
    }
  }

  lemma InitialSound(j: Json)
    ensures Sound(j, Initial())
  {
  }

  /** A call whose frame reached the transport keeps its correlation, cancelled or not, until the native
      response with its identifier arrives or the client fails; and its frame is started once. */
  lemma SlotKeptUntilAnswered(j: Json, ws: seq<World>, acts: seq<Action>, i: nat, k: nat, id: nat)
    requires Run(j, ws, acts) && i < |ws| && k < |ws[i].wire| && ws[i].wire[k].who == ByCaller(id)
    ensures ws[i].client.failed || id in ws[i].client.pending || id in ws[i].answered
    ensures forall l | 0 <= l < |ws[i].wire| && ws[i].wire[l].who == ByCaller(id) :: l == k
  {
    RunSound(j, ws, acts, i);
    hide Run, CallersOk, WireOk, RequestsOk;
    assert Sent(ws[i], id);
    assert id in ws[i].callers;
  }

  /** No two running handlers serve the same key, and there are never more than 256 requests. */
  lemma RequestsAreDistinct(j: Json, ws: seq<World>, acts: seq<Action>, i: nat)
    requires Run(j, ws, acts) && i < |ws|
    ensures |ws[i].client.serving| <= RequestLimit && |ws[i].client.pending| <= RequestLimit
    ensures forall a, b | a in ws[i].running && b in ws[i].running && a != b ::
              && a < |ws[i].incoming| && b < |ws[i].incoming|
              && RequestMeaning(j, ws[i].incoming[a].id) != RequestMeaning(j, ws[i].incoming[b].id)
  {
    RunSound(j, ws, acts, i);
    var w := ws[i];
    assert Known(j, w);
    forall a, b | a in w.running && b in w.running && a != b
      ensures RequestMeaning(j, w.incoming[a].id) != RequestMeaning(j, w.incoming[b].id)
    {
      RequestKeyIsMeaning(j, w.incoming[a].id, w.incoming[b].id);
    }
    hide Run, CallersOk, WireOk, SlotsOk;
  }

  lemma StepFinal(j: Json, w: World, a: Action, id: nat)
    requires Enabled(w, a) && CallersOk(j, w) && SlotsOk(w) && id in w.callers
    ensures var w' := Next(j, w, a);
            && id in w'.callers && w.callers[id].mail <= w'.callers[id].mail
            && (w.callers[id].phase.Returned? ==> w'.callers[id].phase == w.callers[id].phase)
  {
    hide CallerOk, Sent, BeforeWrite;
    match a {
      case Arrive(_) => hide Handle, OnFinish, OnAdvance;
      case Advance => hide Handle, OnFinish, OnArrive;
      case Finish(_) => hide Handle, OnAdvance, OnArrive, Mark;
      case _ => hide Handle, OnFinish, OnAdvance, OnArrive;
    }
  }

  /** The outcome of a call follows its write: a call returns a write error exactly when its frame was not
      written whole with the caller waiting for it. */
  lemma WriteDecidesOutcome(j: Json, ws: seq<World>, acts: seq<Action>, i: nat, id: nat)
    requires Run(j, ws, acts) && i < |ws| && id in ws[i].callers && ws[i].callers[id].phase.Returned?
    ensures ws[i].callers[id].phase.outcome.WriteError? <==> !WroteWhole(ws[i], id)
    ensures ws[i].callers[id].phase.outcome.WriteError? && Sent(ws[i], id) ==> ws[i].client.failed
  {
    RunSound(j, ws, acts, i);
    assert WriteOk(ws[i], id);
    hide Run, WroteWhole, Sent, WireOk, CallersOk, SlotsOk, CallersHaveSlot, RequestsOk, HolderOk;
  }

  /** A claim wins exactly when the caller's own write does: once the reader or a failure owns completion,
      the caller returns what was sent to it if its frame was written whole, and otherwise drops it for
      its write error, even when the observer has run. It never returns cancellation. */
  lemma ClaimWinsExactly(j: Json, ws: seq<World>, acts: seq<Action>, i: nat, id: nat)
    requires Run(j, ws, acts) && i < |ws| && id in ws[i].callers && ws[i].callers[id].phase.Returned?
    requires ws[i].callers[id].mail != [] || Committed(ws[i], id)
    ensures var x := ws[i].callers[id];
            if WroteWhole(ws[i], id) then x.mail != [] && x.phase.outcome == Got(x.mail[0]) else x.phase.outcome == WriteError
  {
    WriteDecidesOutcome(j, ws, acts, i, id);
    RunSound(j, ws, acts, i);
    assert CallerOk(j, ws[i], id, ws[i].callers[id]);
    hide Run, WroteWhole, Sent, WireOk, SlotsOk, CallersHaveSlot, RequestsOk, WritesOk, Answers;
  }

  /** Exactly one outcome per call, whatever cancellations, responses and failures race: the first
      outcome is the only one; a reply is the single one ever sent, and if it is a result it is a
      response with the call's identifier; after giving up, nothing is sent and no observer runs; and a
      write error means that the frame was not written whole with its caller waiting for it, and not even
      started unless the client failed. */
  lemma OneOutcomePerCall(j: Json, ws: seq<World>, acts: seq<Action>, i: nat, k: nat, id: nat)
    requires Run(j, ws, acts) && i <= k < |ws| && id in ws[i].callers && ws[i].callers[id].phase.Returned?
    ensures id in ws[k].callers && ws[k].callers[id].phase == ws[i].callers[id].phase
    ensures var x := ws[k].callers[id];
            match x.phase.outcome
            case GaveUp => x.mail == [] && !x.observed
            case Got(r) => x.mail == [r] && (r.Settled? ==> r.source < |ws[k].incoming| && Answers(j, ws[k].incoming[r.source], id))
            case WriteError => |x.mail| <= 1 && !WroteWhole(ws[k], id) && (Sent(ws[k], id) ==> ws[k].client.failed)
  {
    OutcomeKept(j, ws, acts, i, k, id);
    WriteDecidesOutcome(j, ws, acts, k, id);
    RunSound(j, ws, acts, k);
    hide Run, WireOk, CallersOk, SlotsOk, CallersHaveSlot, RequestsOk, WritesOk, Answers, WroteWhole, Sent;
    OutcomeOf(j, ws[k], id);
  }

  lemma StepKept(j: Json, ws: seq<World>, acts: seq<Action>, i: nat, id: nat)
    requires Run(j, ws, acts) && i < |acts| && id in ws[i].callers && ws[i].callers[id].phase.Returned?
    ensures id in ws[i + 1].callers && ws[i + 1].callers[id].phase == ws[i].callers[id].phase
  {
    RunSound(j, ws, acts, i);
    hide Next, Enabled, WireOk, CallersOk, SlotsOk, CallersHaveSlot, RequestsOk;
    StepFinal(j, ws[i], acts[i], id);
  }

  lemma {:induction false} OutcomeKept(j: Json, ws: seq<World>, acts: seq<Action>, i: nat, k: nat, id: nat)
    requires Run(j, ws, acts) && i <= k < |ws| == |acts| + 1 && id in ws[i].callers && ws[i].callers[id].phase.Returned?
    ensures id in ws[k].callers && ws[k].callers[id].phase == ws[i].callers[id].phase
    decreases k
  {
    hide Run;
    if i < k {
      OutcomeKept(j, ws, acts, i, k - 1, id);
      StepKept(j, ws, acts, k - 1, id);
    }
  }

  lemma OutcomeOf(j: Json, w: World, id: nat)
    requires CallersOk(j, w) && id in w.callers && w.callers[id].phase.Returned?
    ensures var x := w.callers[id];
            match x.phase.outcome
            case GaveUp => x.mail == [] && !x.observed
            case Got(r) => x.mail == [r] && (r.Settled? ==> r.source < |w.incoming| && Answers(j, w.incoming[r.source], id))
            case WriteError => |x.mail| <= 1
  {
    assert CallerOk(j, w, id, w.callers[id]);
    hide Answers;
  }

  /** A caller that waits for a reply is never stranded: its correlation is live, or somebody owns its
      completion, or the reply is there. */
  lemma NobodyStranded(j: Json, ws: seq<World>, acts: seq<Action>, i: nat, id: nat)
    requires Run(j, ws, acts) && i < |ws| && id in ws[i].callers && ws[i].callers[id].phase in {Waiting, Owed}
    ensures ws[i].callers[id].mail != [] || Committed(ws[i], id) || Listened(ws[i].client, id)
    ensures Committed(ws[i], id) ==> ws[i].callers[id].mail == []
  {
    RunSound(j, ws, acts, i);
    assert CallerOk(j, ws[i], id, ws[i].callers[id]);
    hide Run, Answers;
  }
}
