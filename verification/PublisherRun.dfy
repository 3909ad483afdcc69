/** Runs of the resident owners: any number of loaded threads, each with its publisher loop, its
    catalog check, its request handlers and the wakes still in flight, interleaved with native events,
    reconnects, supersession and shutdown. One step is one locked section or one channel operation. */
module PublisherRun {
  import opened Prelude
  import opened Publisher

  const LoadLimit: nat := 256

  /** Where a publisher loop stands. A hello carries the identity and the generation read for it, and
      `observed` once native has accepted it and the observer has run. */
  datatype Loop =
    | Top(link: Option<nat>)
    | Dialing
    | Draining(conn: nat)
    | Reading(conn: nat)
    | Hello(conn: nat, identity: Identity, began: nat, observed: bool)
    | Comparing(conn: nat, began: nat)
    | Parked(link: Option<nat>)
    | Backoff
    | Retiring
    | Joining
    | Done

  /** `check` is the tool generation a running check began at, `waking` counts finished checks and
      `renaming` renames whose wake has not been sent yet; `ending` counts the supersession handlers,
      among `handlers`, that have not yet ended the resident. `accepted` is the connection and identity
      of the last hello native accepted, `validated` the tool generation of the last valid check, `served`
      the connections of the requests handled, each with the admitted mark it was handled by. */
  datatype Actor = Actor(
    thread: string, r: Resident, loop: Loop, check: Option<nat>, waking: nat, renaming: nat,
    handlers: nat, ending: nat, accepted: Option<(nat, Identity)>, validated: Option<nat>,
    served: seq<(nat, bool)>)

  /** `work` is the owner's wait group, `naming` the rename calls it also waits for. */
  datatype Owners = Owners(
    ended: bool, startup: map<string, string>, owners: map<string, nat>, actors: map<nat, Actor>,
    naming: nat, work: int, dialed: nat)

  datatype Move =
    | Look | DialOk | DialFailed | Drain | Read | Accepted | HelloOk | HelloFailed(invalid: bool) | Compare
    | SeeCancel | LoseConnection | TakeWake | Retry | GiveUp | Leave | Join
    | FinishChecking(valid: bool) | WakeChecked | WakeRenamed
    | Arrive(source: nat, superseded: bool) | HandlerDone | EndSuperseded

  datatype Event =
    | Load(id: nat, thread: string, name: string)
    | Close(thread: string)
    | SetThreadName(thread: string, name: string)
    | Status(thread: string, status: string)
    | EndAll
    | CancelAll
    | SelectName
    | NameDone
    | Local(id: nat, move: Move)

  // ----- one resident --------------------------------------------------------------------------

  predicate Needs(r: Resident) {
    r.tools && !r.admitted
  }

  predicate CanMove(a: Actor, m: Move) {
    match m
    case Look => a.loop.Top?
    case DialOk => a.loop.Dialing?
    case DialFailed => a.loop.Dialing?
    case Drain => a.loop.Draining? && a.r.changed
    case Read => (a.loop.Draining? && !a.r.changed) || a.loop.Reading?
    case Accepted => a.loop.Hello? && !a.loop.observed
    case HelloOk => a.loop.Hello? && a.loop.observed
    case HelloFailed(_) => a.loop.Hello?
    case Compare => a.loop.Comparing?
    case SeeCancel => a.loop.Parked? && a.r.cancelled
    case LoseConnection => a.loop.Parked? && a.loop.link.Some?
    case TakeWake => a.loop.Parked? && a.r.changed
    case Retry => a.loop.Backoff?
    case GiveUp => a.loop.Backoff? && a.r.cancelled
    case Leave => a.loop.Retiring?
    case Join => a.loop.Joining? && a.handlers == 0
    case FinishChecking(_) => a.check.Some?
    case WakeChecked => a.waking > 0
    case WakeRenamed => a.renaming > 0
    case Arrive(_, _) => true
    case HandlerDone => a.handlers > a.ending
    case EndSuperseded => a.ending > 0
  }

  /** The publisher loop and the handlers of one resident. `conn` names the next connection. */
  function Moved(a: Actor, m: Move, conn: nat): Actor
    requires CanMove(a, m) && !m.FinishChecking?
  {
    match m
    case Look =>
      if !Needs(a.r) then a.(loop := Parked(a.loop.link))
      else if a.loop.link.None? then a.(loop := Dialing)
      else a.(loop := Draining(a.loop.link.value))
    case DialOk =>
      var (r, ok) := Adopt(a.r, conn);
      a.(r := r, loop := if ok then Draining(conn) else Retiring)
    case DialFailed => a.(loop := Backoff)
    case Drain => a.(r := a.r.(changed := false))
    case Read =>
      if a.loop.Draining? then a.(loop := Reading(a.loop.conn))
      else if !Needs(a.r) then a.(loop := Top(Some(a.loop.conn)))
      else a.(loop := Hello(a.loop.conn, a.r.identity, a.r.generation, false))
    case Accepted =>
      a.(r := Admit(a.r, a.loop.began), loop := a.loop.(observed := true), accepted := Some((a.loop.conn, a.loop.identity)))
    case HelloOk => a.(loop := Comparing(a.loop.conn, a.loop.began))
    case HelloFailed(invalid) =>
      a.(r := ClearConnection(a.r, a.loop.conn), loop := if invalid then Retiring else Backoff)
    case Compare =>
      a.(loop := if a.r.generation == a.loop.began then Parked(Some(a.loop.conn)) else Top(Some(a.loop.conn)))
    case SeeCancel => a.(loop := Retiring)
    case LoseConnection => a.(r := ClearConnection(a.r, a.loop.link.value), loop := Backoff)
    case TakeWake => a.(r := a.r.(changed := false), loop := Top(a.loop.link))
    case Retry => a.(loop := Top(None))
    case GiveUp => a.(loop := Retiring)
    case Leave => a.(r := Retire(a.r, false), loop := Joining)
    case Join => a.(loop := Done)
    case WakeChecked => a.(r := a.r.(changed := true), waking := a.waking - 1)
    case WakeRenamed => a.(r := a.r.(changed := true), renaming := a.renaming - 1)
    case Arrive(source, superseded) =>
      var (r, h) := Handle(a.r, source, superseded);
      if h.Refused? then a
      else a.(r := r, handlers := a.handlers + 1, ending := a.ending + (if h.Superseding? then 1 else 0),
              served := if h.Serving? then a.served + [(source, h.admitted)] else a.served)
    case HandlerDone => a.(handlers := a.handlers - 1)
    case EndSuperseded => a.(r := Retire(a.r, true), ending := a.ending - 1)
  }

  /** The end of a check, which starts another when the tools changed meanwhile and native is ready. */
  function Checked(a: Actor, valid: bool, stillReady: bool): Actor
    requires a.check.Some?
  {
    var began := a.check.value;
    var same := a.r.toolGeneration == began;
    var r := FinishCheck(a.r, valid, stillReady, began);
    var a' := a.(r := r, check := None, waking := a.waking + 1,
                 validated := if valid && same then Some(began) else a.validated);
    if !same && stillReady then Started(a') else a'
  }

  function Started(a: Actor): Actor {
    var (r, started) := StartCheck(a.r);
    if started then a.(r := r, check := Some(r.toolGeneration)) else a
  }

  // ----- all residents -------------------------------------------------------------------------

  function Start(): Owners {
    Owners(false, map[], map[], map[], 0, 0, 0)
  }

  predicate Ready(o: Owners, thread: string) {
    thread in o.startup && o.startup[thread] == "ready"
  }

  predicate Can(o: Owners, e: Event) {
    match e
    case Load(id, thread, _) => !o.ended && thread !in o.owners && |o.owners| < LoadLimit && id !in o.actors
    case Close(_) => !o.ended
    case SetThreadName(_, _) => !o.ended
    case Status(thread, _) => !o.ended && (thread in o.startup || |o.startup| < LoadLimit)
    case EndAll => true
    case CancelAll => true
    case SelectName => !o.ended
    case NameDone => o.naming > 0
    case Local(id, move) => id in o.actors && CanMove(o.actors[id], move)
  }

  /** The work a resident contributes to the owner's wait group. */
  function WorkOf(a: Actor): nat {
    (if a.loop.Done? then 0 else 1) + (if a.check.Some? then 1 else 0) + a.waking
  }

  /** Replaces one resident; the wait group follows its work. */
  function With(o: Owners, id: nat, a: Actor): Owners {
    var before := if id in o.actors then WorkOf(o.actors[id]) else 0;
    o.(actors := o.actors[id := a], work := o.work + WorkOf(a) - before)
  }

  /** The loaded resident of a thread. */
  predicate Has(o: Owners, thread: string) {
    thread in o.owners && o.owners[thread] in o.actors
  }

  function Next(o: Owners, e: Event): Owners
    requires Can(o, e)
  {
    match e
    case Load(id, thread, name) =>
      var a := Actor(thread, Loaded(Identity(thread, name)), Top(None), None, 0, 0, 0, 0, None, None, []);
      With(o.(owners := o.owners[thread := id]), id, if Ready(o, thread) then Started(a) else a)
    case Close(thread) =>
      var o' := o.(startup := o.startup - {thread}, owners := o.owners - {thread});
      if Has(o, thread) then
        var a := o.actors[o.owners[thread]];
        With(o', o.owners[thread], a.(r := Retire(a.r, true)))
      else o'
    case SetThreadName(thread, name) =>
      if Has(o, thread) then
        var a := o.actors[o.owners[thread]];
        With(o, o.owners[thread], a.(r := Rename(a.r, name), renaming := a.renaming + 1))
      else o
    case Status(thread, status) =>
      var o' := o.(startup := o.startup[thread := status]);
      if Has(o, thread) then
        var a := o.actors[o.owners[thread]];
        var a' := a.(r := Withdraw(a.r));
        With(o', o.owners[thread], if status == "ready" then Started(a') else a')
      else o'
    case EndAll =>
      if o.ended then o
      else o.(ended := true,
              actors := map id | id in o.actors :: Ended(o, o.actors[id], id))
    case CancelAll =>
      o.(actors := map id | id in o.actors :: o.actors[id].(r := o.actors[id].r.(cancelled := true)))
    case SelectName => o.(naming := o.naming + 1, work := o.work + 1)
    case NameDone => o.(naming := o.naming - 1, work := o.work - 1)
    case Local(id, move) =>
      var a := o.actors[id];
      if move.FinishChecking? then
        With(o, id, Checked(a, move.valid, Ready(o, a.thread) && !o.ended))
      else
        With(o.(dialed := o.dialed + 1), id, Moved(a, move, o.dialed + 1))
  }

  /** Shutdown ends every loaded resident and cancels the context of all. */
  function Ended(o: Owners, a: Actor, id: nat): Actor {
    var r := if Has(o, a.thread) && o.owners[a.thread] == id then Retire(a.r, true) else a.r;
    a.(r := r.(cancelled := true))
  }

  ghost predicate Run(os: seq<Owners>, es: seq<Event>) {
    && |os| == |es| + 1
    && os[0] == Start()
    && forall i | 0 <= i < |es| :: Can(os[i], es[i]) && os[i + 1] == Next(os[i], es[i])
  }

  // ----- the invariant of one resident ---------------------------------------------------------

  /** The connection the loop holds is the recorded one until the resident closes. */
  predicate Linked(a: Actor) {
    a.r.closed ||
    match a.loop
    case Top(c) => a.r.connection == c
    case Dialing => a.r.connection == None
    case Draining(c) => a.r.connection == Some(c)
    case Reading(c) => a.r.connection == Some(c)
    case Hello(c, _, _, _) => a.r.connection == Some(c)
    case Comparing(c, _) => a.r.connection == Some(c)
    case Parked(c) => a.r.connection == c
    case Backoff => a.r.connection == None
    case Retiring => true
    case Joining => false
    case Done => false
  }

  /** A hello in flight carries the current identity as long as the generation has not moved. */
  predicate Current(a: Actor) {
    match a.loop
    case Hello(c, identity, began, observed) =>
      && began <= a.r.generation
      && (began == a.r.generation ==> identity == a.r.identity)
      && (if observed then a.accepted == Some((c, identity)) else !a.r.admitted)
    case Comparing(_, began) => began <= a.r.generation
    case _ => true
  }

  /** Admission says what it should: tools checked for the current tool generation, not closed, on the
      recorded connection, with the identity native last accepted on it. */
  predicate Published(a: Actor) {
    && (a.r.admitted ==>
          && a.r.tools && !a.r.closed && a.r.connection.Some?
          && a.accepted == Some((a.r.connection.value, a.r.identity)))
    && (a.r.tools ==> a.validated == Some(a.r.toolGeneration))
    && (a.r.checking <==> a.check.Some?)
    && (a.r.checking ==> !a.r.tools)
    && (a.check.Some? ==> a.check.value <= a.r.toolGeneration)
  }

  predicate WakePending(a: Actor) {
    a.r.changed || a.waking > 0 || a.renaming > 0
  }

  /** Whenever the loop may sleep on an unmet need, a wake is on its way or the generation moved. */
  predicate Awake(a: Actor) {
    Needs(a.r) && !a.r.closed ==>
      match a.loop
      case Parked(_) => WakePending(a)
      case Comparing(_, began) => WakePending(a) || a.r.generation != began
      case Hello(_, _, began, observed) => observed ==> WakePending(a) || a.r.generation != began
      case _ => true
  }

  predicate Terminal(a: Actor) {
    && (a.r.closed ==> a.r.cancelled && !a.r.admitted)
    && (a.loop.Joining? || a.loop.Done? ==> a.r.closed)
    && (a.loop.Done? ==> a.handlers == 0)
    && a.ending <= a.handlers
    && (a.ending > 0 ==> a.r.closed)
  }

  predicate ActorOk(a: Actor) {
    Linked(a) && Current(a) && Published(a) && Awake(a) && Terminal(a)
  }

  lemma MovedOk(a: Actor, m: Move, conn: nat)
    requires ActorOk(a) && CanMove(a, m) && !m.FinishChecking?
    ensures ActorOk(Moved(a, m, conn)) && Moved(a, m, conn).thread == a.thread
  {
  }

  lemma StartedOk(a: Actor)
    requires ActorOk(a) && !a.r.tools
    ensures ActorOk(Started(a)) && Started(a).thread == a.thread && !Started(a).r.tools
  {
  }

  lemma CheckedOk(a: Actor, valid: bool, stillReady: bool)
    requires ActorOk(a) && a.check.Some?
    ensures ActorOk(Checked(a, valid, stillReady)) && Checked(a, valid, stillReady).thread == a.thread
  {
    var began := a.check.value;
    var a' := a.(r := FinishCheck(a.r, valid, stillReady, began), check := None, waking := a.waking + 1,
                 validated := if valid && a.r.toolGeneration == began then Some(began) else a.validated);
    assert ActorOk(a');
    if a.r.toolGeneration != began && stillReady { StartedOk(a'); }
  }

  lemma RenameOk(a: Actor, name: string)
    requires ActorOk(a)
    ensures ActorOk(a.(r := Rename(a.r, name), renaming := a.renaming + 1))
  {
  }

  lemma WithdrawOk(a: Actor)
    requires ActorOk(a)
    ensures ActorOk(a.(r := Withdraw(a.r)))
  {
  }

  lemma RetireOk(a: Actor)
    requires ActorOk(a)
    ensures ActorOk(a.(r := Retire(a.r, true)))
  {
  }

  lemma CancelOk(a: Actor)
    requires ActorOk(a)
    ensures ActorOk(a.(r := a.r.(cancelled := true)))
  {
  }

  // ----- the invariant of all residents --------------------------------------------------------

  /** An open resident is the loaded one of its thread, and its tools follow native's readiness. */
  predicate Placed(o: Owners, id: nat, a: Actor) {
    !a.r.closed ==>
      && !o.ended && a.thread in o.owners && o.owners[a.thread] == id
      && (a.r.tools ==> Ready(o, a.thread))
  }

  ghost function Works(o: Owners): map<nat, nat> {
    map id | id in o.actors :: WorkOf(o.actors[id])
  }

  ghost predicate Residents(o: Owners) {
    forall id | id in o.actors :: ActorOk(o.actors[id]) && Placed(o, id, o.actors[id])
  }

  /** The loaded threads, by name, and the wait group. */
  ghost predicate Ledger(o: Owners) {
    && (forall t | t in o.owners :: o.owners[t] in o.actors && o.actors[o.owners[t]].thread == t)
    && o.work == Total(Works(o)) + o.naming
    && |o.owners| <= LoadLimit && |o.startup| <= LoadLimit
  }

  ghost predicate OwnersOk(o: Owners) {
    Residents(o) && Ledger(o)
  }

  lemma WithWork(o: Owners, id: nat, a: Actor)
    requires o.work == Total(Works(o)) + o.naming
    ensures With(o, id, a).work == Total(Works(With(o, id, a))) + o.naming
  {
    assert Works(With(o, id, a)) == Works(o)[id := WorkOf(a)];
    if id in o.actors { TotalUpdate(Works(o), id, WorkOf(a)); } else { TotalInsert(Works(o), id, WorkOf(a)); }
    hide WorkOf, Total;
  }

  /** A change of the owner's own fields followed by the replacement of one resident. */
  lemma WithLedger(o: Owners, o1: Owners, id: nat, a: Actor)
    requires Ledger(o) && o1.actors == o.actors && o1.work == o.work && o1.naming == o.naming
    requires forall t | t in o1.owners :: (t in o.owners && o1.owners[t] == o.owners[t]) || (o1.owners[t] == id && a.thread == t)
    requires id in o.actors ==> a.thread == o.actors[id].thread
    requires |o1.owners| <= LoadLimit && |o1.startup| <= LoadLimit
    ensures Ledger(With(o1, id, a))
  {
    assert Works(o1) == Works(o);
    WithWork(o1, id, a);
    hide WorkOf, Total, Works;
  }

  lemma SameLedger(o: Owners, o1: Owners)
    requires Ledger(o) && o1.actors == o.actors && o1.work - o1.naming == o.work - o.naming
    requires forall t | t in o1.owners :: t in o.owners && o1.owners[t] == o.owners[t]
    requires |o1.owners| <= LoadLimit && |o1.startup| <= LoadLimit
    ensures Ledger(o1)
  {
    assert Works(o1) == Works(o);
    hide WorkOf, Total, Works;
  }

  /** The other residents do not notice a change that leaves them placed. */
  lemma WithResidents(o: Owners, o1: Owners, id: nat, a: Actor)
    requires Residents(o) && o1.actors == o.actors
    requires ActorOk(a) && Placed(With(o1, id, a), id, a)
    requires forall j | j in o.actors && j != id :: Placed(o, j, o.actors[j]) ==> Placed(o1, j, o.actors[j])
    ensures Residents(With(o1, id, a))
  {
    hide ActorOk, WorkOf;
    var o2 := With(o1, id, a);
    forall j | j in o2.actors ensures ActorOk(o2.actors[j]) && Placed(o2, j, o2.actors[j]) {
      if j != id { assert Placed(o1, j, o.actors[j]); }
    }
  }

  /** One resident replaced by a good one. */
  lemma WithOk(o: Owners, id: nat, a: Actor)
    requires OwnersOk(o) && id in o.actors && ActorOk(a) && Placed(o, id, a) && a.thread == o.actors[id].thread
    ensures OwnersOk(With(o, id, a))
  {
    hide ActorOk, WorkOf, Residents, Ledger;
    WithLedgerSame(o, id, a);
    WithResidents(o, o, id, a);
  }

  lemma WithLedgerSame(o: Owners, id: nat, a: Actor)
    requires Ledger(o) && id in o.actors && a.thread == o.actors[id].thread
    ensures Ledger(With(o, id, a))
  {
    WithLedger(o, o, id, a);
    hide WorkOf, Total, Works;
  }

  lemma ActorPlaced(o: Owners, id: nat)
    requires OwnersOk(o) && id in o.actors
    ensures ActorOk(o.actors[id]) && Placed(o, id, o.actors[id])
  {
    hide ActorOk, Placed, Ledger;
  }

  lemma LoadOk(o: Owners, id: nat, thread: string, name: string)
    requires OwnersOk(o) && Can(o, Load(id, thread, name))
    ensures OwnersOk(Next(o, Load(id, thread, name)))
  {
    var a := Actor(thread, Loaded(Identity(thread, name)), Top(None), None, 0, 0, 0, 0, None, None, []);
    assert ActorOk(a);
    StartedOk(a);
    var a' := if Ready(o, thread) then Started(a) else a;
    var o1 := o.(owners := o.owners[thread := id]);
    hide ActorOk, WorkOf, Started;
    WithLedger(o, o1, id, a') by { hide Residents; }
    hide Ledger;
    WithResidents(o, o1, id, a');
  }

  lemma CloseOk(o: Owners, thread: string)
    requires OwnersOk(o) && Can(o, Close(thread))
    ensures OwnersOk(Next(o, Close(thread)))
  {
    var o1 := o.(startup := o.startup - {thread}, owners := o.owners - {thread});
    assert |o1.owners| <= LoadLimit && |o1.startup| <= LoadLimit by {
      assert o1.owners.Keys == o.owners.Keys - {thread} && o1.startup.Keys == o.startup.Keys - {thread};
      hide Residents, ActorOk;
    }
    if Has(o, thread) {
      var id := o.owners[thread];
      ActorPlaced(o, id);
      RetireOk(o.actors[id]);
      hide ActorOk, WorkOf;
      var a := o.actors[id].(r := Retire(o.actors[id].r, true));
      WithLedger(o, o1, id, a) by { hide Residents; }
      CloseLeaves(o, thread);
      hide Ledger;
      WithResidents(o, o1, id, a);
    } else {
      hide ActorOk, WorkOf;
      SameLedger(o, o1) by { hide Residents; }
      assert Residents(o1) by { hide Ledger; CloseLeaves(o, thread); }
    }
  }

  /** Closing a thread takes nothing from the open residents of other threads. */
  lemma CloseLeaves(o: Owners, thread: string)
    requires Residents(o)
    ensures var o1 := o.(startup := o.startup - {thread}, owners := o.owners - {thread});
            forall j | j in o.actors && (thread !in o.owners || o.owners[thread] !in o.actors || j != o.owners[thread]) ::
              Placed(o1, j, o.actors[j])
  {
    hide ActorOk;
    forall j | j in o.actors && (thread !in o.owners || o.owners[thread] !in o.actors || j != o.owners[thread])
      ensures Placed(o.(startup := o.startup - {thread}, owners := o.owners - {thread}), j, o.actors[j])
    {
      assert Placed(o, j, o.actors[j]);
    }
  }

  lemma NameOk(o: Owners, thread: string, name: string)
    requires OwnersOk(o) && Can(o, SetThreadName(thread, name))
    ensures OwnersOk(Next(o, SetThreadName(thread, name)))
  {
    if Has(o, thread) {
      var id := o.owners[thread];
      var a := o.actors[id];
      var a' := a.(r := Rename(a.r, name), renaming := a.renaming + 1);
      ActorPlaced(o, id);
      RenameOk(a, name);
      assert Next(o, SetThreadName(thread, name)) == With(o, id, a') by { hide With, OwnersOk, Rename; }
      hide ActorOk, WorkOf, OwnersOk, With, Rename, Next;
      WithOk(o, id, a');
    }
  }

  lemma StatusOk(o: Owners, thread: string, status: string)
    requires OwnersOk(o) && Can(o, Status(thread, status))
    ensures OwnersOk(Next(o, Status(thread, status)))
  {
    var o1 := o.(startup := o.startup[thread := status]);
    assert |o1.owners| <= LoadLimit && |o1.startup| <= LoadLimit by { hide Residents, ActorOk; }
    if Has(o, thread) {
      var id := o.owners[thread];
      ActorPlaced(o, id);
      var a := o.actors[id].(r := Withdraw(o.actors[id].r));
      WithdrawOk(o.actors[id]);
      StartedOk(a);
      var a' := if status == "ready" then Started(a) else a;
      assert !a'.r.tools && (a'.r.closed <==> o.actors[id].r.closed) && a'.thread == o.actors[id].thread;
      hide ActorOk, WorkOf, Started, Withdraw;
      assert id in o.actors && o.actors[id].thread == thread by { hide Residents; }
      WithLedger(o, o1, id, a') by { hide Residents; }
      StatusLeaves(o, thread, status);
      hide Ledger;
      WithResidents(o, o1, id, a');
    } else {
      hide ActorOk, WorkOf;
      SameLedger(o, o1) by { hide Residents; }
      assert Residents(o1) by { hide Ledger; StatusLeaves(o, thread, status); }
    }
  }

  /** The status of one thread says nothing about the residents of the others. */
  lemma StatusLeaves(o: Owners, thread: string, status: string)
    requires Residents(o)
    ensures var o1 := o.(startup := o.startup[thread := status]);
            forall j | j in o.actors && (thread !in o.owners || o.owners[thread] !in o.actors || j != o.owners[thread]) ::
              Placed(o1, j, o.actors[j])
  {
    hide ActorOk;
    forall j | j in o.actors && (thread !in o.owners || o.owners[thread] !in o.actors || j != o.owners[thread])
      ensures Placed(o.(startup := o.startup[thread := status]), j, o.actors[j])
    {
      assert Placed(o, j, o.actors[j]);
    }
  }

  /** Every resident replaced at once by one with the same thread and the same work. */
  lemma AllLedger(o: Owners, o': Owners)
    requires Ledger(o) && o'.actors.Keys == o.actors.Keys
    requires o' == o.(ended := o'.ended, actors := o'.actors)
    requires forall id | id in o.actors :: WorkOf(o'.actors[id]) == WorkOf(o.actors[id]) && o'.actors[id].thread == o.actors[id].thread
    ensures Ledger(o')
  {
    assert Works(o') == Works(o);
    hide WorkOf, Total, Works;
  }

  lemma EndOk(o: Owners)
    requires OwnersOk(o)
    ensures OwnersOk(Next(o, EndAll))
  {
    var o' := Next(o, EndAll);
    if !o.ended {
      hide Ledger;
      forall id | id in o.actors ensures ActorOk(o'.actors[id]) && Placed(o', id, o'.actors[id]) {
        ActorPlaced(o, id);
        EndedOk(o, id);
        hide ActorOk, Ended;
        assert Ended(o, o.actors[id], id).r.closed;
      }
      hide ActorOk, Placed;
      AllLedger(o, o') by { hide Residents; }
    }
  }

  lemma EndedOk(o: Owners, id: nat)
    requires id in o.actors && ActorOk(o.actors[id]) && Placed(o, id, o.actors[id])
    ensures ActorOk(Ended(o, o.actors[id], id)) && Ended(o, o.actors[id], id).r.closed
  {
    var a := o.actors[id];
    RetireOk(a);
    CancelOk(a);
    CancelOk(a.(r := Retire(a.r, true)));
    hide ActorOk;
  }

  lemma CancelAllOk(o: Owners)
    requires OwnersOk(o)
    ensures OwnersOk(Next(o, CancelAll))
  {
    var o' := Next(o, CancelAll);
    hide Ledger;
    forall id | id in o.actors ensures ActorOk(o'.actors[id]) && Placed(o', id, o'.actors[id]) {
      ActorPlaced(o, id);
      CancelOk(o.actors[id]);
      hide ActorOk;
    }
    hide ActorOk, Placed;
    AllLedger(o, o') by { hide Residents; }
  }

  /** A resident never reopens and gains tools only through a check that saw native ready. */
  lemma MovedPlaced(a: Actor, m: Move, conn: nat)
    requires CanMove(a, m) && !m.FinishChecking?
    ensures var a' := Moved(a, m, conn);
            (a.r.closed ==> a'.r.closed) && (a'.r.tools ==> a.r.tools)
  {
  }

  lemma CheckedPlaced(a: Actor, valid: bool, stillReady: bool)
    requires a.check.Some?
    ensures var a' := Checked(a, valid, stillReady);
            (a'.r.closed <==> a.r.closed) && (a'.r.tools ==> stillReady)
  {
  }

  lemma FinishOk(o: Owners, id: nat, valid: bool)
    requires OwnersOk(o) && id in o.actors && o.actors[id].check.Some?
    ensures var a := o.actors[id]; OwnersOk(With(o, id, Checked(a, valid, Ready(o, a.thread) && !o.ended)))
  {
    ActorPlaced(o, id);
    var a := o.actors[id];
    var ready := Ready(o, a.thread) && !o.ended;
    CheckedOk(a, valid, ready);
    CheckedPlaced(a, valid, ready);
    hide ActorOk, OwnersOk, Checked, WorkOf, With;
    WithOk(o, id, Checked(a, valid, ready));
  }

  lemma MoveOk(o: Owners, id: nat, move: Move)
    requires OwnersOk(o) && id in o.actors && CanMove(o.actors[id], move) && !move.FinishChecking?
    ensures OwnersOk(With(o.(dialed := o.dialed + 1), id, Moved(o.actors[id], move, o.dialed + 1)))
  {
    ActorPlaced(o, id);
    var a := o.actors[id];
    MovedOk(a, move, o.dialed + 1);
    MovedPlaced(a, move, o.dialed + 1);
    DialedOk(o);
    hide ActorOk, OwnersOk, Moved, WorkOf, CanMove, With;
    WithOk(o.(dialed := o.dialed + 1), id, Moved(a, move, o.dialed + 1));
  }

  lemma DialedOk(o: Owners)
    requires OwnersOk(o)
    ensures OwnersOk(o.(dialed := o.dialed + 1))
  {
    var o1 := o.(dialed := o.dialed + 1);
    hide ActorOk;
    SameLedger(o, o1) by { hide Residents; }
    assert Residents(o1) by {
      hide Ledger;
      forall j | j in o1.actors ensures ActorOk(o1.actors[j]) && Placed(o1, j, o1.actors[j]) { assert Placed(o, j, o.actors[j]); }
    }
  }

  lemma NamingOk(o: Owners, o1: Owners)
    requires OwnersOk(o) && o1 == o.(naming := o1.naming, work := o1.work) && o1.work - o1.naming == o.work - o.naming
    ensures OwnersOk(o1)
  {
    hide ActorOk;
    SameLedger(o, o1) by { hide Residents; }
    assert Residents(o1) by {
      hide Ledger;
      forall j | j in o1.actors ensures ActorOk(o1.actors[j]) && Placed(o1, j, o1.actors[j]) { assert Placed(o, j, o.actors[j]); }
    }
  }

  lemma StepOk(o: Owners, e: Event)
    requires OwnersOk(o) && Can(o, e)
    ensures OwnersOk(Next(o, e))
  {
    hide OwnersOk;
    match e
    case Load(id, thread, name) => LoadOk(o, id, thread, name);
    case Close(thread) => CloseOk(o, thread);
    case SetThreadName(thread, name) => NameOk(o, thread, name);
    case Status(thread, status) => StatusOk(o, thread, status);
    case EndAll => EndOk(o);
    case CancelAll => CancelAllOk(o);
    case Local(id, move) =>
      if move.FinishChecking? { FinishOk(o, id, move.valid); } else { MoveOk(o, id, move); }
    case _ => NamingOk(o, Next(o, e));
  }

  lemma {:induction false} RunOk(os: seq<Owners>, es: seq<Event>, i: nat)
    requires Run(os, es) && i < |os|
    ensures OwnersOk(os[i])
  {
    if i == 0 {
      assert Works(Start()) == map[];
    } else {
      RunOk(os, es, i - 1);
      hide Next, Can, OwnersOk;
      StepOk(os[i - 1], es[i - 1]);
    }
  }

  // ----- the theorems --------------------------------------------------------------------------

  /** The publisher sleeps, its channel is empty, nobody is about to wake it, and its context lives. */
  predicate Asleep(a: Actor) {
    a.loop.Parked? && !a.r.changed && a.waking == 0 && a.renaming == 0 && !a.r.cancelled
  }

  /** No lost wakeup: a publisher asleep with an empty channel, no wake in flight and a live context
      has nothing to publish. */
  lemma NoLostWakeup(os: seq<Owners>, es: seq<Event>, i: nat, id: nat)
    requires Run(os, es) && i < |os| && id in os[i].actors && Asleep(os[i].actors[id])
    ensures !Needs(os[i].actors[id].r)
  {
    RunOk(os, es, i);
    ActorPlaced(os[i], id);
    hide Run, OwnersOk;
  }

  /** The publication invariant. */
  lemma AdmittedMeansPublished(os: seq<Owners>, es: seq<Event>, i: nat, id: nat)
    requires Run(os, es) && i < |os| && id in os[i].actors && os[i].actors[id].r.admitted
    ensures var o, a := os[i], os[i].actors[id];
            && a.r.tools && !a.r.closed && !o.ended && a.r.connection.Some?
            && a.accepted == Some((a.r.connection.value, a.r.identity))
            && a.validated == Some(a.r.toolGeneration)
            && Ready(o, a.thread) && a.thread in o.owners && o.owners[a.thread] == id
  {
    RunOk(os, es, i);
    ActorPlaced(os[i], id);
    hide Run, OwnersOk;
  }

  /** What no step takes back: the end of the owner, the closing of a resident, and its handlers once
      it is closed. */
  lemma StepTerminal(o: Owners, e: Event, id: nat)
    requires OwnersOk(o) && Can(o, e) && id in o.actors
    ensures var o' := Next(o, e);
            && (o.ended ==> o'.ended)
            && id in o'.actors
            && (o.actors[id].r.closed ==> o'.actors[id].r.closed && o'.actors[id].handlers <= o.actors[id].handlers)
  {
    hide OwnersOk, WorkOf;
    if e.Local? && e.id == id && !e.move.FinishChecking? && o.actors[id].r.closed { MovedTerminal(o.actors[id], e.move, o.dialed + 1); }
    if e.Local? && e.id == id && e.move.FinishChecking? { CheckedTerminal(o.actors[id], e.move.valid, Ready(o, o.actors[id].thread) && !o.ended); }
    hide Moved, Checked;
  }

  lemma MovedTerminal(a: Actor, m: Move, conn: nat)
    requires CanMove(a, m) && !m.FinishChecking? && a.r.closed
    ensures var a' := Moved(a, m, conn);
            a'.r.closed && a'.handlers <= a.handlers
  {
  }

  lemma CheckedTerminal(a: Actor, valid: bool, stillReady: bool)
    requires a.check.Some?
    ensures var a' := Checked(a, valid, stillReady);
            a'.r.closed == a.r.closed && a'.handlers == a.handlers && a'.loop == a.loop
            && WorkOf(a') <= WorkOf(a) + (if stillReady then 1 else 0)
  {
  }

  /** Retirement is terminal: a resident once closed, by supersession or otherwise, is never admitted
      again and takes no further handler. */
  lemma {:induction false} RetirementIsTerminal(os: seq<Owners>, es: seq<Event>, i: nat, j: nat, id: nat)
    requires Run(os, es) && i <= j < |os| && id in os[i].actors && os[i].actors[id].r.closed
    ensures id in os[j].actors && os[j].actors[id].r.closed && !os[j].actors[id].r.admitted
    ensures os[j].actors[id].handlers <= os[i].actors[id].handlers
    decreases j
  {
    hide Next, Can, OwnersOk;
    RunOk(os, es, j);
    if i < j {
      RetirementIsTerminal(os, es, i, j - 1, id);
      RunOk(os, es, j - 1);
      StepTerminal(os[j - 1], es[j - 1], id);
    }
    ClosedNotAdmitted(os[j], id);
  }

  lemma ClosedNotAdmitted(o: Owners, id: nat)
    requires OwnersOk(o)
    ensures id in o.actors && o.actors[id].r.closed ==> !o.actors[id].r.admitted
  {
    if id in o.actors { ActorPlaced(o, id); }
    hide OwnersOk;
  }

  /** A superseded request closes the resident and joins as its last handler. */
  lemma SupersededIsLast(a: Actor, source: nat, conn: nat)
    requires !a.r.closed
    ensures var a' := Moved(a, Arrive(source, true), conn);
            if a.r.connection == Some(source) then a'.r.closed && !a'.r.admitted && !a'.r.tools && a'.handlers == a.handlers + 1
            else a' == a
  {
  }

  lemma MovedWork(a: Actor, m: Move, conn: nat)
    requires CanMove(a, m) && !m.FinishChecking?
    ensures WorkOf(Moved(a, m, conn)) <= WorkOf(a)
  {
  }

  /** No work joins an ended owner. */
  lemma EndedWork(o: Owners, e: Event)
    requires OwnersOk(o) && Can(o, e) && o.ended
    ensures var o' := Next(o, e); o'.ended && o'.work <= o.work
  {
    if e.Local? && e.move.FinishChecking? { CheckedTerminal(o.actors[e.id], e.move.valid, false); }
    if e.Local? && !e.move.FinishChecking? { MovedWork(o.actors[e.id], e.move, o.dialed + 1); }
    hide OwnersOk, Moved, Checked, WorkOf;
  }

  /** Nothing of the resident is running. */
  predicate Joined(a: Actor) {
    a.loop.Done? && a.check.None? && a.waking == 0 && a.handlers == 0 && a.r.closed
  }

  lemma NoWorkMeansJoined(o: Owners, id: nat)
    requires OwnersOk(o) && o.work <= 0 && id in o.actors
    ensures Joined(o.actors[id]) && o.naming == 0 && o.work == 0
  {
    ActorPlaced(o, id);
    TotalCovers(Works(o), id);
    hide Residents, Total;
  }

  /** Shutdown joins everything: when the wait of an ended owner returns, every publisher, catalog
      check, wake, handler and rename call has finished, and none ever starts again. */
  lemma {:induction false} ShutdownJoins(os: seq<Owners>, es: seq<Event>, i: nat, j: nat, id: nat)
    requires Run(os, es) && i <= j < |os| && os[i].ended && os[i].work == 0 && id in os[j].actors
    ensures Joined(os[j].actors[id]) && os[j].naming == 0
  {
    NoWorkLater(os, es, i, j);
    RunOk(os, es, j);
    hide Run, OwnersOk;
    NoWorkMeansJoined(os[j], id);
  }

  lemma {:induction false} NoWorkLater(os: seq<Owners>, es: seq<Event>, i: nat, j: nat)
    requires Run(os, es) && i <= j < |os| && os[i].ended && os[i].work == 0
    ensures os[j].ended && os[j].work <= 0
    decreases j
  {
    hide Next, Can, OwnersOk;
    if i < j {
      NoWorkLater(os, es, i, j - 1);
      RunOk(os, es, j - 1);
      EndedWork(os[j - 1], es[j - 1]);
    }
  }
}
