/** The lane's turns: what each locked section of the wrapper does to the active turn, as functions on
    values and as methods on the two mutable objects of the source. */
module LaneTurn {
  import opened Prelude

  /** What a one-slot channel carries: success or an error. */
  datatype Signal = Good | Bad

  /** `ready` and `done` hold everything ever sent on the two channels. */
  datatype Turn = Turn(id: string, started: bool, ready: seq<Signal>, done: seq<Signal>, observed: Option<string>)

  datatype Lane = Lane(thread: string, active: Option<Turn>, failed: bool, boundary: nat)

  /** A decoded notification; `status` is the native status of the turn. */
  datatype Event = Event(thread: string, turn: string, completed: bool, status: string)

  /** The lane after a section, the turn that was active before it, and whether the section asks for a failure. */
  datatype Effect = Effect(lane: Lane, turn: Option<Turn>, fault: bool)

  const Idle: Turn := Turn("", false, [], [], None)

  /** The turn after an event that concerns it. */
  function Observed(t: Turn, e: Event): Turn {
    var named := t.(id := e.turn);
    var announced := if named.started then named else named.(started := true, ready := named.ready + [Good]);
    if e.completed then announced.(observed := Some(e.status), done := announced.done + [Good]) else announced
  }

  function Receive(l: Lane, e: Event): Effect {
    if e.thread == "" || e.turn == "" then Effect(l, l.active, true)
    else if e.thread != l.thread then Effect(l, l.active, false)
    else
      var counted := l.(boundary := l.boundary + 1);
      match l.active
      case None => Effect(counted, None, false)
      case Some(t) =>
        if t.id != "" && e.turn != t.id then Effect(counted, Some(t), true)
        else
          var t' := Observed(t, e);
          Effect(counted.(active := if e.completed then None else Some(t')), Some(t'), false)
  }

  /** The turn after the failure of the lane. */
  function Broken(t: Turn): Turn {
    if t.started then t.(done := t.done + [Bad]) else t.(started := true, ready := t.ready + [Bad])
  }

  function Fail(l: Lane): Effect {
    if l.failed then Effect(l, l.active, false)
    else
      Effect(l.(failed := true, active := None),
             match l.active case None => None case Some(t) => Some(Broken(t)), false)
  }

  /** The identifier the start reply gave, if it does not contradict an earlier event. */
  function Named(t: Turn, id: string): Option<Turn> {
    if id == "" || (t.id != "" && t.id != id) then None else Some(t.(id := id))
  }

  // ----- the turn's protocol -------------------------------------------------------------------

  /** One signal at most on each channel; the second channel is used only after success on the first. */
  ghost predicate Orderly(t: Turn) {
    && (t.ready == [] || t.ready == [Good] || t.ready == [Bad])
    && (t.done == [] || t.done == [Good] || t.done == [Bad])
    && (t.started <==> t.ready != [])
    && (t.done != [] ==> t.ready == [Good])
    && (t.ready == [Good] ==> t.id != "")
    && (t.observed.Some? ==> t.done == [Good])
    && (t.done == [Good] ==> t.observed.Some?)
  }

  /** A turn that is still active has not ended, and has not failed to start. */
  ghost predicate Open(t: Turn) {
    Orderly(t) && t.done == [] && t.ready != [Bad]
  }

  /** Nothing said is taken back: the identifier is written once, signals are only added, a result stays. */
  predicate Extends(t': Turn, t: Turn) {
    && (t.id != "" ==> t'.id == t.id)
    && t.ready <= t'.ready && t.done <= t'.done
    && (t.observed.Some? ==> t'.observed == t.observed)
  }

  /** An event keeps the turn orderly, and ends it exactly when it says so. */
  lemma EventOrderly(l: Lane, e: Event)
    requires l.active.Some? && Open(l.active.value)
    ensures var f := Receive(l, e);
            && f.turn.Some? && Orderly(f.turn.value) && Extends(f.turn.value, l.active.value)
            && (f.lane.active.Some? ==> f.lane.active == f.turn && Open(f.turn.value))
            && (f.lane.active.None? <==> f.turn.value.done == [Good])
  {
    assert [Good][0] != [Bad][0];
  }

  /** The notification concerns the turn: it is the lane's own, and names the turn or finds it unnamed. */
  predicate Concerns(thread: string, t: Turn, e: Event) {
    e.thread != "" && e.thread == thread && e.turn != "" && (t.id == "" || t.id == e.turn)
  }

  /** A notification that the lane has to fail on: it is malformed, or names another turn of its thread. */
  predicate Contradicts(thread: string, active: Option<Turn>, e: Event) {
    e.thread == "" || e.turn == "" || (e.thread == thread && active.Some? && active.value.id != "" && active.value.id != e.turn)
  }

  /** What a notification does, and to what: one that concerns the active turn names it and makes it ready,
      and ends it, with the status it reports, exactly when it is a completion; any other leaves turn and
      lane alone, but for the count of the thread's notifications. */
  lemma EventExact(l: Lane, e: Event)
    requires l.active.Some? && Open(l.active.value)
    ensures var t, f := l.active.value, Receive(l, e);
            && f.turn.Some? && f.fault == Contradicts(l.thread, l.active, e)
            && (Concerns(l.thread, t, e) ==>
                  && f.turn.value.id == e.turn && f.turn.value.started && f.turn.value.ready == [Good]
                  && (e.completed <==> f.turn.value.done == [Good]) && (!e.completed ==> f.turn.value.done == [])
                  && f.turn.value.observed == (if e.completed then Some(e.status) else None)
                  && f.lane.active == if e.completed then None else f.turn)
            && (!Concerns(l.thread, t, e) ==> f.turn == l.active && f.lane.active == l.active)
            && f.lane.boundary == l.boundary + (if e.thread == l.thread && e.thread != "" && e.turn != "" then 1 else 0)
            && f.lane.failed == l.failed
  {
    assert [] + [Good] == [Good];
  }

  /** A failure keeps the active turn orderly and reaches it exactly when it is the first failure. */
  lemma FailureReachesTurn(l: Lane)
    requires l.active.Some? && Open(l.active.value)
    ensures var f := Fail(l);
            && f.turn.Some? && Orderly(f.turn.value) && Extends(f.turn.value, l.active.value)
            && (Bad in f.turn.value.ready + f.turn.value.done <==> !l.failed)
            && (f.lane.active.None? <==> !l.failed)
  {
  }

  lemma NameOrderly(t: Turn, id: string)
    requires Orderly(t)
    ensures Named(t, id).Some? ==> Orderly(Named(t, id).value) && Extends(Named(t, id).value, t)
    ensures Named(t, id).Some? <==> id != "" && (t.id == "" || t.id == id)
  {
  }

  // ----- the objects ---------------------------------------------------------------------------

  class TurnObject {
    var id: string
    var started: bool
    var ready: seq<Signal>
    var done: seq<Signal>
    var observed: Option<string>

    constructor ()
      ensures Value() == Idle
    {
      id, started, ready, done, observed := "", false, [], [], None;
    }

    function Value(): Turn
      reads this
    {
      Turn(id, started, ready, done, observed)
    }
  }

  class LaneObject {
    const thread: string
    var active: TurnObject?
    var failed: bool
    var boundary: nat

    constructor (thread: string)
      ensures Value() == Lane(thread, None, false, 0)
    {
      this.thread := thread;
      active, failed, boundary := null, false, 0;
    }

    function Value(): Lane
      reads this, active
    {
      Lane(thread, if active == null then None else Some(active.Value()), failed, boundary)
    }

    /** The first section of a start: refused unless the lane is idle. The failure is not looked at. */
    method Begin() returns (t: TurnObject?)
      modifies this
      ensures t == null <==> old(active) != null
      ensures t == null ==> Value() == old(Value())
      ensures t != null ==> fresh(t) && active == t && t.Value() == Idle
      ensures t != null ==> failed == old(failed) && boundary == old(boundary) + 1
    {
      if active != null { return null; }
      t := new TurnObject();
      active := t;
      boundary := boundary + 1;
    }

    /** The reply to the start; on a contradiction the caller clears the turn. */
    method Name(t: TurnObject, reply: string) returns (ok: bool)
      modifies t
      ensures ok <==> Named(old(t.Value()), reply).Some?
      ensures t.Value() == if ok then Named(old(t.Value()), reply).value else old(t.Value())
    {
      if reply == "" { return false; }
      if t.id != "" && t.id != reply { return false; }
      t.id := reply;
      return true;
    }

    method Clear(t: TurnObject)
      modifies this
      ensures failed == old(failed) && boundary == old(boundary)
      ensures active == if old(active) == t then null else old(active)
    {
      if active == t { active := null; }
    }

    /** One turn notification. */
    method Notify(e: Event) returns (fault: bool)
      modifies this, active
      ensures var f := Receive(old(Value()), e);
              && Value() == f.lane && fault == f.fault
              && (old(active) != null ==> f.turn == Some(old(active).Value()))
      ensures active == null || active == old(active)
    {
      if e.thread == "" || e.turn == "" { return true; }
      var t := active;
      if e.thread == thread { boundary := boundary + 1; }
      if t == null || e.thread != thread { return false; }
      if t.id != "" && e.turn != t.id { return true; }
      if t.id == "" { t.id := e.turn; }
      if !t.started {
        t.started := true;
        t.ready := t.ready + [Good];
      }
      if e.completed {
        t.observed := Some(e.status);
        active := null;
        t.done := t.done + [Good];
      }
      return false;
    }

    method MarkFailed()
      modifies this, active
      ensures var f := Fail(old(Value()));
              Value() == f.lane && (old(active) != null ==> f.turn == Some(old(active).Value()))
      ensures active == null || active == old(active)
    {
      if failed { return; }
      failed := true;
      var t := active;
      active := null;
      if t != null {
        if !t.started {
          t.started := true;
          t.ready := t.ready + [Bad];
        } else {
          t.done := t.done + [Bad];
        }
      }
    }
  }
}
