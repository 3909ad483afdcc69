/** One loaded thread of the broker: its fields, the sections that change them, and the object whose
    methods perform those sections in place. */
module Publisher {
  import opened Prelude

  datatype Identity = Identity(session: string, name: string)

  /** `changed` is the one-slot wake channel; `cancelled` says that the resident's context has ended. */
  datatype Resident = Resident(
    identity: Identity, generation: nat, admitted: bool, tools: bool, checking: bool,
    toolGeneration: nat, closed: bool, connection: Option<nat>, changed: bool, cancelled: bool)

  function Loaded(identity: Identity): Resident {
    Resident(identity, 1, false, false, false, 0, false, None, false, false)
  }

  function Rename(r: Resident, name: string): Resident {
    r.(identity := r.identity.(name := name), generation := r.generation + 1, admitted := false)
  }

  function Withdraw(r: Resident): Resident {
    r.(tools := false, admitted := false, toolGeneration := r.toolGeneration + 1)
  }

  /** Begins a catalog check unless one is running; the caller remembers the tool generation. */
  function StartCheck(r: Resident): (Resident, bool) {
    if r.checking || r.closed then (r, false) else (r.(checking := true), true)
  }

  /** Ends a check that began at `generation`; a stale one proves nothing. */
  function FinishCheck(r: Resident, valid: bool, stillReady: bool, generation: nat): Resident {
    r.(checking := false, tools := valid && stillReady && r.toolGeneration == generation && !r.closed)
  }

  /** Terminal unless it was already, in which case only an explicit end takes the connection. */
  function Retire(r: Resident, evenIfClosed: bool): Resident {
    if r.closed && !evenIfClosed then r
    else r.(closed := true, admitted := false, cancelled := r.cancelled || !r.closed, connection := None)
  }

  function ClearConnection(r: Resident, c: nat): Resident {
    if r.connection == Some(c) then r.(connection := None, admitted := false) else r
  }

  /** Records the connection of a fresh dial; false when the resident closed meanwhile. */
  function Adopt(r: Resident, c: nat): (Resident, bool) {
    if r.closed then (r, false) else (r.(connection := Some(c)), true)
  }

  /** The observer of an accepted hello. */
  function Admit(r: Resident, generation: nat): Resident {
    if !r.closed && r.generation == generation && r.tools then r.(admitted := true) else r
  }

  /** What becomes of a request that arrives on connection `source`. */
  datatype Handling = Refused | Superseding | Serving(admitted: bool)

  function Handle(r: Resident, source: nat, superseded: bool): (Resident, Handling) {
    if r.connection != Some(source) || r.closed then (r, Refused)
    else if superseded then
      (r.(closed := true, admitted := false, tools := false, generation := r.generation + 1, cancelled := true), Superseding)
    else (r, Serving(r.admitted))
  }

  class BrokerResident {
    var identity: Identity
    var generation: nat
    var admitted: bool
    var tools: bool
    var checking: bool
    var toolGeneration: nat
    var closed: bool
    var connection: Option<nat>
    var changed: bool
    var cancelled: bool

    function Value(): Resident
      reads this
    {
      Resident(identity, generation, admitted, tools, checking, toolGeneration, closed, connection, changed, cancelled)
    }

    constructor (identity: Identity)
      ensures Value() == Loaded(identity)
    {
      this.identity, generation, toolGeneration := identity, 1, 0;
      admitted, tools, checking, closed, changed, cancelled := false, false, false, false, false, false;
      connection := None;
    }

    method SetName(name: string)
      modifies this
      ensures Value() == Rename(old(Value()), name)
    {
      identity := identity.(name := name);
      generation := generation + 1;
      admitted := false;
    }

    method StatusUpdated()
      modifies this
      ensures Value() == Withdraw(old(Value()))
    {
      tools := false;
      admitted := false;
      toolGeneration := toolGeneration + 1;
    }

    method CheckTools() returns (started: bool, current: nat)
      modifies this
      ensures (Value(), started) == StartCheck(old(Value())) && current == toolGeneration
    {
      current := toolGeneration;
      if checking || closed { return false, current; }
      checking := true;
      started := true;
    }

    method CheckDone(valid: bool, stillReady: bool, began: nat) returns (same: bool)
      modifies this
      ensures Value() == FinishCheck(old(Value()), valid, stillReady, began)
      ensures same == (toolGeneration == began)
    {
      checking := false;
      same := toolGeneration == began;
      tools := valid && stillReady && same && !closed;
    }

    /** A send that is dropped when the slot is full. */
    method Wake()
      modifies this
      ensures Value() == old(Value()).(changed := true)
    {
      if !changed { changed := true; }
    }

    /** Returns the connection that the caller must close. */
    method End(closeAlreadyRetired: bool) returns (c: Option<nat>)
      modifies this
      ensures Value() == Retire(old(Value()), closeAlreadyRetired)
      ensures c == if old(closed) && !closeAlreadyRetired then None else old(connection)
    {
      if closed && !closeAlreadyRetired { return None; }
      if !closed {
        closed := true;
        admitted := false;
        cancelled := true;
      }
      admitted := false;
      c := connection;
      connection := None;
    }

    method Clear(c: nat)
      modifies this
      ensures Value() == ClearConnection(old(Value()), c)
    {
      if connection == Some(c) {
        connection := None;
        admitted := false;
      }
    }

    method Connect(c: nat) returns (ok: bool)
      modifies this
      ensures (Value(), ok) == Adopt(old(Value()), c)
    {
      if closed { return false; }
      connection := Some(c);
      ok := true;
    }

    method Observe(began: nat)
      modifies this
      ensures Value() == Admit(old(Value()), began)
    {
      if !closed && generation == began && tools { admitted := true; }
    }

    method Request(source: nat, superseded: bool) returns (h: Handling)
      modifies this
      ensures (Value(), h) == Handle(old(Value()), source, superseded)
    {
      if connection != Some(source) || closed { return Refused; }
      if superseded {
        closed := true;
        admitted := false;
        tools := false;
        generation := generation + 1;
        cancelled := true;
        return Superseding;
      }
      return Serving(admitted);
    }
  }
}
