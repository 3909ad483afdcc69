/** The broker multiplexer: one value per state, one function per critical section, and the
    object whose methods change its fields in place and are proved equal to those functions. */
module BrokerMux {
  import opened Prelude
  import opened BrokerIds

  const RouteLimit: nat := 256
  const MessageLimit: nat := 0x800_0000

  datatype Packet = Packet(body: Frame, size: nat)

  /** A correlation awaiting a native response. `serial` is the counter value in its wire
      identifier; `original` is the TUI identifier, absent for an internal call; `reply` says that
      an internal caller still listens on its one-slot channel. */
  datatype Call = Call(serial: nat, original: Option<Raw>, verb: string, reply: bool, held: nat)
  datatype ServerCall = ServerCall(original: Raw, held: nat)

  datatype Mux = Mux(
    limit: nat, failed: bool, cancelled: bool, buffered: int, next: nat,
    calls: map<Key, Call>, tuiIDs: set<Key>, servers: map<Key, ServerCall>,
    nativeOut: seq<Packet>, tuiOut: seq<Packet>,
    ready: bool, initialized: bool, initializeSeen: bool, initializeOK: bool)

  datatype Side = Native | Tui

  /** What the TUI reader did with a frame. */
  datatype Verdict = Accepted | Drained | Fault

  /** What the native reader holds when it leaves the critical section. */
  datatype Arrival =
    | Malformed
    | Forward(body: Frame, notify: bool)
    | Claim(call: Call)

  datatype Submission = Refused | Submitted(serial: nat) | Broken(serial: nat)

  function Empty(limit: nat): Mux {
    Mux(limit, false, false, 0, 0, map[], {}, map[], [], [], false, false, false, false)
  }

  // ----- frames --------------------------------------------------------------------------------

  /** None for a frame whose method is present but not a nonempty text. */
  function Method(c: Codec, f: Frame): Option<string> {
    if "method" !in f then Some("")
    else match c.decodeText(f["method"])
      case None => None
      case Some(s) => if s == "" then None else Some(s)
  }

  predicate OneOutcome(f: Frame) {
    ("result" in f) != ("error" in f)
  }

  function KeyOf(c: Codec, raw: Raw): Key {
    match BrokerId(c, raw) case Some(k) => k case None => ""
  }

  // ----- budget and queues ---------------------------------------------------------------------

  predicate Fits(m: Mux, n: nat) {
    n <= m.limit - m.buffered
  }

  /** A frame is queued whole or not at all: every refusal leaves the state as it was. */
  function Enqueue(c: Codec, m: Mux, side: Side, f: Frame): (Mux, bool) {
    var p := Packet(f, c.frameSize(f));
    if p.size > MessageLimit || !Fits(m, p.size) || m.cancelled then (m, false)
    else match side
      case Native =>
        if |m.nativeOut| >= RouteLimit then (m, false)
        else (m.(nativeOut := m.nativeOut + [p], buffered := m.buffered + p.size), true)
      case Tui =>
        if |m.tuiOut| >= RouteLimit then (m, false)
        else (m.(tuiOut := m.tuiOut + [p], buffered := m.buffered + p.size), true)
  }

  // ----- frames read from the TUI --------------------------------------------------------------

  function FromTui(c: Codec, m: Mux, f: Frame): (Mux, Verdict) {
    match Method(c, f)
    case None => (m, Fault)
    case Some(verb) =>
      if m.failed then (m, Fault)
      else if verb == "" then TuiResponse(c, m, f)
      else if "id" in f then TuiRequest(c, m, f, verb)
      else TuiNotice(c, m, f, verb)
  }

  function TuiRequest(c: Codec, m: Mux, f: Frame, verb: string): (Mux, Verdict)
    requires "id" in f
  {
    match BrokerId(c, f["id"])
    case None => (m, Fault)
    case Some(key) =>
      if key in m.tuiIDs || |m.calls| >= RouteLimit || (verb == "initialize" && m.initializeSeen)
      then (m, Fault)
      else Admit(c, Numbered(m, verb), f, key, verb)
  }

  /** Takes the next counter value; an `initialize` is remembered even if it is refused later. */
  function Numbered(m: Mux, verb: string): Mux {
    m.(initializeSeen := m.initializeSeen || verb == "initialize", next := m.next + 1)
  }

  function Admit(c: Codec, m: Mux, f: Frame, key: Key, verb: string): (Mux, Verdict)
    requires "id" in f
  {
    if !Fits(m, Held(f["id"], key)) then (m, Fault)
    else Send(c, Record(m, f["id"], key, verb), f["id" := WireRaw(c, m.next)])
  }

  /** Bytes charged for remembering an identifier and its key. */
  function Held(id: Raw, key: Key): nat {
    |id| + |key|
  }

  /** Enters the correlation of the request numbered `next`, its identifier and its charge. */
  function Record(m: Mux, id: Raw, key: Key, verb: string): Mux {
    m.(buffered := m.buffered + Held(id, key),
       calls := m.calls[WireKey(m.next) := Call(m.next, Some(id), verb, false, Held(id, key))],
       tuiIDs := m.tuiIDs + {key})
  }

  function TuiNotice(c: Codec, m: Mux, f: Frame, verb: string): (Mux, Verdict) {
    if verb == "initialized" then
      if !m.initializeOK || m.initialized then (m, Fault)
      else Send(c, m.(initialized := true), f)
    else Send(c, m, f)
  }

  /** Queues toward native; the first success after `initialized` opens the gate for internal calls. */
  function Send(c: Codec, m: Mux, f: Frame): (Mux, Verdict) {
    var (m', ok) := Enqueue(c, m, Native, f);
    if ok then (m'.(ready := m'.ready || m'.initialized), Accepted) else (m', Fault)
  }

  function TuiResponse(c: Codec, m: Mux, f: Frame): (Mux, Verdict) {
    if "id" !in f || !OneOutcome(f) then (m, Fault)
    else match BrokerId(c, f["id"])
      case None => (m, Fault)
      case Some(key) =>
        if key !in m.servers then
          (m, if InMappedNamespace(c, f["id"]) then Drained else Fault)
        else
          var s := m.servers[key];
          var m1 := m.(servers := m.servers - {key}, buffered := m.buffered - s.held);
          var (m', ok) := Enqueue(c, m1, Native, f["id" := s.original]);
          (m', if ok then Accepted else Fault)
  }

  // ----- frames read from native ---------------------------------------------------------------

  function FromNative(c: Codec, m: Mux, f: Frame): (Mux, Arrival) {
    match Method(c, f)
    case None => (m, Malformed)
    case Some(verb) =>
      if verb == "" then NativeResponse(c, m, f)
      else if "id" in f then NativeRequest(c, m, f)
      else if verb == "serverRequest/resolved" then NativeResolved(c, m, f)
      else (m, Forward(f, true))
  }

  function NativeRequest(c: Codec, m: Mux, f: Frame): (Mux, Arrival)
    requires "id" in f
  {
    if BrokerId(c, f["id"]).None? then (m, Malformed)
    else
      var mapped := ServerId(c, f["id"]);
      var key := KeyOf(c, mapped);
      var held := Held(f["id"], key);
      if |m.servers| >= RouteLimit || key in m.servers || !Fits(m, held) then (m, Malformed)
      else
        (m.(servers := m.servers[key := ServerCall(f["id"], held)], buffered := m.buffered + held),
         Forward(f["id" := mapped], false))
  }

  function NativeResolved(c: Codec, m: Mux, f: Frame): (Mux, Arrival) {
    match ResolvedId(c, f)
    case None => (m, Malformed)
    case Some(raw) =>
      var mapped := ServerId(c, raw);
      (Forget(m, KeyOf(c, mapped)), Forward(f["params" := c.encodeObject(c.decodeObject(f["params"]).value["requestId" := mapped])], true))
  }

  /** Removes a live server request, if it is one, with its charge. */
  function Forget(m: Mux, key: Key): Mux {
    if key in m.servers then m.(servers := m.servers - {key}, buffered := m.buffered - m.servers[key].held) else m
  }

  /** The identifier named by a resolution, if the notification is well formed. */
  function ResolvedId(c: Codec, f: Frame): (r: Option<Raw>)
    ensures r.Some? ==> "params" in f && c.decodeObject(f["params"]).Some?
  {
    if "params" !in f then None
    else match c.decodeObject(f["params"])
      case None => None
      case Some(p) =>
        if "requestId" in p && BrokerId(c, p["requestId"]).Some? then Some(p["requestId"]) else None
  }

  function NativeResponse(c: Codec, m: Mux, f: Frame): (Mux, Arrival) {
    if "id" !in f || !OneOutcome(f) then (m, Malformed)
    else match BrokerId(c, f["id"])
      case None => (m, Malformed)
      case Some(key) =>
        if key !in m.calls then (m, Malformed)
        else
          (Settle(c, m, key, "error" !in f), Claim(m.calls[key]))
  }

  /** Ends a correlation: slot, charge and TUI identifier are given back together. */
  function Settle(c: Codec, m: Mux, key: Key, succeeded: bool): Mux
    requires key in m.calls
  {
    var call := m.calls[key];
    m.(calls := m.calls - {key},
       buffered := m.buffered - call.held,
       tuiIDs := if call.original.Some? then m.tuiIDs - {KeyOf(c, call.original.value)} else m.tuiIDs,
       initializeOK := if call.verb == "initialize" then succeeded else m.initializeOK)
  }

  // ----- failure, internal calls, cancellation --------------------------------------------------

  function Fail(m: Mux): Mux {
    if m.failed then m else m.(failed := true, calls := map[])
  }

  /** The internal callers that the failing thread must wake. */
  function Orphans(m: Mux): set<nat> {
    if m.failed then {} else set k | k in m.calls && m.calls[k].reply :: m.calls[k].serial
  }

  function InternalFrame(c: Codec, serial: nat, verb: string, params: Raw): Frame {
    map["jsonrpc" := c.encodeText("2.0"), "id" := WireRaw(c, serial),
        "method" := c.encodeText(verb), "params" := params]
  }

  /** The section an internal call runs after the gate has opened. */
  function Submit(c: Codec, m: Mux, verb: string, params: Raw): (Mux, Submission) {
    if m.failed || |m.calls| >= RouteLimit then (m, Refused)
    else
      var n := m.next + 1;
      var (m', ok) := Enqueue(c, Open(m, verb), Native, InternalFrame(c, n, verb, params));
      (m', if ok then Submitted(n) else Broken(n))
  }

  /** Enters the correlation of a new internal call, which is charged nothing. */
  function Open(m: Mux, verb: string): Mux {
    m.(next := m.next + 1, calls := m.calls[WireKey(m.next + 1) := Call(m.next + 1, None, verb, true, 0)])
  }

  /** Cancellation detaches the caller but keeps the correlation; false means already claimed. */
  function Cancel(m: Mux, serial: nat): (Mux, bool) {
    var key := WireKey(serial);
    if key in m.calls then (m.(calls := m.calls[key := m.calls[key].(reply := false)]), true)
    else (m, false)
  }

  // ----- the object ----------------------------------------------------------------------------

  class Multiplexer {
    const codec: Codec
    const byteLimit: nat
    var failed: bool
    var cancelled: bool
    var buffered: int
    var next: nat
    var calls: map<Key, Call>
    var tuiIDs: set<Key>
    var servers: map<Key, ServerCall>
    var nativeOut: seq<Packet>
    var tuiOut: seq<Packet>
    var ready: bool
    var initialized: bool
    var initializeSeen: bool
    var initializeOK: bool

    function Value(): Mux
      reads this
    {
      Mux(byteLimit, failed, cancelled, buffered, next, calls, tuiIDs, servers, nativeOut, tuiOut,
          ready, initialized, initializeSeen, initializeOK)
    }

    constructor (codec: Codec)
      ensures Value() == Empty(2 * MessageLimit) && this.codec == codec
    {
      this.codec, byteLimit := codec, 2 * MessageLimit;
      failed, cancelled, buffered, next := false, false, 0, 0;
      calls, tuiIDs, servers, nativeOut, tuiOut := map[], {}, map[], [], [];
      ready, initialized, initializeSeen, initializeOK := false, false, false, false;
    }

    method Reserve(n: nat) returns (ok: bool)
      modifies this`buffered
      ensures ok == Fits(old(Value()), n)
      ensures Value() == if ok then old(Value()).(buffered := old(buffered) + n) else old(Value())
    {
      if n > byteLimit - buffered { return false; }
      buffered := buffered + n;
      return true;
    }

    method Release(n: nat)
      modifies this`buffered
      ensures Value() == old(Value()).(buffered := old(buffered) - n)
    {
      buffered := buffered - n;
    }

    method Queue(side: Side, f: Frame) returns (ok: bool)
      modifies this`buffered, this`nativeOut, this`tuiOut
      ensures (Value(), ok) == Enqueue(codec, old(Value()), side, f)
    {
      var size := codec.frameSize(f);
      if size > MessageLimit { return false; }
      ok := Reserve(size);
      if !ok { return; }
      if cancelled || |if side.Native? then nativeOut else tuiOut| >= RouteLimit {
        Release(size);
        return false;
      }
      match side {
        case Native => nativeOut := nativeOut + [Packet(f, size)];
        case Tui => tuiOut := tuiOut + [Packet(f, size)];
      }
    }

    method SendNative(f: Frame) returns (verdict: Verdict)
      modifies this
      ensures (Value(), verdict) == Send(codec, old(Value()), f)
    {
      var ok := Queue(Native, f);
      if !ok { return Fault; }
      if initialized { ready := true; }
      return Accepted;
    }

    /** One frame from the sole TUI reader, under the lock. */
    method ReadTui(f: Frame) returns (verdict: Verdict)
      modifies this
      ensures (Value(), verdict) == FromTui(codec, old(Value()), f)
    {
      var verb := Method(codec, f);
      if verb.None? || failed { return Fault; }
      if verb.value != "" {
        if "id" in f {
          verdict := RegisterTui(f, verb.value);
          return;
        }
        if verb.value == "initialized" {
          if !initializeOK || initialized { return Fault; }
          initialized := true;
        }
        verdict := SendNative(f);
        return;
      }
      verdict := AnswerNative(f);
    }

    method AnswerNative(f: Frame) returns (verdict: Verdict)
      modifies this
      ensures (Value(), verdict) == TuiResponse(codec, old(Value()), f)
    {
      if "id" !in f || !OneOutcome(f) { return Fault; }
      var key := BrokerId(codec, f["id"]);
      if key.None? { return Fault; }
      if key.value !in servers {
        return if InMappedNamespace(codec, f["id"]) then Drained else Fault;
      }
      var s := servers[key.value];
      servers := servers - {key.value};
      Release(s.held);
      var ok := Queue(Native, f["id" := s.original]);
      return if ok then Accepted else Fault;
    }

    method RegisterTui(f: Frame, verb: string) returns (verdict: Verdict)
      requires "id" in f
      modifies this
      ensures (Value(), verdict) == TuiRequest(codec, old(Value()), f, verb)
    {
      var key := BrokerId(codec, f["id"]);
      if key.None? || key.value in tuiIDs || |calls| >= RouteLimit { return Fault; }
      if verb == "initialize" {
        if initializeSeen { return Fault; }
        initializeSeen := true;
      }
      next := next + 1;
      verdict := AdmitTui(f, key.value, verb);
    }

    method AdmitTui(f: Frame, key: Key, verb: string) returns (verdict: Verdict)
      requires "id" in f
      modifies this
      ensures (Value(), verdict) == Admit(codec, old(Value()), f, key, verb)
    {
      var ok := Enter(f["id"], key, verb);
      if !ok { return Fault; }
      verdict := SendNative(f["id" := WireRaw(codec, next)]);
    }

    method Enter(id: Raw, key: Key, verb: string) returns (ok: bool)
      modifies this
      ensures ok == Fits(old(Value()), Held(id, key))
      ensures Value() == if ok then Record(old(Value()), id, key, verb) else old(Value())
    {
      var held := Held(id, key);
      ok := Reserve(held);
      if ok {
        calls := calls[WireKey(next) := Call(next, Some(id), verb, false, held)];
        tuiIDs := tuiIDs + {key};
      }
    }

    /** One frame from the native reader, up to the end of the locked section. */
    method ReadNative(f: Frame) returns (arrival: Arrival)
      modifies this
      ensures (Value(), arrival) == FromNative(codec, old(Value()), f)
    {
      var verb := Method(codec, f);
      if verb.None? { return Malformed; }
      if verb.value == "" {
        arrival := ClaimResponse(f);
      } else if "id" in f {
        arrival := RegisterNative(f);
      } else if verb.value == "serverRequest/resolved" {
        arrival := ResolveNative(f);
      } else {
        arrival := Forward(f, true);
      }
    }

    method RegisterNative(f: Frame) returns (arrival: Arrival)
      requires "id" in f
      modifies this
      ensures (Value(), arrival) == NativeRequest(codec, old(Value()), f)
    {
      if BrokerId(codec, f["id"]).None? { return Malformed; }
      var mapped := ServerId(codec, f["id"]);
      var key := KeyOf(codec, mapped);
      if |servers| >= RouteLimit || key in servers { return Malformed; }
      var held := Held(f["id"], key);
      var ok := Reserve(held);
      if !ok { return Malformed; }
      servers := servers[key := ServerCall(f["id"], held)];
      return Forward(f["id" := mapped], false);
    }

    method ResolveNative(f: Frame) returns (arrival: Arrival)
      modifies this
      ensures (Value(), arrival) == NativeResolved(codec, old(Value()), f)
    {
      var raw := ResolvedId(codec, f);
      if raw.None? { return Malformed; }
      var mapped := ServerId(codec, raw.value);
      var key := KeyOf(codec, mapped);
      if key in servers {
        Release(servers[key].held);
        servers := servers - {key};
      }
      var p := codec.decodeObject(f["params"]).value["requestId" := mapped];
      return Forward(f["params" := codec.encodeObject(p)], true);
    }

    method ClaimResponse(f: Frame) returns (arrival: Arrival)
      modifies this
      ensures (Value(), arrival) == NativeResponse(codec, old(Value()), f)
    {
      if "id" !in f || !OneOutcome(f) { return Malformed; }
      var key := BrokerId(codec, f["id"]);
      if key.None? || key.value !in calls { return Malformed; }
      arrival := Claim(calls[key.value]);
      Take(key.value, "error" !in f);
    }

    method Take(key: Key, succeeded: bool)
      requires key in calls
      modifies this
      ensures Value() == Settle(codec, old(Value()), key, succeeded)
    {
      var call := calls[key];
      calls := calls - {key};
      tuiIDs := if call.original.Some? then tuiIDs - {KeyOf(codec, call.original.value)} else tuiIDs;
      initializeOK := if call.verb == "initialize" then succeeded else initializeOK;
      Release(call.held);
    }

    /** The locked part of a failure; the callers returned are woken after the lock is released. */
    method MarkFailed() returns (orphans: set<nat>)
      modifies this
      ensures Value() == Fail(old(Value())) && orphans == Orphans(old(Value()))
    {
      if failed { return {}; }
      failed := true;
      orphans := set k | k in calls && calls[k].reply :: calls[k].serial;
      calls := map[];
    }

    method SubmitCall(verb: string, params: Raw) returns (r: Submission)
      modifies this
      ensures (Value(), r) == Submit(codec, old(Value()), verb, params)
    {
      if failed || |calls| >= RouteLimit { return Refused; }
      next := next + 1;
      calls := calls[WireKey(next) := Call(next, None, verb, true, 0)];
      var ok := Queue(Native, InternalFrame(codec, next, verb, params));
      return if ok then Submitted(next) else Broken(next);
    }

    method CancelCall(serial: nat) returns (unclaimed: bool)
      modifies this
      ensures (Value(), unclaimed) == Cancel(old(Value()), serial)
    {
      var key := WireKey(serial);
      if key !in calls { return false; }
      calls := calls[key := calls[key].(reply := false)];
      return true;
    }
  }
}
