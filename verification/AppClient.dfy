/** The native App Server client: its correlations, the requests it serves, and each of its critical
    sections, as functions on the client's value and as methods that change the client in place. */
module AppClient {
  import opened Prelude
  import opened BrokerIds

  const RequestLimit: nat := 256

  /** The JSON library, as functions: Go strings and int64s, the `threadId` member ("" if absent) and
      the two members of a resolution (None if they do not decode). */
  datatype Json = Json(
    text: Raw -> Option<string>,
    number: Raw -> Option<int>,
    threadId: Raw -> string,
    resolution: Raw -> Option<(string, Raw)>)

  /** A decoded frame; an absent `id` or `result` is "". */
  datatype Incoming = Incoming(id: Raw, verb: string, params: Raw, result: Raw, refused: bool)

  /** A correlation. A drained one keeps only its identifier until the late response arrives. */
  datatype Entry = Live(observes: bool) | Drained

  datatype Work = Work(thread: string, cancelled: bool)

  datatype Client = Client(next: nat, pending: map<nat, Entry>, failed: bool, serving: map<Key, Work>)

  datatype Registration = Closed | Full | Taken(id: nat)

  /** What the reader does after the locked section that handled a frame. */
  datatype Verdict =
    | Fault
    | Serve(key: Key)
    | Resolved
    | Notify
    | Discard(id: nat)
    | Claimed(id: nat, observes: bool)

  // ----- request keys --------------------------------------------------------------------------

  function RequestKey(j: Json, raw: Raw): Option<Key> {
    if raw != "" && raw[0] == '"' && j.text(raw).Some? then Some("s:" + j.text(raw).value)
    else if raw != "null" && j.number(raw).Some? then Some("n:" + FormatInt(j.number(raw).value))
    else None
  }

  /** What a request identifier is: a text or a number, never both. */
  function RequestMeaning(j: Json, raw: Raw): Meaning {
    if raw != "" && raw[0] == '"' && j.text(raw).Some? then Text(j.text(raw).value)
    else if raw != "null" && j.number(raw).Some? then Number(j.number(raw).value)
    else NotAnId
  }

  /** The two namespaces of request identifiers stay apart, and nothing within one is confused. */
  lemma RequestKeyIsMeaning(j: Json, a: Raw, b: Raw)
    requires RequestKey(j, a).Some?
    ensures RequestKey(j, a) == RequestKey(j, b) <==> RequestMeaning(j, a) == RequestMeaning(j, b)
  {
    if RequestKey(j, a) == RequestKey(j, b) {
      var x, y := RequestKey(j, a).value, RequestKey(j, b).value;
      assert x[0] == y[0] && x[2..] == y[2..];
      match (RequestMeaning(j, a), RequestMeaning(j, b)) {
        case (Text(s), Text(t)) => assert x[2..] == s && y[2..] == t;
        case (Number(m), Number(n)) =>
          assert x[2..] == FormatInt(m) && y[2..] == FormatInt(n);
          FormatIntInjective(m, n);
        case _ =>
      }
    }
  }

  // ----- critical sections on values -----------------------------------------------------------

  function Register(c: Client, observes: bool): (Client, Registration) {
    if c.failed then (c, Closed)
    else if |c.pending| >= RequestLimit then (c, Full)
    else (c.(next := c.next + 1, pending := c.pending[c.next + 1 := Live(observes)]), Taken(c.next + 1))
  }

  function Remove(c: Client, id: nat): Client {
    c.(pending := c.pending - {id})
  }

  /** Cancellation claims the correlation, or finds it claimed already. */
  function Cancel(c: Client, id: nat): (Client, bool) {
    if id in c.pending then (c.(pending := c.pending[id := Drained]), true) else (c, false)
  }

  function Fail(c: Client): Client {
    if c.failed then c else c.(failed := true, pending := map[])
  }

  /** The callers a failure has to wake. */
  function Orphans(c: Client): set<nat> {
    if c.failed then {} else set id | id in c.pending && c.pending[id].Live?
  }

  function ResponseId(j: Json, f: Incoming): Option<nat> {
    match j.number(f.id)
    case None => None
    case Some(n) => if n < 1 then None else Some(n)
  }

  function Respond(j: Json, c: Client, f: Incoming): (Client, Verdict) {
    var id := ResponseId(j, f);
    if id.None? || (!f.refused) == (f.result == "") || id.value !in c.pending then
      (c, Fault)
    else
      (Remove(c, id.value),
       match c.pending[id.value]
       case Drained => Discard(id.value)
       case Live(observes) => Claimed(id.value, observes))
  }

  function Begin(j: Json, c: Client, f: Incoming): (Client, Verdict) {
    var key := RequestKey(j, f.id);
    if key.None? || |c.serving| >= RequestLimit || key.value in c.serving then (c, Fault)
    else (c.(serving := c.serving[key.value := Work(j.threadId(f.params), false)]), Serve(key.value))
  }

  function Resolve(j: Json, c: Client, params: Raw): (Client, Verdict) {
    match j.resolution(params)
    case None => (c, Fault)
    case Some((thread, raw)) =>
      var key := RequestKey(j, raw);
      if thread == "" || key.None? then (c, Fault)
      else if key.value in c.serving && c.serving[key.value].thread == thread then
        (c.(serving := c.serving[key.value := c.serving[key.value].(cancelled := true)]), Resolved)
      else (c, Resolved)
  }

  /** One frame of the reader. */
  function Handle(j: Json, c: Client, f: Incoming): (Client, Verdict) {
    if f.verb == "" then Respond(j, c, f)
    else if f.id != "" then Begin(j, c, f)
    else if f.verb == "serverRequest/resolved" then Resolve(j, c, f.params)
    else (c, Notify)
  }

  function End(c: Client, key: Key): Client {
    c.(serving := c.serving - {key})
  }

  /** A resolution cancels the one request that has its key and its thread, if there is one, and
      touches nothing else. */
  lemma ResolutionIsExact(j: Json, c: Client, params: Raw, key: Key)
    requires key in c.serving && !c.serving[key].cancelled
    ensures key in Resolve(j, c, params).0.serving
    ensures Resolve(j, c, params).0.serving[key].cancelled <==>
              exists thread, raw :: j.resolution(params) == Some((thread, raw)) && thread != ""
                                    && RequestKey(j, raw) == Some(key) && c.serving[key].thread == thread
    ensures Resolve(j, c, params).0.serving[key].thread == c.serving[key].thread
    ensures Resolve(j, c, params).0.(serving := c.serving) == c
  {
    hide RequestKey;
    if j.resolution(params).Some? {
      var (thread, raw) := j.resolution(params).value;
      assert j.resolution(params) == Some((thread, raw));
    }
  }

  // ----- the client in place -------------------------------------------------------------------

  class NativeClient {
    const json: Json
    var next: nat
    var pending: map<nat, Entry>
    var failed: bool
    var serving: map<Key, Work>

    constructor (json: Json)
      ensures this.json == json && Value() == Client(0, map[], false, map[])
    {
      this.json := json;
      next, pending, failed, serving := 0, map[], false, map[];
    }

    function Value(): Client
      reads this
    {
      Client(next, pending, failed, serving)
    }

    /** The locked section that opens a call. */
    method OpenCall(observes: bool) returns (r: Registration)
      modifies this
      ensures (Value(), r) == Register(old(Value()), observes)
    {
      if failed { return Closed; }
      if |pending| >= RequestLimit { return Full; }
      next := next + 1;
      pending := pending[next := Live(observes)];
      return Taken(next);
    }

    method RemoveCall(id: nat)
      modifies this
      ensures Value() == Remove(old(Value()), id)
    {
      pending := pending - {id};
    }

    method CancelCall(id: nat) returns (unclaimed: bool)
      modifies this
      ensures (Value(), unclaimed) == Cancel(old(Value()), id)
    {
      unclaimed := id in pending;
      if unclaimed { pending := pending[id := Drained]; }
    }

    /** The locked part of a failure; the callers returned are woken after the lock is released. */
    method MarkFailed() returns (orphans: set<nat>)
      modifies this
      ensures Value() == Fail(old(Value())) && orphans == Orphans(old(Value()))
    {
      if failed { return {}; }
      failed := true;
      orphans := set id | id in pending && pending[id].Live?;
      pending := map[];
    }

    /** The reader's dispatch of one frame. */
    method ReadFrame(f: Incoming) returns (verdict: Verdict)
      modifies this
      ensures (Value(), verdict) == Handle(json, old(Value()), f)
    {
      if f.verb != "" {
        if f.id != "" {
          verdict := AdmitRequest(f);
        } else if f.verb == "serverRequest/resolved" {
          verdict := ResolveRequest(f.params);
        } else {
          verdict := Notify;
        }
        return;
      }
      verdict := ClaimResponse(f);
    }

    method ClaimResponse(f: Incoming) returns (verdict: Verdict)
      modifies this
      ensures (Value(), verdict) == Respond(json, old(Value()), f)
    {
      var id := json.number(f.id);
      if id.None? || id.value < 1 { return Fault; }
      if (!f.refused) == (f.result == "") { return Fault; }
      var known := id.value in pending;
      var entry := if known then pending[id.value] else Drained;
      pending := pending - {id.value};
      if !known { assert pending == old(pending); return Fault; }
      match entry {
        case Drained => verdict := Discard(id.value);
        case Live(observes) => verdict := Claimed(id.value, observes);
      }
    }

    method AdmitRequest(f: Incoming) returns (verdict: Verdict)
      modifies this
      ensures (Value(), verdict) == Begin(json, old(Value()), f)
    {
      var key := RequestKey(json, f.id);
      if key.None? { return Fault; }
      if |serving| >= RequestLimit { return Fault; }
      if key.value in serving { return Fault; }
      serving := serving[key.value := Work(json.threadId(f.params), false)];
      return Serve(key.value);
    }

    method ResolveRequest(params: Raw) returns (verdict: Verdict)
      modifies this
      ensures (Value(), verdict) == Resolve(json, old(Value()), params)
    {
      var resolved := json.resolution(params);
      if resolved.None? || resolved.value.0 == "" { return Fault; }
      var key := RequestKey(json, resolved.value.1);
      if key.None? { return Fault; }
      if key.value in serving && serving[key.value].thread == resolved.value.0 {
        serving := serving[key.value := serving[key.value].(cancelled := true)];
      }
      return Resolved;
    }

    method EndRequest(key: Key)
      modifies this
      ensures Value() == End(old(Value()), key)
    {
      serving := serving - {key};
    }
  }
}
