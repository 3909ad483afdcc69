/** Exactly-once routing in both identifier domains, for every run of the broker. */
module BrokerRouting {
  import opened Prelude
  import opened BrokerIds
  import opened BrokerMux
  import opened BrokerTables
  import opened BrokerRun
  import opened BrokerBytes

  // ----- what a section does to the tables -----------------------------------------------------

  /** The tables after a TUI frame, by its kind. */
  ghost predicate TuiEffect(c: Codec, m: Mux, f: Frame, m': Mux, v: Verdict) {
    match Method(c, f)
    case None => m' == m && v.Fault?
    case Some(verb) =>
      if verb == "" then
        && m'.calls == m.calls && m'.next == m.next && (v.Drained? ==> m' == m)
        && (m'.servers == m.servers || TakesServer(c, m, f, m'))
        && (v.Accepted? ==> TakesServer(c, m, f, m') && OneOutcome(f))
      else if "id" in f then
        && m'.servers == m.servers && !v.Drained?
        && ((m'.calls == m.calls && m.next <= m'.next <= m.next + 1 && v.Fault?) || AddsCall(m, f["id"], verb, m'))
      else m'.calls == m.calls && m'.servers == m.servers && m'.next == m.next && !v.Drained?
  }

  ghost predicate TakesServer(c: Codec, m: Mux, f: Frame, m': Mux) {
    && "id" in f && BrokerId(c, f["id"]).Some? && BrokerId(c, f["id"]).value in m.servers
    && m'.servers == m.servers - {BrokerId(c, f["id"]).value}
  }

  ghost predicate AddsCall(m: Mux, id: Raw, verb: string, m': Mux) {
    && m'.next == m.next + 1
    && WireKey(m'.next) in m'.calls
    && m'.calls == m.calls[WireKey(m'.next) := m'.calls[WireKey(m'.next)]]
    && var call := m'.calls[WireKey(m'.next)];
       call.serial == m'.next && call.original == Some(id) && call.verb == verb && !call.reply
  }

  lemma TuiRequestEffect(c: Codec, m: Mux, f: Frame, verb: string)
    requires Method(c, f) == Some(verb) && verb != "" && "id" in f
    ensures var (m', v) := TuiRequest(c, m, f, verb); TuiEffect(c, m, f, m', v)
  {
    var id := BrokerId(c, f["id"]);
    if id.Some? {
      var m1 := Numbered(m, verb);
      SendSame(c, Record(m1, f["id"], id.value, verb), f["id" := WireRaw(c, m1.next)]);
    }
    hide BrokerId, WireRaw, WireKey, Held, Send, Method, TakesServer;
  }

  lemma TuiResponseEffect(c: Codec, m: Mux, f: Frame)
    requires Method(c, f) == Some("")
    ensures var (m', v) := TuiResponse(c, m, f); TuiEffect(c, m, f, m', v)
  {
    hide BrokerId, InMappedNamespace;
  }

  lemma FromTuiEffect(c: Codec, m: Mux, f: Frame)
    ensures var (m', v) := FromTui(c, m, f); TuiEffect(c, m, f, m', v)
  {
    match Method(c, f)
    case None =>
    case Some(verb) =>
      if !m.failed {
        if verb == "" { TuiResponseEffect(c, m, f); }
        else if "id" in f { TuiRequestEffect(c, m, f, verb); }
        else { TuiNoticeEffect(c, m, f, verb); }
      }
  }

  lemma TuiNoticeEffect(c: Codec, m: Mux, f: Frame, verb: string)
    requires Method(c, f) == Some(verb) && verb != "" && "id" !in f
    ensures var (m', v) := TuiNotice(c, m, f, verb); TuiEffect(c, m, f, m', v)
  {
    SendSame(c, m, f);
    SendSame(c, m.(initialized := true), f);
    hide Send, Method, TakesServer, AddsCall, BrokerId;
  }

  lemma SendSame(c: Codec, m: Mux, f: Frame)
    ensures var (m', v) := Send(c, m, f);
            m'.calls == m.calls && m'.servers == m.servers && m'.next == m.next && !v.Drained?
  {
  }

  /** A well-formed resolution of the native request with these identifier bytes. */
  predicate Resolves(c: Codec, f: Frame, raw: Raw) {
    "id" !in f && Method(c, f) == Some("serverRequest/resolved") && ResolvedId(c, f) == Some(raw)
  }

  /** What the TUI sees of a native notification: only a resolution's reference is mapped. */
  function Seen(c: Codec, f: Frame): Frame {
    if Method(c, f) == Some("serverRequest/resolved") && ResolvedId(c, f).Some? then
      f["params" := c.encodeObject(c.decodeObject(f["params"]).value["requestId" := ServerId(c, ResolvedId(c, f).value)])]
    else f
  }

  /** The tables after a native frame, by what the reader carries away. */
  ghost predicate NativeEffect(c: Codec, m: Mux, f: Frame, m': Mux, a: Arrival) {
    m'.next == m.next &&
    match a
    case Malformed => m' == m && forall raw :: !Resolves(c, f, raw)
    case Forward(body, notify) =>
      m'.calls == m.calls &&
      if notify then
        && "id" !in f && body == Seen(c, f)
        && (forall k :: k in m'.servers ==> k in m.servers && m'.servers[k] == m.servers[k])
        && (forall raw | Resolves(c, f, raw) :: ServerKey(c, raw) !in m'.servers)
      else
        && "id" in f && BrokerId(c, f["id"]).Some? && Method(c, f) != Some("") && Method(c, f).Some?
        && body == f["id" := ServerId(c, f["id"])] && ServerKey(c, f["id"]) !in m.servers
        && ServerKey(c, f["id"]) in m'.servers && m'.servers[ServerKey(c, f["id"])].original == f["id"]
        && m'.servers == m.servers[ServerKey(c, f["id"]) := m'.servers[ServerKey(c, f["id"])]]
    case Claim(call) =>
      && "id" in f && BrokerId(c, f["id"]).Some? && Method(c, f) == Some("") && OneOutcome(f)
      && BrokerId(c, f["id"]).value in m.calls && call == m.calls[BrokerId(c, f["id"]).value]
      && m'.calls == m.calls - {BrokerId(c, f["id"]).value} && m'.servers == m.servers
  }

  lemma NativeRequestEffect(c: Codec, m: Mux, f: Frame)
    requires Lawful(c) && "id" in f && Method(c, f).Some? && Method(c, f) != Some("")
    ensures var (m', a) := NativeRequest(c, m, f); NativeEffect(c, m, f, m', a)
  {
    ServerIdDecodes(c, f["id"]);
    hide BrokerId, ServerId, ServerKey, Lawful, Seen, ResolvedId;
  }

  lemma NativeResolvedEffect(c: Codec, m: Mux, f: Frame)
    requires Lawful(c) && "id" !in f && Method(c, f) == Some("serverRequest/resolved")
    ensures var (m', a) := NativeResolved(c, m, f); NativeEffect(c, m, f, m', a)
  {
    if ResolvedId(c, f).Some? {
      ServerIdDecodes(c, ResolvedId(c, f).value);
      assert NativeResolved(c, m, f).1 == Forward(Seen(c, f), true) by { hide ServerId, KeyOf, ResolvedId, Lawful; }
      ResolvedServers(c, m, f);
      hide NativeResolved, ResolvedId, Seen, Method, ServerKey, Lawful;
    } else {
      hide ResolvedId, Method, Lawful;
    }
  }

  lemma MappedKey(c: Codec, raw: Raw)
    requires Lawful(c)
    ensures KeyOf(c, ServerId(c, raw)) == ServerKey(c, raw)
  {
    ServerIdDecodes(c, raw);
    hide BrokerId, ServerId, ServerKey, Lawful;
  }

  lemma ResolvedServers(c: Codec, m: Mux, f: Frame)
    requires Lawful(c) && ResolvedId(c, f).Some?
    ensures var (m', raw) := (NativeResolved(c, m, f).0, ResolvedId(c, f).value);
            && m'.next == m.next && m'.calls == m.calls && ServerKey(c, raw) !in m'.servers
            && forall k :: k in m'.servers ==> k in m.servers && m'.servers[k] == m.servers[k]
  {
    MappedKey(c, ResolvedId(c, f).value);
    hide BrokerId, ServerId, ServerKey, ResolvedId, Lawful, KeyOf, Forget;
    assert NativeResolved(c, m, f).0 == Forget(m, ServerKey(c, ResolvedId(c, f).value));
    Forgotten(m, ServerKey(c, ResolvedId(c, f).value));
    hide NativeResolved;
  }

  lemma Forgotten(m: Mux, key: Key)
    ensures var m' := Forget(m, key);
            && m'.next == m.next && m'.calls == m.calls && key !in m'.servers
            && forall k :: k in m'.servers ==> k in m.servers && m'.servers[k] == m.servers[k]
  {
  }

  lemma NativeResponseEffect(c: Codec, m: Mux, f: Frame)
    requires Method(c, f) == Some("")
    ensures var (m', a) := NativeResponse(c, m, f); NativeEffect(c, m, f, m', a)
  {
    hide BrokerId, KeyOf;
  }

  lemma FromNativeEffect(c: Codec, m: Mux, f: Frame)
    requires Lawful(c)
    ensures var (m', a) := FromNative(c, m, f); NativeEffect(c, m, f, m', a)
  {
    match Method(c, f)
    case None =>
    case Some(verb) =>
      if verb == "" { NativeResponseEffect(c, m, f); }
      else if "id" in f { NativeRequestEffect(c, m, f); }
      else if verb == "serverRequest/resolved" { NativeResolvedEffect(c, m, f); }
      hide NativeResponse, NativeRequest, NativeResolved, ServerKey, ServerId, ResolvedId;
  }

  // ----- what each log entry means -------------------------------------------------------------

  ghost predicate IsRequest(c: Codec, f: Frame) {
    "id" in f && Method(c, f).Some? && Method(c, f) != Some("")
  }

  ghost predicate IsResponse(c: Codec, f: Frame) {
    "id" in f && Method(c, f) == Some("") && OneOutcome(f)
  }

  /** Serial `n` was taken by a TUI request with these identifier bytes. */
  ghost predicate IssuedBy(c: Codec, l: Log, n: nat, id: Raw) {
    && n in l.issued && l.issued[n] < |l.tuiIn|
    && IsRequest(c, l.tuiIn[l.issued[n]]) && l.tuiIn[l.issued[n]]["id"] == id
  }

  /** A frame accepted for native is a frame of the TUI with at most its identifier rewritten. A
      response goes back with the very bytes of the request it answers, under the mapped key of that
      request, and no resolution of that request had been read by then. */
  ghost predicate GoodToNative(c: Codec, l: Log, e: ToNative) {
    match e
    case Asked(n, s, verb, at, body) =>
      && s < |l.tuiIn| && IsRequest(c, l.tuiIn[s]) && Method(c, l.tuiIn[s]) == Some(verb)
      && IssuedBy(c, l, n, l.tuiIn[s]["id"]) && l.issued[n] == s
      && at <= |l.nativeIn| && body == l.tuiIn[s]["id" := WireRaw(c, n)]
    case Noted(s, verb, at, body) =>
      && s < |l.tuiIn| && "id" !in l.tuiIn[s] && Method(c, l.tuiIn[s]) == Some(verb) && verb != ""
      && at <= |l.nativeIn| && body == l.tuiIn[s]
    case Answered(o, s, at, body) =>
      && s < |l.tuiIn| && IsResponse(c, l.tuiIn[s])
      && o < at <= |l.nativeIn| && IsRequest(c, l.nativeIn[o])
      && BrokerId(c, l.tuiIn[s]["id"]) == Some(ServerKey(c, l.nativeIn[o]["id"]))
      && body == l.tuiIn[s]["id" := l.nativeIn[o]["id"]]
      && (forall j | o < j < at :: !Resolves(c, l.nativeIn[j], l.nativeIn[o]["id"]))
    case Called(n, body) => "id" in body && body["id"] == WireRaw(c, n)
  }

  /** A frame accepted for the TUI is a frame of native with at most its identifiers mapped. A
      response carries the identifier bytes of the one TUI request that took its serial. */
  ghost predicate GoodToTui(c: Codec, l: Log, e: ToTui) {
    match e
    case Responded(n, i, body) =>
      && i < |l.nativeIn| && IsResponse(c, l.nativeIn[i])
      && BrokerId(c, l.nativeIn[i]["id"]) == Some(WireKey(n))
      && n in l.issued && l.issued[n] < |l.tuiIn| && IsRequest(c, l.tuiIn[l.issued[n]])
      && body == l.nativeIn[i]["id" := l.tuiIn[l.issued[n]]["id"]]
    case Requested(i, body) =>
      && i < |l.nativeIn| && IsRequest(c, l.nativeIn[i])
      && body == l.nativeIn[i]["id" := ServerId(c, l.nativeIn[i]["id"])]
    case Notified(i, body) =>
      i < |l.nativeIn| && "id" !in l.nativeIn[i] && body == Seen(c, l.nativeIn[i])
  }

  ghost predicate Extends(l: Log, l': Log) {
    && l.tuiIn <= l'.tuiIn && l.nativeIn <= l'.nativeIn
    && (forall n :: n in l.issued ==> n in l'.issued && l'.issued[n] == l.issued[n])
  }

  lemma GoodToNativeKept(c: Codec, l: Log, l': Log, e: ToNative)
    requires GoodToNative(c, l, e) && Extends(l, l')
    ensures GoodToNative(c, l', e)
  {
    hide BrokerId, WireRaw, ServerKey, Resolves;
  }

  lemma GoodToTuiKept(c: Codec, l: Log, l': Log, e: ToTui)
    requires GoodToTui(c, l, e) && Extends(l, l')
    ensures GoodToTui(c, l', e)
  {
    hide BrokerId, WireKey, ServerId, Seen;
  }

  // ----- the invariant -------------------------------------------------------------------------

  /** Every live correlation belongs to the request that took its serial. */
  ghost predicate LiveCalls(c: Codec, w: World) {
    && (forall k | k in w.mux.calls && w.mux.calls[k].original.Some? ::
          IssuedBy(c, w.log, w.mux.calls[k].serial, w.mux.calls[k].original.value))
    && (forall n :: n in w.log.issued ==> n <= w.mux.next)
  }

  /** Every live server request remembers the frame it came from, unresolved since. */
  ghost predicate LiveServer(c: Codec, l: Log, k: Key, original: Raw) {
    && k in l.asked && l.asked[k] < |l.nativeIn|
    && IsRequest(c, l.nativeIn[l.asked[k]]) && l.nativeIn[l.asked[k]]["id"] == original
    && (forall j | l.asked[k] < j < |l.nativeIn| :: !Resolves(c, l.nativeIn[j], original))
  }

  ghost predicate LiveServers(c: Codec, w: World) {
    forall k :: k in w.mux.servers ==> LiveServer(c, w.log, k, w.mux.servers[k].original)
  }

  ghost predicate Entries(c: Codec, w: World) {
    && (forall e | e in w.log.toNative :: GoodToNative(c, w.log, e))
    && (forall e | e in w.log.toTui :: GoodToTui(c, w.log, e))
    && (w.reader.Relaying? ==> GoodToTui(c, w.log, w.reader.entry))
    && (w.reader.Settling? ==> Claimed(c, w.log, w.reader.call, w.reader.source))
  }

  /** A claimed call and the response that claimed it. */
  ghost predicate Claimed(c: Codec, l: Log, call: Call, i: nat) {
    && i < |l.nativeIn| && IsResponse(c, l.nativeIn[i])
    && BrokerId(c, l.nativeIn[i]["id"]) == Some(WireKey(call.serial))
    && (call.original.Some? ==> IssuedBy(c, l, call.serial, call.original.value))
  }

  ghost predicate Routed(c: Codec, w: World) {
    LiveCalls(c, w) && LiveServers(c, w) && Entries(c, w)
  }

  lemma EntriesKept(c: Codec, w: World, w': World)
    requires Entries(c, w) && Extends(w.log, w'.log)
    requires w'.log.toNative == w.log.toNative && w'.log.toTui == w.log.toTui
    requires w'.reader == w.reader || w'.reader.Listening? || w'.reader.Stopped?
    ensures Entries(c, w')
  {
    forall e | e in w.log.toNative ensures GoodToNative(c, w'.log, e) { GoodToNativeKept(c, w.log, w'.log, e); }
    forall e | e in w.log.toTui ensures GoodToTui(c, w'.log, e) { GoodToTuiKept(c, w.log, w'.log, e); }
    if w'.reader.Relaying? { GoodToTuiKept(c, w.log, w'.log, w.reader.entry); }
    hide GoodToNative, GoodToTui, BrokerId, WireKey;
  }

  // ----- TUI frames ----------------------------------------------------------------------------

  lemma AnswerGood(c: Codec, w: World, f: Frame, l: Log)
    requires Tables(c, w.mux) && LiveServers(c, w) && Method(c, f) == Some("") && OneOutcome(f)
    requires "id" in f && BrokerId(c, f["id"]).Some? && BrokerId(c, f["id"]).value in w.mux.servers
    requires l.tuiIn == w.log.tuiIn + [f] && l.nativeIn == w.log.nativeIn
    ensures GoodToNative(c, l, TuiEntry(c, w, f))
  {
    TablesServers(c, w.mux);
    hide Tables, BrokerId, ServerKey, Resolves;
    assert l.tuiIn[|w.log.tuiIn|] == f;
  }

  lemma RequestGood(c: Codec, w: World, f: Frame, l: Log)
    requires IsRequest(c, f)
    requires l.tuiIn == w.log.tuiIn + [f] && l.nativeIn == w.log.nativeIn
    requires w.mux.next + 1 in l.issued && l.issued[w.mux.next + 1] == |w.log.tuiIn|
    ensures GoodToNative(c, l, TuiEntry(c, w, f))
  {
    hide WireRaw;
    assert l.tuiIn[|w.log.tuiIn|] == f;
  }

  lemma TuiEntryGood(c: Codec, w: World, f: Frame)
    requires Tables(c, w.mux) && LiveServers(c, w)
    requires FromTui(c, w.mux, f).1.Accepted?
    ensures GoodToNative(c, OnTuiFrame(c, w, f).log, TuiEntry(c, w, f))
  {
    FromTuiEffect(c, w.mux, f);
    hide FromTui, TuiEntry, GoodToNative, Tables, LiveServers, BrokerId, WireKey;
    var l := OnTuiFrame(c, w, f).log;
    if Method(c, f) == Some("") {
      AnswerGood(c, w, f, l);
    } else if "id" in f {
      RequestGood(c, w, f, l);
    } else {
      NoteGood(c, w, f, l);
    }
  }

  lemma NoteGood(c: Codec, w: World, f: Frame, l: Log)
    requires "id" !in f && Method(c, f).Some? && Method(c, f) != Some("")
    requires l.tuiIn == w.log.tuiIn + [f] && l.nativeIn == w.log.nativeIn
    ensures GoodToNative(c, l, TuiEntry(c, w, f))
  {
    assert l.tuiIn[|w.log.tuiIn|] == f;
  }

  lemma TuiFrameExtends(c: Codec, w: World, f: Frame)
    requires LiveCalls(c, w)
    ensures Extends(w.log, OnTuiFrame(c, w, f).log)
  {
    hide FromTui, TuiEntry;
  }

  /** An entry for native joins the log. */
  lemma NativeEntryKept(c: Codec, w: World, w': World, e: ToNative)
    requires Entries(c, w) && Extends(w.log, w'.log) && GoodToNative(c, w'.log, e)
    requires w'.log.toNative == w.log.toNative + [e] && w'.log.toTui == w.log.toTui && w'.reader == w.reader
    ensures Entries(c, w')
  {
    hide GoodToNative, GoodToTui, Claimed, Extends;
    forall x | x in w'.log.toNative ensures GoodToNative(c, w'.log, x) {
      if x in w.log.toNative { GoodToNativeKept(c, w.log, w'.log, x); }
    }
    forall x | x in w'.log.toTui ensures GoodToTui(c, w'.log, x) { GoodToTuiKept(c, w.log, w'.log, x); }
    if w'.reader.Relaying? { GoodToTuiKept(c, w.log, w'.log, w.reader.entry); }
    if w'.reader.Settling? { ClaimedKept(c, w.log, w'.log, w.reader.call, w.reader.source); }
  }

  lemma ClaimedKept(c: Codec, l: Log, l': Log, call: Call, i: nat)
    requires Claimed(c, l, call, i) && Extends(l, l')
    ensures Claimed(c, l', call, i)
  {
    hide BrokerId, WireKey;
  }

  lemma TuiFrameRouted(c: Codec, w: World, f: Frame)
    requires Tables(c, w.mux) && Routed(c, w)
    ensures Routed(c, OnTuiFrame(c, w, f))
  {
    TuiFrameCalls(c, w, f);
    TuiFrameServers(c, w, f);
    TuiFrameExtends(c, w, f);
    if FromTui(c, w.mux, f).1.Accepted? { TuiEntryGood(c, w, f); }
    hide FromTui, TuiEntry, Tables, GoodToNative, Entries, LiveCalls, LiveServers, Extends;
    var w' := OnTuiFrame(c, w, f);
    if FromTui(c, w.mux, f).1.Accepted? {
      NativeEntryKept(c, w, w', TuiEntry(c, w, f));
    } else {
      EntriesKept(c, w, w');
    }
  }

  lemma TuiFrameCalls(c: Codec, w: World, f: Frame)
    requires LiveCalls(c, w)
    ensures LiveCalls(c, OnTuiFrame(c, w, f))
  {
    var w' := OnTuiFrame(c, w, f);
    FromTuiEffect(c, w.mux, f);
    hide FromTui, TuiEntry, BrokerId, WireKey;
    assert w'.log.tuiIn[|w.log.tuiIn|] == f;
  }

  lemma TuiFrameServers(c: Codec, w: World, f: Frame)
    requires LiveServers(c, w)
    ensures LiveServers(c, OnTuiFrame(c, w, f))
  {
    var w' := OnTuiFrame(c, w, f);
    FromTuiEffect(c, w.mux, f);
    hide FromTui, TuiEntry, BrokerId, WireKey, Resolves;
    assert w'.log.nativeIn == w.log.nativeIn;
  }

  // ----- native frames -------------------------------------------------------------------------

  lemma NativeFrameExtends(c: Codec, w: World, f: Frame)
    ensures var l := OnNativeFrame(c, w, f).log;
            && Extends(w.log, l) && l.nativeIn == w.log.nativeIn + [f] && l.tuiIn == w.log.tuiIn
            && l.issued == w.log.issued && l.toNative == w.log.toNative && l.toTui == w.log.toTui
  {
    var (m, a) := FromNative(c, w.mux, f);
    var l := w.log.(nativeIn := w.log.nativeIn + [f], asked := Still(w.log.asked, m));
    HoldKeeps(c, w.(mux := m, log := l), a, |w.log.nativeIn|, "error" !in f);
    hide FromNative, Hold;
  }

  lemma NativeFrameCalls(c: Codec, w: World, f: Frame)
    requires Lawful(c) && LiveCalls(c, w)
    ensures LiveCalls(c, OnNativeFrame(c, w, f))
  {
    var w' := OnNativeFrame(c, w, f);
    var (m, a) := FromNative(c, w.mux, f);
    NativeFrameExtends(c, w, f);
    FromNativeEffect(c, w.mux, f);
    NativeFrameMux(c, w, f);
    hide FromNative, OnNativeFrame, BrokerId, ServerKey, ServerId, Seen, Resolves, Lawful, IsRequest;
    assert m.next == w.mux.next && forall k | k in m.calls :: k in w.mux.calls && m.calls[k] == w.mux.calls[k];
  }

  lemma NativeFrameMux(c: Codec, w: World, f: Frame)
    ensures OnNativeFrame(c, w, f).mux == FromNative(c, w.mux, f).0
  {
    var (m, a) := FromNative(c, w.mux, f);
    var l := w.log.(nativeIn := w.log.nativeIn + [f], asked := Still(w.log.asked, m));
    HoldKeeps(c, w.(mux := m, log := l), a, |w.log.nativeIn|, "error" !in f);
    hide FromNative, Hold;
  }

  /** The occurrence of a live server request survives a frame that does not resolve it. */
  lemma LiveServerKept(c: Codec, l: Log, l': Log, k: Key, original: Raw, f: Frame)
    requires LiveServer(c, l, k, original) && !Resolves(c, f, original)
    requires l'.nativeIn == l.nativeIn + [f] && k in l'.asked && l'.asked[k] == l.asked[k]
    ensures LiveServer(c, l', k, original)
  {
    hide Resolves;
  }

  lemma NativeFrameServers(c: Codec, w: World, f: Frame)
    requires Lawful(c) && Tables(c, w.mux) && LiveServers(c, w)
    ensures LiveServers(c, OnNativeFrame(c, w, f))
  {
    var w' := OnNativeFrame(c, w, f);
    var (m, a) := FromNative(c, w.mux, f);
    FromNativeEffect(c, w.mux, f);
    NativeFrameExtends(c, w, f);
    NativeFrameMux(c, w, f);
    NativeFrameAsked(c, w, f);
    TablesServers(c, w.mux);
    hide FromNative, OnNativeFrame, Tables, BrokerId, ServerKey, ServerId, Seen, Resolves, Lawful, LiveServer;
    forall k | k in w'.mux.servers
      ensures LiveServer(c, w'.log, k, w'.mux.servers[k].original)
    {
      if k in w.mux.servers {
        assert m.servers[k] == w.mux.servers[k];
        assert !Resolves(c, f, m.servers[k].original) by { NotResolved(c, w.mux, f, k); }
        LiveServerKept(c, w.log, w'.log, k, w.mux.servers[k].original, f);
      } else {
        NewServer(c, w, f);
      }
    }
  }

  lemma NotResolved(c: Codec, m: Mux, f: Frame, k: Key)
    requires Lawful(c) && ServerIds(c, m.servers) && k in m.servers && k in FromNative(c, m, f).0.servers
    ensures !Resolves(c, f, m.servers[k].original)
  {
    FromNativeEffect(c, m, f);
    hide FromNative, BrokerId, ServerKey, ServerId, Seen, ResolvedId, Lawful;
  }

  /** Which occurrences the log remembers after a native frame. */
  lemma NativeFrameAsked(c: Codec, w: World, f: Frame)
    requires Lawful(c)
    ensures var (m, a) := FromNative(c, w.mux, f);
            var l := OnNativeFrame(c, w, f).log;
            && (forall k | k in m.servers && k in w.mux.servers && k in w.log.asked :: k in l.asked && l.asked[k] == w.log.asked[k])
            && (a.Forward? && !a.notify ==>
                  ServerKey(c, f["id"]) in l.asked && l.asked[ServerKey(c, f["id"])] == |w.log.nativeIn|)
  {
    FromNativeEffect(c, w.mux, f);
    var (m, a) := FromNative(c, w.mux, f);
    if a.Forward? && !a.notify { ServerIdDecodes(c, f["id"]); }
    hide FromNative, BrokerId, ServerKey, ServerId, Seen, Resolves, Lawful;
  }

  lemma NewServer(c: Codec, w: World, f: Frame)
    requires Lawful(c) && FromNative(c, w.mux, f).1.Forward? && !FromNative(c, w.mux, f).1.notify
    ensures "id" in f && LiveServer(c, OnNativeFrame(c, w, f).log, ServerKey(c, f["id"]), f["id"])
  {
    FromNativeEffect(c, w.mux, f);
    NativeFrameAsked(c, w, f);
    NativeFrameExtends(c, w, f);
    hide FromNative, OnNativeFrame, BrokerId, ServerKey, ServerId, Seen, Resolves, Lawful;
  }

  lemma NativeFrameRouted(c: Codec, w: World, f: Frame)
    requires Lawful(c) && Tables(c, w.mux) && Routed(c, w) && w.reader.Listening?
    ensures Routed(c, OnNativeFrame(c, w, f))
  {
    NativeFrameCalls(c, w, f);
    NativeFrameServers(c, w, f);
    NativeFrameExtends(c, w, f);
    NativeFrameHeld(c, w, f);
    hide OnNativeFrame, Tables, GoodToTui, GoodToNative, LiveCalls, LiveServers, Extends, Claimed, Lawful;
    var w' := OnNativeFrame(c, w, f);
    EntriesKept(c, w, w'.(reader := Listening));
  }

  /** What the reader carries away is already well routed. */
  lemma NativeFrameHeld(c: Codec, w: World, f: Frame)
    requires Lawful(c) && Tables(c, w.mux) && LiveCalls(c, w)
    ensures var w' := OnNativeFrame(c, w, f);
            && (w'.reader.Relaying? ==> GoodToTui(c, w'.log, w'.reader.entry))
            && (w'.reader.Settling? ==> Claimed(c, w'.log, w'.reader.call, w'.reader.source))
            && !w'.reader.Listening?
  {
    FromNativeEffect(c, w.mux, f);
    NativeFrameExtends(c, w, f);
    hide FromNative, BrokerId, ServerKey, ServerId, Seen, Resolves, Lawful, WireKey, KeyOf, Still;
    var l := OnNativeFrame(c, w, f).log;
    assert l.nativeIn[|w.log.nativeIn|] == f;
  }

  // ----- the other steps -----------------------------------------------------------------------

  /** A step that reads no frame and adds no entry for native, except that of an internal call. */
  ghost predicate Quiet(w: World, w': World) {
    && w'.log.tuiIn == w.log.tuiIn && w'.log.nativeIn == w.log.nativeIn
    && w'.log.issued == w.log.issued && w'.log.asked == w.log.asked
    && w'.mux.servers == w.mux.servers && w.mux.next <= w'.mux.next
    && (forall k | k in w'.mux.calls && w'.mux.calls[k].original.Some? ::
          k in w.mux.calls && w'.mux.calls[k].serial == w.mux.calls[k].serial && w'.mux.calls[k].original == w.mux.calls[k].original)
  }

  lemma QuietTables(c: Codec, w: World, w': World)
    requires LiveCalls(c, w) && LiveServers(c, w) && Quiet(w, w')
    ensures LiveCalls(c, w') && LiveServers(c, w')
  {
    hide Resolves, IsRequest;
  }

  lemma QuietRouted(c: Codec, w: World, w': World)
    requires Routed(c, w) && Quiet(w, w')
    requires w'.log.toNative == w.log.toNative && w'.log.toTui == w.log.toTui
    requires w'.reader == w.reader || w'.reader.Listening? || w'.reader.Stopped?
    ensures Routed(c, w')
  {
    QuietTables(c, w, w');
    hide LiveCalls, LiveServers, Entries, GoodToNative, GoodToTui;
    assert Extends(w.log, w'.log);
    EntriesKept(c, w, w');
  }

  lemma PublishRouted(c: Codec, w: World, e: ToTui)
    requires Routed(c, w) && GoodToTui(c, w.log, e)
    ensures Routed(c, Publish(c, w, e))
  {
    EnqueueSame(c, w.mux, Tui, e.body);
    hide Enqueue, LiveCalls, LiveServers, GoodToTui, GoodToNative, Claimed;
    var w' := Publish(c, w, e);
    QuietTables(c, w, w');
    assert Extends(w.log, w'.log);
    if !w'.reader.Stopped? {
      PublishEntries(c, w, w', e);
    } else {
      EntriesKept(c, w, w');
    }
  }

  /** An entry for the TUI joins the log and the reader listens again. */
  lemma PublishEntries(c: Codec, w: World, w': World, e: ToTui)
    requires Entries(c, w) && GoodToTui(c, w.log, e)
    requires w' == w.(mux := w'.mux, reader := Listening, log := w.log.(toTui := w.log.toTui + [e]))
    ensures Entries(c, w')
  {
    hide GoodToNative, GoodToTui;
    assert Extends(w.log, w'.log);
    forall x | x in w'.log.toNative ensures GoodToNative(c, w'.log, x) { GoodToNativeKept(c, w.log, w'.log, x); }
    forall x | x in w'.log.toTui ensures GoodToTui(c, w'.log, x) {
      assert x in w.log.toTui || x == e;
      GoodToTuiKept(c, w.log, w'.log, x);
    }
  }

  lemma SettleRouted(c: Codec, w: World, observed: bool, selected: bool)
    requires Routed(c, w) && Enabled(w, Settle(observed, selected))
    ensures Routed(c, OnSettle(c, w, observed, selected))
  {
    var call, i := w.reader.call, w.reader.source;
    var w' := OnSettle(c, w, observed, selected);
    match call.original
    case None =>
      hide LiveCalls, LiveServers, Entries;
      QuietRouted(c, w, w');
    case Some(id) =>
      var e := Responded(call.serial, i, w.log.nativeIn[i]["id" := id]);
      assert GoodToTui(c, w.log, e) by { hide BrokerId, WireKey, LiveCalls, LiveServers; }
      hide LiveCalls, LiveServers, Entries, Publish, GoodToTui;
      PublishRouted(c, w, e);
      if w' != Publish(c, w, e) { QuietRouted(c, w, w'); }
  }

  lemma CallRouted(c: Codec, w: World, verb: string, params: Raw)
    requires Tables(c, w.mux) && Routed(c, w)
    ensures Routed(c, OnCall(c, w, verb, params))
  {
    var w' := OnCall(c, w, verb, params);
    SubmitEffect(c, w.mux, verb, params);
    hide Submit, Tables, LiveCalls, LiveServers, GoodToNative, GoodToTui, Claimed, Entries, WireKey, WireRaw;
    QuietTables(c, w, w');
    assert Extends(w.log, w'.log);
    var (m, r) := Submit(c, w.mux, verb, params);
    if r.Submitted? {
      var e := Called(r.serial, InternalFrame(c, r.serial, verb, params));
      assert GoodToNative(c, w'.log, e) by { CalledGood(c, w'.log, r.serial, verb, params); }
      NativeEntryKept(c, w, w', e);
    } else {
      EntriesKept(c, w, w');
    }
  }

  lemma CalledGood(c: Codec, l: Log, n: nat, verb: string, params: Raw)
    ensures GoodToNative(c, l, Called(n, InternalFrame(c, n, verb, params)))
  {
    hide WireRaw;
  }

  /** A new internal call takes the next serial and nothing else changes in the tables. */
  lemma SubmitEffect(c: Codec, m: Mux, verb: string, params: Raw)
    ensures var (m', r) := Submit(c, m, verb, params);
            && m'.servers == m.servers
            && (r.Refused? ==> m' == m)
            && (!r.Refused? ==> r.serial == m.next + 1 == m'.next)
            && (!r.Refused? ==> m'.calls == m.calls[WireKey(m'.next) := Call(m'.next, None, verb, true, 0)])
  {
    var f := InternalFrame(c, m.next + 1, verb, params);
    EnqueueSame(c, Open(m, verb), Native, f);
    assert Enqueue(c, Open(m, verb), Native, f).0.next == m.next + 1;
    hide Enqueue, InternalFrame, WireKey;
  }

  lemma CancelRouted(c: Codec, w: World, n: nat)
    requires Routed(c, w) && n in w.callers
    ensures Routed(c, OnCancel(w, n))
  {
    hide LiveCalls, LiveServers, Entries, WireKey;
    QuietRouted(c, w, OnCancel(w, n));
  }

  lemma StepRouted(c: Codec, w: World, a: Action)
    requires Lawful(c) && Tables(c, w.mux) && Routed(c, w) && Enabled(w, a)
    ensures Routed(c, Next(c, w, a))
  {
    hide Tables, Lawful, LiveCalls, LiveServers, OnTuiFrame, OnNativeFrame, OnSettle, OnCall, OnCancel, Publish;
    hide GoodToTui, GoodToNative, Claimed;
    match a
    case TuiFrame(f) => TuiFrameRouted(c, w, f);
    case NativeFrame(f) => NativeFrameRouted(c, w, f);
    case Relay(observed) =>
      PublishRouted(c, w, w.reader.entry);
      QuietRouted(c, w, w.(reader := Stopped));
    case Settle(observed, selected) => SettleRouted(c, w, observed, selected);
    case CallNative(verb, params) => CallRouted(c, w, verb, params);
    case CancelCaller(n) => CancelRouted(c, w, n);
    case _ => QuietRouted(c, w, Next(c, w, a));
  }

  /** Every entry of both logs is well routed in every state of every run. */
  lemma {:induction false} RunRouted(c: Codec, ws: seq<World>, acts: seq<Action>, i: nat)
    requires Lawful(c) && Run(c, ws, acts) && i < |ws|
    ensures Routed(c, ws[i])
  {
    if i > 0 {
      RunRouted(c, ws, acts, i - 1);
      RunSound(c, ws, acts, i - 1);
      hide Routed, Next, Enabled, Tables, Conserved, Lawful;
      StepRouted(c, ws[i - 1], acts[i - 1]);
    }
  }
}
