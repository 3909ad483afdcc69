/** No serial, no occurrence and no frame is used twice, and none is lost while the broker runs. */
module BrokerOnce {
  import opened Prelude
  import opened BrokerIds
  import opened BrokerMux
  import opened BrokerTables
  import opened BrokerRun
  import opened BrokerBytes
  import opened BrokerRouting

  // ----- serials -------------------------------------------------------------------------------

  function Serial(e: ToNative): Option<nat> {
    match e
    case Asked(n, _, _, _, _) => Some(n)
    case Called(n, _) => Some(n)
    case _ => None
  }

  ghost predicate HasResponse(l: Log, n: nat) {
    exists e :: e in l.toTui && e.Responded? && e.serial == n
  }

  ghost predicate HasAnswer(l: Log, o: nat) {
    exists e :: e in l.toNative && e.Answered? && e.occurrence == o
  }

  /** Serials are issued in increasing order. */
  ghost predicate SerialsRise(w: World) {
    && (forall e | e in w.log.toNative && Serial(e).Some? :: Serial(e).value <= w.mux.next)
    && (forall i, j | 0 <= i < j < |w.log.toNative| && Serial(w.log.toNative[i]).Some? && Serial(w.log.toNative[j]).Some? ::
          Serial(w.log.toNative[i]).value < Serial(w.log.toNative[j]).value)
  }

  /** A serial with a response is no longer live, nor being settled. */
  ghost predicate ResponsesOnce(w: World) {
    && (forall i, j | 0 <= i < j < |w.log.toTui| && w.log.toTui[i].Responded? && w.log.toTui[j].Responded? ::
          w.log.toTui[i].serial != w.log.toTui[j].serial)
    && (forall k | k in w.mux.calls :: !HasResponse(w.log, w.mux.calls[k].serial))
    && (w.reader.Settling? ==>
          && !HasResponse(w.log, w.reader.call.serial)
          && WireKey(w.reader.call.serial) !in w.mux.calls
          && w.reader.call.serial <= w.mux.next)
    && (forall e | e in w.log.toTui && e.Responded? :: e.serial <= w.mux.next)
    && (w.reader.Relaying? ==> !w.reader.entry.Responded?)
  }

  /** An answered occurrence is no longer live. */
  ghost predicate AnswersOnce(w: World) {
    && (forall i, j | 0 <= i < j < |w.log.toNative| && w.log.toNative[i].Answered? && w.log.toNative[j].Answered? ::
          w.log.toNative[i].occurrence != w.log.toNative[j].occurrence)
    && (forall k | k in w.mux.servers && k in w.log.asked :: !HasAnswer(w.log, w.log.asked[k]))
  }

  ghost predicate Once(w: World) {
    SerialsRise(w) && ResponsesOnce(w) && AnswersOnce(w)
  }

  // ----- serials: steps ------------------------------------------------------------------------

  /** Logs unchanged, counter not lower. */
  lemma SerialsKept(w: World, w': World)
    requires SerialsRise(w) && w'.log.toNative == w.log.toNative && w.mux.next <= w'.mux.next
    ensures SerialsRise(w')
  {
  }

  lemma SerialsPush(w: World, w': World, e: ToNative)
    requires SerialsRise(w) && w'.log.toNative == w.log.toNative + [e] && w.mux.next <= w'.mux.next
    requires Serial(e).Some? ==> Serial(e).value == w.mux.next + 1 == w'.mux.next
    ensures SerialsRise(w')
  {
  }

  lemma TuiFrameSerials(c: Codec, w: World, f: Frame)
    requires SerialsRise(w)
    ensures SerialsRise(OnTuiFrame(c, w, f))
  {
    FromTuiEffect(c, w.mux, f);
    var w' := OnTuiFrame(c, w, f);
    if FromTui(c, w.mux, f).1.Accepted? {
      assert Serial(TuiEntry(c, w, f)).Some? ==> IsRequest(c, f) by { hide BrokerId, KeyOf, WireRaw; }
      hide FromTui, SerialsRise, BrokerId, WireRaw, WireKey, KeyOf;
      SerialsPush(w, w', TuiEntry(c, w, f));
    } else {
      hide FromTui, SerialsRise, BrokerId, TuiEntry;
      SerialsKept(w, w');
    }
  }

  // ----- responses: steps ----------------------------------------------------------------------

  /** No new response entry, no new TUI correlation, reader unchanged or idle. */
  lemma ResponsesKept(w: World, w': World)
    requires ResponsesOnce(w) && w'.log.toTui == w.log.toTui && w.mux.next <= w'.mux.next
    requires forall k | k in w'.mux.calls ::
               || (k in w.mux.calls && w'.mux.calls[k].serial == w.mux.calls[k].serial)
               || (w.mux.next < w'.mux.calls[k].serial && k == WireKey(w'.mux.calls[k].serial))
    requires w'.reader == w.reader || w'.reader.Listening? || w'.reader.Stopped?
          || (w'.reader.Relaying? && !w'.reader.entry.Responded?)
    ensures ResponsesOnce(w')
  {
    hide WireKey;
    if w'.reader.Settling? {
      var n := w.reader.call.serial;
      if WireKey(n) in w'.mux.calls && WireKey(n) !in w.mux.calls {
        WireKeyInjective(n, w'.mux.calls[WireKey(n)].serial);
      }
    }
  }

  lemma TuiFrameResponses(c: Codec, w: World, f: Frame)
    requires ResponsesOnce(w)
    ensures ResponsesOnce(OnTuiFrame(c, w, f))
  {
    FromTuiEffect(c, w.mux, f);
    hide FromTui, ResponsesOnce, TuiEntry, BrokerId, WireKey;
    ResponsesKept(w, OnTuiFrame(c, w, f));
  }

  lemma NativeFrameResponses(c: Codec, w: World, f: Frame)
    requires Lawful(c) && Tables(c, w.mux) && ResponsesOnce(w) && w.reader.Listening?
    ensures ResponsesOnce(OnNativeFrame(c, w, f))
  {
    var w' := OnNativeFrame(c, w, f);
    var (m, a) := FromNative(c, w.mux, f);
    FromNativeEffect(c, w.mux, f);
    NativeFrameExtends(c, w, f);
    NativeFrameMux(c, w, f);
    assert w'.reader == (match a
      case Malformed => Stopped
      case Forward(body, notify) => Relaying(if notify then Notified(|w.log.nativeIn|, body) else Requested(|w.log.nativeIn|, body), notify)
      case Claim(call) => BrokerRun.Settling(call, |w.log.nativeIn|)) by { hide FromNative, KeyOf; }
    hide FromNative, OnNativeFrame, BrokerId, ServerKey, ServerId, Seen, Resolves, Lawful, CallIds, ServerIds, TuiKeys;
    if a.Claim? {
      ClaimLeaves(c, w, w', f, a.call);
    } else {
      hide ResponsesOnce, Tables;
      ResponsesKept(w, w');
    }
  }

  lemma ClaimLeaves(c: Codec, w: World, w': World, f: Frame, call: Call)
    requires ResponsesOnce(w) && Fresh(w.mux)
    requires NativeEffect(c, w.mux, f, w'.mux, Claim(call))
    requires w'.log.toTui == w.log.toTui && w'.reader.Settling? && w'.reader.call == call
    ensures ResponsesOnce(w')
  {
    hide BrokerId, WireKey;
  }

  lemma PublishResponses(c: Codec, w: World, e: ToTui)
    requires ResponsesOnce(w)
    requires e.Responded? ==> w.reader.Settling? && e.serial == w.reader.call.serial
    requires forall k | k in w.mux.calls :: k == WireKey(w.mux.calls[k].serial)
    ensures ResponsesOnce(Publish(c, w, e))
  {
    EnqueueSame(c, w.mux, Tui, e.body);
    hide Enqueue, WireKey;
    var w' := Publish(c, w, e);
    if !w'.reader.Stopped? {
      assert forall x :: x in w'.log.toTui <==> x in w.log.toTui || x == e;
    }
  }

  // ----- answers: steps ------------------------------------------------------------------------

  lemma AnswersKept(w: World, w': World)
    requires AnswersOnce(w) && w'.log.toNative == w.log.toNative
    requires forall k | k in w'.mux.servers && k in w'.log.asked ::
               (k in w.mux.servers && k in w.log.asked && w'.log.asked[k] == w.log.asked[k]) || !HasAnswer(w.log, w'.log.asked[k])
    ensures AnswersOnce(w')
  {
  }

  lemma AnswersPush(w: World, w': World, e: ToNative)
    requires AnswersOnce(w) && w'.log.toNative == w.log.toNative + [e]
    requires forall k | k in w'.mux.servers && k in w'.log.asked ::
               k in w.mux.servers && k in w.log.asked && w'.log.asked[k] == w.log.asked[k]
    requires e.Answered? ==>
               && !HasAnswer(w.log, e.occurrence)
               && forall k | k in w'.mux.servers && k in w'.log.asked :: w'.log.asked[k] != e.occurrence
    ensures AnswersOnce(w')
  {
    assert forall x :: x in w'.log.toNative <==> x in w.log.toNative || x == e;
  }

  /** Two live server requests come from different frames. */
  lemma OccurrencesDiffer(c: Codec, w: World, j: Key, k: Key)
    requires Lawful(c) && ServerIds(c, w.mux.servers) && LiveServers(c, w)
    requires j in w.mux.servers && k in w.mux.servers && w.log.asked[j] == w.log.asked[k]
    ensures j == k
  {
    hide ServerKey, Resolves;
  }

  lemma TuiFrameAnswers(c: Codec, w: World, f: Frame)
    requires Lawful(c) && ServerIds(c, w.mux.servers) && LiveServers(c, w) && AnswersOnce(w)
    ensures AnswersOnce(OnTuiFrame(c, w, f))
  {
    FromTuiEffect(c, w.mux, f);
    var w' := OnTuiFrame(c, w, f);
    var e := TuiEntry(c, w, f);
    if FromTui(c, w.mux, f).1.Accepted? {
      assert e.Answered? ==>
               && Method(c, f) == Some("") && KeyOf(c, f["id"]) in w.mux.servers && KeyOf(c, f["id"]) in w.log.asked
               && e.occurrence == w.log.asked[KeyOf(c, f["id"])]
        by { hide BrokerId, WireRaw; }
      assert e.Answered? ==> KeyOf(c, f["id"]) == BrokerId(c, f["id"]).value;
      hide FromTui, AnswersOnce, BrokerId, TuiEntry, ServerIds, LiveServers, Lawful;
      if e.Answered? {
        var key := BrokerId(c, f["id"]).value;
        forall k | k in w'.mux.servers && k in w'.log.asked ensures w'.log.asked[k] != e.occurrence {
          if w'.log.asked[k] == e.occurrence { OccurrencesDiffer(c, w, k, key); }
        }
        assert !HasAnswer(w.log, e.occurrence) by { LiveUnanswered(w, key); }
      }
      AnswersPush(w, w', e);
    } else {
      hide FromTui, AnswersOnce, BrokerId, TuiEntry, ServerIds, LiveServers, Lawful;
      AnswersKept(w, w');
    }
  }

  lemma LiveUnanswered(w: World, k: Key)
    requires AnswersOnce(w) && k in w.mux.servers && k in w.log.asked
    ensures !HasAnswer(w.log, w.log.asked[k])
  {
  }

  lemma NativeFrameAnswers(c: Codec, w: World, f: Frame)
    requires Lawful(c) && LiveServers(c, w) && AnswersOnce(w)
    requires forall e | e in w.log.toNative :: GoodToNative(c, w.log, e)
    ensures AnswersOnce(OnNativeFrame(c, w, f))
  {
    var w' := OnNativeFrame(c, w, f);
    FromNativeEffect(c, w.mux, f);
    NativeFrameExtends(c, w, f);
    NativeFrameMux(c, w, f);
    NativeFrameAsked(c, w, f);
    FutureUnanswered(c, w.log);
    hide FromNative, OnNativeFrame, AnswersOnce, LiveServers, GoodToNative, HasAnswer, BrokerId, ServerKey, ServerId, Seen, Resolves, Lawful;
    assert forall k | k in w.mux.servers :: k in w.log.asked by { LiveAreAsked(c, w); }
    AnswersKept(w, w');
  }

  lemma LiveAreAsked(c: Codec, w: World)
    requires LiveServers(c, w)
    ensures forall k | k in w.mux.servers :: k in w.log.asked
  {
    hide Resolves;
  }

  /** Answers refer to frames already read. */
  lemma FutureUnanswered(c: Codec, l: Log)
    requires forall e | e in l.toNative :: GoodToNative(c, l, e)
    ensures !HasAnswer(l, |l.nativeIn|)
  {
    hide BrokerId, ServerKey, Resolves;
  }

  // ----- all steps -----------------------------------------------------------------------------

  lemma StepOnce(c: Codec, w: World, a: Action)
    requires Lawful(c) && Tables(c, w.mux) && Routed(c, w) && Once(w) && Enabled(w, a)
    ensures Once(Next(c, w, a))
  {
    hide OnTuiFrame, OnNativeFrame, OnRelay, OnSettle, OnCall, Once, Tables, Routed, Lawful, WireKey;
    match a
    case TuiFrame(f) => TuiFrameOnce(c, w, f);
    case NativeFrame(f) => NativeFrameOnce(c, w, f);
    case Relay(observed) => RelayOnce(c, w, observed);
    case Settle(observed, selected) => SettleOnce(c, w, observed, selected);
    case CallNative(verb, params) => CallOnce(c, w, verb, params);
    case _ => QuietOnce(w, Next(c, w, a));
  }

  lemma TuiFrameOnce(c: Codec, w: World, f: Frame)
    requires Lawful(c) && Tables(c, w.mux) && Routed(c, w) && Once(w)
    ensures Once(OnTuiFrame(c, w, f))
  {
    hide OnTuiFrame, SerialsRise, ResponsesOnce, AnswersOnce, CallIds, TuiKeys, Entries, LiveServers, Lawful;
    TuiFrameSerials(c, w, f);
    TuiFrameResponses(c, w, f);
    TuiFrameAnswers(c, w, f);
  }

  lemma QuietOnce(w: World, w': World)
    requires Once(w)
    requires w'.log.toNative == w.log.toNative && w'.log.toTui == w.log.toTui && w'.log.asked == w.log.asked
    requires w.mux.next == w'.mux.next && w'.mux.servers == w.mux.servers
    requires forall k | k in w'.mux.calls :: k in w.mux.calls && w'.mux.calls[k].serial == w.mux.calls[k].serial
    requires w'.reader == w.reader || w'.reader.Listening? || w'.reader.Stopped?
    ensures Once(w')
  {
    hide SerialsRise, ResponsesOnce, AnswersOnce;
    SerialsKept(w, w');
    ResponsesKept(w, w');
    assert AnswersOnce(w') by { hide HasAnswer; AnswersSame(w, w'); }
  }

  lemma AnswersSame(w: World, w': World)
    requires AnswersOnce(w) && w'.log.toNative == w.log.toNative
    requires w'.log.asked == w.log.asked && w'.mux.servers == w.mux.servers
    ensures AnswersOnce(w')
  {
  }

  lemma NativeFrameOnce(c: Codec, w: World, f: Frame)
    requires Lawful(c) && Tables(c, w.mux) && Routed(c, w) && Once(w) && w.reader.Listening?
    ensures Once(OnNativeFrame(c, w, f))
  {
    NativeFrameExtends(c, w, f);
    NativeFrameMux(c, w, f);
    FromNativeEffect(c, w.mux, f);
    hide OnNativeFrame, FromNative, SerialsRise, ResponsesOnce, AnswersOnce, Tables, LiveServers, GoodToNative, GoodToTui;
    hide Lawful, BrokerId, ServerKey, ServerId, Seen, Resolves, LiveCalls, Claimed;
    SerialsKept(w, OnNativeFrame(c, w, f));
    NativeFrameResponses(c, w, f);
    NativeFrameAnswers(c, w, f);
  }

  lemma PublishOnce(c: Codec, w: World, e: ToTui)
    requires Tables(c, w.mux) && Once(w)
    requires e.Responded? ==> w.reader.Settling? && e.serial == w.reader.call.serial
    ensures Once(Publish(c, w, e))
  {
    CallsBySerial(c, w.mux);
    PublishSame(c, w, e);
    hide Publish, SerialsRise, ResponsesOnce, AnswersOnce, Tables;
    PublishResponses(c, w, e);
    SerialsKept(w, Publish(c, w, e));
    AnswersSame(w, Publish(c, w, e));
  }

  lemma CallsBySerial(c: Codec, m: Mux)
    requires Tables(c, m)
    ensures forall k | k in m.calls :: k == WireKey(m.calls[k].serial)
  {
    hide WireKey, TuiKeys, ServerIds;
  }

  lemma PublishSame(c: Codec, w: World, e: ToTui)
    ensures var w' := Publish(c, w, e);
            && w'.log.toNative == w.log.toNative && w'.log.asked == w.log.asked
            && w'.mux.next == w.mux.next && w'.mux.servers == w.mux.servers
  {
  }

  lemma RelayOnce(c: Codec, w: World, observed: bool)
    requires Tables(c, w.mux) && Once(w) && w.reader.Relaying?
    ensures Once(OnRelay(c, w, observed))
  {
    assert !w.reader.entry.Responded?;
    hide SerialsRise, ResponsesOnce, AnswersOnce, Tables, Publish;
    PublishOnce(c, w, w.reader.entry);
    QuietOnce(w, w.(reader := Stopped));
  }

  lemma SettleOnce(c: Codec, w: World, observed: bool, selected: bool)
    requires Tables(c, w.mux) && Once(w) && Enabled(w, Settle(observed, selected))
    ensures Once(OnSettle(c, w, observed, selected))
  {
    hide SerialsRise, ResponsesOnce, AnswersOnce, Tables, Publish;
    var w', call, i := OnSettle(c, w, observed, selected), w.reader.call, w.reader.source;
    if call.original.Some? {
      var e := Responded(call.serial, i, w.log.nativeIn[i]["id" := call.original.value]);
      PublishOnce(c, w, e);
      if w' != Publish(c, w, e) { QuietOnce(w, w'); }
    } else {
      QuietOnce(w, w');
    }
  }

  lemma CallOnce(c: Codec, w: World, verb: string, params: Raw)
    requires Once(w)
    ensures Once(OnCall(c, w, verb, params))
  {
    SubmitEffect(c, w.mux, verb, params);
    var (m, r) := Submit(c, w.mux, verb, params);
    hide Submit, SerialsRise, ResponsesOnce, AnswersOnce, InternalFrame, WireKey;
    var w' := OnCall(c, w, verb, params);
    ResponsesKept(w, w');
    if r.Submitted? {
      var e := Called(r.serial, InternalFrame(c, r.serial, verb, params));
      SerialsPush(w, w', e);
      AnswersPush(w, w', e);
    } else {
      SerialsKept(w, w');
      AnswersSame(w, w');
    }
  }

  lemma {:induction false} RunOnce(c: Codec, ws: seq<World>, acts: seq<Action>, i: nat)
    requires Lawful(c) && Run(c, ws, acts) && i < |ws|
    ensures Once(ws[i])
  {
    if i > 0 {
      RunOnce(c, ws, acts, i - 1);
      RunRouted(c, ws, acts, i - 1);
      RunSound(c, ws, acts, i - 1);
      hide Once, Routed, Next, Enabled, Tables, Conserved, Lawful;
      StepOnce(c, ws[i - 1], acts[i - 1]);
    }
  }

  // ----- the two routing theorems --------------------------------------------------------------

  /** Toward the TUI: two response entries never share a serial, and each is the native response to
      that serial with nothing changed but the identifier, which is byte for byte that of the TUI
      request that took the serial. */
  lemma ResponsesExactlyOnce(c: Codec, ws: seq<World>, acts: seq<Action>, i: nat, a: nat, b: nat)
    requires Lawful(c) && Run(c, ws, acts) && i < |ws|
    requires a < |ws[i].log.toTui| && b < |ws[i].log.toTui|
    requires ws[i].log.toTui[a].Responded? && ws[i].log.toTui[b].Responded?
    ensures var l := ws[i].log;
            var e := l.toTui[a];
            && (e.serial == l.toTui[b].serial ==> a == b)
            && e.serial in l.issued && l.issued[e.serial] < |l.tuiIn| && e.source < |l.nativeIn|
            && var asked, native := l.tuiIn[l.issued[e.serial]], l.nativeIn[e.source];
               && IsRequest(c, asked) && IsResponse(c, native)
               && BrokerId(c, native["id"]) == Some(WireKey(e.serial))
               && "id" in e.body && e.body["id"] == asked["id"]
               && e.body - {"id"} == native - {"id"}
  {
    RunOnce(c, ws, acts, i);
    RunRouted(c, ws, acts, i);
    hide Run, Lawful, LiveCalls, LiveServers, BrokerId, WireKey, ServerKey, ServerId, Seen, Resolves, SerialsRise, AnswersOnce;
    var l := ws[i].log;
    assert GoodToTui(c, l, l.toTui[a]);
  }

  /** Toward native: each native request, at its own position in the stream, is answered at most once,
      with its own identifier bytes, and never after its resolution has been read. */
  lemma AnswersAtMostOnce(c: Codec, ws: seq<World>, acts: seq<Action>, i: nat, a: nat, b: nat)
    requires Lawful(c) && Run(c, ws, acts) && i < |ws|
    requires a < |ws[i].log.toNative| && b < |ws[i].log.toNative|
    requires ws[i].log.toNative[a].Answered? && ws[i].log.toNative[b].Answered?
    ensures var l := ws[i].log;
            var e := l.toNative[a];
            && (e.occurrence == l.toNative[b].occurrence ==> a == b)
            && e.source < |l.tuiIn| && e.occurrence < e.at <= |l.nativeIn|
            && var answer, asked := l.tuiIn[e.source], l.nativeIn[e.occurrence];
               && IsResponse(c, answer) && IsRequest(c, asked)
               && BrokerId(c, answer["id"]) == BrokerId(c, ServerId(c, asked["id"]))
               && "id" in e.body && e.body["id"] == asked["id"]
               && e.body - {"id"} == answer - {"id"}
               && (forall j | e.occurrence < j < e.at :: !Resolves(c, l.nativeIn[j], asked["id"]))
  {
    RunOnce(c, ws, acts, i);
    RunRouted(c, ws, acts, i);
    var l := ws[i].log;
    assert GoodToNative(c, l, l.toNative[a]);
    ServerIdDecodes(c, l.nativeIn[l.toNative[a].occurrence]["id"]);
    hide Run, Lawful, LiveCalls, LiveServers, BrokerId, WireKey, ServerKey, ServerId, Seen, Resolves, SerialsRise, ResponsesOnce;
  }
}
