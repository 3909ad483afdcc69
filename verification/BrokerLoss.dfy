/** Nothing read is lost or repeated: every frame read from one side is the source of exactly one
    frame for the other side, unless it is one of the three kinds the broker is meant to keep. */
module BrokerLoss {
  import opened Prelude
  import opened BrokerIds
  import opened BrokerMux
  import opened BrokerTables
  import opened BrokerRun
  import opened BrokerBytes
  import opened BrokerRouting

  ghost predicate Pending(r: Reader, i: nat) {
    match r
    case Relaying(e, _) => e.source == i
    case Settling(_, s) => s == i
    case _ => false
  }

  ghost predicate Forwarded(l: Log, i: nat) {
    exists e :: e in l.toTui && e.source == i
  }

  /** Native frames: forwarded in reading order, held by the reader, consumed by an internal call, or
      the last one of a stopped reader. */
  ghost predicate NativeKept(w: World) {
    && (forall i | 0 <= i < |w.log.nativeIn| ::
          || i in w.log.consumed || Forwarded(w.log, i) || Pending(w.reader, i)
          || (w.reader.Stopped? && i == |w.log.nativeIn| - 1))
    && (forall i, j | 0 <= i < j < |w.log.toTui| :: w.log.toTui[i].source < w.log.toTui[j].source)
    && (forall e | e in w.log.toTui :: e.source < |w.log.nativeIn| && e.source !in w.log.consumed && !Pending(w.reader, e.source))
    && (forall i | i in w.log.consumed :: i < |w.log.nativeIn| && !Pending(w.reader, i))
    && (forall i :: Pending(w.reader, i) ==> i == |w.log.nativeIn| - 1)
  }

  function TuiSource(e: ToNative): Option<nat> {
    match e
    case Asked(_, s, _, _, _) => Some(s)
    case Noted(s, _, _, _) => Some(s)
    case Answered(_, s, _, _) => Some(s)
    case Called(_, _) => None
  }

  ghost predicate Sent(l: Log, s: nat) {
    exists e :: e in l.toNative && TuiSource(e) == Some(s)
  }

  /** TUI frames: sent in reading order, drained as late answers, or the last one of a stopped reader. */
  ghost predicate TuiKept(c: Codec, w: World) {
    && (forall s | 0 <= s < |w.log.tuiIn| ::
          s in w.log.drained || Sent(w.log, s) || (w.tuiStopped && s == |w.log.tuiIn| - 1))
    && (forall i, j | 0 <= i < j < |w.log.toNative| && TuiSource(w.log.toNative[i]).Some? && TuiSource(w.log.toNative[j]).Some? ::
          TuiSource(w.log.toNative[i]).value < TuiSource(w.log.toNative[j]).value)
    && (forall e | e in w.log.toNative && TuiSource(e).Some? :: TuiSource(e).value < |w.log.tuiIn| && TuiSource(e).value !in w.log.drained)
    && (forall s | s in w.log.drained :: s < |w.log.tuiIn| && LateAnswer(c, w.log.tuiIn[s]))
  }

  /** The shape of a response the broker may drop. */
  ghost predicate LateAnswer(c: Codec, f: Frame) {
    IsResponse(c, f) && InMappedNamespace(c, f["id"])
  }

  /** A native response consumed by an internal call never belongs to a TUI request. */
  ghost predicate InternalKept(c: Codec, w: World) {
    && (forall k | k in w.mux.calls && w.mux.calls[k].original.None? ::
          w.mux.calls[k].serial !in w.log.issued && w.mux.calls[k].serial <= w.mux.next)
    && (w.reader.Settling? && w.reader.call.original.None? ==>
          w.reader.call.serial !in w.log.issued && w.reader.call.serial <= w.mux.next)
    && (forall i | i in w.log.consumed :: i < |w.log.nativeIn| && ForInternal(c, w, w.log.nativeIn[i]))
    && (forall n | n in w.log.issued :: n <= w.mux.next)
  }

  ghost predicate ForInternal(c: Codec, w: World, f: Frame) {
    IsResponse(c, f) && exists n: nat :: BrokerId(c, f["id"]) == Some(WireKey(n)) && n !in w.log.issued && n <= w.mux.next
  }

  ghost predicate Lossless(c: Codec, w: World) {
    NativeKept(w) && TuiKept(c, w) && InternalKept(c, w)
  }

  // ----- native side ---------------------------------------------------------------------------

  lemma NativeIdle(w: World, w': World)
    requires NativeKept(w)
    requires w'.log.nativeIn == w.log.nativeIn && w'.log.toTui == w.log.toTui && w'.log.consumed == w.log.consumed
    requires w'.reader == w.reader || (w'.reader.Stopped? && (w.reader.Relaying? || w.reader.Settling?))
    ensures NativeKept(w')
  {
    if w.reader.Relaying? { assert Pending(w.reader, w.reader.entry.source); }
    if w.reader.Settling? { assert Pending(w.reader, w.reader.source); }
  }

  lemma NativeRead(w: World, w': World, f: Frame)
    requires NativeKept(w) && w.reader.Listening?
    requires w'.log.nativeIn == w.log.nativeIn + [f] && w'.log.toTui == w.log.toTui && w'.log.consumed == w.log.consumed
    requires w'.reader.Stopped? || Pending(w'.reader, |w.log.nativeIn|)
    ensures NativeKept(w')
  {
  }

  lemma NativePublished(w: World, w': World, e: ToTui)
    requires NativeKept(w) && Pending(w.reader, e.source) && w'.reader.Listening?
    requires w'.log.nativeIn == w.log.nativeIn && w'.log.toTui == w.log.toTui + [e] && w'.log.consumed == w.log.consumed
    ensures NativeKept(w')
  {
    assert e in w'.log.toTui && Forwarded(w'.log, e.source);
    forall i | 0 <= i < |w'.log.nativeIn| && Forwarded(w.log, i)
      ensures Forwarded(w'.log, i)
    {
      var x :| x in w.log.toTui && x.source == i;
      assert x in w'.log.toTui;
    }
    hide Forwarded;
  }

  lemma NativeConsumed(w: World, w': World, i: nat)
    requires NativeKept(w) && Pending(w.reader, i) && w'.reader.Listening?
    requires w'.log.nativeIn == w.log.nativeIn && w'.log.toTui == w.log.toTui && w'.log.consumed == w.log.consumed + {i}
    ensures NativeKept(w')
  {
  }

  lemma PublishKeeps(c: Codec, w: World, e: ToTui)
    requires NativeKept(w) && Pending(w.reader, e.source)
    ensures NativeKept(Publish(c, w, e))
  {
    hide Enqueue, NativeKept;
    var w' := Publish(c, w, e);
    if w'.reader.Stopped? { NativeIdle(w, w'); } else { NativePublished(w, w', e); }
  }

  lemma NativeFrameReader(c: Codec, w: World, f: Frame)
    ensures var w' := OnNativeFrame(c, w, f);
            && (w'.reader.Stopped? || Pending(w'.reader, |w.log.nativeIn|))
            && w'.log.consumed == w.log.consumed && w'.log.drained == w.log.drained
  {
    hide FromNative, KeyOf;
  }

  lemma StepNative(c: Codec, w: World, a: Action)
    requires NativeKept(w) && Enabled(w, a)
    ensures NativeKept(Next(c, w, a))
  {
    var w' := Next(c, w, a);
    match a
    case TuiFrame(f) => hide FromTui, TuiEntry, NativeKept; NativeIdle(w, w');
    case NativeFrame(f) =>
      NativeFrameReader(c, w, f);
      NativeFrameExtends(c, w, f);
      hide OnNativeFrame, NativeKept, Extends;
      NativeRead(w, w', f);
    case Relay(observed) =>
      hide Publish, NativeKept;
      PublishKeeps(c, w, w.reader.entry);
      NativeIdle(w, w.(reader := Stopped));
    case Settle(observed, selected) =>
      hide Publish, NativeKept;
      var call, i := w.reader.call, w.reader.source;
      if call.original.Some? {
        PublishKeeps(c, w, Responded(call.serial, i, w.log.nativeIn[i]["id" := call.original.value]));
        NativeIdle(w, w.(reader := Stopped));
      } else {
        NativeConsumed(w, w', i);
      }
    case CallNative(verb, params) => hide Submit, InternalFrame, NativeKept; NativeIdle(w, w');
    case _ => hide WireKey, NativeKept; NativeIdle(w, w');
  }

  // ----- TUI side ------------------------------------------------------------------------------

  lemma TuiIdle(c: Codec, w: World, w': World)
    requires TuiKept(c, w)
    requires w'.log.tuiIn == w.log.tuiIn && w'.log.toNative == w.log.toNative && w'.log.drained == w.log.drained
    requires w'.tuiStopped == w.tuiStopped
    ensures TuiKept(c, w')
  {
    hide LateAnswer;
  }

  lemma TuiSent(c: Codec, w: World, w': World, e: ToNative, f: Frame)
    requires TuiKept(c, w) && !w.tuiStopped && TuiSource(e) == Some(|w.log.tuiIn|)
    requires w'.log.tuiIn == w.log.tuiIn + [f] && w'.log.toNative == w.log.toNative + [e] && w'.log.drained == w.log.drained
    ensures TuiKept(c, w')
  {
    hide LateAnswer;
    assert e in w'.log.toNative;
    forall s | 0 <= s < |w'.log.tuiIn|
      ensures s in w'.log.drained || Sent(w'.log, s)
    {
      if s < |w.log.tuiIn| && Sent(w.log, s) {
        var x :| x in w.log.toNative && TuiSource(x) == Some(s);
        assert x in w'.log.toNative;
      }
    }
  }

  lemma TuiCalled(c: Codec, w: World, w': World, e: ToNative)
    requires TuiKept(c, w) && TuiSource(e).None?
    requires w'.log.tuiIn == w.log.tuiIn && w'.log.toNative == w.log.toNative + [e] && w'.log.drained == w.log.drained
    requires w'.tuiStopped == w.tuiStopped
    ensures TuiKept(c, w')
  {
    hide LateAnswer;
    forall s | 0 <= s < |w'.log.tuiIn| && Sent(w.log, s)
      ensures Sent(w'.log, s)
    {
      var x :| x in w.log.toNative && TuiSource(x) == Some(s);
      assert x in w'.log.toNative;
    }
  }

  lemma TuiDropped(c: Codec, w: World, w': World, f: Frame)
    requires TuiKept(c, w) && !w.tuiStopped
    requires w'.log.tuiIn == w.log.tuiIn + [f] && w'.log.toNative == w.log.toNative
    requires if w'.tuiStopped then w'.log.drained == w.log.drained
             else w'.log.drained == w.log.drained + {|w.log.tuiIn|} && LateAnswer(c, f)
    ensures TuiKept(c, w')
  {
    hide LateAnswer;
  }

  lemma DrainedIsLate(c: Codec, m: Mux, f: Frame)
    requires FromTui(c, m, f).1.Drained?
    ensures LateAnswer(c, f)
  {
    FromTuiEffect(c, m, f);
    hide BrokerId, InMappedNamespace, Send, TuiRequest, Enqueue;
  }

  lemma TuiFrameKept(c: Codec, w: World, f: Frame)
    requires TuiKept(c, w) && !w.tuiStopped
    ensures TuiKept(c, OnTuiFrame(c, w, f))
  {
    var v := FromTui(c, w.mux, f).1;
    assert v.Accepted? ==> TuiSource(TuiEntry(c, w, f)) == Some(|w.log.tuiIn|) by {
      hide FromTui, BrokerId, WireRaw;
    }
    if v.Drained? { DrainedIsLate(c, w.mux, f); }
    hide FromTui, TuiEntry, TuiKept, LateAnswer;
    var w' := OnTuiFrame(c, w, f);
    if v.Accepted? { TuiSent(c, w, w', TuiEntry(c, w, f), f); } else { TuiDropped(c, w, w', f); }
  }

  lemma StepTui(c: Codec, w: World, a: Action)
    requires TuiKept(c, w) && Enabled(w, a)
    ensures TuiKept(c, Next(c, w, a))
  {
    var w' := Next(c, w, a);
    match a
    case TuiFrame(f) => hide OnTuiFrame, TuiKept; TuiFrameKept(c, w, f);
    case NativeFrame(f) =>
      NativeFrameTui(c, w, f);
      hide OnNativeFrame, TuiKept;
      TuiIdle(c, w, w');
    case CallNative(verb, params) =>
      hide Submit, InternalFrame, TuiKept;
      var r := Submit(c, w.mux, verb, params).1;
      if r.Submitted? { TuiCalled(c, w, w', Called(r.serial, InternalFrame(c, r.serial, verb, params))); }
      else { TuiIdle(c, w, w'); }
    case _ => hide Enqueue, WireKey, TuiKept; TuiIdle(c, w, w');
  }

  lemma NativeFrameTui(c: Codec, w: World, f: Frame)
    ensures var w' := OnNativeFrame(c, w, f);
            && w'.log.tuiIn == w.log.tuiIn && w'.log.toNative == w.log.toNative && w'.log.drained == w.log.drained
            && w'.tuiStopped == w.tuiStopped
  {
    hide FromNative, KeyOf;
  }

  // ----- internal calls ------------------------------------------------------------------------

  lemma InternalIdle(c: Codec, w: World, w': World)
    requires InternalKept(c, w)
    requires w'.log.issued == w.log.issued && w'.log.nativeIn == w.log.nativeIn && w'.log.consumed == w.log.consumed
    requires w.mux.next <= w'.mux.next
    requires forall k | k in w'.mux.calls && w'.mux.calls[k].original.None? ::
               (k in w.mux.calls && w'.mux.calls[k].serial == w.mux.calls[k].serial && w.mux.calls[k].original.None?)
               || w.mux.next < w'.mux.calls[k].serial <= w'.mux.next
    requires w'.reader == w.reader || !w'.reader.Settling?
    ensures InternalKept(c, w')
  {
    hide BrokerId, WireKey, IsResponse;
  }

  lemma InternalRead(c: Codec, w: World, f: Frame)
    requires Lawful(c) && InternalKept(c, w)
    ensures InternalKept(c, OnNativeFrame(c, w, f))
  {
    var w' := OnNativeFrame(c, w, f);
    var (m, a) := FromNative(c, w.mux, f);
    FromNativeEffect(c, w.mux, f);
    NativeFrameExtends(c, w, f);
    NativeFrameMux(c, w, f);
    NativeFrameReader(c, w, f);
    assert w'.reader.Settling? ==> a.Claim? && w'.reader.call == a.call by { hide FromNative, KeyOf; }
    hide FromNative, OnNativeFrame, BrokerId, ServerKey, ServerId, Seen, Resolves, Lawful, WireKey, IsResponse;
    forall i | i in w'.log.consumed ensures i < |w'.log.nativeIn| && ForInternal(c, w', w'.log.nativeIn[i]) {
      assert w'.log.nativeIn[i] == w.log.nativeIn[i];
    }
  }

  lemma InternalTui(c: Codec, w: World, f: Frame)
    requires InternalKept(c, w)
    ensures InternalKept(c, OnTuiFrame(c, w, f))
  {
    var w' := OnTuiFrame(c, w, f);
    FromTuiEffect(c, w.mux, f);
    hide FromTui, TuiEntry, BrokerId, WireKey, IsResponse;
    forall i | i in w'.log.consumed ensures ForInternal(c, w', w'.log.nativeIn[i]) {
      assert ForInternal(c, w, w.log.nativeIn[i]);
    }
  }

  lemma InternalConsumed(c: Codec, w: World, observed: bool, selected: bool)
    requires InternalKept(c, w) && Entries(c, w) && Enabled(w, Settle(observed, selected))
    requires w.reader.call.original.None?
    ensures InternalKept(c, OnSettle(c, w, observed, selected))
  {
    hide WireKey, IsResponse, GoodToTui, GoodToNative;
    var w', i := OnSettle(c, w, observed, selected), w.reader.source;
    assert ForInternal(c, w, w.log.nativeIn[i]);
    forall j | j in w'.log.consumed ensures j < |w'.log.nativeIn| && ForInternal(c, w', w'.log.nativeIn[j]) {
      assert ForInternal(c, w, w.log.nativeIn[j]);
    }
  }

  lemma StepInternal(c: Codec, w: World, a: Action)
    requires Lawful(c) && Entries(c, w) && InternalKept(c, w) && Enabled(w, a)
    ensures InternalKept(c, Next(c, w, a))
  {
    hide OnTuiFrame, OnNativeFrame, OnRelay, OnSettle, OnCall, InternalKept, Entries, Lawful, WireKey;
    match a
    case TuiFrame(f) => InternalTui(c, w, f);
    case NativeFrame(f) => InternalRead(c, w, f);
    case Relay(observed) => RelayInternal(c, w, observed);
    case Settle(observed, selected) => SettleInternal(c, w, observed, selected);
    case CallNative(verb, params) => CallInternal(c, w, verb, params);
    case _ => InternalIdle(c, w, Next(c, w, a));
  }

  lemma RelayInternal(c: Codec, w: World, observed: bool)
    requires InternalKept(c, w) && w.reader.Relaying?
    ensures InternalKept(c, OnRelay(c, w, observed))
  {
    EnqueueSame(c, w.mux, Tui, w.reader.entry.body);
    hide Enqueue, InternalKept;
    InternalIdle(c, w, OnRelay(c, w, observed));
  }

  lemma CallInternal(c: Codec, w: World, verb: string, params: Raw)
    requires InternalKept(c, w)
    ensures InternalKept(c, OnCall(c, w, verb, params))
  {
    SubmitEffect(c, w.mux, verb, params);
    hide Submit, InternalFrame, InternalKept, WireKey;
    InternalIdle(c, w, OnCall(c, w, verb, params));
  }

  lemma SettleInternal(c: Codec, w: World, observed: bool, selected: bool)
    requires Entries(c, w) && InternalKept(c, w) && Enabled(w, Settle(observed, selected))
    ensures InternalKept(c, OnSettle(c, w, observed, selected))
  {
    var call, i := w.reader.call, w.reader.source;
    hide OnSettle;
    if call.original.Some? {
      hide Entries, InternalKept;
      SettleForTui(c, w, observed, selected);
    } else {
      hide InternalKept;
      InternalConsumed(c, w, observed, selected);
    }
  }

  lemma SettleForTui(c: Codec, w: World, observed: bool, selected: bool)
    requires InternalKept(c, w) && Enabled(w, Settle(observed, selected)) && w.reader.call.original.Some?
    ensures InternalKept(c, OnSettle(c, w, observed, selected))
  {
    hide Enqueue, InternalKept;
    EnqueueSame(c, w.mux, Tui, w.log.nativeIn[w.reader.source]["id" := w.reader.call.original.value]);
    InternalIdle(c, w, OnSettle(c, w, observed, selected));
  }

  lemma {:induction false} RunLossless(c: Codec, ws: seq<World>, acts: seq<Action>, i: nat)
    requires Lawful(c) && Run(c, ws, acts) && i < |ws|
    ensures Lossless(c, ws[i])
  {
    if i > 0 {
      RunLossless(c, ws, acts, i - 1);
      RunRouted(c, ws, acts, i - 1);
      hide Next, Enabled, Lawful, NativeKept, TuiKept, InternalKept, LiveCalls, LiveServers, Entries;
      StepNative(c, ws[i - 1], acts[i - 1]);
      StepTui(c, ws[i - 1], acts[i - 1]);
      StepInternal(c, ws[i - 1], acts[i - 1]);
    }
  }

  /** While the native reader runs and holds nothing, every native frame read has reached the TUI,
      in reading order and once, except the responses to the broker's own calls. */
  lemma NativeFramesReachTui(c: Codec, ws: seq<World>, acts: seq<Action>, i: nat, s: nat)
    requires Lawful(c) && Run(c, ws, acts) && i < |ws|
    requires s < |ws[i].log.nativeIn| && ws[i].reader.Listening?
    ensures var w := ws[i];
            if ForInternal(c, w, w.log.nativeIn[s]) && s in w.log.consumed then !Forwarded(w.log, s)
            else Forwarded(w.log, s) && s !in w.log.consumed
    ensures var l := ws[i].log;
            forall j, k | 0 <= j < k < |l.toTui| :: l.toTui[j].source < l.toTui[k].source
  {
    RunLossless(c, ws, acts, i);
    hide TuiKept, BrokerId, WireKey, Run, IsResponse;
  }

  /** While the TUI reader runs, every TUI frame read has been sent to native, in reading order and
      once, except the late answers it may drop. */
  lemma TuiFramesReachNative(c: Codec, ws: seq<World>, acts: seq<Action>, i: nat, s: nat)
    requires Lawful(c) && Run(c, ws, acts) && i < |ws|
    requires s < |ws[i].log.tuiIn| && !ws[i].tuiStopped
    ensures var w := ws[i];
            if s in w.log.drained then LateAnswer(c, w.log.tuiIn[s]) && !Sent(w.log, s) else Sent(w.log, s)
    ensures var l := ws[i].log;
            forall j, k | 0 <= j < k < |l.toNative| && TuiSource(l.toNative[j]).Some? && TuiSource(l.toNative[k]).Some? ::
              TuiSource(l.toNative[j]).value < TuiSource(l.toNative[k]).value
  {
    RunLossless(c, ws, acts, i);
    hide NativeKept, InternalKept, LateAnswer, Run;
  }

  // ----- where the identifier map is exact -----------------------------------------------------

  lemma ForgetExact(m: Mux, k: Key, key: Key)
    requires k in m.servers
    ensures k !in Forget(m, key).servers <==> key == k
  {
  }

  /** A resolution frees the live request exactly when it names it byte for byte; another spelling of
      the same identifier leaves the request live. */
  lemma ResolutionIsByteExact(c: Codec, m: Mux, f: Frame, k: Key, raw: Raw)
    requires Lawful(c) && Tables(c, m) && k in m.servers && Resolves(c, f, raw)
    ensures k !in FromNative(c, m, f).0.servers <==> raw == m.servers[k].original
  {
    ServerKeyInjective(c, raw, m.servers[k].original);
    MappedKey(c, raw);
    hide Forget;
    assert k == ServerKey(c, m.servers[k].original) by { hide Fresh, CallIds, TuiKeys; }
    assert FromNative(c, m, f) == NativeResolved(c, m, f) by { hide NativeResolved; }
    ForgetExact(m, k, ServerKey(c, raw));
    hide Tables, FromNative, ServerId, Lawful, BrokerId, ServerKey, KeyOf, ResolvedId;
  }

  /** A TUI response carrying an identifier of the mapped shape is dropped without effect when no request
      of that identifier is live, and is never an error: the test cannot tell an identifier that was
      issued and is over from one that never was. */
  lemma LateAnswerDrains(c: Codec, m: Mux, f: Frame, raw: Raw)
    requires Lawful(c) && !m.failed && IsResponse(c, f) && BrokerId(c, raw).Some?
    requires f["id"] == ServerId(c, raw) && ServerKey(c, raw) !in m.servers
    ensures FromTui(c, m, f) == (m, Drained)
  {
    ServerIdDecodes(c, raw);
    IssuedIsInMappedNamespace(c, raw);
    hide BrokerId, ServerId, ServerKey, Lawful, InMappedNamespace;
  }
}
