/** What the broker must not refuse: while neither side has been stopped and nothing has failed, an answer
    to a request that was sent is claimed, and the handshake completes. */
module BrokerGreeting {
  import opened Prelude
  import opened BrokerIds
  import opened BrokerMux
  import opened BrokerTables
  import opened BrokerRun
  import opened BrokerBytes
  import opened BrokerRouting
  import opened BrokerOnce
  import opened BrokerHandshake

  // ----- calls, by the log ---------------------------------------------------------------------

  ghost predicate Names(c: Codec, f: Frame, n: nat) {
    IsResponse(c, f) && BrokerId(c, f["id"]) == Some(WireKey(n))
  }

  /** A response with the wire identifier of serial `n` has been read. */
  ghost predicate Answered(c: Codec, l: Log, n: nat) {
    exists y :: 0 <= y < |l.nativeIn| && Names(c, l.nativeIn[y], n)
  }

  /** At most one `initialize` is being answered, and none after one succeeded. */
  ghost predicate OneGreeting(m: Mux) {
    && (forall k | k in m.calls && m.calls[k].verb == "initialize" :: m.initializeSeen && !m.initializeOK)
    && (forall k, l | k in m.calls && l in m.calls && m.calls[k].verb == "initialize" && m.calls[l].verb == "initialize" :: k == l)
    && (m.initializeOK ==> m.initializeSeen)
  }

  ghost predicate Verbs(w: World) {
    forall e | e in w.log.toNative && e.Asked? && WireKey(e.serial) in w.mux.calls ::
      w.mux.calls[WireKey(e.serial)].verb == e.verb
  }

  /** Every response read named a serial that had been issued. */
  ghost predicate NamesIssued(c: Codec, w: World) {
    forall y, n: nat | 0 <= y < |w.log.nativeIn| && Names(c, w.log.nativeIn[y], n) :: n <= w.mux.next
  }

  /** What was sent with a serial is live until its response is read. */
  ghost predicate Answering(c: Codec, w: World) {
    forall e | e in w.log.toNative && Serial(e).Some? ::
      WireKey(Serial(e).value) in w.mux.calls <==> !Answered(c, w.log, Serial(e).value)
  }

  ghost predicate Succeeded(c: Codec, l: Log) {
    exists x, y :: 0 <= x < |l.toNative| && 0 <= y < |l.nativeIn| && IsInitialize(l.toNative[x]) && Greets(c, l.nativeIn[y], l.toNative[x].serial)
  }

  ghost predicate Attends(c: Codec, w: World) {
    && OneGreeting(w.mux) && Verbs(w)
    && (w.reader.Stopped? || NamesIssued(c, w))
    && (w.reader.Stopped? || w.mux.failed || (Answering(c, w) && (Succeeded(c, w.log) ==> w.mux.initializeOK)))
  }

  // ----- TUI frames and internal calls ---------------------------------------------------------

  /** The multiplexer after a new serial was taken, or not. */
  ghost predicate Takes(m: Mux, m': Mux) {
    && m'.initializeOK == m.initializeOK && (m.initializeSeen ==> m'.initializeSeen) && m'.failed == m.failed
    && m.next <= m'.next
    && (m'.calls == m.calls
        || (m'.next == m.next + 1 && WireKey(m'.next) in m'.calls
            && m'.calls == m.calls[WireKey(m'.next) := m'.calls[WireKey(m'.next)]] && m'.calls[WireKey(m'.next)].serial == m'.next
            && (m'.calls[WireKey(m'.next)].verb == "initialize" ==> !m.initializeSeen && m'.initializeSeen)))
  }

  lemma OneGreetingKept(m: Mux, m': Mux)
    requires Fresh(m) && OneGreeting(m) && Takes(m, m')
    ensures OneGreeting(m')
  {
    NextIsFresh(m);
    hide WireKey;
  }

  /** Nothing was sent: old entries keep their calls. */
  lemma TakesAttends(c: Codec, w: World, w': World)
    requires Fresh(w.mux) && SerialsRise(w) && Attends(c, w) && Takes(w.mux, w'.mux)
    requires w'.log.nativeIn == w.log.nativeIn && w'.reader == w.reader
    requires w'.log.toNative == w.log.toNative
    ensures Attends(c, w')
  {
    OneGreetingKept(w.mux, w'.mux);
    OldCalls(w, w'.mux);
    assert Answering(c, w) ==> Answering(c, w') by { SameAnswered(c, w.log, w'.log); hide Answered, WireKey, Fresh; }
    assert Succeeded(c, w'.log) == Succeeded(c, w.log) by { hide Greets, IsInitialize; }
    hide WireKey, Names, Answered, Answering, Succeeded, OneGreeting, Fresh;
  }

  lemma SameAnswered(c: Codec, l: Log, l': Log)
    requires l'.nativeIn == l.nativeIn
    ensures forall n: nat :: Answered(c, l', n) == Answered(c, l, n)
  {
  }

  /** A new serial leaves the calls of entries already sent alone. */
  lemma OldCalls(w: World, m': Mux)
    requires SerialsRise(w) && Takes(w.mux, m')
    ensures forall e | e in w.log.toNative && Serial(e).Some? ::
              && (WireKey(Serial(e).value) in m'.calls <==> WireKey(Serial(e).value) in w.mux.calls)
              && (WireKey(Serial(e).value) in w.mux.calls ==> m'.calls[WireKey(Serial(e).value)] == w.mux.calls[WireKey(Serial(e).value)])
  {
    forall e | e in w.log.toNative && Serial(e).Some? ensures WireKey(Serial(e).value) != WireKey(w.mux.next + 1) {
      WireKeyInjective(Serial(e).value, w.mux.next + 1);
    }
    hide WireKey;
  }

  /** A frame was sent, with the new serial if it has one. */
  lemma SendAttends(c: Codec, w: World, w': World, e: ToNative)
    requires Fresh(w.mux) && SerialsRise(w) && Attends(c, w) && Takes(w.mux, w'.mux)
    requires w'.log.nativeIn == w.log.nativeIn && w'.reader == w.reader
    requires w'.log.toNative == w.log.toNative + [e]
    requires Serial(e).Some? ==> Serial(e).value == w.mux.next + 1 == w'.mux.next && WireKey(w'.mux.next) in w'.mux.calls
    requires e.Asked? ==> w'.mux.calls[WireKey(w'.mux.next)].verb == e.verb
    ensures Attends(c, w')
  {
    hide WireKey, Names, OneGreeting, Fresh, SerialsRise, Answered, Succeeded, Answering, Verbs;
    OneGreetingKept(w.mux, w'.mux);
    SendVerbs(w, w', e);
    if !w.reader.Stopped? {
      if Serial(e).Some? { NewIsUnanswered(c, w, w'); }
      if !w.mux.failed { SendAnswering(c, w, w', e); }
      if Succeeded(c, w'.log) && Serial(e).Some? { NoneGreetsNew(c, w, w', e); }
      if Succeeded(c, w'.log) && Serial(e).None? { SucceededOld(c, w.log, w'.log, e); }
    }
  }

  lemma SendVerbs(w: World, w': World, e: ToNative)
    requires SerialsRise(w) && Verbs(w) && Takes(w.mux, w'.mux) && w'.log.toNative == w.log.toNative + [e]
    requires Serial(e).Some? ==> Serial(e).value == w.mux.next + 1 == w'.mux.next && WireKey(w'.mux.next) in w'.mux.calls
    requires e.Asked? ==> w'.mux.calls[WireKey(w'.mux.next)].verb == e.verb
    ensures Verbs(w')
  {
    OldCalls(w, w'.mux);
    hide WireKey, SerialsRise, Takes;
  }

  lemma NewIsUnanswered(c: Codec, w: World, w': World)
    requires NamesIssued(c, w) && w'.log.nativeIn == w.log.nativeIn && w'.mux.next == w.mux.next + 1
    ensures !Answered(c, w'.log, w'.mux.next)
  {
    hide Names;
  }

  lemma SendAnswering(c: Codec, w: World, w': World, e: ToNative)
    requires SerialsRise(w) && Answering(c, w) && Takes(w.mux, w'.mux)
    requires w'.log.toNative == w.log.toNative + [e] && w'.log.nativeIn == w.log.nativeIn
    requires Serial(e).Some? ==> Serial(e).value == w'.mux.next && WireKey(w'.mux.next) in w'.mux.calls && !Answered(c, w'.log, w'.mux.next)
    ensures Answering(c, w')
  {
    OldCalls(w, w'.mux);
    SameAnswered(c, w.log, w'.log);
    hide WireKey, SerialsRise, Takes, Answered;
  }

  lemma SucceededOld(c: Codec, l: Log, l': Log, e: ToNative)
    requires l'.toNative == l.toNative + [e] && l'.nativeIn == l.nativeIn && !IsInitialize(e) && Succeeded(c, l')
    ensures Succeeded(c, l)
  {
    hide Greets;
    var x, y :| 0 <= x < |l'.toNative| && 0 <= y < |l'.nativeIn|
                && IsInitialize(l'.toNative[x]) && Greets(c, l'.nativeIn[y], l'.toNative[x].serial);
    assert l.toNative[x] == l'.toNative[x];
  }

  lemma NoneGreetsNew(c: Codec, w: World, w': World, e: ToNative)
    requires NamesIssued(c, w) && w'.log.toNative == w.log.toNative + [e] && w'.log.nativeIn == w.log.nativeIn
    requires Serial(e) == Some(w.mux.next + 1) && Succeeded(c, w'.log)
    ensures Succeeded(c, w.log)
  {
    var l, l' := w.log, w'.log;
    var x, y :| 0 <= x < |l'.toNative| && 0 <= y < |l'.nativeIn|
                && IsInitialize(l'.toNative[x]) && Greets(c, l'.nativeIn[y], l'.toNative[x].serial);
    assert Names(c, l.nativeIn[y], l'.toNative[x].serial);
    hide Greets, Names;
    assert x < |l.toNative|;
    assert l.toNative[x] == l'.toNative[x];
  }

  lemma TuiTakes(c: Codec, m: Mux, f: Frame)
    ensures Takes(m, FromTui(c, m, f).0)
  {
    match Method(c, f)
    case None =>
    case Some(verb) =>
      if m.failed {
      } else if verb == "" {
        hide BrokerId, InMappedNamespace;
      } else if "id" in f {
        RequestTakes(c, m, f, verb);
        hide TuiRequest;
      } else {
        SendTakes(c, m, f);
        SendTakes(c, m.(initialized := true), f);
        hide Send;
      }
  }

  lemma SendTakes(c: Codec, m: Mux, f: Frame)
    ensures var m' := Send(c, m, f).0;
            && m'.initializeOK == m.initializeOK && m'.initializeSeen == m.initializeSeen && m'.failed == m.failed
            && m'.next == m.next && m'.calls == m.calls
  {
    QueueQuiet(c, m, Native, f);
    hide Enqueue;
  }

  lemma RequestTakes(c: Codec, m: Mux, f: Frame, verb: string)
    requires "id" in f
    ensures Takes(m, TuiRequest(c, m, f, verb).0)
  {
    hide Send, BrokerId, WireRaw, WireKey, Held, Admit;
    var id := BrokerId(c, f["id"]);
    if id.Some? { AdmitTakes(c, Numbered(m, verb), f, id.value, verb); }
  }

  lemma AdmitTakes(c: Codec, m: Mux, f: Frame, key: Key, verb: string)
    requires "id" in f
    ensures var m' := Admit(c, m, f, key, verb).0;
            && m'.initializeOK == m.initializeOK && m'.initializeSeen == m.initializeSeen && m'.failed == m.failed
            && m'.next == m.next
            && (m'.calls == m.calls
                || (WireKey(m.next) in m'.calls && m'.calls == m.calls[WireKey(m.next) := m'.calls[WireKey(m.next)]]
                    && m'.calls[WireKey(m.next)].serial == m.next && m'.calls[WireKey(m.next)].verb == verb))
  {
    hide Send, BrokerId, WireRaw, WireKey, Held;
    SendTakes(c, Record(m, f["id"], key, verb), f["id" := WireRaw(c, m.next)]);
  }

  lemma TuiFrameAttends(c: Codec, w: World, f: Frame)
    requires Fresh(w.mux) && SerialsRise(w) && Attends(c, w)
    ensures Attends(c, OnTuiFrame(c, w, f))
  {
    var w' := OnTuiFrame(c, w, f);
    var v := FromTui(c, w.mux, f).1;
    TuiTakes(c, w.mux, f);
    FromTuiEffect(c, w.mux, f);
    TuiEntryShape(c, w, f);
    if v.Accepted? {
      assert Serial(TuiEntry(c, w, f)).Some? ==> TuiEntry(c, w, f).Asked?;
      hide FromTui, TuiEntry, Fresh, SerialsRise, Attends, Takes, BrokerId, WireKey, Method;
      SendAttends(c, w, w', TuiEntry(c, w, f));
    } else {
      hide FromTui, TuiEntry, Fresh, SerialsRise, Attends, Takes, BrokerId, WireKey, Method;
      TakesAttends(c, w, w');
    }
  }

  lemma CallAttends(c: Codec, w: World, verb: string, params: Raw)
    requires Fresh(w.mux) && SerialsRise(w) && Attends(c, w) && w.mux.ready && verb in InternalVerbs
    ensures Attends(c, OnCall(c, w, verb, params))
  {
    var w' := OnCall(c, w, verb, params);
    var (m, r) := Submit(c, w.mux, verb, params);
    SubmitEffect(c, w.mux, verb, params);
    SubmitFlags(c, w.mux, verb, params);
    SubmitKeepsFailed(c, w.mux, verb, params);
    assert Takes(w.mux, w'.mux) by { hide Submit, WireKey, InternalFrame; }
    hide Submit, Fresh, SerialsRise, Attends, Takes, WireKey, InternalFrame;
    if r.Submitted? {
      SendAttends(c, w, w', Called(r.serial, InternalFrame(c, r.serial, verb, params)));
    } else if r.Broken? {
      TakesAttends(c, w, w');
    }
  }

  lemma SubmitKeepsFailed(c: Codec, m: Mux, verb: string, params: Raw)
    ensures Submit(c, m, verb, params).0.failed == m.failed
  {
    hide InternalFrame, WireKey;
  }

  // ----- native frames -------------------------------------------------------------------------

  /** The multiplexer after a native frame. */
  lemma NativeTakes(c: Codec, m: Mux, f: Frame)
    requires Lawful(c) && Fresh(m)
    ensures var (m', a) := FromNative(c, m, f);
            && m'.next == m.next && m'.initializeSeen == m.initializeSeen && m'.failed == m.failed
            && (a.Claim? ==>
                  && Names(c, f, a.call.serial) && a.call.serial <= m.next
                  && WireKey(a.call.serial) in m.calls && m.calls[WireKey(a.call.serial)] == a.call
                  && m'.calls == m.calls - {WireKey(a.call.serial)}
                  && m'.initializeOK == if a.call.verb == "initialize" then "error" !in f else m.initializeOK)
            && (a.Forward? ==> m'.calls == m.calls && m'.initializeOK == m.initializeOK && !IsResponse(c, f))
            && (a.Malformed? ==> m' == m)
  {
    if Method(c, f) == Some("") { ClaimTakes(c, m, f); }
    if "id" in f { RequestQuiet(c, m, f); }
    ResolvedQuiet(c, m, f);
    hide BrokerId, NativeResponse, NativeRequest, NativeResolved, WireKey, Names, Lawful, Fresh;
  }

  lemma RequestQuiet(c: Codec, m: Mux, f: Frame)
    requires "id" in f
    ensures var (m', a) := NativeRequest(c, m, f);
            && m'.next == m.next && m'.initializeSeen == m.initializeSeen && m'.failed == m.failed
            && m'.calls == m.calls && m'.initializeOK == m.initializeOK && !a.Claim? && (a.Malformed? ==> m' == m)
  {
    hide BrokerId, ServerId, KeyOf;
  }

  lemma ResolvedQuiet(c: Codec, m: Mux, f: Frame)
    ensures var (m', a) := NativeResolved(c, m, f);
            && m'.next == m.next && m'.initializeSeen == m.initializeSeen && m'.failed == m.failed
            && m'.calls == m.calls && m'.initializeOK == m.initializeOK && !a.Claim? && (a.Malformed? ==> m' == m)
  {
    hide BrokerId, ServerId, KeyOf, ResolvedId, Forget;
    if ResolvedId(c, f).Some? { ForgetsQuietly(m, KeyOf(c, ServerId(c, ResolvedId(c, f).value))); }
  }

  lemma ForgetsQuietly(m: Mux, key: Key)
    ensures var m' := Forget(m, key);
            && m'.next == m.next && m'.initializeSeen == m.initializeSeen && m'.failed == m.failed
            && m'.calls == m.calls && m'.initializeOK == m.initializeOK
  {
  }

  lemma ClaimTakes(c: Codec, m: Mux, f: Frame)
    requires Fresh(m) && Method(c, f) == Some("")
    ensures var (m', a) := NativeResponse(c, m, f);
            && m'.next == m.next && m'.initializeSeen == m.initializeSeen && m'.failed == m.failed
            && (a.Claim? ==>
                  && Names(c, f, a.call.serial) && a.call.serial <= m.next
                  && WireKey(a.call.serial) in m.calls && m.calls[WireKey(a.call.serial)] == a.call
                  && m'.calls == m.calls - {WireKey(a.call.serial)}
                  && m'.initializeOK == if a.call.verb == "initialize" then "error" !in f else m.initializeOK)
            && !a.Forward? && (a.Malformed? ==> m' == m)
  {
    hide WireKey, BrokerId;
    if NativeResponse(c, m, f).1.Claim? {
      var key := BrokerId(c, f["id"]).value;
      SettleTakes(c, m, key, "error" !in f);
      assert key == WireKey(m.calls[key].serial) && m.calls[key].serial <= m.next;
      hide BrokerMux.Settle, Fresh;
    } else {
      hide BrokerMux.Settle, Fresh;
    }
  }

  lemma SettleTakes(c: Codec, m: Mux, key: Key, succeeded: bool)
    requires key in m.calls
    ensures var m' := BrokerMux.Settle(c, m, key, succeeded);
            && m'.next == m.next && m'.initializeSeen == m.initializeSeen && m'.failed == m.failed && m'.calls == m.calls - {key}
            && m'.initializeOK == if m.calls[key].verb == "initialize" then succeeded else m.initializeOK
  {
    hide KeyOf;
  }

  lemma NativeFrameAttends(c: Codec, w: World, f: Frame)
    requires Lawful(c) && Fresh(w.mux) && Attends(c, w) && w.reader.Listening?
    ensures Attends(c, OnNativeFrame(c, w, f))
  {
    var w' := OnNativeFrame(c, w, f);
    var (m, a) := FromNative(c, w.mux, f);
    NativeTakes(c, w.mux, f);
    NativeFrameExtends(c, w, f);
    NativeFrameMux(c, w, f);
    assert a.Malformed? ==> w'.reader.Stopped? by { hide FromNative; }
    hide OnNativeFrame, FromNative, Lawful, Fresh, Method;
    if a.Forward? {
      hide Names, Greets, WireKey, OneGreeting;
      QuietAttends(c, w, w', f);
    } else if a.Claim? {
      ClaimAttends(c, w, w', f, a.call);
    } else {
      hide Names, Greets, WireKey;
    }
  }

  /** A native frame that is no response. */
  lemma QuietAttends(c: Codec, w: World, w': World, f: Frame)
    requires Attends(c, w) && w.reader.Listening? && !IsResponse(c, f)
    requires w'.mux.calls == w.mux.calls && w'.mux.next == w.mux.next && w'.mux.failed == w.mux.failed
    requires w'.mux.initializeOK == w.mux.initializeOK && w'.mux.initializeSeen == w.mux.initializeSeen
    requires w'.log.toNative == w.log.toNative && w'.log.nativeIn == w.log.nativeIn + [f]
    ensures Attends(c, w')
  {
    hide WireKey, BrokerId, IsInitialize, IsResponse;
    assert forall n: nat :: Answered(c, w'.log, n) == Answered(c, w.log, n) by { QuietAnswered(c, w.log, w'.log, f); }
    assert Succeeded(c, w'.log) ==> Succeeded(c, w.log) by { hide Answered; }
    hide Answered, Succeeded;
  }

  lemma QuietAnswered(c: Codec, l: Log, l': Log, f: Frame)
    requires l'.nativeIn == l.nativeIn + [f] && !IsResponse(c, f)
    ensures forall n: nat :: Answered(c, l', n) == Answered(c, l, n)
  {
    hide WireKey, BrokerId, IsResponse;
    forall n: nat ensures Answered(c, l', n) == Answered(c, l, n) {
      if Answered(c, l, n) {
        var y :| 0 <= y < |l.nativeIn| && Names(c, l.nativeIn[y], n);
        assert Names(c, l'.nativeIn[y], n);
      }
    }
  }

  lemma ClaimAttends(c: Codec, w: World, w': World, f: Frame, call: Call)
    requires Attends(c, w) && w.reader.Listening? && Names(c, f, call.serial) && call.serial <= w.mux.next
    requires WireKey(call.serial) in w.mux.calls && w.mux.calls[WireKey(call.serial)] == call
    requires w'.mux.calls == w.mux.calls - {WireKey(call.serial)} && w'.mux.next == w.mux.next && w'.mux.failed == w.mux.failed
    requires w'.mux.initializeOK == if call.verb == "initialize" then "error" !in f else w.mux.initializeOK
    requires w'.mux.initializeSeen == w.mux.initializeSeen
    requires w'.log.toNative == w.log.toNative && w'.log.nativeIn == w.log.nativeIn + [f]
    ensures Attends(c, w')
  {
    assert OneGreeting(w'.mux) by { hide WireKey, Names, Answering, Succeeded, Verbs; }
    assert Verbs(w') by { hide WireKey, Names, Answering, Succeeded; }
    ClaimAnswered(c, w.log, w'.log, f, call.serial);
    forall y, n: nat | 0 <= y < |w'.log.nativeIn| && Names(c, w'.log.nativeIn[y], n) ensures n <= w'.mux.next {
      if y < |w.log.nativeIn| { assert w'.log.nativeIn[y] == w.log.nativeIn[y]; } else { SameName(c, f, n, call.serial); }
    }
    forall e | e in w.log.toNative && Serial(e).Some?
      ensures WireKey(Serial(e).value) == WireKey(call.serial) <==> Serial(e).value == call.serial
    {
      WireKeyInjective(Serial(e).value, call.serial);
    }
    hide WireKey, Names;
    if !w.mux.failed && Succeeded(c, w'.log) { ClaimSucceeds(c, w, w', f, call); }
    hide Answered, Succeeded, OneGreeting, Verbs, NamesIssued;
  }

  lemma SameName(c: Codec, f: Frame, n: nat, k: nat)
    requires Names(c, f, n) && Names(c, f, k)
    ensures n == k
  {
    WireKeyInjective(n, k);
  }

  lemma ClaimAnswered(c: Codec, l: Log, l': Log, f: Frame, k: nat)
    requires l'.nativeIn == l.nativeIn + [f] && Names(c, f, k)
    ensures forall n: nat :: Answered(c, l', n) <==> Answered(c, l, n) || n == k
  {
    forall n: nat ensures Answered(c, l', n) <==> Answered(c, l, n) || n == k {
      if Answered(c, l, n) {
        var y :| 0 <= y < |l.nativeIn| && Names(c, l.nativeIn[y], n);
        assert Names(c, l'.nativeIn[y], n);
      }
      if n == k { assert Names(c, l'.nativeIn[|l.nativeIn|], n); }
      if Answered(c, l', n) {
        var y :| 0 <= y < |l'.nativeIn| && Names(c, l'.nativeIn[y], n);
        if y < |l.nativeIn| { assert Names(c, l.nativeIn[y], n); } else { SameName(c, f, n, k); }
      }
      hide Names;
    }
  }

  /** A success read now is the one claimed; one read before is still remembered. */
  lemma ClaimSucceeds(c: Codec, w: World, w': World, f: Frame, call: Call)
    requires Attends(c, w) && w.reader.Listening? && !w.mux.failed && Names(c, f, call.serial)
    requires WireKey(call.serial) in w.mux.calls && w.mux.calls[WireKey(call.serial)] == call
    requires w'.mux.initializeOK == if call.verb == "initialize" then "error" !in f else w.mux.initializeOK
    requires w'.log.toNative == w.log.toNative && w'.log.nativeIn == w.log.nativeIn + [f] && Succeeded(c, w'.log)
    ensures w'.mux.initializeOK
  {
    var x, y :| 0 <= x < |w'.log.toNative| && 0 <= y < |w'.log.nativeIn|
                && IsInitialize(w'.log.toNative[x]) && Greets(c, w'.log.nativeIn[y], w'.log.toNative[x].serial);
    var e := w.log.toNative[x];
    if y < |w.log.nativeIn| {
      assert Greets(c, w.log.nativeIn[y], e.serial);
      assert Succeeded(c, w.log);
      hide Greets, Names, WireKey, Succeeded, Answering, Verbs, NamesIssued;
    } else {
      SameName(c, f, e.serial, call.serial);
      assert e in w.log.toNative;
      hide WireKey, Answering, NamesIssued, OneGreeting;
    }
  }

  // ----- the other steps -----------------------------------------------------------------------

  lemma IdleAttends(c: Codec, w: World, w': World)
    requires Attends(c, w)
    requires w'.log.toNative == w.log.toNative && w'.log.nativeIn == w.log.nativeIn
    requires w'.mux.next == w.mux.next && w'.mux.initializeOK == w.mux.initializeOK && w'.mux.initializeSeen == w.mux.initializeSeen
    requires w.reader.Stopped? ==> w'.reader.Stopped?
    requires w.mux.failed ==> w'.mux.failed
    requires if w'.mux.failed && !w.mux.failed then w'.mux.calls == map[] else
               w'.mux.calls.Keys == w.mux.calls.Keys && forall k | k in w.mux.calls :: w'.mux.calls[k].verb == w.mux.calls[k].verb
    ensures Attends(c, w')
  {
    SameAnswered(c, w.log, w'.log);
    assert Succeeded(c, w'.log) == Succeeded(c, w.log) by { hide Greets, IsInitialize; }
    hide WireKey, Names, Answered, Succeeded;
  }

  lemma QuietActions(c: Codec, w: World, a: Action)
    requires Enabled(w, a) && !a.TuiFrame? && !a.NativeFrame? && !a.CallNative?
    ensures var w' := Next(c, w, a);
            && w'.log.toNative == w.log.toNative && w'.log.nativeIn == w.log.nativeIn
            && w'.mux.next == w.mux.next && w'.mux.initializeOK == w.mux.initializeOK && w'.mux.initializeSeen == w.mux.initializeSeen
            && (w.reader.Stopped? ==> w'.reader.Stopped?) && (w.mux.failed ==> w'.mux.failed)
            && if w'.mux.failed && !w.mux.failed then w'.mux.calls == map[] else
                 w'.mux.calls.Keys == w.mux.calls.Keys && forall k | k in w.mux.calls :: w'.mux.calls[k].verb == w.mux.calls[k].verb
  {
    if a.Relay? || a.Settle? {
      ReaderQuiet(c, w, a);
    } else {
      OwnActions(c, w, a);
    }
    hide Next, Enabled;
  }

  lemma ReaderQuiet(c: Codec, w: World, a: Action)
    requires Enabled(w, a) && (a.Relay? || a.Settle?)
    ensures var w' := Next(c, w, a);
            && w'.log.toNative == w.log.toNative && w'.log.nativeIn == w.log.nativeIn
            && w'.mux.next == w.mux.next && w'.mux.initializeOK == w.mux.initializeOK && w'.mux.initializeSeen == w.mux.initializeSeen
            && !w.reader.Stopped? && w'.mux.failed == w.mux.failed && w'.mux.calls == w.mux.calls
  {
    hide Publish;
    if a.Relay? {
      PublishQuiet(c, w, w.reader.entry);
    } else {
      var call, i := w.reader.call, w.reader.source;
      if call.original.Some? {
        PublishQuiet(c, w, Responded(call.serial, i, w.log.nativeIn[i]["id" := call.original.value]));
      }
    }
  }

  lemma OwnActions(c: Codec, w: World, a: Action)
    requires Enabled(w, a) && !a.TuiFrame? && !a.NativeFrame? && !a.CallNative? && !a.Relay? && !a.Settle?
    ensures var w' := Next(c, w, a);
            && w'.log.toNative == w.log.toNative && w'.log.nativeIn == w.log.nativeIn
            && w'.mux.next == w.mux.next && w'.mux.initializeOK == w.mux.initializeOK && w'.mux.initializeSeen == w.mux.initializeSeen
            && w.reader == w'.reader && (w.mux.failed ==> w'.mux.failed)
            && if w'.mux.failed && !w.mux.failed then w'.mux.calls == map[] else
                 w'.mux.calls.Keys == w.mux.calls.Keys && forall k | k in w.mux.calls :: w'.mux.calls[k].verb == w.mux.calls[k].verb
  {
    hide WireKey, Orphans;
  }

  lemma PublishQuiet(c: Codec, w: World, e: ToTui)
    ensures var w' := Publish(c, w, e);
            && w'.log.toNative == w.log.toNative && w'.log.nativeIn == w.log.nativeIn
            && w'.mux.next == w.mux.next && w'.mux.initializeOK == w.mux.initializeOK && w'.mux.initializeSeen == w.mux.initializeSeen
            && w'.mux.failed == w.mux.failed && w'.mux.calls == w.mux.calls
  {
    QueueQuiet(c, w.mux, Tui, e.body);
    hide Enqueue;
  }

  lemma QueueQuiet(c: Codec, m: Mux, side: Side, f: Frame)
    ensures var m' := Enqueue(c, m, side, f).0;
            && m'.next == m.next && m'.initializeOK == m.initializeOK && m'.initializeSeen == m.initializeSeen
            && m'.failed == m.failed && m'.calls == m.calls
  {
  }

  lemma StepAttends(c: Codec, w: World, a: Action)
    requires Lawful(c) && Fresh(w.mux) && SerialsRise(w) && Attends(c, w) && Enabled(w, a)
    ensures Attends(c, Next(c, w, a))
  {
    hide Lawful, Fresh, SerialsRise, Attends, OnTuiFrame, OnNativeFrame, OnCall, WireKey;
    match a
    case TuiFrame(f) => TuiFrameAttends(c, w, f);
    case NativeFrame(f) => NativeFrameAttends(c, w, f);
    case CallNative(verb, params) => CallAttends(c, w, verb, params);
    case _ =>
      QuietActions(c, w, a);
      hide Next;
      IdleAttends(c, w, Next(c, w, a));
  }

  lemma {:induction false} RunAttends(c: Codec, ws: seq<World>, acts: seq<Action>, i: nat)
    requires Lawful(c) && Run(c, ws, acts) && i < |ws|
    ensures Attends(c, ws[i])
  {
    hide Run, Next, Enabled, Lawful, Attends, Conserved, CallIds, TuiKeys, ServerIds, ResponsesOnce, AnswersOnce, SerialsRise, Fresh;
    RunStart(c, ws, acts);
    if i > 0 {
      RunAttends(c, ws, acts, i - 1);
      BrokerOnce.RunOnce(c, ws, acts, i - 1);
      RunSound(c, ws, acts, i - 1);
      RunStep(c, ws, acts, i - 1);
      StepAttends(c, ws[i - 1], acts[i - 1]);
    } else {
      StartAttends(c, ws[0].mux.limit);
    }
  }

  lemma StartAttends(c: Codec, limit: nat)
    ensures Attends(c, Initial(limit))
  {
  }

  // ----- what is accepted ----------------------------------------------------------------------

  /** The frame fits: into the message limit, the byte budget and the queue, while the context lives. */
  predicate Room(c: Codec, m: Mux, side: Side, f: Frame) {
    && c.frameSize(f) <= 0x800_0000 && c.frameSize(f) <= m.limit - m.buffered && !m.cancelled
    && |match side case Native => m.nativeOut case Tui => m.tuiOut| < 256
  }

  lemma RoomSuffices(c: Codec, m: Mux, side: Side, f: Frame)
    ensures Enqueue(c, m, side, f).1 <==> Room(c, m, side, f)
    ensures Room(c, m, side, f) && side.Native? ==> Enqueue(c, m, side, f).0.nativeOut == m.nativeOut + [Packet(f, c.frameSize(f))]
  {
  }

  /** An answer to a request that was sent, of the TUI's or of the broker's own, is claimed for it: in
      every run in which nothing has failed, the first response that names it does not stop the reader. */
  lemma AnswerIsClaimed(c: Codec, ws: seq<World>, acts: seq<Action>, i: nat, e: ToNative, f: Frame)
    requires Lawful(c) && Run(c, ws, acts) && i < |ws| && ws[i].reader.Listening? && !ws[i].mux.failed
    requires e in ws[i].log.toNative && Serial(e).Some? && !Answered(c, ws[i].log, Serial(e).value)
    requires Names(c, f, Serial(e).value)
    ensures var w' := Next(c, ws[i], NativeFrame(f));
            w'.reader.Settling? && w'.reader.call.serial == Serial(e).value && w'.reader.source == |ws[i].log.nativeIn|
    ensures e.Asked? ==> Next(c, ws[i], NativeFrame(f)).reader.call.verb == e.verb
  {
    RunAttends(c, ws, acts, i);
    RunSound(c, ws, acts, i);
    var w, n := ws[i], Serial(e).value;
    assert WireKey(n) in w.mux.calls;
    assert Fresh(w.mux);
    if w.mux.calls[WireKey(n)].serial != n { WireKeyInjective(n, w.mux.calls[WireKey(n)].serial); }
    hide Run, Lawful, Tables, Fresh, Conserved, Attends, Answered, WireKey, BrokerId;
    assert FromNative(c, w.mux, f).1 == Claim(w.mux.calls[WireKey(n)]) by { hide BrokerMux.Settle; }
    hide FromNative;
  }

  /** The greeting is heard: while neither side was stopped and nothing has failed, the broker knows of a
      successful `initialize` exactly when native has answered one that was sent. */
  lemma GreetingIsHeard(c: Codec, ws: seq<World>, acts: seq<Action>, i: nat)
    requires Lawful(c) && Run(c, ws, acts) && i < |ws| && !ws[i].tuiStopped && !ws[i].reader.Stopped? && !ws[i].mux.failed
    ensures var w := ws[i]; w.mux.initializeOK <==> Greeted(c, w.log, |w.log.toNative|, |w.log.nativeIn|)
    ensures var w := ws[i]; w.mux.initialized <==> InitializedBefore(w.log, |w.log.toNative|)
  {
    RunAttends(c, ws, acts, i);
    RunHandshake(c, ws, acts, i);
    var w := ws[i];
    assert Greeted(c, w.log, |w.log.toNative|, |w.log.nativeIn|) ==> Succeeded(c, w.log) by {
      hide Attends, Greets, Run, Flags, Discipline, IsInitialize;
    }
    if InitializedBefore(w.log, |w.log.toNative|) {
      var x :| 0 <= x < |w.log.toNative| && IsInitialized(w.log.toNative[x]);
    }
    hide Run, Discipline, Greeted, Succeeded, InitializedBefore, InitializeSent, Answering, NamesIssued, OneGreeting, Verbs;
  }

  /** The handshake completes: a notification `initialized` is accepted exactly when there is room for it,
      native has answered `initialize` with success, and it is the first; and it opens the gate. */
  lemma InitializedIsAccepted(c: Codec, ws: seq<World>, acts: seq<Action>, i: nat, f: Frame)
    requires Lawful(c) && Run(c, ws, acts) && i < |ws| && !ws[i].tuiStopped && !ws[i].reader.Stopped? && !ws[i].mux.failed
    requires Method(c, f) == Some("initialized") && "id" !in f
    ensures var w := ws[i];
            FromTui(c, w.mux, f).1 ==
            if Room(c, w.mux, Native, f) && Greeted(c, w.log, |w.log.toNative|, |w.log.nativeIn|)
               && !InitializedBefore(w.log, |w.log.toNative|)
            then Accepted else Fault
    ensures FromTui(c, ws[i].mux, f).1.Accepted? ==> Next(c, ws[i], TuiFrame(f)).mux.ready
  {
    GreetingIsHeard(c, ws, acts, i);
    RoomSuffices(c, ws[i].mux.(initialized := true), Native, f);
    hide Run, Lawful, Greeted, InitializedBefore, Enqueue, Method, TuiEntry;
  }

  /** Nothing closes the gate. */
  lemma {:induction false} ReadyStays(c: Codec, ws: seq<World>, acts: seq<Action>, i: nat, k: nat)
    requires Run(c, ws, acts) && i <= k < |ws| && ws[i].mux.ready
    ensures ws[k].mux.ready
    decreases k
  {
    hide Run, Next, Enabled;
    RunStart(c, ws, acts);
    if i < k {
      ReadyStays(c, ws, acts, i, k - 1);
      RunStep(c, ws, acts, k - 1);
      StepReady(c, ws[k - 1], acts[k - 1]);
    }
  }

  lemma StepReady(c: Codec, w: World, a: Action)
    requires Enabled(w, a) && w.mux.ready
    ensures Next(c, w, a).mux.ready
  {
    match a
    case TuiFrame(f) => FromTuiFlags(c, w.mux, f); hide FromTui, TuiEntry;
    case NativeFrame(f) => NativeFlags(c, w.mux, f); NativeFrameMux(c, w, f); hide FromNative, OnNativeFrame;
    case CallNative(verb, params) => SubmitFlags(c, w.mux, verb, params); hide Submit;
    case Relay(_) => PublishReady(c, w, w.reader.entry); hide Publish;
    case Settle(_, _) =>
      var call, j := w.reader.call, w.reader.source;
      if call.original.Some? { PublishReady(c, w, Responded(call.serial, j, w.log.nativeIn[j]["id" := call.original.value])); }
      hide Publish;
    case _ =>
  }

  lemma PublishReady(c: Codec, w: World, e: ToTui)
    ensures Publish(c, w, e).mux.ready == w.mux.ready
  {
  }

  /** Behind the open gate an internal call with room is sent, with its method and parameters; without room
      it is not. */
  lemma CallIsSent(c: Codec, w: World, verb: string, params: Raw)
    requires Lawful(c) && Enabled(w, CallNative(verb, params)) && !w.mux.failed && |w.mux.calls| < 256
    ensures var w', n := Next(c, w, CallNative(verb, params)), w.mux.next + 1;
            var f := InternalFrame(c, n, verb, params);
            && (Room(c, w.mux, Native, f) ==>
                  && w'.log.toNative == w.log.toNative + [Called(n, f)] && n in w'.callers && w'.callers[n] == Caller(Waiting, [], false)
                  && w'.mux.nativeOut == w.mux.nativeOut + [Packet(f, c.frameSize(f))])
            && (!Room(c, w.mux, Native, f) ==> w'.log.toNative == w.log.toNative && n in w'.callers && w'.callers[n].phase == Unsent)
  {
    hide Enqueue, Lawful, WireKey, InternalFrame, Room;
    var f := InternalFrame(c, w.mux.next + 1, verb, params);
    RoomSuffices(c, Open(w.mux, verb), Native, f);
    SameRoom(c, w.mux, Open(w.mux, verb), f);
  }

  lemma SameRoom(c: Codec, m: Mux, m': Mux, f: Frame)
    requires m'.limit == m.limit && m'.buffered == m.buffered && m'.cancelled == m.cancelled && m'.nativeOut == m.nativeOut
    ensures Room(c, m', Native, f) == Room(c, m, Native, f)
  {
  }

  /** The frame of an internal call says what was asked: its method, its parameters and its identifier. */
  lemma CallIsCarried(c: Codec, n: nat, verb: string, params: Raw)
    requires Lawful(c) && verb != ""
    ensures var f := InternalFrame(c, n, verb, params);
            && IsRequest(c, f) && Method(c, f) == Some(verb) && "params" in f && f["params"] == params
            && BrokerId(c, f["id"]) == Some(WireKey(n))
            && "jsonrpc" in f && c.decodeText(f["jsonrpc"]) == Some("2.0") && f.Keys == {"jsonrpc", "id", "method", "params"}
  {
    assert c.decodeText(c.encodeText(verb)) == Some(verb);
    WireRawDecodes(c, n);
    hide Lawful, WireKey, WireRaw, BrokerId;
  }
}
