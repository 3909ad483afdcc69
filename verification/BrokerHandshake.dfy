/** The initialize discipline of the native stream, in every run of the broker. */
module BrokerHandshake {
  import opened Prelude
  import opened BrokerIds
  import opened BrokerMux
  import opened BrokerTables
  import opened BrokerRun
  import opened BrokerBytes
  import opened BrokerRouting

  predicate IsInitialize(e: ToNative) {
    e.Asked? && e.verb == "initialize"
  }

  predicate IsInitialized(e: ToNative) {
    e.Noted? && e.verb == "initialized"
  }

  ghost predicate Greets(c: Codec, f: Frame, n: nat) {
    IsResponse(c, f) && "error" !in f && BrokerId(c, f["id"]) == Some(WireKey(n))
  }

  /** Among the first `a` frames for native is an initialize request, and among the first `b` frames
      from native is its successful response. */
  ghost predicate Greeted(c: Codec, l: Log, a: nat, b: nat) {
    exists x, y :: 0 <= x < a <= |l.toNative| && 0 <= y < b <= |l.nativeIn|
                   && IsInitialize(l.toNative[x]) && Greets(c, l.nativeIn[y], l.toNative[x].serial)
  }

  ghost predicate InitializedBefore(l: Log, j: nat) {
    exists x :: 0 <= x < j <= |l.toNative| && IsInitialized(l.toNative[x])
  }

  ghost predicate InitializeSent(l: Log, n: nat) {
    exists x :: 0 <= x < |l.toNative| && IsInitialize(l.toNative[x]) && l.toNative[x].serial == n
  }

  /** Flags against the log. */
  ghost predicate Flags(c: Codec, w: World) {
    && (forall x | 0 <= x < |w.log.toNative| && IsInitialize(w.log.toNative[x]) :: w.mux.initializeSeen)
    && (forall x | 0 <= x < |w.log.toNative| && IsInitialized(w.log.toNative[x]) :: w.mux.initialized)
    && (forall k | k in w.mux.calls && w.mux.calls[k].verb == "initialize" ::
          w.tuiStopped || InitializeSent(w.log, w.mux.calls[k].serial))
    && (w.mux.initializeOK ==> w.tuiStopped || Greeted(c, w.log, |w.log.toNative|, |w.log.nativeIn|))
    && (w.mux.initialized ==> w.tuiStopped || InitializedBefore(w.log, |w.log.toNative|))
    && (w.mux.ready ==> InitializedBefore(w.log, |w.log.toNative|))
  }

  /** The discipline itself. */
  ghost predicate Discipline(c: Codec, l: Log) {
    && (forall x, y | 0 <= x < y < |l.toNative| :: !(IsInitialize(l.toNative[x]) && IsInitialize(l.toNative[y])))
    && (forall x, y | 0 <= x < y < |l.toNative| :: !(IsInitialized(l.toNative[x]) && IsInitialized(l.toNative[y])))
    && (forall x | 0 <= x < |l.toNative| && IsInitialized(l.toNative[x]) :: Greeted(c, l, x, l.toNative[x].at))
    && (forall x | 0 <= x < |l.toNative| && l.toNative[x].Called? :: InitializedBefore(l, x))
  }

  ghost predicate Handshake(c: Codec, w: World) {
    Flags(c, w) && Discipline(c, w.log)
  }

  // ----- growth of the logs --------------------------------------------------------------------

  ghost predicate Grows(l: Log, l': Log) {
    l.toNative <= l'.toNative && l.nativeIn <= l'.nativeIn
  }

  lemma GreetedKept(c: Codec, l: Log, l': Log, a: nat, b: nat, a': nat, b': nat)
    requires Greeted(c, l, a, b) && Grows(l, l') && a <= a' <= |l'.toNative| && b <= b' <= |l'.nativeIn|
    ensures Greeted(c, l', a', b')
  {
    hide Greets;
    var x, y :| 0 <= x < a <= |l.toNative| && 0 <= y < b <= |l.nativeIn|
                && IsInitialize(l.toNative[x]) && Greets(c, l.nativeIn[y], l.toNative[x].serial);
    assert l'.toNative[x] == l.toNative[x] && l'.nativeIn[y] == l.nativeIn[y];
  }

  lemma InitializedKept(l: Log, l': Log, j: nat, j': nat)
    requires InitializedBefore(l, j) && Grows(l, l') && j <= j' <= |l'.toNative|
    ensures InitializedBefore(l', j')
  {
    var x :| 0 <= x < j <= |l.toNative| && IsInitialized(l.toNative[x]);
    assert l'.toNative[x] == l.toNative[x];
  }

  lemma SentKept(l: Log, l': Log, n: nat)
    requires InitializeSent(l, n) && Grows(l, l')
    ensures InitializeSent(l', n)
  {
    var x :| 0 <= x < |l.toNative| && IsInitialize(l.toNative[x]) && l.toNative[x].serial == n;
    assert l'.toNative[x] == l.toNative[x];
  }

  lemma DisciplineKept(c: Codec, l: Log, l': Log)
    requires Discipline(c, l) && l'.toNative == l.toNative && l.nativeIn <= l'.nativeIn
    requires forall x | 0 <= x < |l.toNative| && l.toNative[x].Noted? :: l.toNative[x].at <= |l.nativeIn|
    ensures Discipline(c, l')
  {
    hide Greeted, InitializedBefore;
    forall x | 0 <= x < |l'.toNative| && IsInitialized(l'.toNative[x])
      ensures Greeted(c, l', x, l'.toNative[x].at)
    {
      GreetedKept(c, l, l', x, l.toNative[x].at, x, l.toNative[x].at);
    }
    forall x | 0 <= x < |l'.toNative| && l'.toNative[x].Called?
      ensures InitializedBefore(l', x)
    {
      InitializedKept(l, l', x, x);
    }
  }

  lemma DisciplinePush(c: Codec, l: Log, l': Log, e: ToNative)
    requires Discipline(c, l) && l'.toNative == l.toNative + [e] && l'.nativeIn == l.nativeIn
    requires forall x | 0 <= x < |l.toNative| && l.toNative[x].Noted? :: l.toNative[x].at <= |l.nativeIn|
    requires IsInitialize(e) ==> forall x | 0 <= x < |l.toNative| :: !IsInitialize(l.toNative[x])
    requires IsInitialized(e) ==>
               && e.at == |l.nativeIn| && Greeted(c, l, |l.toNative|, |l.nativeIn|)
               && forall x | 0 <= x < |l.toNative| :: !IsInitialized(l.toNative[x])
    requires e.Called? ==> InitializedBefore(l, |l.toNative|)
    ensures Discipline(c, l')
  {
    hide Greeted, InitializedBefore, IsInitialize;
    forall x | 0 <= x < |l'.toNative| && IsInitialized(l'.toNative[x])
      ensures Greeted(c, l', x, l'.toNative[x].at)
    {
      if x < |l.toNative| { GreetedKept(c, l, l', x, l.toNative[x].at, x, l.toNative[x].at); }
      else { GreetedKept(c, l, l', x, e.at, x, e.at); }
    }
    forall x | 0 <= x < |l'.toNative| && l'.toNative[x].Called?
      ensures InitializedBefore(l', x)
    {
      if x < |l.toNative| { InitializedKept(l, l', x, x); } else { InitializedKept(l, l', x, x); }
    }
  }

  /** Flags untouched, logs only grown. */
  lemma FlagsKept(c: Codec, w: World, w': World)
    requires Flags(c, w) && Grows(w.log, w'.log)
    requires w'.log.toNative == w.log.toNative || exists e :: w'.log.toNative == w.log.toNative + [e] && !IsInitialize(e) && !IsInitialized(e)
    requires w'.mux.initializeSeen == w.mux.initializeSeen && w'.mux.initialized == w.mux.initialized
    requires w'.mux.initializeOK ==> w.mux.initializeOK || w'.tuiStopped || Greeted(c, w'.log, |w'.log.toNative|, |w'.log.nativeIn|)
    requires w'.mux.ready ==> w.mux.ready || InitializedBefore(w'.log, |w'.log.toNative|)
    requires w.tuiStopped ==> w'.tuiStopped
    requires forall k | k in w'.mux.calls && w'.mux.calls[k].verb == "initialize" ::
               (k in w.mux.calls && w.mux.calls[k].verb == "initialize" && w'.mux.calls[k].serial == w.mux.calls[k].serial) || w'.tuiStopped
    ensures Flags(c, w')
  {
    hide Greeted, InitializedBefore, InitializeSent;
    var a, b := |w'.log.toNative|, |w'.log.nativeIn|;
    if w.mux.initializeOK && !w.tuiStopped { GreetedKept(c, w.log, w'.log, |w.log.toNative|, |w.log.nativeIn|, a, b); }
    if InitializedBefore(w.log, |w.log.toNative|) { InitializedKept(w.log, w'.log, |w.log.toNative|, a); }
    forall k | k in w.mux.calls && InitializeSent(w.log, w.mux.calls[k].serial)
      ensures InitializeSent(w'.log, w.mux.calls[k].serial)
    {
      SentKept(w.log, w'.log, w.mux.calls[k].serial);
    }
  }

  // ----- the flags in the sections -------------------------------------------------------------

  /** The flags after a TUI frame. */
  ghost predicate TuiFlags(c: Codec, m: Mux, f: Frame, m': Mux, v: Verdict) {
    var verb := match Method(c, f) case Some(s) => s case None => "";
    var asks, notes := verb != "" && "id" in f, verb != "" && "id" !in f;
    && m'.initializeOK == m.initializeOK
    && (m'.initializeSeen != m.initializeSeen ==> asks && verb == "initialize" && m'.initializeSeen)
    && (m'.initialized != m.initialized ==> notes && verb == "initialized" && m'.initialized)
    && (m'.ready != m.ready ==> m'.ready && m'.initialized && v.Accepted?)
    && (v.Accepted? && asks && verb == "initialize" ==> !m.initializeSeen && m'.initializeSeen)
    && (v.Accepted? && notes && verb == "initialized" ==> m.initializeOK && !m.initialized && m'.initialized)
  }

  lemma SendFlags(c: Codec, m: Mux, f: Frame)
    ensures var (m', v) := Send(c, m, f);
            && m'.initializeOK == m.initializeOK && m'.initializeSeen == m.initializeSeen && m'.initialized == m.initialized
            && m'.ready == (m.ready || (v.Accepted? && m.initialized))
  {
  }

  lemma FromTuiFlags(c: Codec, m: Mux, f: Frame)
    ensures var (m', v) := FromTui(c, m, f); TuiFlags(c, m, f, m', v)
  {
    match Method(c, f)
    case None =>
    case Some(verb) =>
      if m.failed {
      } else if verb == "" {
        hide BrokerId, InMappedNamespace;
      } else if "id" in f {
        RequestFlags(c, m, f, verb);
      } else {
        SendFlags(c, m, f);
        SendFlags(c, m.(initialized := true), f);
        hide Send;
      }
  }

  lemma RequestFlags(c: Codec, m: Mux, f: Frame, verb: string)
    requires "id" in f && Method(c, f) == Some(verb) && verb != ""
    ensures var (m', v) := TuiRequest(c, m, f, verb); TuiFlags(c, m, f, m', v)
  {
    var id := BrokerId(c, f["id"]);
    if id.Some? {
      var m1 := Numbered(m, verb);
      SendFlags(c, Record(m1, f["id"], id.value, verb), f["id" := WireRaw(c, m1.next)]);
    }
    hide Send, BrokerId, WireRaw, WireKey, Held;
  }

  // ----- steps ---------------------------------------------------------------------------------

  lemma TuiFrameHandshake(c: Codec, w: World, f: Frame)
    requires Handshake(c, w) && Entries(c, w) && !w.tuiStopped
    ensures Handshake(c, OnTuiFrame(c, w, f))
  {
    var w' := OnTuiFrame(c, w, f);
    var (m, v) := FromTui(c, w.mux, f);
    FromTuiFlags(c, w.mux, f);
    FromTuiEffect(c, w.mux, f);
    NotesAreRead(c, w);
    if v.Accepted? {
      var e := TuiEntry(c, w, f);
      TuiEntryShape(c, w, f);
      hide FromTui, TuiEntry, Entries, Greeted, InitializedBefore, InitializeSent, BrokerId, WireKey;
      DisciplinePush(c, w.log, w'.log, e);
      SentFlags(c, w, w', f, e);
    } else {
      hide FromTui, TuiEntry, Entries, Greeted, InitializedBefore, InitializeSent, BrokerId, WireKey;
      DisciplineKept(c, w.log, w'.log);
      StoppedFlags(c, w, w', f, v);
    }
  }

  lemma NotesAreRead(c: Codec, w: World)
    requires Entries(c, w)
    ensures forall x | 0 <= x < |w.log.toNative| && (w.log.toNative[x].Asked? || w.log.toNative[x].Noted?) :: w.log.toNative[x].at <= |w.log.nativeIn|
  {
    forall x | 0 <= x < |w.log.toNative| && (w.log.toNative[x].Asked? || w.log.toNative[x].Noted?)
      ensures w.log.toNative[x].at <= |w.log.nativeIn|
    {
      assert GoodToNative(c, w.log, w.log.toNative[x]);
    }
    hide GoodToNative, GoodToTui, Claimed;
  }

  lemma TuiEntryShape(c: Codec, w: World, f: Frame)
    ensures var e := TuiEntry(c, w, f);
            && (e.Asked? ==> "id" in f && Method(c, f) == Some(e.verb) && e.serial == w.mux.next + 1 && e.at == |w.log.nativeIn|)
            && (e.Noted? && e.verb != "" ==> "id" !in f && Method(c, f) == Some(e.verb) && e.at == |w.log.nativeIn|)
            && (Method(c, f).Some? && Method(c, f).value != "" ==>
                  if "id" in f then e.Asked? else e.Noted? && e.verb == Method(c, f).value)
            && !e.Called?
  {
    hide BrokerId, WireRaw;
  }

  /** A frame that was refused or dropped. */
  lemma StoppedFlags(c: Codec, w: World, w': World, f: Frame, v: Verdict)
    requires Flags(c, w) && !w.tuiStopped && !v.Accepted?
    requires TuiFlags(c, w.mux, f, w'.mux, v) && TuiEffect(c, w.mux, f, w'.mux, v)
    requires w'.log.toNative == w.log.toNative && w'.log.nativeIn == w.log.nativeIn && w'.tuiStopped == v.Fault?
    ensures Flags(c, w')
  {
    hide BrokerId, WireKey, Greets, Greeted, InitializedBefore, InitializeSent;
    var a, b := |w.log.toNative|, |w.log.nativeIn|;
    if w.mux.initializeOK { GreetedKept(c, w.log, w'.log, a, b, a, b); }
    if InitializedBefore(w.log, a) { InitializedKept(w.log, w'.log, a, a); }
    forall k | k in w.mux.calls && InitializeSent(w.log, w.mux.calls[k].serial)
      ensures InitializeSent(w'.log, w.mux.calls[k].serial)
    {
      SentKept(w.log, w'.log, w.mux.calls[k].serial);
    }
  }

  /** A frame that was sent. */
  lemma SentFlags(c: Codec, w: World, w': World, f: Frame, e: ToNative)
    requires Flags(c, w) && !w.tuiStopped && !w'.tuiStopped
    requires TuiFlags(c, w.mux, f, w'.mux, Accepted) && TuiEffect(c, w.mux, f, w'.mux, Accepted)
    requires w'.log.toNative == w.log.toNative + [e] && w'.log.nativeIn == w.log.nativeIn
    requires e.Asked? ==> "id" in f && Method(c, f) == Some(e.verb) && e.serial == w.mux.next + 1
    requires e.Noted? && e.verb != "" ==> "id" !in f && Method(c, f) == Some(e.verb)
    requires Method(c, f).Some? && Method(c, f).value != "" ==> if "id" in f then e.Asked? else e.Noted? && e.verb == Method(c, f).value
    ensures Flags(c, w')
  {
    hide BrokerId, WireKey, Greets, Greeted, InitializedBefore, InitializeSent;
    assert Grows(w.log, w'.log);
    var a, b := |w'.log.toNative|, |w'.log.nativeIn|;
    if w.mux.initializeOK { GreetedKept(c, w.log, w'.log, |w.log.toNative|, b, a, b); }
    if InitializedBefore(w.log, |w.log.toNative|) { InitializedKept(w.log, w'.log, |w.log.toNative|, a); }
    if IsInitialized(e) { assert IsInitialized(w'.log.toNative[a - 1]); NowInitialized(w'.log); }
    forall k | k in w'.mux.calls && w'.mux.calls[k].verb == "initialize"
      ensures InitializeSent(w'.log, w'.mux.calls[k].serial)
    {
      if k in w.mux.calls && w'.mux.calls[k] == w.mux.calls[k] {
        SentKept(w.log, w'.log, w.mux.calls[k].serial);
      } else {
        assert w'.log.toNative[a - 1] == e && IsInitialize(e);
        NowSent(w'.log, w'.mux.calls[k].serial);
      }
    }
  }

  lemma NowInitialized(l: Log)
    requires l.toNative != [] && IsInitialized(l.toNative[|l.toNative| - 1])
    ensures InitializedBefore(l, |l.toNative|)
  {
  }

  lemma NowSent(l: Log, n: nat)
    requires l.toNative != [] && IsInitialize(l.toNative[|l.toNative| - 1]) && l.toNative[|l.toNative| - 1].serial == n
    ensures InitializeSent(l, n)
  {
  }

  lemma NativeFrameHandshake(c: Codec, w: World, f: Frame)
    requires Lawful(c) && Tables(c, w.mux) && Handshake(c, w) && Entries(c, w)
    ensures Handshake(c, OnNativeFrame(c, w, f))
  {
    var w' := OnNativeFrame(c, w, f);
    NativeFrameExtends(c, w, f);
    NativeFrameMux(c, w, f);
    NotesAreRead(c, w);
    NativeFlags(c, w.mux, f);
    FromNativeEffect(c, w.mux, f);
    assert w'.tuiStopped == w.tuiStopped by { hide FromNative, KeyOf; }
    if FromNative(c, w.mux, f).1.Claim? && w.mux.calls[BrokerId(c, f["id"]).value].verb == "initialize" && "error" !in f {
      NativeGreets(c, w, w'.log, f);
    }
    hide OnNativeFrame, FromNative, Entries, Greeted, InitializedBefore, InitializeSent, Tables, Lawful, BrokerId, WireKey;
    hide ServerKey, ServerId, Seen, Resolves;
    DisciplineKept(c, w.log, w'.log);
    FlagsKept(c, w, w');
  }

  /** The flags after a native frame: only the response to `initialize` sets one. */
  lemma NativeFlags(c: Codec, m: Mux, f: Frame)
    ensures var (m', a) := FromNative(c, m, f);
            && m'.initializeSeen == m.initializeSeen && m'.initialized == m.initialized && m'.ready == m.ready
            && (m'.initializeOK && !m.initializeOK ==>
                  && a.Claim? && "id" in f && BrokerId(c, f["id"]).Some? && BrokerId(c, f["id"]).value in m.calls
                  && m.calls[BrokerId(c, f["id"]).value].verb == "initialize" && "error" !in f)
  {
    ClaimFlags(c, m, f);
    if "id" in f { RequestedFlags(c, m, f); }
    ResolvedFlags(c, m, f);
    hide BrokerId, NativeResponse, NativeRequest, NativeResolved;
  }

  lemma RequestedFlags(c: Codec, m: Mux, f: Frame)
    requires "id" in f
    ensures var m' := NativeRequest(c, m, f).0;
            && m'.initializeSeen == m.initializeSeen && m'.initialized == m.initialized && m'.ready == m.ready
            && m'.initializeOK == m.initializeOK
  {
    hide BrokerId, ServerId, KeyOf;
  }

  lemma ResolvedFlags(c: Codec, m: Mux, f: Frame)
    ensures var m' := NativeResolved(c, m, f).0;
            && m'.initializeSeen == m.initializeSeen && m'.initialized == m.initialized && m'.ready == m.ready
            && m'.initializeOK == m.initializeOK
  {
    hide BrokerId, ServerId, KeyOf, ResolvedId;
  }

  lemma ClaimFlags(c: Codec, m: Mux, f: Frame)
    ensures var (m', a) := NativeResponse(c, m, f);
            && m'.initializeSeen == m.initializeSeen && m'.initialized == m.initialized && m'.ready == m.ready
            && (m'.initializeOK && !m.initializeOK ==>
                  && a.Claim? && "id" in f && BrokerId(c, f["id"]).Some? && BrokerId(c, f["id"]).value in m.calls
                  && m.calls[BrokerId(c, f["id"]).value].verb == "initialize" && "error" !in f)
  {
    hide BrokerId, KeyOf;
  }

  lemma NativeGreets(c: Codec, w: World, l: Log, f: Frame)
    requires Tables(c, w.mux) && Flags(c, w) && IsResponse(c, f) && "error" !in f
    requires BrokerId(c, f["id"]).Some? && BrokerId(c, f["id"]).value in w.mux.calls
    requires w.mux.calls[BrokerId(c, f["id"]).value].verb == "initialize"
    requires l.toNative == w.log.toNative && l.nativeIn == w.log.nativeIn + [f]
    ensures w.tuiStopped || Greeted(c, l, |l.toNative|, |l.nativeIn|)
  {
    hide BrokerId, WireKey, CallIds, TuiKeys, ServerIds;
    var n := w.mux.calls[BrokerId(c, f["id"]).value].serial;
    if !w.tuiStopped {
      var x :| 0 <= x < |w.log.toNative| && IsInitialize(w.log.toNative[x]) && w.log.toNative[x].serial == n;
      var y := |w.log.nativeIn|;
      assert l.nativeIn[y] == f && Greets(c, l.nativeIn[y], l.toNative[x].serial);
    }
  }

  /** A new internal call is no `initialize`. */
  lemma NewCallIsInternal(c: Codec, w: World, w': World, verb: string, params: Raw)
    requires w' == OnCall(c, w, verb, params) && verb in InternalVerbs
    ensures forall k | k in w'.mux.calls && w'.mux.calls[k].verb == "initialize" ::
              k in w.mux.calls && w.mux.calls[k].verb == "initialize" && w'.mux.calls[k].serial == w.mux.calls[k].serial
  {
    SubmitEffect(c, w.mux, verb, params);
    hide Submit, InternalFrame, WireKey;
  }

  lemma CallHandshake(c: Codec, w: World, verb: string, params: Raw)
    requires Handshake(c, w) && Entries(c, w) && w.mux.ready && verb in InternalVerbs
    ensures Handshake(c, OnCall(c, w, verb, params))
  {
    var w' := OnCall(c, w, verb, params);
    SubmitEffect(c, w.mux, verb, params);
    SubmitFlags(c, w.mux, verb, params);
    NotesAreRead(c, w);
    var (m, r) := Submit(c, w.mux, verb, params);
    NewCallIsInternal(c, w, w', verb, params);
    hide Submit, InternalFrame, Entries, Greeted, InitializedBefore, InitializeSent, WireKey, Discipline;
    if r.Submitted? {
      var e := Called(r.serial, InternalFrame(c, r.serial, verb, params));
      DisciplinePush(c, w.log, w'.log, e);
      assert w'.log.toNative == w.log.toNative + [e];
    } else {
      DisciplineKept(c, w.log, w'.log);
    }
    hide Flags;
    FlagsKept(c, w, w');
  }

  lemma SubmitFlags(c: Codec, m: Mux, verb: string, params: Raw)
    ensures var m' := Submit(c, m, verb, params).0;
            m'.initializeSeen == m.initializeSeen && m'.initialized == m.initialized && m'.ready == m.ready && m'.initializeOK == m.initializeOK
  {
    hide InternalFrame, WireKey;
  }

  lemma IdleHandshake(c: Codec, w: World, w': World)
    requires Handshake(c, w) && Entries(c, w)
    requires w'.log.toNative == w.log.toNative && w'.log.nativeIn == w.log.nativeIn && w'.tuiStopped == w.tuiStopped
    requires w'.mux.initializeSeen == w.mux.initializeSeen && w'.mux.initialized == w.mux.initialized
    requires w'.mux.ready == w.mux.ready && w'.mux.initializeOK == w.mux.initializeOK
    requires forall k | k in w'.mux.calls ::
               k in w.mux.calls && w'.mux.calls[k].verb == w.mux.calls[k].verb && w'.mux.calls[k].serial == w.mux.calls[k].serial
    ensures Handshake(c, w')
  {
    NotesAreRead(c, w);
    hide Entries, Greeted, InitializedBefore, InitializeSent;
    DisciplineKept(c, w.log, w'.log);
    FlagsKept(c, w, w');
  }

  lemma EnqueueFlags(c: Codec, m: Mux, side: Side, f: Frame)
    ensures var m' := Enqueue(c, m, side, f).0;
            m'.initializeSeen == m.initializeSeen && m'.initialized == m.initialized && m'.ready == m.ready && m'.initializeOK == m.initializeOK
  {
  }

  lemma PublishIdle(c: Codec, w: World, e: ToTui)
    requires Handshake(c, w) && Entries(c, w)
    ensures Handshake(c, Publish(c, w, e))
  {
    EnqueueSame(c, w.mux, Tui, e.body);
    EnqueueFlags(c, w.mux, Tui, e.body);
    hide Enqueue, Handshake, Entries;
    IdleHandshake(c, w, Publish(c, w, e));
  }

  lemma SettleHandshake(c: Codec, w: World, observed: bool, selected: bool)
    requires Handshake(c, w) && Entries(c, w) && Enabled(w, Settle(observed, selected))
    ensures Handshake(c, OnSettle(c, w, observed, selected))
  {
    hide Entries, Handshake, Publish;
    var call, i := w.reader.call, w.reader.source;
    if call.original.Some? {
      PublishIdle(c, w, Responded(call.serial, i, w.log.nativeIn[i]["id" := call.original.value]));
      IdleHandshake(c, w, w.(reader := Stopped));
    } else {
      IdleHandshake(c, w, OnSettle(c, w, observed, selected));
    }
  }

  lemma StepHandshake(c: Codec, w: World, a: Action)
    requires Lawful(c) && Tables(c, w.mux) && Entries(c, w) && Handshake(c, w) && Enabled(w, a)
    ensures Handshake(c, Next(c, w, a))
  {
    hide Lawful, Tables, Entries, Handshake, OnTuiFrame, OnNativeFrame, OnCall, OnSettle, Publish, WireKey;
    var w' := Next(c, w, a);
    match a
    case TuiFrame(f) => TuiFrameHandshake(c, w, f);
    case NativeFrame(f) => NativeFrameHandshake(c, w, f);
    case Relay(observed) =>
      PublishIdle(c, w, w.reader.entry);
      IdleHandshake(c, w, w.(reader := Stopped));
    case Settle(observed, selected) => SettleHandshake(c, w, observed, selected);
    case CallNative(verb, params) => CallHandshake(c, w, verb, params);
    case _ =>
      IdleActions(c, w, a);
      hide Next;
      IdleHandshake(c, w, w');
  }

  /** The steps of callers, writers and failing threads touch neither the flags nor what native was sent. */
  lemma IdleActions(c: Codec, w: World, a: Action)
    requires Enabled(w, a) && !a.TuiFrame? && !a.NativeFrame? && !a.Relay? && !a.Settle? && !a.CallNative?
    ensures var w' := Next(c, w, a);
            && w'.log.toNative == w.log.toNative && w'.log.nativeIn == w.log.nativeIn && w'.tuiStopped == w.tuiStopped
            && w'.mux.initializeSeen == w.mux.initializeSeen && w'.mux.initialized == w.mux.initialized
            && w'.mux.ready == w.mux.ready && w'.mux.initializeOK == w.mux.initializeOK
            && forall k | k in w'.mux.calls ::
                 k in w.mux.calls && w'.mux.calls[k].verb == w.mux.calls[k].verb && w'.mux.calls[k].serial == w.mux.calls[k].serial
  {
    hide WireKey;
  }

  /** In every run: at most one initialize request and one initialized notification reach native, the
      latter only after native has answered the former with success, and no call of the broker's own
      is sent before it. */
  lemma {:induction false} RunHandshake(c: Codec, ws: seq<World>, acts: seq<Action>, i: nat)
    requires Lawful(c) && Run(c, ws, acts) && i < |ws|
    ensures Handshake(c, ws[i])
  {
    if i > 0 {
      RunHandshake(c, ws, acts, i - 1);
      RunRouted(c, ws, acts, i - 1);
      RunSound(c, ws, acts, i - 1);
      hide Next, Enabled, Lawful, Handshake, Tables, Conserved, LiveCalls, LiveServers, Entries;
      StepHandshake(c, ws[i - 1], acts[i - 1]);
    }
  }

  /** The guard looks at requests only: once `initialize` has been seen, a further one is refused
      exactly when it carries an identifier. */
  lemma SecondInitialize(c: Codec, m: Mux, f: Frame)
    requires !m.failed && m.initializeSeen && Method(c, f) == Some("initialize")
    requires Enqueue(c, m, Native, f).1
    ensures FromTui(c, m, f).1 == (if "id" in f then Fault else Accepted)
  {
    hide Enqueue, BrokerId;
  }
}
