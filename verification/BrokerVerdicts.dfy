/** What the two readers of the broker refuse, exactly: a frame is refused for one of the reasons listed
    here, and for no other. */
module BrokerVerdicts {
  import opened Prelude
  import opened BrokerIds
  import opened BrokerMux
  import opened BrokerTables
  import opened BrokerRun
  import opened BrokerBytes
  import opened BrokerRouting
  import opened BrokerHandshake
  import opened BrokerGreeting

  /** A frame without a method is a response; with one it is a request or a notification under that name, and
      malformed if the name is no text or empty. */
  lemma MethodMeans(c: Codec, f: Frame)
    ensures Method(c, f) == Some("") <==> "method" !in f
    ensures Method(c, f).None? <==> "method" in f && (c.decodeText(f["method"]).None? || c.decodeText(f["method"]) == Some(""))
    ensures "method" in f && Method(c, f).Some? ==> Method(c, f) == c.decodeText(f["method"])
  {
  }

  // ----- frames of the TUI ---------------------------------------------------------------------

  /** A TUI request with an identifier of the same meaning is live. */
  ghost predicate Duplicate(c: Codec, m: Mux, id: Raw) {
    exists k :: k in m.calls && m.calls[k].original.Some? && Decode(c, m.calls[k].original.value) == Decode(c, id)
  }

  /** A request is taken: its identifier is valid and not live, fewer than 256 calls are, it is not a second
      `initialize`, and both what is remembered of it and the frame sent on fit. */
  ghost predicate TakesRequest(c: Codec, w: World, f: Frame, verb: string)
    requires "id" in f
  {
    var m := w.mux;
    && Decode(c, f["id"]) != NotAnId && !Duplicate(c, m, f["id"]) && |m.calls| < 256
    && (verb == "initialize" ==> forall x | 0 <= x < |w.log.toNative| :: !IsInitialize(w.log.toNative[x]))
    && var held := |f["id"]| + |KeyOf(c, f["id"])|;
       && held <= m.limit - m.buffered
       && Room(c, m.(buffered := m.buffered + held), Native, f["id" := WireRaw(c, m.next + 1)])
  }

  /** A notification is taken. */
  ghost predicate TakesNotice(c: Codec, w: World, f: Frame, verb: string) {
    && Room(c, w.mux, Native, f)
    && (verb == "initialized" ==>
          && Greeted(c, w.log, |w.log.toNative|, |w.log.nativeIn|) && !InitializedBefore(w.log, |w.log.toNative|))
  }

  /** The native request that the response answers is live, and the answer fits in place of what was
      remembered of it. */
  ghost predicate TakesAnswer(c: Codec, w: World, f: Frame)
    requires IsResponse(c, f)
  {
    var key := KeyOf(c, f["id"]);
    && Decode(c, f["id"]) != NotAnId && key in w.mux.servers
    && Room(c, w.mux.(buffered := w.mux.buffered - w.mux.servers[key].held), Native, f["id" := w.mux.servers[key].original])
  }

  ghost predicate Late(c: Codec, m: Mux, f: Frame)
    requires IsResponse(c, f)
  {
    Decode(c, f["id"]) != NotAnId && KeyOf(c, f["id"]) !in m.servers && InMappedNamespace(c, f["id"])
  }

  /** An `initialize` that was seen was sent, while the TUI reader runs. */
  ghost predicate SeenIsSent(w: World) {
    w.tuiStopped || (w.mux.initializeSeen ==> exists x :: 0 <= x < |w.log.toNative| && IsInitialize(w.log.toNative[x]))
  }

  lemma TuiFrameSeen(c: Codec, w: World, f: Frame)
    requires SeenIsSent(w) && !w.tuiStopped
    ensures SeenIsSent(OnTuiFrame(c, w, f))
  {
    var w' := OnTuiFrame(c, w, f);
    var v := FromTui(c, w.mux, f).1;
    FromTuiFlags(c, w.mux, f);
    TuiEntryShape(c, w, f);
    if v.Accepted? && w'.mux.initializeSeen {
      if w.mux.initializeSeen {
        var x :| 0 <= x < |w.log.toNative| && IsInitialize(w.log.toNative[x]);
        assert w'.log.toNative[x] == w.log.toNative[x];
      } else {
        assert w'.log.toNative[|w.log.toNative|] == TuiEntry(c, w, f);
      }
    }
    FromTuiEffect(c, w.mux, f);
    hide FromTui, TuiEntry, BrokerId;
  }

  lemma {:induction false} RunSeen(c: Codec, ws: seq<World>, acts: seq<Action>, i: nat)
    requires Run(c, ws, acts) && i < |ws|
    ensures SeenIsSent(ws[i])
  {
    hide Run, Next, Enabled, SeenIsSent;
    RunStart(c, ws, acts);
    if i > 0 {
      RunSeen(c, ws, acts, i - 1);
      RunStep(c, ws, acts, i - 1);
      StepSeen(c, ws[i - 1], acts[i - 1]);
    } else {
      StartSeen(ws[0].mux.limit);
    }
  }

  lemma StartSeen(limit: nat)
    ensures SeenIsSent(Initial(limit))
  {
  }

  lemma StepSeen(c: Codec, w: World, a: Action)
    requires SeenIsSent(w) && Enabled(w, a)
    ensures SeenIsSent(Next(c, w, a))
  {
    hide OnTuiFrame, OnNativeFrame, OnCall, IsInitialize;
    match a
    case TuiFrame(f) => TuiFrameSeen(c, w, f); hide SeenIsSent;
    case NativeFrame(f) =>
      NativeFrameExtends(c, w, f);
      NativeFrameMux(c, w, f);
      NativeFlags(c, w.mux, f);
      NativeKeepsCallers(c, w, f);
      hide FromNative;
    case CallNative(verb, params) => CallSeen(c, w, verb, params); hide SeenIsSent;
    case _ => OtherSeen(c, w, a); hide Next;
  }

  lemma CallSeen(c: Codec, w: World, verb: string, params: Raw)
    requires SeenIsSent(w)
    ensures SeenIsSent(OnCall(c, w, verb, params))
  {
    var w' := OnCall(c, w, verb, params);
    SubmitFlags(c, w.mux, verb, params);
    hide Submit, InternalFrame;
    if !w.tuiStopped && w.mux.initializeSeen {
      var x :| 0 <= x < |w.log.toNative| && IsInitialize(w.log.toNative[x]);
      assert w'.log.toNative[x] == w.log.toNative[x];
    }
  }

  lemma OtherSeen(c: Codec, w: World, a: Action)
    requires Enabled(w, a) && !a.TuiFrame? && !a.NativeFrame? && !a.CallNative?
    ensures var w' := Next(c, w, a);
            w'.tuiStopped == w.tuiStopped && w'.mux.initializeSeen == w.mux.initializeSeen && w'.log.toNative == w.log.toNative
  {
    if a.Relay? || a.Settle? { QuietActions(c, w, a); }
    hide Enqueue, WireKey, Orphans;
  }

  /** The verdict on a frame of the TUI, in every run in which neither side was stopped and nothing has
      failed: it is accepted exactly when its kind is taken, dropped exactly when it is a late answer, and
      refused otherwise. */
  lemma TuiVerdictExact(c: Codec, ws: seq<World>, acts: seq<Action>, i: nat, f: Frame)
    requires Lawful(c) && Run(c, ws, acts) && i < |ws| && !ws[i].tuiStopped && !ws[i].reader.Stopped? && !ws[i].mux.failed
    ensures var w := ws[i];
            FromTui(c, w.mux, f).1 ==
            match Method(c, f)
            case None => Fault
            case Some(verb) =>
              if verb == "" then
                if !IsResponse(c, f) then Fault
                else if TakesAnswer(c, w, f) then Accepted
                else if Late(c, w.mux, f) then Drained else Fault
              else if "id" in f then if TakesRequest(c, w, f, verb) then Accepted else Fault
              else if TakesNotice(c, w, f, verb) then Accepted else Fault
  {
    var w := ws[i];
    match Method(c, f)
    case None =>
    case Some(verb) =>
      if verb == "" {
        AnswerVerdict(c, w, f);
        hide Run, TuiResponse, TakesAnswer, Late, BrokerId, InMappedNamespace, Lawful;
      } else if "id" in f {
        RunSeen(c, ws, acts, i);
        RunHandshake(c, ws, acts, i);
        RunSound(c, ws, acts, i);
        hide Run, Discipline, Lawful;
        RequestVerdict(c, w, f, verb);
        hide TuiRequest, TakesRequest, BrokerId, Flags, SeenIsSent, Tables, Conserved;
      } else {
        GreetingIsHeard(c, ws, acts, i);
        hide Run, Lawful, Greeted, InitializedBefore;
        NoticeVerdict(c, w, f, verb);
        hide TuiNotice, TakesNotice, BrokerId;
      }
  }

  lemma AnswerVerdict(c: Codec, w: World, f: Frame)
    requires Method(c, f) == Some("")
    ensures TuiResponse(c, w.mux, f).1 ==
            if !IsResponse(c, f) then Fault
            else if TakesAnswer(c, w, f) then Accepted
            else if Late(c, w.mux, f) then Drained else Fault
  {
    if IsResponse(c, f) {
      ValidId(c, f["id"]);
      var key := KeyOf(c, f["id"]);
      if key in w.mux.servers {
        var m1 := w.mux.(servers := w.mux.servers - {key}, buffered := w.mux.buffered - w.mux.servers[key].held);
        RoomSuffices(c, m1, Native, f["id" := w.mux.servers[key].original]);
      }
    }
    hide BrokerId, Decode, InMappedNamespace, Enqueue, Method;
  }

  lemma ValidId(c: Codec, raw: Raw)
    ensures BrokerId(c, raw).Some? <==> Decode(c, raw) != NotAnId
  {
  }

  lemma NoticeVerdict(c: Codec, w: World, f: Frame, verb: string)
    requires w.mux.initializeOK <==> Greeted(c, w.log, |w.log.toNative|, |w.log.nativeIn|)
    requires w.mux.initialized <==> InitializedBefore(w.log, |w.log.toNative|)
    ensures TuiNotice(c, w.mux, f, verb).1 == if TakesNotice(c, w, f, verb) then Accepted else Fault
  {
    hide Greeted, InitializedBefore, Enqueue;
    RoomSuffices(c, w.mux, Native, f);
    RoomSuffices(c, w.mux.(initialized := true), Native, f);
  }

  lemma RequestVerdict(c: Codec, w: World, f: Frame, verb: string)
    requires "id" in f && !w.tuiStopped && !w.mux.failed && Tables(c, w.mux) && Flags(c, w) && SeenIsSent(w)
    ensures TuiRequest(c, w.mux, f, verb).1 == if TakesRequest(c, w, f, verb) then Accepted else Fault
  {
    hide Tables, Flags, SeenIsSent, IsInitialize, Admit, WireRaw, WireKey, BrokerId, Decode, Duplicate, Room;
    var m := w.mux;
    ValidId(c, f["id"]);
    SeenExact(c, w);
    if BrokerId(c, f["id"]).Some? {
      DuplicateExact(c, m, f["id"]);
      AdmitVerdict(c, m, f, BrokerId(c, f["id"]).value, verb);
    }
  }

  lemma SeenExact(c: Codec, w: World)
    requires !w.tuiStopped && Flags(c, w) && SeenIsSent(w)
    ensures w.mux.initializeSeen <==> exists x :: 0 <= x < |w.log.toNative| && IsInitialize(w.log.toNative[x])
  {
    hide Greeted, InitializedBefore, InitializeSent;
  }

  lemma AdmitVerdict(c: Codec, m: Mux, f: Frame, key: Key, verb: string)
    requires "id" in f
    ensures var held := |f["id"]| + |key|;
            Admit(c, Numbered(m, verb), f, key, verb).1 ==
            if held <= m.limit - m.buffered && Room(c, m.(buffered := m.buffered + held), Native, f["id" := WireRaw(c, m.next + 1)])
            then Accepted else Fault
  {
    RoomSuffices(c, Record(Numbered(m, verb), f["id"], key, verb), Native, f["id" := WireRaw(c, m.next + 1)]);
    hide Enqueue, WireRaw, WireKey;
  }

  lemma DuplicateExact(c: Codec, m: Mux, id: Raw)
    requires Tables(c, m) && !m.failed && BrokerId(c, id).Some?
    ensures BrokerId(c, id).value in m.tuiIDs <==> Duplicate(c, m, id)
  {
    DuplicateIsSameMeaning(c, m, id);
    hide Tables, BrokerId, Decode;
  }

  // ----- frames of native ----------------------------------------------------------------------

  /** A live native request has these identifier bytes. */
  ghost predicate Pending(m: Mux, id: Raw) {
    exists k :: k in m.servers && m.servers[k].original == id
  }

  /** A response is taken: it is one, and names a call that is live. */
  ghost predicate TakesResponse(c: Codec, m: Mux, f: Frame) {
    IsResponse(c, f) && exists n: nat :: Names(c, f, n) && WireKey(n) in m.calls
  }

  /** A native request is taken: its identifier is valid and not live under the same bytes, fewer than 256
      are, and what is remembered of it fits. */
  ghost predicate TakesDemand(c: Codec, m: Mux, f: Frame)
    requires "id" in f
  {
    && Decode(c, f["id"]) != NotAnId && !Pending(m, f["id"]) && |m.servers| < 256
    && |f["id"]| + |ServerKey(c, f["id"])| <= m.limit - m.buffered
  }

  /** A resolution is taken: it decodes and names a valid identifier, live or not. */
  ghost predicate TakesResolution(c: Codec, f: Frame) {
    exists p: Frame :: "params" in f && c.decodeObject(f["params"]) == Some(p) && "requestId" in p && Decode(c, p["requestId"]) != NotAnId
  }

  /** The verdict on a frame of native, in every state of every run: the reader goes on with it exactly when
      its kind is taken; any other notification always is. */
  lemma NativeVerdictExact(c: Codec, ws: seq<World>, acts: seq<Action>, i: nat, f: Frame)
    requires Lawful(c) && Run(c, ws, acts) && i < |ws|
    ensures var m := ws[i].mux;
            !FromNative(c, m, f).1.Malformed? <==>
            match Method(c, f)
            case None => false
            case Some(verb) =>
              if verb == "" then TakesResponse(c, m, f)
              else if "id" in f then TakesDemand(c, m, f)
              else if verb == "serverRequest/resolved" then TakesResolution(c, f)
              else true
  {
    RunSound(c, ws, acts, i);
    var m := ws[i].mux;
    assert Tables(c, m);
    hide Run, Tables, Conserved;
    if Method(c, f) == Some("") { ResponseTaken(c, m, f); }
    if "id" in f { DemandTaken(c, m, f); }
    ResolutionTaken(c, m, f);
    hide NativeResponse, NativeRequest, NativeResolved, TakesResponse, TakesDemand, TakesResolution, Lawful;
  }

  lemma ResponseTaken(c: Codec, m: Mux, f: Frame)
    requires Tables(c, m) && Method(c, f) == Some("")
    ensures !NativeResponse(c, m, f).1.Malformed? <==> TakesResponse(c, m, f)
  {
    if !NativeResponse(c, m, f).1.Malformed? {
      var key := BrokerId(c, f["id"]).value;
      assert Fresh(m) && key in m.calls;
      assert Names(c, f, m.calls[key].serial);
    }
    hide Tables, BrokerId, WireKey, Method, BrokerMux.Settle;
  }

  lemma DemandTaken(c: Codec, m: Mux, f: Frame)
    requires Lawful(c) && Tables(c, m) && "id" in f
    ensures !NativeRequest(c, m, f).1.Malformed? <==> TakesDemand(c, m, f)
  {
    ValidId(c, f["id"]);
    MappedKey(c, f["id"]);
    TablesServers(c, m);
    var key := ServerKey(c, f["id"]);
    if key in m.servers {
      ServerKeyInjective(c, m.servers[key].original, f["id"]);
    }
    hide Tables, BrokerId, Decode, ServerId, ServerKey, KeyOf, Lawful;
  }

  lemma ResolutionTaken(c: Codec, m: Mux, f: Frame)
    ensures !NativeResolved(c, m, f).1.Malformed? <==> TakesResolution(c, f)
  {
    if "params" in f && c.decodeObject(f["params"]).Some? {
      var p := c.decodeObject(f["params"]).value;
      if "requestId" in p { ValidId(c, p["requestId"]); }
    }
    hide BrokerId, Decode, ServerId, KeyOf, Forget;
  }

  // ----- what the native reader does next ------------------------------------------------------

  /** A frame carried to the TUI is queued for it, whole and last, exactly when it was observed, if it has to
      be, and there is room; otherwise the reader stops. */
  lemma RelayExact(c: Codec, w: World, observed: bool)
    requires w.reader.Relaying?
    ensures var w', e := OnRelay(c, w, observed), w.reader.entry;
            if (w.reader.notify ==> observed) && Room(c, w.mux, Tui, e.body) then
              && w'.reader == Listening && w'.log.toTui == w.log.toTui + [e]
              && w'.mux.tuiOut == w.mux.tuiOut + [Packet(e.body, c.frameSize(e.body))]
            else w'.reader == Stopped && w'.log.toTui == w.log.toTui && w'.mux.tuiOut == w.mux.tuiOut
  {
    RoomQueues(c, w.mux, Tui, w.reader.entry.body);
    hide Enqueue;
  }

  lemma RoomQueues(c: Codec, m: Mux, side: Side, f: Frame)
    ensures Enqueue(c, m, side, f).1 <==> Room(c, m, side, f)
    ensures Room(c, m, side, f) && side.Tui? ==> Enqueue(c, m, side, f).0.tuiOut == m.tuiOut + [Packet(f, c.frameSize(f))]
    ensures !Room(c, m, side, f) ==> Enqueue(c, m, side, f).0 == m
  {
  }

  /** A claimed response of the TUI's is queued for it under its own identifier exactly when it is an error,
      or was observed and selected, and there is room; one of the broker's own goes to its caller, if that
      still listens, marked failed exactly when it is an error or the observer refused it. */
  lemma SettleExact(c: Codec, w: World, observed: bool, selected: bool)
    requires w.reader.Settling? && w.reader.source < |w.log.nativeIn|
    ensures var w', call, i := OnSettle(c, w, observed, selected), w.reader.call, w.reader.source;
            var f := w.log.nativeIn[i];
            match call.original
            case Some(id) =>
              if ("error" in f || (observed && selected)) && Room(c, w.mux, Tui, f["id" := id]) then
                w'.reader == Listening && w'.log.toTui == w.log.toTui + [Responded(call.serial, i, f["id" := id])]
              else w'.reader == Stopped && w'.log.toTui == w.log.toTui
            case None =>
              && w'.reader == Listening && w'.mux == w.mux
              && w'.callers == if call.reply && call.serial in w.callers then
                                 w.callers[call.serial := w.callers[call.serial].(
                                   mail := w.callers[call.serial].mail + [Settled(i, "error" in f || !observed)],
                                   observed := w.callers[call.serial].observed || "error" !in f)]
                               else w.callers
  {
    if w.reader.call.original.Some? {
      RoomQueues(c, w.mux, Tui, w.log.nativeIn[w.reader.source]["id" := w.reader.call.original.value]);
    }
    hide Enqueue;
  }

  /** A caller goes on with the reply on its channel; one that is cancelled gives up exactly while its call is
      live, and otherwise waits for the reply it is owed; and a failure wakes every caller it orphaned. */
  lemma CallersMoveOn(c: Codec, w: World, n: nat)
    requires n in w.callers
    ensures Enabled(w, Receive(n)) ==>
              Next(c, w, Receive(n)) == w.(callers := w.callers[n := w.callers[n].(phase := Got(w.callers[n].mail[0]))])
    ensures Enabled(w, CancelCaller(n)) ==>
              var w' := Next(c, w, CancelCaller(n));
              && n in w'.callers
              && w'.callers[n] == w.callers[n].(phase := if WireKey(n) in w.mux.calls then Cancelled else Owed)
              && w'.mux.calls.Keys == w.mux.calls.Keys
              && (WireKey(n) in w.mux.calls ==> !w'.mux.calls[WireKey(n)].reply)
    ensures Enabled(w, Wake(n)) ==>
              var w' := Next(c, w, Wake(n));
              n in w'.callers && w'.callers[n].mail == w.callers[n].mail + [Abandoned] && w'.failing == w.failing - {n}
    ensures !w.mux.failed ==>
              var w' := Next(c, w, FailMux);
              && w'.mux.failed && w'.mux.calls == map[]
              && w'.failing == w.failing + set k | k in w.mux.calls && w.mux.calls[k].reply :: w.mux.calls[k].serial
  {
    hide WireKey;
  }

  // ----- replies -------------------------------------------------------------------------------

  /** The step settles response `source` for the caller. */
  predicate Settles(w: World, a: Action, n: nat, source: nat) {
    && a.Settle? && w.reader.Settling? && w.reader.source == source && w.reader.call.serial == n
    && w.reader.call.original.None? && w.reader.call.reply
  }

  ghost predicate ReplyOk(c: Codec, ws: seq<World>, acts: seq<Action>, i: nat, n: nat, r: Reply)
    requires i <= |acts| < |ws|
  {
    match r
    case Abandoned => ws[i].mux.failed
    case Settled(source, failed) =>
      && source < |ws[i].log.nativeIn| && Names(c, ws[i].log.nativeIn[source], n)
      && exists k :: 0 <= k < i && Settles(ws[k], acts[k], n, source)
                     && (failed <==> "error" in ws[i].log.nativeIn[source] || !acts[k].observed)
  }

  ghost predicate RepliesOk(c: Codec, ws: seq<World>, acts: seq<Action>, i: nat)
    requires i <= |acts| < |ws|
  {
    && (ws[i].failing != {} ==> ws[i].mux.failed)
    && forall n, r | n in ws[i].callers && r in ws[i].callers[n].mail :: ReplyOk(c, ws, acts, i, n, r)
  }

  lemma ReplyKept(c: Codec, ws: seq<World>, acts: seq<Action>, i: nat, n: nat, r: Reply)
    requires i < |acts| < |ws| && ReplyOk(c, ws, acts, i, n, r)
    requires ws[i].log.nativeIn <= ws[i + 1].log.nativeIn && (ws[i].mux.failed ==> ws[i + 1].mux.failed)
    ensures ReplyOk(c, ws, acts, i + 1, n, r)
  {
    hide Names, Settles;
    if r.Settled? { assert ws[i + 1].log.nativeIn[r.source] == ws[i].log.nativeIn[r.source]; }
  }

  /** A step sends nothing, or the abandonment of a failing caller, or the response being settled. */
  lemma MailGrows(c: Codec, w: World, a: Action)
    requires Enabled(w, a)
    ensures var w' := Next(c, w, a);
            && w.log.nativeIn <= w'.log.nativeIn && (w.mux.failed ==> w'.mux.failed)
            && (w'.failing != {} ==> w.failing != {} || w'.mux.failed)
            && forall n, r | n in w'.callers && r in w'.callers[n].mail ::
                 || (n in w.callers && r in w.callers[n].mail)
                 || (r == Abandoned && w.failing != {})
                 || (a.Settle? && Settles(w, a, n, w.reader.source)
                     && r == Settled(w.reader.source, "error" in w.log.nativeIn[w.reader.source] || !a.observed))
  {
    hide OnNativeFrame, OnRelay, OnSettle, FromTui, TuiEntry, FromNative, Submit, InternalFrame, WireKey;
    match a
    case TuiFrame(f) => FromTuiFailed(c, w.mux, f);
    case NativeFrame(f) =>
      NativeFrameMux(c, w, f);
      NativeFrameExtends(c, w, f);
      FromNativeFailed(c, w.mux, f);
      NativeKeepsCallers(c, w, f);
    case Relay(observed) => RelayMail(c, w, observed);
    case Settle(observed, selected) => SettleMail(c, w, observed, selected);
    case CallNative(verb, params) => SubmitKeepsFailed(c, w.mux, verb, params);
    case _ =>
  }

  lemma NativeKeepsCallers(c: Codec, w: World, f: Frame)
    ensures var w' := OnNativeFrame(c, w, f);
            w'.callers == w.callers && w'.failing == w.failing && w'.tuiStopped == w.tuiStopped
  {
    hide FromNative, KeyOf;
  }

  lemma RelayMail(c: Codec, w: World, observed: bool)
    requires w.reader.Relaying?
    ensures var w' := OnRelay(c, w, observed);
            w'.callers == w.callers && w'.failing == w.failing && w'.log.nativeIn == w.log.nativeIn && w'.mux.failed == w.mux.failed
  {
  }

  lemma SettleMail(c: Codec, w: World, observed: bool, selected: bool)
    requires w.reader.Settling? && w.reader.source < |w.log.nativeIn|
    ensures var w' := OnSettle(c, w, observed, selected);
            && w'.failing == w.failing && w'.log.nativeIn == w.log.nativeIn && w'.mux.failed == w.mux.failed
            && forall n, r | n in w'.callers && r in w'.callers[n].mail ::
                 || (n in w.callers && r in w.callers[n].mail)
                 || (Settles(w, Settle(observed, selected), n, w.reader.source)
                     && r == Settled(w.reader.source, "error" in w.log.nativeIn[w.reader.source] || !observed))
  {
    hide Enqueue;
    assert Enqueue(c, w.mux, Tui, w.log.nativeIn[w.reader.source]).0.failed == w.mux.failed by { QueueQuiet(c, w.mux, Tui, w.log.nativeIn[w.reader.source]); }
    if w.reader.call.original.Some? { QueueQuiet(c, w.mux, Tui, w.log.nativeIn[w.reader.source]["id" := w.reader.call.original.value]); }
  }

  lemma SettlesIsClaimed(w: World, a: Action, n: nat, source: nat)
    requires Settles(w, a, n, source)
    ensures w.reader.Settling? && w.reader.call.serial == n && w.reader.source == source && a.Settle?
  {
  }

  /** Every reply a caller of the broker's own finds is its own: the native response that bears its serial,
      marked failed exactly when that is an error or the observer refused it; or the word that the broker
      has failed. */
  lemma {:induction false} RepliesAreOwn(c: Codec, ws: seq<World>, acts: seq<Action>, i: nat)
    requires Lawful(c) && Run(c, ws, acts) && i <= |acts|
    ensures RepliesOk(c, ws, acts, i)
  {
    hide Run, Next, Enabled, Lawful, LiveCalls, LiveServers, IsResponse, BrokerId, WireKey;
    RunStart(c, ws, acts);
    if i > 0 {
      RepliesAreOwn(c, ws, acts, i - 1);
      RunRouted(c, ws, acts, i - 1);
      RunStep(c, ws, acts, i - 1);
      var w, a := ws[i - 1], acts[i - 1];
      MailGrows(c, w, a);
      assert w.reader.Settling? ==> Claimed(c, w.log, w.reader.call, w.reader.source);
      hide Entries, Settles;
      forall n, r | n in ws[i].callers && r in ws[i].callers[n].mail ensures ReplyOk(c, ws, acts, i, n, r) {
        if n in w.callers && r in w.callers[n].mail {
          ReplyKept(c, ws, acts, i - 1, n, r);
        } else if r.Settled? {
          SettlesIsClaimed(w, a, n, w.reader.source);
          assert ws[i].log.nativeIn[w.reader.source] == w.log.nativeIn[w.reader.source];
        }
      }
    }
  }

  // ----- a cancelled broker --------------------------------------------------------------------

  lemma StepSilent(c: Codec, w: World, a: Action)
    requires Enabled(w, a)
    ensures a.CancelContext? ==> Next(c, w, a).mux.cancelled
    ensures w.mux.cancelled ==>
              var w' := Next(c, w, a);
              w'.mux.cancelled && w'.log.toNative == w.log.toNative && w'.log.toTui == w.log.toTui
  {
    hide OnTuiFrame, OnNativeFrame, OnRelay, OnSettle, OnCall, WireKey;
    if w.mux.cancelled {
      match a
      case TuiFrame(f) => TuiSilent(c, w, f);
      case NativeFrame(f) => NativeSilent(c, w, f);
      case Relay(observed) => ReaderSilent(c, w, a);
      case Settle(observed, selected) => ReaderSilent(c, w, a);
      case CallNative(verb, params) => CallSilent(c, w, verb, params);
      case _ =>
    }
  }

  lemma NoRoom(c: Codec, m: Mux, side: Side, f: Frame)
    requires m.cancelled
    ensures Enqueue(c, m, side, f) == (m, false)
  {
  }

  lemma TuiSilent(c: Codec, w: World, f: Frame)
    requires w.mux.cancelled
    ensures var w' := OnTuiFrame(c, w, f); w'.mux.cancelled && w'.log.toNative == w.log.toNative && w'.log.toTui == w.log.toTui
  {
    FromTuiSilent(c, w.mux, f);
    hide FromTui, TuiEntry;
  }

  lemma SendSilent(c: Codec, m: Mux, f: Frame)
    requires m.cancelled
    ensures Send(c, m, f) == (m, Fault)
  {
    NoRoom(c, m, Native, f);
    hide Enqueue;
  }

  lemma FromTuiSilent(c: Codec, m: Mux, f: Frame)
    requires m.cancelled
    ensures var (m', v) := FromTui(c, m, f); m'.cancelled && !v.Accepted?
  {
    match Method(c, f)
    case None =>
    case Some(verb) =>
      if verb == "" {
        AnswerSilent(c, m, f);
        hide TuiResponse;
      } else if "id" in f {
        hide Send, BrokerId, WireRaw, WireKey, Held;
        if BrokerId(c, f["id"]).Some? {
          SendSilent(c, Record(Numbered(m, verb), f["id"], BrokerId(c, f["id"]).value, verb), f["id" := WireRaw(c, m.next + 1)]);
        }
      } else {
        hide Send;
        SendSilent(c, m, f);
        SendSilent(c, m.(initialized := true), f);
      }
  }

  lemma AnswerSilent(c: Codec, m: Mux, f: Frame)
    requires m.cancelled
    ensures var (m', v) := TuiResponse(c, m, f); m'.cancelled && !v.Accepted?
  {
    hide Enqueue, BrokerId, InMappedNamespace;
    if "id" in f && BrokerId(c, f["id"]).Some? && BrokerId(c, f["id"]).value in m.servers {
      var s := m.servers[BrokerId(c, f["id"]).value];
      NoRoom(c, m.(servers := m.servers - {BrokerId(c, f["id"]).value}, buffered := m.buffered - s.held), Native, f["id" := s.original]);
    }
  }

  lemma NativeSilent(c: Codec, w: World, f: Frame)
    requires w.mux.cancelled
    ensures var w' := OnNativeFrame(c, w, f); w'.mux.cancelled && w'.log.toNative == w.log.toNative && w'.log.toTui == w.log.toTui
  {
    NativeFrameExtends(c, w, f);
    NativeFrameMux(c, w, f);
    NativeKeepsContext(c, w.mux, f);
    hide FromNative, OnNativeFrame;
  }

  lemma NativeKeepsContext(c: Codec, m: Mux, f: Frame)
    ensures FromNative(c, m, f).0.cancelled == m.cancelled
  {
    ResponseKeepsContext(c, m, f);
    if "id" in f { RequestKeepsContext(c, m, f); }
    ResolvedKeepsContext(c, m, f);
    hide NativeResponse, NativeRequest, NativeResolved;
  }

  lemma ResponseKeepsContext(c: Codec, m: Mux, f: Frame)
    ensures NativeResponse(c, m, f).0.cancelled == m.cancelled
  {
    hide BrokerId, KeyOf;
  }

  lemma RequestKeepsContext(c: Codec, m: Mux, f: Frame)
    requires "id" in f
    ensures NativeRequest(c, m, f).0.cancelled == m.cancelled
  {
    hide BrokerId, ServerId, KeyOf;
  }

  lemma ResolvedKeepsContext(c: Codec, m: Mux, f: Frame)
    ensures NativeResolved(c, m, f).0.cancelled == m.cancelled
  {
    hide BrokerId, ServerId, KeyOf, ResolvedId;
  }

  lemma ReaderSilent(c: Codec, w: World, a: Action)
    requires Enabled(w, a) && (a.Relay? || a.Settle?) && w.mux.cancelled
    ensures var w' := Next(c, w, a); w'.mux.cancelled && w'.log.toNative == w.log.toNative && w'.log.toTui == w.log.toTui
  {
    forall g: Frame ensures Enqueue(c, w.mux, Tui, g) == (w.mux, false) { NoRoom(c, w.mux, Tui, g); }
    hide Enqueue;
  }

  lemma CallSilent(c: Codec, w: World, verb: string, params: Raw)
    requires w.mux.cancelled
    ensures var w' := OnCall(c, w, verb, params); w'.mux.cancelled && w'.log.toNative == w.log.toNative && w'.log.toTui == w.log.toTui
  {
    NoRoom(c, Open(w.mux, verb), Native, InternalFrame(c, w.mux.next + 1, verb, params));
    hide Enqueue, InternalFrame, WireKey;
  }

  /** Once its context is cancelled the broker sends nothing more, in either direction. */
  lemma {:induction false} CancelledIsSilent(c: Codec, ws: seq<World>, acts: seq<Action>, i: nat, k: nat)
    requires Run(c, ws, acts) && i <= k < |ws|
    requires ws[i].mux.cancelled || (i > 0 && acts[i - 1].CancelContext?)
    ensures ws[k].mux.cancelled && ws[k].log.toNative == ws[i].log.toNative && ws[k].log.toTui == ws[i].log.toTui
    decreases k
  {
    hide Run, Next, Enabled;
    RunStart(c, ws, acts);
    if i < k {
      CancelledIsSilent(c, ws, acts, i, k - 1);
      RunStep(c, ws, acts, k - 1);
      StepSilent(c, ws[k - 1], acts[k - 1]);
    } else if i > 0 {
      RunStep(c, ws, acts, i - 1);
      StepSilent(c, ws[i - 1], acts[i - 1]);
    }
  }
}
