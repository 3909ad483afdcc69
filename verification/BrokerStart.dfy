/** The handshake as it should go: a run from the start to the first call of the broker's own. */
module BrokerStart {
  import opened Prelude
  import opened BrokerIds
  import opened BrokerMux
  import opened BrokerRun
  import opened BrokerHandshake
  import opened BrokerOrder
  import opened BrokerGreeting

  /** Native's answer to the request of serial 1, as it comes and as the TUI sees it. */
  function Answer(c: Codec, result: Raw): Frame {
    map["id" := WireRaw(c, 1), "result" := result]
  }

  function Relayed(c: Codec, id: string, result: Raw): Frame {
    map["id" := c.encodeText(id), "result" := result]
  }

  /** Everything fits. */
  ghost predicate Roomy(c: Codec, limit: nat, id: string, result: Raw, verb: string, params: Raw) {
    && c.frameSize(Request(c, id, "initialize")["id" := WireRaw(c, 1)]) <= MessageLimit
    && c.frameSize(Relayed(c, id, result)) <= MessageLimit
    && c.frameSize(Notice(c, "initialized")) <= MessageLimit
    && c.frameSize(InternalFrame(c, 2, verb, params)) <= MessageLimit
    && Charge(c, id, "initialize", 1) + c.frameSize(Relayed(c, id, result)) + c.frameSize(Notice(c, "initialized"))
       + c.frameSize(InternalFrame(c, 2, verb, params)) <= limit
  }

  /** The state after the request: it is live under serial 1, and nothing else has happened. */
  ghost predicate Requested(c: Codec, w: World, id: string, limit: nat) {
    && !w.tuiStopped && w.reader.Listening? && !w.mux.failed && !w.mux.cancelled
    && w.mux.next == 1 && w.mux.limit == limit && w.mux.buffered <= Charge(c, id, "initialize", 1)
    && w.mux.calls.Keys == {WireKey(1)} && w.mux.servers == map[] && |w.mux.nativeOut| == 1 && w.mux.tuiOut == []
    && w.mux.calls[WireKey(1)].serial == 1 && w.mux.calls[WireKey(1)].original == Some(c.encodeText(id))
    && w.mux.calls[WireKey(1)].verb == "initialize" && w.mux.calls[WireKey(1)].held >= 0
    && !w.mux.initialized && !w.mux.ready && w.log.nativeIn == []
  }

  lemma ReachRequested(c: Codec, limit: nat, id: string)
    requires Lawful(c) && Charge(c, id, "initialize", 1) <= limit
    requires c.frameSize(Request(c, id, "initialize")["id" := WireRaw(c, 1)]) <= MessageLimit
    ensures var w := Next(c, Initial(limit), TuiFrame(Request(c, id, "initialize")));
            Reachable(c, w) && Requested(c, w, id, limit)
  {
    FirstRequest(c, limit, id, "initialize");
    var f := Request(c, id, "initialize");
    assert c.decodeText(f["id"]) == Some(id) && c.decodeText(f["method"]) == Some("initialize");
    assert BrokerId(c, f["id"]) == Some("s:" + id) && Method(c, f) == Some("initialize");
    hide Lawful, BrokerId, WireKey, WireRaw, Method, Reachable;
  }

  /** The answer is claimed, and the claim remembers the success. */
  lemma AnswerClaimed(c: Codec, w: World, id: string, limit: nat, result: Raw)
    requires Lawful(c) && Requested(c, w, id, limit)
    ensures var w' := Next(c, w, NativeFrame(Answer(c, result)));
            && w'.reader == Settling(w.mux.calls[WireKey(1)], 0) && !w'.tuiStopped && w'.log.nativeIn == [Answer(c, result)]
            && w'.mux.initializeOK && !w'.mux.failed && !w'.mux.cancelled && !w'.mux.initialized && !w'.mux.ready
            && w'.mux.next == 1 && w'.mux.limit == limit && w'.mux.buffered <= w.mux.buffered
            && w'.mux.calls == map[] && |w'.mux.nativeOut| == 1 && w'.mux.tuiOut == []
  {
    var f := Answer(c, result);
    WireRawDecodes(c, 1);
    assert Method(c, f) == Some("") && BrokerId(c, f["id"]) == Some(WireKey(1));
    hide Lawful, BrokerId, WireKey, WireRaw, Method, KeyOf;
    assert w.mux.calls - {WireKey(1)} == map[];
    assert [] + [f] == [f];
  }

  /** It reaches the TUI under the identifier the TUI chose. */
  lemma AnswerRelayed(c: Codec, w: World, id: string, result: Raw)
    requires w.reader.Settling? && w.reader.call.original == Some(c.encodeText(id)) && w.reader.source == 0
    requires w.log.nativeIn == [Answer(c, result)] && w.mux.tuiOut == [] && !w.mux.cancelled
    requires c.frameSize(Relayed(c, id, result)) <= MessageLimit && w.mux.buffered + c.frameSize(Relayed(c, id, result)) <= w.mux.limit
    ensures Enabled(w, Settle(true, true))
    ensures var w' := Next(c, w, Settle(true, true));
            && w'.reader.Listening? && w'.tuiStopped == w.tuiStopped
            && w'.mux == w.mux.(tuiOut := w'.mux.tuiOut, buffered := w.mux.buffered + c.frameSize(Relayed(c, id, result)))
            && w'.log.toTui == w.log.toTui + [Responded(w.reader.call.serial, 0, Relayed(c, id, result))]
            && w'.log.toNative == w.log.toNative
  {
    assert Answer(c, result)["id" := c.encodeText(id)] == Relayed(c, id, result);
    hide Answer, Relayed;
  }

  /** The notification opens the gate. */
  lemma GateOpens(c: Codec, w: World)
    requires Lawful(c) && !w.tuiStopped && !w.mux.failed && !w.mux.cancelled && w.mux.initializeOK && !w.mux.initialized
    requires |w.mux.nativeOut| < RouteLimit
    requires c.frameSize(Notice(c, "initialized")) <= MessageLimit
    requires w.mux.buffered + c.frameSize(Notice(c, "initialized")) <= w.mux.limit
    ensures var w' := Next(c, w, TuiFrame(Notice(c, "initialized")));
            && w'.mux.ready && !w'.mux.failed && !w'.mux.cancelled && w'.mux.calls == w.mux.calls && w'.mux.next == w.mux.next
            && w'.mux.limit == w.mux.limit && w'.mux.buffered == w.mux.buffered + c.frameSize(Notice(c, "initialized"))
            && |w'.mux.nativeOut| == |w.mux.nativeOut| + 1
  {
    var f := Notice(c, "initialized");
    assert c.decodeText(f["method"]) == Some("initialized");
    assert Method(c, f) == Some("initialized");
    hide Lawful, Method, TuiEntry;
  }

  /** The whole handshake in one run: `initialize`, native's success, `initialized`, and then a call of the
      broker's own, which is sent. */
  lemma NormalStart(c: Codec, limit: nat, id: string, result: Raw, verb: string, params: Raw)
    requires Lawful(c) && Roomy(c, limit, id, result, verb, params) && verb in InternalVerbs
    ensures exists w :: Reachable(c, w) && w.mux.ready && w.log.toNative != []
                        && w.log.toNative[|w.log.toNative| - 1] == Called(2, InternalFrame(c, 2, verb, params))
  {
    ReachRequested(c, limit, id);
    var a := TuiFrame(Request(c, id, "initialize"));
    hide Next, Reachable, Charge, Answer, Relayed, Notice, InternalFrame, WireKey, Lawful, Room;
    var w1 := Next(c, Initial(limit), a);
    AnswerClaimed(c, w1, id, limit, result);
    Reach(c, w1, NativeFrame(Answer(c, result)));
    var w2 := Next(c, w1, NativeFrame(Answer(c, result)));
    AnswerRelayed(c, w2, id, result);
    Reach(c, w2, Settle(true, true));
    FirstCall(c, Next(c, w2, Settle(true, true)), verb, params);
  }

  lemma FirstCall(c: Codec, w3: World, verb: string, params: Raw)
    requires Lawful(c) && Reachable(c, w3) && verb in InternalVerbs
    requires !w3.tuiStopped && !w3.mux.failed && !w3.mux.cancelled && w3.mux.initializeOK && !w3.mux.initialized
    requires w3.mux.next == 1 && w3.mux.calls == map[] && |w3.mux.nativeOut| == 1
    requires c.frameSize(Notice(c, "initialized")) <= MessageLimit && c.frameSize(InternalFrame(c, 2, verb, params)) <= MessageLimit
    requires w3.mux.buffered + c.frameSize(Notice(c, "initialized")) + c.frameSize(InternalFrame(c, 2, verb, params)) <= w3.mux.limit
    ensures exists w :: Reachable(c, w) && w.mux.ready && w.log.toNative != []
                        && w.log.toNative[|w.log.toNative| - 1] == Called(2, InternalFrame(c, 2, verb, params))
  {
    GateOpens(c, w3);
    var b := TuiFrame(Notice(c, "initialized"));
    hide Next, Reachable, Notice, InternalFrame, Lawful;
    Reach(c, w3, b);
    var w4 := Next(c, w3, b);
    var d := CallNative(verb, params);
    assert Enabled(w4, d) && Room(c, w4.mux, Native, InternalFrame(c, 2, verb, params));
    hide Room, Enabled;
    CallIsSent(c, w4, verb, params);
    StepReady(c, w4, d);
    Reach(c, w4, d);
    assert Next(c, w4, d).log.toNative == w4.log.toNative + [Called(2, InternalFrame(c, 2, verb, params))];
  }
}
