/** The handshake by method name: what native is sent under `initialize` and `initialized`, whatever
    the shape of the frame, when the order holds, and two runs in which it does not. */
module BrokerOrder {
  import opened Prelude
  import opened BrokerIds
  import opened BrokerMux
  import opened BrokerTables
  import opened BrokerRun
  import opened BrokerBytes
  import opened BrokerRouting
  import opened BrokerHandshake

  /** A frame of the TUI under this method, as a request or as a notification. */
  predicate Says(e: ToNative, verb: string) {
    (e.Asked? || e.Noted?) && e.verb == verb
  }

  ghost predicate Said(l: Log, verb: string, a: nat) {
    exists x :: 0 <= x < a <= |l.toNative| && Says(l.toNative[x], verb)
  }

  ghost predicate Single(l: Log, verb: string) {
    forall x, y | 0 <= x < y < |l.toNative| :: !(Says(l.toNative[x], verb) && Says(l.toNative[y], verb))
  }

  /** The order itself: one frame at most under each of the two methods, the second only after native
      has answered the first with success, and a call of the broker's own only after the second. */
  ghost predicate Proper(c: Codec, l: Log) {
    && Single(l, "initialize") && Single(l, "initialized")
    && (forall x | 0 <= x < |l.toNative| && Says(l.toNative[x], "initialized") :: Greeted(c, l, x, l.toNative[x].at))
    && (forall x | 0 <= x < |l.toNative| && l.toNative[x].Called? :: Said(l, "initialized", x))
  }

  /** The shapes that the handshake of the protocol does not have. */
  predicate Odd(e: ToNative) {
    (e.Noted? && e.verb == "initialize") || (e.Asked? && e.verb == "initialized")
  }

  /** A frame of odd shape is the only one under its method, and late enough. */
  ghost predicate Fitting(c: Codec, l: Log, x: nat)
    requires x < |l.toNative| && Odd(l.toNative[x])
  {
    && (forall y | 0 <= y < |l.toNative| && y != x :: !Says(l.toNative[y], l.toNative[x].verb))
    && (l.toNative[x].Asked? ==> Greeted(c, l, x, l.toNative[x].at))
  }

  ghost predicate OddsFit(c: Codec, l: Log) {
    forall x | 0 <= x < |l.toNative| && Odd(l.toNative[x]) :: Fitting(c, l, x)
  }

  // ----- whole runs ----------------------------------------------------------------------------

  lemma SingleExact(l: Log, verb: string)
    requires forall x, y | 0 <= x < y < |l.toNative| && Says(l.toNative[x], verb) && Says(l.toNative[y], verb) ::
               Odd(l.toNative[x]) || Odd(l.toNative[y])
    requires forall x | 0 <= x < |l.toNative| && Odd(l.toNative[x]) && l.toNative[x].verb == verb ::
               forall y | 0 <= y < |l.toNative| && y != x :: !Says(l.toNative[y], verb)
    ensures Single(l, verb)
  {
  }

  lemma OddsFitProper(c: Codec, l: Log)
    requires Discipline(c, l) && OddsFit(c, l)
    ensures Proper(c, l)
  {
    hide Greeted;
    SingleExact(l, "initialize");
    SingleExact(l, "initialized");
    forall x | 0 <= x < |l.toNative| && Says(l.toNative[x], "initialized")
      ensures Greeted(c, l, x, l.toNative[x].at)
    {
      assert IsInitialized(l.toNative[x]) || Fitting(c, l, x);
    }
    forall x | 0 <= x < |l.toNative| && l.toNative[x].Called? ensures Said(l, "initialized", x) {
      var y :| 0 <= y < x <= |l.toNative| && IsInitialized(l.toNative[y]);
      assert Says(l.toNative[y], "initialized");
    }
  }

  lemma ProperOddsFit(c: Codec, l: Log)
    requires Proper(c, l)
    ensures OddsFit(c, l)
  {
    hide Greeted;
    forall x | 0 <= x < |l.toNative| && Odd(l.toNative[x]) ensures Fitting(c, l, x) {
      assert Says(l.toNative[x], l.toNative[x].verb);
    }
  }

  /** In every run: the order holds of frames of either shape exactly when the frames of odd shape kept
      the tests that the broker makes of the other shape only. In particular it holds whenever the TUI
      sends `initialize` as a request and `initialized` as a notification. */
  lemma HandshakeExact(c: Codec, ws: seq<World>, acts: seq<Action>, i: nat)
    requires Lawful(c) && Run(c, ws, acts) && i < |ws|
    ensures Proper(c, ws[i].log) <==> OddsFit(c, ws[i].log)
  {
    RunHandshake(c, ws, acts, i);
    hide Run, Flags, Discipline, Proper, OddsFit;
    if OddsFit(c, ws[i].log) { OddsFitProper(c, ws[i].log); }
    if Proper(c, ws[i].log) { ProperOddsFit(c, ws[i].log); }
  }

  // ----- one frame -----------------------------------------------------------------------------

  /** What the TUI would have to check before sending a frame under this method. */
  ghost predicate InOrder(c: Codec, l: Log, verb: string) {
    && (verb == "initialize" ==> !Said(l, verb, |l.toNative|))
    && (verb == "initialized" ==> !Said(l, verb, |l.toNative|) && Greeted(c, l, |l.toNative|, |l.nativeIn|))
  }

  lemma GreetedPrefix(c: Codec, l: Log, l': Log, a: nat, b: nat)
    requires Grows(l, l') && a <= |l.toNative| && b <= |l.nativeIn|
    ensures Greeted(c, l', a, b) <==> Greeted(c, l, a, b)
  {
    if Greeted(c, l, a, b) { GreetedKept(c, l, l', a, b, a, b); }
    hide Greets;
    if Greeted(c, l', a, b) {
      var x, y :| 0 <= x < a <= |l'.toNative| && 0 <= y < b <= |l'.nativeIn|
                  && IsInitialize(l'.toNative[x]) && Greets(c, l'.nativeIn[y], l'.toNative[x].serial);
      assert l'.toNative[x] == l.toNative[x] && l'.nativeIn[y] == l.nativeIn[y];
    }
  }

  lemma SaidPrefix(l: Log, l': Log, verb: string, a: nat)
    requires Grows(l, l') && a <= |l.toNative|
    ensures Said(l', verb, a) <==> Said(l, verb, a)
  {
    if Said(l, verb, a) {
      var x :| 0 <= x < a <= |l.toNative| && Says(l.toNative[x], verb);
      assert Says(l'.toNative[x], verb);
    }
    if Said(l', verb, a) {
      var x :| 0 <= x < a <= |l'.toNative| && Says(l'.toNative[x], verb);
      assert Says(l.toNative[x], verb);
    }
  }

  lemma SinglePush(l: Log, l': Log, e: ToNative, verb: string)
    requires l'.toNative == l.toNative + [e] && Single(l, verb)
    ensures Single(l', verb) <==> !(Says(e, verb) && Said(l, verb, |l.toNative|))
  {
    assert l'.toNative[|l.toNative|] == e;
    if Says(e, verb) && Said(l, verb, |l.toNative|) {
      var x :| 0 <= x < |l.toNative| && Says(l.toNative[x], verb);
      assert Says(l'.toNative[x], verb);
    }
  }

  /** One entry more. */
  lemma ProperPush(c: Codec, l: Log, l': Log, e: ToNative)
    requires Proper(c, l) && l'.toNative == l.toNative + [e] && l'.nativeIn == l.nativeIn
    requires forall x | 0 <= x < |l.toNative| && (l.toNative[x].Asked? || l.toNative[x].Noted?) :: l.toNative[x].at <= |l.nativeIn|
    requires !e.Called? && (Says(e, "initialized") ==> e.at == |l.nativeIn|)
    ensures Proper(c, l') <==> (Says(e, "initialize") || Says(e, "initialized") ==> InOrder(c, l, e.verb))
  {
    hide Greeted;
    var n := |l.toNative|;
    SinglePush(l, l', e, "initialize");
    SinglePush(l, l', e, "initialized");
    GreetedPrefix(c, l, l', n, |l.nativeIn|);
    forall x | 0 <= x < n && Says(l.toNative[x], "initialized")
      ensures Greeted(c, l', x, l.toNative[x].at)
    {
      GreetedPrefix(c, l, l', x, l.toNative[x].at);
    }
    forall x | 0 <= x < n && l.toNative[x].Called? ensures Said(l', "initialized", x) {
      SaidPrefix(l, l', "initialized", x);
    }
    hide Single, Said;
    assert l'.toNative[n] == e;
  }

  /** In every run, as long as the order has held: a frame of the TUI that is accepted, of whatever
      shape, keeps it exactly when it was in order. */
  lemma FrameExact(c: Codec, ws: seq<World>, acts: seq<Action>, i: nat, f: Frame)
    requires Lawful(c) && Run(c, ws, acts) && i < |ws| && Proper(c, ws[i].log)
    requires Enabled(ws[i], TuiFrame(f)) && FromTui(c, ws[i].mux, f).1.Accepted?
    ensures Proper(c, Next(c, ws[i], TuiFrame(f)).log) <==>
            InOrder(c, ws[i].log, match Method(c, f) case Some(verb) => verb case None => "")
  {
    var w, e := ws[i], TuiEntry(c, ws[i], f);
    RunRouted(c, ws, acts, i);
    NotesAreRead(c, w);
    TuiEntryShape(c, w, f);
    hide Run, FromTui, TuiEntry, Entries, Proper, InOrder, Method, Lawful;
    var w' := OnTuiFrame(c, w, f);
    assert w'.log.toNative == w.log.toNative + [e] && w'.log.nativeIn == w.log.nativeIn;
    ProperPush(c, w.log, w'.log, e);
    EntryVerb(c, w, f);
  }

  lemma EntryVerb(c: Codec, w: World, f: Frame)
    requires FromTui(c, w.mux, f).1.Accepted?
    ensures var e := TuiEntry(c, w, f);
            var verb := match Method(c, f) case Some(verb) => verb case None => "";
            (Says(e, "initialize") <==> verb == "initialize") && (Says(e, "initialized") <==> verb == "initialized")
            && (Says(e, verb) || !(verb == "initialize" || verb == "initialized"))
  {
    TuiEntryShape(c, w, f);
    hide FromTui, BrokerId, WireRaw;
  }

  /** The tests read nothing of the handshake for the two odd shapes: what becomes of such a frame is
      the same in every state of the handshake. */
  lemma OddUntested(c: Codec, m: Mux, f: Frame, seen: bool, ok: bool, done: bool)
    requires (Method(c, f) == Some("initialize") && "id" !in f) || (Method(c, f) == Some("initialized") && "id" in f)
    ensures FromTui(c, m.(initializeSeen := seen, initializeOK := ok, initialized := done), f).1 == FromTui(c, m, f).1
  {
    var m' := m.(initializeSeen := seen, initializeOK := ok, initialized := done);
    if "id" in f { RequestUntested(c, m, f, seen, ok, done); } else { SendUntested(c, m, f, seen, ok, done); }
    hide BrokerId, Send, TuiRequest;
  }

  lemma SendUntested(c: Codec, m: Mux, f: Frame, seen: bool, ok: bool, done: bool)
    ensures Send(c, m.(initializeSeen := seen, initializeOK := ok, initialized := done), f).1 == Send(c, m, f).1
  {
  }

  lemma RequestUntested(c: Codec, m: Mux, f: Frame, seen: bool, ok: bool, done: bool)
    requires "id" in f
    ensures TuiRequest(c, m.(initializeSeen := seen, initializeOK := ok, initialized := done), f, "initialized").1 ==
            TuiRequest(c, m, f, "initialized").1
  {
    hide Send, BrokerId, WireRaw, WireKey;
    var id := BrokerId(c, f["id"]);
    if id.Some? {
      var m1 := Record(Numbered(m, "initialized"), f["id"], id.value, "initialized");
      SendUntested(c, m1, f["id" := WireRaw(c, m.next + 1)], seen, ok, done);
    }
  }

  // ----- two runs ------------------------------------------------------------------------------

  ghost predicate Reachable(c: Codec, w: World) {
    exists ws, acts :: Run(c, ws, acts) && ws[|acts|] == w
  }

  lemma ReachStart(c: Codec, limit: nat)
    ensures Reachable(c, Initial(limit))
  {
    var ws: seq<World>, acts: seq<Action> := [Initial(limit)], [];
    assert Run(c, ws, acts) && ws[|acts|] == Initial(limit);
  }

  lemma Reach(c: Codec, w: World, a: Action)
    requires Reachable(c, w) && Enabled(w, a)
    ensures Reachable(c, Next(c, w, a))
  {
    var ws: seq<World>, acts: seq<Action> :| Run(c, ws, acts) && ws[|acts|] == w;
    hide Next, Enabled;
    var ws', acts' := ws + [Next(c, w, a)], acts + [a];
    forall i | 0 <= i < |acts'| ensures Enabled(ws'[i], acts'[i]) && ws'[i + 1] == Next(c, ws'[i], acts'[i]) {
      if i < |acts| {
        assert ws'[i] == ws[i] && ws'[i + 1] == ws[i + 1] && acts'[i] == acts[i];
      } else {
        assert ws'[i] == ws[|acts|] && acts'[i] == a;
      }
    }
    assert Run(c, ws', acts') && ws'[|acts'|] == Next(c, w, a);
  }

  function Request(c: Codec, id: string, verb: string): Frame {
    map["id" := c.encodeText(id), "method" := c.encodeText(verb)]
  }

  function Notice(c: Codec, verb: string): Frame {
    map["method" := c.encodeText(verb)]
  }

  /** The bytes that a request takes from the budget. */
  function Charge(c: Codec, id: string, verb: string, n: nat): nat {
    |c.encodeText(id)| + |id| + 2 + c.frameSize(Request(c, id, verb)["id" := WireRaw(c, n)])
  }

  /** The section of a request that finds a free identifier and room. */
  lemma Admitted(c: Codec, m: Mux, f: Frame, key: Key, verb: string)
    requires !m.failed && !m.cancelled && verb != "" && "id" in f
    requires Method(c, f) == Some(verb) && BrokerId(c, f["id"]) == Some(key)
    requires key !in m.tuiIDs && |m.calls| + 1 < RouteLimit && |m.nativeOut| + 1 < RouteLimit
    requires verb == "initialize" ==> !m.initializeSeen
    requires c.frameSize(f["id" := WireRaw(c, m.next + 1)]) <= MessageLimit
    requires m.buffered + Held(f["id"], key) + c.frameSize(f["id" := WireRaw(c, m.next + 1)]) <= m.limit
    ensures var (m', v) := FromTui(c, m, f);
            && v.Accepted? && !m'.failed && !m'.cancelled && m'.next == m.next + 1 && m'.limit == m.limit
            && m'.buffered == m.buffered + Held(f["id"], key) + c.frameSize(f["id" := WireRaw(c, m.next + 1)])
            && m'.tuiIDs == m.tuiIDs + {key} && |m'.calls| <= |m.calls| + 1 && |m'.nativeOut| == |m.nativeOut| + 1
  {
    hide BrokerId, WireKey, WireRaw, Method;
  }

  /** A request by which nothing is yet exhausted. */
  lemma Asks(c: Codec, w: World, id: string, verb: string)
    requires Lawful(c) && !w.tuiStopped && !w.mux.failed && !w.mux.cancelled && verb != ""
    requires "s:" + id !in w.mux.tuiIDs && |w.mux.calls| + 1 < RouteLimit && |w.mux.nativeOut| + 1 < RouteLimit
    requires verb == "initialize" ==> !w.mux.initializeSeen
    requires c.frameSize(Request(c, id, verb)["id" := WireRaw(c, w.mux.next + 1)]) <= MessageLimit
    requires w.mux.buffered + Charge(c, id, verb, w.mux.next + 1) <= w.mux.limit
    ensures var w' := Next(c, w, TuiFrame(Request(c, id, verb)));
            && !w'.tuiStopped && !w'.mux.failed && !w'.mux.cancelled
            && w'.mux.next == w.mux.next + 1 && w'.mux.limit == w.mux.limit
            && w'.mux.buffered == w.mux.buffered + Charge(c, id, verb, w.mux.next + 1)
            && w'.mux.tuiIDs == w.mux.tuiIDs + {"s:" + id}
            && |w'.mux.calls| <= |w.mux.calls| + 1 && |w'.mux.nativeOut| == |w.mux.nativeOut| + 1
            && w'.log.nativeIn == w.log.nativeIn
            && w'.log.toNative == w.log.toNative +
                 [Asked(w.mux.next + 1, |w.log.tuiIn|, verb, |w.log.nativeIn|, Request(c, id, verb)["id" := WireRaw(c, w.mux.next + 1)])]
            && w'.log.tuiIn == w.log.tuiIn + [Request(c, id, verb)]
  {
    var f := Request(c, id, verb);
    assert c.decodeText(f["id"]) == Some(id) && c.decodeText(f["method"]) == Some(verb);
    assert BrokerId(c, f["id"]) == Some("s:" + id) && Method(c, f) == Some(verb);
    Admitted(c, w.mux, f, "s:" + id, verb);
    hide Lawful, BrokerId, WireKey, WireRaw, Method, FromTui;
  }

  lemma Notes(c: Codec, w: World, verb: string)
    requires Lawful(c) && !w.tuiStopped && !w.mux.failed && !w.mux.cancelled && verb != "" && verb != "initialized"
    requires |w.mux.nativeOut| < RouteLimit
    requires c.frameSize(Notice(c, verb)) <= MessageLimit && w.mux.buffered + c.frameSize(Notice(c, verb)) <= w.mux.limit
    ensures Next(c, w, TuiFrame(Notice(c, verb))).log.toNative ==
            w.log.toNative + [Noted(|w.log.tuiIn|, verb, |w.log.nativeIn|, Notice(c, verb))]
  {
    var f := Notice(c, verb);
    assert c.decodeText(f["method"]) == Some(verb);
    assert Method(c, f) == Some(verb);
    hide Lawful, Method;
  }

  lemma FirstRequest(c: Codec, limit: nat, id: string, verb: string)
    requires Lawful(c) && verb != "" && Charge(c, id, verb, 1) <= limit
    requires c.frameSize(Request(c, id, verb)["id" := WireRaw(c, 1)]) <= MessageLimit
    ensures var w := Next(c, Initial(limit), TuiFrame(Request(c, id, verb)));
            && Reachable(c, w) && !w.tuiStopped && !w.mux.failed && !w.mux.cancelled
            && w.mux.next == 1 && w.mux.limit == limit && w.mux.buffered == Charge(c, id, verb, 1)
            && w.mux.tuiIDs == {"s:" + id} && |w.mux.calls| <= 1 && |w.mux.nativeOut| == 1 && w.log.nativeIn == []
            && |w.log.toNative| == 1 && Says(w.log.toNative[0], verb)
  {
    Asks(c, Initial(limit), id, verb);
    ReachStart(c, limit);
    hide Lawful, Next, Reachable, Charge, Request, WireRaw;
    Reach(c, Initial(limit), TuiFrame(Request(c, id, verb)));
  }

  lemma TwiceIsImproper(c: Codec, l: Log, verb: string)
    requires verb in {"initialize", "initialized"}
    requires |l.toNative| == 2 && Says(l.toNative[0], verb) && Says(l.toNative[1], verb)
    ensures !Proper(c, l)
  {
    hide Greeted, Said;
  }

  /** A second `initialize` reaches native: a request, then a notification. */
  lemma InitializeTwice(c: Codec, limit: nat, id: string)
    requires Lawful(c)
    requires c.frameSize(Request(c, id, "initialize")["id" := WireRaw(c, 1)]) <= MessageLimit
    requires c.frameSize(Notice(c, "initialize")) <= MessageLimit
    requires Charge(c, id, "initialize", 1) + c.frameSize(Notice(c, "initialize")) <= limit
    ensures exists w :: Reachable(c, w) && !Proper(c, w.log) && |w.log.toNative| == 2
                        && Says(w.log.toNative[0], "initialize") && Says(w.log.toNative[1], "initialize")
  {
    var f, g := TuiFrame(Request(c, id, "initialize")), TuiFrame(Notice(c, "initialize"));
    FirstRequest(c, limit, id, "initialize");
    hide Lawful, Next, Reachable, Charge, Request, Notice, WireRaw, Proper;
    var w1 := Next(c, Initial(limit), f);
    Notes(c, w1, "initialize");
    Reach(c, w1, g);
    TwiceIsImproper(c, Next(c, w1, g).log, "initialize");
  }

  /** Two requests named `initialized` reach native, which nobody has greeted. */
  lemma InitializedUngreeted(c: Codec, limit: nat, a: string, b: string)
    requires Lawful(c) && a != b
    requires c.frameSize(Request(c, a, "initialized")["id" := WireRaw(c, 1)]) <= MessageLimit
    requires c.frameSize(Request(c, b, "initialized")["id" := WireRaw(c, 2)]) <= MessageLimit
    requires Charge(c, a, "initialized", 1) + Charge(c, b, "initialized", 2) <= limit
    ensures exists w :: Reachable(c, w) && !Proper(c, w.log) && |w.log.toNative| == 2 && w.log.nativeIn == []
                        && Says(w.log.toNative[0], "initialized") && Says(w.log.toNative[1], "initialized")
  {
    var f, g := TuiFrame(Request(c, a, "initialized")), TuiFrame(Request(c, b, "initialized"));
    FirstRequest(c, limit, a, "initialized");
    hide Lawful, Next, Reachable, Charge, Request, WireRaw, Proper;
    var w1 := Next(c, Initial(limit), f);
    assert "s:" + b !in w1.mux.tuiIDs by { assert ("s:" + a)[2..] == a && ("s:" + b)[2..] == b; }
    Asks(c, w1, b, "initialized");
    Reach(c, w1, g);
    TwiceIsImproper(c, Next(c, w1, g).log, "initialized");
  }
}
