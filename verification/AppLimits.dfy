/** A run of the native client in which a claimed reply is dropped. */
module AppLimits {
  import opened Prelude
  import opened BrokerIds
  import opened AppClient
  import opened AppRun

  ghost predicate Reachable(j: Json, w: World) {
    exists ws, acts :: Run(j, ws, acts) && ws[|acts|] == w
  }

  lemma ReachStart(j: Json)
    ensures Reachable(j, Initial())
  {
    var ws: seq<World>, acts: seq<Action> := [Initial()], [];
    assert Run(j, ws, acts) && ws[|acts|] == Initial();
  }

  lemma Reach(j: Json, w: World, a: Action)
    requires Reachable(j, w) && Enabled(w, a)
    ensures Reachable(j, Next(j, w, a))
  {
    var ws: seq<World>, acts: seq<Action> :| Run(j, ws, acts) && ws[|acts|] == w;
    hide Next, Enabled;
    var ws', acts' := ws + [Next(j, w, a)], acts + [a];
    forall i | 0 <= i < |acts'| ensures Enabled(ws'[i], acts'[i]) && ws'[i + 1] == Next(j, ws'[i], acts'[i]) {
      if i < |acts| {
        assert ws'[i] == ws[i] && ws'[i + 1] == ws[i + 1] && acts'[i] == acts[i];
      } else {
        assert ws'[i] == ws[|acts|] && acts'[i] == a;
      }
    }
    assert Run(j, ws', acts') && ws'[|acts'|] == Next(j, w, a);
  }

  const Me: Writer := ByCaller(1)

  /** One observed call, in its first write, with its response already claimed and observed. */
  function Answered(f: Incoming): World {
    World(Client(1, map[], false, map[]), Flying(Me), [Write(Me, None, false)], Listening, {},
          map[1 := Caller(Writing, [Settled(0)], true)], map[], [f], {1}, [])
  }

  /** A claimed reply that loses: the response arrives and is observed while the call's own write is still
      in flight, and then the caller is cancelled. The write ends well, but the caller returns its write
      error, with its observer run and its reply on the channel. */
  lemma ClaimedReplyCanLose(j: Json, f: Incoming)
    requires f.verb == "" && !f.refused && f.result != "" && j.number(f.id) == Some(1)
    ensures exists w :: Reachable(j, w) && 1 in w.callers && w.callers[1] == Caller(Returned(WriteError), [Settled(0)], true)
              && w.wire == [Write(Me, Some(true), true)]
  {
    AnsweredIsReachable(j, f);
    hide Reachable;
    var w := Answered(f);
    var w1 := w.(gate := Deserting(Me, None), wire := [Write(Me, None, true)]);
    assert w1 == Next(j, w, Desert);
    Reach(j, w, Desert);
    var w2 := w1.(gate := Deserting(Me, Some(true)), wire := [Write(Me, Some(true), true)]);
    assert w2 == Next(j, w1, Finish(true));
    Reach(j, w1, Finish(true));
    LosesTheGate(j, w2);
  }

  lemma LosesTheGate(j: Json, w2: World)
    requires Reachable(j, w2) && w2.client == Client(1, map[], false, map[]) && w2.failing == {}
    requires w2.gate == Deserting(Me, Some(true)) && w2.callers == map[1 := Caller(Writing, [Settled(0)], true)]
    requires w2.wire == [Write(Me, Some(true), true)]
    ensures exists w :: Reachable(j, w) && 1 in w.callers && w.callers[1] == Caller(Returned(WriteError), [Settled(0)], true)
              && w.wire == [Write(Me, Some(true), true)]
  {
    hide Reachable;
    var failed := Client(1, map[], true, map[]);
    var w3 := w2.(client := failed, gate := Joining(Me, Some(true)));
    assert w3 == Next(j, w2, Advance);
    Reach(j, w2, Advance);
    var w4 := w3.(gate := Leaving(Me, false));
    assert w4 == Next(j, w3, Advance);
    Reach(j, w3, Advance);
    var w5 := w4.(gate := Free, callers := map[1 := Caller(Withdrawing, [Settled(0)], true)]);
    assert w5 == Next(j, w4, Advance);
    Reach(j, w4, Advance);
    Reach(j, w5, Withdraw(1));
    assert Next(j, w5, Withdraw(1)).callers[1] == Caller(Returned(WriteError), [Settled(0)], true);
  }

  lemma AnsweredIsReachable(j: Json, f: Incoming)
    requires f.verb == "" && !f.refused && f.result != "" && j.number(f.id) == Some(1)
    ensures Reachable(j, Answered(f))
  {
    hide Reachable;
    ReachStart(j);
    var open := Client(1, map[1 := Live(true)], false, map[]);
    var called := map[1 := Caller(Writing, [], false)];
    var w1 := Initial().(client := open, callers := called);
    assert w1 == Next(j, Initial(), OpenCall(true));
    Reach(j, Initial(), OpenCall(true));
    var w2 := w1.(gate := Entered(Me));
    assert w2 == Next(j, w1, TakeGate(Me));
    Reach(j, w1, TakeGate(Me));
    var w3 := w2.(gate := Cleared(Me));
    assert w3 == Next(j, w2, Advance);
    Reach(j, w2, Advance);
    var w4 := w3.(gate := Flying(Me), wire := [Write(Me, None, false)]);
    assert w4 == Next(j, w3, Start);
    Reach(j, w3, Start);
    ResponseArrives(j, f, w4);
  }

  lemma ResponseArrives(j: Json, f: Incoming, w4: World)
    requires f.verb == "" && !f.refused && f.result != "" && j.number(f.id) == Some(1) && Reachable(j, w4)
    requires w4 == World(Client(1, map[1 := Live(true)], false, map[]), Flying(Me), [Write(Me, None, false)], Listening, {},
                         map[1 := Caller(Writing, [], false)], map[], [], {}, [])
    ensures Reachable(j, Answered(f))
  {
    hide Reachable;
    var c := w4.client;
    assert Handle(j, c, f) == (Client(1, map[], false, map[]), Claimed(1, true)) by {
      assert c.pending - {1} == map[];
    }
    var w5 := w4.(client := Client(1, map[], false, map[]), incoming := [f], answered := {1}, reader := Settling(1, true));
    assert w5 == Next(j, w4, Arrive(f));
    Reach(j, w4, Arrive(f));
    SettleStep(j, f, w5);
    Reach(j, w5, Settle);
  }

  lemma SettleStep(j: Json, f: Incoming, w: World)
    requires w == Answered(f).(reader := Settling(1, true), callers := map[1 := Caller(Writing, [], false)]) && !f.refused
    ensures Enabled(w, Settle) && Next(j, w, Settle) == Answered(f)
  {
    assert [] + [Settled(0)] == [Settled(0)];
    var x := w.callers[1];
    assert map[1 := x][1 := Caller(Writing, [Settled(0)], true)] == map[1 := Caller(Writing, [Settled(0)], true)];
  }
}
