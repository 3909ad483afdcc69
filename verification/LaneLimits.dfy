/** Two runs of the lane that show where its guarantees end. */
module LaneLimits {
  import opened Prelude
  import opened LaneTurn
  import opened LaneRun

  ghost predicate Reachable(w: World) {
    exists ws, acts :: Runs(ws, acts) && ws[|acts|] == w
  }

  lemma ReachStart(thread: string)
    ensures Reachable(Initial(thread))
  {
    var ws: seq<World>, acts: seq<Action> := [Initial(thread)], [];
    assert Runs(ws, acts) && ws[|acts|] == Initial(thread);
  }

  lemma Reach(w: World, a: Action)
    requires Reachable(w) && Enabled(w, a)
    ensures Reachable(Next(w, a))
  {
    var ws: seq<World>, acts: seq<Action> :| Runs(ws, acts) && ws[|acts|] == w;
    hide Next, Enabled;
    var ws', acts' := ws + [Next(w, a)], acts + [a];
    forall i | 0 <= i < |acts'| ensures Enabled(ws'[i], acts'[i]) && ws'[i + 1] == Next(ws'[i], acts'[i]) {
      if i < |acts| {
        assert ws'[i] == ws[i] && ws'[i + 1] == ws[i + 1] && acts'[i] == acts[i];
      } else {
        assert ws'[i] == ws[|acts|] && acts'[i] == a;
      }
    }
    assert Runs(ws', acts') && ws'[|acts'|] == Next(w, a);
  }

  const Text: Seed := Seed(true, false, 0)

  /** One text run, admitted and waiting on its started turn. */
  function Busy(thread: string): World {
    World(thread, [Turn("a", true, [Good], [], None)], Some(0), false, 2, Some(0),
          [Run(Text, Waiting, Some(0), [], false, "a", true, true, false, false)], [], [0], [Event(thread, "a", false, "")], [0], [])
  }

  const Begun: Run := Run(Text, Checking, None, [], false, "", false, false, false, false)

  /** A text run enters a lane that nobody uses. */
  lemma ReachEntered(w: World)
    requires Reachable(w) && Placed(w) && w.runs == []
    ensures Reachable(w.(runs := [Begun.(phase := Starting)], current := Some(0)))
  {
    hide Reachable;
    var w1 := w.(runs := [Begun]);
    assert w1 == Next(w, Begin(Text));
    Reach(w, Begin(Text));
    var w2 := w.(runs := [Begun.(phase := Entering)]);
    assert w2 == Next(w1, Check(0, true));
    Reach(w1, Check(0, true));
    EnterAlone(w2);
    Reach(w2, Enter(0));
  }

  lemma BusyIsReachable(thread: string)
    requires thread != ""
    ensures Reachable(Busy(thread))
  {
    hide Reachable;
    var called := Begun.(phase := Calling, turn := Some(0), written := true);
    var named := called.(phase := Awaiting, reply := "a");
    ReachStart(thread);
    ReachEntered(Initial(thread));
    var w3 := Initial(thread).(runs := [Begun.(phase := Starting)], current := Some(0));
    var w4 := w3.(runs := [called], turns := [Idle], owners := [0], since := [0], active := Some(0), boundary := 1);
    assert w4 == Next(w3, Start(0));
    Reach(w3, Start(0));
    Reach(w4, StartReply(0, Some("a")));
    var w5 := w4.(runs := [named], turns := [Idle.(id := "a")]);
    assert w5 == Next(w4, StartReply(0, Some("a")));
    BusyTail(thread, w5, named);
  }

  lemma EnterAlone(w: World)
    requires |w.runs| == 1
    ensures OnEnter(w, 0) == w.(current := Some(0), runs := [w.runs[0].(phase := Starting)])
  {
    assert OnEnter(w, 0).runs == [w.runs[0].(phase := Starting)];
  }

  lemma BusyTail(thread: string, w5: World, named: Run)
    requires thread != "" && Reachable(w5)
    requires named == Run(Text, Awaiting, Some(0), [], false, "a", true, false, false, false)
    requires w5 == World(thread, [Turn("a", false, [], [], None)], Some(0), false, 1, Some(0), [named], [], [0], [], [0], [])
    ensures Reachable(Busy(thread))
  {
    hide Reachable;
    var e := Event(thread, "a", false, "");
    var w6 := w5.(turns := [Turn("a", true, [Good], [], None)], boundary := 2, events := [e]);
    StartedNotice(w5, e);
    Reach(w5, Notice(e));
    AdmittedTail(thread, w6, named);
  }

  lemma StartedNotice(w: World, e: Event)
    requires w.active == Some(0) && w.turns == [Turn(e.turn, false, [], [], None)] && !e.completed && w.events == []
    requires e.turn != "" && e.thread != "" && e.thread == w.thread
    ensures Next(w, Notice(e)) == w.(turns := [Turn(e.turn, true, [Good], [], None)], boundary := w.boundary + 1, events := [e])
  {
    assert [] + [Good] == [Good] && [] + [e] == [e];
    assert w.turns[0 := Turn(e.turn, true, [Good], [], None)] == [Turn(e.turn, true, [Good], [], None)];
  }

  lemma AdmittedTail(thread: string, w6: World, named: Run)
    requires Reachable(w6) && named == Run(Text, Awaiting, Some(0), [], false, "a", true, false, false, false)
    requires w6 == World(thread, [Turn("a", true, [Good], [], None)], Some(0), false, 2, Some(0), [named], [], [0],
                         [Event(thread, "a", false, "")], [0], [])
    ensures Reachable(Busy(thread))
  {
    hide Reachable;
    var w7 := w6.(runs := [named.(phase := Admitted)]);
    assert w7 == Next(w6, TakeReady(0));
    Reach(w6, TakeReady(0));
    var w8 := w7.(runs := [named.(phase := Reported)]);
    assert w8 == Next(w7, ReportInjected(0, true));
    Reach(w7, ReportInjected(0, true));
    assert Busy(thread) == Next(w8, FinalCheck(0, true));
    Reach(w8, FinalCheck(0, true));
  }

  /** Sharing the lane does lose an interrupt: a second execution enters while the first waits on its
      started turn, so the first is no longer the current run and its interrupt makes no native call. */
  lemma SharingLosesAnInterrupt(thread: string)
    requires thread != ""
    ensures exists w :: Reachable(w) && |w.interrupts| == 1 && |w.runs| == 2
              && w.interrupts[0] == Missed(0, false) && w.runs[0].phase.Waiting? && !Heeded(w, w.runs[0])
  {
    BusyIsReachable(thread);
    hide Reachable;
    var b := Busy(thread);
    var w1 := b.(runs := [b.runs[0], Begun]);
    assert w1 == Next(b, Begin(Text));
    Reach(b, Begin(Text));
    var w2 := b.(runs := [b.runs[0], Begun.(phase := Entering)]);
    assert w2 == Next(w1, Check(1, true));
    Reach(w1, Check(1, true));
    var w3 := b.(current := Some(1), runs := [b.runs[0].(shared := true), Begun.(phase := Starting, shared := true)]);
    EnterSecond(w2);
    assert w3 == Next(w2, Enter(1));
    Reach(w2, Enter(1));
    LookInVain(w3);
  }

  lemma EnterSecond(w: World)
    requires |w.runs| == 2 && w.runs[0].phase.Waiting?
    ensures OnEnter(w, 1) ==
            w.(current := Some(1), runs := [w.runs[0].(shared := true), w.runs[1].(phase := Starting, shared := true)])
  {
    assert Inside(w.runs[0].phase);
    assert OnEnter(w, 1).runs == [w.runs[0].(shared := true), w.runs[1].(phase := Starting, shared := true)];
  }

  lemma LookInVain(w: World)
    requires Reachable(w) && Placed(w) && |w.runs| == 2 && w.interrupts == [] && w.current == Some(1)
    requires w.runs[0].phase.Waiting? && w.runs[0].passed && !w.runs[0].stopped && w.runs[0].turn == w.active
    ensures exists w' :: Reachable(w') && |w'.interrupts| == 1 && |w'.runs| == 2
              && w'.interrupts[0] == Missed(0, false) && w'.runs[0].phase.Waiting? && !Heeded(w', w'.runs[0])
  {
    Reach(w, Ask(0));
    var w1 := Next(w, Ask(0));
    Reach(w1, Look(0));
    var w2 := Next(w1, Look(0));
    assert w2.interrupts[0] == Missed(0, false);
    assert Reachable(w2) && !Heeded(w2, w2.runs[0]);
  }

  /** A failure before the start is not seen by it: the turn begins in a failed lane, and no later
      failure signals it. */
  lemma FailedLaneStartsUnseen(thread: string)
    requires thread != ""
    ensures exists w :: Reachable(w) && w.failed && w.active == Some(0) && w.turns == [Idle]
              && Applied(w, Fail(View(w))) == w
  {
    ReachStart(thread);
    hide Reachable;
    var w0 := Initial(thread).(failed := true);
    assert w0 == Next(Initial(thread), FailLane);
    Reach(Initial(thread), FailLane);
    ReachEntered(w0);
    var w3 := w0.(runs := [Begun.(phase := Starting)], current := Some(0));
    var w4 := Next(w3, Start(0));
    Reach(w3, Start(0));
    assert w4.turns == [Idle] && w4.active == Some(0);
    assert w4.turns[0 := Idle] == w4.turns;
  }
}
