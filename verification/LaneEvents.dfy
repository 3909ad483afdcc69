/** What the notifications do to the turns of a lane, in every run: a turn begins, ends and fails exactly
    when the events say so. */
module LaneEvents {
  import opened Prelude
  import opened LaneTurn
  import opened LaneRun

  // ----- one step ------------------------------------------------------------------------------

  /** The step is a notification that concerns the turn, which is active. */
  predicate Tells(w: World, a: Action, t: nat) {
    a.Notice? && w.active == Some(t) && t < |w.turns| && Concerns(w.thread, w.turns[t], a.e)
  }

  /** It reports the turn completed. */
  predicate Completes(w: World, a: Action, t: nat) {
    Tells(w, a, t) && a.e.completed
  }

  /** The step is the first failure of the lane. */
  predicate FailsFirst(w: World, a: Action)
    requires Placed(w)
  {
    !w.failed && (a.FailLane? || (a.Notice? && Contradicts(w.thread, View(w).active, a.e)))
  }

  /** The execution behind the turn gives its start up. */
  predicate GivesUp(w: World, a: Action, t: nat) {
    (a.Abandon? || a.CancelStart?) && a.run < |w.runs| && w.runs[a.run].turn == Some(t)
  }

  predicate Has(t: Turn, s: Signal) {
    s in t.ready || s in t.done
  }

  /** What one step does to one turn. */
  ghost predicate Follows(w: World, a: Action, w': World, t: nat)
    requires Placed(w)
  {
    && t < |w.turns| <= |w'.turns|
    && (w'.turns[t].ready == [Good] <==> w.turns[t].ready == [Good] || Tells(w, a, t))
    && (w'.turns[t].done == [Good] <==> w.turns[t].done == [Good] || Completes(w, a, t))
    && (Completes(w, a, t) ==> w'.turns[t].observed == Some(a.e.status) && w'.turns[t].id == a.e.turn)
    && (Has(w'.turns[t], Bad) <==> Has(w.turns[t], Bad) || (FailsFirst(w, a) && w.active == Some(t)))
    && (w'.active == Some(t) <==> w.active == Some(t) && !Completes(w, a, t) && !FailsFirst(w, a) && !GivesUp(w, a, t))
  }

  /** The notification that is heard, before a failure it may ask for. */
  function Heard(w: World, e: Event): World
    requires Placed(w)
  {
    Applied(w, Receive(View(w), e)).(events := w.events + [e])
  }

  lemma HeardIs(w: World, e: Event)
    requires TurnsOk(w)
    ensures Receive(View(w), e).fault == Contradicts(w.thread, View(w).active, e)
    ensures var w1 := Heard(w, e);
            var t := if w.active.Some? then w.active.value else 0;
            if w.active.Some? && Concerns(w.thread, w.turns[t], e) then
              && w1.turns == w.turns[t := w1.turns[t]] && w1.active == (if e.completed then None else w.active)
              && w1.turns[t].ready == [Good] && w1.turns[t].done == (if e.completed then [Good] else [])
              && w1.turns[t].id == e.turn && w1.turns[t].observed == (if e.completed then Some(e.status) else None)
            else w1 == w.(events := w.events + [e], boundary := w1.boundary)
  {
    if w.active.Some? {
      assert Open(w.turns[w.active.value]);
      EventExact(View(w), e);
      hide Receive, Announced, Orderly;
    } else {
      hide Announced, Orderly;
    }
  }

  lemma NoticeFollows(w: World, e: Event, t: nat)
    requires TurnsOk(w) && t < |w.turns|
    ensures Follows(w, Notice(e), OnNotice(w, e), t)
  {
    HeardIs(w, e);
    assert OnNotice(w, e) == if Receive(View(w), e).fault then Applied(Heard(w, e), Fail(View(Heard(w, e)))) else Heard(w, e) by {
      hide Receive, Fail, TurnsOk;
    }
    if Receive(View(w), e).fault {
      hide Receive, Fail, Follows;
      FaultFollows(w, e, Heard(w, e), t);
    } else {
      assert w.active.Some? ==> Open(w.turns[w.active.value]);
      hide Receive, Announced, TurnsOk, OnNotice, Heard, Applied, Follows;
      HeardFollows(w, e, Heard(w, e), t);
    }
  }

  lemma HeardFollows(w: World, e: Event, w1: World, t: nat)
    requires Placed(w) && t < |w.turns| && !Contradicts(w.thread, View(w).active, e)
    requires w.active.Some? ==> Open(w.turns[w.active.value])
    requires if w.active.Some? && Concerns(w.thread, w.turns[w.active.value], e) then
               var a := w.active.value;
               && |w1.turns| == |w.turns| && w1.turns == w.turns[a := w1.turns[a]]
               && w1.active == (if e.completed then None else w.active)
               && w1.turns[a].ready == [Good] && w1.turns[a].done == (if e.completed then [Good] else [])
               && w1.turns[a].id == e.turn && w1.turns[a].observed == (if e.completed then Some(e.status) else None)
             else w1 == w.(events := w.events + [e], boundary := w1.boundary)
    ensures Follows(w, Notice(e), w1, t)
  {
    hide Concerns;
    assert [Good] != [];
  }

  lemma FaultFollows(w: World, e: Event, w1: World, t: nat)
    requires TurnsOk(w) && t < |w.turns| && Contradicts(w.thread, View(w).active, e)
    requires w1 == w.(events := w.events + [e], boundary := w1.boundary)
    ensures Placed(w1) && Follows(w, Notice(e), Applied(w1, Fail(View(w1))), t)
  {
    hide Orderly, Announced, Grown;
    TurnsSame(w, w1);
    FailFollows(w1, t);
    hide TurnsOk, Fail, Applied;
  }

  lemma FailFollows(w: World, t: nat)
    requires TurnsOk(w) && t < |w.turns|
    ensures Follows(w, FailLane, Applied(w, Fail(View(w))), t)
  {
    if w.active.Some? {
      var x := w.turns[w.active.value];
      assert Open(x);
      assert Broken(x).done == (if x.started then [Bad] else []) && Broken(x).ready == (if x.started then [Good] else [Bad]);
      hide Announced, Broken;
    } else {
      hide Orderly, Announced;
    }
  }

  lemma ReplyFollows(w: World, r: nat, reply: Option<string>, t: nat)
    requires TurnsOk(w) && Turned(w, r) && t < |w.turns|
    ensures Follows(w, StartReply(r, reply), OnStartReply(w, r, reply), t)
  {
    hide Orderly, Announced;
  }

  lemma ClearFollows(w: World, a: Action, t: nat)
    requires TurnsOk(w) && Enabled(w, a) && (a.Abandon? || a.CancelStart?) && t < |w.turns|
    ensures Follows(w, a, Next(w, a), t)
  {
    hide Orderly, Announced;
  }

  lemma StartFollows(w: World, r: nat, t: nat)
    requires TurnsOk(w) && At(w, r, Starting) && t < |w.turns|
    ensures Follows(w, Start(r), OnStart(w, r), t)
  {
    hide Orderly, Announced;
  }

  lemma OtherFollows(w: World, a: Action, t: nat)
    requires TurnsOk(w) && Enabled(w, a) && t < |w.turns|
    requires !a.Notice? && !a.FailLane? && !a.StartReply? && !a.Abandon? && !a.CancelStart? && !a.Start?
    ensures Follows(w, a, Next(w, a), t)
  {
    assert Next(w, a).active == w.active && Next(w, a).turns == w.turns by { hide TurnsOk, Own, OnLook, OnStrike; }
    hide TurnsOk, Next;
  }

  lemma StepFollows(w: World, a: Action, t: nat)
    requires TurnsOk(w) && Enabled(w, a) && t < |w.turns|
    ensures Follows(w, a, Next(w, a), t)
  {
    hide TurnsOk, Follows, OnNotice, OnStart, OnStartReply, Receive, Fail, Own;
    match a
    case Notice(e) => NoticeFollows(w, e, t);
    case FailLane => FailFollows(w, t);
    case StartReply(r, reply) => ReplyFollows(w, r, reply, t);
    case Abandon(_) => ClearFollows(w, a, t);
    case CancelStart(_) => ClearFollows(w, a, t);
    case Start(r) => StartFollows(w, r, t);
    case _ => OtherFollows(w, a, t);
  }

  /** A turn that comes into being is idle and active. */
  lemma NewIsIdle(w: World, a: Action)
    requires TurnsOk(w) && Enabled(w, a) && |Next(w, a).turns| != |w.turns|
    ensures Next(w, a).turns == w.turns + [Idle] && Next(w, a).active == Some(|w.turns|)
  {
    hide TurnsOk, Receive, Fail, Own;
  }

  // ----- runs ----------------------------------------------------------------------------------

  ghost predicate Told(ws: seq<World>, acts: seq<Action>, i: nat, t: nat)
    requires i <= |acts| < |ws|
  {
    exists k :: 0 <= k < i && Tells(ws[k], acts[k], t)
  }

  ghost predicate Completed(ws: seq<World>, acts: seq<Action>, i: nat, t: nat)
    requires i <= |acts| < |ws|
  {
    exists k :: 0 <= k < i && Completes(ws[k], acts[k], t)
  }

  predicate FailsOn(w: World, a: Action, t: nat) {
    w.active == Some(t) && t < |w.turns| && FailsFirst(w, a)
  }

  ghost predicate FailedOn(ws: seq<World>, acts: seq<Action>, i: nat, t: nat)
    requires i <= |acts| < |ws|
  {
    exists k :: 0 <= k < i && FailsOn(ws[k], acts[k], t)
  }

  ghost predicate GivenUp(ws: seq<World>, acts: seq<Action>, i: nat, t: nat)
    requires i <= |acts| < |ws|
  {
    exists k :: 0 <= k < i && GivesUp(ws[k], acts[k], t)
  }

  ghost predicate Mirrors(ws: seq<World>, acts: seq<Action>, i: nat, t: nat)
    requires i <= |acts| < |ws| && t < |ws[i].turns|
  {
    var x := ws[i].turns[t];
    && (x.ready == [Good] <==> Told(ws, acts, i, t))
    && (x.done == [Good] <==> Completed(ws, acts, i, t))
    && (Has(x, Bad) <==> FailedOn(ws, acts, i, t))
    && (ws[i].active == Some(t) <==> !Completed(ws, acts, i, t) && !FailedOn(ws, acts, i, t) && !GivenUp(ws, acts, i, t))
    && forall k | 0 <= k < i && Completes(ws[k], acts[k], t) :: x.observed == Some(acts[k].e.status) && x.id == acts[k].e.turn
  }

  lemma PastGrows(ws: seq<World>, acts: seq<Action>, i: nat, t: nat)
    requires i < |acts| < |ws|
    ensures Told(ws, acts, i + 1, t) <==> Told(ws, acts, i, t) || Tells(ws[i], acts[i], t)
    ensures Completed(ws, acts, i + 1, t) <==> Completed(ws, acts, i, t) || Completes(ws[i], acts[i], t)
    ensures FailedOn(ws, acts, i + 1, t) <==> FailedOn(ws, acts, i, t) || FailsOn(ws[i], acts[i], t)
    ensures GivenUp(ws, acts, i + 1, t) <==> GivenUp(ws, acts, i, t) || GivesUp(ws[i], acts[i], t)
  {
    hide Tells, FailsOn, GivesUp, Completes;
  }

  lemma RunsStart(ws: seq<World>, acts: seq<Action>)
    requires Runs(ws, acts)
    ensures |ws| == |acts| + 1 && ws[0] == Initial(ws[0].thread)
  {
    hide Next, Enabled;
  }

  lemma RunsStep(ws: seq<World>, acts: seq<Action>, i: nat)
    requires Runs(ws, acts) && i < |acts|
    ensures |ws| == |acts| + 1 && Enabled(ws[i], acts[i]) && ws[i + 1] == Next(ws[i], acts[i])
    ensures TurnsOk(ws[i]) && TurnsOk(ws[i + 1]) && RunsOk(ws[i]) && Grown(ws[i], ws[i + 1])
  {
    LaneRun.RunSound(ws, acts, i);
    LaneRun.RunSound(ws, acts, i + 1);
    hide Next, Enabled, TurnsOk, RunsOk, CurrentOk, InterruptsOk, Grown;
    RunGrown(ws, acts, i);
  }

  /** Before a turn came into being, nothing concerned it. */
  lemma {:induction false} NoPast(ws: seq<World>, acts: seq<Action>, i: nat, t: nat)
    requires Runs(ws, acts) && i <= |acts| && |ws[i].turns| <= t
    ensures !Told(ws, acts, i, t) && !Completed(ws, acts, i, t) && !FailedOn(ws, acts, i, t) && !GivenUp(ws, acts, i, t)
  {
    hide Runs, Next, Enabled, TurnsOk;
    RunsStart(ws, acts);
    if i > 0 {
      RunsStep(ws, acts, i - 1);
      NoPast(ws, acts, i - 1, t);
      PastGrows(ws, acts, i - 1, t);
      if GivesUp(ws[i - 1], acts[i - 1], t) { GivesUpOwn(ws[i - 1], acts[i - 1], t); }
      assert |ws[i - 1].turns| <= |ws[i].turns|;
      hide Grown, FailsFirst, Concerns, GivesUp, Told, Completed, FailedOn, GivenUp;
    }
  }

  lemma GivesUpOwn(w: World, a: Action, t: nat)
    requires TurnsOk(w) && GivesUp(w, a, t)
    ensures t < |w.turns|
  {
  }

  lemma StepMirrors(ws: seq<World>, acts: seq<Action>, i: nat, t: nat)
    requires Runs(ws, acts) && i < |acts| && t < |ws[i].turns| && Mirrors(ws, acts, i, t)
    requires TurnsOk(ws[i]) && TurnsOk(ws[i + 1]) && Grown(ws[i], ws[i + 1])
    ensures t < |ws[i + 1].turns| && Mirrors(ws, acts, i + 1, t)
  {
    var w, a, w' := ws[i], acts[i], ws[i + 1];
    assert Enabled(w, a) && w' == Next(w, a);
    hide Runs, Next;
    StepFollows(w, a, t);
    PastGrows(ws, acts, i, t);
    assert Extends(w'.turns[t], w.turns[t]);
    assert FailsOn(w, a, t) == (FailsFirst(w, a) && w.active == Some(t));
    assert w.turns[t].done == [Good] ==> w.turns[t].observed.Some? && w.turns[t].id != "";
    hide TurnsOk, Grown, Told, FailedOn, GivenUp, GivesUp, FailsFirst, FailsOn, Tells, Has, Enabled, Extends;
    forall k | 0 <= k < i + 1 && Completes(ws[k], acts[k], t)
      ensures w'.turns[t].observed == Some(acts[k].e.status) && w'.turns[t].id == acts[k].e.turn
    {
      if k < i {
        assert Completed(ws, acts, i, t);
        assert w.turns[t].done == [Good];
        StepKept(ws, acts, i, t);
      }
    }
    hide Completed;
  }

  lemma {:induction false} RunMirrors(ws: seq<World>, acts: seq<Action>, i: nat, t: nat)
    requires Runs(ws, acts) && i <= |acts| && t < |ws[i].turns|
    ensures Mirrors(ws, acts, i, t)
  {
    hide Runs, Next, Enabled, TurnsOk;
    RunsStart(ws, acts);
    if i > 0 {
      RunsStep(ws, acts, i - 1);
      hide Mirrors, Grown;
      if t < |ws[i - 1].turns| {
        RunMirrors(ws, acts, i - 1, t);
        StepMirrors(ws, acts, i - 1, t);
      } else {
        NewIsIdle(ws[i - 1], acts[i - 1]);
        BornMirrors(ws, acts, i - 1, t);
      }
    }
  }

  lemma BornMirrors(ws: seq<World>, acts: seq<Action>, i: nat, t: nat)
    requires Runs(ws, acts) && i < |acts| && t == |ws[i].turns|
    requires ws[i + 1].turns == ws[i].turns + [Idle] && ws[i + 1].active == Some(t)
    ensures Mirrors(ws, acts, i + 1, t)
  {
    NoPast(ws, acts, i, t);
    PastGrows(ws, acts, i, t);
    LaneRun.RunSound(ws, acts, i);
    if GivesUp(ws[i], acts[i], t) { GivesUpOwn(ws[i], acts[i], t); }
    hide Runs, TurnsOk, RunsOk, CurrentOk, InterruptsOk, Told, FailedOn, GivenUp, GivesUp, FailsFirst;
    assert !Completed(ws, acts, i + 1, t);
  }

  /** The turns do what the notifications say, and nothing else. In every run a turn is ready exactly when
      a notification of its thread that named it arrived while it was active; it is done exactly when such
      a notification reported it completed, and then it holds the status that was reported; it is told of
      a failure exactly when it was active at the first failure of the lane; and it is active exactly until
      it completes, or the lane fails, or its own execution gives its start up. */
  lemma TurnsFollowEvents(ws: seq<World>, acts: seq<Action>, i: nat, t: nat)
    requires Runs(ws, acts) && i <= |acts| && t < |ws[i].turns|
    ensures var x := ws[i].turns[t];
            && (x.ready == [Good] <==> Told(ws, acts, i, t))
            && (x.done == [Good] <==> Completed(ws, acts, i, t))
            && (x.observed.Some? <==> Completed(ws, acts, i, t))
            && (Has(x, Bad) <==> FailedOn(ws, acts, i, t))
            && (ws[i].active == Some(t) <==> !Completed(ws, acts, i, t) && !FailedOn(ws, acts, i, t) && !GivenUp(ws, acts, i, t))
    ensures forall k | 0 <= k < i && Completes(ws[k], acts[k], t) ::
              ws[i].turns[t].observed == Some(acts[k].e.status) && ws[i].turns[t].id == acts[k].e.turn
  {
    RunMirrors(ws, acts, i, t);
    LaneRun.RunSound(ws, acts, i);
    assert Orderly(ws[i].turns[t]);
    hide Runs, TurnsOk, RunsOk, CurrentOk, InterruptsOk, Told, Completed, FailedOn, GivenUp, Has;
  }

  // ----- the lane itself -----------------------------------------------------------------------

  /** The step fails the lane if it has not failed before. */
  predicate Fails(w: World, a: Action) {
    a.FailLane? || (a.Notice? && Placed(w) && Contradicts(w.thread, View(w).active, a.e))
  }

  /** A well-formed notification of the lane's own thread. */
  predicate OwnNotice(thread: string, e: Event) {
    e.thread != "" && e.turn != "" && e.thread == thread
  }

  function OwnCount(thread: string, es: seq<Event>): nat {
    if es == [] then 0 else OwnCount(thread, es[..|es| - 1]) + if OwnNotice(thread, es[|es| - 1]) then 1 else 0
  }

  ghost predicate Hit(ws: seq<World>, acts: seq<Action>, i: nat)
    requires i <= |acts| < |ws|
  {
    exists k :: 0 <= k < i && Fails(ws[k], acts[k])
  }

  lemma StepLane(w: World, a: Action)
    requires TurnsOk(w) && Enabled(w, a)
    ensures var w' := Next(w, a);
            && (w'.failed <==> w.failed || Fails(w, a))
            && w'.thread == w.thread
            && w'.events == w.events + (if a.Notice? then [a.e] else [])
            && w'.boundary + |w.turns| == w.boundary + |w'.turns| + (if a.Notice? && OwnNotice(w.thread, a.e) then 1 else 0)
  {
    match a
    case Notice(e) =>
      HeardLane(w, e);
      hide TurnsOk, Heard, OnNotice;
    case _ => hide TurnsOk, OnNotice, Own;
  }

  lemma HeardLane(w: World, e: Event)
    requires TurnsOk(w)
    ensures var w' := OnNotice(w, e);
            && (w'.failed <==> w.failed || Contradicts(w.thread, View(w).active, e))
            && w'.thread == w.thread && w'.events == w.events + [e] && |w'.turns| == |w.turns|
            && w'.boundary == w.boundary + (if OwnNotice(w.thread, e) then 1 else 0)
  {
    HeardIs(w, e);
    HeardBoundary(w, e);
    assert Placed(w) && Placed(Heard(w, e));
    hide TurnsOk, Receive, Heard;
  }

  lemma HeardBoundary(w: World, e: Event)
    requires Placed(w)
    ensures var w1 := Heard(w, e);
            && OnNotice(w, e) == (if Receive(View(w), e).fault then Applied(w1, Fail(View(w1))) else w1)
            && w1.failed == w.failed && w1.thread == w.thread && w1.events == w.events + [e] && |w1.turns| == |w.turns|
            && w1.boundary == w.boundary + (if OwnNotice(w.thread, e) then 1 else 0)
  {
    hide Fail;
  }

  lemma {:induction false} FailureFollowsEvents(ws: seq<World>, acts: seq<Action>, i: nat)
    requires Runs(ws, acts) && i <= |acts|
    ensures ws[i].failed <==> Hit(ws, acts, i)
  {
    hide Runs, Next, Enabled, TurnsOk, Fails;
    RunsStart(ws, acts);
    if i > 0 {
      RunsStep(ws, acts, i - 1);
      StepLane(ws[i - 1], acts[i - 1]);
      HitGrows(ws, acts, i - 1);
      hide Hit, Grown, RunsOk;
      FailureFollowsEvents(ws, acts, i - 1);
    }
  }

  lemma CountGrows(thread: string, es: seq<Event>, e: Event)
    ensures OwnCount(thread, es + [e]) == OwnCount(thread, es) + if OwnNotice(thread, e) then 1 else 0
    ensures es + [] == es
  {
    assert (es + [e])[..|es|] == es;
    hide OwnNotice;
  }

  lemma {:induction false} BoundaryFollowsEvents(ws: seq<World>, acts: seq<Action>, i: nat)
    requires Runs(ws, acts) && i <= |acts|
    ensures ws[i].thread == ws[0].thread && ws[i].boundary == |ws[i].turns| + OwnCount(ws[0].thread, ws[i].events)
  {
    hide Runs, Next, Enabled, TurnsOk, Fails;
    RunsStart(ws, acts);
    if i > 0 {
      RunsStep(ws, acts, i - 1);
      StepLane(ws[i - 1], acts[i - 1]);
      hide Grown, RunsOk, OwnNotice, OwnCount;
      BoundaryFollowsEvents(ws, acts, i - 1);
      var e := if acts[i - 1].Notice? then acts[i - 1].e else Event("", "", false, "");
      CountGrows(ws[0].thread, ws[i - 1].events, e);
    }
  }

  /** In every run the lane has failed exactly when it was failed from outside or heard a notification it
      has to fail on, and its boundary counts the starts and the notifications of its own thread. */
  lemma LaneFollowsEvents(ws: seq<World>, acts: seq<Action>, i: nat)
    requires Runs(ws, acts) && i <= |acts|
    ensures ws[i].failed <==> Hit(ws, acts, i)
    ensures ws[i].boundary == |ws[i].turns| + OwnCount(ws[0].thread, ws[i].events)
  {
    FailureFollowsEvents(ws, acts, i);
    BoundaryFollowsEvents(ws, acts, i);
    hide Runs, Hit, OwnCount;
  }

  lemma HitGrows(ws: seq<World>, acts: seq<Action>, i: nat)
    requires i < |acts| < |ws|
    ensures Hit(ws, acts, i + 1) <==> Hit(ws, acts, i) || Fails(ws[i], acts[i])
  {
    hide Fails;
  }
}
