/** What the steps of a lane lead to: the exact receipts of the executions, who the lane's current run is,
    and executions, interrupts and deliveries that go through. */
module LaneProgress {
  import opened Prelude
  import opened LaneTurn
  import opened LaneSteer
  import opened LaneRun
  import opened LaneEvents

  // ----- receipts ------------------------------------------------------------------------------

  /** The execution is refused before it enters the lane: not exactly one of text and delivery, or its
      context or rendering failed, or it was interrupted. */
  predicate Refuses(w: World, a: Action, r: nat) {
    && a.Check? && a.run == r && r < |w.runs|
    && (w.runs[r].seed.text == w.runs[r].seed.delivery || !a.fine || w.runs[r].asked)
  }

  /** The execution finds its turn ready. */
  predicate Takes(w: World, a: Action, r: nat) {
    && a == TakeReady(r) && r < |w.runs| && w.runs[r].turn.Some? && w.runs[r].turn.value < |w.turns|
    && w.turns[w.runs[r].turn.value].ready != [] && w.turns[w.runs[r].turn.value].ready[0] == Good
  }

  /** It starts its turn: the lane is idle. */
  predicate Launches(w: World, a: Action, r: nat) {
    a == Start(r) && w.active.None?
  }

  ghost predicate Refused(ws: seq<World>, acts: seq<Action>, i: nat, r: nat)
    requires i <= |acts| < |ws|
  {
    exists k :: 0 <= k < i && Refuses(ws[k], acts[k], r)
  }

  ghost predicate Took(ws: seq<World>, acts: seq<Action>, i: nat, r: nat)
    requires i <= |acts| < |ws|
  {
    exists k :: 0 <= k < i && Takes(ws[k], acts[k], r)
  }

  ghost predicate Launched(ws: seq<World>, acts: seq<Action>, i: nat, r: nat)
    requires i <= |acts| < |ws|
  {
    exists k :: 0 <= k < i && Launches(ws[k], acts[k], r)
  }

  /** The receipt that is due. */
  function Due(refused: bool, took: bool): Receipt {
    if refused then Rejected else if took then Injected else Uncertain
  }

  predicate FileOk(x: Run, refused: bool, took: bool, launched: bool) {
    && (x.written <==> launched)
    && match x.phase
       case Checking => !refused && !took && !launched
       case Entering => !refused && !took && !launched
       case Starting => !refused && !took && !launched
       case Admitted => took && !refused && x.receipts == []
       case Reported => took && !refused && x.receipts == if x.seed.delivery then [Injected] else []
       case Waiting => took && !refused && x.receipts == if x.seed.delivery then [Injected] else []
       case Returned => !(refused && took) && x.receipts == if x.seed.delivery then [Due(refused, took)] else []
       case _ => !refused && !took
  }

  lemma StepFile(w: World, a: Action, r: nat, refused: bool, took: bool, launched: bool)
    requires TurnsOk(w) && RunsOk(w) && Enabled(w, a) && r < |w.runs| && FileOk(w.runs[r], refused, took, launched)
    ensures r < |Next(w, a).runs|
    ensures FileOk(Next(w, a).runs[r], refused || Refuses(w, a, r), took || Takes(w, a, r), launched || Launches(w, a, r))
  {
    assert RunOk(w, w.runs[r]);
    hide Next, TurnsOk, RunsOk, RunOk, FileOk;
    if IsIdle(a) {
      IdleRuns(w, a);
      IdleFile(w.runs[r], Next(w, a).runs[r], refused, took, launched);
    } else {
      if a.Start? && a.run == r { StartingHasNone(w, r); }
      BusyFile(w, a, r, refused, took, launched);
    }
  }

  lemma IdleFile(x: Run, x': Run, refused: bool, took: bool, launched: bool)
    requires FileOk(x, refused, took, launched) && x' == x.(asked := x'.asked)
    ensures FileOk(x', refused, took, launched)
  {
  }

  lemma StartingHasNone(w: World, r: nat)
    requires r < |w.runs| && RunOk(w, w.runs[r]) && w.runs[r].phase.Starting?
    ensures w.runs[r].turn.None?
  {
    hide Agreed, Replied;
  }

  lemma BusyFile(w: World, a: Action, r: nat, refused: bool, took: bool, launched: bool)
    requires Enabled(w, a) && !IsIdle(a) && r < |w.runs| && FileOk(w.runs[r], refused, took, launched) && RunOk(w, w.runs[r])
    requires a.Start? && a.run == r ==> w.runs[r].turn.None?
    ensures r < |Next(w, a).runs|
    ensures FileOk(Next(w, a).runs[r], refused || Refuses(w, a, r), took || Takes(w, a, r), launched || Launches(w, a, r))
  {
    if a.Enter? {
      EnterFile(w, a.run, r, refused, took, launched);
    } else if a.Begin? {
      assert Next(w, a).runs[r] == w.runs[r];
    } else if a.run != r {
      OthersKept(w, a, r);
      hide Next, FileOk;
    } else if IsOwn(a) {
      OwnFile(w, a, r, refused, took, launched);
      hide Next;
    } else {
      LaneFile(w, a, r, refused, took, launched);
      hide Next;
    }
    hide FileOk, RunOk, Enabled;
  }

  lemma EnterFile(w: World, e: nat, r: nat, refused: bool, took: bool, launched: bool)
    requires At(w, e, Entering) && r < |w.runs| && FileOk(w.runs[r], refused, took, launched)
    ensures r < |OnEnter(w, e).runs| && FileOk(OnEnter(w, e).runs[r], refused, took, launched)
  {
  }

  lemma OthersKept(w: World, a: Action, r: nat)
    requires Enabled(w, a) && !IsIdle(a) && !a.Enter? && !a.Begin? && a.run != r && r < |w.runs|
    ensures r < |Next(w, a).runs| && Next(w, a).runs[r] == w.runs[r]
    ensures !Refuses(w, a, r) && !Takes(w, a, r) && !Launches(w, a, r)
  {
    hide Own, Named;
  }

  lemma OwnFile(w: World, a: Action, r: nat, refused: bool, took: bool, launched: bool)
    requires Enabled(w, a) && IsOwn(a) && a.run == r && FileOk(w.runs[r], refused, took, launched) && RunOk(w, w.runs[r])
    ensures r < |Next(w, a).runs|
    ensures FileOk(Next(w, a).runs[r], refused || Refuses(w, a, r), took || Takes(w, a, r), launched || Launches(w, a, r))
  {
    assert Next(w, a) == Put(w, r, Own(w.runs[r], a)) by { hide Own; }
    hide Next, Agreed, Replied;
  }

  lemma LaneFile(w: World, a: Action, r: nat, refused: bool, took: bool, launched: bool)
    requires Enabled(w, a) && (a.Start? || a.StartReply? || a.Abandon? || a.TakeReady? || a.CancelStart?) && a.run == r
    requires FileOk(w.runs[r], refused, took, launched) && RunOk(w, w.runs[r])
    ensures r < |Next(w, a).runs|
    ensures FileOk(Next(w, a).runs[r], refused || Refuses(w, a, r), took || Takes(w, a, r), launched || Launches(w, a, r))
  {
    hide Agreed, Replied, Named;
  }

  lemma FilesGrow(ws: seq<World>, acts: seq<Action>, i: nat, r: nat)
    requires i < |acts| < |ws|
    ensures Refused(ws, acts, i + 1, r) <==> Refused(ws, acts, i, r) || Refuses(ws[i], acts[i], r)
    ensures Took(ws, acts, i + 1, r) <==> Took(ws, acts, i, r) || Takes(ws[i], acts[i], r)
    ensures Launched(ws, acts, i + 1, r) <==> Launched(ws, acts, i, r) || Launches(ws[i], acts[i], r)
  {
    hide Refuses, Takes, Launches;
  }

  ghost predicate Filed(ws: seq<World>, acts: seq<Action>, i: nat, r: nat)
    requires i <= |acts| < |ws|
  {
    if r < |ws[i].runs| then FileOk(ws[i].runs[r], Refused(ws, acts, i, r), Took(ws, acts, i, r), Launched(ws, acts, i, r))
    else !Refused(ws, acts, i, r) && !Took(ws, acts, i, r) && !Launched(ws, acts, i, r)
  }

  lemma NewFile(w: World, a: Action, r: nat)
    requires Enabled(w, a) && |w.runs| <= r
    ensures !Refuses(w, a, r) && !Takes(w, a, r) && !Launches(w, a, r)
    ensures r < |Next(w, a).runs| ==> FileOk(Next(w, a).runs[r], false, false, false)
  {
    hide Own, Receive, Fail, Named;
  }

  lemma StepFiled(ws: seq<World>, acts: seq<Action>, i: nat, r: nat)
    requires Runs(ws, acts) && i < |acts| < |ws| && Filed(ws, acts, i, r)
    ensures Filed(ws, acts, i + 1, r)
  {
    hide Runs, Next, Enabled, TurnsOk, RunsOk, Grown, FileOk, Refused, Took, Launched, Refuses, Takes, Launches;
    RunsStep(ws, acts, i);
    FilesGrow(ws, acts, i, r);
    if r < |ws[i].runs| {
      StepFile(ws[i], acts[i], r, Refused(ws, acts, i, r), Took(ws, acts, i, r), Launched(ws, acts, i, r));
    } else {
      NewFile(ws[i], acts[i], r);
    }
  }

  lemma {:induction false} RunFiled(ws: seq<World>, acts: seq<Action>, i: nat, r: nat)
    requires Runs(ws, acts) && i <= |acts| < |ws|
    ensures Filed(ws, acts, i, r)
  {
    hide Runs, Next, Enabled, FileOk;
    RunsStart(ws, acts);
    if i > 0 {
      hide Filed;
      RunFiled(ws, acts, i - 1, r);
      StepFiled(ws, acts, i - 1, r);
    }
  }

  /** The receipts, exactly: in every run an execution of a delivery that has returned has reported rejected
      if it was refused at the start, injected if it found its turn ready, and otherwise that it does not
      know; and its start was written exactly when it found the lane idle. */
  lemma ReceiptsAreExact(ws: seq<World>, acts: seq<Action>, i: nat, r: nat)
    requires Runs(ws, acts) && i <= |acts| < |ws| && r < |ws[i].runs|
    ensures var x := ws[i].runs[r];
            && (x.phase.Returned? ==>
                  x.receipts == if !x.seed.delivery then []
                                else if Refused(ws, acts, i, r) then [Rejected]
                                else if Took(ws, acts, i, r) then [Injected] else [Uncertain])
            && (x.written <==> Launched(ws, acts, i, r))
  {
    RunFiled(ws, acts, i, r);
    hide Runs, Refused, Took, Launched;
  }

  // ----- the current run -----------------------------------------------------------------------

  /** The step takes the lane's current run away from `r`: another enters, or it retires. */
  predicate Replaces(a: Action, r: nat) {
    (a.Enter? && a.run != r) || a == Retire(r)
  }

  ghost predicate EnteredLast(acts: seq<Action>, i: nat, r: nat)
    requires i <= |acts|
  {
    exists k :: 0 <= k < i && acts[k] == Enter(r) && forall x | k < x < i :: !Replaces(acts[x], r)
  }

  lemma EnteredGrows(acts: seq<Action>, i: nat, r: nat)
    requires i < |acts|
    ensures EnteredLast(acts, i + 1, r) <==> acts[i] == Enter(r) || (EnteredLast(acts, i, r) && !Replaces(acts[i], r))
  {
  }

  lemma StepCurrently(w: World, a: Action, r: nat)
    requires Enabled(w, a)
    ensures Next(w, a).current == Some(r) <==> a == Enter(r) || (w.current == Some(r) && !Replaces(a, r))
  {
    hide Receive, Fail, Own, OnLook, OnStrike, OnFirstLook, OnSecondLook;
  }

  /** In every run the lane's current run is the one that entered last and has not retired. */
  lemma {:induction false} CurrentIsLast(ws: seq<World>, acts: seq<Action>, i: nat, r: nat)
    requires Runs(ws, acts) && i <= |acts| < |ws|
    ensures ws[i].current == Some(r) <==> EnteredLast(acts, i, r)
  {
    hide Runs, Next, Enabled;
    RunsStart(ws, acts);
    if i > 0 {
      hide EnteredLast, Replaces, TurnsOk, RunsOk, Grown;
      CurrentIsLast(ws, acts, i - 1, r);
      RunsStep(ws, acts, i - 1);
      EnteredGrows(acts, i - 1, r);
      StepCurrently(ws[i - 1], acts[i - 1], r);
    }
  }

  // ----- interrupts and deliveries that go through ---------------------------------------------

  /** After its report an admitted execution looks at the interrupt flag: it goes on to look exactly when the
      report was taken or there was none to make; it calls the native interrupt exactly when the flag is set;
      and it ends at once exactly when that call fails. */
  lemma AdmittedGoesOn(w: World, r: nat, fine: bool)
    requires Placed(w) && r < |w.runs|
    ensures w.runs[r].phase.Admitted? ==>
              (Next(w, ReportInjected(r, fine)).runs[r].phase == if fine || !w.runs[r].seed.delivery then Reported else Returned)
    ensures w.runs[r].phase.Reported? ==>
              var x := Next(w, FinalCheck(r, fine)).runs[r];
              x.passed && x.stopped == w.runs[r].asked && x.phase == if w.runs[r].asked && !fine then Returned else Waiting
  {
  }

  /** An interrupt of the lane's current run while its turn is running calls native for that turn, and one of
      any other run, or of an idle lane, does not. */
  lemma InterruptGoesThrough(w: World, k: nat)
    requires Placed(w) && k < |w.interrupts| && w.interrupts[k].Asked? && w.interrupts[k].run < |w.runs|
    ensures var r := w.interrupts[k].run;
            var w1 := Next(w, Look(k));
            if w.current == Some(r) && w.active.Some? then
              && w1.interrupts == w.interrupts[k := Seen(r, w.active.value)] && Enabled(w1, Strike(k))
              && (w.turns[w.active.value].started ==> Next(w1, Strike(k)).interrupts == w.interrupts[k := Called(r, w.active.value)])
              && (!w.turns[w.active.value].started ==> Next(w1, Strike(k)).interrupts[k].Missed?)
            else w1.interrupts == w.interrupts[k := Missed(r, w.runs[r].phase.Returned?)]
  {
  }

  /** A delivery into a lane whose turn is running is sent to native for that turn, and what native answers is
      what it reports. */
  lemma DeliveryGoesThrough(w: World, m: nat, reply: Reply, submitted: bool)
    requires TurnsOk(w) && w.active.Some? && w.turns[w.active.value].started
    requires NativeMay(w.turns[w.active.value].id, reply, submitted)
    ensures var d, id := |w.deliveries|, w.turns[w.active.value].id;
            var w1 := Next(w, Offer(m));
            && Enabled(w1, FirstLook(d))
            && var w2 := Next(w1, FirstLook(d));
               && Enabled(w2, SecondLook(d))
               && var w3 := Next(w2, SecondLook(d));
                  && Enabled(w3, NativeAnswers(d, reply, submitted))
                  && var w4 := Next(w3, NativeAnswers(d, reply, submitted));
                     && Enabled(w4, Conclude(d))
                     && Next(w4, Conclude(d)).deliveries ==
                        w.deliveries + [Delivery(m, Concluded(if reply == Steered(id) then Delivered
                                                              else if DefinitelyNotSubmitted(reply, id) then NotRunning
                                                              else Unknown),
                                                 w.active.value, id, Some(id), Some(reply), submitted)]
  {
    var d, t, id := |w.deliveries|, w.active.value, w.turns[w.active.value].id;
    assert id != "" && Placed(w);
    hide TurnsOk, DefinitelyNotSubmitted, Next, NativeMay;
    var x := Delivery(m, Offered, 0, "", None, None, false);
    var x2 := x.(stage := Found, turn := t, seen := id);
    var x3 := x2.(stage := Steering, sent := Some(id));
    var x4 := x3.(stage := Judging, reply := Some(reply), submitted := submitted);
    OfferStep(w, m);
    LooksStep(w, With(w, x), x);
    LooksStep(w, With(w, x2), x2);
    AnswerStep(w, x3, reply, submitted);
    AnswerStep(w, x4, reply, submitted);
  }

  /** The lane with one more delivery. */
  function With(w: World, x: Delivery): World {
    w.(deliveries := w.deliveries + [x])
  }

  lemma OfferStep(w: World, m: nat)
    requires Placed(w)
    ensures Next(w, Offer(m)) == With(w, Delivery(m, Offered, 0, "", None, None, false))
  {
  }

  lemma LooksStep(w: World, w1: World, x: Delivery)
    requires Placed(w) && w1 == With(w, x) && w.active.Some? && w.turns[w.active.value].started && w.turns[w.active.value].id != ""
    ensures var d, id := |w.deliveries|, w.turns[w.active.value].id;
            && (x.stage == Offered ==>
                  Enabled(w1, FirstLook(d)) && Next(w1, FirstLook(d)) == With(w, x.(stage := Found, turn := w.active.value, seen := id)))
            && (x.stage == Found && x.turn == w.active.value ==>
                  Enabled(w1, SecondLook(d)) && Next(w1, SecondLook(d)) == With(w, x.(stage := Steering, sent := Some(id))))
  {
    assert forall y: Delivery :: w1.deliveries[|w.deliveries| := y] == w.deliveries + [y];
  }

  lemma AnswerStep(w: World, x: Delivery, reply: Reply, submitted: bool)
    requires Placed(w)
    ensures var d, w1 := |w.deliveries|, With(w, x);
            && (x.stage == Steering && x.sent.Some? && NativeMay(x.sent.value, reply, submitted) ==>
                  && Enabled(w1, NativeAnswers(d, reply, submitted))
                  && Next(w1, NativeAnswers(d, reply, submitted)) == With(w, x.(stage := Judging, reply := Some(reply), submitted := submitted)))
            && (x.stage == Judging && x.reply.Some? ==>
                  Enabled(w1, Conclude(d)) && Next(w1, Conclude(d)) == With(w, x.(stage := Concluded(Verdict(x)))))
  {
    hide NativeMay, Verdict;
    assert forall y: Delivery :: With(w, x).deliveries[|w.deliveries| := y] == w.deliveries + [y];
  }

  /** One that is given up before it looks, or finds nothing to steer, is over at once. */
  lemma DeliveryStops(w: World, m: nat)
    requires Placed(w)
    ensures var d := |w.deliveries|;
            var w1 := Next(w, Offer(m));
            && Enabled(w1, Decline(d)) && Next(w1, Decline(d)).deliveries[d].stage == Concluded(Declined)
            && (w.active.None? ==> Next(w1, FirstLook(d)).deliveries[d].stage == Concluded(NotRunning))
  {
  }

  // ----- steps lead on -------------------------------------------------------------------------

  /** How far an execution still has to go. */
  function PhaseRank(p: Phase): nat {
    match p
    case Checking => 8
    case Entering => 7
    case Starting => 6
    case Calling => 5
    case Abandoning => 4
    case Awaiting => 4
    case Unsure => 3
    case Admitted => 3
    case Reported => 2
    case Waiting => 1
    case Returned => 0
  }

  predicate MovesRun(a: Action, r: nat) {
    match a
    case Check(x, _) => x == r
    case Enter(x) => x == r
    case Start(x) => x == r
    case StartReply(x, _) => x == r
    case Abandon(x) => x == r
    case TakeReady(x) => x == r
    case CancelStart(x) => x == r
    case ReportUnsure(x) => x == r
    case ReportInjected(x, _) => x == r
    case FinalCheck(x, _) => x == r
    case WaitEnds(x) => x == r
    case _ => false
  }

  /** An execution always comes to its end: every step of its own brings it nearer, no other step moves it,
      and while it has not returned it has a next step. */
  lemma ExecutionsEnd(w: World, a: Action, r: nat)
    requires TurnsOk(w) && RunsOk(w) && Enabled(w, a) && r < |w.runs|
    ensures r < |Next(w, a).runs|
    ensures MovesRun(a, r) ==> PhaseRank(Next(w, a).runs[r].phase) < PhaseRank(w.runs[r].phase)
    ensures !MovesRun(a, r) ==> Next(w, a).runs[r].phase == w.runs[r].phase
    ensures !w.runs[r].phase.Returned? ==> exists b :: MovesRun(b, r) && Enabled(w, b)
  {
    if !w.runs[r].phase.Returned? { HasNext(w, r); }
    ExecutionAdvances(w, a, r);
    hide Next, TurnsOk, RunsOk, PhaseRank, MovesRun, Enabled;
  }

  lemma ExecutionAdvances(w: World, a: Action, r: nat)
    requires TurnsOk(w) && RunsOk(w) && Enabled(w, a) && r < |w.runs|
    ensures r < |Next(w, a).runs|
    ensures MovesRun(a, r) ==> PhaseRank(Next(w, a).runs[r].phase) < PhaseRank(w.runs[r].phase)
    ensures !MovesRun(a, r) ==> Next(w, a).runs[r].phase == w.runs[r].phase
  {
    hide Next, TurnsOk, RunsOk, PhaseRank;
    if IsIdle(a) {
      IdleRuns(w, a);
    } else if a.Enter? || a.Begin? {
      EntersAdvance(w, a, r);
    } else if a.run != r {
      OthersKept(w, a, r);
    } else {
      OwnAdvances(w, a);
    }
  }

  lemma EntersAdvance(w: World, a: Action, r: nat)
    requires Enabled(w, a) && (a.Enter? || a.Begin?) && r < |w.runs|
    ensures r < |Next(w, a).runs|
    ensures if a == Enter(r) then PhaseRank(Next(w, a).runs[r].phase) < PhaseRank(w.runs[r].phase)
            else Next(w, a).runs[r].phase == w.runs[r].phase
  {
  }

  lemma OwnAdvances(w: World, a: Action)
    requires Enabled(w, a) && !IsIdle(a) && !a.Enter? && !a.Begin?
    ensures a.run < |Next(w, a).runs| && MovesRun(a, a.run)
    ensures PhaseRank(Next(w, a).runs[a.run].phase) < PhaseRank(w.runs[a.run].phase)
  {
    hide Named, Receive, Fail, OnEnter, OnLook, OnStrike, OnNotice;
    if IsOwn(a) {
      assert Next(w, a) == Put(w, a.run, Own(w.runs[a.run], a)) by { hide Own; }
      hide Next;
    }
  }

  lemma HasNext(w: World, r: nat)
    requires TurnsOk(w) && RunsOk(w) && r < |w.runs| && !w.runs[r].phase.Returned?
    ensures exists b :: MovesRun(b, r) && Enabled(w, b)
  {
    assert RunOk(w, w.runs[r]);
    var b := match w.runs[r].phase
      case Checking => Check(r, true)
      case Entering => Enter(r)
      case Starting => Start(r)
      case Calling => StartReply(r, None)
      case Abandoning => Abandon(r)
      case Awaiting => CancelStart(r)
      case Unsure => ReportUnsure(r)
      case Admitted => ReportInjected(r, true)
      case Reported => FinalCheck(r, true)
      case _ => WaitEnds(r);
    hide Orderly, Announced, Agreed, Replied;
    assert MovesRun(b, r) && Enabled(w, b);
  }

  function StageRank(s: Stage): nat {
    match s
    case Offered => 4
    case Found => 3
    case Steering => 2
    case Judging => 1
    case Concluded(_) => 0
  }

  predicate MovesDelivery(a: Action, d: nat) {
    match a
    case Decline(x) => x == d
    case FirstLook(x) => x == d
    case SecondLook(x) => x == d
    case NativeAnswers(x, _, _) => x == d
    case Conclude(x) => x == d
    case _ => false
  }

  /** So does a delivery. */
  lemma DeliveriesEnd(w: World, a: Action, d: nat)
    requires Enabled(w, a) && d < |w.deliveries|
    ensures d < |Next(w, a).deliveries|
    ensures MovesDelivery(a, d) ==> StageRank(Next(w, a).deliveries[d].stage) < StageRank(w.deliveries[d].stage)
    ensures !MovesDelivery(a, d) ==> Next(w, a).deliveries[d] == w.deliveries[d]
  {
    if IsDelivery(a) {
      hide Verdict;
    } else {
      hide Receive, Fail, LaneRun.Own;
    }
  }
}
