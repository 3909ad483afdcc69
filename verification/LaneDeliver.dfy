/** Deliveries into a running turn, in every run of the lane, and what a daemon that retries can rely on. */
module LaneDeliver {
  import opened Prelude
  import opened LaneTurn
  import opened LaneSteer
  import opened LaneRun

  // ----- one delivery --------------------------------------------------------------------------

  /** The turn that was seen first had started, and still has the identifier it had then. */
  ghost predicate StillNamed(w: World, x: Delivery) {
    x.seen != "" && x.turn < |w.turns| && w.turns[x.turn].id == x.seen && w.turns[x.turn].started
  }

  ghost predicate DeliveryOk(w: World, x: Delivery) {
    && (x.sent.Some? ==> StillNamed(w, x) && x.sent.value == x.seen)
    && (x.submitted ==> x.sent.Some? && x.reply.Some?)
    && (x.reply.Some? ==> x.sent.Some? && NativeMay(x.sent.value, x.reply.value, x.submitted))
    && match x.stage
       case Offered => x.sent.None? && x.reply.None?
       case Found => StillNamed(w, x) && x.sent.None? && x.reply.None?
       case Steering => x.sent.Some? && x.reply.None?
       case Judging => x.sent.Some? && x.reply.Some?
       case Concluded(o) =>
         if x.sent.Some? then x.reply.Some? && o == Judged(x.sent.value, x.reply.value)
         else x.reply.None? && (o == NotRunning || o == Declined)
  }

  /** What an answer means for the identifier that was sent. */
  function Judged(sent: string, reply: Reply): Outcome {
    if reply == Steered(sent) then Delivered
    else if DefinitelyNotSubmitted(reply, sent) then NotRunning
    else Unknown
  }

  ghost predicate DeliveriesOk(w: World) {
    forall d | 0 <= d < |w.deliveries| :: DeliveryOk(w, w.deliveries[d])
  }

  /** A turn that has a name keeps it, so a delivery at rest stays right. */
  lemma DeliveryKept(w: World, w': World, x: Delivery)
    requires Grown(w, w') && DeliveryOk(w, x)
    ensures DeliveryOk(w', x)
  {
    if x.turn < |w.turns| { assert Extends(w'.turns[x.turn], w.turns[x.turn]); }
    hide NativeMay, DefinitelyNotSubmitted, Grown;
  }

  lemma OneDelivery(w: World, w': World, d: nat)
    requires DeliveriesOk(w) && Grown(w, w') && d < |w.deliveries| == |w'.deliveries|
    requires DeliveryOk(w', w'.deliveries[d])
    requires forall k | 0 <= k < |w.deliveries| && k != d :: w'.deliveries[k] == w.deliveries[k]
    ensures DeliveriesOk(w')
  {
    hide DeliveryOk, Grown;
    forall k | 0 <= k < |w'.deliveries| ensures DeliveryOk(w', w'.deliveries[k]) {
      if k != d { DeliveryKept(w, w', w.deliveries[k]); }
    }
  }

  /** The first look finds the identifier of a turn that has started, which by then has one. */
  lemma FirstLookOk(w: World, x: Delivery)
    requires TurnsOk(w) && DeliveryOk(w, x) && x.stage == Offered
    ensures DeliveryOk(w, OnFirstLook(w, x))
  {
    assert Placed(w);
    hide TurnsOk, NativeMay;
  }

  /** The second look reads the identifier again: it is the one seen first. */
  lemma SecondLookOk(w: World, x: Delivery)
    requires TurnsOk(w) && DeliveryOk(w, x) && x.stage == Found
    ensures DeliveryOk(w, OnSecondLook(w, x))
  {
    hide NativeMay, Orderly, Announced;
  }

  lemma StepDeliveries(w: World, a: Action)
    requires TurnsOk(w) && RunsOk(w) && DeliveriesOk(w) && Enabled(w, a)
    ensures DeliveriesOk(Next(w, a))
  {
    var w' := Next(w, a);
    StepTurns(w, a);
    if IsDelivery(a) && !a.Offer? {
      var d := a.delivery;
      assert DeliveryOk(w, w.deliveries[d]);
      if a.FirstLook? { FirstLookOk(w, w.deliveries[d]); }
      if a.SecondLook? { SecondLookOk(w, w.deliveries[d]); }
      LookMoved(w, a);
      hide TurnsOk, RunsOk, DeliveriesOk, Next, Grown, DeliveryOk;
      OneDelivery(w, w', d);
    } else {
      DeliveriesUntouched(w, a);
      hide TurnsOk, RunsOk, Next, Grown, DeliveryOk;
      forall k | 0 <= k < |w'.deliveries| ensures DeliveryOk(w', w'.deliveries[k]) {
        if k < |w.deliveries| { DeliveryKept(w, w', w.deliveries[k]); } else { OfferedOk(w', w'.deliveries[k]); }
      }
    }
  }

  lemma OfferedOk(w: World, x: Delivery)
    requires x.stage == Offered && x.sent.None? && x.reply.None? && !x.submitted
    ensures DeliveryOk(w, x)
  {
  }

  lemma LookMoved(w: World, a: Action)
    requires Enabled(w, a) && IsDelivery(a) && !a.Offer? && DeliveryOk(w, w.deliveries[a.delivery])
    requires a.FirstLook? ==> DeliveryOk(w, OnFirstLook(w, w.deliveries[a.delivery]))
    requires a.SecondLook? ==> DeliveryOk(w, OnSecondLook(w, w.deliveries[a.delivery]))
    ensures var w' := Next(w, a);
            && |w'.deliveries| == |w.deliveries| && DeliveryOk(w', w'.deliveries[a.delivery])
            && forall k | 0 <= k < |w.deliveries| && k != a.delivery :: w'.deliveries[k] == w.deliveries[k]
  {
    hide DefinitelyNotSubmitted;
  }

  lemma DeliveriesUntouched(w: World, a: Action)
    requires Enabled(w, a) && (!IsDelivery(a) || a.Offer?)
    ensures var w' := Next(w, a);
            && w.deliveries <= w'.deliveries
            && forall k | |w.deliveries| <= k < |w'.deliveries| ::
                 && a.Offer? && w'.deliveries[k] == Delivery(a.message, Offered, 0, "", None, None, false)
                 && |w'.deliveries| == |w.deliveries| + 1
    ensures !a.Offer? ==> Next(w, a).deliveries == w.deliveries
  {
    hide Receive, Fail, Own;
  }

  lemma {:induction false} RunDeliveries(ws: seq<World>, acts: seq<Action>, i: nat)
    requires Runs(ws, acts) && i < |ws|
    ensures DeliveriesOk(ws[i])
  {
    if i > 0 {
      RunDeliveries(ws, acts, i - 1);
      LaneRun.RunSound(ws, acts, i - 1);
      hide Next, Enabled, TurnsOk, RunsOk, CurrentOk, InterruptsOk, DeliveriesOk;
      StepDeliveries(ws[i - 1], acts[i - 1]);
    }
  }

  /** In every run the identifier put into the native call is the one the delivery saw first, that of a turn
      which had started, so an error
      is judged by the identifier that native was sent; NotRunning means that nothing was sent, or that
      native answered with one of the two texts for the identifier sent, and that nothing was submitted;
      and Delivered means that native confirmed the turn that was sent, and submitted. And nothing is left
      in doubt that native decided: a confirmation of the turn sent is reported delivered, one of the two
      texts is reported not running, and only other answers are reported unknown. */
  lemma DeliveriesAreHonest(ws: seq<World>, acts: seq<Action>, i: nat, d: nat)
    requires Runs(ws, acts) && i < |ws| && d < |ws[i].deliveries|
    ensures var x := ws[i].deliveries[d];
            && (x.sent.Some? ==>
                  x.sent.value == x.seen && x.turn < |ws[i].turns| && ws[i].turns[x.turn].id == x.seen && ws[i].turns[x.turn].started)
            && (x.stage == Concluded(NotRunning) ==>
                  !x.submitted && (x.sent.None? || (x.reply.Some? && DefinitelyNotSubmitted(x.reply.value, x.sent.value))))
            && (x.stage == Concluded(Declined) ==> !x.submitted && x.sent.None?)
            && (x.stage == Concluded(Delivered) ==> x.submitted && x.sent.Some? && x.reply == Some(Steered(x.sent.value)))
            && (x.stage.Concluded? && x.sent.Some? ==>
                  && x.reply.Some?
                  && (x.stage == Concluded(Delivered) <==> x.reply.value == Steered(x.sent.value))
                  && (x.stage == Concluded(NotRunning) <==> DefinitelyNotSubmitted(x.reply.value, x.sent.value)))
  {
    RunDeliveries(ws, acts, i);
    assert DeliveryOk(ws[i], ws[i].deliveries[d]);
    hide Runs, DefinitelyNotSubmitted;
  }

  // ----- what the looks saw --------------------------------------------------------------------

  /** A turn is active and has started. */
  predicate Steerable(w: World, t: nat) {
    w.active == Some(t) && t < |w.turns| && w.turns[t].started
  }

  /** The first look found nothing to steer, or the second found another turn or none. */
  ghost predicate Misses(w: World, a: Action, d: nat) {
    || (a == FirstLook(d) && forall t :: !Steerable(w, t))
    || (a == SecondLook(d) && d < |w.deliveries| && !Steerable(w, w.deliveries[d].turn))
  }

  ghost predicate Missed(ws: seq<World>, acts: seq<Action>, i: nat, d: nat)
    requires i <= |acts| < |ws|
  {
    exists k :: 0 <= k < i && Misses(ws[k], acts[k], d)
  }

  lemma StepLooks(w: World, a: Action, d: nat)
    requires TurnsOk(w) && Enabled(w, a) && d < |w.deliveries|
    ensures var x, x' := w.deliveries[d], Next(w, a).deliveries;
            && d < |x'|
            && (x'[d].stage == Concluded(NotRunning) && x'[d].sent.None? ==>
                  Misses(w, a, d) || (x.stage == Concluded(NotRunning) && x.sent.None?) || (x.stage.Judging? && x.sent.None?))
  {
    if IsDelivery(a) && !a.Offer? {
      StartedIsNamed(w);
      hide TurnsOk, Verdict;
    } else {
      DeliveriesUntouched(w, a);
      hide Next, TurnsOk;
    }
  }

  lemma StartedIsNamed(w: World)
    requires TurnsOk(w)
    ensures Placed(w) && (w.active.Some? && w.turns[w.active.value].started ==> w.turns[w.active.value].id != "")
  {
  }

  /** A delivery that was not sent says not running only if it looked and there was nothing to steer, or not
      the turn it had seen: in every run. */
  lemma {:induction false} NotRunningIsTrue(ws: seq<World>, acts: seq<Action>, i: nat, d: nat)
    requires Runs(ws, acts) && i <= |acts| && d < |ws[i].deliveries|
    requires ws[i].deliveries[d].stage == Concluded(NotRunning) && ws[i].deliveries[d].sent.None?
    ensures Missed(ws, acts, i, d)
  {
    hide Next, Enabled, Misses;
    if i > 0 {
      var w, a := ws[i - 1], acts[i - 1];
      assert Enabled(w, a) && ws[i] == Next(w, a);
      LaneRun.RunSound(ws, acts, i - 1);
      RunDeliveries(ws, acts, i - 1);
      hide TurnsOk, RunsOk, CurrentOk, InterruptsOk;
      if d < |w.deliveries| {
        StepLooks(w, a, d);
        assert DeliveryOk(w, w.deliveries[d]);
        hide Runs;
        if !Misses(w, a, d) { NotRunningIsTrue(ws, acts, i - 1, d); }
      } else {
        DeliveriesUntouchedOrNone(w, a);
      }
    }
  }

  /** And only one that was given up before it looked says declined. */
  lemma {:induction false} DeclinedIsTrue(ws: seq<World>, acts: seq<Action>, i: nat, d: nat)
    requires Runs(ws, acts) && i <= |acts| && d < |ws[i].deliveries| && ws[i].deliveries[d].stage == Concluded(Declined)
    ensures exists k :: 0 <= k < i && acts[k] == Decline(d)
  {
    hide Next, Enabled;
    if i > 0 {
      var w, a := ws[i - 1], acts[i - 1];
      assert Enabled(w, a) && ws[i] == Next(w, a);
      hide Runs;
      if d < |w.deliveries| {
        StepDeclines(w, a, d);
        if a != Decline(d) { DeclinedIsTrue(ws, acts, i - 1, d); }
      } else {
        DeliveriesUntouchedOrNone(w, a);
      }
    }
  }

  lemma StepDeclines(w: World, a: Action, d: nat)
    requires Enabled(w, a) && d < |w.deliveries|
    ensures d < |Next(w, a).deliveries|
    ensures Next(w, a).deliveries[d].stage == Concluded(Declined) ==> a == Decline(d) || w.deliveries[d].stage == Concluded(Declined)
  {
    if IsDelivery(a) && !a.Offer? {
      hide DefinitelyNotSubmitted;
    } else {
      DeliveriesUntouched(w, a);
      hide Next;
    }
  }

  lemma DeliveriesUntouchedOrNone(w: World, a: Action)
    requires Enabled(w, a)
    ensures forall k | |w.deliveries| <= k < |Next(w, a).deliveries| :: Next(w, a).deliveries[k].stage == Offered
  {
    if IsDelivery(a) && !a.Offer? {
      hide Verdict;
    } else {
      DeliveriesUntouched(w, a);
      hide Next;
    }
  }

  // ----- a daemon that retries -----------------------------------------------------------------

  /** An attempt to bring one message into the lane. */
  datatype Attempt = ByDelivery(index: nat) | ByRun(index: nat)

  predicate IsAttempt(w: World, m: nat, a: Attempt) {
    match a
    case ByDelivery(d) => d < |w.deliveries| && w.deliveries[d].message == m
    case ByRun(r) => r < |w.runs| && w.runs[r].seed.delivery && w.runs[r].seed.message == m
  }

  /** The attempt is over, and said that the message was not submitted. */
  predicate Settled(w: World, m: nat, a: Attempt)
    requires IsAttempt(w, m, a)
  {
    match a
    case ByDelivery(d) => w.deliveries[d].stage in {Concluded(NotRunning), Concluded(Declined)}
    case ByRun(r) => w.runs[r].phase.Returned? && Rejected in w.runs[r].receipts
  }

  predicate Submitted(w: World, m: nat, a: Attempt)
    requires IsAttempt(w, m, a)
  {
    match a
    case ByDelivery(d) => w.deliveries[d].submitted
    case ByRun(r) => w.runs[r].written
  }

  /** The lane reported the message injected. */
  predicate Confirmed(w: World, m: nat, a: Attempt)
    requires IsAttempt(w, m, a)
  {
    match a
    case ByDelivery(d) => w.deliveries[d].stage == Concluded(Delivered)
    case ByRun(r) => Injected in w.runs[r].receipts
  }

  predicate BeginsAttempt(a: Action, m: nat) {
    (a.Offer? && a.message == m) || (a.Begin? && a.seed.delivery && a.seed.message == m)
  }

  /** The daemon's rule: another attempt begins only after every earlier one has settled. */
  ghost predicate Disciplined(ws: seq<World>, acts: seq<Action>, m: nat)
    requires |ws| == |acts| + 1
  {
    forall i | 0 <= i < |acts| && BeginsAttempt(acts[i], m) :: forall a | IsAttempt(ws[i], m, a) :: Settled(ws[i], m, a)
  }

  ghost predicate OnceOk(w: World, m: nat) {
    forall a, b | IsAttempt(w, m, a) && IsAttempt(w, m, b) && !Settled(w, m, a) && !Settled(w, m, b) :: a == b
  }

  /** What an earlier state knows of an attempt. */
  lemma StepSettled(w: World, act: Action, m: nat, a: Attempt)
    requires TurnsOk(w) && RunsOk(w) && Enabled(w, act)
    requires IsAttempt(Next(w, act), m, a)
    ensures IsAttempt(w, m, a) || BeginsAttempt(act, m)
    ensures IsAttempt(w, m, a) && Settled(w, m, a) ==> Settled(Next(w, act), m, a)
    ensures !IsAttempt(w, m, a) ==> a == if act.Offer? then ByDelivery(|w.deliveries|) else ByRun(|w.runs|)
  {
    match a
    case ByRun(r) =>
      RunMoves(w, act);
      NewRuns(w, act);
      hide Next, TurnsOk, RunsOk;
      if r < |w.runs| { assert RunMoved(w.runs[r], Next(w, act).runs[r]); }
    case ByDelivery(d) =>
      DeliveryMoves(w, act);
      hide Next, TurnsOk, RunsOk;
  }

  lemma NewRuns(w: World, act: Action)
    requires TurnsOk(w) && RunsOk(w) && Enabled(w, act)
    ensures var w' := Next(w, act);
            if act.Begin? then
              |w'.runs| == |w.runs| + 1 && w'.runs[|w.runs|].seed == act.seed
            else |w'.runs| == |w.runs|
  {
    if IsIdle(act) {
      IdleRuns(w, act);
      hide Next;
    } else {
      hide OnNotice, TurnsOk, RunsOk, Own;
    }
  }

  lemma DeliveryMoves(w: World, act: Action)
    requires Enabled(w, act)
    ensures var w' := Next(w, act);
            && |w.deliveries| <= |w'.deliveries| <= |w.deliveries| + (if act.Offer? then 1 else 0)
            && (forall d | |w.deliveries| <= d < |w'.deliveries| :: w'.deliveries[d].message == act.message)
            && forall d | 0 <= d < |w.deliveries| ::
                 && w'.deliveries[d].message == w.deliveries[d].message
                 && (w.deliveries[d].stage.Concluded? ==> w'.deliveries[d].stage == w.deliveries[d].stage)
  {
    if !IsDelivery(act) || act.Offer? { DeliveriesUntouched(w, act); }
    hide Receive, Fail, Own, OnNotice, OnEnter, OnStart, OnStartReply;
  }

  lemma StepOnce(w: World, act: Action, m: nat)
    requires TurnsOk(w) && RunsOk(w) && OnceOk(w, m) && Enabled(w, act)
    requires BeginsAttempt(act, m) ==> forall a | IsAttempt(w, m, a) :: Settled(w, m, a)
    ensures OnceOk(Next(w, act), m)
  {
    var w' := Next(w, act);
    hide Next, TurnsOk, RunsOk, IsAttempt, Settled;
    forall a, b | IsAttempt(w', m, a) && IsAttempt(w', m, b) && !Settled(w', m, a) && !Settled(w', m, b)
      ensures a == b
    {
      StepSettled(w, act, m, a);
      StepSettled(w, act, m, b);
    }
  }

  lemma {:induction false} RunOnce(ws: seq<World>, acts: seq<Action>, i: nat, m: nat)
    requires Runs(ws, acts) && Disciplined(ws, acts, m) && i < |ws|
    ensures OnceOk(ws[i], m)
  {
    if i > 0 {
      RunOnce(ws, acts, i - 1, m);
      LaneRun.RunSound(ws, acts, i - 1);
      hide Next, Enabled, TurnsOk, RunsOk, CurrentOk, InterruptsOk, OnceOk, IsAttempt, Settled, BeginsAttempt;
      StepOnce(ws[i - 1], acts[i - 1], m);
    }
  }

  /** In every run an attempt that settled submitted nothing, and one that confirmed submitted. */
  lemma SettledMeansUnsubmitted(ws: seq<World>, acts: seq<Action>, i: nat, m: nat, a: Attempt)
    requires Runs(ws, acts) && i < |ws| && IsAttempt(ws[i], m, a)
    ensures Settled(ws[i], m, a) ==> !Submitted(ws[i], m, a)
    ensures Confirmed(ws[i], m, a) ==> Submitted(ws[i], m, a)
  {
    match a
    case ByDelivery(d) =>
      DeliveriesAreHonest(ws, acts, i, d);
      hide Runs, DefinitelyNotSubmitted;
    case ByRun(r) =>
      LaneRun.RunSound(ws, acts, i);
      assert RunOk(ws[i], ws[i].runs[r]);
      hide Runs, TurnsOk, CurrentOk, InterruptsOk, Orderly;
  }

  /** At most once: in every run in which the daemon tries again only after its earlier attempts have said
      that nothing was submitted, one attempt at most submits the message, whether it went by delivery or
      by run; and if the lane reported the message injected, that attempt did and no other. */
  lemma AtMostOneSubmission(ws: seq<World>, acts: seq<Action>, i: nat, m: nat, a: Attempt, b: Attempt)
    requires Runs(ws, acts) && Disciplined(ws, acts, m) && i < |ws|
    requires IsAttempt(ws[i], m, a) && IsAttempt(ws[i], m, b)
    ensures Submitted(ws[i], m, a) && Submitted(ws[i], m, b) ==> a == b
    ensures Confirmed(ws[i], m, a) ==> Submitted(ws[i], m, a) && (Submitted(ws[i], m, b) ==> b == a)
  {
    RunOnce(ws, acts, i, m);
    SettledMeansUnsubmitted(ws, acts, i, m, a);
    SettledMeansUnsubmitted(ws, acts, i, m, b);
    hide Runs, Disciplined, IsAttempt, Settled, Submitted, Confirmed;
  }
}
