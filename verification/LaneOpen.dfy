/** Opening a lane: the race between its commit and the cancellation of the caller, and the wait for
    the native tool to become ready. */
module LaneOpen {
  import opened Prelude

  // ----- the commit race -----------------------------------------------------------------------

  /** The callback registered on the caller's context. */
  datatype Callback = Armed | Fired | Spent | Stopped

  /** Who cancelled the lifetime first. */
  datatype Cause = Startup | Failure | Closing

  datatype Commit = Pending | Checked | Committed | Refused

  /** `cancelled` is the caller's context; `ended` the lifetime's. While the commit is `Checked` it
      holds the lock. */
  datatype Lifetime = Lifetime(
    cancelled: bool, callback: Callback, ended: Option<Cause>, isOpen: bool, closing: bool, failed: bool, commit: Commit)

  datatype Step = CancelCaller | RunCallback | CheckCaller | Decide(confirmed: bool) | Fail | Close | StopStartup

  const Opening: Lifetime := Lifetime(false, Armed, None, false, false, false, Pending)

  predicate Can(l: Lifetime, s: Step) {
    match s
    case CancelCaller => true
    case RunCallback => l.callback.Fired? && !l.commit.Checked?
    case CheckCaller => l.commit.Pending?
    case Decide(_) => l.commit.Checked?
    case Fail => !l.commit.Checked?
    case Close => !l.commit.Checked?
    case StopStartup => l.commit.Refused? || l.commit.Committed?
  }

  function End(l: Lifetime, cause: Cause): Lifetime {
    if l.ended.None? then l.(ended := Some(cause)) else l
  }

  function Disarm(l: Lifetime): Lifetime {
    if l.callback.Armed? then l.(callback := Stopped) else l
  }

  function Do(l: Lifetime, s: Step): Lifetime
    requires Can(l, s)
  {
    match s
    case CancelCaller => l.(cancelled := true, callback := if l.callback.Armed? then Fired else l.callback)
    case RunCallback => (if l.isOpen then l else End(l, Startup)).(callback := Spent)
    case CheckCaller => l.(commit := if l.cancelled then Refused else Checked)
    case Decide(confirmed) =>
      if l.ended.Some? || l.closing || l.failed || !confirmed then l.(commit := Refused)
      else Disarm(l).(isOpen := true, commit := Committed)
    case Fail => End(l.(failed := true), Failure)
    case Close => End(l.(closing := true), Closing)
    case StopStartup => Disarm(l)
  }

  ghost predicate Opens(ls: seq<Lifetime>, steps: seq<Step>) {
    && |ls| == |steps| + 1 && ls[0] == Opening
    && forall i | 0 <= i < |steps| :: Can(ls[i], steps[i]) && ls[i + 1] == Do(ls[i], steps[i])
  }

  ghost predicate RaceOk(l: Lifetime) {
    && (l.isOpen <==> l.commit.Committed?)
    && (l.isOpen ==> l.ended != Some(Startup) && !l.callback.Armed?)
    && (l.callback.Armed? ==> !l.cancelled)
    && (l.callback.Spent? ==> l.cancelled && (l.isOpen || l.ended.Some?))
    && (l.ended == Some(Startup) ==> l.cancelled && l.callback.Spent?)
    && (l.callback.Fired? ==> l.cancelled)
  }

  lemma StepRace(l: Lifetime, s: Step)
    requires RaceOk(l) && Can(l, s)
    ensures RaceOk(Do(l, s))
    ensures l.isOpen ==> Do(l, s).isOpen && (Do(l, s).ended == l.ended || s.Fail? || s.Close?)
    ensures l.ended.Some? ==> Do(l, s).ended == l.ended
    ensures !l.isOpen && l.ended.Some? ==> !Do(l, s).isOpen
    ensures l.commit.Refused? ==> Do(l, s).commit.Refused?
    ensures l.cancelled ==> Do(l, s).cancelled
    ensures l.cancelled && l.commit.Pending? ==> !Do(l, s).isOpen
  {
  }

  lemma OpensStep(ls: seq<Lifetime>, steps: seq<Step>, i: nat)
    requires Opens(ls, steps) && i < |steps|
    ensures Can(ls[i], steps[i]) && ls[i + 1] == Do(ls[i], steps[i])
  {
  }

  lemma {:induction false} RunRace(ls: seq<Lifetime>, steps: seq<Step>, i: nat)
    requires Opens(ls, steps) && i < |ls| == |steps| + 1
    ensures RaceOk(ls[i])
  {
    if i > 0 {
      hide Opens, Do, Can, RaceOk;
      RunRace(ls, steps, i - 1);
      OpensStep(ls, steps, i - 1);
      StepRace(ls[i - 1], steps[i - 1]);
    }
  }

  /** Once committed, for ever: whatever happens to the caller's context afterwards, the startup
      callback never ends the lifetime. */
  lemma {:induction false} CommitWins(ls: seq<Lifetime>, steps: seq<Step>, i: nat, k: nat)
    requires Opens(ls, steps) && i <= k < |ls| == |steps| + 1 && ls[i].isOpen
    ensures ls[k].isOpen && ls[k].ended != Some(Startup)
    decreases k
  {
    RunRace(ls, steps, k);
    hide Opens, Do, Can;
    if i < k {
      CommitWins(ls, steps, i, k - 1);
      RunRace(ls, steps, k - 1);
      OpensStep(ls, steps, k - 1);
      StepRace(ls[k - 1], steps[k - 1]);
    }
  }

  /** After the commit only a failure or a close ends the lifetime. */
  lemma CommittedEndsOnlyByFailure(ls: seq<Lifetime>, steps: seq<Step>, i: nat, k: nat)
    requires Opens(ls, steps) && i <= k < |steps| && ls[i].isOpen && ls[k + 1].ended != ls[k].ended
    ensures steps[k].Fail? || steps[k].Close?
  {
    CommitWins(ls, steps, i, k);
    RunRace(ls, steps, k);
    OpensStep(ls, steps, k);
    hide Opens;
    StepRace(ls[k], steps[k]);
  }

  /** Cancellation that comes first wins for ever: if the caller was cancelled while the commit had not
      looked yet, or the startup callback ended the lifetime, the open never commits. */
  lemma {:induction false} CancellationWins(ls: seq<Lifetime>, steps: seq<Step>, i: nat, k: nat)
    requires Opens(ls, steps) && i <= k < |ls| == |steps| + 1
    requires (ls[i].cancelled && ls[i].commit.Pending?) || ls[i].ended == Some(Startup)
    ensures !ls[k].isOpen
    ensures (ls[k].cancelled && (ls[k].commit.Pending? || ls[k].commit.Refused?)) || ls[k].ended == Some(Startup)
    decreases k
  {
    hide Opens;
    RunRace(ls, steps, i);
    if i < k {
      CancellationWins(ls, steps, i, k - 1);
      RunRace(ls, steps, k - 1);
      OpensStep(ls, steps, k - 1);
      StepRace(ls[k - 1], steps[k - 1]);
    }
  }

  // ----- the race, by its history --------------------------------------------------------------

  ghost predicate Cancelled(steps: seq<Step>, i: nat)
    requires i <= |steps|
  {
    exists x :: 0 <= x < i && steps[x].CancelCaller?
  }

  ghost predicate Failing(steps: seq<Step>, i: nat)
    requires i <= |steps|
  {
    exists x :: 0 <= x < i && (steps[x].Fail? || steps[x].Close?)
  }

  /** The commit looked at the caller's context before any cancellation. */
  ghost predicate CleanLook(steps: seq<Step>, i: nat)
    requires i <= |steps|
  {
    exists x :: 0 <= x < i && steps[x].CheckCaller? && !Cancelled(steps, x)
  }

  /** The native settings were confirmed after a clean look and before any failure or close. */
  ghost predicate Confirmed(steps: seq<Step>, i: nat)
    requires i <= |steps|
  {
    exists x :: 0 <= x < i && steps[x] == Decide(true) && CleanLook(steps, x) && !Failing(steps, x)
  }

  ghost predicate Decided(steps: seq<Step>, i: nat)
    requires i <= |steps|
  {
    exists x :: 0 <= x < i && steps[x].Decide?
  }

  ghost predicate Checking(steps: seq<Step>, i: nat)
    requires i <= |steps|
  {
    exists x :: 0 <= x < i && steps[x].CheckCaller?
  }

  ghost predicate Ran(steps: seq<Step>, i: nat)
    requires i <= |steps|
  {
    exists x :: 0 <= x < i && steps[x].RunCallback?
  }

  /** The step takes the callback off the caller's context: the commit, or the end of the open. */
  predicate TakesOff(ls: seq<Lifetime>, steps: seq<Step>, x: nat)
    requires x < |steps| < |ls|
  {
    steps[x].StopStartup? || (!ls[x].isOpen && ls[x + 1].isOpen)
  }

  /** It was taken off before any cancellation. */
  ghost predicate Stood(ls: seq<Lifetime>, steps: seq<Step>, i: nat)
    requires i <= |steps| < |ls|
  {
    exists x :: 0 <= x < i && TakesOff(ls, steps, x) && !Cancelled(steps, x)
  }

  ghost predicate Chronicle(ls: seq<Lifetime>, steps: seq<Step>, i: nat)
    requires i <= |steps| < |ls|
  {
    var l := ls[i];
    && (l.cancelled <==> Cancelled(steps, i))
    && (l.failed || l.closing <==> Failing(steps, i))
    && (l.commit.Pending? <==> !Checking(steps, i))
    && (l.commit.Checked? <==> CleanLook(steps, i) && !Decided(steps, i))
    && (l.commit.Committed? <==> Confirmed(steps, i))
    && (l.failed || l.closing ==> l.ended.Some?)
    && (l.ended.Some? && l.ended != Some(Startup) ==> l.failed || l.closing)
    && (l.commit.Checked? ==> !l.callback.Spent?)
    && (l.commit.Pending? ==> !Decided(steps, i) && !CleanLook(steps, i))
    && (l.callback.Spent? <==> Ran(steps, i))
    && (l.callback.Stopped? ==> Stood(ls, steps, i))
  }

  lemma HistoryGrows(ls: seq<Lifetime>, steps: seq<Step>, i: nat)
    requires i < |steps| < |ls|
    ensures Cancelled(steps, i + 1) <==> Cancelled(steps, i) || steps[i].CancelCaller?
    ensures Failing(steps, i + 1) <==> Failing(steps, i) || steps[i].Fail? || steps[i].Close?
    ensures CleanLook(steps, i + 1) <==> CleanLook(steps, i) || (steps[i].CheckCaller? && !Cancelled(steps, i))
    ensures Confirmed(steps, i + 1) <==> Confirmed(steps, i) || (steps[i] == Decide(true) && CleanLook(steps, i) && !Failing(steps, i))
    ensures Decided(steps, i + 1) <==> Decided(steps, i) || steps[i].Decide?
    ensures Checking(steps, i + 1) <==> Checking(steps, i) || steps[i].CheckCaller?
    ensures Ran(steps, i + 1) <==> Ran(steps, i) || steps[i].RunCallback?
    ensures Stood(ls, steps, i) ==> Stood(ls, steps, i + 1)
    ensures TakesOff(ls, steps, i) && !Cancelled(steps, i) ==> Stood(ls, steps, i + 1)
  {
  }

  lemma {:induction false} RunChronicle(ls: seq<Lifetime>, steps: seq<Step>, i: nat)
    requires Opens(ls, steps) && i <= |steps|
    ensures Chronicle(ls, steps, i)
  {
    if i > 0 {
      RunChronicle(ls, steps, i - 1);
      RunRace(ls, steps, i - 1);
      OpensStep(ls, steps, i - 1);
      hide Opens, Chronicle;
      StepChronicle(ls, steps, i - 1);
    }
  }

  lemma StepChronicle(ls: seq<Lifetime>, steps: seq<Step>, i: nat)
    requires i < |steps| < |ls| && Can(ls[i], steps[i]) && ls[i + 1] == Do(ls[i], steps[i])
    requires RaceOk(ls[i]) && Chronicle(ls, steps, i)
    ensures Chronicle(ls, steps, i + 1)
  {
    HistoryGrows(ls, steps, i);
    hide Cancelled, Failing, CleanLook, Confirmed, Decided, Checking, Ran, Stood;
  }

  /** When an open succeeds: exactly when the native settings were confirmed, the commit had looked at the
      caller before any cancellation, and neither a failure nor a close came before the confirmation. A
      cancellation between the look and the confirmation does not count any more. */
  lemma OpensExactly(ls: seq<Lifetime>, steps: seq<Step>, i: nat)
    requires Opens(ls, steps) && i <= |steps|
    ensures ls[i].isOpen <==> Confirmed(steps, i)
  {
    RunChronicle(ls, steps, i);
    RunRace(ls, steps, i);
    hide Opens, Confirmed;
  }

  /** A cancelled caller is heard: its callback has run, or may run as soon as the commit lets go of the
      lock, unless it had been taken off before. */
  lemma CancellationIsHeard(ls: seq<Lifetime>, steps: seq<Step>, i: nat)
    requires Opens(ls, steps) && i <= |steps| && Cancelled(steps, i)
    ensures Ran(steps, i) || Stood(ls, steps, i) || (ls[i].commit.Checked? || Can(ls[i], RunCallback))
    ensures Ran(steps, i) ==> ls[i].isOpen || ls[i].ended.Some?
  {
    RunChronicle(ls, steps, i);
    RunRace(ls, steps, i);
    hide Opens, Cancelled, Ran, Stood;
  }

  /** The step ends the lifetime unless it has ended before. */
  predicate Ends(l: Lifetime, s: Step) {
    s.Fail? || s.Close? || (s.RunCallback? && !l.isOpen)
  }

  function CauseOf(s: Step): Cause {
    match s case RunCallback => Startup case Close => Closing case _ => Failure
  }

  /** The lifetime ends with the first step that ends it, and keeps that cause. */
  lemma {:induction false} EndsByTheFirst(ls: seq<Lifetime>, steps: seq<Step>, i: nat)
    requires Opens(ls, steps) && i <= |steps|
    ensures ls[i].ended.None? <==> forall x | 0 <= x < i :: !Ends(ls[x], steps[x])
    ensures forall x | 0 <= x < i && Ends(ls[x], steps[x]) && (forall y | 0 <= y < x :: !Ends(ls[y], steps[y])) ::
              ls[i].ended == Some(CauseOf(steps[x]))
  {
    if i > 0 {
      EndsByTheFirst(ls, steps, i - 1);
      OpensStep(ls, steps, i - 1);
      EndsOnce(ls[i - 1], steps[i - 1]);
      hide Opens, Do, Can, Ends;
    }
  }

  lemma EndsOnce(l: Lifetime, s: Step)
    requires Can(l, s)
    ensures Do(l, s).ended == if l.ended.Some? || !Ends(l, s) then l.ended else Some(CauseOf(s))
  {
  }

  /** The fields of the wrapper that the race is about, and its two sections in place. */
  class LifetimeObject {
    var cancelled: bool
    var callback: Callback
    var ended: Option<Cause>
    var isOpen: bool
    var closing: bool
    var failed: bool
    var commit: Commit

    constructor ()
      ensures Value() == Opening
    {
      cancelled, callback, ended, isOpen, closing, failed, commit := false, Armed, None, false, false, false, Pending;
    }

    function Value(): Lifetime
      reads this
    {
      Lifetime(cancelled, callback, ended, isOpen, closing, failed, commit)
    }

    /** The callback on the caller's context, under the lock. */
    method OnCancelled()
      requires Can(Value(), RunCallback)
      modifies this
      ensures Value() == Do(old(Value()), RunCallback)
    {
      if !isOpen && ended == None { ended := Some(Startup); }
      callback := Spent;
    }

    /** The commit, from the lock to its release, if the caller is not cancelled in between. */
    method CommitOpen(confirmed: bool) returns (ok: bool)
      requires commit.Pending?
      modifies this
      ensures ok <==> commit.Committed?
      ensures var l := Do(old(Value()), CheckCaller);
              Value() == if l.commit.Checked? then Do(l, Decide(confirmed)) else l
    {
      if cancelled { commit := Refused; return false; }
      if ended != None || closing || failed { commit := Refused; return false; }
      if !confirmed { commit := Refused; return false; }
      if callback.Armed? { callback := Stopped; }
      isOpen := true;
      commit := Committed;
      return true;
    }
  }

  // ----- readiness -----------------------------------------------------------------------------

  const LaneServer: string := "sessionbus"

  datatype Notice = Notice(thread: string, name: string, status: string)

  /** A waiter for one thread: the channel it captured is named by its generation. */
  datatype Waiter = Looking(thread: string) | Parked(thread: string, channel: nat) | Ready(thread: string) | GaveUp(thread: string)

  /** The channels with a number below `channel` have been closed. */
  datatype Board = Board(startup: map<string, string>, channel: nat, waiters: seq<Waiter>)

  datatype Move = Hear(n: Notice) | Join(thread: string) | Look(index: nat) | Rouse(index: nat) | Cancel(index: nat)

  function Status(b: Board, thread: string): string {
    if thread in b.startup then b.startup[thread] else ""
  }

  /** Only an update of the lane's own server for some thread counts. */
  function Heard(b: Board, n: Notice): Board {
    if n.name != LaneServer || n.thread == "" then b
    else b.(startup := b.startup[n.thread := n.status], channel := b.channel + 1)
  }

  /** The snapshot and what follows from it. */
  function Looked(b: Board, thread: string): Waiter {
    var state := Status(b, thread);
    if state == "ready" then Ready(thread)
    else if state == "failed" || state == "cancelled" then GaveUp(thread)
    else Parked(thread, b.channel)
  }

  /** The parked waiter's channel has been closed. */
  predicate Closed(b: Board, w: Waiter) {
    w.Parked? && w.channel < b.channel
  }

  predicate May(b: Board, m: Move) {
    match m
    case Hear(_) => true
    case Join(_) => true
    case Look(k) => k < |b.waiters| && b.waiters[k].Looking?
    case Rouse(k) => k < |b.waiters| && Closed(b, b.waiters[k])
    case Cancel(k) => k < |b.waiters| && b.waiters[k].Parked?
  }

  function Moved(b: Board, m: Move): Board
    requires May(b, m)
  {
    match m
    case Hear(n) => Heard(b, n)
    case Join(thread) => b.(waiters := b.waiters + [Looking(thread)])
    case Look(k) => b.(waiters := b.waiters[k := Looked(b, b.waiters[k].thread)])
    case Rouse(k) => b.(waiters := b.waiters[k := Looking(b.waiters[k].thread)])
    case Cancel(k) => b.(waiters := b.waiters[k := GaveUp(b.waiters[k].thread)])
  }

  ghost predicate Waits(bs: seq<Board>, moves: seq<Move>) {
    && |bs| == |moves| + 1 && bs[0] == Board(map[], 0, [])
    && forall i | 0 <= i < |moves| :: May(bs[i], moves[i]) && bs[i + 1] == Moved(bs[i], moves[i])
  }

  /** A parked waiter whose channel is still open has seen the latest update of every thread. */
  ghost predicate BoardOk(b: Board) {
    forall k | 0 <= k < |b.waiters| && b.waiters[k].Parked? ::
      && b.waiters[k].channel <= b.channel
      && (b.waiters[k].channel == b.channel ==> Status(b, b.waiters[k].thread) !in {"ready", "failed", "cancelled"})
  }

  lemma {:induction false} RunBoard(bs: seq<Board>, moves: seq<Move>, i: nat)
    requires Waits(bs, moves) && i < |bs|
    ensures BoardOk(bs[i])
  {
    if i > 0 { RunBoard(bs, moves, i - 1); }
  }

  /** No lost readiness: a waiter never stands parked on an open channel while its thread's status says
      that it should go on or give up. */
  lemma NoLostReadiness(bs: seq<Board>, moves: seq<Move>, i: nat, k: nat)
    requires Waits(bs, moves) && i < |bs| && k < |bs[i].waiters| && bs[i].waiters[k].Parked?
    ensures Status(bs[i], bs[i].waiters[k].thread) in {"ready", "failed", "cancelled"} ==> May(bs[i], Rouse(k))
  {
    RunBoard(bs, moves, i);
  }

  /** The channel a waiter captured is closed at every state after an update that came after its snapshot. */
  lemma {:induction false} UpdateClosesChannel(bs: seq<Board>, moves: seq<Move>, i: nat, j: nat, k: nat, channel: nat)
    requires Waits(bs, moves) && i <= j < k < |bs| && channel <= bs[i].channel
    requires moves[j].Hear? && moves[j].n.name == LaneServer && moves[j].n.thread != ""
    ensures channel < bs[k].channel
  {
    ChannelsGrow(bs, moves, i, j);
    ChannelsGrow(bs, moves, j + 1, k);
  }

  lemma {:induction false} ChannelsGrow(bs: seq<Board>, moves: seq<Move>, i: nat, k: nat)
    requires Waits(bs, moves) && i <= k < |bs|
    ensures bs[i].channel <= bs[k].channel
    decreases k
  {
    if i < k { ChannelsGrow(bs, moves, i, k - 1); }
  }

  // ----- readiness, by its history -------------------------------------------------------------

  /** A notification that counts: the lane's own server, for some thread. */
  predicate Counts(m: Move) {
    m.Hear? && m.n.name == LaneServer && m.n.thread != ""
  }

  /** What native last said of the thread. */
  function LastHeard(moves: seq<Move>, thread: string): string {
    if moves == [] then ""
    else
      var m := moves[|moves| - 1];
      if Counts(m) && m.n.thread == thread then m.n.status else LastHeard(moves[..|moves| - 1], thread)
  }

  function Updates(moves: seq<Move>): nat {
    if moves == [] then 0 else Updates(moves[..|moves| - 1]) + if Counts(moves[|moves| - 1]) then 1 else 0
  }

  function Joins(moves: seq<Move>): seq<string> {
    if moves == [] then []
    else Joins(moves[..|moves| - 1]) + if moves[|moves| - 1].Join? then [moves[|moves| - 1].thread] else []
  }

  lemma WaitsStep(bs: seq<Board>, moves: seq<Move>, i: nat)
    requires Waits(bs, moves) && i < |moves|
    ensures May(bs[i], moves[i]) && bs[i + 1] == Moved(bs[i], moves[i]) && moves[..i + 1][..i] == moves[..i]
    ensures bs[0] == Board(map[], 0, [])
  {
  }

  /** The board at any time: the last word on every thread, one channel closed for every word that
      counted, and one waiter for every call, in order. */
  lemma {:induction false} BoardIsHistory(bs: seq<Board>, moves: seq<Move>, i: nat)
    requires Waits(bs, moves) && i <= |moves|
    ensures forall thread | thread != "" :: Status(bs[i], thread) == LastHeard(moves[..i], thread)
    ensures bs[i].channel == Updates(moves[..i])
    ensures |bs[i].waiters| == |Joins(moves[..i])|
    ensures forall k | 0 <= k < |bs[i].waiters| :: bs[i].waiters[k].thread == Joins(moves[..i])[k]
  {
    if i > 0 {
      BoardIsHistory(bs, moves, i - 1);
      WaitsStep(bs, moves, i - 1);
      hide Waits;
    }
  }

  /** The wait looks while native's last word on its thread is `ready`, or a terminal one. */
  predicate Sees(moves: seq<Move>, j: nat, k: nat, thread: string, words: set<string>)
    requires j < |moves|
  {
    moves[j] == Look(k) && LastHeard(moves[..j], thread) in words
  }

  ghost predicate Seen(moves: seq<Move>, i: nat, k: nat, thread: string, words: set<string>)
    requires i <= |moves|
  {
    exists j :: 0 <= j < i && Sees(moves, j, k, thread, words)
  }

  ghost predicate CancelledWait(moves: seq<Move>, i: nat, k: nat)
    requires i <= |moves|
  {
    exists j :: 0 <= j < i && moves[j] == Cancel(k)
  }

  const Terminal: set<string> := {"failed", "cancelled"}

  /** Parked on the channel that was open when it last looked, which found no decisive word. */
  ghost predicate ParkedSince(moves: seq<Move>, i: nat, k: nat, thread: string, channel: nat)
    requires i <= |moves|
  {
    exists j :: 0 <= j < i && moves[j] == Look(k) && channel == Updates(moves[..j])
                && LastHeard(moves[..j], thread) !in {"ready"} + Terminal
  }

  ghost predicate WaiterOk(b: Board, moves: seq<Move>, i: nat, k: nat)
    requires i <= |moves| && k < |b.waiters|
  {
    var x := b.waiters[k];
    && (x.Ready? <==> Seen(moves, i, k, x.thread, {"ready"}))
    && (x.GaveUp? <==> Seen(moves, i, k, x.thread, Terminal) || CancelledWait(moves, i, k))
    && (x.Parked? ==> ParkedSince(moves, i, k, x.thread, x.channel))
  }

  lemma SeenGrows(moves: seq<Move>, i: nat, k: nat, thread: string, words: set<string>)
    requires i < |moves|
    ensures Seen(moves, i + 1, k, thread, words) <==> Seen(moves, i, k, thread, words) || Sees(moves, i, k, thread, words)
    ensures CancelledWait(moves, i + 1, k) <==> CancelledWait(moves, i, k) || moves[i] == Cancel(k)
    ensures forall channel | ParkedSince(moves, i, k, thread, channel) :: ParkedSince(moves, i + 1, k, thread, channel)
    ensures moves[i] == Look(k) && LastHeard(moves[..i], thread) !in {"ready"} + Terminal ==>
              ParkedSince(moves, i + 1, k, thread, Updates(moves[..i]))
  {
    hide Sees, LastHeard, Updates;
  }

  lemma StepWaiter(b: Board, moves: seq<Move>, i: nat, k: nat)
    requires i < |moves| && May(b, moves[i]) && k < |b.waiters| && WaiterOk(b, moves, i, k)
    requires Status(b, b.waiters[k].thread) == LastHeard(moves[..i], b.waiters[k].thread) && b.channel == Updates(moves[..i])
    ensures k < |Moved(b, moves[i]).waiters| && WaiterOk(Moved(b, moves[i]), moves, i + 1, k)
  {
    var thread := b.waiters[k].thread;
    SeenGrows(moves, i, k, thread, {"ready"});
    SeenGrows(moves, i, k, thread, Terminal);
    hide Seen, CancelledWait, ParkedSince, LastHeard, Updates, Status;
    assert moves[i] != Look(k) ==> Moved(b, moves[i]).waiters[k] == b.waiters[k] || moves[i] in {Rouse(k), Cancel(k)};
    if moves[i] == Look(k) {
      assert Moved(b, moves[i]).waiters[k] == Looked(b, thread);
      hide May, Moved;
    }
  }

  /** Every wait ends as native's word says: it goes on exactly when it looked while the last word on its
      thread was `ready`, and gives up exactly when it looked while that word was `failed` or `cancelled`,
      or its context ended; and it sleeps only after a look that found no such word. */
  lemma {:induction false} WaitsAreDecided(bs: seq<Board>, moves: seq<Move>, i: nat, k: nat)
    requires Waits(bs, moves) && i <= |moves| && k < |bs[i].waiters| && bs[i].waiters[k].thread != ""
    ensures WaiterOk(bs[i], moves, i, k)
  {
    if i > 0 {
      BoardIsHistory(bs, moves, i - 1);
      WaitsStep(bs, moves, i - 1);
      hide Waits, LastHeard, Updates, Joins;
      if k < |bs[i - 1].waiters| {
        WaitsAreDecided(bs, moves, i - 1, k);
        hide WaiterOk, Moved, Status;
        StepWaiter(bs[i - 1], moves, i - 1, k);
      } else {
        var thread := bs[i].waiters[k].thread;
        NotYet(bs, moves, i - 1, k, thread);
        SeenGrows(moves, i - 1, k, thread, {"ready"});
        SeenGrows(moves, i - 1, k, thread, Terminal);
        hide Seen, CancelledWait, ParkedSince;
      }
    }
  }

  lemma {:induction false} NotYet(bs: seq<Board>, moves: seq<Move>, i: nat, k: nat, thread: string)
    requires Waits(bs, moves) && i <= |moves| && |bs[i].waiters| <= k
    ensures !Seen(moves, i, k, thread, {"ready"}) && !Seen(moves, i, k, thread, Terminal) && !CancelledWait(moves, i, k)
  {
    if i > 0 {
      WaitsStep(bs, moves, i - 1);
      NotYet(bs, moves, i - 1, k, thread);
      SeenGrows(moves, i - 1, k, thread, {"ready"});
      SeenGrows(moves, i - 1, k, thread, Terminal);
      hide Waits, Seen, CancelledWait, ParkedSince, LastHeard, Updates;
    }
  }

  /** A sleeping waiter may be woken exactly when a word that counts came after its last look. */
  lemma WokenExactly(bs: seq<Board>, moves: seq<Move>, i: nat, k: nat)
    requires Waits(bs, moves) && i <= |moves| && k < |bs[i].waiters| && bs[i].waiters[k].Parked?
    ensures May(bs[i], Rouse(k)) <==> bs[i].waiters[k].channel != Updates(moves[..i])
  {
    BoardIsHistory(bs, moves, i);
    RunBoard(bs, moves, i);
    hide Waits, Updates, Joins, LastHeard;
  }

  /** The startup table and its broadcast channel, replaced under the lock. */
  class StartupBoard {
    var startup: map<string, string>
    var channel: nat

    constructor ()
      ensures startup == map[] && channel == 0
    {
      startup, channel := map[], 0;
    }

    method ReceiveStartup(n: Notice)
      modifies this
      ensures forall waiters :: Board(startup, channel, waiters) == Heard(Board(old(startup), old(channel), waiters), n)
    {
      if n.name != LaneServer { return; }
      if n.thread == "" { return; }
      startup := startup[n.thread := n.status];
      channel := channel + 1;
    }

    /** One look of the waiting loop: the status and the channel are read together. */
    method Snapshot(thread: string) returns (w: Waiter)
      ensures w == Looked(Board(startup, channel, []), thread)
    {
      var state, changed := if thread in startup then startup[thread] else "", channel;
      if state == "ready" { return Ready(thread); }
      if state == "failed" || state == "cancelled" { return GaveUp(thread); }
      return Parked(thread, changed);
    }
  }
}
