/** The books of the native client, in every run: which calls are open, which replies were observed, and
    which served requests are live and cancelled, told by what happened. */
module AppBooks {
  import opened Prelude
  import opened BrokerIds
  import opened AppClient
  import opened AppRun
  import opened AppReads

  // ----- calls ---------------------------------------------------------------------------------

  /** The step opens call `id`. */
  predicate Opens(w: World, a: Action, id: nat) {
    a.OpenCall? && !w.client.failed && |w.client.pending| < 256 && w.client.next + 1 == id
  }

  ghost predicate Opened(ws: seq<World>, acts: seq<Action>, i: nat, id: nat)
    requires i <= |acts| < |ws|
  {
    exists k :: 0 <= k < i && Opens(ws[k], acts[k], id)
  }

  predicate OpensObserving(w: World, a: Action, id: nat) {
    Opens(w, a, id) && a.observes
  }

  /** The call was opened with an observer. */
  ghost predicate Watched(ws: seq<World>, acts: seq<Action>, i: nat, id: nat)
    requires i <= |acts| < |ws|
  {
    exists k :: 0 <= k < i && OpensObserving(ws[k], acts[k], id)
  }

  /** A call against its slot, its answer and its reply; `watched` says that it has an observer. */
  ghost predicate BookOk(w: World, id: nat, watched: bool)
    requires id in w.callers
  {
    var x := w.callers[id];
    && (!w.client.failed ==> (id in w.client.pending <==> id !in w.answered && x.phase != Returned(WriteError)))
    && (id in w.client.pending ==> (w.client.pending[id].Drained? <==> x.phase == Returned(GaveUp)))
    && (id in w.client.pending && w.client.pending[id].Live? ==> w.client.pending[id].observes == watched)
    && (w.reader.Settling? && w.reader.id == id ==> w.reader.observes == watched)
    && (x.mail == [] ==> !x.observed)
    && (x.mail != [] ==> x.observed == (x.mail[0].Settled? && watched
                                        && x.mail[0].source < |w.incoming| && !w.incoming[x.mail[0].source].refused))
  }

  lemma ArriveCallersKept(j: Json, w: World, f: Incoming)
    requires Known(j, w)
    ensures var w' := OnArrive(j, w, f);
            w'.callers == w.callers && forall k | k in w'.answered :: k in w.answered || k in w.callers
  {
    HandlePending(j, w.client, f);
    var v := Handle(j, w.client, f).1;
    hide Handle, Answers;
    assert v.Claimed? || v.Discard? ==> v.id in w.callers;
    assert OnArrive(j, w, f).answered == if v.Claimed? || v.Discard? then w.answered + {v.id} else w.answered;
    assert OnArrive(j, w, f).callers == w.callers;
  }

  lemma AdvanceCallersKept(w: World)
    ensures OnAdvance(w).callers.Keys == w.callers.Keys && OnAdvance(w).answered == w.answered
  {
    hide Fail, Orphans;
  }

  lemma NewBook(j: Json, w: World, a: Action, id: nat)
    requires Enabled(w, a) && Known(j, w) && (forall k | k in w.answered :: k in w.callers)
    ensures var w' := Next(j, w, a);
            && (id in w'.callers <==> id in w.callers || Opens(w, a, id))
            && (Opens(w, a, id) ==> id !in w.callers && BookOk(w', id, a.observes))
            && (forall k | k in w'.answered :: k in w'.callers)
  {
    hide BookOk, Next;
    if a.OpenCall? {
      OpenNew(j, w, a.observes, id);
    } else {
      hide Known;
      CallersStay(j, w, a);
    }
  }

  lemma OpenNew(j: Json, w: World, observes: bool, id: nat)
    requires Known(j, w) && (forall k | k in w.answered :: k in w.callers)
    ensures var w' := Next(j, w, OpenCall(observes));
            && (id in w'.callers <==> id in w.callers || Opens(w, OpenCall(observes), id))
            && (Opens(w, OpenCall(observes), id) ==> id !in w.callers && BookOk(w', id, observes))
            && (forall k | k in w'.answered :: k in w'.callers)
  {
    hide Answers;
  }

  lemma CallersStay(j: Json, w: World, a: Action)
    requires Enabled(w, a) && Known(j, w) && !a.OpenCall?
    ensures var w' := Next(j, w, a);
            w'.callers.Keys == w.callers.Keys && forall k | k in w'.answered :: k in w.answered || k in w.callers
  {
    hide Handle, Mark, Fail, Orphans, OnArrive, OnAdvance, Known;
    match a
    case Arrive(f) => ArriveCallersKept(j, w, f);
    case Advance => AdvanceCallersKept(w);
    case _ =>
  }

  /** A book that nothing of the step is about. */
  lemma SameBook(w: World, w': World, id: nat, watched: bool)
    requires id in w.callers && id in w'.callers && BookOk(w, id, watched)
    requires w'.callers[id].mail == w.callers[id].mail && w'.callers[id].observed == w.callers[id].observed
    requires w'.callers[id].phase == w.callers[id].phase
             || (!(w'.callers[id].phase in {Returned(WriteError), Returned(GaveUp)}) && !(w.callers[id].phase in {Returned(WriteError), Returned(GaveUp)}))
    requires w.client.failed ==> w'.client.failed
    requires id in w'.client.pending ==> id in w.client.pending && w'.client.pending[id] == w.client.pending[id]
    requires !w'.client.failed ==> (id in w'.client.pending <==> id in w.client.pending) && (id in w'.answered <==> id in w.answered)
    requires w'.reader.Settling? && w'.reader.id == id ==> w'.reader == w.reader
    requires w.incoming <= w'.incoming
    requires w.callers[id].mail != [] && w.callers[id].mail[0].Settled? ==> w.callers[id].mail[0].source < |w.incoming|
    ensures BookOk(w', id, watched)
  {
  }

  /** The reply on the channel is of a frame that was read. */
  lemma MailIsRead(j: Json, w: World, id: nat)
    requires CallersOk(j, w) && id in w.callers
    ensures w.callers[id].mail != [] && w.callers[id].mail[0].Settled? ==> w.callers[id].mail[0].source < |w.incoming|
    ensures Consistent(w.callers[id], ClaimedFor(w.reader, id), id in w.failing, Slot(w.client, id))
    ensures id <= w.client.next
  {
    assert CallerOk(j, w, id, w.callers[id]);
    hide Answers, Consistent;
  }

  lemma ArriveBook(j: Json, w: World, f: Incoming, id: nat, watched: bool)
    requires w.reader.Listening? && CallersOk(j, w) && id in w.callers && BookOk(w, id, watched)
    ensures id in OnArrive(j, w, f).callers && BookOk(OnArrive(j, w, f), id, watched)
  {
    HandlePending(j, w.client, f);
    MailIsRead(j, w, id);
    hide Handle, Answers, CallersOk, Consistent;
    var w', v := OnArrive(j, w, f), Handle(j, w.client, f).1;
    assert w'.callers == w.callers && w'.incoming == w.incoming + [f] && w'.client == Handle(j, w.client, f).0;
    if (v.Claimed? || v.Discard?) && v.id == id {
      AnsweredBook(w, w', id, watched);
    } else {
      hide BookOk;
      SameBook(w, w', id, watched);
    }
  }

  lemma AnsweredBook(w: World, w': World, id: nat, watched: bool)
    requires id in w.callers && BookOk(w, id, watched) && !w.client.failed && id in w.client.pending
    requires w'.callers == w.callers && w.incoming <= w'.incoming && id !in w'.client.pending && id in w'.answered
    requires w'.reader.Settling? && w'.reader.id == id ==> w.client.pending[id] == Live(w'.reader.observes)
    requires w.callers[id].mail != [] && w.callers[id].mail[0].Settled? ==> w.callers[id].mail[0].source < |w.incoming|
    ensures BookOk(w', id, watched)
  {
  }

  lemma SettleBook(j: Json, w: World, id: nat, watched: bool)
    requires Enabled(w, AppRun.Settle) && CallersOk(j, w) && id in w.callers && BookOk(w, id, watched)
    ensures id in OnSettle(w).callers && BookOk(OnSettle(w), id, watched)
  {
    assert CallerOk(j, w, id, w.callers[id]);
    assert ClaimedFor(w.reader, id) ==> w.callers[id].mail == [];
    hide Answers, CallersOk, Consistent;
  }

  lemma FailBook(j: Json, w: World, w': World, id: nat, watched: bool)
    requires CallersOk(j, w) && id in w.callers && BookOk(w, id, watched)
    requires w'.client == Fail(w.client) && w'.callers == w.callers && w'.incoming == w.incoming && w'.answered == w.answered
    requires w'.reader == w.reader || !w'.reader.Settling?
    ensures BookOk(w', id, watched)
  {
    hide CallersOk;
  }

  lemma WithdrawBook(j: Json, w: World, a: Action, id: nat, watched: bool)
    requires Enabled(w, a) && CallersOk(j, w) && id in w.callers && BookOk(w, id, watched)
    requires a.Withdraw? || a.CancelCaller?
    ensures id in Next(j, w, a).callers && BookOk(Next(j, w, a), id, watched)
  {
    MailIsRead(j, w, id);
    hide CallersOk;
    var w' := Next(j, w, a);
    if a.id != id {
      assert w'.callers[id] == w.callers[id];
      hide BookOk, Consistent, Slot, Next;
      OtherSlot(j, w, a, id);
      SameBook(w, w', id, watched);
    }
  }

  lemma OtherSlot(j: Json, w: World, a: Action, id: nat)
    requires Enabled(w, a) && (a.Withdraw? || a.CancelCaller?) && a.id != id && id in w.callers
    ensures var w' := Next(j, w, a);
            && id in w'.callers && w'.callers[id] == w.callers[id]
            && (id in w'.client.pending <==> id in w.client.pending)
            && (id in w.client.pending ==> w'.client.pending[id] == w.client.pending[id])
            && w'.client.failed == w.client.failed && w'.reader == w.reader && w'.incoming == w.incoming && w'.answered == w.answered
  {
  }

  lemma ChannelBook(j: Json, w: World, a: Action, id: nat, watched: bool)
    requires Enabled(w, a) && CallersOk(j, w) && id in w.callers && BookOk(w, id, watched)
    requires a.SkipGate? || a.Receive? || a.Wake?
    ensures id in Next(j, w, a).callers && BookOk(Next(j, w, a), id, watched)
  {
    MailIsRead(j, w, id);
    if a.Wake? && a.id == id {
      hide CallersOk;
    } else {
      hide CallersOk, BookOk, Consistent, Slot;
      SameBook(w, Next(j, w, a), id, watched);
    }
  }

  lemma AdvanceBook(j: Json, w: World, id: nat, watched: bool)
    requires Enabled(w, Advance) && CallersOk(j, w) && SlotsOk(w) && id in w.callers && BookOk(w, id, watched)
    ensures id in OnAdvance(w).callers && BookOk(OnAdvance(w), id, watched)
  {
    MailIsRead(j, w, id);
    AdvanceKeeps(w, id);
    hide CallersOk, BookOk, Consistent, SlotsOk, OnAdvance;
    SameBook(w, OnAdvance(w), id, watched);
  }

  lemma AdvanceKeeps(w: World, id: nat)
    requires Enabled(w, Advance) && SlotsOk(w) && id in w.callers
    ensures var w' := OnAdvance(w);
            && id in w'.callers && w'.callers[id].mail == w.callers[id].mail && w'.callers[id].observed == w.callers[id].observed
            && (w'.callers[id].phase == w.callers[id].phase
                || (w.callers[id].phase == Writing && w'.callers[id].phase in {Waiting, Withdrawing}))
            && (w'.client == w.client || (w'.client.failed && w'.client.pending == if w.client.failed then w.client.pending else map[]))
            && w'.reader == w.reader && w'.incoming == w.incoming && w'.answered == w.answered && (w.client.failed ==> w'.client.failed)
  {
    FailKeeps(w);
    hide Orphans, Fail, AppRun.Failed;
  }

  lemma FailKeeps(w: World)
    ensures var w' := AppRun.Failed(w);
            && w'.callers == w.callers && w'.client.failed && w'.client.pending == (if w.client.failed then w.client.pending else map[])
            && w'.reader == w.reader && w'.incoming == w.incoming && w'.answered == w.answered && w'.gate == w.gate
  {
    hide Orphans;
  }

  lemma GateBook(j: Json, w: World, a: Action, id: nat, watched: bool)
    requires Enabled(w, a) && CallersOk(j, w) && id in w.callers && BookOk(w, id, watched)
    requires a.TakeGate? || a.Balk? || a.Start? || a.Finish? || a.Desert? || a.HandlerEnds?
    ensures id in Next(j, w, a).callers && BookOk(Next(j, w, a), id, watched)
  {
    MailIsRead(j, w, id);
    hide CallersOk, Consistent, BookOk, Next;
    GateKeeps(j, w, a);
    SameBook(w, Next(j, w, a), id, watched);
  }

  lemma GateKeeps(j: Json, w: World, a: Action)
    requires Enabled(w, a) && (a.TakeGate? || a.Balk? || a.Start? || a.Finish? || a.Desert? || a.HandlerEnds?)
    ensures var w' := Next(j, w, a);
            && w'.callers == w.callers && w'.client.failed == w.client.failed && w'.client.pending == w.client.pending
            && w'.reader == w.reader && w'.incoming == w.incoming && w'.answered == w.answered
  {
    hide Mark;
  }

  lemma OpenBook(j: Json, w: World, observes: bool, id: nat, watched: bool)
    requires CallersOk(j, w) && id in w.callers && BookOk(w, id, watched)
    ensures id in OnOpen(w, observes).callers && BookOk(OnOpen(w, observes), id, watched)
  {
    MailIsRead(j, w, id);
    hide CallersOk, Consistent, BookOk;
    SameBook(w, OnOpen(w, observes), id, watched);
  }

  lemma StepBook(j: Json, w: World, a: Action, id: nat, watched: bool)
    requires Enabled(w, a) && CallersOk(j, w) && SlotsOk(w) && id in w.callers && BookOk(w, id, watched)
    ensures id in Next(j, w, a).callers && BookOk(Next(j, w, a), id, watched)
  {
    hide BookOk, OnArrive, OnSettle, OnAdvance, OnOpen, Mark, CallersOk, SlotsOk;
    match a
    case Arrive(f) => ArriveBook(j, w, f, id, watched);
    case Settle => SettleBook(j, w, id, watched);
    case Advance => AdvanceBook(j, w, id, watched);
    case ReaderFails => FailBook(j, w, Next(j, w, a), id, watched);
    case ContextFails => FailBook(j, w, Next(j, w, a), id, watched);
    case OpenCall(observes) => OpenBook(j, w, observes, id, watched);
    case _ => hide Next; QuietBook(j, w, a, id, watched);
  }

  lemma QuietBook(j: Json, w: World, a: Action, id: nat, watched: bool)
    requires Enabled(w, a) && CallersOk(j, w) && id in w.callers && BookOk(w, id, watched)
    requires !a.Arrive? && !a.Settle? && !a.Advance? && !a.ReaderFails? && !a.ContextFails? && !a.OpenCall?
    ensures id in Next(j, w, a).callers && BookOk(Next(j, w, a), id, watched)
  {
    hide BookOk, CallersOk, Next, Enabled;
    if a.Withdraw? || a.CancelCaller? { WithdrawBook(j, w, a, id, watched); }
    else if a.SkipGate? || a.Receive? || a.Wake? { ChannelBook(j, w, a, id, watched); }
    else { GateBook(j, w, a, id, watched); }
  }

  // ----- calls, in every run -------------------------------------------------------------------

  lemma RunStart(j: Json, ws: seq<World>, acts: seq<Action>)
    requires Run(j, ws, acts)
    ensures |ws| == |acts| + 1 && ws[0] == Initial()
  {
    hide Next, Enabled;
  }

  lemma RunStep(j: Json, ws: seq<World>, acts: seq<Action>, i: nat)
    requires Run(j, ws, acts) && i < |acts|
    ensures |ws| == |acts| + 1 && Enabled(ws[i], acts[i]) && ws[i + 1] == Next(j, ws[i], acts[i])
    ensures CallersOk(j, ws[i]) && SlotsOk(ws[i]) && RequestsOk(j, ws[i])
  {
    AppRun.RunSound(j, ws, acts, i);
    hide Next, Enabled, CallersOk, SlotsOk, RequestsOk, WireOk, WritesOk, CallersHaveSlot;
  }

  lemma OpenedGrows(ws: seq<World>, acts: seq<Action>, i: nat, id: nat)
    requires i < |acts| < |ws|
    ensures Opened(ws, acts, i + 1, id) <==> Opened(ws, acts, i, id) || Opens(ws[i], acts[i], id)
    ensures Watched(ws, acts, i + 1, id) <==> Watched(ws, acts, i, id) || OpensObserving(ws[i], acts[i], id)
  {
    hide Opens, OpensObserving;
  }

  ghost predicate BooksOk(ws: seq<World>, acts: seq<Action>, i: nat, id: nat)
    requires i <= |acts| < |ws|
  {
    && (id in ws[i].callers <==> Opened(ws, acts, i, id))
    && (id in ws[i].callers ==> BookOk(ws[i], id, Watched(ws, acts, i, id)))
    && (Watched(ws, acts, i, id) ==> id in ws[i].callers)
    && (forall k | k in ws[i].answered :: k in ws[i].callers)
  }

  lemma {:induction false} RunBooks(j: Json, ws: seq<World>, acts: seq<Action>, i: nat, id: nat)
    requires Run(j, ws, acts) && i <= |acts| < |ws|
    ensures BooksOk(ws, acts, i, id)
  {
    hide Run, Next, Enabled, BooksOk;
    RunStart(j, ws, acts);
    if i > 0 {
      RunBooks(j, ws, acts, i - 1, id);
      StepBooks(j, ws, acts, i - 1, id);
    } else {
      StartBooks(ws, acts, id);
    }
  }

  lemma StartBooks(ws: seq<World>, acts: seq<Action>, id: nat)
    requires |acts| < |ws| && ws[0] == Initial()
    ensures BooksOk(ws, acts, 0, id)
  {
  }

  lemma StepBooks(j: Json, ws: seq<World>, acts: seq<Action>, i: nat, id: nat)
    requires Run(j, ws, acts) && i < |acts| < |ws| && BooksOk(ws, acts, i, id)
    ensures BooksOk(ws, acts, i + 1, id)
  {
    hide Run, Next, Enabled, BookOk, Opened, Watched, Opens, SlotsOk, RequestsOk;
    RunStep(j, ws, acts, i);
    OpenedGrows(ws, acts, i, id);
    var w, a := ws[i], acts[i];
    KnownCallers(j, w);
    NewBook(j, w, a, id);
    if id in w.callers { StepBook(j, w, a, id, Watched(ws, acts, i, id)); }
    hide CallersOk;
  }

  lemma KnownCallers(j: Json, w: World)
    requires CallersOk(j, w)
    ensures Known(j, w)
  {
  }

  /** The calls of the client, in every run: a caller is there exactly when its call was opened; its slot is
      open exactly when it has not been answered and its caller has not withdrawn, unless the client has
      failed; the slot is being drained exactly when its caller gave up; and its observer has run exactly
      when it has one and its reply is a result. */
  lemma CallsAreBooked(j: Json, ws: seq<World>, acts: seq<Action>, i: nat, id: nat)
    requires Run(j, ws, acts) && i <= |acts| < |ws|
    ensures id in ws[i].callers <==> Opened(ws, acts, i, id)
    ensures id in ws[i].callers && !ws[i].client.failed ==>
              (id in ws[i].client.pending <==> id !in ws[i].answered && ws[i].callers[id].phase != Returned(WriteError))
    ensures id in ws[i].callers && id in ws[i].client.pending ==>
              (ws[i].client.pending[id].Drained? <==> ws[i].callers[id].phase == Returned(GaveUp))
    ensures id in ws[i].callers ==>
              var x := ws[i].callers[id];
              x.observed <==> Watched(ws, acts, i, id) && x.mail != [] && x.mail[0].Settled?
                              && x.mail[0].source < |ws[i].incoming| && !ws[i].incoming[x.mail[0].source].refused
  {
    RunBooks(j, ws, acts, i, id);
    hide Run, Opened, Watched;
  }

  // ----- served requests -----------------------------------------------------------------------

  /** Every request being served has its handler. */
  ghost predicate Served(w: World) {
    forall key | key in w.client.serving :: exists k :: k in w.running && w.running[k] == key
  }

  /** A resolution that names the request of handler `index`. */
  predicate Dismisses(j: Json, w: World, a: Action, index: nat) {
    && a.Arrive? && w.reader.Listening? && IsResolution(a.f) && j.resolution(a.f.params).Some?
    && index in w.running && index < |w.incoming|
    && var (thread, raw) := j.resolution(a.f.params).value;
       thread != "" && RequestKey(j, raw) == Some(w.running[index]) && thread == j.threadId(w.incoming[index].params)
  }

  ghost predicate Dismissed(j: Json, ws: seq<World>, acts: seq<Action>, i: nat, index: nat)
    requires i <= |acts| < |ws|
  {
    exists k :: 0 <= k < i && Dismisses(j, ws[k], acts[k], index)
  }

  ghost predicate MarkOk(w: World, index: nat, dismissed: bool) {
    index in w.running ==> w.running[index] in w.client.serving && w.client.serving[w.running[index]].cancelled == dismissed
  }

  lemma StepServed(j: Json, w: World, a: Action)
    requires Enabled(w, a) && RequestsOk(j, w) && Served(w)
    ensures Served(Next(j, w, a))
  {
    var w' := Next(j, w, a);
    match a {
      case Arrive(f) => ArriveServed(j, w, f); hide OnArrive;
      case HandlerEnds(index) =>
        hide RequestKey;
        forall key | key in w'.client.serving ensures exists k :: k in w'.running && w'.running[k] == key {
          var k :| k in w.running && w.running[k] == key;
          assert k in w'.running && w'.running[k] == key;
        }
      case _ =>
        OtherServed(j, w, a);
        hide Next, RequestsOk;
    }
  }

  lemma OtherServed(j: Json, w: World, a: Action)
    requires Enabled(w, a) && !a.Arrive? && !a.HandlerEnds?
    ensures Next(j, w, a).client.serving == w.client.serving && Next(j, w, a).running == w.running
    ensures w.incoming == Next(j, w, a).incoming
  {
    hide Mark, Orphans, OnAdvance, OnOpen;
    if a.Advance? { AdvanceServed(w); }
    if a.OpenCall? { OpenServed(w, a.observes); }
  }

  lemma AdvanceServed(w: World)
    ensures var w' := OnAdvance(w);
            w'.client.serving == w.client.serving && w'.running == w.running && w'.incoming == w.incoming
  {
    hide Orphans;
  }

  lemma OpenServed(w: World, observes: bool)
    ensures var w' := OnOpen(w, observes);
            w'.client.serving == w.client.serving && w'.running == w.running && w'.incoming == w.incoming
  {
  }

  lemma ArriveServed(j: Json, w: World, f: Incoming)
    requires RequestsOk(j, w) && Served(w)
    ensures Served(OnArrive(j, w, f))
  {
    HandleServing(j, w.client, f);
    ArriveRuns(j, w, f);
    var w', v := OnArrive(j, w, f), Handle(j, w.client, f).1;
    hide OnArrive, Handle, RequestKey;
    forall key | key in w'.client.serving ensures exists k :: k in w'.running && w'.running[k] == key {
      if v.Serve? && key == v.key {
        assert w'.running[|w.incoming|] == key;
      } else {
        var k :| k in w.running && w.running[k] == key;
        assert k in w'.running && w'.running[k] == key;
      }
    }
  }

  /** A step changes the mark of a handler only by a resolution that names it. */
  lemma StepMark(j: Json, w: World, a: Action, index: nat, dismissed: bool)
    requires Enabled(w, a) && RequestsOk(j, w) && index in w.running && MarkOk(w, index, dismissed)
    ensures MarkOk(Next(j, w, a), index, dismissed || Dismisses(j, w, a, index))
    ensures index in Next(j, w, a).running ==> Next(j, w, a).running[index] == w.running[index]
  {
    match a {
      case Arrive(f) => ArriveMark(j, w, f, index, dismissed); hide OnArrive, RequestsOk;
      case HandlerEnds(k) => hide RequestKey;
      case _ => OtherServed(j, w, a); hide Next, RequestsOk;
    }
  }

  lemma ArriveMark(j: Json, w: World, f: Incoming, index: nat, dismissed: bool)
    requires w.reader.Listening? && RequestsOk(j, w) && index in w.running && MarkOk(w, index, dismissed)
    ensures MarkOk(OnArrive(j, w, f), index, dismissed || Dismisses(j, w, Arrive(f), index))
    ensures index in OnArrive(j, w, f).running && OnArrive(j, w, f).running[index] == w.running[index]
  {
    HandleServing(j, w.client, f);
    ArriveRuns(j, w, f);
    HandleMark(j, w.client, f, w.running[index]);
    hide OnArrive, Handle, RequestKey;
  }

  lemma HandleMark(j: Json, c: Client, f: Incoming, key: Key)
    requires key in c.serving
    ensures var c' := Handle(j, c, f).0;
            && key in c'.serving
            && (c'.serving[key].cancelled <==>
                  || c.serving[key].cancelled
                  || (&& IsResolution(f) && j.resolution(f.params).Some?
                      && var (thread, raw) := j.resolution(f.params).value;
                         thread != "" && RequestKey(j, raw) == Some(key) && thread == c.serving[key].thread))
  {
    hide RequestKey;
  }

  lemma NewMark(j: Json, w: World, a: Action, index: nat)
    requires Enabled(w, a) && RequestsOk(j, w) && index !in w.running
    ensures MarkOk(Next(j, w, a), index, false) && !Dismisses(j, w, a, index)
  {
    match a {
      case Arrive(f) =>
        HandleServing(j, w.client, f);
        ArriveRuns(j, w, f);
        hide OnArrive, Handle, RequestKey, RequestsOk;
      case HandlerEnds(k) => hide RequestKey, RequestsOk;
      case _ => OtherServed(j, w, a); hide Next, RequestsOk;
    }
  }

  lemma DismissedGrows(j: Json, ws: seq<World>, acts: seq<Action>, i: nat, index: nat)
    requires i < |acts| < |ws|
    ensures Dismissed(j, ws, acts, i + 1, index) <==> Dismissed(j, ws, acts, i, index) || Dismisses(j, ws[i], acts[i], index)
  {
    hide Dismisses;
  }

  /** A handler that has not begun yet, or has ended, was not dismissed while it was away. */
  lemma {:induction false} RunMarks(j: Json, ws: seq<World>, acts: seq<Action>, i: nat, index: nat)
    requires Run(j, ws, acts) && i <= |acts| < |ws|
    ensures index in ws[i].running ==> MarkOk(ws[i], index, Dismissed(j, ws, acts, i, index))
    ensures |ws[i].incoming| <= index ==> !Dismissed(j, ws, acts, i, index)
  {
    hide Run, Next, Enabled, MarkOk, Dismissed, Dismisses;
    RunStart(j, ws, acts);
    if i > 0 {
      RunMarks(j, ws, acts, i - 1, index);
      RunStep(j, ws, acts, i - 1);
      DismissedGrows(j, ws, acts, i - 1, index);
      var w, a := ws[i - 1], acts[i - 1];
      IndexesGrow(j, w, a, index);
      hide CallersOk, SlotsOk, RequestsOk;
      if index in w.running {
        StepMark(j, w, a, index, Dismissed(j, ws, acts, i - 1, index));
      } else {
        NewMark(j, w, a, index);
      }
    } else {
      hide CallersOk, SlotsOk, RequestsOk;
      StartMarks(j, ws, acts, index);
    }
  }

  lemma StartMarks(j: Json, ws: seq<World>, acts: seq<Action>, index: nat)
    requires |acts| < |ws| && ws[0] == Initial()
    ensures index !in ws[0].running && !Dismissed(j, ws, acts, 0, index)
  {
  }

  lemma IndexesGrow(j: Json, w: World, a: Action, index: nat)
    requires Enabled(w, a) && RequestsOk(j, w)
    ensures |w.incoming| <= |Next(j, w, a).incoming|
    ensures index in w.running ==> index < |w.incoming|
    ensures index in Next(j, w, a).running && index !in w.running ==> index == |w.incoming|
  {
    if a.Arrive? {
      ArriveRuns(j, w, a.f);
      hide OnArrive, Handle, RequestKey;
    } else if !a.HandlerEnds? {
      OtherServed(j, w, a);
      hide Next, RequestKey;
    } else {
      hide RequestKey;
    }
  }

  lemma {:induction false} RunServed(j: Json, ws: seq<World>, acts: seq<Action>, i: nat)
    requires Run(j, ws, acts) && i <= |acts| < |ws|
    ensures Served(ws[i])
  {
    hide Run, Next, Enabled, Served;
    RunStart(j, ws, acts);
    if i > 0 {
      RunServed(j, ws, acts, i - 1);
      RunStep(j, ws, acts, i - 1);
      hide CallersOk, SlotsOk, RequestsOk;
      StepServed(j, ws[i - 1], acts[i - 1]);
    } else {
      StartServed();
    }
  }

  lemma StartServed()
    ensures Served(Initial())
  {
  }

  /** The requests being served, in every run: each has its handler and each handler its request, so a slot
      is given back when its handler ends; and a request is cancelled exactly when a resolution that names
      its identifier and its thread has been read. */
  lemma RequestsAreBooked(j: Json, ws: seq<World>, acts: seq<Action>, i: nat, index: nat)
    requires Run(j, ws, acts) && i <= |acts| < |ws|
    ensures forall key :: key in ws[i].client.serving <==> exists k :: k in ws[i].running && ws[i].running[k] == key
    ensures index in ws[i].running ==>
              && ws[i].running[index] in ws[i].client.serving
              && (ws[i].client.serving[ws[i].running[index]].cancelled <==> Dismissed(j, ws, acts, i, index))
  {
    RunServed(j, ws, acts, i);
    RunMarks(j, ws, acts, i, index);
    AppRun.RunSound(j, ws, acts, i);
    hide Run, CallersOk, SlotsOk, WireOk, WritesOk, CallersHaveSlot, RequestKey, Dismissed;
  }

  // ----- what goes through ---------------------------------------------------------------------

  /** How far the holder of the write gate still has to go. */
  function GateRank(g: Gate): nat {
    match g
    case Free => 0
    case Leaving(_, _) => 1
    case Joining(_, ended) => if ended.Some? then 2 else 3
    case Deserting(_, ended) => if ended.Some? then 4 else 5
    case Landed(_, _) => 2
    case Flying(_) => 6
    case Cleared(_) => 7
    case Entered(_) => 8
  }

  predicate MovesGate(a: Action) {
    a.Advance? || a.Balk? || a.Start? || a.Finish? || a.Desert?
  }

  /** The gate always comes free: its holder has a next step as long as it holds the gate, every step of its
      holder brings it nearer to giving the gate back, and no other step takes the gate from it. */
  lemma GateComesFree(j: Json, w: World, a: Action)
    requires Enabled(w, a) && !w.gate.Free?
    ensures MovesGate(a) ==> GateRank(Next(j, w, a).gate) < GateRank(w.gate) && (Next(j, w, a).gate.Free? || Next(j, w, a).gate.who == w.gate.who)
    ensures !MovesGate(a) ==> Next(j, w, a).gate == w.gate
    ensures exists b :: MovesGate(b) && Enabled(w, b)
  {
    assert w.gate.Flying? || ((w.gate.Deserting? || w.gate.Joining?) && w.gate.ended.None?) || w.gate.Cleared? || Enabled(w, Advance);
    assert w.gate.Cleared? ==> Enabled(w, Balk);
    assert w.gate.Flying? || ((w.gate.Deserting? || w.gate.Joining?) && w.gate.ended.None?) ==> Enabled(w, Finish(true));
    hide Handle, Mark, Orphans, Fail;
  }

  /** A reader that has stopped reads nothing more, and the client has failed. */
  lemma {:induction false} ReaderStopsForGood(j: Json, ws: seq<World>, acts: seq<Action>, i: nat, k: nat)
    requires Run(j, ws, acts) && i <= k <= |acts| < |ws| && ws[i].reader.Stopped?
    ensures ws[k].reader.Stopped? && ws[k].incoming == ws[i].incoming
    decreases k
  {
    hide Run, Next, Enabled;
    if i < k {
      ReaderStopsForGood(j, ws, acts, i, k - 1);
      RunStep(j, ws, acts, k - 1);
      StepStopped(j, ws[k - 1], acts[k - 1]);
      hide CallersOk, SlotsOk, RequestsOk;
    }
  }

  lemma StepStopped(j: Json, w: World, a: Action)
    requires Enabled(w, a)
    ensures w.reader.Stopped? ==> Next(j, w, a).reader.Stopped? && Next(j, w, a).incoming == w.incoming
    ensures a.ReaderFails? ==> Next(j, w, a).reader.Stopped? && Next(j, w, a).client.failed
  {
    hide Handle, Mark, Orphans;
  }

  /** Nobody holds the gate, the reader listens, and there is room for one more call. */
  predicate Quiet(w: World) {
    && w.gate.Free? && w.reader.Listening? && !w.client.failed && |w.client.pending| < 256
    && w.client.next + 1 !in w.client.pending && w.client.next + 1 !in w.callers
  }

  /** The call after its write. */
  function Written(w: World, observes: bool): World {
    var id := w.client.next + 1;
    w.(client := w.client.(next := id, pending := w.client.pending[id := Live(observes)]),
       callers := w.callers[id := Caller(Waiting, [], false)],
       wire := w.wire + [Write(ByCaller(id), Some(true), false)])
  }

  lemma WriteGoesThrough(j: Json, w: World, observes: bool)
    requires Quiet(w)
    ensures var w1 := Next(j, w, OpenCall(observes));
            && Enabled(w1, TakeGate(ByCaller(w.client.next + 1)))
            && var w2 := Next(j, w1, TakeGate(ByCaller(w.client.next + 1)));
               && Enabled(w2, Advance)
               && var w3 := Next(j, w2, Advance);
                  && Enabled(w3, Start)
                  && Enabled(Next(j, w3, Start), Finish(true))
                  && var w4 := Next(j, Next(j, w3, Start), Finish(true));
                     && Enabled(w4, Advance) && Enabled(Next(j, w4, Advance), Advance)
                     && Next(j, Next(j, w4, Advance), Advance) == Written(w, observes)
  {
    hide Next, Written;
    var id := w.client.next + 1;
    var open := w.client.(next := id, pending := w.client.pending[id := Live(observes)]);
    var w1 := w.(client := open, callers := w.callers[id := Caller(Writing, [], false)]);
    CallStarts(j, w, w1, observes);
    FinishStep(j, w1, w.wire, ByCaller(id));
    CallWaits(j, w, w1, observes);
  }

  lemma CallStarts(j: Json, w: World, w1: World, observes: bool)
    requires Quiet(w)
    requires var id := w.client.next + 1;
             w1 == w.(client := w.client.(next := id, pending := w.client.pending[id := Live(observes)]),
                      callers := w.callers[id := Caller(Writing, [], false)])
    ensures var me := ByCaller(w.client.next + 1);
            && Next(j, w, OpenCall(observes)) == w1 && Enabled(w1, TakeGate(me))
            && var w2 := Next(j, w1, TakeGate(me));
               && Enabled(w2, Advance)
               && var w3 := Next(j, w2, Advance);
                  && Enabled(w3, Start)
                  && Next(j, w3, Start) == w1.(gate := Flying(me), wire := w.wire + [Write(me, None, false)])
  {
  }

  lemma CallWaits(j: Json, w: World, w1: World, observes: bool)
    requires Quiet(w)
    requires var id := w.client.next + 1;
             w1 == w.(client := w.client.(next := id, pending := w.client.pending[id := Live(observes)]),
                      callers := w.callers[id := Caller(Writing, [], false)])
    ensures var me := ByCaller(w.client.next + 1);
            var w4 := w1.(gate := Landed(me, true), wire := w.wire + [Write(me, Some(true), false)]);
            && Enabled(w4, Advance) && Enabled(Next(j, w4, Advance), Advance)
            && Next(j, Next(j, w4, Advance), Advance) == Written(w, observes)
  {
    var id := w.client.next + 1;
    assert w1.callers[id := Caller(Waiting, [], false)] == w.callers[id := Caller(Waiting, [], false)];
  }

  lemma FinishStep(j: Json, w: World, wire: seq<Write>, me: Writer)
    ensures var flying := w.(gate := Flying(me), wire := wire + [Write(me, None, false)]);
            && Enabled(flying, Finish(true))
            && Next(j, flying, Finish(true)) == w.(gate := Landed(me, true), wire := wire + [Write(me, Some(true), false)])
  {
    var flying := w.(gate := Flying(me), wire := wire + [Write(me, None, false)]);
    assert flying.wire[|wire| := Write(me, Some(true), false)] == wire + [Write(me, Some(true), false)];
  }

  /** A call goes through: once it is written and native answers it, with a result or an error, its observer
      runs for a result, and the caller returns that answer. */
  lemma CallGoesThrough(j: Json, w: World, observes: bool, f: Incoming)
    requires Quiet(w) && IsResponse(f) && j.number(f.id) == Some(w.client.next + 1) && f.refused == (f.result == "")
    ensures var id, v := w.client.next + 1, Written(w, observes);
            && Enabled(v, Arrive(f)) && Enabled(Next(j, v, Arrive(f)), AppRun.Settle)
            && var v2 := Next(j, Next(j, v, Arrive(f)), AppRun.Settle);
               && Enabled(v2, Receive(id))
               && id in Next(j, v2, Receive(id)).callers
               && Next(j, v2, Receive(id)).callers[id] ==
                  Caller(Returned(Got(Settled(|w.incoming|))), [Settled(|w.incoming|)], observes && !f.refused)
               && v2.reader.Listening? && id !in v2.client.pending
  {
    var id, v := w.client.next + 1, Written(w, observes);
    FrameHandled(j, v, f);
    var v1 := Next(j, v, Arrive(f));
    assert v1.reader == Settling(id, observes) && v1.incoming == w.incoming + [f] && id !in v1.client.pending;
    assert v1.callers == v.callers by { hide Handle; }
    assert v1.incoming[|w.incoming|] == f;
    hide Handle, Bad;
    SettleStep(j, v1, id, observes, f);
  }

  lemma SettleStep(j: Json, v1: World, id: nat, observes: bool, f: Incoming)
    requires v1.reader == Settling(id, observes) && v1.incoming != [] && v1.incoming[|v1.incoming| - 1] == f
    requires id in v1.callers && v1.callers[id] == Caller(Waiting, [], false)
    ensures var n := |v1.incoming| - 1;
            var v2 := Next(j, v1, AppRun.Settle);
            && v2.reader.Listening? && v2.client == v1.client && Enabled(v2, Receive(id))
            && id in Next(j, v2, Receive(id)).callers
            && Next(j, v2, Receive(id)).callers[id] == Caller(Returned(Got(Settled(n))), [Settled(n)], observes && !f.refused)
  {
    assert [] + [Settled(|v1.incoming| - 1)] == [Settled(|v1.incoming| - 1)];
  }
}
