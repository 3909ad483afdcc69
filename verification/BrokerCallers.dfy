/** Claim against cancellation for the broker's own calls, under every interleaving with the native
    reader and with a failure of the broker. */
module BrokerCallers {
  import opened Prelude
  import opened BrokerIds
  import opened BrokerMux
  import opened BrokerTables
  import opened BrokerRun
  import opened BrokerBytes
  import opened BrokerRouting

  /** The serial still holds a correlation. */
  predicate HoldsSlot(m: Mux, n: nat) {
    WireKey(n) in m.calls
  }

  /** The serial holds a correlation whose caller still listens. */
  predicate Listened(m: Mux, n: nat) {
    WireKey(n) in m.calls && m.calls[WireKey(n)].reply
  }

  /** The native reader has claimed the call and owes its caller the reply. */
  predicate ClaimedFor(r: Reader, n: nat) {
    r.Settling? && r.call.serial == n && r.call.reply
  }

  /** Somebody other than the caller owns completion. */
  predicate Committed(w: World, n: nat) {
    ClaimedFor(w.reader, n) || n in w.failing
  }

  ghost predicate CallerOk(w: World, n: nat, x: Caller) {
    && |x.mail| <= 1
    && !(ClaimedFor(w.reader, n) && n in w.failing)
    && (Committed(w, n) ==> x.mail == [])
    && (Committed(w, n) || x.mail != [] ==> !HoldsSlot(w.mux, n))
    && (x.observed ==> x.mail != [])
    && match x.phase
       case Waiting => (x.mail != [] || Committed(w, n) || Listened(w.mux, n)) && (HoldsSlot(w.mux, n) ==> Listened(w.mux, n))
       case Owed => x.mail != [] || Committed(w, n)
       case Cancelled => x.mail == [] && !Committed(w, n) && !Listened(w.mux, n)
       case Got(r) => x.mail == [r]
       case Unsent => true
  }

  ghost predicate Known(w: World) {
    && (forall k | k in w.mux.calls && w.mux.calls[k].reply :: w.mux.calls[k].serial in w.callers && w.mux.calls[k].original.None?)
    && (forall n | n in w.failing :: n in w.callers)
    && (w.reader.Settling? && w.reader.call.reply ==> w.reader.call.serial in w.callers && w.reader.call.original.None?)
    && (w.reader.Settling? ==> w.reader.call.serial <= w.mux.next)
    && (forall n | n in w.callers :: n <= w.mux.next)
    && (w.mux.failed ==> w.mux.calls == map[])
  }

  ghost predicate CallersOk(w: World) {
    Known(w) && forall n | n in w.callers :: CallerOk(w, n, w.callers[n])
  }

  // ----- steps ---------------------------------------------------------------------------------

  /** The correlations of the callers are as they were. */
  lemma CallersIdle(w: World, w': World)
    requires CallersOk(w) && w'.callers == w.callers && w'.failing == w.failing
    requires w.mux.next <= w'.mux.next && w'.mux.failed == w.mux.failed
    requires w.mux.failed ==> w'.mux.calls == w.mux.calls
    requires forall n: nat | n <= w.mux.next :: HoldsSlot(w'.mux, n) == HoldsSlot(w.mux, n) && Listened(w'.mux, n) == Listened(w.mux, n)
    requires forall k | k in w'.mux.calls && w'.mux.calls[k].reply :: k in w.mux.calls && w'.mux.calls[k] == w.mux.calls[k]
    requires w'.reader == w.reader || (!w'.reader.Settling? && (w.reader.Settling? ==> !w.reader.call.reply))
    ensures CallersOk(w')
  {
    hide WireKey, HoldsSlot, Listened;
    forall n | n in w'.callers ensures CallerOk(w', n, w'.callers[n]) {
      assert CallerOk(w, n, w.callers[n]);
      assert n <= w.mux.next;
    }
  }

  lemma TuiFrameCallers(c: Codec, w: World, f: Frame)
    requires CallersOk(w) && Fresh(w.mux)
    ensures CallersOk(OnTuiFrame(c, w, f))
  {
    var w' := OnTuiFrame(c, w, f);
    FromTuiEffect(c, w.mux, f);
    FromTuiFailed(c, w.mux, f);
    assert w.mux.failed ==> w'.mux == w.mux by { hide BrokerId, TuiResponse, TuiRequest, TuiNotice; }
    forall n: nat | n <= w.mux.next
      ensures WireKey(n) != WireKey(w.mux.next + 1)
    {
      WireKeyInjective(n, w.mux.next + 1);
    }
    hide FromTui, TuiEntry, BrokerId, WireKey, CallersOk;
    CallersIdle(w, w');
  }

  lemma ClaimCallers(w: World, w': World, key: Key, call: Call)
    requires CallersOk(w) && Fresh(w.mux) && !w.reader.Settling? && key in w.mux.calls && call == w.mux.calls[key]
    requires w'.mux.calls == w.mux.calls - {key} && w'.mux.next == w.mux.next && w'.mux.failed == w.mux.failed
    requires w'.callers == w.callers && w'.failing == w.failing && w'.reader.Settling? && w'.reader.call == call
    ensures CallersOk(w')
  {
    forall n | n in w'.callers ensures CallerOk(w', n, w'.callers[n]) {
      WireKeyInjective(n, call.serial);
      assert CallerOk(w, n, w.callers[n]);
    }
    hide WireKey;
  }

  lemma NativeFrameCallers(c: Codec, w: World, f: Frame)
    requires Lawful(c) && Fresh(w.mux) && CallersOk(w) && w.reader.Listening?
    ensures CallersOk(OnNativeFrame(c, w, f))
  {
    var w' := OnNativeFrame(c, w, f);
    var (m, a) := FromNative(c, w.mux, f);
    FromNativeEffect(c, w.mux, f);
    FromNativeFailed(c, w.mux, f);
    NativeFrameMux(c, w, f);
    NativeFrameActors(c, w, f);
    hide FromNative, OnNativeFrame, BrokerId, ServerKey, ServerId, Seen, Resolves, Lawful, WireKey, CallersOk;
    if a.Claim? {
      ClaimCallers(w, w', BrokerId(c, f["id"]).value, a.call);
    } else {
      assert w'.mux.calls == w.mux.calls;
      CallersIdle(w, w');
    }
  }

  lemma NativeFrameActors(c: Codec, w: World, f: Frame)
    ensures var w', a := OnNativeFrame(c, w, f), FromNative(c, w.mux, f).1;
            && w'.callers == w.callers && w'.failing == w.failing
            && (if a.Claim? then w'.reader.Settling? && w'.reader.call == a.call else !w'.reader.Settling?)
  {
    hide FromNative, KeyOf;
  }

  lemma PublishCallers(c: Codec, w: World, e: ToTui)
    requires CallersOk(w) && (w.reader.Settling? ==> !w.reader.call.reply)
    ensures CallersOk(Publish(c, w, e))
  {
    EnqueueSame(c, w.mux, Tui, e.body);
    hide Enqueue, CallersOk, WireKey;
    CallersIdle(w, Publish(c, w, e));
  }

  lemma SettleCallers(c: Codec, w: World, observed: bool, selected: bool)
    requires CallersOk(w) && Enabled(w, Settle(observed, selected))
    ensures CallersOk(OnSettle(c, w, observed, selected))
  {
    var w', call, i := OnSettle(c, w, observed, selected), w.reader.call, w.reader.source;
    if call.original.Some? {
      assert !call.reply;
      hide Publish, CallersOk, WireKey;
      PublishCallers(c, w, Responded(call.serial, i, w.log.nativeIn[i]["id" := call.original.value]));
      CallersIdle(w, w.(reader := Stopped));
    } else if !call.reply {
      hide CallersOk, WireKey;
      CallersIdle(w, w');
    } else {
      hide WireKey;
      forall n | n in w'.callers ensures CallerOk(w', n, w'.callers[n]) {
        assert CallerOk(w, n, w.callers[n]);
      }
    }
  }

  /** A new correlation under a fresh serial. */
  lemma NewCaller(w: World, w': World, n: nat, call: Call, x: Caller)
    requires CallersOk(w) && n == w.mux.next + 1 == w'.mux.next && !w.mux.failed && !w'.mux.failed
    requires call.serial == n && call.reply && call.original.None? && x.mail == [] && !x.observed && (x.phase.Waiting? || x.phase.Unsent?)
    requires w'.mux.calls == w.mux.calls[WireKey(n) := call] && w'.callers == w.callers[n := x]
    requires w'.reader == w.reader && w'.failing == w.failing
    ensures CallersOk(w')
  {
    forall j | j in w'.callers ensures CallerOk(w', j, w'.callers[j]) {
      WireKeyInjective(j, n);
      if j in w.callers { assert CallerOk(w, j, w.callers[j]); }
    }
    hide WireKey;
  }

  lemma CallCallers(c: Codec, w: World, verb: string, params: Raw)
    requires CallersOk(w) && Fresh(w.mux)
    ensures CallersOk(OnCall(c, w, verb, params))
  {
    SubmitEffect(c, w.mux, verb, params);
    SubmitFailed(c, w.mux, verb, params);
    var r := Submit(c, w.mux, verb, params).1;
    assert w.mux.failed ==> r.Refused?;
    hide Submit, InternalFrame, WireKey, CallersOk;
    if !r.Refused? {
      var n := w.mux.next + 1;
      NewCaller(w, OnCall(c, w, verb, params), n, Call(n, None, verb, true, 0),
                Caller(if r.Submitted? then Waiting else Unsent, [], false));
    }
  }

  lemma CancelCallers(w: World, n: nat)
    requires CallersOk(w) && Fresh(w.mux) && n in w.callers && w.callers[n].phase == Waiting
    ensures CallersOk(OnCancel(w, n))
  {
    var w' := OnCancel(w, n);
    forall j | j in w'.callers ensures CallerOk(w', j, w'.callers[j]) {
      WireKeyInjective(j, n);
      assert CallerOk(w, j, w.callers[j]);
    }
    hide WireKey;
  }

  lemma FailCallers(w: World)
    requires CallersOk(w) && Fresh(w.mux)
    ensures CallersOk(w.(mux := Fail(w.mux), failing := w.failing + Orphans(w.mux)))
  {
    var w' := w.(mux := Fail(w.mux), failing := w.failing + Orphans(w.mux));
    forall n | n in w'.callers ensures CallerOk(w', n, w'.callers[n]) {
      assert CallerOk(w, n, w.callers[n]);
      assert n in Orphans(w.mux) <==> !w.mux.failed && Listened(w.mux, n) by { OrphansAreListened(w.mux, n); }
    }
    hide WireKey;
  }

  lemma OrphansAreListened(m: Mux, n: nat)
    requires Fresh(m)
    ensures n in Orphans(m) <==> !m.failed && Listened(m, n)
  {
    if WireKey(n) in m.calls { WireKeyInjective(n, m.calls[WireKey(n)].serial); }
    hide WireKey;
  }

  lemma MailCallers(w: World, a: Action)
    requires CallersOk(w) && Enabled(w, a) && (a.Receive? || a.Wake?)
    ensures var w' := if a.Receive? then w.(callers := w.callers[a.serial := w.callers[a.serial].(phase := Got(w.callers[a.serial].mail[0]))])
                      else Deliver(w, a.serial, Abandoned).(failing := w.failing - {a.serial});
            CallersOk(w')
  {
    hide WireKey;
    var w' := if a.Receive? then w.(callers := w.callers[a.serial := w.callers[a.serial].(phase := Got(w.callers[a.serial].mail[0]))])
              else Deliver(w, a.serial, Abandoned).(failing := w.failing - {a.serial});
    forall n | n in w'.callers ensures CallerOk(w', n, w'.callers[n]) {
      assert CallerOk(w, n, w.callers[n]);
      assert CallerOk(w, a.serial, w.callers[a.serial]);
    }
  }

  lemma StepCallers(c: Codec, w: World, a: Action)
    requires Lawful(c) && Fresh(w.mux) && CallersOk(w) && Enabled(w, a)
    ensures CallersOk(Next(c, w, a))
  {
    hide Lawful, Fresh, CallersOk, OnTuiFrame, OnNativeFrame, OnSettle, OnCall, OnCancel, Publish, Deliver, Fail, Orphans, WireKey;
    match a
    case TuiFrame(f) => TuiFrameCallers(c, w, f);
    case NativeFrame(f) => NativeFrameCallers(c, w, f);
    case Relay(observed) =>
      PublishCallers(c, w, w.reader.entry);
      CallersIdle(w, w.(reader := Stopped));
    case Settle(observed, selected) => SettleCallers(c, w, observed, selected);
    case CallNative(verb, params) => CallCallers(c, w, verb, params);
    case CancelCaller(n) => CancelCallers(w, n);
    case FailMux => FailCallers(w);
    case Receive(_) => MailCallers(w, a);
    case Wake(_) => MailCallers(w, a);
    case _ => CallersIdle(w, Next(c, w, a));
  }

  /** In every state of every run: no channel is sent on twice, a caller that returned cancellation
      never had its observer run and will never be sent to, a caller that returned a reply returned the
      one that was sent, and a caller still waiting is live, claimed, about to be woken, or has mail. */
  lemma {:induction false} RunCallers(c: Codec, ws: seq<World>, acts: seq<Action>, i: nat)
    requires Lawful(c) && Run(c, ws, acts) && i < |ws|
    ensures CallersOk(ws[i])
  {
    if i > 0 {
      RunCallers(c, ws, acts, i - 1);
      RunSound(c, ws, acts, i - 1);
      hide Next, Enabled, Lawful, CallersOk, Conserved, CallIds, ServerIds;
      StepCallers(c, ws[i - 1], acts[i - 1]);
    }
  }

  // ----- one outcome ---------------------------------------------------------------------------

  predicate Final(p: Phase) {
    p.Cancelled? || p.Got? || p.Unsent?
  }

  lemma StepFinal(c: Codec, w: World, a: Action, n: nat)
    requires Lawful(c) && Enabled(w, a) && n in w.callers && n <= w.mux.next
    ensures n in Next(c, w, a).callers && w.mux.next <= Next(c, w, a).mux.next
    ensures Final(w.callers[n].phase) ==> Next(c, w, a).callers[n].phase == w.callers[n].phase
    ensures w.callers[n].mail <= Next(c, w, a).callers[n].mail
  {
    match a
    case TuiFrame(f) => FromTuiEffect(c, w.mux, f); hide FromTui, TuiEntry, BrokerId, WireKey;
    case NativeFrame(f) => NativeFrameActors(c, w, f); NativeFrameNext(c, w, f); hide OnNativeFrame;
    case Relay(observed) => EnqueueSame(c, w.mux, Tui, w.reader.entry.body); hide Enqueue;
    case Settle(observed, selected) => SettleFinal(c, w, observed, selected, n); hide OnSettle;
    case CallNative(verb, params) => SubmitEffect(c, w.mux, verb, params); hide Submit, InternalFrame, WireKey;
    case _ => hide WireKey, OnTuiFrame, OnNativeFrame, OnSettle, OnCall, Publish;
  }

  lemma SettleFinal(c: Codec, w: World, observed: bool, selected: bool, n: nat)
    requires Enabled(w, Settle(observed, selected)) && n in w.callers
    ensures var w' := OnSettle(c, w, observed, selected);
            && n in w'.callers && w'.mux.next == w.mux.next
            && w'.callers[n].phase == w.callers[n].phase && w.callers[n].mail <= w'.callers[n].mail
  {
    var call, i := w.reader.call, w.reader.source;
    if call.original.Some? {
      EnqueueSame(c, w.mux, Tui, w.log.nativeIn[i]["id" := call.original.value]);
      hide Enqueue;
    }
  }

  lemma NativeFrameNext(c: Codec, w: World, f: Frame)
    requires Lawful(c)
    ensures OnNativeFrame(c, w, f).mux.next == w.mux.next
  {
    NativeFrameMux(c, w, f);
    FromNativeEffect(c, w.mux, f);
    hide OnNativeFrame, FromNative, BrokerId, ServerId, ServerKey, Seen, Resolves, Lawful;
  }

  /** Exactly one outcome: the first one a caller returns is the only one, and if it was cancellation
      then nothing is ever sent to it nor observed for it. */
  lemma {:induction false} OneOutcomePerCall(c: Codec, ws: seq<World>, acts: seq<Action>, i: nat, j: nat, n: nat)
    requires Lawful(c) && Run(c, ws, acts) && i <= j < |ws|
    requires n in ws[i].callers && Final(ws[i].callers[n].phase)
    ensures n in ws[j].callers && ws[j].callers[n].phase == ws[i].callers[n].phase
    ensures ws[i].callers[n].phase.Cancelled? ==> ws[j].callers[n].mail == [] && !ws[j].callers[n].observed
    ensures ws[i].callers[n].phase.Got? ==> ws[j].callers[n].mail == [ws[i].callers[n].phase.reply]
    decreases j
  {
    hide Lawful, CallersOk, Next, Enabled;
    if i < j {
      OneOutcomePerCall(c, ws, acts, i, j - 1, n);
      RunCallers(c, ws, acts, j - 1);
      CallersKnown(ws[j - 1], n);
      StepFinal(c, ws[j - 1], acts[j - 1], n);
    }
    RunCallers(c, ws, acts, j);
    hide Run;
    OutcomeOf(ws[j], n);
  }

  lemma CallersKnown(w: World, n: nat)
    requires CallersOk(w) && n in w.callers
    ensures n <= w.mux.next
  {
  }

  lemma OutcomeOf(w: World, n: nat)
    requires CallersOk(w) && n in w.callers
    ensures w.callers[n].phase.Cancelled? ==> w.callers[n].mail == [] && !w.callers[n].observed
    ensures w.callers[n].phase.Got? ==> w.callers[n].mail == [w.callers[n].phase.reply]
  {
    assert CallerOk(w, n, w.callers[n]);
    hide WireKey;
  }

  /** A correlation, cancelled or not, is given up only to the native response that carries its wire
      identifier or to the failure of the broker. */
  lemma SlotKeptUntilDrained(c: Codec, w: World, a: Action, n: nat)
    requires Lawful(c) && Enabled(w, a) && HoldsSlot(w.mux, n) && !HoldsSlot(Next(c, w, a).mux, n)
    ensures (a.FailMux? && !w.mux.failed)
         || (a.NativeFrame? && IsResponse(c, a.f) && BrokerId(c, a.f["id"]) == Some(WireKey(n)))
  {
    match a
    case TuiFrame(f) => FromTuiEffect(c, w.mux, f); hide FromTui, TuiEntry, BrokerId, WireKey;
    case NativeFrame(f) =>
      NativeFrameMux(c, w, f);
      FromNativeEffect(c, w.mux, f);
      hide OnNativeFrame, FromNative, BrokerId, ServerKey, ServerId, Seen, Resolves, Lawful, WireKey;
    case Relay(observed) => EnqueueSame(c, w.mux, Tui, w.reader.entry.body); hide Enqueue, WireKey;
    case Settle(observed, selected) => SettleSlots(c, w, observed, selected); hide OnSettle, WireKey;
    case CallNative(verb, params) => SubmitEffect(c, w.mux, verb, params); hide Submit, InternalFrame, WireKey;
    case _ => hide WireKey;
  }

  lemma SettleSlots(c: Codec, w: World, observed: bool, selected: bool)
    requires Enabled(w, Settle(observed, selected))
    ensures OnSettle(c, w, observed, selected).mux.calls == w.mux.calls
  {
    var call, i := w.reader.call, w.reader.source;
    if call.original.Some? {
      EnqueueSame(c, w.mux, Tui, w.log.nativeIn[i]["id" := call.original.value]);
      hide Enqueue;
    }
  }
}
