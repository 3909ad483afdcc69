/** Conservation of the shared byte budget, the table bounds, and first-in first-out wires, in every
    state of every run of the broker. */
module BrokerBytes {
  import opened Prelude
  import opened BrokerIds
  import opened BrokerMux
  import opened BrokerTables
  import opened BrokerRun

  ghost function PacketSize(p: Option<Packet>): nat {
    match p case None => 0 case Some(q) => q.size
  }

  /** Bytes of the packets handed to a writer and not yet released. */
  ghost function InWrite(w: World): nat {
    PacketSize(w.inNative) + PacketSize(w.inTui)
  }

  /** The budget never exceeds its limit and always covers what is held; until the broker fails it is
      exactly what is queued, being written, or remembered. */
  ghost predicate Conserved(w: World) {
    && w.mux.buffered <= w.mux.limit
    && InWrite(w) <= Slack(w.mux)
    && (!w.mux.failed ==> Slack(w.mux) == InWrite(w))
  }

  ghost predicate Sound(c: Codec, w: World) {
    Tables(c, w.mux) && Conserved(w)
  }

  lemma EmptySlack(limit: nat)
    ensures Slack(Empty(limit)) == 0
  {
    assert CallCharges(map[]) == map[] && ServerCharges(map[]) == map[];
  }

  lemma InitialSound(c: Codec, limit: nat)
    ensures Sound(c, Initial(limit))
  {
    EmptySlack(limit);
    assert TuiKeys(c, map[]) == {};
  }

  /** Steps that only move the multiplexer in a balanced way. */
  lemma BalancedSound(w: World, w': World)
    requires Conserved(w) && Balanced(w.mux, w'.mux) && w'.mux.failed == w.mux.failed
    requires w'.inNative == w.inNative && w'.inTui == w.inTui
    ensures Conserved(w')
  {
  }

  lemma SendFailed(c: Codec, m: Mux, f: Frame)
    ensures Send(c, m, f).0.failed == m.failed
  {
  }

  lemma TuiRequestFailed(c: Codec, m: Mux, f: Frame, verb: string)
    requires "id" in f
    ensures TuiRequest(c, m, f, verb).0.failed == m.failed
  {
    var id := BrokerId(c, f["id"]);
    if id.Some? {
      var m1 := Numbered(m, verb);
      SendFailed(c, Record(m1, f["id"], id.value, verb), f["id" := WireRaw(c, m1.next)]);
    }
    hide Send, BrokerId, WireRaw, WireKey, Held;
  }

  lemma FromTuiFailed(c: Codec, m: Mux, f: Frame)
    ensures FromTui(c, m, f).0.failed == m.failed
  {
    hide BrokerId, InMappedNamespace, Send, TuiRequest;
    if "id" in f && Method(c, f).Some? { TuiRequestFailed(c, m, f, Method(c, f).value); }
    SendFailed(c, m, f);
    SendFailed(c, m.(initialized := true), f);
  }

  lemma FromNativeFailed(c: Codec, m: Mux, f: Frame)
    ensures FromNative(c, m, f).0.failed == m.failed
  {
    if "id" in f { RequestFailed(c, m, f); }
    ResponseFailed(c, m, f);
    ResolvedFailed(c, m, f);
    hide NativeRequest, NativeResponse, NativeResolved;
  }

  lemma RequestFailed(c: Codec, m: Mux, f: Frame)
    requires "id" in f
    ensures NativeRequest(c, m, f).0.failed == m.failed
  {
    hide BrokerId, ServerId, KeyOf, Held, Fits;
  }

  lemma ResponseFailed(c: Codec, m: Mux, f: Frame)
    ensures NativeResponse(c, m, f).0.failed == m.failed
  {
    hide BrokerId, KeyOf, OneOutcome;
  }

  lemma ResolvedFailed(c: Codec, m: Mux, f: Frame)
    ensures NativeResolved(c, m, f).0.failed == m.failed
  {
    var raw := ResolvedId(c, f);
    hide BrokerId, ServerId, KeyOf, ResolvedId;
  }

  lemma TuiFrameSound(c: Codec, w: World, f: Frame)
    requires Sound(c, w)
    ensures Sound(c, OnTuiFrame(c, w, f))
  {
    FromTuiTables(c, w.mux, f);
    FromTuiBalanced(c, w.mux, f);
    FromTuiFailed(c, w.mux, f);
    hide FromTui, TuiEntry, Balanced, Tables, Conserved;
    BalancedSound(w, OnTuiFrame(c, w, f));
  }

  lemma HoldKeeps(c: Codec, w: World, a: Arrival, i: nat, succeeded: bool)
    ensures var w' := Hold(c, w, a, i, succeeded);
            && w' == w.(reader := w'.reader, log := w'.log)
            && w'.log == w.log.(asked := w'.log.asked, greeted := w'.log.greeted)
  {
    hide KeyOf;
  }

  lemma NativeFrameSound(c: Codec, w: World, f: Frame)
    requires Lawful(c) && Sound(c, w)
    ensures Sound(c, OnNativeFrame(c, w, f))
  {
    FromNativeTables(c, w.mux, f);
    FromNativeBalanced(c, w.mux, f);
    FromNativeFailed(c, w.mux, f);
    hide FromNative, Balanced, Tables, Conserved, Lawful, Hold;
    var (m, a) := FromNative(c, w.mux, f);
    var l := w.log.(nativeIn := w.log.nativeIn + [f], asked := Still(w.log.asked, m));
    HoldKeeps(c, w.(mux := m, log := l), a, |w.log.nativeIn|, "error" !in f);
    BalancedSound(w, OnNativeFrame(c, w, f));
  }

  lemma PublishSound(c: Codec, w: World, e: ToTui)
    requires Sound(c, w)
    ensures Sound(c, Publish(c, w, e))
  {
    EnqueueSame(c, w.mux, Tui, e.body);
    SameTablesKept(c, w.mux, Enqueue(c, w.mux, Tui, e.body).0);
    EnqueueBalanced(c, w.mux, Tui, e.body);
    hide Enqueue, Balanced, Tables, Conserved;
    BalancedSound(w, Publish(c, w, e));
  }

  lemma SubmitFailed(c: Codec, m: Mux, verb: string, params: Raw)
    ensures Submit(c, m, verb, params).0.failed == m.failed
  {
    hide InternalFrame, WireKey, Enqueue;
    EnqueueSame(c, Open(m, verb), Native, InternalFrame(c, m.next + 1, verb, params));
  }

  lemma CallSound(c: Codec, w: World, verb: string, params: Raw)
    requires Sound(c, w)
    ensures Sound(c, OnCall(c, w, verb, params))
  {
    SubmitTables(c, w.mux, verb, params);
    SubmitBalanced(c, w.mux, verb, params);
    SubmitFailed(c, w.mux, verb, params);
    hide Balanced, Tables, Conserved;
    var w' := OnCall(c, w, verb, params);
    CallMux(c, w, verb, params);
    hide OnCall, Submit;
    if w' != w { BalancedSound(w, w'); }
  }

  lemma CallMux(c: Codec, w: World, verb: string, params: Raw)
    ensures var w' := OnCall(c, w, verb, params);
            w' == w || (w'.mux == Submit(c, w.mux, verb, params).0 && w'.inNative == w.inNative && w'.inTui == w.inTui)
  {
    hide Submit, InternalFrame;
  }

  lemma CancelSound(c: Codec, w: World, n: nat)
    requires Sound(c, w) && n in w.callers
    ensures Sound(c, OnCancel(w, n))
  {
    CancelTables(c, w.mux, n);
    CancelBalanced(w.mux, n);
    assert Cancel(w.mux, n).0.failed == w.mux.failed by { hide WireKey; }
    hide Cancel, Balanced, Tables, Conserved;
    BalancedSound(w, OnCancel(w, n));
  }

  lemma FailSound(c: Codec, m: Mux)
    requires Tables(c, m)
    ensures Tables(c, Fail(m)) && Slack(Fail(m)) >= Slack(m)
  {
    FailSlack(m);
  }

  /** A writer takes the head of its queue, then releases it: the account follows the packet. */
  lemma PopSlack(c: Codec, m: Mux, side: Side)
    requires Tables(c, m) && (if side.Native? then m.nativeOut else m.tuiOut) != []
    ensures var m' := if side.Native? then m.(nativeOut := m.nativeOut[1..]) else m.(tuiOut := m.tuiOut[1..]);
            Tables(c, m') && Slack(m') == Slack(m) + (if side.Native? then m.nativeOut else m.tuiOut)[0].size
  {
    match side {
      case Native => SizesPop(m.nativeOut); SameTablesKept(c, m, m.(nativeOut := m.nativeOut[1..]));
      case Tui => SizesPop(m.tuiOut); SameTablesKept(c, m, m.(tuiOut := m.tuiOut[1..]));
    }
  }

  lemma WriterSound(c: Codec, w: World, a: Action)
    requires Sound(c, w) && Enabled(w, a) && (a.PopNative? || a.PopTui? || a.WroteNative? || a.WroteTui?)
    ensures Sound(c, Next(c, w, a))
  {
    var w' := Next(c, w, a);
    if a.PopNative? { PopSlack(c, w.mux, Native); }
    else if a.PopTui? { PopSlack(c, w.mux, Tui); }
    else { SameTablesKept(c, w.mux, w'.mux); }
  }

  /** Every step keeps the account and the tables. */
  lemma StepSound(c: Codec, w: World, a: Action)
    requires Lawful(c) && Sound(c, w) && Enabled(w, a)
    ensures Sound(c, Next(c, w, a))
  {
    hide OnTuiFrame, OnNativeFrame, OnCall, OnCancel, Publish, TuiKeys, CallIds, ServerIds, Fresh, Balanced, Lawful;
    match a
    case TuiFrame(f) => TuiFrameSound(c, w, f);
    case NativeFrame(f) => NativeFrameSound(c, w, f);
    case Relay(observed) => PublishSound(c, w, w.reader.entry);
    case Settle(observed, selected) =>
      var call, i := w.reader.call, w.reader.source;
      if call.original.Some? {
        PublishSound(c, w, Responded(call.serial, i, w.log.nativeIn[i]["id" := call.original.value]));
      }
    case CallNative(verb, params) => CallSound(c, w, verb, params);
    case CancelCaller(n) => CancelSound(c, w, n);
    case FailMux => FailSound(c, w.mux);
    case CancelContext => SameTablesKept(c, w.mux, w.mux.(cancelled := true));
    case Receive(_) =>
    case Wake(_) =>
    case _ => WriterSound(c, w, a);
  }

  /** In every state of every run the budget is conserved and both routing tables are within 256. */
  lemma {:induction false} RunSound(c: Codec, ws: seq<World>, acts: seq<Action>, i: nat)
    requires Lawful(c) && Run(c, ws, acts) && i < |ws|
    ensures Sound(c, ws[i])
  {
    if i == 0 {
      InitialSound(c, ws[0].mux.limit);
    } else {
      RunSound(c, ws, acts, i - 1);
      StepSound(c, ws[i - 1], acts[i - 1]);
    }
  }

  /** The account written out. */
  lemma BudgetAccount(c: Codec, ws: seq<World>, acts: seq<Action>, i: nat)
    requires Lawful(c) && Run(c, ws, acts) && i < |ws|
    ensures var m := ws[i].mux;
            var held := Sum(Sizes(m.nativeOut)) + Sum(Sizes(m.tuiOut)) + InWrite(ws[i])
                        + Total(CallCharges(m.calls)) + Total(ServerCharges(m.servers));
            && held <= m.buffered <= m.limit
            && (!m.failed ==> m.buffered == held)
            && |m.calls| <= RouteLimit && |m.servers| <= RouteLimit
            && (!m.failed ==> m.tuiIDs == TuiKeys(c, m.calls))
  {
    RunSound(c, ws, acts, i);
  }
}
