/** The two wires of the broker are first in, first out: frames are written in the order in which they
    were accepted, none is skipped and none is written twice. */
module BrokerWires {
  import opened Prelude
  import opened BrokerIds
  import opened BrokerMux
  import opened BrokerTables
  import opened BrokerRun
  import opened BrokerBytes
  import opened BrokerRouting

  ghost function Bodies(q: seq<Packet>): seq<Frame> {
    seq(|q|, i requires 0 <= i < |q| => q[i].body)
  }

  ghost function NativeBodies(l: seq<ToNative>): seq<Frame> {
    seq(|l|, i requires 0 <= i < |l| => l[i].body)
  }

  ghost function TuiBodies(l: seq<ToTui>): seq<Frame> {
    seq(|l|, i requires 0 <= i < |l| => l[i].body)
  }

  /** What was written, then what is queued, is what was accepted, in that order. */
  ghost predicate InOrder(w: World) {
    && w.log.nativeWire + Bodies(w.mux.nativeOut) == NativeBodies(w.log.toNative)
    && w.log.tuiWire + Bodies(w.mux.tuiOut) == TuiBodies(w.log.toTui)
  }

  /** An entry and its packet are added together. */
  lemma NativePushed(w: World, w': World, e: ToNative, size: nat)
    requires InOrder(w)
    requires w'.log.nativeWire == w.log.nativeWire && w'.log.tuiWire == w.log.tuiWire
    requires w'.mux.nativeOut == w.mux.nativeOut + [Packet(e.body, size)] && w'.mux.tuiOut == w.mux.tuiOut
    requires w'.log.toNative == w.log.toNative + [e] && w'.log.toTui == w.log.toTui
    ensures InOrder(w')
  {
    assert Bodies(w'.mux.nativeOut) == Bodies(w.mux.nativeOut) + [e.body];
    assert NativeBodies(w'.log.toNative) == NativeBodies(w.log.toNative) + [e.body];
  }

  lemma TuiPushed(w: World, w': World, e: ToTui, size: nat)
    requires InOrder(w)
    requires w'.log.nativeWire == w.log.nativeWire && w'.log.tuiWire == w.log.tuiWire
    requires w'.mux.tuiOut == w.mux.tuiOut + [Packet(e.body, size)] && w'.mux.nativeOut == w.mux.nativeOut
    requires w'.log.toTui == w.log.toTui + [e] && w'.log.toNative == w.log.toNative
    ensures InOrder(w')
  {
    assert Bodies(w'.mux.tuiOut) == Bodies(w.mux.tuiOut) + [e.body];
    assert TuiBodies(w'.log.toTui) == TuiBodies(w.log.toTui) + [e.body];
  }

  /** What acceptance of a TUI frame puts on the native queue. */
  ghost predicate Pushes(m: Mux, m': Mux, body: Frame, size: nat) {
    m'.nativeOut == m.nativeOut + [Packet(body, size)] && m'.tuiOut == m.tuiOut
  }

  /** What Send does to the queues. */
  lemma SendPushes(c: Codec, m: Mux, f: Frame)
    ensures var (m', v) := Send(c, m, f);
            if v.Accepted? then Pushes(m, m', f, c.frameSize(f))
            else v.Fault? && m'.nativeOut == m.nativeOut && m'.tuiOut == m.tuiOut
  {
  }

  ghost predicate Matches(m: Mux, m': Mux, v: Verdict, body: Frame, size: nat) {
    if v.Accepted? then Pushes(m, m', body, size) else m'.nativeOut == m.nativeOut && m'.tuiOut == m.tuiOut
  }

  lemma AcceptedPushes(c: Codec, w: World, f: Frame)
    requires forall k | k in w.mux.servers :: k in w.log.asked
    ensures var (m', v) := FromTui(c, w.mux, f);
            Matches(w.mux, m', v, TuiEntry(c, w, f).body, c.frameSize(TuiEntry(c, w, f).body))
  {
    match Method(c, f)
    case None =>
    case Some(verb) =>
      if w.mux.failed {
      } else if verb == "" {
        ResponsePushes(c, w, f);
      } else if "id" in f {
        RequestPushes(c, w.mux, f, verb);
      } else {
        NoticePushes(c, w.mux, f, verb);
      }
  }

  lemma NoticePushes(c: Codec, m: Mux, f: Frame, verb: string)
    ensures var (m', v) := TuiNotice(c, m, f, verb); Matches(m, m', v, f, c.frameSize(f))
  {
    SendPushes(c, m, f);
    SendPushes(c, m.(initialized := true), f);
    hide Send;
  }

  lemma RequestPushes(c: Codec, m: Mux, f: Frame, verb: string)
    requires "id" in f
    ensures var (m', v) := TuiRequest(c, m, f, verb);
            var body := f["id" := WireRaw(c, m.next + 1)];
            Matches(m, m', v, body, c.frameSize(body))
  {
    var id := BrokerId(c, f["id"]);
    if id.Some? {
      var m1 := Numbered(m, verb);
      SendPushes(c, Record(m1, f["id"], id.value, verb), f["id" := WireRaw(c, m1.next)]);
    }
    hide Send, BrokerId, WireRaw, WireKey, Held;
  }

  lemma ResponsePushes(c: Codec, w: World, f: Frame)
    requires Method(c, f) == Some("")
    requires forall k | k in w.mux.servers :: k in w.log.asked
    ensures var (m', v) := TuiResponse(c, w.mux, f);
            Matches(w.mux, m', v, TuiEntry(c, w, f).body, c.frameSize(TuiEntry(c, w, f).body))
  {
    hide BrokerId, InMappedNamespace, WireRaw;
  }

  // ----- steps ---------------------------------------------------------------------------------

  /** Neither queues nor wires moved. */
  lemma WiresIdle(w: World, w': World)
    requires InOrder(w) && w'.mux.nativeOut == w.mux.nativeOut && w'.mux.tuiOut == w.mux.tuiOut
    requires w'.log.nativeWire == w.log.nativeWire && w'.log.tuiWire == w.log.tuiWire
    requires w'.log.toNative == w.log.toNative && w'.log.toTui == w.log.toTui
    ensures InOrder(w')
  {
  }

  lemma TuiFrameWires(c: Codec, w: World, f: Frame)
    requires InOrder(w) && LiveServers(c, w)
    ensures InOrder(OnTuiFrame(c, w, f))
  {
    var w' := OnTuiFrame(c, w, f);
    var e := TuiEntry(c, w, f);
    assert forall k | k in w.mux.servers :: k in w.log.asked;
    hide LiveServers, FromTui, TuiEntry, InOrder;
    AcceptedPushes(c, w, f);
    if FromTui(c, w.mux, f).1.Accepted? { NativePushed(w, w', e, c.frameSize(e.body)); } else { WiresIdle(w, w'); }
  }

  lemma FromNativeQueues(c: Codec, m: Mux, f: Frame)
    ensures FromNative(c, m, f).0.nativeOut == m.nativeOut && FromNative(c, m, f).0.tuiOut == m.tuiOut
  {
    if "id" in f { RequestQueues(c, m, f); }
    ResponseQueues(c, m, f);
    ResolvedQueues(c, m, f);
    hide NativeRequest, NativeResponse, NativeResolved;
  }

  lemma RequestQueues(c: Codec, m: Mux, f: Frame)
    requires "id" in f
    ensures NativeRequest(c, m, f).0.nativeOut == m.nativeOut && NativeRequest(c, m, f).0.tuiOut == m.tuiOut
  {
    hide BrokerId, ServerId, KeyOf, Fits, Held;
  }

  lemma ResponseQueues(c: Codec, m: Mux, f: Frame)
    ensures NativeResponse(c, m, f).0.nativeOut == m.nativeOut && NativeResponse(c, m, f).0.tuiOut == m.tuiOut
  {
    hide BrokerId, KeyOf, OneOutcome;
  }

  lemma ResolvedQueues(c: Codec, m: Mux, f: Frame)
    ensures NativeResolved(c, m, f).0.nativeOut == m.nativeOut && NativeResolved(c, m, f).0.tuiOut == m.tuiOut
  {
    var raw := ResolvedId(c, f);
    hide BrokerId, ServerId, KeyOf, ResolvedId;
  }

  lemma NativeFrameWires(c: Codec, w: World, f: Frame)
    requires InOrder(w)
    ensures InOrder(OnNativeFrame(c, w, f))
  {
    var w' := OnNativeFrame(c, w, f);
    FromNativeQueues(c, w.mux, f);
    NativeFrameMux(c, w, f);
    NativeFrameLogs(c, w, f);
    hide OnNativeFrame, FromNative, InOrder;
    WiresIdle(w, w');
  }

  lemma NativeFrameLogs(c: Codec, w: World, f: Frame)
    ensures var l := OnNativeFrame(c, w, f).log;
            l.nativeWire == w.log.nativeWire && l.tuiWire == w.log.tuiWire && l.toNative == w.log.toNative && l.toTui == w.log.toTui
  {
    hide FromNative, KeyOf;
  }

  lemma PublishWires(c: Codec, w: World, e: ToTui)
    requires InOrder(w)
    ensures InOrder(Publish(c, w, e))
  {
    var w' := Publish(c, w, e);
    var (m, ok) := Enqueue(c, w.mux, Tui, e.body);
    if ok {
      hide InOrder, Fits;
      TuiPushed(w, w', e, c.frameSize(e.body));
    } else {
      hide InOrder, Fits;
      WiresIdle(w, w');
    }
  }

  lemma SettleWires(c: Codec, w: World, observed: bool, selected: bool)
    requires InOrder(w) && Enabled(w, Settle(observed, selected))
    ensures InOrder(OnSettle(c, w, observed, selected))
  {
    var call, i := w.reader.call, w.reader.source;
    hide InOrder, Publish;
    if call.original.Some? {
      PublishWires(c, w, Responded(call.serial, i, w.log.nativeIn[i]["id" := call.original.value]));
      WiresIdle(w, w.(reader := Stopped));
    } else {
      WiresIdle(w, OnSettle(c, w, observed, selected));
    }
  }

  lemma SubmitPushes(c: Codec, m: Mux, verb: string, params: Raw)
    ensures var (m', r) := Submit(c, m, verb, params);
            if r.Submitted? then
              Pushes(m, m', InternalFrame(c, r.serial, verb, params), c.frameSize(InternalFrame(c, r.serial, verb, params)))
            else m'.nativeOut == m.nativeOut && m'.tuiOut == m.tuiOut
  {
    hide InternalFrame, WireKey;
  }

  lemma CallWires(c: Codec, w: World, verb: string, params: Raw)
    requires InOrder(w)
    ensures InOrder(OnCall(c, w, verb, params))
  {
    var w' := OnCall(c, w, verb, params);
    var r := Submit(c, w.mux, verb, params).1;
    SubmitPushes(c, w.mux, verb, params);
    hide Submit, InternalFrame, InOrder;
    if r.Submitted? {
      var body := InternalFrame(c, r.serial, verb, params);
      NativePushed(w, w', Called(r.serial, body), c.frameSize(body));
    } else {
      WiresIdle(w, w');
    }
  }

  /** A writer moves the head of its queue to its wire. */
  lemma PopWires(c: Codec, w: World, a: Action)
    requires InOrder(w) && Enabled(w, a) && (a.PopNative? || a.PopTui?)
    ensures InOrder(Next(c, w, a))
  {
    if a.PopNative? {
      var q := w.mux.nativeOut;
      assert Bodies(q) == [q[0].body] + Bodies(q[1..]);
      hide Bodies, NativeBodies, TuiBodies;
      assert (w.log.nativeWire + [q[0].body]) + Bodies(q[1..]) == w.log.nativeWire + ([q[0].body] + Bodies(q[1..]));
    } else {
      var q := w.mux.tuiOut;
      assert Bodies(q) == [q[0].body] + Bodies(q[1..]);
      hide Bodies, NativeBodies, TuiBodies;
      assert (w.log.tuiWire + [q[0].body]) + Bodies(q[1..]) == w.log.tuiWire + ([q[0].body] + Bodies(q[1..]));
    }
  }

  lemma StepWires(c: Codec, w: World, a: Action)
    requires LiveServers(c, w) && InOrder(w) && Enabled(w, a)
    ensures InOrder(Next(c, w, a))
  {
    hide LiveServers, InOrder, OnTuiFrame, OnNativeFrame, OnSettle, OnCall, Publish, WireKey;
    match a
    case TuiFrame(f) => TuiFrameWires(c, w, f);
    case NativeFrame(f) => NativeFrameWires(c, w, f);
    case Relay(_) => PublishWires(c, w, w.reader.entry); WiresIdle(w, w.(reader := Stopped));
    case Settle(observed, selected) => SettleWires(c, w, observed, selected);
    case CallNative(verb, params) => CallWires(c, w, verb, params);
    case PopNative => PopWires(c, w, a);
    case PopTui => PopWires(c, w, a);
    case _ => WiresIdle(w, Next(c, w, a));
  }

  /** In every state of every run, what was written to native followed by what is still queued is exactly
      what was accepted for native, in that order; and the same toward the TUI. */
  lemma {:induction false} WiresAreFifo(c: Codec, ws: seq<World>, acts: seq<Action>, i: nat)
    requires Lawful(c) && Run(c, ws, acts) && i < |ws|
    ensures InOrder(ws[i])
  {
    if i == 0 {
      assert Bodies(ws[0].mux.nativeOut) == [] && Bodies(ws[0].mux.tuiOut) == [];
    } else {
      WiresAreFifo(c, ws, acts, i - 1);
      RunRouted(c, ws, acts, i - 1);
      assert LiveServers(c, ws[i - 1]);
      hide Next, Enabled, InOrder, LiveServers, Lawful, Routed;
      StepWires(c, ws[i - 1], acts[i - 1]);
    }
  }
}
