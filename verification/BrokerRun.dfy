/** Runs of the broker: the multiplexer together with its two readers, its two writers, the callers
    of its internal calls and the failing thread, interleaved one critical section or channel
    operation at a time, with the frames sent and received kept as a log. */
module BrokerRun {
  import opened Prelude
  import opened BrokerIds
  import opened BrokerMux

  /** What an internal caller may find on its channel. */
  datatype Reply = Settled(source: nat, failed: bool) | Abandoned

  /** Where an internal caller stands. `Owed` is a caller that was cancelled after its call had been
      claimed and that therefore waits for the reply. */
  datatype Phase = Waiting | Owed | Cancelled | Got(reply: Reply) | Unsent

  /** `mail` is everything ever sent on the caller's channel, which has one slot. */
  datatype Caller = Caller(phase: Phase, mail: seq<Reply>, observed: bool)

  /** Frames accepted for native. `source` is the index of the TUI frame it came from, `at` the
      number of native frames read by then, `occurrence` the index of the native request answered. */
  datatype ToNative =
    | Asked(serial: nat, source: nat, verb: string, at: nat, body: Frame)
    | Noted(source: nat, verb: string, at: nat, body: Frame)
    | Answered(occurrence: nat, source: nat, at: nat, body: Frame)
    | Called(serial: nat, body: Frame)

  /** Frames accepted for the TUI. `source` is the index of the native frame it came from. */
  datatype ToTui =
    | Responded(serial: nat, source: nat, body: Frame)
    | Requested(source: nat, body: Frame)
    | Notified(source: nat, body: Frame)

  /** The native reader between two of its sections. */
  datatype Reader = Listening | Relaying(entry: ToTui, notify: bool) | Settling(call: Call, source: nat) | Stopped

  /** `issued` gives the TUI frame that took each serial, `asked` the native frame behind each live
      server request, `greeted` the native frame that answered `initialize` with success, `consumed`
      the native responses that belonged to internal calls, `drained` the TUI responses dropped. */
  datatype Log = Log(
    tuiIn: seq<Frame>, nativeIn: seq<Frame>, toNative: seq<ToNative>, toTui: seq<ToTui>,
    nativeWire: seq<Frame>, tuiWire: seq<Frame>,
    issued: map<nat, nat>, asked: map<Key, nat>, greeted: Option<nat>,
    consumed: set<nat>, drained: set<nat>)

  datatype World = World(
    mux: Mux, tuiStopped: bool, reader: Reader, failing: set<nat>,
    inNative: Option<Packet>, inTui: Option<Packet>, callers: map<nat, Caller>, log: Log)

  datatype Action =
    | TuiFrame(f: Frame)
    | NativeFrame(f: Frame)
    | Relay(observed: bool)
    | Settle(observed: bool, selected: bool)
    | CallNative(verb: string, params: Raw)
    | CancelCaller(serial: nat)
    | Receive(serial: nat)
    | FailMux
    | CancelContext
    | Wake(serial: nat)
    | PopNative
    | WroteNative
    | PopTui
    | WroteTui

  /** The native methods the broker itself calls. */
  const InternalVerbs: set<string> := {
    "mcpServerStatus/list", "thread/read", "thread/turns/list", "turn/steer", "turn/start", "thread/name/set"}

  function Initial(limit: nat): World {
    World(Empty(limit), false, Listening, {}, None, None, map[],
          Log([], [], [], [], [], [], map[], map[], None, {}, {}))
  }

  predicate Enabled(w: World, a: Action) {
    match a
    case TuiFrame(_) => !w.tuiStopped
    case NativeFrame(_) => w.reader.Listening?
    case Relay(_) => w.reader.Relaying?
    case Settle(_, _) => w.reader.Settling? && w.reader.source < |w.log.nativeIn|
    case CallNative(verb, _) => w.mux.ready && verb in InternalVerbs
    case CancelCaller(n) => n in w.callers && w.callers[n].phase == Waiting
    case Receive(n) => n in w.callers && w.callers[n].phase in {Waiting, Owed} && w.callers[n].mail != []
    case FailMux => true
    case CancelContext => true
    case Wake(n) => n in w.failing
    case PopNative => w.inNative.None? && w.mux.nativeOut != []
    case WroteNative => w.inNative.Some?
    case PopTui => w.inTui.None? && w.mux.tuiOut != []
    case WroteTui => w.inTui.Some?
  }

  function Next(c: Codec, w: World, a: Action): World
    requires Enabled(w, a)
  {
    match a
    case TuiFrame(f) => OnTuiFrame(c, w, f)
    case NativeFrame(f) => OnNativeFrame(c, w, f)
    case Relay(observed) => OnRelay(c, w, observed)
    case Settle(observed, selected) => OnSettle(c, w, observed, selected)
    case CallNative(verb, params) => OnCall(c, w, verb, params)
    case CancelCaller(n) => OnCancel(w, n)
    case Receive(n) => w.(callers := w.callers[n := w.callers[n].(phase := Got(w.callers[n].mail[0]))])
    case FailMux => w.(mux := Fail(w.mux), failing := w.failing + Orphans(w.mux))
    case CancelContext => w.(mux := w.mux.(cancelled := true))
    case Wake(n) => Deliver(w, n, Abandoned).(failing := w.failing - {n})
    case PopNative =>
      var p := w.mux.nativeOut[0];
      w.(mux := w.mux.(nativeOut := w.mux.nativeOut[1..]), inNative := Some(p),
         log := w.log.(nativeWire := w.log.nativeWire + [p.body]))
    case WroteNative =>
      w.(mux := w.mux.(buffered := w.mux.buffered - w.inNative.value.size), inNative := None)
    case PopTui =>
      var p := w.mux.tuiOut[0];
      w.(mux := w.mux.(tuiOut := w.mux.tuiOut[1..]), inTui := Some(p),
         log := w.log.(tuiWire := w.log.tuiWire + [p.body]))
    case WroteTui =>
      w.(mux := w.mux.(buffered := w.mux.buffered - w.inTui.value.size), inTui := None)
  }

  /** One send on a caller's channel. */
  function Deliver(w: World, n: nat, r: Reply): World {
    if n in w.callers then w.(callers := w.callers[n := w.callers[n].(mail := w.callers[n].mail + [r])]) else w
  }

  /** The live server requests keep the occurrence they were asked at. */
  function Still(asked: map<Key, nat>, m: Mux): map<Key, nat> {
    map k | k in asked && k in m.servers :: asked[k]
  }

  /** The entry a TUI frame adds when it is accepted. */
  function TuiEntry(c: Codec, w: World, f: Frame): ToNative {
    var s := |w.log.tuiIn|;
    match Method(c, f)
    case None => Noted(s, "", 0, f)
    case Some(verb) =>
      if verb == "" then
        var key := KeyOf(c, if "id" in f then f["id"] else "");
        if key in w.mux.servers && key in w.log.asked then
          Answered(w.log.asked[key], s, |w.log.nativeIn|, f["id" := w.mux.servers[key].original])
        else Noted(s, "", 0, f)
      else if "id" in f then Asked(w.mux.next + 1, s, verb, |w.log.nativeIn|, f["id" := WireRaw(c, w.mux.next + 1)])
      else Noted(s, verb, |w.log.nativeIn|, f)
  }

  function OnTuiFrame(c: Codec, w: World, f: Frame): World {
    var (m, v) := FromTui(c, w.mux, f);
    var l := w.log;
    w.(mux := m, tuiStopped := v.Fault?,
       log := l.(tuiIn := l.tuiIn + [f],
                 toNative := if v.Accepted? then l.toNative + [TuiEntry(c, w, f)] else l.toNative,
                 issued := if m.next > w.mux.next then l.issued[m.next := |l.tuiIn|] else l.issued,
                 asked := Still(l.asked, m),
                 drained := if v.Drained? then l.drained + {|l.tuiIn|} else l.drained))
  }

  function OnNativeFrame(c: Codec, w: World, f: Frame): World {
    var (m, a) := FromNative(c, w.mux, f);
    var l := w.log;
    var i := |l.nativeIn|;
    Hold(c, w.(mux := m, log := l.(nativeIn := l.nativeIn + [f], asked := Still(l.asked, m))), a, i, "error" !in f)
  }

  /** What the native reader carries out of the section that handled frame `i`. */
  function Hold(c: Codec, w: World, a: Arrival, i: nat, succeeded: bool): World {
    match a
    case Malformed => w.(reader := Stopped)
    case Forward(body, notify) =>
      if notify then w.(reader := Relaying(Notified(i, body), true))
      else
        var key := KeyOf(c, if "id" in body then body["id"] else "");
        w.(reader := Relaying(Requested(i, body), false), log := w.log.(asked := w.log.asked[key := i]))
    case Claim(call) =>
      w.(reader := Settling(call, i),
         log := if call.verb == "initialize" && succeeded then w.log.(greeted := Some(i)) else w.log)
  }

  /** Observation, then the outbound queue. */
  function OnRelay(c: Codec, w: World, observed: bool): World
    requires w.reader.Relaying?
  {
    if w.reader.notify && !observed then w.(reader := Stopped)
    else Publish(c, w, w.reader.entry)
  }

  function Publish(c: Codec, w: World, e: ToTui): World {
    var (m, ok) := Enqueue(c, w.mux, Tui, e.body);
    if ok then w.(mux := m, reader := Listening, log := w.log.(toTui := w.log.toTui + [e]))
    else w.(mux := m, reader := Stopped)
  }

  /** Observation and selection of a claimed response, then its delivery. */
  function OnSettle(c: Codec, w: World, observed: bool, selected: bool): World
    requires w.reader.Settling? && w.reader.source < |w.log.nativeIn|
  {
    var call, i := w.reader.call, w.reader.source;
    var f := w.log.nativeIn[i];
    var refused := "error" in f;
    match call.original
    case None =>
      var w' := w.(reader := Listening, log := w.log.(consumed := w.log.consumed + {i}));
      if call.reply && call.serial in w.callers then
        var caller := w.callers[call.serial];
        var sent := caller.(mail := caller.mail + [Settled(i, refused || !observed)],
                            observed := caller.observed || !refused);
        w'.(callers := w.callers[call.serial := sent])
      else w'
    case Some(id) =>
      if !refused && !(observed && selected) then w.(reader := Stopped)
      else Publish(c, w, Responded(call.serial, i, f["id" := id]))
  }

  function OnCall(c: Codec, w: World, verb: string, params: Raw): World {
    var (m, r) := Submit(c, w.mux, verb, params);
    match r
    case Refused => w
    case Submitted(n) =>
      w.(mux := m, callers := w.callers[n := Caller(Waiting, [], false)],
         log := w.log.(toNative := w.log.toNative + [Called(n, InternalFrame(c, n, verb, params))]))
    case Broken(n) =>
      w.(mux := m, callers := w.callers[n := Caller(Unsent, [], false)])
  }

  function OnCancel(w: World, n: nat): World
    requires n in w.callers
  {
    var (m, unclaimed) := Cancel(w.mux, n);
    w.(mux := m, callers := w.callers[n := w.callers[n].(phase := if unclaimed then Cancelled else Owed)])
  }

  // ----- runs ----------------------------------------------------------------------------------

  /** Every state reached after a finite number of steps from the start. */
  ghost predicate Run(c: Codec, ws: seq<World>, acts: seq<Action>) {
    && |ws| == |acts| + 1
    && ws[0] == Initial(ws[0].mux.limit)
    && forall i | 0 <= i < |acts| :: Enabled(ws[i], acts[i]) && ws[i + 1] == Next(c, ws[i], acts[i])
  }

  lemma RunStart(c: Codec, ws: seq<World>, acts: seq<Action>)
    requires Run(c, ws, acts)
    ensures |ws| == |acts| + 1 && ws[0] == Initial(ws[0].mux.limit)
  {
    hide Next, Enabled;
  }

  lemma RunStep(c: Codec, ws: seq<World>, acts: seq<Action>, i: nat)
    requires Run(c, ws, acts) && i < |acts|
    ensures |ws| == |acts| + 1 && Enabled(ws[i], acts[i]) && ws[i + 1] == Next(c, ws[i], acts[i])
  {
    hide Next, Enabled;
  }
}
