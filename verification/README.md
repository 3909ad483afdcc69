# Codex broker and lane: a verified model

This project models the concurrent core of `wrappers/codex`, the Codex integration of the Sessionbus
peers, and proves what its protocols keep under every interleaving.

A run is a finite sequence of states in which one step is one critical section under a mutex, one
channel operation or one native call. Threads, readers, writers, callers, publishers, handlers and
failing contexts interleave freely; the frames sent and received are kept as logs, and the theorems
speak about every state of every run. Each locked section is written twice: as a function on the
object's value, which the runs and the lemmas use, and as a method of a class that changes the fields
in place and is proved to compute that function.

| module | file of the source | what it is about |
|---|---|---|
| `BrokerIds`, `BrokerMux`, `BrokerTables`, `BrokerRun` | `broker_mux.go`, `broker_transport.go` | identifiers, the multiplexer, its routing tables and byte budget, runs of the broker |
| `BrokerBytes`, `BrokerRouting`, `BrokerWires`, `BrokerOnce`, `BrokerLoss`, `BrokerHandshake`, `BrokerOrder`, `BrokerCallers` | the same | one property of every run each: budget, routing, order, exactly once, nothing lost, the handshake by shape and by method, cancel against claim |
| `BrokerGreeting`, `BrokerVerdicts`, `BrokerStart` | the same | what must not be refused: answers are claimed, the handshake completes, the exact verdict on every frame, replies, and a run of the normal start |
| `Publisher`, `PublisherRun`, `PublisherStory`, `PublisherLoop` | `broker_owners.go` | one resident and its sections; all residents with reconnects, checks, supersession and shutdown; what they hold, told by the events alone; where the publisher loop gets |
| `AppClient`, `AppRun`, `AppReads`, `AppBooks`, `AppLimits` | `app.go` | the native client: calls, the write gate, served requests; what its reader stops on and hands on; its books of calls and requests; and a run in which a claimed reply is dropped |
| `LaneTurn`, `LaneSteer`, `LaneRun`, `LaneEvents`, `LaneProgress`, `LaneLimits`, `LaneDeliver` | `codex.go` | turns, run executions, what the notifications do to the turns, what the steps lead to, interrupts, receipts, deliveries |
| `LaneOpen` | `codex.go`, `lane_process.go`, `lane_tools.go` | the open-commit race and the wait for readiness |
| `Arguments`, `Options`, `Launch` | `arguments.go`, `interactive_options.go`, `package.go`, `interactive_launch.go`, `codex.go` | the grant guard, the configuration it protects, the argument projections, and the three command lines that are launched |
| `WebSocket` | `websocket.go` | client framing against sections 5.2 and 5.3 of RFC 6455 |
| `Prelude` | | optional values and sums |

## What is taken as given

These are parameters with stated laws, steps of the environment, or preconditions:

- The JSON, base64 and TOML libraries: `BrokerIds.Codec` and `AppClient.Json` (decoding functions),
  `BrokerIds.Lawful` (encoding inverts), `Arguments.Toml` (what a value decodes to). Integers are
  unbounded, so the request counters do not wrap.
- The bus SDK runs the observer of a hello only before that call returns, and a hello that succeeds has
  run it; it sets the interrupt flag of a run before it calls the wrapper's `Interrupt`, and it reports a
  run done only after its execution has returned.
- Native answers a confirmed steer only after submitting it, and submits nothing under the two steer
  errors that the source recognises, for the turn identifier it was sent
  (`docs/products/codex.md:11-15`, `LaneRun.NativeMay`). Which answer it gives is otherwise free.
- Native reads a command line as the guard does (`Arguments.Scan`: options that take a value take the next
  token, a value may also be attached, `--` ends the options) and applies the assignments it finds in
  order, the last one winning on its path (`Arguments.Fold`).
- An error returned by a reader's section stops that reader; the failure that follows is a step of its own.
- Contexts may be cancelled, native calls may fail, writes may be partial and timers may fire at any time.

Where native reuses a request identifier, the routing theorems speak of the occurrence of the request
in the stream, so no assumption about reuse is needed.

## Findings

Properties that hold only under a condition are stated with it, in both directions, beside a concrete
state or input that shows the other side:

- The broker tests `initialize` in requests only and `initialized` in notifications only, so a notification
  `initialize` and a request `initialized` are passed on in every state of the handshake
  (`BrokerOrder.OddUntested`). Two reachable runs show it: a second `initialize` reaches native
  (`BrokerOrder.InitializeTwice`), and so do two `initialized` that no successful `initialize` came before
  (`BrokerOrder.InitializedUngreeted`). The order holds exactly when the frames of those two shapes
  happen to keep the skipped tests (`BrokerOrder.HandshakeExact`).
- A claimed reply does not always win over a cancellation: if the response arrives and is observed while the
  call's own write is still in flight, and the caller is then cancelled, the caller returns the write error
  and drops the reply (`AppLimits.ClaimedReplyCanLose`). The claim wins exactly when the caller's frame was
  written whole with the caller waiting for it (`AppRun.ClaimWinsExactly`).
- The grant is guarded on the caller's arguments, but three other command lines are launched, and each can
  lose it for arguments the guard accepts (`Launch.LaunchesThatLose`): the lane's App Server for
  `-m -c --yolo features.plugins=false`, the broker's App Server for `-m --disable -c features.plugins=false`,
  and the terminal interface for `-c -n x features.plugins=false` and for `--resume=-c features.plugins=false`.
  Each is safe under a condition on the arguments (`Launch.LaneGranted`, `Launch.ServerGranted`,
  `Launch.TuiGranted`), and behind any prefix that reads the same whatever follows, the condition is exact
  (`Launch.LaneExact`, `Launch.ServerExact`, `Launch.TuiValueExact`, `Launch.TuiBareExact`, `Launch.TuiResumeExact`).
- The test for late answers looks at the shape of an identifier only: an answer to an identifier of the
  mapped shape that was never issued is dropped too, without an error (`BrokerLoss.LateAnswerDrains`).
- A resolution removes a native request from the tables exactly when it spells the identifier with the
  same bytes; an equal identifier spelled differently leaves it live (`BrokerLoss.ResolutionIsByteExact`).
- The mirrored configuration list of an accepted argument list is accepted unless an option that takes
  a value is given `--disable` as that value (`Options.MirrorExact`), as in `-m --disable -c features.plugins=false`.
- Removing the bypass flag keeps the guard's reading unless an option's value is itself `-c`, `--config`
  or `--disable` (`Options.StripExact`), as in `-m -c --yolo features.plugins=false`.
- An interrupt is lost when a second execution enters the lane while the first waits on its turn
  (`LaneLimits.SharingLosesAnInterrupt`); for a waiting run it reaches native exactly when the run is
  still the lane's current one (`LaneRun.InterruptExact`).
- A turn started after the lane has failed is not told of the failure (`LaneLimits.FailedLaneStartsUnseen`);
  a failure reaches the active turn exactly when it is the first (`LaneTurn.FailureReachesTurn`).
- A WebSocket stream cut where a field begins reads as a plain end of the stream, elsewhere as an error
  (`WebSocket.TruncationIsSeen`).

## Model

| member | source | states |
|---|---|---|
| BrokerIds.KeyIsMeaning | wrappers/codex/broker_mux.go:70-83 | Two identifiers share a routing key exactly when they decode to the same text or the same number; texts and numbers never meet. |
| BrokerIds.WireKeyInjective | wrappers/codex/broker_mux.go:219-225 | Distinct counter values give distinct wire keys. |
| BrokerIds.WireRawDecodes | wrappers/codex/broker_mux.go:219-227 | The identifier put on the wire decodes to the key its call is stored under. |
| BrokerIds.ServerKeyInjective | wrappers/codex/broker_mux.go:85-87 | Mapping native identifiers into the TUI domain loses nothing: different bytes, different keys. |
| BrokerIds.IssuedIsInMappedNamespace | wrappers/codex/broker_mux.go:253-265 | The test for late responses recognises every identifier the broker issued, and only for identifiers that are valid. |
| BrokerMux.Multiplexer.Reserve | wrappers/codex/broker_mux.go:106-114 | Charges the budget, or refuses exactly when the charge does not fit. What this guarantees: BrokerBytes.BudgetAccount. |
| BrokerMux.Multiplexer.Queue | wrappers/codex/broker_mux.go:116-140 | Queues a frame whole and charged, or refuses without a trace. What this guarantees: BrokerBytes.BudgetAccount, BrokerWires.WiresAreFifo. |
| BrokerMux.Multiplexer.ReadTui | wrappers/codex/broker_mux.go:190-270 | The section for one TUI frame computes the specification function FromTui on all fields, error cases included. What this guarantees: BrokerRouting.RunRouted, BrokerLoss.TuiFramesReachNative, BrokerOnce.AnswersAtMostOnce, BrokerOrder.HandshakeExact, BrokerVerdicts.TuiVerdictExact, BrokerGreeting.InitializedIsAccepted. |
| BrokerMux.Multiplexer.ReadNative | wrappers/codex/broker_mux.go:271-350 | The section for one native frame computes FromNative. What this guarantees: BrokerRouting.RunRouted, BrokerLoss.NativeFramesReachTui, BrokerOnce.ResponsesExactlyOnce, BrokerVerdicts.NativeVerdictExact, BrokerGreeting.GreetingIsHeard. |
| BrokerMux.Multiplexer.MarkFailed | wrappers/codex/broker_mux.go:141-153 | The first failure drops the calls and names exactly the callers to wake; later ones change nothing. What this guarantees: BrokerCallers.RunCallers. |
| BrokerMux.Multiplexer.SubmitCall | wrappers/codex/broker_mux.go:395-418 | Opens the correlation of an internal call and queues its frame, or says which of the two failed. What this guarantees: BrokerCallers.RunCallers, BrokerGreeting.CallIsSent, BrokerGreeting.CallIsCarried. |
| BrokerMux.Multiplexer.CancelCall | wrappers/codex/broker_mux.go:422-435 | Detaches the caller and keeps the slot, or reports that the call was claimed. What this guarantees: BrokerCallers.OneOutcomePerCall, BrokerCallers.SlotKeptUntilDrained. |
| BrokerVerdicts.MethodMeans | wrappers/codex/broker_mux.go:88-97 | A frame without a method is a response, one with a method that is no nonempty text is malformed, any other goes under that name. |
| BrokerTables.DuplicateIsSameMeaning | wrappers/codex/broker_mux.go:203-209 | A TUI identifier counts as a duplicate exactly when a live TUI request decodes to the same value. |
| BrokerBytes.RunSound | wrappers/codex/broker_mux.go:106-173 | In every state of every run the routing tables are consistent and the budget is conserved. |
| BrokerBytes.BudgetAccount | wrappers/codex/broker_mux.go:106-173 | Written out: queued, in-write and remembered bytes never exceed what is charged nor the limit, and equal it while nothing has failed; both tables stay within 256 and the TUI identifiers are those of the live calls. |
| BrokerWires.WiresAreFifo | wrappers/codex/broker_mux.go:116-173 | What was written followed by what is queued is what was accepted, in order, on both wires. |
| BrokerRouting.RunRouted | wrappers/codex/broker_mux.go:190-379 | Every frame accepted for either side is the frame it came from with nothing but its identifier, or the reference of a resolution, changed. |
| BrokerOnce.ResponsesExactlyOnce | wrappers/codex/broker_mux.go:324-379 | Each native response reaches the TUI at most once, under the original bytes of the one request that issued its wire identifier, other members unchanged. |
| BrokerOnce.AnswersAtMostOnce | wrappers/codex/broker_mux.go:242-270 | Each native request is answered at most once, with its own identifier bytes, and never after its resolution was read. |
| BrokerLoss.NativeFramesReachTui | wrappers/codex/broker_mux.go:271-379 | While the reader listens, every native frame read has been forwarded, once and in order, or belonged to one of the broker's own calls. |
| BrokerLoss.TuiFramesReachNative | wrappers/codex/broker_transport.go:99-114 | While the TUI reader runs, every TUI frame read was sent to native, once and in order, or was a late answer. |
| BrokerLoss.LateAnswerDrains | wrappers/codex/broker_mux.go:252-265 | A TUI response to an identifier of the mapped shape that is not live, whether it was issued or never was, is dropped without effect and without an error. |
| BrokerLoss.ResolutionIsByteExact | wrappers/codex/broker_mux.go:297-315 | A resolution removes a live request exactly when it names it with the same bytes. |
| BrokerHandshake.RunHandshake | wrappers/codex/broker_mux.go:213-240 | In every run native gets at most one `initialize` with an identifier and at most one `initialized` without, the latter only after a successful response to the former, and no internal call before it. Frames of the other two shapes: BrokerOrder.HandshakeExact. |
| BrokerHandshake.SecondInitialize | wrappers/codex/broker_mux.go:201-236 | After an initialize was seen, another is refused exactly when it carries an identifier. |
| BrokerOrder.HandshakeExact | wrappers/codex/broker_mux.go:201-240 | Counting frames of either shape: in every run the order (at most one `initialize`, at most one `initialized`, the second after the success of the first, internal calls after the second) holds exactly when every notification `initialize` and request `initialized` kept the test its shape skips. |
| BrokerOrder.FrameExact | wrappers/codex/broker_mux.go:190-241 | In every run in which the order held so far, an accepted TUI frame of whatever shape keeps it exactly when it was in order. |
| BrokerOrder.OddUntested | wrappers/codex/broker_mux.go:201-235 | What becomes of a notification `initialize` or a request `initialized` is the same in every state of the handshake. |
| BrokerOrder.InitializeTwice | wrappers/codex/broker_mux.go:213-236 | A reachable state in which native was sent two `initialize` frames. |
| BrokerOrder.InitializedUngreeted | wrappers/codex/broker_mux.go:202-235 | A reachable state in which native was sent two `initialized` frames before it said anything. |
| BrokerGreeting.AnswerIsClaimed | wrappers/codex/broker_mux.go:330-350 | In every run without a failure, the first native response that names a request that was sent, of the TUI's or the broker's own, is claimed for it and does not stop the reader. |
| BrokerGreeting.GreetingIsHeard | wrappers/codex/broker_mux.go:346-349 | While neither side was stopped and nothing failed, the broker knows of a successful `initialize` exactly when native has answered one that was sent. |
| BrokerGreeting.InitializedIsAccepted | wrappers/codex/broker_mux.go:229-240 | A notification `initialized` is accepted exactly when it fits, `initialize` has succeeded and it is the first; and it opens the gate for internal calls. |
| BrokerGreeting.ReadyStays | wrappers/codex/broker_mux.go:238-240 | Nothing closes the gate again. |
| BrokerGreeting.CallIsSent | wrappers/codex/broker_mux.go:395-421 | Behind the gate an internal call that fits is queued for native and has a waiting caller; one that does not fit is not sent. |
| BrokerGreeting.CallIsCarried | wrappers/codex/broker_mux.go:412-418 | The frame of an internal call carries its method, its parameters and its own identifier, and nothing else. |
| BrokerStart.NormalStart | wrappers/codex/broker_mux.go:190-421 | A reachable state in which `initialize` was sent and answered, `initialized` accepted, and a call of the broker's own sent. |
| BrokerVerdicts.TuiVerdictExact | wrappers/codex/broker_mux.go:190-270 | In every run without a failure, exactly which TUI frames are accepted, dropped and refused: duplicates by meaning, limits, room, the handshake by the log, answers to live requests, late answers. |
| BrokerVerdicts.NativeVerdictExact | wrappers/codex/broker_mux.go:271-339 | In every run, exactly which native frames stop the reader: responses to no live call, requests that are invalid, live or too many, resolutions that do not decode; any other notification goes on. |
| BrokerVerdicts.RelayExact | wrappers/codex/broker_mux.go:316-322 | A native frame is queued for the TUI, last, exactly when it was observed and fits; otherwise the reader stops. |
| BrokerVerdicts.SettleExact | wrappers/codex/broker_mux.go:351-379 | A claimed response is queued for the TUI under its identifier exactly when it is an error or was observed and selected, and fits; one of the broker's own goes to its caller, marked failed exactly when it is an error or the observer refused it. |
| BrokerVerdicts.CallersMoveOn | wrappers/codex/broker_mux.go:419-435 | A caller goes on with the reply on its channel; cancelled, it gives up exactly while its call is live and otherwise waits for its reply; a failure wakes every caller it orphaned. |
| BrokerVerdicts.RepliesAreOwn | wrappers/codex/broker_mux.go:351-371 | In every run a reply found by an internal caller is the native response with its serial and a truthful failed mark, or the word that the broker failed. |
| BrokerVerdicts.CancelledIsSilent | wrappers/codex/broker_mux.go:116-140 | Once its context is cancelled the broker sends nothing more, in either direction, in any run. |
| BrokerCallers.RunCallers | wrappers/codex/broker_mux.go:334-371 | In every run no reply channel is sent on twice, a cancelled caller is never sent to, and a waiting caller is live, claimed, about to be woken or has its reply. |
| BrokerCallers.OneOutcomePerCall | wrappers/codex/broker_mux.go:411-435 | The first outcome of a call is its only one; after cancellation nothing is sent or observed, and a reply returned is the one that was sent. |
| BrokerCallers.SlotKeptUntilDrained | wrappers/codex/broker_mux.go:422-431 | A correlation, cancelled or not, is given up only to its native response or to the failure. |
| Publisher.BrokerResident.SetName | wrappers/codex/broker_owners.go:123-135 | A rename bumps the generation and withdraws the admission. What this guarantees: PublisherRun.NoLostWakeup, PublisherRun.AdmittedMeansPublished, PublisherStory.StoriesAreTrue, PublisherStory.PublishedUnderItsName. |
| Publisher.BrokerResident.StatusUpdated | wrappers/codex/broker_owners.go:136-149 | A startup update withdraws tools and admission and opens a new tool generation. What this guarantees: PublisherRun.AdmittedMeansPublished. |
| Publisher.BrokerResident.CheckTools | wrappers/codex/broker_owners.go:153-162 | At most one check at a time, and none once closed. What this guarantees: PublisherRun.RunOk. |
| Publisher.BrokerResident.CheckDone | wrappers/codex/broker_owners.go:201-207 | A finished check gives tools only if valid, still ready, of the current tool generation and not closed. What this guarantees: PublisherRun.AdmittedMeansPublished, PublisherStory.ToolsFollowChecks. |
| Publisher.BrokerResident.End | wrappers/codex/broker_owners.go:233-252 | Retirement closes once, withdraws the admission and hands back the connection to close. What this guarantees: PublisherRun.RetirementIsTerminal, PublisherRun.ShutdownJoins. |
| Publisher.BrokerResident.Observe | wrappers/codex/broker_owners.go:343-350 | The observer admits only an open resident with tools and the generation the hello was built from. What this guarantees: PublisherRun.AdmittedMeansPublished, PublisherStory.AdmissionFollowsHellos. |
| Publisher.BrokerResident.Request | wrappers/codex/broker_owners.go:393-435 | A request is taken only from the current connection of an open resident; supersession closes it in the same section. What this guarantees: PublisherRun.SupersededIsLast, PublisherRun.RetirementIsTerminal, PublisherStory.ServedAsAdmitted. |
| PublisherRun.RunOk | wrappers/codex/broker_owners.go:59-435 | The invariant of all residents holds in every state of every run. |
| PublisherRun.NoLostWakeup | wrappers/codex/broker_owners.go:287-386 | A publisher asleep with an empty channel, no wake in flight and a live context has nothing to publish. |
| PublisherRun.AdmittedMeansPublished | wrappers/codex/broker_owners.go:335-366 | An admitted resident has tools from a valid check of the current generation, is open, connected, loaded under its thread, and its last accepted hello carried its current identity on that connection. |
| PublisherStory.StoriesAreTrue | wrappers/codex/broker_owners.go:59-149 | In every run a resident's identity is the session of its thread with the name in the last rename of that thread since its load, or the loaded name; its tool generation counts the startup reports since then. |
| PublisherStory.WordsAreKept | wrappers/codex/broker_owners.go:107-149 | The board holds native's last word on a thread's server since the thread was closed. |
| PublisherStory.PublishedUnderItsName | wrappers/codex/broker_owners.go:110-124 | The hello of an admitted resident, on the connection it has, carried the session and the last name that the events gave it, and native's last word on its server is `ready`. |
| PublisherStory.ToolsFollowChecks | wrappers/codex/broker_owners.go:198-213 | A resident has its tools exactly when a valid check that began after the last startup report, with native ready, has ended and nothing has spoiled it since. |
| PublisherStory.AdmissionFollowsHellos | wrappers/codex/broker_owners.go:335-350 | A resident is admitted exactly when native has accepted a hello of its current generation, with tools, while it was open, and nothing has withdrawn the admission since. |
| PublisherStory.ServedAsAdmitted | wrappers/codex/broker_owners.go:393-435 | A request was handled as admitted exactly when it came over the connection of a resident that was admitted at that moment. |
| PublisherStory.ChecksFollowReadiness | wrappers/codex/broker_owners.go:150-213 | A check of the tools is running exactly when one was begun, by a load or report that found native ready or after a check that was overtaken, and none has ended since: one at a time, and none for a closed resident. |
| PublisherStory.EndsFollowEvents | wrappers/codex/broker_owners.go:228-262 | A resident is closed exactly when its thread was closed, its owner ended, its publisher left or it was superseded; its context is cancelled exactly then or with everybody's; and it has a connection exactly when that was dialled while it was open and not given up since. |
| PublisherLoop.Publishes | wrappers/codex/broker_owners.go:287-367 | From every state of an open resident with an unmet need and no connection, the loop's own moves dial, say hello with its identity, are admitted when native accepts, and put it to sleep on the new connection. |
| PublisherLoop.Republishes | wrappers/codex/broker_owners.go:318-367 | One that has its connection says hello on that. |
| PublisherLoop.LooksAgain | wrappers/codex/broker_owners.go:329-383 | Without a need the loop sleeps; a need met meanwhile, a hello overtaken by a rename, and a wake send it back to look. |
| PublisherLoop.StartsAfresh | wrappers/codex/broker_owners.go:294-381 | After a failed dial, a hello that failed for a passing reason or a lost connection it waits and starts again without connection and admission. |
| PublisherLoop.LeavesForGood | wrappers/codex/broker_owners.go:280-286 | A cancelled context, an invalid hello and a dial that finds the resident closed make it leave; it retires and, its handlers done, ends. |
| PublisherLoop.CountsOff | wrappers/codex/broker_owners.go:213-219 | A wake that was owed is sent and no longer owed, a handler that ends is gone, and a supersession counts as a handler until it has retired the resident. |
| PublisherRun.StepTerminal | wrappers/codex/broker_owners.go:233-252 | No step reopens a resident, un-ends the owners, or adds a handler to a closed resident. |
| PublisherRun.RetirementIsTerminal | wrappers/codex/broker_owners.go:393-411 | A closed resident is never admitted again and gains no handler, over every run. |
| PublisherRun.SupersededIsLast | wrappers/codex/broker_owners.go:401-411 | A supersession from the current connection closes the resident and joins as its last handler; from any other connection it changes nothing. |
| PublisherRun.EndedWork | wrappers/codex/broker_owners.go:253-264 | No work is added after the end. |
| PublisherRun.ShutdownJoins | wrappers/codex/broker_owners.go:253-264 | Once the wait of an ended owner returns, every publisher, check, wake, handler and rename call has finished, and none starts again. |
| AppClient.RequestKeyIsMeaning | wrappers/codex/app.go:378-389 | Served requests share a key exactly when their identifiers decode to the same text or number. |
| AppClient.ResolutionIsExact | wrappers/codex/app.go:390-409 | A resolution cancels a served request exactly when key and thread both match, and changes nothing else. |
| AppClient.NativeClient.OpenCall | wrappers/codex/app.go:127-140 | Opens a call, or refuses it because the client failed or 256 are pending. What this guarantees: AppRun.SlotKeptUntilAnswered. |
| AppClient.NativeClient.CancelCall | wrappers/codex/app.go:148-162 | Cancellation keeps only the identifier, or reports that the call was claimed. What this guarantees: AppRun.SlotKeptUntilAnswered, AppRun.OneOutcomePerCall. |
| AppClient.NativeClient.MarkFailed | wrappers/codex/app.go:349-363 | The first failure takes all pending calls and names exactly the callers to wake. What this guarantees: AppRun.NobodyStranded. |
| AppClient.NativeClient.ReadFrame | wrappers/codex/app.go:255-334 | The reader's dispatch of one frame computes Handle, faults included. What this guarantees: AppRun.RequestsAreDistinct, AppRun.OneOutcomePerCall, AppReads.FrameHandled, AppReads.NotificationsInOrder. |
| AppRun.WholeFrames | wrappers/codex/app.go:184-225 | In every run one transport write at most is in flight, and none was ever started after one that was incomplete, failed or deserted by its cancelled writer. |
| AppRun.SlotKeptUntilAnswered | wrappers/codex/app.go:123-163 | A call whose frame reached the transport keeps its slot until its response or the failure, and its frame is started once. |
| AppRun.RequestsAreDistinct | wrappers/codex/app.go:266-294 | Running handlers serve requests of different identifiers, and never more than 256 requests or calls are open. |
| AppRun.OneOutcomePerCall | wrappers/codex/app.go:145-163 | Each call has one outcome: a reply is the single one sent and a result bears the call's identifier; after giving up nothing is sent and no observer runs; a write error means that the frame was not written whole with its caller waiting, and not started at all unless the client failed. |
| AppRun.WriteDecidesOutcome | wrappers/codex/app.go:141-144 | A call returns a write error exactly when its frame was not written whole with the caller waiting for it, and if the frame had been started the client has failed. |
| AppRun.ClaimWinsExactly | wrappers/codex/app.go:141-163 | Once the reader or a failure owns completion, the caller returns what was sent to it exactly when its own write was whole, and otherwise its write error; it never returns the cancellation. |
| AppLimits.ClaimedReplyCanLose | wrappers/codex/app.go:141-144 | A reachable state in which a call was answered and observed, and its caller returned a write error. |
| AppRun.NobodyStranded | wrappers/codex/app.go:314-363 | A waiting caller is live, or somebody owns its completion with an empty channel, or its reply is there. |
| AppReads.FrameHandled | wrappers/codex/app.go:255-334 | One frame: the reader stops exactly for one of the seven reasons, and otherwise starts a handler, settles or drops an answer, or hands a notification on, and listens again. |
| AppReads.FaultsAreEarned | wrappers/codex/app.go:255-316 | In every run the reader has stopped on a frame only if that frame, the last one read, was one it has to stop on. |
| AppReads.NotificationsInOrder | wrappers/codex/app.go:296-304 | In every run the notifications handed on are exactly those read, once each and in reading order. |
| AppReads.ListensOn | wrappers/codex/app.go:255-334 | Without a failure, an answer to a call that was started and not yet answered, given up or not, a well-formed resolution, matching or not, a fresh request below the limit and any notification leave the reader running. |
| AppBooks.CallsAreBooked | wrappers/codex/app.go:123-163 | In every run a caller is there exactly when its call was opened; without a failure its slot is open exactly when it has not been answered and its caller has not withdrawn; it is drained exactly when its caller gave up; and its observer has run exactly when it has one and its reply is a result. |
| AppBooks.RequestsAreBooked | wrappers/codex/app.go:266-294 | In every run the requests being served are those with a running handler, and one is cancelled exactly when a resolution naming its identifier and thread has been read. |
| AppBooks.GateComesFree | wrappers/codex/app.go:184-225 | While the gate is held its holder has a next step, every step of its holder brings it nearer to giving it back, and no other step takes it away. |
| AppBooks.ReaderStopsForGood | wrappers/codex/app.go:249-265 | A reader that has stopped reads nothing more. |
| AppBooks.WriteGoesThrough | wrappers/codex/app.go:134-217 | From every quiet state a call opens, takes the gate, writes its frame whole and waits. |
| AppBooks.CallGoesThrough | wrappers/codex/app.go:305-334 | And once native answers it, with a result or an error, its observer runs for a result and the caller returns that answer. |
| LaneTurn.EventOrderly | wrappers/codex/codex.go:570-608 | A notification keeps the turn's channels orderly, takes nothing back, and leaves the lane idle exactly when it signals completion. |
| LaneTurn.EventExact | wrappers/codex/codex.go:566-608 | A notification of the lane's thread that names the active turn, or finds it unnamed, names it and makes it ready, and ends it with the reported status exactly when it is a completion; any other leaves the turn as it was, and only a malformed or contradicting one asks for a failure. |
| LaneTurn.FailureReachesTurn | wrappers/codex/codex.go:654-672 | A failure signals the active turn exactly when it is the first failure of the lane. |
| LaneTurn.NameOrderly | wrappers/codex/codex.go:447-459 | The start reply names the turn exactly when it is not empty and contradicts no earlier event. |
| LaneTurn.LaneObject.Begin | wrappers/codex/codex.go:419-427 | A start is refused exactly when a turn is active; otherwise a fresh idle turn is. What this guarantees: LaneRun.ReceiptsAreHonest, LaneRun.TurnsNeverTakenBack. |
| LaneTurn.LaneObject.Notify | wrappers/codex/codex.go:566-608 | One turn notification, computed on lane and turn together. What this guarantees: LaneTurn.EventOrderly, LaneRun.TurnsNeverTakenBack, LaneTurn.EventExact, LaneEvents.TurnsFollowEvents. |
| LaneTurn.LaneObject.MarkFailed | wrappers/codex/codex.go:654-672 | The section of a failure, computed on lane and turn together. What this guarantees: LaneTurn.FailureReachesTurn, LaneEvents.TurnsFollowEvents. |
| LaneTurn.LaneObject.Clear | wrappers/codex/codex.go:647-653 | Clearing drops the turn only if it is the active one. What this guarantees: LaneRun.NoLostInterrupt. |
| LaneRun.TurnsNeverTakenBack | wrappers/codex/codex.go:554-684 | Over every run a turn's identifier is written once, each channel gets at most one signal, the second only after success on the first, and a completed turn keeps its completion. |
| LaneEvents.TurnsFollowEvents | wrappers/codex/codex.go:566-684 | In every run a turn is ready exactly when a notification naming it arrived while it was active, done exactly when one reported its completion, with that status; it is told of a failure exactly when it was active at the first one; and it stays active exactly until one of these or until its own execution gives up. |
| LaneEvents.LaneFollowsEvents | wrappers/codex/codex.go:554-672 | In every run the lane has failed exactly when it was failed from outside or heard a notification it has to fail on, and its boundary counts the starts and the notifications of its thread. |
| LaneRun.ReceiptsAreHonest | wrappers/codex/codex.go:289-343 | One receipt per delivery and none per text by the time an execution returns; rejected only if no start was sent; injected only after the start reply and a notification received since that start began named the same turn. |
| LaneProgress.ReceiptsAreExact | wrappers/codex/codex.go:289-343 | In every run a delivery that returned reported rejected exactly when it was refused before it entered, injected exactly when it found its turn ready, and otherwise that it does not know; and its start was written exactly when it found the lane idle. |
| LaneProgress.CurrentIsLast | wrappers/codex/codex.go:317-330 | The lane's current run is the one that entered last and has not retired. |
| LaneProgress.ExecutionsEnd | wrappers/codex/codex.go:289-343 | Every step of an execution brings it nearer to its end, no other step moves it, and it has a next step until it returns. |
| LaneProgress.AdmittedGoesOn | wrappers/codex/codex.go:328-341 | After its report an admitted execution goes on exactly when the report was taken or there was none to make, calls the native interrupt exactly when the flag is set, and ends at once exactly when that call fails. |
| LaneProgress.InterruptGoesThrough | wrappers/codex/codex.go:352-368 | An interrupt of the current run while its turn is running calls native for that turn; any other does not. |
| LaneRun.NoLostInterrupt | wrappers/codex/codex.go:352-368 | An interrupt of a run that has the lane to itself, made before it returned and without a native call, finds the execution's own look at the flag still ahead, or that look calls native, or the turn is over. |
| LaneRun.InterruptsAreAimed | wrappers/codex/codex.go:352-368 | A native interrupt strikes the run's own started turn, or one left behind by an execution that had returned, unless executions shared the lane. |
| LaneRun.InterruptExact | wrappers/codex/codex.go:353-367 | For a run waiting on its active turn, an interrupt reaches native exactly when the run is the lane's current one, which it is unless executions shared the lane. |
| LaneLimits.SharingLosesAnInterrupt | wrappers/codex/codex.go:317-359 | A reachable state in which a second entry has made the first run's interrupt vanish. |
| LaneLimits.FailedLaneStartsUnseen | wrappers/codex/codex.go:419-427 | A reachable state with an active turn in a failed lane, which no later failure signals. |
| LaneSteer.SteerTexts | wrappers/codex/codex.go:403-417 | Exactly which error texts are taken to mean that a steer was not submitted. |
| LaneDeliver.DeliveriesAreHonest | wrappers/codex/codex.go:372-401 | In every run the identifier put into the native call at the second look is the one seen at the first, of a turn that had started; not-running means that nothing was submitted, because nothing was sent or native gave a recognised text for the identifier sent; injected means that native confirmed the turn sent, and submitted; and a confirmation or a recognised text is always reported as such. |
| LaneDeliver.NotRunningIsTrue | wrappers/codex/codex.go:380-391 | A delivery that was not sent reports not-running only if a look found no started turn, or not the one it had seen. |
| LaneDeliver.DeclinedIsTrue | wrappers/codex/codex.go:372-379 | Only a delivery that was given up before it looked is declined. |
| LaneProgress.DeliveryGoesThrough | wrappers/codex/codex.go:372-401 | From every state in which a turn is running, a delivery is sent to native for that turn, and what native answers decides what it reports. |
| LaneProgress.DeliveryStops | wrappers/codex/codex.go:376-391 | A delivery that is given up before it looks is declined at once, and one that finds an idle lane is not running at once. |
| LaneProgress.DeliveriesEnd | wrappers/codex/codex.go:372-401 | Every step of a delivery brings it nearer to its end, and no other step touches it. |
| LaneDeliver.SettledMeansUnsubmitted | wrappers/codex/codex.go:289-343 | In every run an attempt, by delivery or by run, that told the daemon it may retry submitted nothing, and one that reported injected did submit. |
| LaneDeliver.AtMostOneSubmission | wrappers/codex/codex.go:372-401 | In every run in which the daemon begins another attempt only after its earlier ones settled, at most one attempt submits the message, by delivery or by run, and one that reported injected is that one. |
| LaneOpen.CommitWins | wrappers/codex/codex.go:226-245 | Once committed, the startup callback never ends the lifetime, whatever happens to the caller's context. |
| LaneOpen.CommittedEndsOnlyByFailure | wrappers/codex/lane_process.go:54-60 | After the commit only a failure or a close ends the lifetime. |
| LaneOpen.CancellationWins | wrappers/codex/lane_process.go:47-61 | If the caller was cancelled before the commit looked, or the callback ended the lifetime, the open never commits. |
| LaneOpen.OpensExactly | wrappers/codex/codex.go:226-245 | An open commits exactly when the title was confirmed after a look at the caller that came before any cancellation, with no failure or close before the confirmation. |
| LaneOpen.CancellationIsHeard | wrappers/codex/lane_process.go:47-61 | A cancelled caller's callback has run, or may run once the lock is free, unless it had been taken off first; and when it has run the lane is open or its lifetime over. |
| LaneOpen.EndsByTheFirst | wrappers/codex/lane_process.go:47-61 | The lifetime ends with the first failure, close or callback before the commit, and keeps that cause. |
| LaneOpen.LifetimeObject.CommitOpen | wrappers/codex/codex.go:226-245 | The commit in place: the checks in order, then the disarmed callback and the opened flag. What this guarantees: LaneOpen.CommitWins, LaneOpen.CancellationWins. |
| LaneOpen.LifetimeObject.OnCancelled | wrappers/codex/lane_process.go:54-60 | The callback in place: it ends the lifetime only of a lane that is not open. What this guarantees: LaneOpen.CommittedEndsOnlyByFailure. |
| LaneOpen.NoLostReadiness | wrappers/codex/lane_tools.go:82-97 | A waiter never stands parked on an open channel while its thread's status says to go on or give up. |
| LaneOpen.UpdateClosesChannel | wrappers/codex/lane_tools.go:23-33 | A channel captured before an update of the lane's server is closed in every state after it. |
| LaneOpen.BoardIsHistory | wrappers/codex/lane_tools.go:15-33 | At any time the board holds the last word on every thread, and one channel has been closed for every word that counted. |
| LaneOpen.WaitsAreDecided | wrappers/codex/lane_tools.go:82-97 | A wait goes on exactly when it looked while the last word on its thread was `ready`, gives up exactly when that word was `failed` or `cancelled` or its context ended, and sleeps only after a look that found neither. |
| LaneOpen.WokenExactly | wrappers/codex/lane_tools.go:82-97 | A sleeping wait may be woken exactly when a word that counts came after its last look. |
| LaneOpen.StartupBoard.ReceiveStartup | wrappers/codex/lane_tools.go:15-33 | A startup event replaces table and channel, or is ignored if it is another server's or names no thread. What this guarantees: LaneOpen.NoLostReadiness, LaneOpen.UpdateClosesChannel. |
| Arguments.PathPrefix | wrappers/codex/arguments.go:124-134 | The loop decides the prefix relation. |
| Arguments.ManagedAntichain | wrappers/codex/arguments.go:63-70 | No managed path is an ancestor of another, so leaving the loop at the first match is sound. |
| Arguments.CompatibleReads | wrappers/codex/arguments.go:148-198 | The guard's test at each managed path is what native makes of the value there: flags decode to true, the enabled list has the tool, the disabled one has not, approval reads `approve`, decoded or raw. |
| Arguments.GrantIsUsable | wrappers/codex/arguments.go:63-70 | A tree that keeps the grant over a base with usable switches gives native the tool, as it reads the leaves; and a tree that gives it keeps the grant. |
| Arguments.Conflicts | wrappers/codex/arguments.go:112-119 | The loop over the managed paths finds a conflict exactly when the assignment is not harmless. What this guarantees: Arguments.ItemGuardExact. |
| Arguments.ValidateManagedConfig | wrappers/codex/arguments.go:75-122 | The guard accepts exactly the lists all of whose assignments are harmless and that disable no plugins feature. What this guarantees: Arguments.GrantPreserved, Launch.LaneGranted. |
| Arguments.OverrideReadsBack | wrappers/codex/arguments.go:136-146 | An override argument is read back as its path and value. |
| Arguments.ActivationGrants | wrappers/codex/package.go:25-31 | The activation arguments alone turn plugins and the plugin on and approve the tool, over any configuration. |
| Arguments.GrantPreserved | wrappers/codex/arguments.go:72-122 | Folding any accepted assignments over the activation, in any order, keeps the grant, leaves the server's own switches compatible or untouched, and so, over every configuration that does not take the tool away itself, leaves native with the tool as it reads the leaves. |
| Arguments.AcceptedListGranted | wrappers/codex/arguments.go:72-122 | The same for the activation in front of any list that the guard accepts; what is launched: Launch. |
| Arguments.AssignmentGuardExact | wrappers/codex/arguments.go:148-166 | At a granted path, above it or below it, the guard lets a single assignment through exactly when the grant survives it, and exactly when native still has the tool. |
| Arguments.ItemGuardExact | wrappers/codex/arguments.go:75-122 | The guard lets an item through exactly when, over every configuration with usable switches, native has the tool, as it reads the leaves, once the item is applied to the activated configuration; over any other it adds nothing. |
| Options.ParseInteractiveOptions | wrappers/codex/interactive_options.go:17-87 | The parser yields the image of the segmentation, segment by segment and in order, or the first error after the guard's. What this guarantees: Options.SegmentsPartition, Options.AcceptedMirror, Launch.NativeAccepted. |
| Options.SegmentsPartition | wrappers/codex/interactive_options.go:27-85 | The segments are the argument list cut up: no token is lost, repeated or moved. |
| Options.ScannersAgree | wrappers/codex/interactive_options.go:27-85 | Everything the guard would read in the mirrored list it has read in the arguments, when no option has `--disable` as its value. |
| Options.AcceptedMirror | wrappers/codex/arguments.go:75-121 | So the mirrored list of an accepted list is accepted. |
| Options.MirrorExact | wrappers/codex/interactive_options.go:78-84 | For an option and its value: every accepted continuation has an accepted mirror exactly when the value is not `--disable`. |
| Options.LaneArguments | wrappers/codex/arguments.go:36-61 | The lane's loop yields the stripped arguments and whether bypass was asked for, or nothing if the guard rejects. What this guarantees: Options.StripRemovesExactlyFlags, Options.StrippedStillAccepted. |
| Options.UnitsPartition | wrappers/codex/arguments.go:43-59 | The units of the lane's reading are the argument list cut up. |
| Options.StripRemovesExactlyFlags | wrappers/codex/arguments.go:41-60 | The stripped list reads as the same units without the bypass flags: option values that spell a flag and everything after `--` stay. |
| Options.StripIdempotent | wrappers/codex/arguments.go:41-60 | Stripping twice is stripping once, and leaves no bypass flag. |
| Options.StrippedStillAccepted | wrappers/codex/arguments.go:36-61 | The stripped list is accepted exactly when the original is, if no option's value is itself a greedy option. |
| Options.StripExact | wrappers/codex/arguments.go:49-58 | For an option and its value before a bypass flag: every accepted continuation stays accepted exactly when the value is not greedy. |
| Launch.LaneGranted | wrappers/codex/codex.go:157 | The lane's command line, activation and stripped arguments, keeps the grant over every configuration if no option's value is itself greedy. |
| Launch.ServerGranted | wrappers/codex/interactive_launch.go:212 | So does the command line of the broker's App Server if no option but `--disable` has `--disable` as its value. |
| Launch.NativeAccepted | wrappers/codex/interactive_options.go:27-86 | The native list of an accepted list is accepted, under a condition on the caller's list: no option left waiting is followed by a wrapper option, none has `--disable` as its value, and no resumed name looks like a harmful or waiting option. |
| Launch.TuiGranted | wrappers/codex/interactive_launch.go:143-144 | Under it the command line of the terminal interface keeps the grant over every configuration. |
| Launch.LaneExact | wrappers/codex/arguments.go:43-59 | Behind any closed prefix: every accepted continuation of an option, its value and a bypass flag keeps the grant on the lane exactly when the value is not greedy. |
| Launch.ServerExact | wrappers/codex/interactive_options.go:78-84 | Behind any closed prefix: every accepted continuation of an option and its value keeps the grant on the broker's App Server exactly when the value is not `--disable`. |
| Launch.TuiValueExact | wrappers/codex/interactive_options.go:78-84 | The same on the terminal interface: exactly when the value is not greedy. |
| Launch.TuiBareExact | wrappers/codex/interactive_options.go:33-40 | A bare `-c` before another option: every continuation keeps the grant exactly when that option is not one the launcher drops. |
| Launch.TuiResumeExact | wrappers/codex/interactive_options.go:72-75 | A resumed name: every continuation keeps the grant exactly when the name looks like no harmful and no waiting option. |
| Launch.LaunchesThatLose | wrappers/codex/interactive_options.go:27-86 | Four accepted argument lists whose launches turn the plugins off over every configuration. |
| WebSocket.EncodeDecodes | wrappers/codex/websocket.go:77-106 | What the client sends decodes by RFC 6455 to one final text frame with its mask and payload, for every payload up to 64 MiB. |
| WebSocket.Connection.Write | wrappers/codex/websocket.go:77-106 | The client masks the payload in place and sends the encoded frame, or refuses an oversized one untouched. What this guarantees: WebSocket.EncodeDecodes. |
| WebSocket.Connection.WriteAll | wrappers/codex/websocket.go:156-168 | What gets through is a prefix of the body, and the whole body when no error is returned. What this guarantees: WebSocket.PositiveProgressSuffices. |
| WebSocket.PositiveProgressSuffices | wrappers/codex/websocket.go:156-168 | Under every pattern of positive partial writes everything gets through. |
| WebSocket.WriteStops | wrappers/codex/websocket.go:156-168 | The first write that fails or makes no progress decides the error and how much got through. |
| WebSocket.WriteGoesThrough | wrappers/codex/websocket.go:156-168 | If no write that is tried does either, everything gets through. |
| WebSocket.Connection.Read | wrappers/codex/websocket.go:108-152 | One read of the stream computes Receive, with its errors and what it leaves unread. What this guarantees: WebSocket.FrameIsReceived, WebSocket.MessageWasFrame, WebSocket.SequenceIsReceived. |
| WebSocket.FrameIsReceived | wrappers/codex/websocket.go:108-147 | A read on a stream that starts with an unmasked text frame of legal size takes exactly that frame. |
| WebSocket.MessageWasFrame | wrappers/codex/websocket.go:108-147 | And only on such a stream does a read yield a message. |
| WebSocket.ReceiveAgrees | wrappers/codex/websocket.go:113-143 | On a frame of the standard the client reads its payload exactly when it is final, unreserved, text, unmasked and within the limit, and otherwise refuses it for what is wrong with it. |
| WebSocket.SequenceIsReceived | wrappers/codex/websocket.go:108-152 | A sequence of frames is read back as the same sequence of messages. |
| WebSocket.TruncationIsSeen | wrappers/codex/websocket.go:108-147 | A stream cut inside a frame is an error, except exactly where a field begins. |

## Left out

- JSON, TOML and base64 decoding, message rendering and the text of error messages: library code, represented by functions with stated laws; malformed values are inputs of the model, but not their spelling.
- The counters of the broker and of the client do not wrap at 64 bits; a run of the source would need 2^63 requests.
- The byte charge of a frame is any function of the frame; that encoding one frame twice gives the same size is assumed.
- The reservation, the context check and the queue send of one enqueue are one step, so a charge that is taken and given back within it is not visible to other threads.
- `broker_owners.go` keeps its residents in a map of objects; here one resident is a class and the collection is a value, so aliasing between the map and a running publisher is not modelled.
- The limit of 256 remembered startup states and the decoding of thread replies in `observe`: an observation that fails is a step that stops the native reader, and further startup states are always accepted.
- The paging of the two catalog checks: a check ends with any result. The lane's own check has no page limit, so its termination would need an assumption about cursors.
- Time: the reconnect delay is a step that may happen at any moment, and nothing is claimed about progress of the network or of native.
- Processes, pipes, sockets, the HTTP upgrade and its digest, signals, environment filtering and the rest of `Close`.
- Reading the finished turn back from native and rendering its answer (`read`, `terminal`), the effective-settings checks of `Open`, and dynamic tool requests: single-branch facts.
- `peer.go` and `InteractivePlan`: not reached from the command, and of the same delivery shape.
- Options.ParseInteractiveOptions: on an error the source also returns what was parsed so far; the model returns the error only, since its callers drop the rest.
- LaneRun.NoLostInterrupt: speaks of the native call being made, not of native obeying it.
- LaneTurn.LaneObject.Notify: the startup notifications that share the entry point are in `LaneOpen`.
