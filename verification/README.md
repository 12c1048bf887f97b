# nwep: the concurrency and ownership protocols, verified

nwep is a Python binding to a single-threaded C library. What is hard in it is not the binding
but the code that drives it: three managed runtimes that pin a C handle to an owner thread and
talk to it from asyncio, a server-side pump for streamed bodies, and a handful of objects whose
methods must be called in the right order and the right number of times. This project models
that code in Dafny and proves what it is relied on for.

C handles appear as objects with nondeterministic results and an open or closed state. A runtime
appears twice. Once it is a transition system, whose actions are the atomic steps of the event
loop's tasks, of the loop's callbacks, of cancellation and of the owner thread; the theorems are
about every run of it. And once it is imperative code shaped like the source: a class with the
source's fields and loops, each method of which performs actions of the transition system. The
ghost fields `model` and `trace` record those actions and `Valid()` ties the fields to them, so
that the theorems about runs hold of the objects. What other threads do between two steps of a
loop, and what the library and the clocks answer, comes from a script the object is built with;
the methods are proved for every script.

| file | what it models |
|---|---|
| `Mailbox.dfy` | the command queue, futures and callback queue shared by both managed runtimes |
| `ClientBridge.dfy`, `ClientBridgeTheorems.dfy`, `ClientOwner.dfy` | `AsyncClient` and its owner thread |
| `ServerBridge.dfy`, `ServerBridgeTheorems.dfy`, `ServerOwner.dfy`, `Announce.dfy` | the managed server's owner thread, the blocking resolve, the announce timer |
| `Handoff.dfy` | how all three owners start, and what a cancelled awaiter leaves behind |
| `Pump.dfy`, `PumpRuns.dfy`, `PumpProgress.dfy`, `PumpFaults.dfy`, `PumpLoops.dfy` | the back-pressure pump, in both forms the examples have |
| `StreamPipeline.dfy`, `StreamTheorems.dfy`, `StreamProgress.dfy`, `StreamOwner.dfy`, `StreamReceivers.dfy` | one streamed body from the pump through the network and `AsyncStream` to the receiving loops |
| `ClientHandles.dfy` | `Connecting`, `Client` and `Stream` ownership |
| `Responder.dfy` | answering a request exactly once, sub-routers, the handler trampoline |
| `Proxy.dfy` | the caching proxy |
| `Headers.dfy` | the header array that crosses into C |

## Main results

- **Exactly once.** `_resolve` and `_reject` test only `cancelled()`, yet no setter ever meets a
  future that is done: each command is in exactly one place at any time (`ExactlyOnce`,
  `CommandsConserved`).
- **The client bridge is a sequential client.** Every interleaving refines a program that sends
  once per call, in call order (`RefinesSequentialClient`). The owner leaves its loop for a stop or
  a raising tick and for nothing else (`LoopLeftIff`), and after `aclose` it ends
  (`OwnerTerminates`, `OwnerNeverStuck`).
- **An answer is what the calls made for it owe.** A resolve looks, starts the lookup and pumps in a
  fixed order, for its own target, and its awaiter gets the address exactly when one of its lookups
  found it (`OwnAnswer`, `ResolveMeans`); the server's loop keeps its round (`RoundInOrder`) and
  announces exactly when its timer says so (`AnnouncesExactly`).
- **A verified end is the whole body**, over every schedule of pump, network, owner and consumer
  (`VerifiedEndIsWholeBody`, `PumpFeedsPipeline`), and an honest transfer always gets there
  (`NeverStuck`, `UsefulRunsEnd`, `Completes`, `DrainedUnlessRefused`). The terminal item says
  exactly what happened (`TerminalMeans`), and `aclose` ends any body (`OwnerTerminates`).
- **Resources are closed in order and once** (`ClosedInBorrowOrder`, `StreamClosedBeforeClient`,
  `OneSideWins`, `Session.Live`).
- **Time.** A blocking resolve ends one capped wait after its deadline at the latest; with k
  resolves queued and no more arriving, a stop is noticed within their timeouts and k + 1 capped
  waits, from any place in the loop (`ResolveBlocking`, `PassThenCheck`, `NoticeStop`); announces are a minute apart whatever the clock does.
- **The examples' helpers.** Both pumps make the same calls and never send a wrong byte; the proxy
  answers in order and its cache is invisible; headers survive C exactly when they hold no NUL.

## Where the code falls short of its documentation

Each of these is proved with a concrete run, and with the exact condition under which it happens.

- `AsyncClient.send` after the owner died of a raising tick is accepted and never settled
  (runtime.py:402-415, `StrandedSend`); a send is settled if and only if it was accepted before
  the drain ended (`SendSettlesIff`).
- A `resolve` or `dht_metrics` still queued when the owner leaves its loop is never settled
  (runtime.py:243-259, `StrandedResolve`); one is settled if and only if the owner was serving
  commands when it was accepted or later found stop unset once more (`CommandSettlesIff`).
- Three early exits of the server's owner do not close what it opened (runtime.py:229-239): with the
  dht attached, a raising `bootstrap` or a cancelled awaiter closes the server alone
  (`BootstrapFailureLeavesDht`, `CancelLeavesDht`); a raising `server.node_id` closes nothing and
  leaves the awaiter waiting (`NodeIdFailureLeavesServer`, `NeverTold`). On every other exit the
  client, server, dht and stream handles are closed, a stream at the latest with its connection
  (`NothingLeftOpenIff`).
- An awaiter cancelled too late leaves an owner thread that nobody can stop: the cancel had not yet
  reached `ready` when `set_result` came, or the result was set but not yet delivered
  (runtime.py:235-239, 263, 393-397, 419, 549-554, 578; `OrphanReachable`, `UndeliveredOrphan`,
  exactly when: `CancelOrphansIff`).
- A cancelled `AsyncStream.recv` leaves its executor thread in the queue, which swallows the next
  chunk; the next `recv` may still return None over an incomplete body, although the documentation
  calls that an authentic, whole body (runtime.py:486-498, `CancelledRecvLosesChunk`). A consumer
  that cancels no recv whose thread has started is safe (`UncancelledConsumer`); with such a thread
  left, bytes outstanding and nothing else going wrong, the loss can still happen
  (`AbandonedCanLose`).
- A sub-router's `dispatch` writes the response buffer before it claims the responder, so calling
  it on an answered request overwrites the answer before it raises (log.py:423-433,
  anchor.py:138-149, `ConsistentIff`).
- The first exception in a drain or a tick ends the example proxy, with every request parked or in
  service unanswered (nwproxy.py:65-84, _common.py:45-50, `OneAnsweredOneLost`; exactly when:
  `RunsUntilFault`, and exactly what is lost: `FaultLosesTheRest`). An origin whose responses the
  cache refuses is relayed once (`UncacheableOriginIsServedOnce`).
- The first raising `stream_send` or `stream_end` ends either pump and leaves every other stream
  unended (managed_stream.py:60-71, nwcurl.py:55-64, `OneRaiseStrandsBoth`; exactly when: `DeadIff`,
  and what each stream has then been given: `FaultStrandsTheRest`).

## Assumptions

- The event loop stays open and is one loop, so `call_soon_threadsafe` does not raise and `send`
  is atomic up to its `await`.
- `stream.verify` succeeds only if the peer's `stream_end` signed exactly the bytes `recv` handed
  out. Nothing else is assumed of the network, which may also tamper.
- Time bounds are for ticks that do not block, a monotonic clock that moves in every wait, and a
  `select` that does not oversleep. The wall clock is arbitrary, except where a lemma says steady.
- A connection and stream id identify one request: a handler never opens the same stream twice.

## Model

| member | source | states |
|---|---|---|
| `Mailbox.SubmitKeepsBox` | nwep/runtime.py:336-341 | enqueueing a command with a fresh future keeps the mailbox invariant: oldest-first tokens, answers owed to their own token, at most one stop mark and it last |
| `Mailbox.PutStopKeepsBox` | nwep/runtime.py:343-348 | putting the stop mark, once, keeps the invariant and leaves it at the end of the queue |
| `Mailbox.CancelKeepsBox` | nwep/runtime.py:359-368 | cancelling any future at any moment keeps the invariant |
| `Mailbox.RunHeadKeepsBox` | nwep/runtime.py:359-368 | the oldest callback always finds its future not yet settled, although the guard looks only at cancelled(); running it keeps the invariant |
| `Mailbox.TakeKeepsBox` | nwep/runtime.py:399-406 | what the owner takes is the oldest unanswered command, or the stop mark on an otherwise empty queue |
| `Mailbox.PostKeepsBox` | nwep/runtime.py:408-411 | handing the answer of the command in hand to the loop keeps the invariant |
| `Mailbox.QueueHead` | nwep/runtime.py:399-406 | the head of a queue that starts at token n is the command of token n; a stop mark at the head is alone |
| `Mailbox.PipelineIsOrdered` | nwep/runtime.py:312-315 | consumed callbacks, pending callbacks, the command in hand and the queue, read in that order, list every token exactly once and in order |
| `Mailbox.ConsumedMeansDone` | nwep/runtime.py:359-368 | a future is settled or cancelled once its callback ran, and never settled before |
| `ClientBridge.InvKept` | nwep/runtime.py:325-434 | every step of a task, the loop or the owner thread keeps the bridge invariant |
| `ClientBridge.InvRun` | nwep/runtime.py:325-434 | so does every interleaving of any length |
| `ClientBridgeTheorems.ExactlyOnce` | nwep/runtime.py:359-368 | in every reachable state each send is in exactly one of consumed, callback queue, owner hand, queue; no setter ever meets a done future |
| `ClientBridgeTheorems.CallbackMeetsUnsettledFuture` | nwep/runtime.py:359-368 | a callback that is due finds its future unsettled, in every reachable state |
| `ClientBridgeTheorems.OwnResponse` | nwep/runtime.py:407-411 | a settled future holds the outcome of the client.send made with its own request; only after a fault may it hold NetworkClosed instead |
| `ClientBridgeTheorems.ClientUsedOnlyWhileOpen` | nwep/runtime.py:398-415 | tick, send and close reach the C client only while it is open, so it is closed once |
| `ClientBridgeTheorems.StepRefines` | nwep/runtime.py:312-315 | each step is a step of a plain sequential client or changes nothing it can see |
| `ClientBridgeTheorems.RunRefines` | nwep/runtime.py:312-315 | from any invariant state every run maps to a run of the sequential client |
| `ClientBridgeTheorems.RefinesSequentialClient` | nwep/runtime.py:312-315 | every run of the bridge is a run of a loop that calls client.send once per submission, in order, and delivers in order |
| `ClientBridgeTheorems.FaultedIff` | nwep/runtime.py:402-404 | the owner leaves its loop by exception exactly when some idle tick raised |
| `ClientBridgeTheorems.LoopLeftIff` | nwep/runtime.py:399-411 | the owner leaves its loop exactly by taking the stop mark or by a raising idle tick; whatever else happens it goes on |
| `ClientBridgeTheorems.ClosedIff` | nwep/runtime.py:343-347 | the client refuses new sends exactly since the first aclose |
| `ClientBridgeTheorems.TickPerTimeout` | nwep/runtime.py:400-404 | every timeout of commands.get is followed by one tick |
| `ClientBridgeTheorems.StopIsLast` | nwep/runtime.py:343-350 | the stop mark is queued at most once and nothing is queued behind it |
| `ClientBridgeTheorems.StopExitServesAll` | nwep/runtime.py:405-415 | on a stop exit every accepted send has been executed and the drain finds nothing |
| `ClientBridgeTheorems.DrainAnswersAll` | nwep/runtime.py:423-434 | the step that ends the drain leaves every send so far answered, by its call or by NetworkClosed, with the client still open |
| `ClientBridgeTheorems.AnswersFrozen` | nwep/runtime.py:412-415 | past the drain nothing is answered any more, whatever happens |
| `ClientBridgeTheorems.UnsettledAfterDrain` | nwep/runtime.py:412-434 | once all callbacks ran, the uncancelled futures still unsettled are exactly those created after the drain |
| `ClientBridgeTheorems.DrainEndsWithAllAnswered` | nwep/runtime.py:423-434 | whatever step takes the owner past its drain, all futures existing then are answered |
| `ClientBridgeTheorems.AnsweredBeforeDrainEnds` | nwep/runtime.py:423-434 | a send accepted before the drain ends is answered by the time it has ended |
| `ClientBridgeTheorems.SendSettlesIff` | nwep/runtime.py:336-341 | an accepted send that is not cancelled is settled in the end if and only if the owner was not past its drain when it was accepted |
| `ClientBridgeTheorems.FaultedReachable` | nwep/runtime.py:402-404 | a raising idle tick leads to a finished owner on a client not marked closed |
| `ClientBridgeTheorems.StrandedSend` | nwep/runtime.py:402-415 | then send is still accepted, and no continuation of the run settles it |
| `ClientBridgeTheorems.MeasureStep` | nwep/runtime.py:398-415 | after aclose every owner step lowers the measure (phase, items left, sub-step) and no other step raises it |
| `ClientBridgeTheorems.OwnerTerminates` | nwep/runtime.py:343-350 | after aclose the owner takes boundedly many steps, whatever is interleaved, so the join returns whenever each send does |
| `ClientBridgeTheorems.OwnerNeverStuck` | nwep/runtime.py:398-415 | until it is finished the owner always has a next step, and after aclose the idle timeout is not among them |
| `ClientOwner.Bridge.Send` | nwep/runtime.py:336-341 | raises NetworkClosed and changes nothing when closed; else one fresh future and one command at the end of the queue |
| `ClientOwner.Bridge.AClose` | nwep/runtime.py:343-350 | the stop mark is put by the first call only |
| `ClientOwner.Bridge.RunOneCallback` | nwep/runtime.py:359-368 | _resolve and _reject, with the proof that set_result never meets a settled future |
| `ClientOwner.Bridge.Get` | nwep/runtime.py:400-406 | Empty exactly on an empty queue, otherwise the head |
| `ClientOwner.Bridge.GetNowait` | nwep/runtime.py:425-431 | the same without waiting, for the drain |
| `ClientOwner.Bridge.TickClient` | nwep/runtime.py:402-404 | the idle tick, on an open client, returning or raising as the library does |
| `ClientOwner.Bridge.SendOnClient` | nwep/runtime.py:407-410 | one client.send for the command in hand, on an open client, with the outcome the library gives |
| `ClientOwner.Bridge.CallSoon` | nwep/runtime.py:409-411 | the outcome goes to the callback queue for the future of its command |
| `ClientOwner.Bridge.DrainPending` | nwep/runtime.py:423-434 | when it ends, every future has its answer and the client is about to be closed |
| `ClientOwner.Bridge.ServeOnce` | nwep/runtime.py:399-411 | one pass; the loop is left exactly with the stop mark taken or a tick that raised, and goes on after a tick that returned or an answer handed over |
| `ClientOwner.Bridge.ServeCommand` | nwep/runtime.py:407-411 | a command is sent, and its result or exception handed over |
| `ClientOwner.Bridge.ServiceLoop` | nwep/runtime.py:398-411 | the loop is left only into the drain |
| `ClientOwner.Bridge.Owner` | nwep/runtime.py:398-415 | the whole owner thread is a run of the bridge; when done the client is closed, and after a stop exit every future had its own call |
| `Handoff.InvKept` | nwep/runtime.py:217-239 | every step of building, offering, cancelling, cleaning up and serving keeps the handoff invariant, for all three runtimes |
| `Handoff.OneSideWins` | nwep/runtime.py:392-397 | of set_result and cancel at most one wins; if cancel won no loop step runs; a finished owner has closed the primary handle exactly as often as it was opened, at most once, unless evaluating the result raised; after the loop the dht is closed before the server and a stream before its client |
| `Handoff.LoopStepsAre` | nwep/runtime.py:398-411 | the count of loop steps in that law is the number of steps the loop made |
| `Handoff.NothingLeftOpenIff` | nwep/runtime.py:217-259 | a finished owner has closed every client, server, dht and stream it opened, a stream at the latest with its connection, if and only if it is none of: dht attached with the loop never reached, or server.node_id raised while the result was evaluated |
| `Handoff.BootstrapFailureLeavesDht` | nwep/runtime.py:229-234 | such a run: bootstrap raises after attach, the server is closed and the dht is not |
| `Handoff.CancelLeavesDht` | nwep/runtime.py:235-239 | the other early exit with the dht attached: cancel wins, the server is closed and the dht is not |
| `Handoff.NodeIdFailureLeavesServer` | nwep/runtime.py:235-239 | a run in which server.node_id raises: the server is not closed and ready stays unset |
| `Handoff.NeverTold` | nwep/runtime.py:263-263 | after that the awaiter gets neither result nor exception over any continuation |
| `Handoff.OrphanNeverStopped` | nwep/runtime.py:261-264 | an owner that serves while its awaiter is cancelled serves on, until a library call raises |
| `Handoff.OfferOrphansIff` | nwep/runtime.py:393-397 | at the moment of a successful set_result the owner is an orphan if and only if a cancel was on its way to the future |
| `Handoff.HolderOrOrphan` | nwep/runtime.py:263-264 | a serving owner has a holder, is an orphan that nobody can stop, or its result waits: the delivery makes the awaiter the holder, a cancel before it makes an orphan |
| `Handoff.RaceDecides` | nwep/runtime.py:392-397 | after a cancel an unset future gets its result if and only if set_result comes before the cancel reaches it |
| `Handoff.CancelOrphansIff` | nwep/runtime.py:261-264 | whatever follows a cancel of the awaiter, there is an orphan if and only if the loop was already running, or set_result came before the cancel reached the future, and no call has raised out of the loop since |
| `Handoff.UndeliveredOrphan` | nwep/runtime.py:263-263 | the run with the cancel between set_result and the delivery |
| `Handoff.OrphanReachable` | nwep/runtime.py:417-420 | such a run |
| `ServerBridge.TimerStep` | nwep/runtime.py:246-251 | the announce timer of the loop follows the announce history of its clock readings |
| `ServerBridge.OpsStep` | nwep/runtime.py:240-259 | every owner step keeps the library calls in the shape: operations, then the closes |
| `ServerBridge.InvKept` | nwep/runtime.py:151-285 | every step of a task or of the owner keeps the server invariant |
| `ServerBridge.InvRun` | nwep/runtime.py:151-285 | so does every interleaving |
| `ServerBridge.PhaseStep` | nwep/runtime.py:83-95 | each call of a command keeps its calls on the schedule: look, start the lookup, then rounds of tick, tick, look, wait, all for its own target, stopping at the first hit or raise |
| `ServerBridge.PhaseAnswers` | nwep/runtime.py:85-96 | what a command may answer is what its calls owe |
| `ServerBridge.AnswersKept` | nwep/runtime.py:267-285 | every step keeps all answers given, and the command in hand, in line with the calls made |
| `ServerBridge.AnswersRun` | nwep/runtime.py:267-285 | so does every interleaving |
| `ServerBridgeTheorems.CommandsConserved` | nwep/runtime.py:162-183 | each resolve and metrics command is in one place only and gets at most one callback, never on a done future |
| `ServerBridgeTheorems.OwnAnswer` | nwep/runtime.py:267-285 | a settled future holds the answer that the calls made for its own query owe |
| `ServerBridgeTheorems.ResolveMeans` | nwep/runtime.py:83-96 | an address exactly when one of the lookups, all for the own target, found it; an exception exactly when some call raised; a timeout only after start_lookup returned; never a snapshot |
| `ServerBridgeTheorems.UnsettledAreQueued` | nwep/runtime.py:267-285 | after the owner has finished and callbacks ran, the uncancelled unsettled futures are exactly those whose commands are still queued |
| `ServerBridgeTheorems.NoAnswerAfterLeaving` | nwep/runtime.py:243-259 | the owner does not drain: once it leaves its loop nothing is answered |
| `ServerBridgeTheorems.SettledIffAnsweredBeforeLeaving` | nwep/runtime.py:243-259 | nothing is settled in the end beyond what had been answered when the loop was left |
| `ServerBridgeTheorems.ServiceEndsAnswered` | nwep/runtime.py:267-273 | serving commands ends only with every command so far answered |
| `ServerBridgeTheorems.AnsweredIff` | nwep/runtime.py:243-244 | an unanswered command is answered by the time the owner has finished if and only if the owner is serving commands or a later stop check finds stop unset |
| `ServerBridgeTheorems.CommandSettlesIff` | nwep/runtime.py:162-183 | a command accepted at any moment and not cancelled is settled in the end if and only if the owner was then serving commands, or a later stop check found stop unset |
| `ServerBridgeTheorems.StrandedResolve` | nwep/runtime.py:185-193 | a resolve called before shutdown that is never answered |
| `ServerBridgeTheorems.LoopLeftIff` | nwep/runtime.py:243-253 | the owner leaves its loop exactly at a stop check that finds stop set or by a raise of the loop's own ticks and announces, not of a command |
| `ServerBridgeTheorems.StopIff` | nwep/runtime.py:185-191 | stop is set exactly by shutdown |
| `ServerBridgeTheorems.RoundInOrder` | nwep/runtime.py:243-253 | check, serve, tick the server, tick the dht if there is one, announce if due, wait: no round skips or repeats one of them |
| `ServerBridgeTheorems.TimerSeesAll` | nwep/runtime.py:246-251 | the timer sees every reading of a dht tick that returned |
| `ServerBridgeTheorems.TimerCountsAnnounces` | nwep/runtime.py:249-251 | what the timer counts as announced are the announces made |
| `ServerBridgeTheorems.AnnouncesExactly` | nwep/runtime.py:246-251 | the loop announces exactly at the readings the timer's rule picks, and only with announce_as set |
| `ServerBridgeTheorems.MeasureStep` | nwep/runtime.py:243-259 | once stop is set each owner step outside a resolve lowers the measure, and an arriving command raises it by at most three |
| `ServerBridgeTheorems.OwnerTerminates` | nwep/runtime.py:185-193 | once stop is set the owner takes boundedly many more steps outside its resolves, three more per command that still arrives |
| `ServerBridgeTheorems.OwnerNeverStuck` | nwep/runtime.py:243-259 | until it is finished the owner always has a next step; within a command it is the answer or a call that brings the answer or the deadline check nearer |
| `ServerBridgeTheorems.CallsAdvance` | nwep/runtime.py:83-95 | whatever a call of a command comes to, the answer or the deadline check is nearer |
| `ServerBridgeTheorems.RightOpsInOrder` | nwep/runtime.py:254-259 | library calls of that shape are in borrow order |
| `ServerBridgeTheorems.ClosedInBorrowOrder` | nwep/runtime.py:254-259 | on every exit from the loop the dht is closed before the server, each once, and no call follows its handle's close |
| `ServerBridgeTheorems.AnnouncesSpaced` | nwep/runtime.py:246-251 | announces of any run are at least 60 s apart, so at most t/60 + 1 fall in t seconds, even if the clock steps back |
| `ServerBridgeTheorems.AnnouncesInTime` | nwep/runtime.py:240-251 | with a steady clock and passes at most 1740 s apart, successive announces are within the republish interval |
| `Announce.AtLeastAMinuteApart` | nwep/runtime.py:249-251 | for every sequence of clock readings successive announces are at least 60 s apart |
| `Announce.AnnouncesInAWindow` | nwep/runtime.py:249-251 | at most t/60 + 1 announces in a window of t seconds |
| `Announce.FreshAtEachReading` | nwep/runtime.py:249-251 | after each reading the last announce is less than 60 s old |
| `Announce.NeverFarApart` | nwep/runtime.py:249-251 | with a monotone clock read at least every d seconds, successive announces are less than 60 + d apart |
| `Announce.WithinRepublishInterval` | nwep/dht.py:33-34 | so within 1800 s when d is at most 1740 |
| `ServerOwner.Cap` | nwep/runtime.py:437-441 | no wait is longer than 0.1 s, and without a timeout or with a longer one it is exactly that; shorter timeouts are kept |
| `ServerOwner.InHandLikeQueued` | nwep/runtime.py:87-95 | a resolve in hand costs no more than one still queued |
| `ServerOwner.ServerThread.Ask` | nwep/runtime.py:162-169 | ConfigMissing without a dht; else one future and one command |
| `ServerOwner.ServerThread.RunOneCallback` | nwep/runtime.py:359-368 | the setters on the server side |
| `ServerOwner.ServerThread.ShutDown` | nwep/runtime.py:185-193 | sets stop |
| `ServerOwner.ServerThread.WaitReadable` | nwep/runtime.py:99-109 | time moves, by at most the cap |
| `ServerOwner.ServerThread.LookupResult` | nwep/runtime.py:83-92 | one lookup for the own target, with what the library said |
| `ServerOwner.ServerThread.StartLookup` | nwep/runtime.py:86-86 | start_lookup for the own target, returning or raising as the library does |
| `ServerOwner.ServerThread.TickServerForLookup` | nwep/runtime.py:89-89 | one tick of the server |
| `ServerOwner.ServerThread.TickDhtForLookup` | nwep/runtime.py:91-91 | one tick of the dht |
| `ServerOwner.ServerThread.WaitForLookup` | nwep/runtime.py:95-95 | fileno, next_timeout and one capped wait |
| `ServerOwner.ServerThread.PumpOnce` | nwep/runtime.py:88-95 | one turn of the pumping loop, from its start or from within: over at the first hit or raise, in no time, else after at most one capped wait |
| `ServerOwner.ServerThread.PumpUntil` | nwep/runtime.py:88-96 | from any place in it, the pumping loop ends by its deadline plus one cap with what its calls owe, and with IdentityNotFound only past the deadline |
| `ServerOwner.ServerThread.ResolveBlocking` | nwep/runtime.py:72-96 | from any place in it, ends in the time left to it with the answer its calls owe; IdentityNotFound only past the deadline |
| `ServerOwner.ServerThread.MetricsOfDht` | nwep/runtime.py:280-285 | a snapshot of what the library counted exactly if it returned, else its exception |
| `ServerOwner.ServerThread.CarryOut` | nwep/runtime.py:274-285 | a command comes to the answer its calls owe, within its time |
| `ServerOwner.ServerThread.HandleCommand` | nwep/runtime.py:274-285 | one command gives exactly one answer, the one its calls owe, posted as the next in order under its own token, in its time |
| `ServerOwner.ServerThread.ServiceOne` | nwep/runtime.py:269-285 | the queue is empty, or a command is carried out within its time; with no arrivals it is the oldest one queued |
| `ServerOwner.ServerThread.ServiceCommands` | nwep/runtime.py:267-285 | serves until the queue is seen empty, within the timeouts of the resolves served plus one cap each; with no arrivals these are the commands queued |
| `ServerOwner.ServerThread.StopIsSet` | nwep/runtime.py:243-243 | the loop is left exactly when stop is set |
| `ServerOwner.ServerThread.TickTheServer` | nwep/runtime.py:245-245 | a raise leads to the closes |
| `ServerOwner.ServerThread.TickTheDht` | nwep/runtime.py:246-249 | an announce is due only with announce_as set and 60 s after the last |
| `ServerOwner.ServerThread.AnnounceNow` | nwep/runtime.py:249-251 | last_announce moves only if announce returned |
| `ServerOwner.ServerThread.WaitForServer` | nwep/runtime.py:252-253 | one capped wait |
| `ServerOwner.ServerThread.TickBoth` | nwep/runtime.py:245-251 | the server's tick, the dht's and perhaps an announce, in that order and up to one that raises, which leads to the closes |
| `ServerOwner.ServerThread.TickTheDhtAndAnnounce` | nwep/runtime.py:246-251 | the dht's tick, then an announce if one is due; a raise leads to the closes |
| `ServerOwner.ServerThread.OnePass` | nwep/runtime.py:243-253 | a pass ends within the timeouts of its resolves plus one cap each and one more; with no arrivals these are the resolves queued at its start; stop stays set |
| `ServerOwner.ServerThread.PassThenCheck` | nwep/runtime.py:243-253 | with k resolves queued and no arrivals, a stop set before or during the pass leads to the closes within their timeouts plus k + 1 caps |
| `ServerOwner.ServerThread.FinishTicks` | nwep/runtime.py:245-253 | what is left of a pass after its commands ends within one cap |
| `ServerOwner.ServerThread.NoticeStop` | nwep/runtime.py:243-253 | from any place in the loop and with no more arrivals, a stop is noticed within what is left of the resolve in hand, the timeouts of those queued at that moment, one cap each, and one more |
| `ServerOwner.ServerThread.ServeLoop` | nwep/runtime.py:243-253 | is left only towards the closes, and at once if stop is already set |
| `ServerOwner.ServerThread.Finally` | nwep/runtime.py:254-259 | closes the dht, then the server |
| `ServerOwner.ServerThread.Owner` | nwep/runtime.py:240-259 | the whole thread is a run of the model; it finishes only after stop or a raise |
| `Pump.SendAll` | examples/managed_stream.py:62-67 | never goes past the body and never loses ground |
| `Pump.TrackedMeans` | nwep/server.py:661-685 | a stream that saw only permitted calls took exactly a contiguous piece of the body, and was ended at most once, with the whole of it taken |
| `Pump.SendAllTracked` | examples/managed_stream.py:62-67 | the inner loop makes only permitted calls on its stream |
| `Pump.SendAllElsewhere` | examples/managed_stream.py:62-67 | and none on any other |
| `Pump.DrainTracked` | examples/managed_stream.py:60-71 | one stream of a pass is kept with its mark or ended with the whole body taken |
| `Pump.PassTracked` | examples/managed_stream.py:59-72 | a pass leaves each stream untouched, advanced and kept, or ended |
| `Pump.StillIsSound` | examples/managed_stream.py:59-72 | streams kept stay distinct and within the body |
| `PumpRuns.OpenKeepsInv` | examples/managed_stream.py:34-41 | a handler opening a stream keeps the bookkeeping exact |
| `PumpRuns.PassKeepsInv` | examples/managed_stream.py:55-72 | a pass keeps the bookkeeping exact for all streams at once |
| `PumpRuns.PumpSafe` | examples/managed_stream.py:52-73 | over any run, on every stream: bytes taken are BODY[:sent], stream_end at most once and only at the end, nothing after it, also when a call raised |
| `PumpRuns.OpenedActiveOrEnded` | examples/managed_stream.py:52-73 | every stream opened is in exactly one of the handler's list, the active list, or ended after its whole body |
| `PumpRuns.LeftOnlyWhenBlocked` | examples/managed_stream.py:62-69 | a stream is left for later only if the last send on it took nothing |
| `PumpProgress.PassMoves` | examples/managed_stream.py:59-72 | a stream kept by a pass has moved, unless the pass took nothing of it |
| `PumpProgress.EndedStays` | examples/managed_stream.py:68-72 | an ended stream is never pumped again |
| `PumpProgress.MovesOrRefused` | examples/managed_stream.py:52-73 | over a run, a stream still pumped has moved at least once per pass that did not refuse it |
| `PumpProgress.DrainedUnlessRefused` | examples/managed_stream.py:52-73 | after at least one pass, and as many as the stream has bytes left besides those that took nothing of it while it was still pumped, it has been given its whole body and ended once, whatever else is opened and pumped |
| `PumpFaults.PassCutShort` | examples/managed_stream.py:60-71 | a pass ends with the first call that raises |
| `PumpFaults.DeadIff` | examples/managed_stream.py:60-71 | the pump dies exactly with a call that raised, which is its last |
| `PumpFaults.ShareOfPass` | examples/nwcurl.py:55-64 | in a pass that fails, streams before the failing one have had their share and those behind it nothing |
| `PumpFaults.FaultStrandsTheRest` | examples/managed_stream.py:52-73 | which stream the last call was on, what every stream of the pass has then been given, and that nothing follows |
| `PumpFaults.OneRaiseStrandsBoth` | examples/managed_stream.py:60-71 | a run in which one raising send leaves a second stream with nothing for ever |
| `PumpLoops.StaysOnCourse` | examples/managed_stream.py:62-67 | each turn of the inner loop makes the next promised call |
| `PumpLoops.PassStaysOnCourse` | examples/managed_stream.py:60-71 | each stream of the outer loop too |
| `PumpLoops.Reactor.StreamSend` | nwep/server.py:661-675 | takes a prefix of what it is offered, possibly none, or raises |
| `PumpLoops.Reactor.StreamEnd` | nwep/server.py:677-685 | ends the stream or raises |
| `PumpLoops.Reactor.Open` | examples/managed_stream.py:34-37 | the handler notes the stream |
| `PumpLoops.Reactor.Admit` | examples/managed_stream.py:55-58 | all opened streams move to the active list in order, with nothing sent |
| `PumpLoops.Reactor.SendEntry` | examples/managed_stream.py:62-67 | the entry advances in place by what was taken; blocked says the body is not through |
| `PumpLoops.Reactor.PumpEntry` | examples/managed_stream.py:60-71 | kept or ended by the blocked flag |
| `PumpLoops.Reactor.ManagedPass` | examples/managed_stream.py:55-72 | the pass with the blocked flag makes exactly the specified calls |
| `PumpLoops.Reactor.SendFrom` | examples/nwcurl.py:56-60 | the inner loop over a local count |
| `PumpLoops.Reactor.CurlEntry` | examples/nwcurl.py:55-64 | one stream of the second form |
| `PumpLoops.Reactor.CurlPass` | examples/nwcurl.py:50-65 | the second form makes exactly the same calls |
| `StreamPipeline.KeptAllIffNoneLost` | nwep/runtime.py:486-503 | what reached the consumer is everything taken from the queue if and only if no cancelled recv swallowed a chunk |
| `StreamPipeline.ServerKeepsInv` | examples/managed_stream.py:63-71 | server calls keep the pipeline invariant |
| `StreamPipeline.TransportKeepsInv` | nwep/runtime.py:450-459 | so do delivery and tampering |
| `StreamPipeline.ReadKeepsInv` | nwep/runtime.py:558-558 | so does the owner's recv |
| `StreamPipeline.PutKeepsInv` | nwep/runtime.py:559-571 | so does putting an item |
| `StreamPipeline.TaskKeepsInv` | nwep/runtime.py:486-509 | so does everything the awaiting task does |
| `StreamPipeline.InvKept` | nwep/runtime.py:450-574 | every step keeps it |
| `StreamPipeline.InvRun` | nwep/runtime.py:450-574 | every interleaving keeps it |
| `StreamTheorems.VerifiedEndIsWholeBody` | nwep/runtime.py:486-503 | if recv returned None the consumer holds exactly the body, if and only if no chunk was swallowed by a cancelled recv, even on a tampering network |
| `StreamTheorems.AlwaysAPrefix` | nwep/runtime.py:486-503 | on an untampered network, with no chunk swallowed, the consumer holds a prefix of the body at every moment |
| `StreamTheorems.UncancelledConsumer` | examples/managed_stream.py:98-111 | for a consumer that cancels no recv whose executor thread has started, None means the whole body, and on an untampered network it holds a prefix before |
| `StreamTheorems.CancelledRecvLosesChunk` | nwep/runtime.py:497-498 | a run in which a cancelled recv loses the only chunk and the next recv still reports the end |
| `StreamTheorems.ItemLanguage` | nwep/runtime.py:555-574 | non-empty chunks, at most one terminal and last, the end mark only behind the whole body; leaving without a terminal means stop was set |
| `StreamTheorems.TerminalMeans` | nwep/runtime.py:555-571 | the terminal item is END for a verify that passed, the trailer's error for one that raised, the network's error for a raising recv or peer key; and the owner leaves its loop exactly for one of these or a stop check that found stop set |
| `StreamTheorems.StopIff` | nwep/runtime.py:505-507 | stop is set exactly by aclose |
| `StreamTheorems.NothingAfterTerminal` | nwep/runtime.py:497-503 | when the owner is leaving and all is taken, a further recv waits for ever |
| `StreamTheorems.StreamClosedBeforeClient` | nwep/runtime.py:572-574 | stream before connection, each once, and no recv or verify on a closed one |
| `StreamTheorems.FedIsTracked` | examples/managed_stream.py:59-72 | the server calls inside any pipeline run are a permitted history of one pumped stream |
| `StreamTheorems.OwnCallsTrack` | examples/managed_stream.py:59-72 | whether a stream saw only permitted calls can be read off its own calls |
| `StreamTheorems.TrackedCanFeed` | examples/managed_stream.py:59-72 | interleaved in any way that the transport has room for, a permitted history of one stream is a run of the pipeline |
| `StreamTheorems.PumpFeedsPipeline` | examples/managed_stream.py:52-73 | for every capacity and interleaving, a stream of any multi-stream pump run drives the pipeline: None only over the whole body, a prefix before, with the same limits as above |
| `StreamProgress.UsefulStep` | nwep/runtime.py:555-574 | every useful step lowers what is left to do |
| `StreamProgress.UsefulRunsEnd` | nwep/runtime.py:555-574 | no schedule of useful steps is longer than what was left |
| `StreamProgress.ReceivingCanMove` | examples/managed_stream.py:62-71 | an owner blocked in recv is always fed by somebody |
| `StreamProgress.VerifyWillSucceed` | nwep/runtime.py:563-564 | the trailer of an honest transfer verifies |
| `StreamProgress.AllTakenMeansEnd` | nwep/runtime.py:568-569 | when all items of an honest transfer are taken, and no abandoned thread swallowed the end, recv has returned None |
| `StreamProgress.NeverStuck` | nwep/runtime.py:555-574 | until recv returned None a useful step is possible |
| `StreamProgress.Completes` | examples/managed_stream.py:98-111 | any run in which nothing kept the end from coming can be carried on until recv returns None, over the whole body if and only if no chunk had been swallowed |
| `StreamProgress.StopStep` | nwep/runtime.py:557-574 | once stop is set each owner step lowers a rank, and no receive is begun |
| `StreamProgress.OwnerTerminates` | nwep/runtime.py:505-509 | after aclose at most the receive about to be made occurs, and boundedly many steps in all, however long the body goes on |
| `StreamProgress.CheckLeavesIff` | nwep/runtime.py:557-557 | a stop check leaves exactly when stop is set, and otherwise receives |
| `StreamProgress.OwnerNeverStuck` | nwep/runtime.py:555-574 | until it is finished the owner always has a step of its own |
| `StreamProgress.LossStep` | nwep/runtime.py:486-503 | useful steps lose no chunk, and a lost one stays lost |
| `StreamProgress.ChunkArrives` | nwep/runtime.py:555-560 | while bytes are outstanding some continuation queues the next chunk |
| `StreamProgress.AbandonedCanLose` | nwep/runtime.py:497-498 | from any such state with a thread left behind by a cancelled recv and bytes outstanding, some continuation returns None over an incomplete body |
| `StreamOwner.StreamBridge.StartRecv` | nwep/runtime.py:497-498 | the consumer starts to wait for an item |
| `StreamOwner.StreamBridge.FinishRecv` | nwep/runtime.py:498-503 | a chunk is returned, the end gives None and the whole body, an exception is raised |
| `StreamOwner.StreamBridge.AClose` | nwep/runtime.py:505-509 | sets stop |
| `StreamOwner.StreamBridge.PeerKey` | nwep/runtime.py:556-556 | peer_pubkey; if it raises, its error is the terminal to be put |
| `StreamOwner.StreamBridge.StopIsSet` | nwep/runtime.py:557-557 | leaves exactly when stop is set, else receives |
| `StreamOwner.StreamBridge.StreamRecv` | nwep/runtime.py:558-558 | on open handles, the bytes that arrived up to the chunk size, ended exactly when the library says so; or a raise |
| `StreamOwner.StreamBridge.PutChunk` | nwep/runtime.py:559-560 | an empty chunk is not queued |
| `StreamOwner.StreamBridge.StreamVerify` | nwep/runtime.py:563-564 | passes exactly when the library does, which is over the whole body only |
| `StreamOwner.StreamBridge.PutTerminal` | nwep/runtime.py:565-571 | one terminal item |
| `StreamOwner.StreamBridge.CloseStream` | nwep/runtime.py:572-573 | while both handles are open |
| `StreamOwner.StreamBridge.CloseClient` | nwep/runtime.py:574-574 | after the stream |
| `StreamOwner.StreamBridge.RecvOnce` | nwep/runtime.py:558-569 | one turn of the loop |
| `StreamOwner.StreamBridge.VerifyAndEnd` | nwep/runtime.py:561-569 | the end mark, or the error verify raised |
| `StreamOwner.StreamBridge.RecvLoop` | nwep/runtime.py:557-571 | is left exactly at a stop check that found stop set or with a terminal put |
| `StreamOwner.StreamBridge.Finally` | nwep/runtime.py:572-574 | closes both, stream first |
| `StreamOwner.StreamBridge.Owner` | nwep/runtime.py:555-574 | the whole thread is a run of the pipeline; it ends with a terminal queued or stop set, and both handles closed |
| `StreamReceivers.Awaiter.Recv` | nwep/runtime.py:486-503 | waits for the next item and returns exactly what that item means |
| `StreamReceivers.Awaiter.ReceiveBody` | examples/managed_stream.py:98-111 | the receive loop assembles a prefix of the body, the whole body when left by None, and counts its chunks |
| `StreamReceivers.Fill` | nwep/client.py:736-744 | the chunk is the front of a buffer of the asked size |
| `StreamReceivers.DrivenStream.Recv` | nwep/client.py:728-745 | the next bytes that arrived, as many as fit; ended exactly when the library says so, with everything handed out |
| `StreamReceivers.DrivenStream.Verify` | nwep/client.py:747-760 | passes exactly when the library does, and then the bytes handed out are the body |
| `StreamReceivers.DrivenStream.ReceiveBody` | examples/nwcurl.py:83-96 | the driven loop goes on until the end, a raise or the end of what is observed; verified exactly when verify passes, and then it is the whole body, and before that a prefix |
| `StreamReceivers.HandedOutIsPrefix` | nwep/client.py:728-745 | on an untampered network the bytes handed out are a prefix of the body |
| `StreamReceivers.RecvKeepsInv` | nwep/client.py:728-745 | handing out the front of what arrived keeps the transport a pipe |
| `ClientHandles.Client.Close` | nwep/client.py:421-438 | closes the C handle the first time only |
| `ClientHandles.Stream.Close` | nwep/client.py:762-766 | reaches C only if neither it nor its client is closed, and always marks itself closed |
| `ClientHandles.Connecting.Poll` | nwep/client.py:467-487 | hands the handle to a new open Client, waits, or reports a failure after which C has closed it; raises when completed |
| `ClientHandles.Connecting.Close` | nwep/client.py:489-506 | closes the handle only if it never completed |
| `ClientHandles.Session.Apply` | nwep/client.py:467-505 | any poll, close, finalizer or stream use keeps: one owner of the handle, closed exactly when that owner released it |
| `ClientHandles.Session.Live` | nwep/client.py:421-505 | over any sequence of them the connection is closed exactly once or never, counting the close C does; each stream at most once; no stream_close after the connection |
| `Responder.FirstClaim` | nwep/server.py:529-534 | the first call that claims the responder |
| `Responder.OnceClaimed` | nwep/server.py:529-534 | after the claim only accepted dispatches reach the buffer, and no reply is given |
| `Responder.FirstClaimDecides` | nwep/server.py:252-534 | for every sequence of calls the first claiming one decides reply, writer and everything else |
| `Responder.OneReplyOneEncoder` | nwep/server.py:252-258 | at most one reply and at most one terminal encoder |
| `Responder.SecondClaimRaises` | nwep/server.py:252-258 | behind the first claim every terminal, defer and accepted dispatch raises; the first gives its reply, or raises only if its own encoding failed |
| `Responder.OtherCallsMean` | nwep/server.py:269-280 | what header, partial without a range, capture and a dispatch not accepted come to, before and behind the claim |
| `Responder.ResultMeans` | nwep/server.py:810-825 | -801 exactly when no reply is returned; for a reply of this responder 0 means the first claim encoded or was an accepted dispatch, 1 that it deferred |
| `Responder.ClaimFits` | nwep/server.py:529-534 | which first claims, with how many dispatches accepted after them, leave what a result announces |
| `Responder.HonestMatches` | nwep/log.py:430-433 | for a reply of this responder that is: no dispatch accepted after the claim |
| `Responder.ConsistentIff` | nwep/log.py:423-436 | for every handler the result fits the buffer exactly when its calls make it fit; for a reply it got, exactly when no dispatch was accepted on a claimed responder |
| `Responder.AtMostOneWrite` | nwep/trust/anchor.py:138-153 | under that condition there is never more than one write |
| `Responder.AnsweredThenRouted` | nwep/log.py:430-433 | a handler that answers and then dispatches returns 0 over a buffer written twice |
| `Responder.Responder.Claim` | nwep/server.py:529-534 | succeeds exactly once |
| `Responder.Responder.AddHeader` | nwep/server.py:269-280 | never claims, and raises exactly if C refuses the header |
| `Responder.Responder.Terminal` | nwep/server.py:282-301 | raises on a claimed responder; else claims and encodes, and gives its reply exactly if that succeeds |
| `Responder.Responder.Partial` | nwep/server.py:388-419 | no range raises before the claim |
| `Responder.Responder.DeferIt` | nwep/server.py:487-497 | raises on a claimed responder; else claims, gives the deferred reply and writes nothing |
| `Responder.Responder.CaptureFrame` | nwep/server.py:463-485 | raises on an unclaimed responder, and changes nothing |
| `Responder.Responder.Route` | nwep/log.py:408-436 | an accepted dispatch writes, then claims; a declined one touches nothing |
| `Responder.Responder.TryRouters` | nwep/trust/anchor.py:118-153 | on a fresh responder the first sub-router that accepts is the only writer, declining ones leave it untouched |
| `Responder.Trampoline` | nwep/server.py:809-825 | runs the handler and returns 0, 1 or -801; fits the buffer for 0 and 1 exactly under that condition |
| `Proxy.StepKeepsOrder` | examples/nwproxy.py:51-84 | answered, lost, in-service and parked requests, in that order, are the arrivals |
| `Proxy.RunKeeps` | examples/nwproxy.py:51-84 | over every interleaving of arrivals and drains |
| `Proxy.RelayedInArrivalOrder` | examples/nwproxy.py:65-84 | each answered request was answered once, in arrival order; the others are all accounted for; every response came from the origin |
| `Proxy.RunsUntilFault` | examples/_common.py:45-50 | the proxy goes on serving if and only if no job and no tick has met an exception and it was not stopped |
| `Proxy.FaultLosesTheRest` | examples/_common.py:45-50 | an exception in a job or a tick, or a stop, costs exactly the job that raised, unless only its store did, the jobs behind it and everything parked; nothing happens after it |
| `Proxy.OneAnsweredOneLost` | examples/nwproxy.py:78-83 | two requests parked and a refused store: one answered, one lost |
| `Proxy.ConstantAnswers` | examples/nwproxy.py:65-84 | against a constant origin every relayed response is its answer, through faults and evictions |
| `Proxy.MissStores` | examples/nwproxy.py:77-82 | a miss in which nothing raised relays the origin's response and leaves it in the cache |
| `Proxy.HistoryStays` | examples/nwproxy.py:65-84 | what was stored, fetched or relayed stays so over any run |
| `Proxy.HitSparesOrigin` | examples/nwproxy.py:70-76 | a lookup that offers something stored is answered with it, without the origin |
| `Proxy.FetchedOnceServedAgain` | examples/nwproxy.py:65-84 | over whole runs, what was fetched once is served again to any later job whose lookup offers it, whatever has become of the origin |
| `Proxy.MissNeedsOrigin` | examples/nwproxy.py:77-79 | a miss with the origin gone answers nothing and ends the proxy |
| `Proxy.Transparent` | examples/nwproxy.py:65-84 | against a constant origin a run in which no call raised relays what the proxy without a cache and without faults relays |
| `Proxy.UncacheableOriginIsServedOnce` | nwep/cache.py:66-95 | if put_signed raises each time at most one request is relayed; if nothing else raises or stops the proxy, exactly one as soon as a job is served, and then it is gone |
| `Proxy.DrainAnswersTheSnapshot` | examples/nwproxy.py:65-84 | a drain finishes its snapshot, and if the proxy still runs it has answered all of it in order |
| `Proxy.ProxyServer.ProxyHandler` | examples/nwproxy.py:51-54 | parks and defers |
| `Proxy.ProxyServer.GetSigned` | nwep/cache.py:96-130 | a hit is a response the origin sent and the cache stored; what is not stored is a miss |
| `Proxy.ProxyServer.ServeJob` | examples/nwproxy.py:69-84 | hit: relay without the origin; miss: fetch, relay, store; any exception ends the proxy with the rest unanswered |
| `Proxy.ProxyServer.ServeParked` | examples/nwproxy.py:65-84 | takes the whole queue and serves it in order |
| `Proxy.ProxyServer.TickServer` | examples/_common.py:47-47 | all arrivals of a tick are parked, and a raising tick ends the thread |
| `Proxy.ProxyServer.DriveOnce` | examples/_common.py:46-49 | a round the thread survives answers what arrived in it |
| `Proxy.ProxyServer.Loop` | examples/_common.py:45-50 | as long as the thread runs, the requests of all rounds so far have been answered once, in order |
| `Headers.Text` | nwep/message.py:56-57 | a C string is read up to its first NUL |
| `Headers.CutKeepsIff` | nwep/message.py:34-35 | a text survives if and only if it has no NUL |
| `Headers.CutAllKeepsIff` | nwep/message.py:21-40 | a header list survives if and only if all of it is NUL-free |
| `Headers.WalkFinds` | nwep/message.py:31-40 | walking the array to the sentinel finds the pairs in order, cut at NULs |
| `Headers.EncodeHeaders` | nwep/message.py:21-40 | null array for no headers; else C finds the input, the only null name is the sentinel, and the keepalive list owns every pointer |
| `Headers.Message.HeaderAt` | nwep/message.py:54-54 | 0 exactly for an existing index |
| `Headers.Message.Scan` | nwep/message.py:49-59 | reads every header once, in order |
| `Headers.CutTwice` | nwep/message.py:49-59 | what came through C once is NUL-free |
| `Headers.RoundTrip` | nwep/message.py:21-59 | encode, walk, scan gives back the list, exactly if it is NUL-free |
| `Headers.NulHidesTheRest` | nwep/message.py:34-35 | two names C cannot tell apart |

## Left out

- Cryptography, the merkle log, checkpoints, URI and range parsing, DHT routing and QUIC: their code is behind the C interface and not in the repository.
- Library loading (`nwep/_sys.py`), the error and wire tables, length guards, accessors, metrics snapshots and `repr`: finite or one-line members.
- Several event loops sharing one `AsyncClient`, and closed event loops.
- An `AsyncStream` awaited by several tasks at once: one task awaits `recv`, besides the threads its cancelled calls leave behind.
- `nwep/client.py` does not check that a handle is open before `tick`, `send` or `open_stream`; what C does with a closed one is not modelled, and `Session` lets such a stream be opened.
- `poll_request`, `submit`, `poll_notify` and the ownership of `Response`: the in-flight table behind them is C's, and the wrappers are three-way branches.
- The text of strings: a `str` stands for its UTF-8 bytes, so an encoding error is not modelled. A mapping of headers stands for its items in order.
- Exceptions that are not `Exception`, which the trampoline does not catch.
- The Python finalizer's timing: in `ClientHandles` a finalizer is one more close at an arbitrary moment; in `Handoff` only what the owner's own code closes counts as closed.
- Socket errors inside `select`, which the source swallows.
- The proxy reads `/page` from its origin whatever path was asked for; a parked request is a connection and a stream here as there, without its path.
- ServerOwner.ServerThread.ResolveBlocking: the time a tick or a lookup itself takes is not counted, because the library promises nothing about it.
- ServerOwner.ServerThread.WaitReadable: a wait with a zero timeout takes one microsecond, because a clock that stands still would never reach a deadline.
- StreamTheorems.AlwaysAPrefix: on a tampering network there is no prefix property before the end, because only the trailer is signed.
- Proxy.Transparent: a run in which a call raised relays a prefix of what it compares with, which `ConstantAnswers` covers, because an exception ends the proxy.
