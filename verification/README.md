# Verified model of the swarm inference coordinator and node agent

A Dafny model of the parts of this repository where a property only follows from several functions together, and
proofs of those properties. `dafny verify dfyconfig.toml` verifies the whole project.

What is modelled, by file:

- `PoolProtocol.dfy`, `PoolInvariant.dfy`, `PoolSteps.dfy`, `PoolTheorems.dfy`: the warm-pipeline pool. The request path
  and the background tick mutate one tracker and hold launcher reservations across network calls. A stretch of code
  between two awaits is one step or, inside a tick, several; letting other steps in between these only adds runs, so
  theorems about all runs hold of the program, and the exhibited runs are `Atomic`: they leave every stretch whole;
  they are also `PlausibleRun`s, whose selections are such as the registry and the selector can yield.
  Launchers are machines with a queue of commands and at most one agent.
- `PoolMachines.dfy`: which steps send commands to a launcher, and what starts and takes away its agent over a run.
- `PoolHistory.dfy`, `PoolHealth.dfy`, `PoolDecisions.dfy`: what an entry goes back to, what the health check tears down
  and keeps over a run, and when a pipeline is assembled at all.
- `PoolCeiling.dfy`, `PoolAgents.dfy`, `PoolRotation.dfy`: what the pool does not keep, and exactly why.
- `PoolCoordinator.dfy`, `Launcher.dfy`: the same protocol in the program's own form. The tracker, the coordinator and
  the launcher are classes whose methods update their fields; each method's contract names the protocol step it makes.
- `AllocationPlanner.dfy`, `Catalog.dfy`, `Launchers.dfy`: the planner of one tick and what it reads.
- `Speculative.dfy`: greedy streaming and speculative decoding over arbitrary deterministic models.
- `WindowsArgs.dfy`: argv quoting against the rules by which the child splits its command line.
- `JsonText.dfy`, `JsonTree.dfy`, `JsonSpelling.dfy`: the hand-written JSON scanner and readers against printed JSON
  trees with arbitrary whitespace, and against every legal spelling of a string (sections 4 and 7 of RFC 8259).
- `SseWire.dfy`, `SseRoundTrip.dfy`, `HttpReader.dfy`, `ResponseWriter.dfy`: the Server-Sent Events writer, its four
  flags and the dispatch around it, against the incremental reader (section 9.2 of the WHATWG HTML standard) and a
  reader of HTTP responses (sections 2 to 6 of RFC 9112).
- `SafetyTerms.dfy`: the term compiler against a reader of ECMA-262 patterns (section 22.2).
- `PipelineSelector.dfy`: ranking and selection.
- `DemandTracker.dfy`, `Expiry.dfy`, `NodeRegistry.dfy`, `LauncherRegistry.dfy`, `PrewarmedDrivers.dfy`: indexes that
  prune lazily, against histories and maps that never do.
- `NodeHistory.dfy`, `LauncherHistory.dfy`: the registries' answers against the signs of life in a run.

How to read it. A method is the program's code; its contract equates its result or the new state with a function on
values (`ColdBegin`, `Greedy`, `Scan`, `Escape`, `Quote`, `Outcome`, `Apply`, ...), and the lemmas state what the
program promises about that function. Time, random numbers, fresh ids, the answers of registries during a step,
socket behaviour and process creation are parameters or nondeterministic choices.

Where the code does less than its comments or callers might suggest, the exact condition is proved, and where that
takes a whole run, a concrete one is exhibited:

- A stream reads back as its pieces, and every break in it is noticed, if and only if no piece normalises to the
  sentinel `[DONE]` (`SseRoundTrip.RoundTrip`, `SseRoundTrip.StreamOutcome`).
- A JSON string reads back as what its spelling means if and only if it escapes no slash and uses `\u` below 0x80 only
  (`JsonSpelling.ReadAsMeantIff`).
- An argv survives the trip through a C string if and only if it holds no NUL (`WindowsArgs.RoundTripThroughCString`).
- A pooled, trusted driver is never judged inactive if and only if every tick comes within the timeout of its last sign
  of life (`PrewarmedDrivers.SurvivesIffInTime`); one late tick condemns it although it pings it first
  (`PrewarmedDrivers.OneLateTick`).
- A settled entry that stays well is torn down by no tick, but a use does not save one that is being torn down already
  (`PoolHealth.HealthyIsKept`).
- A pool can exceed its ceiling (`PoolCeiling.CeilingCanBeExceeded`). In every run it stays within it, plus one while a
  replacement is in flight, if and only if each claim that the tick commits finds room in the pool at that moment, which
  is what the tick does not check (`PoolTheorems.CeilingIsKeptIff`).
- A warm entry's agent can be absent even though nothing failed (`PoolRotation.WarmWithoutAgent`): when a launcher comes
  back under a new id, the cold start that replaces its stale entry stops the agent it has just started. That stop hits
  its own machine if and only if the ids differ and the lookup of the old id, or failing that the recorded endpoint,
  resolves to it (`PoolMachines.OwnAgentIsStoppedIff`). Over every run, the agent behind a settled entry is absent if
  and only if something took it since the entry's own 200 and nothing started another one
  (`PoolAgents.AgentIsAbsentIff`).

Wrong-weights safety and the condition for an absent agent rest on two assumptions: a launcher handles the commands it
receives in the order they were sent, possibly after the coordinator gave up waiting, and a restarted launcher leaves no
agent of its former life running on the machine.

## Model

| member | source | states |
|---|---|---|
| PoolTheorems.EveryStateKeepsInv | coordinator/src/pipeline_pool_manager.ts:280-579 | in every state of every run from empty pools, under every interleaving, the protocol's invariant holds |
| PoolTheorems.LauncherExclusivity | coordinator/src/pipeline_pool_manager.ts:155-196 | two distinct pool entries share a launcher id or endpoint only as a cold start's reservation and the settled entry of the same model it is replacing; hence never across models, and never two settled or two assembling entries |
| PoolTheorems.WrongWeightsSafety | coordinator/src/server.ts:330-457 | the agent behind a warm or failed entry is absent or runs the entry's model, and no queued POST will start another one |
| PoolTheorems.NoOrphanReservation | coordinator/src/pipeline_pool_manager.ts:524-578 | every assembling entry belongs to exactly one assembly in flight, a cold start or the tick's claim |
| PoolTheorems.PoolSizeBound | coordinator/src/pipeline_pool_manager.ts:413-457 | pool length plus unspent claims is at most the ceiling plus one, plus one while a replaced entry is still pooled, hence at most twice the ceiling plus one |
| PoolTheorems.PoolSizeBoundWithoutCommits | coordinator/src/server.ts:326-328 | with cold starts and teardowns alone a pool stays within its ceiling, plus one only while a replacement is in flight |
| PoolCeiling.CeilingCanBeExceeded | coordinator/src/pipeline_pool_manager.ts:448-533 | a concrete run from empty pools, with nothing between two awaits and with selections of the required size from active nodes, in which a cold start comes in while the tick awaits another claim and the next claim then gives a pool of two under a ceiling of one, nothing being replaced |
| PoolTheorems.CeilingIsKeptIff | coordinator/src/pipeline_pool_manager.ts:520-533 | in every run a model's pool stays within its ceiling, plus one while a replacement is in flight, if and only if every claim the tick commits for the model finds room in the pool when it is committed |
| PoolTheorems.CommitGrows | coordinator/src/pipeline_pool_manager.ts:464-533 | a commit grows the claim's pool by exactly one when it reserves, and no pool otherwise |
| PoolAgents.EntryWasStarted | core/src/launcher_main.cpp:288-340 | behind every settled entry stands the POST of its own reservation, for its model and on its machine, that the launcher answered with a 200 |
| PoolAgents.AgentIsAbsentIff | coordinator/src/server.ts:432-449 | behind a settled entry stand the sending of its own reservation's POST and, later, the 200 to it; its agent is absent if and only if since that 200 it exited, or its launcher restarted or handled a DELETE or a later POST that never became healthy, and no later POST started another agent; every DELETE handled since was sent after the entry's own POST, by a health check condemning an entry or a cold start that worked under another launcher id than the entry it replaced |
| PoolMachines.AgentIsGoneIff | core/src/launcher_main.cpp:288-361 | an agent that ran at one moment is gone at a later one if and only if something took it or a successor in between and nothing started another one since |
| PoolMachines.PostWasSent | coordinator/src/server.ts:374-403 | a queued POST was sent by the step that made its reservation |
| PoolMachines.DeleteWasSent | coordinator/src/pipeline_pool_manager.ts:210-233 | a DELETE behind which a POST sent earlier no longer stands was sent after that POST, by a condemning health check or a cold start under another id |
| PoolMachines.AnsweredPostIsGone | core/src/launcher_main.cpp:288-340 | once a reservation's POST was answered, no POST of it ever stands in the queue again |
| PoolMachines.OwnAgentIsStoppedIff | coordinator/src/server.ts:432-435 | the stop that ends a cold start goes to the machine of the agent it has just started if and only if the replaced entry carries another launcher id and that stop's lookup resolves to this machine |
| PoolRotation.WarmWithoutAgent | coordinator/src/server.ts:433-434 | a concrete run, with selections of the required size from active nodes, in which both POSTs succeed, no agent exits and no launcher restarts, and the pool ends with a warm entry without agent, after a launcher's id rotated on one endpoint |
| PoolHistory.EntryIsAsReserved | coordinator/src/server.ts:375-449 | over every run, each settled entry goes back to a reservation of its model by the request path or the tick and to the step that settled it: it names the driver of the reserved launcher, that launcher under both names and the contributors selected then; it was last stamped when it was settled or last used; and it is failed if and only if since then a forward to its driver or a cold start that was to replace it failed |
| PoolHistory.FlightWasReserved | coordinator/src/pipeline_pool_manager.ts:505-547 | every assembly in flight goes back to a step that reserved its launcher, one that serves the model or was planned for it and whose driver was trusted, and sent the POST |
| PoolHealth.CheckCondemnsIff | coordinator/src/pipeline_pool_manager.ts:360-390 | a check condemns an entry if and only if it is settled and misses its driver or a contributor in the tick's snapshot, is failed, or was last used longer ago than the grace period |
| PoolHealth.DeleteIsSentIff | coordinator/src/pipeline_pool_manager.ts:210-233 | the coordinator sends a DELETE to an endpoint if and only if a check condemns an entry, or an answered cold start replaces one on another launcher id, and the first registered launcher of that id, or else the recorded endpoint, is there |
| PoolHealth.SettledEntryLeaves | coordinator/src/pipeline_pool_manager.ts:392-405 | a settled entry leaves its pool only when a cold start replaces it, or when a check found it unwell in its tick's snapshot and the stop it caused is over |
| PoolHealth.HealthyIsKept | coordinator/src/pipeline_pool_manager.ts:345-402 | a warm entry whose nodes every snapshot shows, that no failure hits, that no cold start replaces, that is stamped within the grace period of every tick and that is not being torn down already stays in its pool, in any run |
| PoolHealth.UnfitIsGone | coordinator/src/pipeline_pool_manager.ts:304-402 | a settled entry that is failed, misses a node in the tick's snapshot, or is and stays idle for too long when a tick begins has left its pool by the time that tick plans, under every interleaving |
| PoolDecisions.ColdStartIff | coordinator/src/server.ts:223-403 | a request starts a cold start if and only if the model needs several nodes, nothing is assembled for it, its oldest entry is not warm on an active driver, its pool has room, a pipeline can be selected and the first idle launcher of the model would spawn a trusted driver; otherwise nothing happens |
| PoolDecisions.CommitIff | coordinator/src/pipeline_pool_manager.ts:464-547 | the tick reserves its next claim's launcher if and only if no claim of the model went wrong in this tick, a pipeline can be selected, the driver would be trusted and no pool entry is on the launcher; otherwise it drops the claim |
| PoolDecisions.FailedModelRests | coordinator/src/pipeline_pool_manager.ts:442-457 | once a claim of a model went wrong, the tick reserves nothing more for the model |
| PoolDecisions.PlanMeetsDemand | coordinator/src/pipeline_pool_manager.ts:413-440 | with its claims every model has as many pipelines as its demand asks for, or every launcher that serves it is in use or planned for a model of at least its demand; and no claim is more than the demand asks for |
| PoolTheorems.PlanCount | coordinator/src/pipeline_pool_manager.ts:71-135 | a plan with a claim for a model fills its pool at most up to the model's ceiling |
| PoolTheorems.StepKeepsSize | coordinator/src/pipeline_pool_manager.ts:413-579 | every step, of either side, keeps the size bound of every model |
| PoolSteps.StepKeeps | coordinator/src/server.ts:223-457 | every step of request path, tick, network and launcher keeps the invariant |
| PoolSteps.ColdChoiceIsFree | coordinator/src/server.ts:244-362 | the launcher a cold start picks is held by nobody except the settled entry it will replace |
| PoolSteps.BeginColdStartKeeps | coordinator/src/server.ts:223-403 | reserving a launcher and sending the POST in one stretch keeps the invariant |
| PoolSteps.FailColdStartKeeps | coordinator/src/server.ts:404-410 | a failed POST drops the reservation, marks the old entry failed, and keeps the invariant |
| PoolSteps.FinishColdStartKeeps | coordinator/src/server.ts:432-449 | swapping reservation and replaced entry for the warm entry keeps the invariant |
| PoolSteps.CommitKeeps | coordinator/src/pipeline_pool_manager.ts:464-547 | the re-check at the moment of commitment makes the tick's reservation keep the invariant, however stale its plan is |
| PoolSteps.SettleClaimKeeps | coordinator/src/pipeline_pool_manager.ts:548-578 | both outcomes of the tick's POST keep the invariant |
| PoolSteps.TornDownKeeps | coordinator/src/pipeline_pool_manager.ts:402-405 | removing a torn-down entry after the awaited DELETE keeps the invariant, whatever happened meanwhile |
| PoolInvariant.UnclaimedIsUnshared | coordinator/src/pipeline_pool_manager.ts:155-196 | a launcher not tallied as claimed, by id and by endpoint, backs no pool entry but the excluded one |
| PoolInvariant.HandleKeeps | core/src/launcher_main.cpp:288-361 | a launcher that handles its next command, with any outcome, keeps the invariant |
| PoolInvariant.DeleteKeeps | coordinator/src/pipeline_pool_manager.ts:210-233 | a DELETE sent at any time to any launcher keeps the invariant |
| PoolCoordinator.PipelineTracker.AddEntry | coordinator/src/pipeline_tracker.ts:33-40 | appends to the model's pool and leaves all others alone |
| PoolCoordinator.PipelineTracker.RemoveEntry | coordinator/src/pipeline_tracker.ts:42-51 | removes the first entry of that id from the model's pool and changes nothing else |
| PoolCoordinator.PipelineTracker.MarkEntryFailed | coordinator/src/pipeline_tracker.ts:53-59 | marks the entry failed if and only if it stands in the model's pool |
| PoolCoordinator.Coordinator.ClaimedIds | coordinator/src/pipeline_pool_manager.ts:155-190 | the tally holds exactly the ids and endpoints of all entries of tracked models except the excluded one |
| PoolCoordinator.Coordinator.ChooseLauncher | coordinator/src/server.ts:254-362 | decides exactly as the protocol's cold start does, check by check |
| PoolCoordinator.Coordinator.EnsurePipelineReady | coordinator/src/server.ts:223-403 | the stretch up to the POST is the protocol's begin-cold-start step |
| PoolCoordinator.Coordinator.SettleColdStart | coordinator/src/server.ts:404-457 | the stretch behind the POST is the protocol's settle step, for success, failure and a replacement on another launcher |
| PoolCoordinator.Coordinator.OldLauncherStopped | coordinator/src/server.ts:436-449 | the stretch behind the awaited stop of the old launcher is the protocol's finishing step |
| PoolCoordinator.Coordinator.StopLauncher | coordinator/src/pipeline_pool_manager.ts:210-233 | sends a DELETE to the registered endpoint, else to the recorded one, else nothing |
| PoolCoordinator.Coordinator.MarkDriverFailed | coordinator/src/server.ts:911-922 | every entry of the model naming the driver is marked failed, and no other |
| PoolCoordinator.Coordinator.PickLeastRecentlyUsed | coordinator/src/server.ts:849-863 | picks a usable entry if there is one, the one unused for longest, the earliest in the pool on a tie, and stamps it alone |
| PoolCoordinator.Coordinator.TimerFires | coordinator/src/pipeline_pool_manager.ts:280-302 | starts a tick if and only if none is under way |
| PoolCoordinator.Coordinator.CheckNext | coordinator/src/pipeline_pool_manager.ts:360-390 | one move of the health check is the protocol's step |
| PoolCoordinator.Coordinator.TornDown | coordinator/src/pipeline_pool_manager.ts:402-405 | the stretch behind the awaited stop is the protocol's teardown step |
| PoolCoordinator.Coordinator.TakeSnapshots | coordinator/src/pipeline_pool_manager.ts:414-431 | one snapshot per tracked model, in order, with its demand, pool length and desired count |
| PoolCoordinator.Coordinator.MakePlan | coordinator/src/pipeline_pool_manager.ts:413-440 | snapshots, tally and planner together produce the protocol's plan for the pools as they stand |
| PoolCoordinator.Coordinator.CommitClaim | coordinator/src/pipeline_pool_manager.ts:448-547 | the stretch up to the tick's POST is the protocol's commit step |
| PoolCoordinator.Coordinator.SettleClaim | coordinator/src/pipeline_pool_manager.ts:548-578 | the stretch behind the tick's POST is the protocol's settle step |
| PoolCoordinator.Coordinator.Perform | coordinator/src/pipeline_pool_manager.ts:280-579 | the objects make every step of the protocol and keep its invariant |
| Launcher.Launcher.PostPipeline | core/src/launcher_main.cpp:288-340 | 400 exactly for a name that is no plain file name, 404 exactly for one without a file, 200 exactly when the agent spawned and became healthy; the old agent is stopped exactly when a file for the model was found, a new one runs exactly on a 200, and the protocol's machine does the same |
| Launcher.Launcher.DeletePipeline | core/src/launcher_main.cpp:358-361 | always answers 204 with no agent running |
| Catalog.MaxPipelines | coordinator/src/catalog.ts:59-70 | a ceiling is at least one, whatever the catalog declares |
| Catalog.MultiNodeModelsAreTracked | coordinator/src/catalog.ts:55-81 | every model the request path assembles is among those the tick visits |
| Catalog.TrackedIdsAreDistinct | coordinator/src/catalog.ts:79-81 | with distinct catalog ids a tick visits no model twice |
| Catalog.TrackedIff | coordinator/src/catalog.ts:79-81 | a tick visits exactly the models that declare a need for several nodes |
| Catalog.DeclarationsCount | coordinator/src/catalog.ts:55-70 | a model's declared node count and usable ceiling count, one otherwise |
| AllocationPlanner.DesiredPipelineCount | coordinator/src/pipeline_pool_manager.ts:71-82 | zero for a single-node model, else the least count of at least one whose capacity covers the demand, cut off at the ceiling |
| AllocationPlanner.DesiredIsLeast | coordinator/src/pipeline_pool_manager.ts:71-82 | exactly the numbers of pipelines from the desired one on meet the demand or the ceiling |
| AllocationPlanner.SortByDemandFacts | coordinator/src/pipeline_pool_manager.ts:114-116 | the visiting order is a permutation in descending demand |
| AllocationPlanner.SortByDemandIsStable | coordinator/src/pipeline_pool_manager.ts:114-116 | models of equal demand are visited in their order |
| AllocationPlanner.FillDeficit | coordinator/src/pipeline_pool_manager.ts:118-132 | the loop over one model's launchers adds exactly its turn of the plan and marks both names of each launcher it takes |
| AllocationPlanner.FillFromFacts | coordinator/src/pipeline_pool_manager.ts:118-132 | one model's turn claims only free launchers of its own, at most its deficit, and leaves a deficit only when all its launchers are taken |
| AllocationPlanner.FillFromInOrder | coordinator/src/pipeline_pool_manager.ts:118-132 | a launcher is passed over only because it is busy or went to this very turn |
| AllocationPlanner.PlanOfIsGreedy | coordinator/src/pipeline_pool_manager.ts:106-135 | the plan is pairwise apart, disjoint from the busy launchers and within each deficit; a model left short had only launchers that were busy or went to a model of at least its demand |
| AllocationPlanner.PlanAllocations | coordinator/src/pipeline_pool_manager.ts:106-135 | the loops compute the plan that is proved sound and maximal |
| Speculative.CompleteStreaming | core/src/inference_engine.cpp:155-229 | emits the greedy answer, or a prefix of it where the callback stopped or something failed, with the counts reported; a decode error means that the next context was refused, a text error that the next greedy token has no text; a sound model answers every prompt that fits the batch |
| Speculative.ResolveAcceptance | core/src/speculative.cpp:5-17 | the longest agreeing prefix of the draft, then the target's own token |
| Speculative.Round | core/src/inference_engine.cpp:259-354 | one round yields tokens the target would say, at least one and all lookahead+1 when the draft agrees; it is too long exactly when it does not fit the batch, and fails to decode exactly when the draft refuses the context or one of its steps, or the target the batch to verify |
| Speculative.Absorb | core/src/inference_engine.cpp:356-377 | accepted tokens are taken over up to the end of generation or the token limit |
| Speculative.CompleteSpeculative | core/src/inference_engine.cpp:240-382 | for every draft and lookahead the tokens and text are exactly the greedy ones; rounds are at most tokens+1 and at most n_predict, tokens at most rounds*(lookahead+1), every verified batch fits n_batch, an agreeing draft needs the least number of rounds; the run fails at the first round that does not fit or whose draft steps or batch do not decode, or because a greedy token has no text, and only then; sound models answer every prompt that fits together with its answer |
| Speculative.SayingIsGreedy | core/src/inference_engine.cpp:203-224 | tokens each said by the target in turn are a prefix of the greedy answer, and all of it at the limit |
| Speculative.YieldIsProduct | core/src/inference_engine.cpp:258-378 | the yield of a number of rounds is that number times lookahead+1 |
| Speculative.ExactRoundsIsCeiling | core/src/inference_engine.cpp:258-378 | the least number of rounds for n tokens is n/(lookahead+1) rounded up |
| WindowsArgs.QuoteWindowsArg | core/src/spawned_process.cpp:46-74 | the loop over pending backslashes computes the quoting function that is proved invertible |
| WindowsArgs.BuildWindowsCommandLine | core/src/spawned_process.cpp:76-85 | the command line joins the quoted arguments with single spaces |
| WindowsArgs.SplitQuoted | core/src/spawned_process.cpp:26-74 | the child reads a quoted argument as that one argument, whatever quotes, backslashes and spaces it holds |
| WindowsArgs.RoundTrip | core/src/spawned_process.cpp:26-85 | splitting the built command line gives back every argv exactly |
| WindowsArgs.RoundTripThroughCString | core/src/spawned_process.cpp:26-85 | seen as a C string, the command line gives back the argv if and only if no argument holds a NUL |
| JsonText.JsonEscapeString | core/src/json_utils.cpp:185-206 | the loop computes the escaping that the readers are proved to undo |
| JsonText.FindTopLevelKeyColon | core/src/json_utils.cpp:19-64 | returns the index of the colon that the scan finds, or nothing exactly when it finds none |
| JsonText.ExtractJsonString | core/src/json_utils.cpp:68-130 | reads the string behind the key's colon, escapes decoded |
| JsonText.ExtractJsonInt | core/src/json_utils.cpp:132-163 | reads the integer behind the key's colon if it fits 32 bits |
| JsonText.ExtractJsonBool | core/src/json_utils.cpp:165-183 | reads the literal behind the key's colon |
| JsonTree.LookupFindsFirstMember | core/src/json_utils.cpp:19-64 | in every printed object the colon found is that of the first top-level member of the name, and none is found without one, whatever stands in strings and nested values |
| JsonTree.StringRoundTrip | core/src/json_utils.cpp:68-130 | a string member reads back exactly as it was before escaping, any other value as none |
| JsonTree.IntRoundTrip | core/src/json_utils.cpp:132-163 | an integer member reads back if it fits 32 bits and as none otherwise; another numeric literal yields its leading integer; any other value yields none |
| JsonTree.BoolRoundTrip | core/src/json_utils.cpp:165-183 | a boolean member reads back, any other value as none |
| JsonSpelling.SpellingIsRead | core/src/json_utils.cpp:88-124 | the reader reads every legal spelling of a string up to its closing quote |
| JsonSpelling.ReadAsMeantIff | core/src/json_utils.cpp:88-124 | what it reads is what the spelling means if and only if no slash is escaped and no \u escape stands for a code of 0x80 or more |
| JsonSpelling.EscapeIsSpelling | core/src/json_utils.cpp:185-206 | the escaped text is a legal spelling of the text itself, of the kind that the reader understands |
| SseWire.ReadSseFrames | coordinator/src/sse_frames.ts:42-76 | frames yielded and the decision to throw depend only on the text received, however reads cut it |
| SseWire.PiecesAppend | coordinator/src/sse_frames.ts:54-56 | text that arrives later only continues the last unfinished frame |
| SseWire.LinesFacts | core/src/http_server.cpp:284-304 | the data lines of a chunk joined again are the text with each CRLF, CR or LF turned into one LF |
| SseRoundTrip.NormaliseBreaks | core/src/http_server.cpp:284-304 | text without CR is left alone, a CRLF and a CR of its own each become one LF |
| SseRoundTrip.FrameHasNoCr | core/src/http_server.cpp:275-304 | no CR reaches the wire, so a reader that ends lines there as well sees the same lines |
| SseRoundTrip.OtherLinesAreIgnored | coordinator/src/sse_frames.ts:56-64 | a line of another kind changes nothing, wherever it stands in a frame |
| SseRoundTrip.FirstEventWins | coordinator/src/sse_frames.ts:56-72 | a frame is named by its first event line and says nothing without a data line |
| SseRoundTrip.ErrorReadsBack | core/src/http_server.cpp:358-393 | an error frame's payload is an object whose error member reads back as the message |
| SseRoundTrip.UsageReadsBack | core/src/http_server.cpp:395-418 | a usage frame's counts read back if they fit 32 bits, and its finish reason exactly |
| SseRoundTrip.FrameSpeaks | core/src/http_server.cpp:271-418 | each written frame consists of full lines and means one event with its payload |
| SseRoundTrip.StreamReadsBack | coordinator/src/sse_frames.ts:42-76 | every written stream reads back as what its frames say, up to the first that says the sentinel |
| SseRoundTrip.RoundTrip | core/src/http_server.cpp:271-356 | pieces then done, cut into reads in any way: the reader finishes and yields all pieces with normalised breaks, if and only if none normalises to the sentinel |
| SseRoundTrip.TruncationIsDetected | coordinator/src/sse_frames.ts:46-73 | a stream of any frames that breaks off anywhere: the reader yields what the complete frames say, a prefix of the whole, and throws if and only if none of them reads as the sentinel or as an error event |
| SseRoundTrip.StreamOutcome | coordinator/src/sse_frames.ts:42-76 | a stream with its terminal frame reads as finished; it reads as all its frames, and every break in it makes the reader throw, if and only if no content reads as the sentinel |
| ResponseWriter.Socket.SendAll | core/src/http_server.cpp:220-226 | a send loop delivers everything, or a prefix and the peer is gone |
| ResponseWriter.ContentFrame | core/src/http_server.cpp:283-306 | the loop over line breaks builds the frame of the text |
| ResponseWriter.Writer.EnsureSseHeadersSent | core/src/http_server.cpp:231-259 | headers go out once and never behind a JSON response; a peer that leaves makes it throw |
| ResponseWriter.Writer.WriteJsonResponse | core/src/http_server.cpp:263-269 | sends a complete response only if nothing was sent before |
| ResponseWriter.Writer.WriteChunk | core/src/http_server.cpp:271-315 | extends an open stream by one content frame and nothing else |
| ResponseWriter.Writer.WriteUsage | core/src/http_server.cpp:395-418 | extends an open stream by one usage frame and nothing else |
| ResponseWriter.Writer.WriteDone | core/src/http_server.cpp:317-356 | ends an open stream, opening it first if nothing was sent, and leaves every finished response alone |
| ResponseWriter.Writer.WriteError | core/src/http_server.cpp:358-393 | if nothing was sent, what the peer reads is a 500 with the declared length whose error member is the message; an error frame on an open stream, nothing behind a finished response |
| ResponseWriter.ApplyAllExtends | core/src/http_server.cpp:231-418 | whatever calls follow, a response only grows, keeps at most one terminal frame as its last, and is never touched once complete |
| ResponseWriter.Serve | core/src/http_server.cpp:484-513 | for every handler and every way sends may fail, what reaches the peer is a prefix of one complete response, and all of it if the peer stays; then it reads as the first call asks: a 500 with the message for a handler that throws before it wrote anything, the JSON response it wrote, or a finished event stream with the frames of a handler that only streams |
| ResponseWriter.ResponseIsTold | core/src/http_server.cpp:484-513 | the bytes of a response read back through an independent HTTP and event stream reader as what the handler did |
| ResponseWriter.JsonIsTold | core/src/http_server.cpp:200-226 | a JSON response reads back with its status, content type, body and a declared length that is the body's |
| ResponseWriter.StreamIsTold | core/src/http_server.cpp:243-248 | an event stream reads back as a 200 without declared length whose body is its frames and is finished |
| HttpReader.MessageReadsBack | core/src/http_server.cpp:212-218 | a status line, fields and body written line by line read back as they are |
| ResponseWriter.OneEnding | core/src/http_server.cpp:484-513 | every streaming request is answered by exactly one JSON response or a stream with exactly one terminal frame |
| ResponseWriter.OutcomesAreDistinguishable | core/src/http_server.cpp:484-513 | for any handler that only streams, a reader tells one that returned, one that threw and a body that broke off from one another if and only if no content reads as the sentinel; what it yields is always a prefix |
| SafetyTerms.ParseCompiled | coordinator/src/safety_rules_loader.ts:6-39 | every term compiles to a well-formed pattern of one piece per character or run of spaces |
| SafetyTerms.SyntaxIsEscaped | coordinator/src/safety_rules_loader.ts:6-8 | the compiler escapes exactly the characters that have a meaning of their own in a pattern |
| SafetyTerms.PiecesMatchTerm | coordinator/src/safety_rules_loader.ts:6-39 | those pieces match exactly what the term stands for |
| SafetyTerms.CompiledTermMatches | coordinator/src/safety_rules_loader.ts:130 | the compiled source matches a text if and only if each apostrophe is either quote, each run of spaces one or more whitespace characters, and every other character itself |
| PipelineSelector.Shuffle | coordinator/src/pipeline_selector.ts:43-55 | drawing one by one with any random source permutes a group of ties |
| PipelineSelector.RankCandidates | coordinator/src/pipeline_selector.ts:15-60 | the ranking is a permutation sorted by score and then memory, for every random source |
| PipelineSelector.SelectPipeline | coordinator/src/pipeline_selector.ts:82-102 | a result exists if and only if there are enough nodes; the driver is a best node, the required number of nodes is taken, same-locality nodes first, and no better-ranked node is passed over within a class |
| PipelineSelector.SelectionIsDistinct | coordinator/src/pipeline_selector.ts:82-102 | nodes with distinct ids are selected at most once |
| PipelineSelector.ChoiceInNumbers | coordinator/src/pipeline_selector.ts:15-102 | the driver has the best score, and the most memory at that score; a node left out shares the driver's locality only if all contributors do, and in its class no contributor has a lower score, or the same and less memory |
| PipelineSelector.ScoreRewards | coordinator/src/reputation_tracker.ts:62-65 | more agreement and no more disagreement means a higher score; nothing known means a half |
| DemandTracker.PruneExpired | coordinator/src/demand_tracker.ts:48-57 | dropping the expired front of an ascending list keeps exactly the live timestamps |
| DemandTracker.DemandTracker.RecordRequest | coordinator/src/demand_tracker.ts:15-33 | afterwards the stored list is exactly the model's requests within the window, and other models' lists are untouched |
| DemandTracker.DemandTracker.RecentDemand | coordinator/src/demand_tracker.ts:35-42 | counts exactly the recorded requests later than a minute before now |
| DemandTracker.WindowCounts | coordinator/src/demand_tracker.ts:35-57 | the window counts exactly the model's requests less than 60000 milliseconds old |
| DemandTracker.Replay | coordinator/src/demand_tracker.ts:15-57 | in every run with a clock that never goes back, every read answers from the full history |
| NodeRegistry.NodeRegistry.Heartbeat | coordinator/src/registry.ts:54-72 | answers and refreshes as the never-pruning map does |
| NodeRegistry.NodeRegistry.ListActive | coordinator/src/registry.ts:74-90 | lists exactly the live trusted nodes, no two with one id, and keeps exactly the live ones |
| NodeRegistry.Replay | coordinator/src/registry.ts:48-90 | in every run the registry answers like a map that never prunes |
| NodeRegistry.ExpiredStaysExpired | coordinator/src/registry.ts:60-69 | without a new registration an expired node stays expired |
| NodeHistory.AnswersFollowSigns | coordinator/src/registry.ts:48-90 | in every run a heartbeat is accepted if and only if the node registered, or had a heartbeat accepted, at most the timeout ago, and a list holds exactly the trusted nodes of which that is true, as last registered |
| NodeHistory.BeatingStaysListed | coordinator/src/registry.ts:54-72 | a node that registers and then beats at most the timeout apart has every heartbeat accepted and stands in every list that trusts it |
| LauncherRegistry.LauncherRegistry.Register | coordinator/src/launcher_registry.ts:33-53 | a known endpoint keeps its id, an expired or new one gets the new id, and no endpoint is stored twice |
| LauncherRegistry.LauncherRegistry.Heartbeat | coordinator/src/launcher_registry.ts:55-67 | answers and refreshes as the never-pruning map does |
| LauncherRegistry.LauncherRegistry.ListActive | coordinator/src/launcher_registry.ts:69-80 | lists exactly the live launchers, no two with one endpoint or id |
| LauncherRegistry.LauncherRegistry.ListForModel | coordinator/src/launcher_registry.ts:86-88 | lists exactly the live launchers that serve the model, no two with one endpoint or id |
| LauncherRegistry.Replay | coordinator/src/launcher_registry.ts:33-80 | in every run with fresh ids the registry answers like a map that never prunes |
| LauncherRegistry.ExpiredStaysExpired | coordinator/src/launcher_registry.ts:33-67 | an expired launcher id never comes back |
| LauncherHistory.AnswersFollowSigns | coordinator/src/launcher_registry.ts:33-80 | in every run a heartbeat is accepted if and only if the launcher registered, or had a heartbeat accepted, at most the timeout ago; a list holds exactly the launchers of which that is true, with the models and port last registered; and a registration keeps the id of such a launcher at its endpoint, else brings the new one |
| LauncherHistory.BeatingStaysListed | coordinator/src/launcher_registry.ts:33-73 | with fresh ids, a launcher that beats or registers at most the timeout apart stays in every list under its one id |
| Expiry.Sweep | coordinator/src/registry.ts:74-90 | one pass keeps exactly the live entries and lists exactly the wanted ones of them, each once |
| PrewarmedDrivers.TendedDriversSurvive | coordinator/src/pipeline_pool_manager.ts:345-390 | a driver pinged by pre-passes at most the timeout apart is never judged inactive while it is trusted and its contributors are active, in any number of ticks |
| PrewarmedDrivers.AliveIffLive | coordinator/src/pipeline_pool_manager.ts:345-377 | a tick judges a pooled, trusted driver alive if and only if the driver was live when the tick came |
| PrewarmedDrivers.SurvivesIffInTime | coordinator/src/pipeline_pool_manager.ts:345-390 | over whole runs a pooled, trusted driver is never judged inactive if and only if every tick comes within the timeout of its last sign of life |
| PrewarmedDrivers.OneLateTick | coordinator/src/registry.ts:54-72 | for every timeout, two ticks one millisecond further apart condemn a healthy pipeline |
| PrewarmedDrivers.LateTickKills | coordinator/src/pipeline_pool_manager.ts:345-377 | after a gap longer than the timeout no pre-pass of any pool revives the driver, and the tick judges every entry of it inactive |

## Left out

- HTTP routing, authentication, body validation, static files, the dashboard and the client library.
- llama.cpp, tokenisation, samplers and RPC devices: a model is an arbitrary function from contexts to tokens, with arbitrary decode failures.
- Speculative.CompleteSpeculative: takes a non-negative lookahead and a non-empty tokenised prompt; token counters are unbounded.
- Speculative.CompleteStreaming: tells failures apart by kind, not by message text.
- Sockets, process creation, health polling and timers are nondeterministic outcomes; a POST that was given up may still be handled later by the launcher.
- PoolTheorems.WrongWeightsSafety: assumes that a launcher handles commands in the order sent, and that a restarted launcher leaves no agent of its former life on its machine; reordering on the network, and an agent that outlives a killed launcher and answers the next health poll for it, are not modelled.
- The pool protocol takes the answers of the registries, the selection and the clock during a step as arbitrary inputs; remote endpoints and layer placements in the POST body are not part of this model.
- Overlapping direct calls of runOnce: the tick modelled is the timer's, which skips while one is under way.
- Entry objects are references into a map, so that a tick and the tracker share them; random pipeline ids are successive numbers.
- PoolCoordinator.Coordinator.ClaimedIds: node heartbeats that the request path sends on the side are modelled with the node registry, not here.
- That a health check never removes an entry created during the same tick: its snapshot of active nodes may be older than the entry, and nothing is claimed about it.
- Routing through the served-model fallback of selectNode: registry records can lag behind the agent.
- JsonText.FindTopLevelKeyColon: the nesting depth is unbounded where the program uses an int; characters are bytes.
- JsonTree.LookupFindsFirstMember: takes keys that need no escaping, as all keys in the program are.
- Decoding UTF-8: streams are characters, so a piece that splits a multi-byte character is outside the round trip.
- ResponseWriter.Serve: a handler's calls are given in advance and it may let the exception of a failed write escape or swallow it; exceptions that are no std::exception are not modelled.
- HttpReader.MessageReadsBack: compares field names as they are written and reads no folded lines.
- JsonSpelling.ReadAsMeantIff: a \u escape stands for its own code; surrogate pairs are not joined.
- SafetyTerms.CompiledTermMatches: word boundaries, the case-insensitive flag and hand-written patterns; a character is a Unicode scalar value, not a UTF-16 code unit.
- PipelineSelector.SelectPipeline: takes a required count of at least one, as the callers do; scores are exact rationals.
- DemandTracker.DemandTracker.RecordRequest: takes a clock that never goes back.
- NodeRegistry.NodeRegistry.ListActive: the order of the list and the registry's size depend on pruning; the digest that names a node is given with it.
- LauncherRegistry.LauncherRegistry.ListForModel: the order of the list.
- LauncherRegistry.LauncherRegistry.Register: random ids are taken as unused names; the pass over the entries may take any order.
