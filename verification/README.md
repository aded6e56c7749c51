# A verified model of the IPS sensor

The sensor sits on an NFQUEUE, follows flows, blocks sources that break a rule or
that the AI model calls anomalous, and supervises the Python process that serves
the model. This project models the stateful core in Dafny and proves what it keeps
over whole runs.

| file | part |
|---|---|
| `Common.dfy` | addresses, five-tuples, parsed packets |
| `PacketParser.dfy` | IPv4, TCP and UDP header decoding (section 3.1 of RFC 791, section 3.1 of RFC 9293, the Format section of RFC 768) |
| `RunningStats.dfy`, `FlowModel.dfy`, `FlowFeatures.dfy` | the accumulators, a flow as a summary of its packet history, the feature vector |
| `Sweep.dfy`, `FlowTable.dfy`, `FlowManager.dfy` | the incremental sweep, the flow table as a value, and the class that updates it in place with its index |
| `SlidingWindow.dfy`, `RuleEngine.dfy` | tumbling windows, the bound they imply, the rules |
| `BlockList.dfy` | the map and the lazily cleaned heap |
| `Pipeline.dfy`, `FlowFate.dfy`, `PacketCapture.dfy` | the verdict pipeline as a state machine, what becomes of every flow, and the class that drives the parts |
| `AiProtocol.dfy`, `AiClient.dfy` | the client's threads as a transition system, and the class with the mutex's fields and the worker loop |
| `WholeSensor.dfy` | pipeline and client together, from a submitted flow to the block it earns |
| `LineFraming.dfy`, `Supervision.dfy`, `ProcessSupervisor.dfy` | output framing, the restart state machine, and its class |
| `Lifecycle.dfy` | supervisor and client wired together, with shutdown |
| `Station.dfy` | all of it together, from a server's ready line to the block its model earns |
| `Firewall.dfy` | the iptables ruleset and the guard that installs and removes its rules |

Where the source updates an object in place the model is a class, proved equal step
by step to a function on values; what the source promises is proved about those
functions, for every input and every run. Classes keep ghost histories (packets per
flow, blocks made, tickets, effects) that tie the fields to what happened.

`dafny verify dfyconfig.toml` checks the project.

## Where the code and its documentation differ

- The comment above the sweep says a tenth of the buckets per tick; because of
  integer division ten ticks miss the buckets beyond ten quotas, up to nine of them
  and seven with the default cap; eleven always suffice.
- The comment on the 128-byte copy counts 60 + 20 bytes; the code also checks the
  TCP data offset against the captured length, so 120 are needed: fewer than 120
  bytes, 80 included, lose the ports of some packet. 128 is enough.
- The repository's README promises (line 125) that the next run cleans up after a
  kill. If the process dies after `-N` and before the owner marker is appended, or
  between `-F` and `-X`, the chain has no marker and the next run refuses to start.
  On tables that could be cleaned to begin with, exactly these states, an empty chain
  or one with its queue rule alone, stop the next run; everything else is cleaned up.
- A transport failure posted to the GUI thread is not tied to its connection: it
  acts on whatever connection is online when it is handled.

## Assumptions

The clock is monotone (`steady_clock`). The hash maps keep their bucket count while
the caps hold, which is what the constructor's `reserve` is for; counts are at
least 1. `std::hash` of an integer is taken to be the identity. A failing iptables
command changes nothing, `-C` and `-L` return 1 exactly when the object is absent,
and nobody else edits the ruleset meanwhile. An accepted reply names the expected
flow and model. libstdc++ gives 107897 buckets for the default cap. A single-shot timer that was stopped does not fire.

## Model

| member | source | states |
|---|---|---|
| PacketParser.TruncationInvariance | src/capture/packet_parser.cpp:19-94 | any copy that keeps the first 120 bytes parses exactly like the whole packet |
| PacketParser.CapturedCopyParsesAlike | src/capture/packet_source.cpp:22-27 | the kernel's 128-byte copy parses like the whole packet, for every buffer |
| PacketParser.CopyLengthIff | src/capture/packet_parser.cpp:19-94 | a copy of n bytes parses like every packet it was cut from if and only if n is at least 120; the 80 bytes the comment at src/capture/packet_source.cpp:23 counts are too few |
| PacketParser.OneByteLessIsNotEnough | src/capture/packet_parser.cpp:65-70 | with the longest headers, 119 bytes lose the ports that 120 keep |
| PacketParser.ParseEncode | src/capture/packet_parser.cpp:36-92 | round trip: parsing the wire image of any well-formed TCP or UDP header gives its fields back, whatever part of the payload follows |
| PacketParser.LengthsAddUp | src/capture/packet_parser.cpp:67-90 | header lengths plus payload never exceed the total length, so the 16-bit payload length never wraps; a packet without ports reports no flags or payload |
| Statistics.FoldMeaning | src/flow/flow.h:20-30 | what the accumulator holds after any sequence: count, sum, square sum, an attained minimum and maximum |
| Statistics.OrderIndependence | src/flow/flow.h:20-30 | the accumulator depends only on the multiset of values |
| Statistics.OnePassIsTwoPass | src/flow/flow.h:32-37 | the one-pass formula equals the two-pass sample variance, is never negative, and the clamp never changes an exact result |
| Statistics.MeanBetweenExtremes | src/flow/flow.h:31 | minimum <= mean <= maximum for a non-empty accumulator |
| Statistics.SquareSumExactInDouble | src/flow/flow.h:29 | for up to 2^21 lengths of 16 bits the square sum is an integer below 2^53 |
| FlowModel.SummaryAppend | src/flow/flow_manager.cpp:90-105 | the update of one direction's statistics is the fold over the longer packet history |
| FlowModel.RecordAppend | src/flow/flow_manager.cpp:86-110 | updating a stored flow gives exactly the record of the history with the packet appended, FIN handshake included |
| FlowModel.RecordCreate | src/flow/flow_manager.cpp:76-82 | the same for the packet that creates the flow |
| FlowModel.HandshakeAppend | src/flow/flow_manager.cpp:89-108 | the handshake flag is set exactly when a non-FIN ACK follows a FIN from each side |
| FlowModel.TerminalTests | src/flow/flow_manager.cpp:136-142 | the counters tested at the end of a flow say exactly that a reset, or a complete handshake, is in the history |
| FlowFeatures.FeaturesAreTextbook | src/ai/flow_features.cpp:13-50 | all 27 features, in order, are the textbook statistics of the packets the flow stands for |
| FlowFeatures.FlagsAddUp | src/ai/flow_features.cpp:43-48 | each flag feature counts the flagged packets of the whole conversation, whichever way they went |
| FlowFeatures.GapsTelescope | src/flow/flow_manager.cpp:90-95 | the floored gaps of a direction add up to its floored span, short of it by less than the number of gaps |
| FlowFeatures.GapsWithinDuration | src/flow/flow_manager.cpp:90-98 | a direction has one gap less than packets, and its gaps add up to no more than the flow's duration |
| Sweep.ElevenTicksCover | src/flow/flow_manager.cpp:178-191 | every bucket is scanned within any 11 consecutive ticks, for every bucket count and cursor |
| Sweep.NoBucketTwice | src/flow/flow_manager.cpp:183-184 | no tick scans a bucket twice |
| Sweep.TenTicksCoverIff | src/flow/flow_manager.cpp:174-181 | ten ticks (the design's one tenth a tick) cover every bucket if and only if the bucket count is at most ten quotas |
| Sweep.TenTicksMiss | src/flow/flow_manager.cpp:174-191 | from any cursor the buckets ten ticks leave out are exactly as many as exceed ten quotas, and never more than nine |
| Sweep.TenTicksMissSeven | src/flow/flow_manager.h:16-18 | with the bucket count libstdc++ reserves for the default cap (107897), seven buckets wait for the eleventh tick |
| FlowTable.ApplyKeepsInv | src/flow/flow_manager.cpp:23-220 | every operation keeps: histories that belong to their key, one orientation per conversation, both caps, cursors in range |
| FlowTable.ObserveKeepsInv | src/flow/flow_manager.cpp:23-63 | the same for observing a packet |
| FlowTable.FindEitherWay | src/flow/flow_manager.cpp:117-123 | a key and its reverse find the same flow |
| FlowTable.TimedOutFlowIsSwept | src/flow/flow_manager.cpp:203-213 | over any run with 11 ticks, a flow that is timed out at each of them is returned, unless a packet or another operation touched it first |
| FlowTable.FinishedWindowIsSwept | src/flow/flow_manager.cpp:214-218 | the same for the second sweep and its own cursor: a window that is over at each of 11 ticks is removed, unless a packet of its source is counted first |
| FlowTable.RunKeepsInv | src/flow/flow_manager.cpp:23-220 | so over any run of the table's operations, whatever starts it in the invariant |
| FlowTable.TickPartitions | src/flow/flow_manager.cpp:192-213 | a tick splits the table into unchanged survivors and returned flows, each returned once, all of them timed out |
| FlowManagement.FlowManager.constructor | src/flow/flow_manager.cpp:10-17 | a new manager stands for the empty table |
| FlowManagement.FlowManager.ObservePacket | src/flow/flow_manager.cpp:23-40 | the whole new table and the returned window, by direction, side and origin of the flow |
| FlowManagement.FlowManager.UpdateSourceStats | src/flow/flow_manager.cpp:42-63 | window creation, reset and counting, and the refusal at the cap |
| FlowManagement.FlowManager.UpdateFlow | src/flow/flow_manager.cpp:65-115 | records, index and histories stay in agreement; which flow was hit and on which side |
| FlowManagement.FlowManager.GetFlow | src/flow/flow_manager.cpp:117-123 | the record of the conversation's history, asked for in either orientation |
| FlowManagement.FlowManager.ExtractCompleted | src/flow/flow_manager.cpp:125-148 | takes out exactly a reset or finished flow, with the right reason, and unindexes it |
| FlowManagement.FlowManager.DiscardSourceFlows | src/flow/flow_manager.cpp:150-159 | removing through the index removes exactly the flows of that source |
| FlowManagement.FlowManager.UnindexFlow | src/flow/flow_manager.cpp:161-170 | the index stays the exact grouping of the remaining keys, without empty groups |
| FlowManagement.CollectDoomed | src/flow/flow_manager.cpp:180-191 | the bucket loop collects exactly the expired keys of the scanned buckets, once each |
| FlowManagement.FlowManager.EraseDoomed | src/flow/flow_manager.cpp:192-198 | the erase loop returns the timed-out records in order and keeps records, index and histories in agreement |
| FlowManagement.FlowManager.CleanupExpired | src/flow/flow_manager.cpp:203-220 | one tick: swept flows returned once each, finished windows removed, both cursors advanced |
| FlowManagement.IndexErase | src/flow/flow_manager.cpp:161-170 | unindexing a key keeps the grouping, dropping a group that became empty |
| SlidingWindow.CountKeepsWindowed | src/flow/flow_manager.cpp:42-63 | counting a packet keeps successive windows of a source apart and every window below the thresholds, if the packet that reaches one is dropped |
| SlidingWindow.SweepKeepsWindowed | src/flow/flow_manager.cpp:214-218 | sweeping finished windows changes nothing the bound depends on |
| SlidingWindow.CountedLimits | src/flow/flow_manager.cpp:57-62 | a live window holds exactly the SYNs and ports counted since it started, and no window lets a threshold through |
| SlidingWindow.SlidingBound | src/flow/flow_manager.cpp:42-63 | any interval of one window length lets at most 2 (threshold - 1) SYNs, and as many ports, of a source through |
| Detection.RuleEngine.AddRule | src/detect/rule_engine.cpp:5-7 | rules are checked in the order they were added |
| Detection.RuleEngine.Check | src/detect/rule_engine.cpp:9-16 | returns the first rule that matches, and none only if none matches |
| Blocking.LastBlockWins | src/response/block_list.cpp:14-57 | wherever cleanup ticks fall, an address is blocked exactly until the expiry set by its most recent block; every map entry keeps its heap entry |
| Blocking.CleanupDrains | src/response/block_list.cpp:40-52 | a cleanup takes up to 16384 due entries out of a backlog |
| Blocking.BacklogDrains | src/response/block_list.cpp:33-57 | a backlog of n due entries is gone within ceil(n / 16384) ticks when nothing new is blocked |
| Blocking.BlockKeepsInStep | src/response/block_list.cpp:14-23 | if no live block is replaced, unexpired heap entries stay in bijection with unexpired map entries |
| Blocking.CleanupKeepsInStep | src/response/block_list.cpp:33-57 | cleanup keeps that bijection and changes no verdict at or after its time |
| Blocking.BlockList.Add | src/response/block_list.cpp:14-23 | the new map and heap |
| Blocking.BlockList.Contains | src/response/block_list.cpp:25-31 | whether now is before the listed expiry |
| Blocking.BlockList.CleanupExpired | src/response/block_list.cpp:33-57 | pops due entries, earliest first, up to the cap, and releases an address exactly when its current entry is popped |
| Pipeline.InboundKeepsInv | src/capture/packet_capture.cpp:74-105 | an inbound packet keeps the pipeline invariant: sound table, true windows, exact blocks, no live flow that is over or of a listed source |
| Pipeline.OutboundKeepsInv | src/capture/packet_capture.cpp:107-120 | so does an outbound packet |
| Pipeline.TickKeepsInv | src/capture/packet_capture.cpp:122-164 | so does a tick with any decisions of the model |
| Pipeline.RunKeepsTable | src/capture/packet_capture.cpp:59-130 | every flow table of a run is sound and within its caps, whatever thresholds and times are configured |
| Pipeline.RunKeepsInv | src/capture/packet_capture.cpp:59-191 | the invariant holds after every run with a monotone clock |
| Pipeline.RuleHitIffReached | src/capture/packet_capture.cpp:86-98 | a counted packet meets a rule if and only if, with it, the SYNs or distinct ports counted in its source's window reach a threshold |
| Pipeline.RunSlidingBound | src/capture/packet_capture.cpp:86-98 | over any run, sweeping and blocking included, the sliding bound on accepted SYNs and ports of each source |
| Pipeline.DroppedIffCovered | src/capture/packet_capture.cpp:74-105 | a parsed inbound packet is dropped if and only if a block made by then covers its source at that time |
| Pipeline.BlocksAreExact | src/capture/packet_capture.cpp:74-149 | a block is never extended or replaced before it expires and never meets the whitelist; meanwhile every inbound packet of its source is dropped and no outbound packet is |
| Pipeline.RunIsClean | src/capture/packet_capture.cpp:74-130 | at every point of a run heap and map agree on unexpired blocks, no live remote flow has a blocked or whitelisted source, and no live flow is over |
| Pipeline.RunTallies | src/capture/packet_capture.cpp:89-191 | every block and every reported anomaly is counted exactly once, and submitted flows are remote, of two packets or more, and numbered consecutively |
| FlowFate.StepFate | src/capture/packet_capture.cpp:74-130 | one event: a live flow stays with its history grown by exactly the packet observed, or ends, over or timed out, and is submitted once with exactly that history if it qualifies, or is discarded because its source is blocked just then |
| FlowFate.EveryFlowHasAFate | src/capture/packet_capture.cpp:74-191 | over any run a live flow lives to the end, its history growing by exactly its packets, or leaves at some event: over or timed out, submitted once as exactly what it had grown to if remote and of two packets or more and else never, or discarded with its blocked source |
| FlowFate.IdleFlowIsDecided | src/capture/packet_capture.cpp:122-130 | an idle flow is decided within eleven ticks: ended with exactly the history it had, submitted once if it qualifies, or discarded with its source |
| Capturing.PacketCapture.constructor | src/capture/packet_capture.cpp:18-41 | the parts start empty, with the port-scan rule before the SYN-flood rule |
| Capturing.PacketCapture.OnPacket | src/capture/packet_capture.cpp:59-72 | the verdict and new state for a raw packet; unknown hooks and unreadable packets pass and change nothing |
| Capturing.PacketCapture.HandleInbound | src/capture/packet_capture.cpp:74-105 | the object takes exactly the state machine's inbound step |
| Capturing.PacketCapture.HandleOutbound | src/capture/packet_capture.cpp:107-120 | the object takes exactly the outbound step |
| Capturing.PacketCapture.CompletePacketFlow | src/capture/packet_capture.cpp:100-103 | the packet's finished flow is taken out and submitted |
| Capturing.PacketCapture.ConsumeFlow | src/capture/packet_capture.cpp:166-191 | the recheck of whitelist and block list never rejects a flow of the table: the result does not mention it |
| Capturing.PacketCapture.OnTick | src/capture/packet_capture.cpp:122-130 | the object takes exactly the tick step, returned flows submitted in order |
| Capturing.PacketCapture.ApplyAiDecisions | src/capture/packet_capture.cpp:132-164 | the decision loop is the fold of the single decisions |
| AiProtocol.NextKeepsInv | src/ai/async_ai_client.cpp:28-283 | every critical section and every unlocked step, in any interleaving, keeps generation safety, socket discipline, order and conservation |
| AiProtocol.DrainedOnceInOrder | src/ai/async_ai_client.cpp:81-271 | drained decisions are about accepted records, at most once each, in order, with the model and in the generation that accepted them; offline means empty queues; both queues stay within capacity |
| AiProtocol.SubmittedIsConserved | src/ai/async_ai_client.cpp:81-271 | accepted records are exactly the disjoint union of those queued, in hand, answered and lost; one is lost only if its generation is over; the failure handler is called no more often than the client was set online |
| AiProtocol.HandlerOncePerConnection | src/ai/async_ai_client.cpp:141-164 | two calls of the failure handler over a run are for two failures, each of which took down the connection of its moment, and the later one is of a later generation: no connection is reported twice |
| AiProtocol.OffersAddUp | src/ai/async_ai_client.cpp:81-115 | every offered record is counted exactly once, as submitted or dropped |
| AiProtocol.SocketDiscipline | src/ai/async_ai_client.cpp:191-278 | a request is only sent on a socket of its own generation's endpoint that owes no reply |
| AiProtocol.StopIsFinal | src/ai/async_ai_client.cpp:60-79 | after stop the client is never online again and each worker step brings its exit nearer |
| AiProtocol.StoppedWorkerIsNeverStuck | src/ai/async_ai_client.cpp:171-189 | a stopped worker has a next step in every phase |
| AiProtocol.StoppedWorkerExits | src/ai/async_ai_client.cpp:171-283 | stopped anywhere, the worker takes at most eight more steps, whatever the other threads do |
| AiProtocol.WorkerWaitsOnlyTwice | src/ai/async_ai_client.cpp:178-268 | a worker that cannot move waits for a record, or for room for a decision that is still current, and for nothing else |
| AiClient.AsyncAiClient.constructor | src/ai/async_ai_client.cpp:20-24 | a new client, offline and empty |
| AiClient.AsyncAiClient.Start | src/ai/async_ai_client.cpp:28-35 | the fields follow the protocol's start |
| AiClient.AsyncAiClient.SetOnline | src/ai/async_ai_client.cpp:37-49 | a new generation with empty queues, or nothing after stop |
| AiClient.AsyncAiClient.SetOffline | src/ai/async_ai_client.cpp:51-58 | offline, a new generation, empty queues |
| AiClient.AsyncAiClient.Stop | src/ai/async_ai_client.cpp:60-79 | the fields follow the protocol's stop; whether there is a thread to join |
| AiClient.AsyncAiClient.Consume | src/ai/async_ai_client.cpp:81-115 | accepted if and only if online, not stopped and below capacity; exactly one counter moves |
| AiClient.AsyncAiClient.DrainDecisions | src/ai/async_ai_client.cpp:117-127 | returns all queued decisions in order and leaves none |
| AiClient.AsyncAiClient.TakeRecord | src/ai/async_ai_client.cpp:176-189 | takes the oldest record with the current generation, endpoint and model, or exits |
| AiClient.AsyncAiClient.PrepareSocket | src/ai/async_ai_client.cpp:191-201 | keeps a socket of the record's generation, else connects a new one to its endpoint, or has none after a failure |
| AiClient.AsyncAiClient.SendRequest | src/ai/async_ai_client.cpp:203-209 | a request not sent in time, or throwing, costs the socket |
| AiClient.AsyncAiClient.ReceiveReply | src/ai/async_ai_client.cpp:210-225 | so does a reply that does not come in what is left of the time |
| AiClient.AsyncAiClient.StillCurrent | src/ai/async_ai_client.cpp:227-245 | whether the reply's generation is still the connection; if not, the record is put down and the socket dropped |
| AiClient.AsyncAiClient.ParseReply | src/ai/async_ai_client.cpp:233-260 | the decision an anomaly reply stands for is about the record in hand, with its generation's model |
| AiClient.AsyncAiClient.CountNormal | src/ai/async_ai_client.cpp:251-257 | counts a normal reply only for the current generation |
| AiClient.AsyncAiClient.CountProtocolError | src/ai/async_ai_client.cpp:246-249 | counts a rejected reply |
| AiClient.AsyncAiClient.QueueDecision | src/ai/async_ai_client.cpp:261-271 | queues a decision if and only if its generation is still online, within capacity |
| AiClient.AsyncAiClient.FailTransport | src/ai/async_ai_client.cpp:141-153 | takes the connection down if and only if it is the one that failed |
| AiClient.AsyncAiClient.ReportFailure | src/ai/async_ai_client.cpp:154-163 | counts a timeout and calls the handler, after the lock is released |
| AiClient.AsyncAiClient.Interfere | src/ai/async_ai_client.cpp:28-127 | any calls of other threads, in any order, leave the worker's own variables alone |
| AiClient.AsyncAiClient.WaitForRecord | src/ai/async_ai_client.cpp:178-180 | the first wait is over if and only if stop was asked for, or the client is online with a record queued |
| AiClient.AsyncAiClient.WaitForRoom | src/ai/async_ai_client.cpp:262-265 | the second wait is over if and only if there is room or the record's generation is over |
| AiClient.AsyncAiClient.GiveUp | src/ai/async_ai_client.cpp:141-164 | a failed transport puts the record down; the handler is called if and only if the failed connection was still the current one, after the lock is released and other threads may have run |
| AiClient.AsyncAiClient.Exchange | src/ai/async_ai_client.cpp:191-225 | connect, send and receive, with interference in between: a reply with the record still in hand, or the record put down and no socket |
| AiClient.AsyncAiClient.HandleReply | src/ai/async_ai_client.cpp:227-271 | handles a reply to its end, or is still waiting for room |
| AiClient.AsyncAiClient.Reject | src/ai/async_ai_client.cpp:237-250 | a rejected reply is counted only if its generation is still the connection |
| AiClient.AsyncAiClient.Run | src/ai/async_ai_client.cpp:166-283 | the worker loop in the source's order, under any interference and any answers, is a run of the transition system that stops only at its exit or in one of the two waits |
| AiClient.ObjectsKeepPromises | src/ai/async_ai_client.cpp:20-283 | every client object, however it came to its state, meets the protocol's promises: drained decisions in order and about their records, counters that add up, queues within capacity and empty when offline |
| WholeSensor.MoveKeepsSystemInv | src/capture/packet_capture.cpp:122-191 | every move of the capture thread and of the client's threads keeps the composed invariant: submitted records are offered once and in order, and blocks of the model have their decisions |
| WholeSensor.AiBlocksAreEarned | src/capture/packet_capture.cpp:132-191 | over any interleaving every block made because of the model is of the source of a remote flow that was submitted, accepted and judged, and no submitted flow is judged twice |
| Supervision.Delay | src/app/ai_process_supervisor.cpp:23-26 | 1000 ms, 2000 ms, then 4000 ms for ever |
| Supervision.StepKeepsInv | src/app/ai_process_supervisor.cpp:126-343 | every event keeps: startup timer exactly while starting, restart timer exactly while waiting, stable timer only online, failures recorded exactly after one, offline only with the budget spent |
| Supervision.FirstReadyLineCounts | src/app/ai_process_supervisor.cpp:231-266 | of an attempt's output only the first ready line has an effect |
| Supervision.StoppingIsFinal | src/app/ai_process_supervisor.cpp:332-343 | once stopping, no event changes the state or has any outside effect |
| Supervision.RestartsAreCounted | src/app/ai_process_supervisor.cpp:128-132 | the reported restart count is the number of restart timeouts, over any run |
| Supervision.BudgetFromStart | src/app/ai_process_supervisor.cpp:160-195 | from a start, without a stable period or another start: at most maxRestarts + 1 launches, with the delay schedule in between, and offline only after the whole schedule |
| Supervision.EveryChangeCostsBudget | src/app/ai_process_supervisor.cpp:285-308 | every change of state without a refill lowers the measure (attempts left, stage) |
| Supervision.NeverWedged | src/app/ai_process_supervisor.cpp:126-132 | starting or waiting always has a running timer whose timeout lowers the measure |
| LineFraming.CutIsExact | src/app/ai_process_supervisor.cpp:197-211 | cutting loses no byte, and neither a line nor the rest contains a newline |
| LineFraming.CutIsUnique | src/app/ai_process_supervisor.cpp:197-211 | there is only one such cut |
| LineFraming.CutAppends | src/app/ai_process_supervisor.cpp:197-211 | cutting in two goes gives the same lines as cutting at once |
| LineFraming.ChunksDoNotMatter | src/app/ai_process_supervisor.cpp:197-211 | the lines depend on the bytes alone, not on their chunks, and the buffer is always the unterminated rest |
| ProcessSupervisor.AiProcessSupervisor.constructor | src/app/ai_process_supervisor.cpp:92-103 | a disabled supervisor with no timer running |
| ProcessSupervisor.AiProcessSupervisor.Start | src/app/ai_process_supervisor.cpp:160-171 | the fields and effects of a start |
| ProcessSupervisor.AiProcessSupervisor.StartAttempt | src/app/ai_process_supervisor.cpp:173-195 | an attempt clears the buffer and launches, or fails at once on unsafe paths or a stale socket |
| ProcessSupervisor.AiProcessSupervisor.HandleStdout | src/app/ai_process_supervisor.cpp:197-211 | the loop hands on exactly the completed lines, re-entrantly when the server dies on the way, and keeps the rest |
| ProcessSupervisor.AiProcessSupervisor.HandleStdoutLine | src/app/ai_process_supervisor.cpp:231-266 | the effect of one line, including a ready handler that throws |
| ProcessSupervisor.AiProcessSupervisor.HandleFailure | src/app/ai_process_supervisor.cpp:285-308 | the failure step, once for each attempt, with its handler calls and restart delay |
| ProcessSupervisor.AiProcessSupervisor.StopProcess | src/app/ai_process_supervisor.cpp:310-321 | ending the server reads its last output and changes neither state nor timers |
| ProcessSupervisor.AiProcessSupervisor.OnStartupTimeout | src/app/ai_process_supervisor.cpp:126-127 | the startup timeout step |
| ProcessSupervisor.AiProcessSupervisor.OnRestartTimeout | src/app/ai_process_supervisor.cpp:128-132 | the restart timeout step |
| ProcessSupervisor.AiProcessSupervisor.OnStableTimeout | src/app/ai_process_supervisor.cpp:133 | the stable timeout step, which refills the budget |
| ProcessSupervisor.AiProcessSupervisor.OnOutput | src/app/ai_process_supervisor.cpp:134-135 | output moves the state machine by the lines it completes |
| ProcessSupervisor.AiProcessSupervisor.OnError | src/app/ai_process_supervisor.cpp:138-141 | a process error is a failure of the attempt |
| ProcessSupervisor.AiProcessSupervisor.OnFinished | src/app/ai_process_supervisor.cpp:142-153 | the last output is handled before the exit counts as a failure |
| ProcessSupervisor.AiProcessSupervisor.ReportTransportFailure | src/app/ai_process_supervisor.cpp:279-283 | a reported failure acts only while online |
| ProcessSupervisor.AiProcessSupervisor.Stop | src/app/ai_process_supervisor.cpp:332-343 | stops every timer and the server, once |
| Lifecycle.StepSettles | src/app/application_controller.cpp:55-70 | the handler calls of any event leave the client connected only if the supervisor ends online, and to the model it reports |
| Lifecycle.MoveKeepsAppInv | src/app/application_controller.cpp:55-145 | every move of the GUI, capture and worker threads keeps the composed invariant |
| Lifecycle.OnlineTogether | src/app/application_controller.cpp:55-145 | between GUI events a connected client means an online supervisor naming the same model, which made every queued decision; after a shutdown the client is offline for good and its worker gone |
| Lifecycle.LateFailureHitsLaterConnection | src/app/application_controller.cpp:98-107 | a delivered failure ends the online state whichever connection it came from, and a client connected then is always on a later one |
| Lifecycle.LateFailureIff | src/app/application_controller.cpp:98-107 | a delivered failure ends a connection other than the one that failed if and only if the client is connected then |
| Lifecycle.LateFailureHappens | src/app/ai_process_supervisor.cpp:279-283 | a concrete run in which a late report meets a healthy new connection |
| Station.StepNames | src/app/ai_process_supervisor.cpp:231-266 | the ready handler is only called with a version that the handled output announces |
| Station.MoveKeepsStationInv | src/app/application_controller.cpp:55-145 | every move of the capture, worker and GUI threads keeps the invariants of pipeline, client and supervisor together: connections go to the supervised server under announced versions only |
| Station.AiBlocksWereAnnounced | src/app/application_controller.cpp:55-145 | over any interleaving of all threads, every block made because of the model stems from a decision about a submitted and accepted flow of its source whose model version a ready line of the server announced, and every connection is to that server |
| Firewall.ExecKeepsFine | src/capture/firewall_queue_guard.cpp:89-198 | every timely command keeps jumps served by a complete owned chain and everybody else's rules in content and order |
| Firewall.TimelyIff | src/capture/firewall_queue_guard.cpp:112-118 | issued to an existing chain in a safe state, a command keeps that state safe if and only if it is timely: no flush while a managed jump is there (112-118), no jump before the queue rule (172-193) |
| Firewall.MistimedFlush | src/capture/firewall_queue_guard.cpp:112-115 | a flush before the jumps are removed is such a command, in a concrete state |
| Firewall.RestartIsFine | src/capture/firewall_queue_guard.cpp:149-158 | a new process may start from any state the old one was interrupted in |
| Firewall.CrashCanLoseTheMarker | src/capture/firewall_queue_guard.cpp:115-177 | the promise that the next run always cleans up fails in three places: interrupted after -N, after the queue rule is appended, or between -F and -X, the chain is left without its marker |
| Firewall.MidWayIff | src/capture/firewall_queue_guard.cpp:99-177 | of the states the guard can leave behind on tables it could clean, the next run is stuck exactly in those whose chain is empty or holds its queue rule alone |
| Firewall.Iptables.Run | src/capture/firewall_queue_guard.cpp:19-55 | one command: executes, or fails and changes nothing; the tables stay fine after each |
| Firewall.FirewallQueueGuard.Issue | src/capture/firewall_queue_guard.cpp:19-55 | every command the guard issues is timely and leaves no chain, a marked one, or one mid-way |
| Firewall.FirewallQueueGuard.RemoveManagedJumps | src/capture/firewall_queue_guard.cpp:62-77 | the loop removes all managed jumps of a built-in chain and nothing else |
| Firewall.FirewallQueueGuard.RemoveChain | src/capture/firewall_queue_guard.cpp:89-136 | success leaves exactly the foreign rules; a chain without the marker is never touched; on reliable tables, success if and only if the chain is absent, or owned where asked and used by nobody else, and otherwise an emptied chain that carries the marker again |
| Firewall.FirewallQueueGuard.DropChain | src/capture/firewall_queue_guard.cpp:115-135 | on reliable tables an emptied chain that cannot be deleted is marked again, and that is the only way to fail |
| Firewall.FirewallQueueGuard.RemoveCurrentChain | src/capture/firewall_queue_guard.cpp:140-147 | the ownership flags are cleared only on success |
| Firewall.FirewallQueueGuard.Install | src/capture/firewall_queue_guard.cpp:149-198 | success means exactly one jump at the head of each chain and a complete chain; failure leaves a chain the guard still owns, or nothing of the guard's, or an earlier process's chain it could not remove; on reliable tables it succeeds if and only if what it finds can be cleaned, whether or not it already owns a chain |
| Firewall.FirewallQueueGuard.CreateChain | src/capture/firewall_queue_guard.cpp:166-198 | from cleaned tables to the installed ruleset; a failure leaves the tables as they were, or a chain the guard still owns |
| Firewall.FirewallQueueGuard.InsertJumps | src/capture/firewall_queue_guard.cpp:182-197 | jumps are inserted only once the chain is complete; a failure takes everything of the guard's away, or leaves a chain it still owns |
| Firewall.FirewallQueueGuard.Rollback | src/capture/firewall_queue_guard.cpp:160-164 | either everything of the guard's is gone and it owns nothing, or its ownership is as before |
| Firewall.FirewallQueueGuard.Uninstall | src/capture/firewall_queue_guard.cpp:200-209 | removes everything of the guard's, or nothing if it owns nothing; on reliable tables it fails only if somebody else uses the chain |
| Firewall.CrashIsForgotten | src/capture/firewall_queue_guard.cpp:149-198 | what an install aims at does not depend on where the process before was interrupted |
| Firewall.OnlyMidWayIsStuck | src/capture/firewall_queue_guard.cpp:89-209 | after any calls on a guard that found tables it could clean, of the states since then exactly the mid-way ones cannot be cleaned by the next run |
| Firewall.NextRun | src/capture/firewall_queue_guard.cpp:149-198 | from any state the old process was interrupted in, the next run installs exactly what a first run would have, or returns false; safe after every command; where the first state could be cleaned, of all the states passed through only the mid-way ones stop yet another run |

## Left out

- Statistics.OnePassIsTwoPass: exact reals; rounding and the square root itself are not modelled.
- FlowFeatures.FeaturesAreTextbook: the square root is a parameter that maps 0 to 0.
- FlowManagement.FlowManager.UpdateSourceStats: counters are unbounded, so the 32-bit wrap-around of the SYN and flag counts is not modelled.
- FlowManagement.CollectDoomed: walks the keys bucket by bucket but in no particular order inside one, as an unordered map does.
- FlowManagement.FlowManager.UpdateFlow: a flow record is a value replaced in the map; the pointer into the map that the code returns is not modelled.
- PacketParser.TruncationInvariance: a null buffer is not modelled; an empty one takes the same branch.
- Blocking.BlockList.CleanupExpired: the priority queue is a multiset with push and pop of a least expiry; its array layout is not modelled.
- Capturing.PacketCapture.OnTick: for the object the drained decisions are a parameter, and the two sides meet in WholeSensor; the AI block notification and log lines are not modelled.
- WholeSensor.AiBlocksAreEarned: what an event submits is offered after it and not in the middle of it; nothing in between reads what the offer changes.
- AiClient.AsyncAiClient.Run: bounded in records and wake-ups, since a method has to end; the bounds are arbitrary. What the network answers and what other threads call is chosen freely.
- AiClient.AsyncAiClient.ParseReply: the JSON text is not modelled.
- ProcessSupervisor.AiProcessSupervisor.StartAttempt: the path and socket checks are answers given from outside; a server still running after a failed kill stays running.
- ProcessSupervisor.AiProcessSupervisor.HandleStdoutLine: JSON parsing is a function from a line to the model version it announces.
- ProcessSupervisor.AiProcessSupervisor.HandleStdout: lines without an effect, which are only logged, leave no trace in the model; standard error is only logged and is left out.
- Lifecycle.MoveKeepsAppInv: the application controller is a transition system and not a class, because its callbacks interleave with other threads.
- Lifecycle.OnlineTogether: state handlers are assumed to reach the client before they throw; tray and status text are left out.
- Firewall.FirewallQueueGuard.Uninstall: the destructor, which makes the same call once more, is left out.
- Flow ids, wall-clock times and record serialization: formatting only.
- NFQUEUE, netlink, fork and exec, ZeroMQ, QProcess and QTimer: replaced by events with arbitrary outcomes.
- Configuration range checks, whitelist loading and the Python side: single-branch facts or library calls.
- Logging and log rate limits: no effect on the modelled state.
