# In-network computing orchestration: a verified model

The repository extends a named-data simulator with compute nodes, consumers and an orchestrator.
This project models the parts of it that decide something, and proves what they keep.

- **Compute node** (`ComputeNode.dfy`, `ResolutionEngine.dfy`, `NfnProducer.dfy`): an interest names
  a function and arguments; the engine answers NACK, FETCH, FORWARD or EXECUTE; the application
  books RAM and cores, queues what does not fit, starts one queued request per completion, and
  sweeps a table of pending requests when Data arrives. `NfnRuns.dfy` is about all runs of this
  machine, `NfnSweep.dfy` about the sweep that edits the table it walks over, `NfnWakeUps.dfy` about
  the names that entries wait for. `NfnEffects.dfy` says what each operation does in terms of the
  fields alone.
- **Consumer** (`Consumer.dfy`, `ConsumerRuns.dfy`, `ConsumerEffects.dfy`): five indexes over sequence numbers, timeouts and
  retransmissions, and one send event.
- **Status** (`StatusMessage.dfy`, `MessageHandler.dfy`, `NodeInfoStorage.dfy`): the node prints its
  state, the orchestrator parses it into a table with a default and a current view.
  `StatusRoundTrip.dfy` and `StatusRefresh.dfy` connect printer and parser, `StatusExchange.dfy`
  follows an answer into the table, and `Snapshots.dfy` connects the table and the nodes.
- **Orchestration round** (`FunctionSwitch.dfy`, `SwitchRound.dfy`): three passes over the table
  produce commands, which travel as names and are decoded and applied by the nodes.
- **Data generation** (`Workload.dfy`, `Draws.dfy`, `Topology.dfy`, `Zipf.dfy`) and the payload buffer of the UDP
  application (`UdpFill.dfy`). `Text.dfy` holds splitting, joining and decimal numbers, `Names.dfy`
  names, `Arithmetic.dfy` division with remainder.

Code that updates objects in place is a class whose methods are verified against functions on an
immutable state (`Model()`); the properties are lemmas about those functions, one step and all runs.
`hide` statements in proofs only keep definitions away from the solver.

Where a promise fails, the exact condition is proved:

- Work is stranded in some run exactly when the node can queue and some installed function is larger
  than the node (`StrandedExactlyIfTooBig`).
- Some run from power-on loses a wake-up, that is, leaves an entry waiting for a name that is no
  longer on the list of names asked for, exactly when some installed function takes two or more
  arguments, or takes one and starts disabled (`NoWakeUpLostExactly`). The reason is that a FETCH
  nested in the sweep inserts at the front, so that the sweep skips an entry. At every position
  of a table, with the entries behind it cleared and the ones below it not answering FETCH, the sweep
  clears the arrived name exactly when the completed entry does not answer FETCH
  (`SafeAboveExactly`), and keeps the wake-ups exactly when it does not or asks for the arrived name
  again (`LosesWakeUpExactly`).
- The generator of input lists draws until it finds an operand whose text does not occur in the list
  yet, and `Operand_1` occurs in `Operand_10`. It can always finish exactly when it is asked for at
  most numData + 1 - numData / 10 operands (`InputListFinishesExactly`); eleven operands up to number
  10, with 10 drawn first, is an input on which it draws for ever (`TenRefusesOne`). The generators of
  functions and of provided data have their own conditions (`FuncListFinishesExactly`,
  `ProvidedDataFinishesExactly`).
- Printer and parser agree exactly when the parsed numbers are ints (`BootstrapRoundTrip`,
  `FetchRefreshes`), and a list of inputs is misread exactly when it is the single input `null`.
- The setter for the CPU of the current view writes its RAM, so RAM is right only because the message
  names the cores first (`RamNeedsItsPlace`).
- A newly enabled function stops being excluded exactly when it was excluded no more often than the
  two Enable commands name it (`RoundInWords`).
- The pattern fill overruns its buffer exactly when the size rounded up to whole patterns reaches
  2^32 (`FilledExactly`), as two bytes in a buffer of 2^32 - 1 do (`TwoBytesOverrun`).
- The links form a spanning tree exactly when the third tier is twice the second (`TreeExactly`).

Code and comments disagree in places; the model follows the code. The factor `4/5` of the busy
threshold is an integer division, so a node is busy when the 32-bit sum of its executions is positive,
which below 2^31 executions means that it has run anything at all (`SwitchRound.BusyExactly`). A comment in the engine reports trouble with sequence markers that the
text search for `/%FE` misses; a `Sequence` component stands for a marker that it finds.

## Model

| member | source | states |
|---|---|---|
| `ComputeNodes.ComputeNode.IncrementQueueFill` | model/inc-orchestration-compute-node.cc:130-152 | The counter grows by one and the call succeeds exactly when it is below the queue size; otherwise nothing changes. |
| `ComputeNodes.ComputeNode.DecrementQueueFill` | model/inc-orchestration-compute-node.cc:154-176 | The counter falls by one and the call succeeds exactly when it is positive; otherwise nothing changes. |
| `ComputeNodes.ComputeNode.EnableFunction` | model/inc-orchestration-compute-node.cc:295-318 | Turns the function on and clears its miss counter if it is installed; reports whether it is. |
| `ComputeNodes.ComputeNode.DisableFunction` | model/inc-orchestration-compute-node.cc:360-379 | Turns the function off if it is installed; reports whether it is. |
| `ComputeNodes.ComputeNode.AddToExcludeList` | model/inc-orchestration-compute-node.cc:494-498 | Appends to the exclude list, duplicates included. |
| `ComputeNodes.ComputeNode.RemoveFromExcludeList` | model/inc-orchestration-compute-node.cc:500-505 | The in-place search and erase takes out exactly the first occurrence, or nothing when there is none. |
| `ComputeNodes.ComputeNode.CheckExcludeList` | model/inc-orchestration-compute-node.cc:507-519 | True exactly when the name is on the list. |
| `ResolutionEngine.ExtractFunctionName` | apps/inc_compute_node_apps/inc_compute_app/NFN-interest-resolution-engine.cpp:69-84 | The component after the first `Function` component that has one behind it, or nothing. |
| `ResolutionEngine.ExtractDataNames` | apps/inc_compute_node_apps/inc_compute_app/NFN-interest-resolution-engine.cpp:88-123 | The scan with its data flag returns the arguments up to a component marked as a sequence number. |
| `ResolutionEngine.GetFetchDecisions` | apps/inc_compute_node_apps/inc_compute_app/NFN-interest-resolution-engine.cpp:125-230 | Returns the specified decision and fetch list for every content store and counts a miss exactly where the code does. |
| `ResolutionEngine.MissingIsExact` | apps/inc_compute_node_apps/inc_compute_app/NFN-interest-resolution-engine.cpp:176-190 | The cache pass lists exactly the arguments that are not cached; it is empty if and only if all are, full if and only if none is. |
| `ResolutionEngine.DecisionIsSound` | apps/inc_compute_node_apps/inc_compute_app/NFN-interest-resolution-engine.cpp:145-229 | If and only if: NACK on a wrong number of arguments; EXECUTE on the right number, enabled, not excluded, all cached; FORWARD on excluded, or disabled with nothing cached. FETCH has a nonempty list: the function if disabled, then the missing arguments in order; EXECUTE an empty one. |
| `ResolutionEngine.FunctionNameExactly` | apps/inc_compute_node_apps/inc_compute_app/NFN-interest-resolution-engine.cpp:69-84 | For every name: the function is what follows the first `Function` component that has something behind it. |
| `ResolutionEngine.DataNamesExactly` | apps/inc_compute_node_apps/inc_compute_app/NFN-interest-resolution-engine.cpp:88-123 | For every name: the arguments are, in order, the components that lie behind a `Data` with no `Function` in between, before the first marked one. |
| `ResolutionEngine.RequestArguments` | apps/inc_compute_node_apps/inc_compute_app/NFN-interest-resolution-engine.cpp:69-123 | From /lambda/Function/f/Data/args plus a sequence number the scans recover exactly f and args. |
| `NfnProducer.NfnProducerApp.CheckResource` | apps/inc_compute_node_apps/inc_compute_app/NFN-producer-app.cpp:219-242 | True exactly when both free RAM and free cores suffice. |
| `NfnProducer.NfnProducerApp.BookResource` | apps/inc_compute_node_apps/inc_compute_app/NFN-producer-app.cpp:199-217 | Subtracts RAM and cores of the function from the node, modulo 2^32. |
| `NfnProducer.NfnProducerApp.ReleaseResource` | apps/inc_compute_node_apps/inc_compute_app/NFN-producer-app.cpp:187-197 | Adds RAM and cores of the function to the node, modulo 2^32. |
| `NfnProducer.NfnProducerApp.DeletePendingContentTableEntry` | apps/inc_compute_node_apps/inc_compute_app/NFN-producer-app.cpp:289-302 | Erases the first entry with the same interest name, if any, and nothing else. |
| `NfnProducer.NfnProducerApp.DoExecution` | apps/inc_compute_node_apps/inc_compute_app/NFN-producer-app.cpp:272-287 | Books, counts the execution, schedules its end and erases the first pending entry of that name. |
| `NfnProducer.NfnProducerApp.ResolveAndHandleDecisions` | apps/inc_compute_node_apps/inc_compute_app/NFN-producer-app.cpp:428-553 | All five outcomes: NACK, FETCH (marks, asks once for each name, inserts at the front), FORWARD, start, and queue or count busy and forward. |
| `NfnProducer.NfnProducerApp.OnInterest` | apps/inc_compute_node_apps/inc_compute_app/NFN-producer-app.cpp:748-781 | An active application resolves the request for the function after the last `Function` component. |
| `NfnProducer.FirstIsLast` | apps/inc_compute_node_apps/inc_compute_app/NFN-producer-app.cpp:772-778 | With one `Function` component that names an installed function, the application's last one is the engine's first one. |
| `NfnProducer.NfnProducerApp.DeliverTo` | apps/inc_compute_node_apps/inc_compute_app/NFN-producer-app.cpp:353-425 | One pass of the sweep body: enable a dragged function or drop an entry, mark, re-resolve when nothing is pending. |
| `NfnProducer.NfnProducerApp.OnData` | apps/inc_compute_node_apps/inc_compute_app/NFN-producer-app.cpp:331-426 | The loop over the table that it edits stays in bounds and computes the recursive backward sweep. |
| `NfnProducer.NfnProducerApp.ScheduledExecutionEnd` | apps/inc_compute_node_apps/inc_compute_app/NFN-producer-app.cpp:244-270 | Releases, answers, and starts the head of the waiting list exactly when one waits and it fits now. |
| `NfnProducer.VisitKeepsValid` | apps/inc_compute_node_apps/inc_compute_app/NFN-producer-app.cpp:345-425 | A visit at position i leaves at least i entries, so the backward index never leaves the table; the fill counter stays the length of the waiting list. |
| `NfnProducer.ResolveKeepsValid` | apps/inc_compute_node_apps/inc_compute_app/NFN-producer-app.cpp:428-553 | Every outcome keeps the queue counter equal to the waiting list and at most the queue size, and the table shrinks by one entry at most. |
| `NfnEffects.NackInFields` | apps/inc_compute_node_apps/inc_compute_app/NFN-producer-app.cpp:444-456 | A wrong number of arguments, not excluded: one NACK and no other change. |
| `NfnEffects.ForwardInFields` | apps/inc_compute_node_apps/inc_compute_app/NFN-producer-app.cpp:437-442 | Excluded, or off with no argument cached: the interest is sent on, a miss is counted if the arity is right and the function off, and no other change. |
| `NfnEffects.FetchInFields` | apps/inc_compute_node_apps/inc_compute_app/NFN-producer-app.cpp:458-493 | Something missing while something is there: exactly one fetch interest for each wanted name not asked for yet and no other packet; an entry in front waits for all that is wanted; no other change. |
| `NfnEffects.StartInFields` | apps/inc_compute_node_apps/inc_compute_app/NFN-producer-app.cpp:501-509 | Ready and the resources suffice: in flight, resources taken, execution counted, entry of the name erased, no other change. |
| `NfnEffects.QueueInFields` | apps/inc_compute_node_apps/inc_compute_app/NFN-producer-app.cpp:510-520 | Ready, resources short, room left: last in the waiting list, and no other change. |
| `NfnEffects.BusyInFields` | apps/inc_compute_node_apps/inc_compute_app/NFN-producer-app.cpp:521-550 | Ready, resources short, queue full: busy counted, interest sent on, and no other change. |
| `NfnEffects.DeleteInFields` | apps/inc_compute_node_apps/inc_compute_app/NFN-producer-app.cpp:289-302 | Exactly the first entry of the name leaves the table. |
| `NfnEffects.InterestInFields` | apps/inc_compute_node_apps/inc_compute_app/NFN-producer-app.cpp:748-781 | An active application resolves the request for the function named, with nothing pending; a stopped one does nothing. |
| `NfnEffects.VisitInFields` | apps/inc_compute_node_apps/inc_compute_app/NFN-producer-app.cpp:353-425 | Each of the five cases of the loop body, by what the entry has pending. |
| `NfnEffects.SwitchedInFields` | apps/inc_compute_node_apps/inc_compute_app/NFN-producer-app.cpp:362-387 | A name with a component beginning with `Function` enables the function of its second component if that is installed; any other name nothing. |
| `NfnEffects.ArrivalMarks` | apps/inc_compute_node_apps/inc_compute_app/NFN-producer-app.cpp:331-426 | An arrival that completes no entry marks it in every entry that waits for it, and nothing is sent, started, queued or removed. |
| `NfnEffects.AbortDrops` | apps/inc_compute_node_apps/inc_compute_app/NFN-producer-app.cpp:362-381 | Code for a function that is not installed drops, with one entry per name, exactly the entries that ask for it. |
| `NfnEffects.StoppedIsSilent` | apps/inc_compute_node_apps/inc_compute_app/NFN-producer-app.cpp:334-335 | In every run of a stopped application without completions no packet leaves, and table, lists, resources and busy counter stay. |
| `NfnEffects.SwitchOnInFields` | apps/inc_compute_node_apps/node_orchestration_ndn_app/ndn-orchestration-node-app.cpp:260-268 | On, no misses, the first of its exclusions gone, no other change. |
| `NfnEffects.SwitchOffInFields` | apps/inc_compute_node_apps/node_orchestration_ndn_app/ndn-orchestration-node-app.cpp:269-276 | Off, counters kept, one exclusion more, no other change. |
| `NfnEffects.AskedMeansSent` | apps/inc_compute_node_apps/inc_compute_app/NFN-producer-app.cpp:475-490 | In every run from power-on a fetch interest has been sent for each name asked for, and never more than one ahead of its Data. |
| `NfnEffects.DequeuedAreStarted` | apps/inc_compute_node_apps/inc_compute_app/NFN-producer-app.cpp:258-269 | In every run from power-on what was started is what arrivals started directly plus the dequeued entries, each as often as it was dequeued. |
| `NfnEffects.CountersTellExecutions` | apps/inc_compute_node_apps/inc_compute_app/NFN-producer-app.cpp:272-287 | In every run from power-on the execution counter of a function is its start value plus its executions in flight plus its answered requests, modulo 2^32. |
| `NfnRuns.StepKeepsValid` | apps/inc_compute_node_apps/inc_compute_app/NFN-producer-app.cpp:187-553 | Every event keeps the fill counter equal to the waiting list and at most the queue size, and the hardware fixed. |
| `NfnRuns.ExecuteKeepsInv` | apps/inc_compute_node_apps/inc_compute_app/NFN-producer-app.cpp:272-287 | Starting something that fits keeps free plus booked resources equal to the capacity, without wrapping around. |
| `NfnRuns.EnqueueKeepsInv` | apps/inc_compute_node_apps/inc_compute_app/NFN-producer-app.cpp:501-520 | A request is queued only when it does not fit, so something is in flight if all functions fit the node. |
| `NfnRuns.SweepKeepsInv` | apps/inc_compute_node_apps/inc_compute_app/NFN-producer-app.cpp:345-426 | The whole sweep, nested starts and fetches included, keeps all invariants. |
| `NfnRuns.CompleteKeepsInv` | apps/inc_compute_node_apps/inc_compute_app/NFN-producer-app.cpp:244-270 | A completion with its one start keeps all invariants. |
| `NfnRuns.StepKeepsInv` | apps/inc_compute_node_apps/inc_compute_app/NFN-producer-app.cpp:187-553 | Every event keeps resource conservation, queue order, one answer per start, fetches ahead of Data by at most one, and no stranded work. |
| `NfnRuns.EveryRunKeepsInv` | apps/inc_compute_node_apps/inc_compute_app/NFN-producer-app.cpp:187-553 | From power-on, in every reachable state: free plus booked RAM and cores are the capacity, what was queued is what was dequeued followed by what waits, each start is in flight or answered once, fetch interests for a name exceed its Data by at most one, and waiting work implies work in flight when all functions fit. |
| `NfnRuns.StrandedExactlyIfTooBig` | apps/inc_compute_node_apps/inc_compute_app/NFN-producer-app.cpp:244-287 | No run strands work if and only if nothing can be queued or every installed function fits the capacity. |
| `NfnRuns.TooBigStrands` | apps/inc_compute_node_apps/inc_compute_app/NFN-producer-app.cpp:501-520 | For a function larger than the node, a run of two events that leaves a request waiting with nothing in flight. |
| `NfnRuns.CompleteInFields` | apps/inc_compute_node_apps/inc_compute_app/NFN-producer-app.cpp:244-270 | One completion in the fields: the Data is sent, the resources return, and exactly the head of the waiting list starts, if it fits then. |
| `NfnRuns.CompletionsStartTheQueue` | apps/inc_compute_node_apps/inc_compute_app/NFN-producer-app.cpp:258-269 | The executions that completions start are, in order, those of the entries that left the waiting list. |
| `NfnRuns.CompletionsDrainAll` | apps/inc_compute_node_apps/inc_compute_app/NFN-producer-app.cpp:244-270 | Each completion takes one item off in flight plus waiting, requests leave the queue in the order they entered, and these and no others have started. |
| `NfnRuns.NodeDrains` | apps/inc_compute_node_apps/inc_compute_app/NFN-producer-app.cpp:244-287 | Without arrivals, completions remain possible until in flight plus waiting of them have happened; then both are empty and all resources free. |
| `NfnSweep.ResolveEffect` | apps/inc_compute_node_apps/inc_compute_app/NFN-producer-app.cpp:428-553 | A nested resolution leaves switches alone and either puts one entry in front or erases at most the first of its name. |
| `NfnSweep.SweepKeepsSuffix` | apps/inc_compute_node_apps/inc_compute_app/NFN-producer-app.cpp:345-347 | Whatever the nested resolutions do, the part of the table that the sweep has passed survives as the end of the final table. |
| `NfnSweep.DataClears` | apps/inc_compute_node_apps/inc_compute_app/NFN-producer-app.cpp:345-425 | Duplicates and nested executions included: if no completed entry answers FETCH, no entry is left waiting for the arrived name. |
| `NfnSweep.FetchSkipsNext` | apps/inc_compute_node_apps/inc_compute_app/NFN-producer-app.cpp:492 | After a nested FETCH the next entry is in the final table untouched. |
| `NfnSweep.DataHandlesOnce` | apps/inc_compute_node_apps/inc_compute_app/NFN-producer-app.cpp:345-425 | With one entry per name and no nested FETCH, each request that the arrival completes is started, queued, forwarded or rejected exactly once, and no other is. |
| `NfnSweep.FetchWaits` | apps/inc_compute_node_apps/inc_compute_app/NFN-producer-app.cpp:458-493 | Each entry that FETCH inserts waits for everything that was fetched, and that is not nothing. |
| `NfnSweep.SafeAboveExactly` | apps/inc_compute_node_apps/inc_compute_app/NFN-producer-app.cpp:345-425 | At every position, with the entries behind it cleared and the ones below it not answering FETCH: the rest of the sweep clears the arrived name if and only if the completed entry does not answer FETCH. |
| `NfnWakeUps.NoWakeUpLostExactly` | apps/inc_compute_node_apps/inc_compute_app/NFN-producer-app.cpp:342-493 | From power-on: in every run each pending name is on the list of names asked for, if and only if every installed function takes no argument, or takes one and is enabled. |
| `NfnWakeUps.StepKeepsAwaited` | apps/inc_compute_node_apps/inc_compute_app/NFN-producer-app.cpp:342-493 | Every event keeps each pending name asked for, if each entry that an arrival completes asks for the arrived name again or answers no FETCH. |
| `NfnWakeUps.SimpleIsConsiderate` | apps/inc_compute_node_apps/inc_compute_app/NFN-producer-app.cpp:428-493 | On a node of functions with at most one argument, on or excluded when they have one, each arrival is of that kind. |
| `NfnWakeUps.LosesWakeUpExactly` | apps/inc_compute_node_apps/inc_compute_app/NFN-producer-app.cpp:345-493 | At every position, likewise: the rest of the sweep keeps every pending name asked for if and only if the completed entry does not answer FETCH or asks for the arrived name again. |
| `NfnWakeUps.FetchForgets` | apps/inc_compute_node_apps/inc_compute_app/NFN-producer-app.cpp:345-493 | Otherwise the next entry is left waiting for a name nobody asked for. |
| `NfnWakeUps.ManyArgumentsLose` | apps/inc_compute_node_apps/inc_compute_app/NFN-producer-app.cpp:342-493 | For every function of two or more arguments, a run from power-on that loses a wake-up. |
| `NfnWakeUps.CodeDragLoses` | apps/inc_compute_node_apps/inc_compute_app/NFN-producer-app.cpp:342-493 | For every disabled function of one argument, a run from power-on in which the arrival of its code loses a wake-up. |
| `Consumer.ConsumerApp.ScheduleNextPacket` | apps/inc_compute_node_apps/inc_compute_app/inc-consumer-app.cpp:97-111 | Schedules a send the first time, and later exactly when none is running. |
| `Consumer.ConsumerApp.WillSendOutInterest` | apps/inc_compute_node_apps/inc_compute_app/inc-consumer-base-app.cpp:328-343 | Timeout and first stamp are inserted only if absent, the last stamp is replaced, the counter grows by one modulo 2^32. |
| `Consumer.ConsumerApp.SendPacket` | apps/inc_compute_node_apps/inc_compute_app/inc-consumer-base-app.cpp:182-227 | Sends the least number queued for retransmission, else the next fresh one unless the limit is reached, and schedules the next send. |
| `Consumer.ConsumerApp.ReportDelays` | apps/inc_compute_node_apps/inc_compute_app/inc-consumer-base-app.cpp:284-292 | What the two delay traces report. |
| `Consumer.ConsumerApp.OnData` | apps/inc_compute_node_apps/inc_compute_app/inc-consumer-base-app.cpp:233-302 | Reports the delays and removes the number from all five indexes. |
| `Consumer.ConsumerApp.OnTimeout` | apps/inc_compute_node_apps/inc_compute_app/inc-consumer-base-app.cpp:314-326 | Queues the number for retransmission and schedules a send. |
| `Consumer.ConsumerApp.CheckRetxTimeout` | apps/inc_compute_node_apps/inc_compute_app/inc-consumer-base-app.cpp:135-157 | For any order of equal stamps the loop with its early break terminates and moves exactly the numbers with stamp + rto <= now. |
| `Consumer.ConsumerApp.StartApplication` | apps/inc_compute_node_apps/inc_compute_app/inc-consumer-base-app.cpp:160-168 | Becomes active and schedules a send. |
| `Consumer.ConsumerApp.StopApplication` | apps/inc_compute_node_apps/inc_compute_app/inc-consumer-base-app.cpp:170-180 | Cancels the scheduled send and becomes inactive. |
| `ConsumerRuns.StepKeepsInv` | apps/inc_compute_node_apps/inc_compute_app/inc-consumer-base-app.cpp:135-343 | Every event keeps the books, the single send event and the stamps. |
| `ConsumerRuns.EveryRunKeepsInv` | apps/inc_compute_node_apps/inc_compute_app/inc-consumer-base-app.cpp:135-343 | From any first sequence number, in every reachable state: the issued, unacknowledged numbers are the disjoint union of timeouts and retransmissions and the keys of the three maps; at most one send is pending, and one is if anything awaits retransmission while active; stamps are first and latest transmission times, counters the number of transmissions modulo 2^32. |
| `ConsumerRuns.AckedStaysSilent` | apps/inc_compute_node_apps/inc_compute_app/inc-consumer-base-app.cpp:182-302 | In every continuation, an acknowledged number is never transmitted again. |
| `ConsumerRuns.StepSends` | apps/inc_compute_node_apps/inc_compute_app/inc-consumer-base-app.cpp:182-227 | A step never transmits an acknowledged number and never rewrites what was sent. |
| `ConsumerRuns.DelaysAreOrdered` | apps/inc_compute_node_apps/inc_compute_app/inc-consumer-base-app.cpp:284-296 | Both delays are reported exactly for outstanding numbers, and the full delay is never smaller than the last one. |
| `ConsumerRuns.TimeoutsAreServed` | apps/inc_compute_node_apps/inc_compute_app/inc-consumer-base-app.cpp:135-157 | A timed-out number stays outstanding, is queued for retransmission exactly when its stamp has expired, and then a send is scheduled. |
| `ConsumerEffects.ReportTellsTransmissions` | apps/inc_compute_node_apps/inc_compute_app/inc-consumer-base-app.cpp:284-292 | The reported delays are the times since the latest and since the first transmission, the count is their number; nothing is reported for numbers that are not outstanding. |
| `ConsumerEffects.SendInFields` | apps/inc_compute_node_apps/inc_compute_app/inc-consumer-base-app.cpp:182-227 | Transmitted is the least number queued for retransmission, else the next fresh one below the limit, else none; after a transmission a send is to come. |
| `ConsumerEffects.ReceiveInFields` | apps/inc_compute_node_apps/inc_compute_app/inc-consumer-base-app.cpp:233-302 | Data removes its number from all five indexes and no other; a stopped application ignores it. |
| `ConsumerEffects.CheckInFields` | apps/inc_compute_node_apps/inc_compute_app/inc-consumer-base-app.cpp:135-157 | Exactly the expired numbers move from the timeouts to the retransmissions, and nothing is transmitted. |
| `ConsumerEffects.StopInFields` | apps/inc_compute_node_apps/inc_compute_app/inc-consumer-base-app.cpp:170-180 | Stopping leaves no send to come and changes nothing else. |
| `ConsumerEffects.StoppedIsSilent` | apps/inc_compute_node_apps/inc_compute_app/inc-consumer-base-app.cpp:182-186 | In every run from a stop to the next start nothing is transmitted. |
| `ConsumerRuns.SentinelExactly` | apps/inc_compute_node_apps/inc_compute_app/inc-consumer-base-app.cpp:189-205 | Sending keeps the books if and only if the fresh number it would take is not the sentinel. |
| `Text.SplitJoin` | apps/orchestration/orchestration_communication_app/message_handler.cpp:84-90 | Splitting undoes joining for pieces free of the separator. |
| `Text.JoinSplit` | apps/orchestration/orchestration_communication_app/message_handler.cpp:84-90 | Joining undoes splitting for every text. |
| `Text.SlashSplit` | apps/orchestration/orchestration_communication_app/message_handler.cpp:252-254 | A text of pieces, each behind a slash, splits into an empty piece and those pieces. |
| `Text.StoiOfDigits` | apps/orchestration/orchestration_communication_app/message_handler.cpp:94-98 | Parsing the decimal digits of n gives n if and only if n is an int; otherwise it throws. |
| `Text.StoiReads` | apps/orchestration/orchestration_communication_app/message_handler.cpp:94-98 | What follows the digits is ignored, a sign is obeyed, and values that are no int throw. |
| `Text.StoiSkipsAndThrows` | apps/orchestration/orchestration_communication_app/message_handler.cpp:94-98 | White space in front is skipped; without a digit there, possibly behind a sign, the parser throws. |
| `Text.DigitsInjective` | utils/dataset_generation/hier-topology-data-generation.cpp:439 | Different numbers print differently, so generated names are different. |
| `NodeInfoStorage.SetNodeInFields` | apps/orchestration/storage/node-info-storage.cpp:237-345 | Each node setter writes its own field of the chosen view and nothing else, but the CPU setter of the current view writes RAM. |
| `NodeInfoStorage.SetFunctionInFields` | apps/orchestration/storage/node-info-storage.cpp:733-995 | Each function setter writes its own field of the chosen row and nothing else; counters of the default view become zero, inputs are appended. |
| `NodeInfoStorage.Storage.AddNodeToTable` | apps/orchestration/storage/node-info-storage.cpp:150-157 | Adds a new record and keeps an existing one. |
| `NodeInfoStorage.Storage.SetNode` | apps/orchestration/storage/node-info-storage.cpp:237-345 | A setter changes one field of one view of one record, with the RAM of the current view written for its CPU; an unknown node changes nothing. |
| `NodeInfoStorage.Storage.SetFunction` | apps/orchestration/storage/node-info-storage.cpp:733-995 | A setter changes one field of one row of one view; inputs are appended, not replaced. |
| `NodeInfoStorage.Storage.GetFuncIndex` | apps/orchestration/storage/node-info-storage.cpp:644-670 | The first row with the name in the chosen view, or not found. |
| `StatusMessage.NdnOrchestrationComputeNodeApp.StatusFetchHandler` | apps/inc_compute_node_apps/node_orchestration_ndn_app/ndn-orchestration-node-app.cpp:199-234 | The streamed text is the specified message with the busy counter as it was, or 0 for a bootstrap request, and the counter is reset. |
| `StatusMessage.NdnOrchestrationComputeNodeApp.PrintFunctions` | apps/inc_compute_node_apps/node_orchestration_ndn_app/ndn-orchestration-node-app.cpp:220-230 | The loop prints every function row in turn. |
| `MessageHandler.OrchestrationMessageHandler.ParseFunctions` | apps/orchestration/orchestration_communication_app/message_handler.cpp:152-178 | The token loop reads the rows behind the first slash, or throws at the first bad one. |
| `MessageHandler.OrchestrationMessageHandler.ParseProvidedData` | apps/orchestration/orchestration_communication_app/message_handler.cpp:130-148 | The token loop reads the data rows; null is the empty list. |
| `MessageHandler.OrchestrationMessageHandler.BootstrapPhaseHandler` | apps/orchestration/orchestration_communication_app/message_handler.cpp:79-185 | Adds the parsed record if the table does not have the node; a message that throws adds nothing. |
| `MessageHandler.OrchestrationMessageHandler.NodeStatusFetchHandler` | apps/orchestration/orchestration_communication_app/message_handler.cpp:187-286 | Calls the setters token by token; an exception leaves what was written before it. |
| `MessageHandler.OrchestrationMessageHandler.FetchFunctions` | apps/orchestration/orchestration_communication_app/message_handler.cpp:253-281 | Rows of unknown functions are skipped, rows of known ones set field by field. |
| `MessageHandler.OrchestrationMessageHandler.HandleMessage` | apps/orchestration/orchestration_communication_app/message_handler.cpp:62-77 | Bootstrap answers and status answers go to their handlers; anything else changes nothing. |
| `StatusExchange.MessageFormat` | apps/inc_compute_node_apps/node_orchestration_ndn_app/ndn-orchestration-node-app.cpp:207-219 | The message is its ten fields, in order under their keys, joined by semicolons. |
| `StatusExchange.RowsFormat` | apps/inc_compute_node_apps/node_orchestration_ndn_app/ndn-orchestration-node-app.cpp:220-230 | The functions field is, behind a slash each, the nine pieces of a function joined by colons. |
| `StatusExchange.BootstrapNode` | apps/orchestration/orchestration_communication_app/message_handler.cpp:79-185 | A node that answers a bootstrap request is afterwards in the table with every field it reported, in both views; a node that was there, and all others, are as before; the handler throws if and only if a number is no int. |
| `StatusExchange.RefreshNode` | apps/orchestration/orchestration_communication_app/message_handler.cpp:187-286 | After the answer to a status request, every field of the current view of the node is the reported one but the CPU; default views and other records are as before. |
| `StatusRoundTrip.RowParses` | apps/inc_compute_node_apps/node_orchestration_ndn_app/ndn-orchestration-node-app.cpp:220-229 | A printed function row splits into its nine fields and parses to the row, or throws exactly when a number is no int. |
| `StatusRoundTrip.MessageSplits` | apps/inc_compute_node_apps/node_orchestration_ndn_app/ndn-orchestration-node-app.cpp:207-231 | The printed message splits into exactly its ten fields. |
| `StatusRoundTrip.BootstrapRoundTrip` | apps/orchestration/orchestration_communication_app/message_handler.cpp:79-185 | For every node with separator-free texts, bootstrap of its own printed message yields exactly its record, alike in both views, and throws if and only if a parsed number is no int. |
| `StatusRefresh.InputsRoundTrip` | apps/orchestration/orchestration_communication_app/message_handler.cpp:169-175 | A list of inputs is read back if and only if it is not the single input null. |
| `StatusRefresh.DataRoundTrip` | apps/orchestration/orchestration_communication_app/message_handler.cpp:128-149 | The data list is read back exactly when all sizes are ints; otherwise the handler throws. |
| `StatusRefresh.FetchRefreshes` | apps/orchestration/orchestration_communication_app/message_handler.cpp:187-286 | A status message of a known node changes exactly the current view of that node: RAM, ROM, busy counter, links, runtimes, data and known rows. The handler throws if and only if a number that it reads is no int. |
| `StatusRefresh.FetchKeepsDefaults` | apps/orchestration/orchestration_communication_app/message_handler.cpp:187-286 | For every message, parsed to its end or not: no node is added or removed and no default view or name changes. |
| `StatusRefresh.FetchLeavesOthers` | apps/orchestration/orchestration_communication_app/message_handler.cpp:187-286 | A printed message, parsed to its end or not, changes the record of its own node only. |
| `StatusRefresh.FetchRowsMerge` | apps/orchestration/orchestration_communication_app/message_handler.cpp:253-281 | The row loop merges the reported rows, and stops exactly when a known row holds a number that is no int. |
| `StatusRefresh.MergeRowsIsExact` | apps/orchestration/orchestration_communication_app/message_handler.cpp:264-279 | No row is added, removed or renamed; a reported row takes over the report with its inputs appended; others stay. |
| `StatusRefresh.RamNeedsItsPlace` | apps/orchestration/storage/node-info-storage.cpp:331-345 | Printed as it is, the message leaves the right RAM; with the two fields swapped, the RAM would be the number of cores. |
| `Snapshots.BootstrapMirrors` | apps/orchestration/orchestration_communication_app/message_handler.cpp:150-179 | The rows of a bootstrapped node mirror states and counters of its functions. |
| `Snapshots.RefreshMirrors` | apps/orchestration/orchestration_communication_app/message_handler.cpp:253-281 | Whatever the rows were, once a report on all of them is merged they mirror the node. |
| `Snapshots.ReportsMakeSnapshot` | apps/orchestration/orchestration_communication_app/message_handler.cpp:187-286 | After one readable report of each known node, the table is the snapshot that an orchestration round assumes. |
| `FunctionSwitch.OrchestrationManagementApp.SumCounters` | apps/orchestration/orchestration_management_app/orchestration-management-app.cpp:163-167 | The int sum of the counters with 32-bit wrap-around. |
| `FunctionSwitch.OrchestrationManagementApp.DisablePass` | apps/orchestration/orchestration_management_app/orchestration-management-app.cpp:157-208 | Sends a Disable command exactly to busy nodes with an idle enabled function, and collects the hot names. |
| `FunctionSwitch.OrchestrationManagementApp.EnablePass` | apps/orchestration/orchestration_management_app/orchestration-management-app.cpp:210-253 | Sends, backwards over the table, the second pass's Enable commands. |
| `FunctionSwitch.OrchestrationManagementApp.RetryPass` | apps/orchestration/orchestration_management_app/orchestration-management-app.cpp:254-285 | Sends, backwards over the table, the third pass's Enable commands. |
| `FunctionSwitch.OrchestrationManagementApp.FunctionSwitchHandler` | apps/orchestration/orchestration_management_app/orchestration-management-app.cpp:146-286 | The three passes over one snapshot, in their order. |
| `FunctionSwitch.NodeFunctionSwitch` | apps/inc_compute_node_apps/node_orchestration_ndn_app/ndn-orchestration-node-app.cpp:250-286 | The loop over the command's functions enables and takes one exclusion away, or disables and adds one; the payload reports the last one. |
| `SwitchRound.CommandDecodes` | apps/orchestration/orchestration_management_app/orchestration-management-app.cpp:172-182 | From the command string the node decodes exactly the node, the operation and the functions that were encoded. |
| `SwitchRound.PassDelivers` | apps/inc_compute_node_apps/node_orchestration_ndn_app/ndn-orchestration-node-app.cpp:250-286 | Delivering the commands of a pass applies to every node exactly its own list, and to no other. |
| `SwitchRound.RoundDelivers` | apps/orchestration/orchestration_management_app/orchestration-management-app.cpp:146-286 | After the round every known node has processed its three lists in order. |
| `SwitchRound.RoundEffect` | apps/orchestration/orchestration_management_app/orchestration-management-app.cpp:146-286 | For every snapshot and reported function: on after the round if and only if on and not turned off, or selected by the second pass; never both; the number of its exclusions changes by exactly the commands that name it. |
| `SwitchRound.RoundInWords` | apps/orchestration/orchestration_management_app/orchestration-management-app.cpp:146-286 | An idle enabled function of a busy node ends disabled and excluded; one that ran stays as it was; a disabled one is enabled exactly when the second pass selects it, so the third adds none; it is readmitted exactly when excluded no more often than named. |
| `SwitchRound.RoundInFields` | apps/orchestration/orchestration_management_app/orchestration-management-app.cpp:146-286 | In the fields of the rows alone: whether a function is on after the round, how often it is excluded, and its counters. A disabled one is on if and only if it was missed more than 5 times, or its node's 32-bit sum is 0 or below the limit and a node with a positive sum has it on with more than 8 executions. |
| `SwitchRound.DisableFirst` | apps/orchestration/orchestration_management_app/orchestration-management-app.cpp:157-286 | All Disable commands of a round are sent before all Enable commands. |
| `SwitchRound.RoundLeavesOthers` | apps/orchestration/orchestration_management_app/orchestration-management-app.cpp:146-286 | Nodes outside the table are untouched. |
| `SwitchRound.DisableAllEffect` | apps/inc_compute_node_apps/node_orchestration_ndn_app/ndn-orchestration-node-app.cpp:269-276 | A Disable list turns off exactly its functions and adds one exclusion per mention. |
| `SwitchRound.EnableAllEffect` | apps/inc_compute_node_apps/node_orchestration_ndn_app/ndn-orchestration-node-app.cpp:260-268 | An Enable list turns on exactly its functions and takes away one exclusion per mention while there is one. |
| `SwitchRound.OtherOperationIsIgnored` | apps/inc_compute_node_apps/node_orchestration_ndn_app/ndn-orchestration-node-app.cpp:256-277 | Any other operation changes nothing on the node. |
| `SwitchRound.BusyExactly` | apps/orchestration/orchestration_management_app/orchestration-management-app.cpp:163-168 | A node is busy if and only if its executions, as a 32-bit int, are positive; below 2^31 executions, if and only if one of its functions has run. |
| `SwitchRound.HotExactly` | apps/orchestration/orchestration_management_app/orchestration-management-app.cpp:186-189 | The hot names are exactly those that some busy node has on and has run more than eight times. |
| `Workload.GenerateFuncList` | utils/dataset_generation/hier-topology-data-generation.cpp:430-459 | The functions get, in order, the positive numbers among the drawn ones, and the signature of that many operands; None when those run out. |
| `Workload.GenerateInputList` | utils/dataset_generation/hier-topology-data-generation.cpp:461-488 | The list is the first operands that rejection keeps, pairwise distinct and as many as asked for; None when the random values run out before. |
| `Draws.InputListFinishesExactly` | utils/dataset_generation/hier-topology-data-generation.cpp:475-484 | Whatever has been drawn, some further values complete the list, if and only if at most numData + 1 - numData / 10 operands are asked for. |
| `Draws.NeverStuckExactly` | utils/dataset_generation/hier-topology-data-generation.cpp:475-484 | For all random values no list that is too short contains every operand in its text, if and only if the same bound holds. |
| `Draws.OccursExactly` | utils/dataset_generation/hier-topology-data-generation.cpp:482 | An operand occurs in the text of a list if and only if the digits of a listed number begin with its digits. |
| `Draws.LeavesStick` | utils/dataset_generation/hier-topology-data-generation.cpp:475-484 | Beyond the bound, the failing input: after the numbers without extensions in range, nothing is ever kept again. |
| `Draws.TenRefusesOne` | utils/dataset_generation/hier-topology-data-generation.cpp:475-484 | Eleven operands up to number 10 are never reached once 10 is drawn first. |
| `Draws.FuncListFinishesExactly` | utils/dataset_generation/hier-topology-data-generation.cpp:440-442 | The functions can all get an input if and only if none is asked for or the greatest number of inputs is positive. |
| `Draws.ProvidedDataFinishesExactly` | utils/dataset_generation/hier-topology-data-generation.cpp:505-529 | The new names can all be found if and only if enough operands in range are unused. |
| `Workload.GenerateProvidedData` | utils/dataset_generation/hier-topology-data-generation.cpp:505-529 | Appends the first names that rejection keeps; None when the random values run out before. |
| `Workload.KeptAreOperands` | utils/dataset_generation/hier-topology-data-generation.cpp:475-484 | Rejecting what occurs in the text so far keeps pairwise distinct operands in range. |
| `Workload.KeptNames` | utils/dataset_generation/hier-topology-data-generation.cpp:514-527 | The names kept are without repetition and are exactly the old ones and the ones drawn. |
| `Workload.GenerateFuncFirstPrefix` | utils/dataset_generation/hier-parser-node-info.cpp:162-183 | The loop builds the specified prefix and stops at null. |
| `Workload.InRangeExactly` | utils/dataset_generation/hier-topology-data-generation.cpp:441 | Each number k of the range is what k - low, plus any multiple of the size of the range, reduces to. |
| `Workload.SignatureAlternates` | utils/dataset_generation/hier-topology-data-generation.cpp:449-455 | The inputs of a signature are Operand_1 and Operand_0 in turn. |
| `Workload.NoInputs` | utils/dataset_generation/hier-parser-node-info.cpp:169-174 | The prefix of a request without inputs ends at the function. |
| `Workload.SignatureRoundTrip` | utils/topology/inc-annotated-topology-reader.cpp:445-454 | The reader counts in a generated signature the number of inputs it was made for. |
| `Workload.PrefixParses` | utils/dataset_generation/hier-parser-node-info.cpp:162-183 | The prefix of a generated request is the name of that function with those operands. |
| `Workload.GeneratedRequestFits` | apps/inc_compute_node_apps/inc_compute_app/NFN-interest-resolution-engine.cpp:69-173 | From the generated request with its sequence number the engine extracts the same function and operands, as many as the reader's parameter number, and never answers NACK. |
| `Topology.GenerateComputeLinks` | utils/dataset_generation/hier-topology-data-generation.cpp:226-261 | The two running counters give node c its parent: the cloud, the gateway, or tier-2 node 2 + (c - t2 - 2) / 2. |
| `Topology.GenerateFullShares` | utils/dataset_generation/hier-topology-data-generation.cpp:262-271 | Each leaf gets its share of consecutive consumers. |
| `Topology.GenerateRemainder` | utils/dataset_generation/hier-topology-data-generation.cpp:272-280 | The remaining consumers go one each to the first leaves. |
| `Topology.GenerateLinks` | utils/dataset_generation/hier-topology-data-generation.cpp:225-280 | The whole link section for all tier sizes and numbers of consumers. |
| `Topology.TreeExactly` | utils/dataset_generation/hier-topology-data-generation.cpp:225-280 | The links form a spanning tree rooted at node 0, each vertex the child of one link, if and only if the third tier is twice the second. |
| `Topology.EachConsumerOnce` | utils/dataset_generation/hier-topology-data-generation.cpp:262-280 | For all sizes, exactly one link leads to each consumer, and it starts at a tier-3 leaf. |
| `Topology.TiersAreLinked` | utils/dataset_generation/hier-topology-data-generation.cpp:226-261 | The cloud leads to the gateway, the gateway to each tier-2 node in turn, and each of these to two leaves of its own, in turn. |
| `Topology.LeafOfConsumer` | utils/dataset_generation/hier-topology-data-generation.cpp:262-280 | Leaf i serves consumers i * q up to i * q + q, and consumer t3 * q + i if there is one. |
| `Topology.LoadsAreEven` | utils/dataset_generation/hier-topology-data-generation.cpp:262-280 | Leaf i serves consumers / t3 of them, and one more for i below the remainder, so loads differ by at most one. |
| `Zipf.CreateDistribution` | utils/dataset_generation/hier-topology-data-generation.cpp:553-568 | For any positive weights the vector holds the cumulative shares. |
| `Zipf.Normalise` | utils/dataset_generation/hier-topology-data-generation.cpp:562-566 | Dividing in place by an entry that is overwritten last is correct. |
| `Zipf.CdfShape` | utils/dataset_generation/hier-topology-data-generation.cpp:553-568 | The vector rises strictly from 0 to 1, and its gaps are weight over total. |
| `Zipf.Next` | utils/dataset_generation/hier-topology-data-generation.cpp:582-590 | The scan returns the first entry not below p, or 1 when there is none. |
| `Zipf.Sample` | utils/dataset_generation/hier-topology-data-generation.cpp:570-596 | For every p in (0, 1] the result is the one index with cdf[i-1] < p <= cdf[i]. |
| `UdpFill.UdpOrchestrationCommunicationApp.SetDataSize` | apps/orchestration/orchestration_communication_app/udp_orchestration_communication_app/udp-orchestration-communication-app.cpp:214-228 | Drops the buffer and sets the packet size; what Send asserts is kept. |
| `UdpFill.UdpOrchestrationCommunicationApp.SetFillByte` | apps/orchestration/orchestration_communication_app/udp_orchestration_communication_app/udp-orchestration-communication-app.cpp:259-276 | The buffer is n times the byte; what Send asserts is kept. |
| `UdpFill.UdpOrchestrationCommunicationApp.SetFillText` | apps/orchestration/orchestration_communication_app/udp_orchestration_communication_app/udp-orchestration-communication-app.cpp:237-257 | The buffer is the text and a zero, cut where the uint32 size wraps; what Send asserts is kept. |
| `UdpFill.UdpOrchestrationCommunicationApp.SetFillPattern` | apps/orchestration/orchestration_communication_app/udp_orchestration_communication_app/udp-orchestration-communication-app.cpp:278-315 | For every size: byte i = pattern[i mod length] for every i and what Send asserts is kept, or a copy overruns the buffer, exactly when the size rounded up to whole patterns reaches 2^32. |
| `UdpFill.UdpOrchestrationCommunicationApp.CopyWholePatterns` | apps/orchestration/orchestration_communication_app/udp_orchestration_communication_app/udp-orchestration-communication-app.cpp:297-304 | The loop stops where the uint32 recursion says, with whole patterns in place, or before the copy that overruns. |
| `UdpFill.FilledExactly` | apps/orchestration/orchestration_communication_app/udp_orchestration_communication_app/udp-orchestration-communication-app.cpp:297-306 | The uint32 loop stops at the last block if and only if the size rounded up to whole patterns is below 2^32; otherwise a copy overruns the buffer. |
| `UdpFill.TwoBytesOverrun` | apps/orchestration/orchestration_communication_app/udp_orchestration_communication_app/udp-orchestration-communication-app.cpp:297-306 | A pattern of two bytes overruns a buffer of 2^32 - 1 bytes. |

## Left out

- FIB and PIT changes (`notifyFib*`, the bookkeeping in `ForwardInterest`): forwarding is one packet in the outbox.
- Packet encoding, freshness, nonces, hop counts, traces, logs, timers for queue statistics.
- Re-entrance: the simulator may deliver a packet while it is being sent; here sends go to an outbox and arrivals are later events.
- The content store is an arbitrary set of names, fixed during one event; as the engine asks it for fresh Data only, what has just arrived may be missing. The branch for `DataCacheAvailable == false` is not part of this model.
- Requests for code or plain data (`OnInterest` outside `/lambda`): a single reply without state.
- Several producer applications on one node: they share the fill counter but not the waiting list, so the queue claims are about one.
- The queue actions "push" and "nack": constants switch them off.
- ResolutionEngine.GetFetchDecisions: for a function that is not installed, the source's lookup inserts a null entry into the function map; here the node stays as it is.
- NfnProducer.NfnProducerApp.OnInterest: an interest that names several functions or an unknown one, on which the source fails on a null reference or works with two different functions.
- NfnRuns.EveryRunKeepsInv: interests have one `Function` component, which names an installed function; on others the source fails on a null reference. No function is called `Function`.
- NfnProducer.NfnProducerApp.DoExecution: execution times are not modelled; executions in flight may end in any order.
- ConsumerRuns.EveryRunKeepsInv: only scheduled sends fire, time does not run backwards, and the sentinel is not reached by fresh numbers; the round-trip estimator is any timeout.
- Consumer.ConsumerApp.OnData: Data whose last component is no sequence number, on which the source throws.
- Components are compared as their text; escaping and normalisation of names are not modelled. A name in a table is its text with a leading slash.
- The order of a function map in a message is any order; the order of the table is any enumeration of it.
- MessageHandler.OrchestrationMessageHandler.NodeStatusFetchHandler: a function row of an unknown node, and a field without a value, end the handler here; the source has no defined result.
- FunctionSwitch.NodeFunctionSwitch: the payload of a command without functions or with another operation, which the source leaves undefined.
- SwitchRound.RoundEffect: commands reach the nodes in the order sent; loss and delay are not modelled. The threshold for under-used nodes is any function of the node.
- The UDP command channel, sockets, addresses and sending.
- Workload.GenerateInputList: random values are a finite list; where the model returns None the source goes on drawing, to an end or for ever as `Draws` says. Input lists for no input are `null` and carry no operands.
- The weights of the distribution are any positive reals: rounding and the power function are not modelled. The draw is any p in (0, 1].
- Topology.GenerateLinks: one cloud and one gateway; link speeds, delays and the orchestrator's own links are not modelled. Nodes are numbered in the order of the node list.
- UdpFill.UdpOrchestrationCommunicationApp.SetFillPattern: a pattern of length zero, for which the source does not end; what is in memory after an overrun.
- Reading and writing files, start and stop times, lifetimes, hop distances (Dijkstra from a library), older data-set tools.
