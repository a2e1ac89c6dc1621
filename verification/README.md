# Mongo Production System: verified model

A Dafny 4.11 model of the parts of the Mongo Production System whose correctness is hardest to see from the code:
the tool scheduler, the robot supervisor protocol from the controller's two threads to the backend's records, the
mill supervisor with its crash-durable agent, the byte-stream codecs between them, and four smaller algorithms
(log rotation, Primary-interface parsing, Modbus output banks, the queue migration). `dafny verify dfyconfig.toml`
checks all of it.

## How it is laid out

| files | what they model |
|---|---|
| `ToolPlans`, `ScheduleSearch` | `app/autoschedule.py`: the keep-tool-needed-soonest plan for a fixed order, and the search over orders |
| `Bytes`, `Frames`, `FrameStreams`, `FrameDamage` | the checksummed int32 frames of `app/robot_supervisor.py`, their resynchronising receive buffer, and the damage a checksum finds |
| `RobotProgram`, `RobotScript` | the supervisor program generated by `app/robot_scripts.py`, once as functions on a state value and once as a class assigning to its globals |
| `RobotSafety`, `RobotTheorems`, `RobotLinks` | its invariant over every run, what the invariant means, and when the link is lost |
| `RobotRuns`, `RobotControls`, `RobotAnswers` | what is sent in runs from any ready state, for control commands, rejections and disturbed motions, and in answer to repeats |
| `RobotSeeds` | which seeds of a restart are high enough |
| `SupervisorSeed` | seeding the generated program with the durable sequence |
| `OrderedDicts`, `RobotManager`, `RobotRecords` | the backend's records |
| `RobotEndToEnd`, `RobotDeliveries` | robot, wire and backend together |
| `MillFrames`, `MillStreams` | the length-prefixed messages of `app/mill_supervisor.py` and `app/mill_supervisor_agent.py` |
| `MillStatus`, `MillAgent`, `MillAgentProcess` | the completion proof, and the agent as a value and as a class |
| `MillAgentSafety`, `MillAgentTheorems` | its invariants over crashes and exceptions at any statement, and what they mean |
| `MillAgentOutcomes`, `MillAgentRepeats`, `MillAgentRuns`, `MillAgentGreetings` | the outcomes it reports, what becomes of repeated sequences, how each command is answered, and what a greeting carries |
| `MillManager`, `MillEndToEnd` | the backend's mill records, and agent, wire and backend together |
| `Diagnostics`, `PrimaryPackages`, `ModbusOutputs`, `PoolSlots` | the smaller algorithms |

Code that only computes is modelled by functions. Code that assigns is modelled by methods and classes, each proved
against a function of its state; the theorems are about those functions. The robot's threads and the mill agent are
state machines whose steps run from one wait, or one statement that can fail, to the next. Sockets, clocks, disks and
the machines themselves are steps the environment may take at any time: connections open, fail and drop, reads return
any words or nothing, a process crashes between any two statements, a write raises with or without having taken effect.

## What is proved

**Tool scheduler.** For every order of jobs that each fit the magazine, the plan is feasible and no feasible sequence
of magazine contents from the same tools, with any number of tools changed between jobs, has fewer loads or fewer
unloads. Its steps tell the operator exactly what to load and unload, and following them gives the contents they name.
The proof needs no exchange argument: at every step, for every later job, the loads the plan has paid plus the tools
it holds for the jobs up to there are bounded by the same sum for the other policy. With the exact search over up to
eight jobs this gives a plan that no order with any policy beats. Above eight jobs the result is a permutation no
worse than the original, reached by swaps that each strictly lower the key from a greedy order of least key, either by
five or more of them or until no single swap helps. Among orders with equal movements and loads, the one whose
pallets' original positions come first is preferred. Equal jobs are the exception: the greedy orders drop every copy
of their seed, and keep all jobs exactly when the seed occurs once; more than eight equal jobs are planned as one.

**Frames.** Whatever is cut where, the backend gives back the frames a plain scanner finds, as long as reads stay
aligned. A frame with one integer or one byte changed is found damaged at either end, unless the change is a multiple
of 65521.

**Robot.** Whatever arrives at the controller, in every interleaving of its threads with reconnects and with restarts
seeded no lower than what was accepted, sequences are taken one after another, each enters the dispatcher at most
once, and every COMPLETED event is true: the dispatcher returned for that sequence, no damaged, unexpected or
conflicting frame was heard since its acceptance, no link was lost and no limit of silent reads in a row passed during
the move, or it was an in-order clear-latch or maintenance command. The link is lost exactly when that limit is
reached. A repeat of the last command is answered with what the log says became of it, and a greeting brings the
backend in step. The backend's records, and the answers of its waits, inherit this end to end, over a wire that loses,
repeats and reorders; a socket that only cuts its bytes anywhere is such a wire. From any ready state a known command
completes given its frame and heartbeats, and the caller waiting at the backend is told so; an unknown one wedges the
program for good. Events are refused exactly when they contradict or come behind what is recorded. A restart is safe
exactly when its seed is at least every sequence already dispatched.

**Mill.** The agent begins work for strictly increasing sequences across any crashes, since the state file names a
sequence before its program is started. Every greeting is true and, unless a crash lost what memory held, carries the
result last decided; a result in the state file reaches the backend after any crash, by the greeting. If no repeat of
the last sequence arrives while the last result is another's completion, every completion reported, by event or by
greeting, follows a probe, or an idle observation with the completion file proving the normal end of the very program
that was begun, where proof was required. The condition is the exact one: in every state reached without a crash that
loses what memory holds, such a repeat is answered with a completion that is false; a crash that does lose it can make
the answer true by accident, and a run shows that. If no sequence is repeated, a completion is on disk before it is
sent; and if, besides, no exception falls within the attempt to start a program, nor lets a program's outcome out
without its being forgotten, no sequence gets two different outcomes and none reported faulted is active. Each of
these conditions is needed: what happens without it is proved too. Both ends make the same of any bytes, however cut,
as long as the backend reads what the agent reads; an empty object is where they part.

## Where the code and its descriptions differ

- `decode_frame` refuses a frame without fields that `encode_frame` produces, so the round trip holds exactly when there is a field.
- The generated program's comment says duplicates are answered without rerunning, which holds; but an unknown opcode leaves `mongo_motion_active` set (`app/robot_scripts.py:536-540`), after which no command is ever taken, not even a clear-latch (`UnknownOpcodeWedges`, `UnknownCommandWedges`).
- "No motion starts while latched" does not hold: the dispatcher does not look at the latch, so a motion starts latched exactly when a hostile frame was heard between its command's acceptance and its start (`StartsLatchedIff`, `LatchedCommandMoves`).
- A repeat of the last sequence that arrives before a rejection has been sent takes its place: the main loop waits for a rejection that is never sent, and takes no command any more (`app/robot_scripts.py:730-736`, `app/robot_scripts.py:805-810`, `RejectionIsLost`).
- `_discard_until_header` keeps 32-bit alignment exactly when it finds a header or the buffer is aligned.
- The mill agent answers a repeat of the sequence in flight with the previous sequence's result (`app/mill_supervisor_agent.py:281-284`, `RepeatInFlightIsMisreported`), reports a program as faulted while it runs if saving or sending its start fails, and as completed later on (`app/mill_supervisor_agent.py:311-326`, `FaultedThenCompleted`), keeps a partial message across reconnects (`app/mill_supervisor_agent.py:243`), and never gets past a bad length.
- The agent takes any JSON text as a message where the backend wants an object of its protocol version (`app/mill_supervisor_agent.py:41`, `app/mill_supervisor.py:56-60`, `EmptyObjectDivides`).
- With `backup_count` 0 the recorder still keeps a full file as a backup (`app/diagnostics.py:106-115`, `NoBackupsStillKeepOne`, `NoBackupsIff`).

## Model

| member | source | states |
|---|---|---|
| ToolPlans.SimulateToolPlan | app/autoschedule.py:28-71 | the loop computes the planned steps and counts, each step for its own job and loading and unloading what the contents before it make necessary, and refuses exactly an order with an oversized job, naming the first |
| ToolPlans.NextUseIsSoonest | app/autoschedule.py:21-25 | the next use of a tool is no later than any job that needs it |
| ToolPlans.RemovalsGoFurthest | app/autoschedule.py:42-48 | the tools evicted are the only set of as many as room is needed such that each is needed later than any kept, or as late with a smaller number |
| ToolPlans.PlanTells | app/autoschedule.py:49-70 | every step names its own job, loads what it needs and the magazine lacks, unloads what is needed last, and says what the magazine then holds |
| ToolPlans.FollowingTheSteps | app/autoschedule.py:49-70 | whoever follows the steps from the initial tools has each step's contents after it and the next job's tools in the magazine |
| ToolPlans.RunJobKeepsSoonest | app/autoschedule.py:38-52 | one job: only missing tools go in, tools go out only from a full magazine, and at every horizon nothing evicted is needed or everything kept is |
| ToolPlans.ToolsAreConserved | app/autoschedule.py:49-52 | for any policy, loads and unloads differ by the change in tools held |
| ToolPlans.KeepingSoonestKeepsUp | app/autoschedule.py:38-52 | for every prefix and every horizon the plan's loads and useful tools are paid for by any other policy's |
| ToolPlans.PlanIsOptimal | app/autoschedule.py:28-71 | the plan is feasible, its counts are those of its contents, and no feasible policy has fewer loads or unloads |
| ScheduleSearch.KeyLessIsStrictTotalOrder | app/autoschedule.py:74-80 | comparing plan keys is a strict total order |
| ScheduleSearch.NoWorseMeans | app/autoschedule.py:74-80 | one order is as good as another exactly when its plan has fewer movements, or as many and fewer loads, or as many of both and its pallets' original positions do not come later in the order of lists |
| ScheduleSearch.PermutationsAreOrders | app/autoschedule.py:115 | everything the exact search tries is a permutation of the jobs |
| ScheduleSearch.EveryOrderIsListed | app/autoschedule.py:115 | the exact search tries every permutation |
| ScheduleSearch.BestOf | app/autoschedule.py:121-127 | the order kept is the first in the list that no listed order has a lower key than; fails exactly when some order does not fit |
| ScheduleSearch.BestAddition | app/autoschedule.py:92-99 | the job added greedily gives the least key, and no earlier one gives the same |
| ScheduleSearch.GreedyOrder | app/autoschedule.py:89-102 | the greedy order from a seed takes a least-key addition at every place |
| ScheduleSearch.GreedyOrders | app/autoschedule.py:83-103 | the candidates are the original order and the greedy order of each seed |
| ScheduleSearch.GreedyKeepsAllJobs | app/autoschedule.py:91 | a greedy order is a permutation exactly when its seed occurs once |
| ScheduleSearch.CandidatesArePermutations | app/autoschedule.py:83-103 | for distinct jobs every candidate is a permutation |
| ScheduleSearch.EqualJobsAreDropped | app/autoschedule.py:91 | repeating one job beyond eight times leaves a one-job greedy order, whose key wins |
| ScheduleSearch.EqualJobsArePlannedOnce | app/autoschedule.py:83-147 | and the plan the search gives for them is that of the one job |
| ScheduleSearch.TrySwap | app/autoschedule.py:138-144 | a swap is accepted exactly when it lowers the key |
| ScheduleSearch.ImproveBySwaps | app/autoschedule.py:129-144 | a chain of strictly improving swaps, at most five passes, and no helping swap left when the last pass made none |
| ScheduleSearch.OptimizeToolSchedule | app/autoschedule.py:106-147 | the first order of least key, in itertools' listing, up to eight jobs; above, an order reached from the first least-key greedy candidate by falling swaps, at least five or until no swap helps, and for distinct jobs a permutation no worse than the original |
| ScheduleSearch.LeastPlanBeatsEveryPolicy | app/autoschedule.py:106-127 | no order with any feasible tool handling needs fewer movements than the exact search's plan |
| Bytes.GetPutUnsigned | app/mill_supervisor_agent.py:24-34 | four network-order bytes read back as the unsigned number packed |
| Bytes.Int32RoundTrip | app/robot_supervisor.py:76-85 | packing and unpacking a signed 32-bit integer undo each other, both ways |
| Frames.DecodeEncoded | app/robot_supervisor.py:68-94 | encoding succeeds exactly for int32 values, and decodes to version, kind and fields exactly when there is a field |
| Frames.EncodeDecoded | app/robot_supervisor.py:72-94 | whatever decodes is the encoding of what it decodes to |
| Frames.FrameBuffer.DiscardUntilHeader | app/robot_supervisor.py:113-125 | the loop finds the first aligned header, or keeps a possible half header at the end |
| Frames.FrameBuffer.Feed | app/robot_supervisor.py:127-155 | the frames given back, the bytes kept and the resynchronisations counted, or an overflow with the buffer cleared |
| Frames.FrameBuffer.TakeFrames | app/robot_supervisor.py:133-155 | the loop over the bytes held agrees with the recursive drain |
| FrameStreams.Receive | app/robot_supervisor.py:348-356 | feeding read after read collects the frames of all of them |
| FrameStreams.LittleIsLeft | app/robot_supervisor.py:127-155 | fewer than 200 bytes stay after a feed, whatever the bytes |
| FrameStreams.LimitIsNeverReached | app/robot_supervisor.py:129-131 | with 8192-byte reads the 32768 limit is never reached |
| FrameStreams.DrainedFramesDecode | app/robot_supervisor.py:356-370 | every frame given back decodes with the field count its handler expects |
| FrameStreams.ResynchronisingLoses | app/robot_supervisor.py:113-155 | each resynchronisation counted drops a word at least, and without one the frames given back and the bytes kept are all there was |
| FrameStreams.WholeIsInProtocol | app/robot_supervisor.py:107-112 | the buffer takes an encoded frame for a whole one exactly when it is of a kind and length the protocol sends |
| FrameStreams.AlignedChunksAgreeWithScanner | app/robot_supervisor.py:113-155 | on any stream cut word-aligned, exactly the frames of a scanner that drops one word at a time |
| FrameStreams.DiscardKeepsAlignment | app/robot_supervisor.py:115-125 | alignment is kept exactly when a header was found or the buffer was aligned |
| FrameStreams.UnalignedReadDropsAByte | app/robot_supervisor.py:121-123 | an unaligned read after garbage loses a byte the scanner keeps |
| FrameStreams.UnalignedReadLosesTheFrame | app/robot_supervisor.py:121-123 | and with it the whole frame, which the scanner finds |
| FrameStreams.CutStreamsGiveAPrefix | app/robot_supervisor.py:127-155 | a stream of whole frames that ends anywhere gives back exactly those that arrived whole |
| FrameStreams.CleanStreamsReassemble | app/robot_supervisor.py:127-155 | any byte-wise split of whole frames gives back exactly those frames |
| FrameDamage.EncodedFrameAddsUp | app/robot_supervisor.py:68-85 | the last integer of an encoded frame is in 0 to 65520 and differs from the sum of the others by a multiple of 65521 |
| FrameDamage.HeartbeatBytes | app/robot_supervisor.py:72-85 | the bytes of a heartbeat, one by one |
| FrameDamage.DamagedIntegerIsFound | app/robot_supervisor.py:87-94 | a frame with one integer changed, by no multiple of 65521, does not decode and is no whole frame |
| FrameDamage.DamagedIntegerIsHeard | app/robot_scripts.py:725-756 | the robot takes nine integers so changed as a bad frame, hostile to any command |
| FrameDamage.DamagedByteIsFound | app/robot_supervisor.py:87-94 | a frame with any one byte changed does not decode and is no whole frame |
| RobotScript.SupervisorProgram.constructor | app/robot_scripts.py:543-566 | the globals start idle, at the seed |
| RobotScript.SupervisorProgram.PublishEvent | app/robot_scripts.py:588-596 | publishing sets the pending event and waits |
| RobotScript.SupervisorProgram.RunLoopHead | app/robot_scripts.py:780-815 | duplicate, clear-latch, maintenance, rejection, acceptance or idling, as the loop head function says |
| RobotScript.SupervisorProgram.EnterDispatcher | app/robot_scripts.py:507-541 | link-loss flag cleared, then a known command moves or an unknown one latches |
| RobotScript.SupervisorProgram.RunMain | app/robot_scripts.py:780-846 | the main loop's turn from any wait |
| RobotScript.SupervisorProgram.FinishMotion | app/robot_scripts.py:824-843 | the outcome of a returned function |
| RobotScript.SupervisorProgram.OpenSocket | app/robot_scripts.py:705-721 | a successful connection greets with the current state |
| RobotScript.SupervisorProgram.TakeIncoming | app/robot_scripts.py:725-756 | a whole frame: good command, heartbeat, other kind or bad frame |
| RobotScript.SupervisorProgram.ReadSocket | app/robot_scripts.py:722-772 | one pass of the communication loop with its sends and its link-loss test |
| RobotSafety.StepHolds | app/robot_scripts.py:702-848 | every step of either thread, of the socket and of a restart keeps the invariant |
| RobotSafety.RunHolds | app/robot_scripts.py:702-848 | the invariant holds after every run |
| RobotTheorems.DispatchedAtMostOnce | app/robot_scripts.py:779-843 | accepted and dispatched sequences strictly increase over any run, across restarts seeded no lower than what was accepted |
| RobotTheorems.AcceptedInOrder | app/robot_scripts.py:781-815 | since its last start the program has taken exactly the sequences after its seed, in order |
| RobotTheorems.JustifiedMeans | app/robot_scripts.py:779-843 | a justified completion has an acceptance, an entry and a return in the log with nothing hostile between, the link not lost, and no limit of silent reads in a row between entry and return |
| RobotTheorems.CompletedIsTrue | app/robot_scripts.py:779-843 | every COMPLETED event ever sent is true of its sequence |
| RobotTheorems.OutcomeIsExact | app/robot_scripts.py:824-843 | on return the outcome is COMPLETED exactly when nothing hostile was heard since acceptance and the link not lost since dispatch |
| RobotTheorems.InFlightCommandIsKept | app/robot_scripts.py:729-748 | while a command is in flight no step changes its registers, except to clear the sequence |
| RobotTheorems.LatchStays | app/robot_scripts.py:781-811 | only the in-order clear-latch command clears a latch |
| RobotTheorems.DispatchedIsNeverControl | app/robot_scripts.py:532-535 | the dispatcher's own clear-latch and maintenance branches are never reached |
| RobotTheorems.UnknownOpcodeWedges | app/robot_scripts.py:536-541 | dispatch wedges the program exactly when opcode and argument are unknown |
| RobotTheorems.WedgedForGood | app/robot_scripts.py:729-748 | a wedged program never takes or dispatches a command again, short of a restart |
| RobotTheorems.StartsLatchedIff | app/robot_scripts.py:812-821 | a motion starts latched exactly when a hostile frame was heard since its command's acceptance |
| RobotLinks.LinkLossIsExact | app/robot_scripts.py:763-770 | over any run the link is lost exactly at the read with which as many in a row were silent as the limit allows, counted since the last good frame or connection |
| RobotRuns.CommandCompletes | app/robot_scripts.py:702-848 | from any ready state, a known command's frame and heartbeats suffice for it to be dispatched once and reported accepted, running and completed, in just these events, and the robot is ready again |
| RobotRuns.LatchedCommandMoves | app/robot_scripts.py:812-821 | from any ready state, a damaged frame after acceptance latches the robot and the command is dispatched all the same |
| RobotRuns.UnknownCommandWedges | app/robot_scripts.py:536-541 | from any ready state, an unknown command is accepted and reported latched with fault 102, and nothing is taken or dispatched after it, short of a restart |
| RobotRuns.FirstStartCanDoBoth | app/robot_scripts.py:702-848 | concrete frames after a first start that make a latched motion, and that wedge it |
| RobotControls.ClearLatchRecovers | app/robot_scripts.py:787-797 | the next command, if it is a clear-latch, is reported completed and leaves the robot ready, without latch, lost link or fault |
| RobotControls.MaintenanceStops | app/robot_scripts.py:798-805 | the next command, if it asks for maintenance, is reported completed and stops the program |
| RobotControls.StoppedForGood | app/robot_scripts.py:704-779 | a stopped program does nothing more |
| RobotControls.RefusedIsReported | app/robot_scripts.py:805-810 | a command out of order, or a motion for a latched robot, is reported latched with fault 103 and not taken |
| RobotControls.HostileLatches | app/robot_scripts.py:737-756 | a hostile frame latches the robot with the fault of its kind and leaves the command in flight |
| RobotControls.OutcomeIsReported | app/robot_scripts.py:824-843 | the outcome the log gives a motion that returns, and its fault, is the next event sent, and the robot rests, latched with that fault or not at all |
| RobotControls.FaultsMeanLatched | app/robot_scripts.py:702-848 | over any run only a latched robot has a fault, and only a stopped program has been asked for maintenance |
| RobotAnswers.RepeatIsAnswered | app/robot_scripts.py:782-786 | in every state reached, a repeat the main loop finds is answered with the outcome the log gives the last command, and nothing is taken or dispatched |
| RobotAnswers.RepeatInFlightIsAnswered | app/robot_scripts.py:730-736 | so is a repeat of the command in flight, in the same pass |
| RobotAnswers.ReadyAnswersRepeat | app/robot_scripts.py:782-786 | from any ready state the last command's frame and a heartbeat bring its outcome once more |
| RobotAnswers.CompletedIsAnsweredAgain | app/robot_scripts.py:782-786 | a command that has completed and comes again is reported completed again and not dispatched again |
| RobotAnswers.AnswersHoldThroughout | app/robot_scripts.py:702-848 | every run from a first start reaches only such states |
| RobotAnswers.RejectionIsLost | app/robot_scripts.py:730-736 | a repeat before a rejection is sent stalls the program: short of a restart nothing is taken or dispatched again |
| RobotSeeds.SafeSeedIff | app/robot_scripts.py:150-161 | after any run, a restart's seed keeps dispatches increasing however the program goes on exactly when it is at least all dispatched sequences |
| RobotSeeds.EnteredInOrder | app/robot_scripts.py:779-843 | dispatched sequences strictly increase over any run whose restarts are so seeded |
| RobotSeeds.LowSeedRepeats | app/robot_scripts.py:150-161 | from any state, a lower seed lets the sequences above it be dispatched again |
| SupervisorSeed.SeedingSetsTheSeed | app/robot_scripts.py:150-161 | succeeds exactly for a non-negative sequence and a whole assignment line, changes that line only, reads back, and a later seed replaces an earlier one |
| SupervisorSeed.SeedingFails | app/robot_scripts.py:152-160 | a negative sequence, a script without the marker and one that ends on the first marker's line are refused, each with its own error |
| OrderedDicts.LatestAfterTouch | app/robot_supervisor.py:608-611 | keeping the latest keys and touching one is touching it in the full history and keeping the latest |
| RobotManager.RobotSupervisorManager.ActivateConnection | app/robot_supervisor.py:416-446 | a greeting takes over the connection and clears the records exactly on a changed session |
| RobotManager.RobotSupervisorManager.TakeFrame | app/robot_supervisor.py:471-538 | each frame kind, and each refusal in the code's order with nothing changed |
| RobotManager.RobotSupervisorManager.TakeEvent | app/robot_supervisor.py:489-521 | an event is recorded or refused, in the code's order of checks |
| RobotManager.RobotSupervisorManager.PruneEvents | app/robot_supervisor.py:608-611 | the oldest sequences go from both dictionaries until 512 are left |
| RobotManager.RobotSupervisorManager.CloseConnection | app/robot_supervisor.py:389-405 | only the current connection's end disconnects |
| RobotManager.RobotSupervisorManager.Dispatch | app/robot_supervisor.py:660-704 | what is put on the socket and whether it went out, when it cannot be encoded, and when it is not attempted, also because the connection was replaced |
| RobotManager.RobotSupervisorManager.PollEvent | app/robot_supervisor.py:706-727 | the last event recorded for the sequence, of the present session and as asked for; none exactly when there is no such event |
| RobotManager.RecordIsValid | app/robot_supervisor.py:489-521 | recording keeps: same keys, at most 512, orderly histories of 1 to 16 ending in the stored event, one session |
| RobotManager.FrameKeepsValid | app/robot_supervisor.py:471-538 | every accepted frame keeps the records valid |
| RobotRecords.RecordsAreTheMostRecent | app/robot_supervisor.py:489-521 | after any deliveries the records are the 512 sequences heard of last, each history the end of its sequence's events, all its last sixteen while nothing was pushed out |
| RobotRecords.TerminalEventStays | app/robot_supervisor.py:499-507 | while a sequence stays recorded in a session its events only advance and a terminal one never changes |
| RobotRecords.AnswerStays | app/robot_supervisor.py:706-727 | a wait answered with a terminal event is answered alike ever after while the sequence stays recorded |
| RobotRecords.SentToTheExpectedSession | app/robot_supervisor.py:670-690 | whatever the connection threads do between the two checks, a command goes out only to the session asked for |
| RobotEndToEnd.CompletedRecordIsTrue | app/robot_supervisor.py:489-521 | in every interleaving of robot, wire, restarts and backend, a COMPLETED record is true of its sequence |
| RobotEndToEnd.CompletedAnswerIsTrue | app/robot_supervisor.py:706-727 | a wait answered with COMPLETED is answered truly, in every interleaving |
| RobotEndToEnd.DispatchedCommandArrives | app/robot_supervisor.py:680-683 | a dispatched frame is exactly the command an idle robot takes, does not disturb that command in flight, and latches any other |
| RobotEndToEnd.HeartbeatIsHarmless | app/robot_supervisor.py:461-469 | a heartbeat frame resets the miss count and nothing else |
| RobotEndToEnd.MessagesArrive | app/robot_scripts.py:574-586 | however the robot's bytes are cut and wherever the connection ends, the backend decodes exactly the messages that arrived whole |
| RobotEndToEnd.UncorruptedSocketIsGenuine | app/robot_scripts.py:574-586 | so every event frame of an uncorrupted socket is one the robot has sent |
| RobotEndToEnd.GreetingReconciles | app/robot_supervisor.py:416-437 | after a delivered greeting the backend's session, last sequence, last event and latch are the robot's, its last event is the outcome the log gives, and its records stay exactly if they are of this session |
| RobotEndToEnd.EventIsRecorded | app/robot_supervisor.py:509-521 | an event that is not refused becomes the last of its sequence's history, and the backend's last event, fault, latch and sequence follow it |
| RobotDeliveries.KnowsEveryOperation | app/robot_supervisor.py:51-61 | the dispatcher knows exactly the operations the backend names, those at the pool for its own slots |
| RobotDeliveries.DispatchedWhen | app/robot_supervisor.py:660-704 | a command is put on the socket exactly when it is for the session of a connection that stays and its numbers are 32 bits wide, and which of these is missing is told |
| RobotDeliveries.RefusalMeans | app/robot_supervisor.py:493-508 | an event is refused for another session, an unknown code, no sequence, a different terminal event in its history, or a later stage there, in this order, and otherwise recorded |
| RobotDeliveries.ConnectionIsTheLastGreeted | app/robot_supervisor.py:390-404 | the connection is the socket last greeted on until it ends or breaks the protocol |
| RobotDeliveries.ReplacedSocketsAreIgnored | app/robot_supervisor.py:474-475 | whatever else comes from other sockets changes nothing |
| RobotDeliveries.LaterGreetingIsTaken | app/robot_supervisor.py:477-488 | a greeting on its own connection says where the robot stands and leaves the records |
| RobotDeliveries.TelemetryIsTaken | app/robot_supervisor.py:522-532 | telemetry tells how far the robot has got and changes no record |
| RobotDeliveries.CommandIsAnswered | app/robot_supervisor.py:706-727 | from a ready robot to the waiting caller: a known command is answered COMPLETED once its frame and heartbeats have reached the robot and its messages the backend |
| MillFrames.MessageBuffer.Feed | app/mill_supervisor.py:40-62 | payloads, leftover and errors of one read, the buffer cleared on overflow and bad length |
| MillFrames.AgentBuffer.ReceiveMessages | app/mill_supervisor_agent.py:27-42 | the same at the agent, which keeps its bytes on a bad length |
| MillStreams.MessageRoundTrip | app/mill_supervisor.py:29-62 | decoding undoes encoding exactly for readable payloads of at least two bytes |
| MillStreams.AnyCutIsWhole | app/mill_supervisor_agent.py:27-42 | for any bytes and any cut, either end takes what the whole of them amounts to for its reader, and the backend's limit is never reached |
| MillStreams.BothEndsAgree | app/mill_supervisor.py:40-62 | with a stricter reader at the backend, both ends take the same or fail alike exactly when the backend reads all the agent takes, or the agent meets an unreadable payload too; otherwise the backend alone fails |
| MillStreams.EmptyObjectDivides | app/mill_supervisor.py:56-60 | the empty object is taken by the agent and refused by the backend |
| MillStreams.MessagesSurviveFragmentation | app/mill_supervisor.py:29-62 | any cuts of any messages both ends can read are decoded to exactly those, at either end |
| MillStreams.ReconnectIsCleanIffNothingIsLeft | app/mill_supervisor_agent.py:243-249 | the end of a connection leaves the agent's bytes, and it decodes a new one exactly when there are none |
| MillStreams.BadLengthIsForGood | app/mill_supervisor_agent.py:33-36 | after a bad length every later read of the agent fails, also on a new connection, while the backend's buffer is cleared, as it is beyond its limit |
| MillStatus.CompletedStatus | app/mill_supervisor_agent.py:105-133 | the loop over the file's lines gives the verdict, with each refusal in the code's order |
| MillStatus.CompletedMeans | app/mill_supervisor_agent.py:105-133 | completion exactly for a changed, readable file whose last format and program lines match and whose first state is started and last completed |
| MillStatus.EntryIsRead | app/mill_supervisor_agent.py:116-124 | a key, a colon and a value with any blanks around them are read as these, the key in upper case |
| MillStatus.EntryNeedsColon | app/mill_supervisor_agent.py:116-118 | a line says something exactly when it has a colon |
| MillStatus.BaseNameMeans | app/mill_supervisor_agent.py:129 | the program's name is its path, or what follows the last slash |
| MillStatus.WrittenProves | app/mill_supervisor_agent.py:105-133 | the file a program of that name writes when it ends normally proves its completion, unless it is the file of before |
| MillAgentProcess.AgentProcess.Boot | app/mill_supervisor_agent.py:232-245 | a start reads the state file or takes the defaults |
| MillAgentProcess.AgentProcess.Watch | app/mill_supervisor_agent.py:259-276 | an idle machine decides the active program's outcome |
| MillAgentProcess.AgentProcess.HandleSequence | app/mill_supervisor_agent.py:280-294 | repeat, stale, refused or new sequence |
| MillAgentProcess.AgentProcess.ChooseOperation | app/mill_supervisor_agent.py:295-310 | probe, conflict or start |
| MillAgentProcess.AgentProcess.BeginProgram | app/mill_supervisor_agent.py:311-326 | the started program becomes active, or the command is recorded as faulted |
| MillAgentProcess.AgentProcess.AtomicJson | app/mill_supervisor_agent.py:45-51 | the state file becomes the state in memory |
| MillAgentProcess.AgentProcess.SendMessage | app/mill_supervisor_agent.py:22-24 | the message goes out and the next statement follows |
| MillAgentProcess.AgentProcess.Handle | app/mill_supervisor_agent.py:323-336 | where an exception of each section lands |
| MillAgentSafety.StartsStepHolds | app/mill_supervisor_agent.py:232-338 | every statement, crash and exception keeps begun sequences below what the state file names |
| MillAgentTheorems.StartedAtMostOnce | app/mill_supervisor_agent.py:280-326 | over any run, work is begun for strictly increasing sequences, all named on disk |
| MillAgentTheorems.DisabledNeverStarts | app/mill_supervisor_agent.py:287-291 | without execution enabled nothing is ever begun |
| MillAgentTheorems.GreetingsAreTrue | app/mill_supervisor_agent.py:251 | every greeting's completed result was proven for its own sequence, unconditionally |
| MillAgentTheorems.CompletedIsTrue | app/mill_supervisor_agent.py:259-303 | if no repeat crosses another's result every completed event is true, and proven by the completion file where that was required |
| MillAgentTheorems.NoRepeatsNoneCrossed | app/mill_supervisor_agent.py:280-284 | none does if no sequence is repeated |
| MillAgentTheorems.RepeatOfFinishedIsTrue | app/mill_supervisor_agent.py:281-284 | a repeat whose own result is the last one is answered truly |
| MillAgentRepeats.CrossedIsAnswered | app/mill_supervisor_agent.py:281-284 | in any state, a repeat that crosses another's completed result is answered completed, and is no more justified for it |
| MillAgentRepeats.CrossedAnswerIsFalse | app/mill_supervisor_agent.py:281-284 | in every state reached without a crash that loses memory, whatever exceptions there were, that answer is false |
| MillAgentRepeats.CrashCanMakeItTrue | app/mill_supervisor_agent.py:295-303 | a run in which a crash before the save leaves such a repeat justified |
| MillAgentTheorems.RepeatInFlightIsMisreported | app/mill_supervisor_agent.py:281-284 | a run in which a repeat in flight is answered as completed though nothing proves it |
| MillAgentTheorems.ReportsAreSavedFirst | app/mill_supervisor_agent.py:270-303 | a completion about to be sent is already the result in the state file |
| MillAgentOutcomes.OutcomesAreUnique | app/mill_supervisor_agent.py:253-338 | without repeats, without exceptions in a start attempt and with no outcome out before its program is forgotten: no two different outcomes of a sequence, and none reported faulted is active |
| MillAgentOutcomes.FailedAttemptFaultsALiveProgram | app/mill_supervisor_agent.py:311-326 | an exception in any attempt, in any reachable state, has the live program reported faulted |
| MillAgentOutcomes.FaultedThenCompleted | app/mill_supervisor_agent.py:311-326 | a run from power-on in which a program is reported faulted while active and completed later |
| MillAgentOutcomes.FailedClosingReportsTwice | app/mill_supervisor_agent.py:274-276 | a completion that goes out with an exception, in any reachable state, can be followed by latched for the same sequence |
| MillAgentOutcomes.StaleRepeatIsLatched | app/mill_supervisor_agent.py:285-286 | a repeat of an earlier sequence is reported latched, whatever it came to |
| MillAgentRuns.NewIsSaved | app/mill_supervisor_agent.py:292-294 | a new sequence is in the state file before anything is chosen for it |
| MillAgentRuns.DisabledIsLatched | app/mill_supervisor_agent.py:287-291 | with execution disabled a new sequence is saved and reported latched |
| MillAgentRuns.ProbeIsCompleted | app/mill_supervisor_agent.py:295-303 | a probe with nothing running is saved, accepted and completed |
| MillAgentRuns.ConflictIsLatched | app/mill_supervisor_agent.py:304-308 | anything else while a program runs, and any operation not supported, is saved and reported latched |
| MillAgentRuns.ProgramIsAccepted | app/mill_supervisor_agent.py:309-312 | a program with nothing running is accepted and about to be started |
| MillAgentRuns.StartIsReported | app/mill_supervisor_agent.py:311-326 | a start is saved and reported running, with the path, requirement and completion file it began with; a failed one faulted |
| MillAgentRuns.IdleIsReported | app/mill_supervisor_agent.py:259-276 | a program seen idle is concluded by its proof, saved, reported and forgotten |
| MillAgentRuns.ProgramRuns | app/mill_supervisor_agent.py:259-326 | from a program's message to its end: accepted, running and, by its proof, completed or latched, in just these events, with that result in the state file |
| MillAgentRuns.RepeatIsAnswered | app/mill_supervisor_agent.py:280-284 | a repeat of the last sequence is answered with the last result, and changes nothing |
| MillAgentRuns.ExceptionDropsMessages | app/mill_supervisor_agent.py:327-338 | an exception outside a start attempt loses the messages not yet handled and nothing of the state; only a timeout in the receive loop keeps the connection |
| MillAgentRuns.FailedAttemptIsReported | app/mill_supervisor_agent.py:323-326 | an exception in a start attempt has the command saved and reported faulted, the program still active, and the messages behind it still handled |
| MillAgentRuns.MessagesAreQueued | app/mill_supervisor_agent.py:278-279 | the messages of one read are handled in the order they came |
| MillAgentGreetings.GreetingReplays | app/mill_supervisor_agent.py:251 | in every state reached with nothing lost to a crash, the greeting on connecting carries the last new sequence and the result the log says was last decided |
| MillAgentGreetings.GreetingAfterCrash | app/mill_supervisor_agent.py:251 | after a crash in any state the greeting carries what the state file holds |
| MillManager.MillSupervisorManager.ActivateConnection | app/mill_supervisor.py:190-219 | a greeting takes over and records its result if it is news |
| MillManager.MillSupervisorManager.CloseConnection | app/mill_supervisor.py:175-187 | only the current connection's end disconnects |
| MillManager.MillSupervisorManager.HandleMessage | app/mill_supervisor.py:227-248 | events are recorded, other kinds taken or refused with nothing changed |
| MillManager.MillSupervisorManager.FindEvent | app/mill_supervisor.py:266-276 | the latest recorded event with one of the names, or that there is none |
| MillManager.GreetingAddsOnlyNews | app/mill_supervisor.py:200-214 | a greeting changes the records exactly when it carries a terminal result not yet recorded |
| MillManager.GreetingIsIdempotent | app/mill_supervisor.py:190-219 | repeating a greeting leaves the records as one does |
| MillManager.RecordsOnlyGrow | app/mill_supervisor.py:227-248 | while a sequence is kept its list only grows |
| MillManager.MessagesKeepValid | app/mill_supervisor.py:205-246 | at most 512 sequences, each with at least one event |
| MillEndToEnd.CompletedRecordIsTrue | app/mill_supervisor.py:190-248 | over any crashes, reconnects and disorder, if no repeat crosses another's result or none comes, a sequence recorded as completed was probed or seen idle, with proof where required |
| MillEndToEnd.GreetingIsTaken | app/mill_supervisor.py:190-219 | a greeting tells the backend where the agent stands, whatever it knew, and a final result it carries is on record then |
| MillEndToEnd.EventIsTaken | app/mill_supervisor.py:227-248 | an event is added to its sequence's record, the only one that changes, and the last sequence and final result follow it |
| MillEndToEnd.ProgramIsAnswered | app/mill_supervisor.py:227-248 | from a program's message to the records: proven or with no proof required, it is on record as accepted, running and completed once what the agent sent has arrived |
| MillEndToEnd.ConnectionIsTheLastGreeted | app/mill_supervisor.py:151-187 | the connection is the socket last greeted on until it ends or breaks the protocol |
| MillEndToEnd.SystemHoldsThroughout | app/mill_supervisor.py:151-248 | after any moves of agent, wire and backend from the first start, the invariant of the whole system holds |
| MillEndToEnd.ResultArrives | app/mill_supervisor.py:200-214 | in any state of the whole system, a disconnected agent that connects and whose greeting is delivered has its final result on record |
| MillEndToEnd.SavedResultArrives | app/mill_supervisor.py:200-214 | so has one that crashed, whatever was in memory, on the wire or on record: the result in its state file is not lost |
| Diagnostics.DiagnosticRecorder.constructor | app/diagnostics.py:48-60 | the timeline starts with the end of the current file |
| Diagnostics.SizeOfText | app/diagnostics.py:99-104 | a file's size is the length of its lines with their line ends |
| Diagnostics.DiagnosticRecorder.Record | app/diagnostics.py:62-89 | the timeline's last items, the files after an append, and the item stored exactly when no file operation it needs fails |
| Diagnostics.DiagnosticRecorder.RotateFiles | app/diagnostics.py:106-115 | the loop of renames gives the files of the rotation, or those where it failed part way |
| Diagnostics.StoredExactlyWhenNothingFails | app/diagnostics.py:82-89 | an append stores its item exactly when the operations it needs, counted from the files, all succeed |
| Diagnostics.AppendLosesAtMostOldest | app/diagnostics.py:99-115 | whatever fails, an append adds its item or nothing behind the history and loses nothing but the oldest backup |
| Diagnostics.MoveKeepsBacked | app/diagnostics.py:110-113 | renaming a backup to a free next number keeps the history |
| Diagnostics.RecordAll | app/diagnostics.py:62-115 | over any run the files hold a suffix of the history and of exactly the items stored, which are all of them if nothing fails, and the timeline holds the last items recorded |
| Diagnostics.HistoryIsASuffix | app/diagnostics.py:82-115 | over any run, whatever fails, the files hold the end of what there was and what was stored since |
| Diagnostics.AllAreStored | app/diagnostics.py:82-115 | without failures everything recorded is stored |
| Diagnostics.MuchIsKept | app/diagnostics.py:99-115 | without failures nothing is dropped, or the backups alone hold as many full files as are kept |
| Diagnostics.FilesAreFew | app/diagnostics.py:106-115 | after any run at most `backup_count` + 1 files, and no more than two when no backups are asked for |
| Diagnostics.NoBackupsIff | app/diagnostics.py:99-115 | with no backups asked for, exactly when an append leaves no more than one file |
| Diagnostics.NoBackupsStillKeepOne | app/diagnostics.py:106-115 | with no backups asked for, a full file is kept as one all the same |
| Diagnostics.DiagnosticRecorder.Recent | app/diagnostics.py:91-97 | items of the severity, in order, none later left out, as many as the limits and the timeline allow |
| PrimaryPackages.PrimarySubpackages | app/robot_rtde.py:803-817 | the loop's result by type, or which error |
| PrimaryPackages.AcceptedIffTiled | app/robot_rtde.py:803-817 | a body is accepted exactly when whole packages make it up, and those are unique |
| PrimaryPackages.ByTypeKeepsTheLast | app/robot_rtde.py:813 | each type has the content of its last package, and no other type appears |
| ModbusOutputs.PinsNeverCollide | app/robot_rtde.py:460-469 | different outputs never share a bit |
| ModbusOutputs.PinIsDriven | app/robot_rtde.py:460-469 | an output is found at exactly the register and bit that drive it, and refused for exactly an unknown bank or an index beyond it |
| ModbusOutputs.ValueWithBit | app/robot_rtde.py:475 | setting or clearing a bit moves the register's value by that power of two or not at all |
| ModbusOutputs.OutputServer.SetOutput | app/robot_rtde.py:457-491 | one output set, written only if changed, the cache refreshed on success only; it succeeds exactly for a valid output whose requests the link can carry |
| ModbusOutputs.OutputServer.SetOutputs | app/robot_rtde.py:494-545 | the batch equals setting its outputs one by one, and succeeds exactly when all are valid and the link carries every request; an invalid entry touches nothing and the first is reported; a failing link leaves each register wholly old or wholly new |
| ModbusOutputs.OutputServer.Gather | app/robot_rtde.py:502-514 | all entries are checked before anything is sent |
| ModbusOutputs.SetEachIsAsAsked | app/robot_rtde.py:494-545 | setting outputs in turn leaves each named bit as last asked and every other bit as it was |
| ModbusOutputs.AsAskedIsUnique | app/robot_rtde.py:494-545 | that determines the registers |
| PoolSlots.Upgrade | migrations/versions/0004_virtual_queue.py:13-55 | the i-th queued pallet gets the i-th smallest free slot, and the count is the larger of the old one and the last slot |
| PoolSlots.MigrationIsSound | migrations/versions/0004_virtual_queue.py:13-55 | slots stay distinct and are filled without gaps, nobody is left queued, the others are untouched, the count covers the slots |
| PoolSlots.SmallestFreeIsUnique | migrations/versions/0004_virtual_queue.py:35-48 | the smallest free slots are one list |

## Left out

- `app/service.py`, `app/main.py`, the database and schema files, the other migrations and `app/static`: not part of this model.
- Tool labels as text: a plan's steps carry tool sets; `_tool_labels` only formats them.
- Robot frames are read as nine integers of any size; the controller's 32-bit overflow in its checksum sum is not modelled.
- Robot motion, digital outputs and payload inside the dispatched functions: a dispatched command is a move that ends at some time. `command_failed` is never set by the generated program, so its FAULTED branch is not modelled.
- Robot telemetry contents: a telemetry frame carries its session, sequence and 45 readings of no meaning here.
- Threads, locks, timeouts, heartbeats' timing and the status document: timeouts are steps that may happen at any time; no liveness is claimed, in particular not of publishing an event.
- JSON text and its typing: a payload is bytes that do or do not parse, and a parsed message has the fields of its kind; a failed send has sent the whole message or nothing.
- Details and results carried by mill events: only the event's name and sequence are kept.
- The state file can be read back after a restart, and the clock-made session number is not modelled.
- The steps inside `start_program`: starting returns a program path or raises.
- Status-file text is ASCII for trimming and upper-casing, and is read at one moment with its signature.
- Log lines are items of known length; unparsable lines in an existing file, and a line only partly written, are not modelled.
- MillAgentOutcomes.OutcomesAreUnique: speaks of events only; a greeting sent after the saving of an outcome failed carries a result that is decided anew, since the program stays active.
- ModbusOutputs.OutputServer.SetOutputs: a register is its sixteen bits, so `|` and `& ~` with a shifted one set or clear a bit; the request and response bytes are not modelled.
