# CMSIS-Stream: a model of the runtime and proofs about it

CMSIS-Stream runs dataflow graphs whose nodes also exchange events. This project models its hardest parts in
Dafny and proves what they promise:

- **The POSIX runtime** (`RuntimeModel`, `RuntimeInvariant`, `RuntimeStop`, `RuntimeSwitch`, `RuntimeHandshake`,
  `RuntimeLiveness`, `RuntimeMutualWait`, `RuntimeOutside`, `EventFlags`). A controller, a stream thread, an event thread and threads outside of the runtime
  share two sticky flag words, an atomic context pointer, a stop flag and the event queues. One move of the state
  machine is one access to shared memory by one actor, and theorems are about every sequence of moves;
  `RuntimeLiveness` is about every endless run in which no thread is left out forever.
  `RuntimeModel` lets outside threads touch a queue at any moment; `RuntimeOutside` follows their pushes statement
  by statement, and every run of it is a run of `RuntimeModel`.
- **The event queue** (`QueueSpec`, `EventQueue`, `EventOutput`, `WakeUp`, `EventModel`). Three ring buffers
  refine three FIFO lanes with a complete history; a broadcast reaches every subscriber or a prefix of them,
  alone or among other threads; and in a separate state machine over the numbers of pending messages, for the POSIX
  and the Zephyr way of taking the wake-up flag, no wake-up is lost.
- **Dataflow** (`Fifo`, `FifoReset`, `Dataflow`, `FifoGraph`, `Periodic`, `RunGraph`, `SimpleScheduler`, `Callback`,
  `SharedMemory`, `BufferScheduler`). The compacting FIFO, Kahn determinism of asynchronous execution, down to the
  samples in the compacting buffers, static schedules, the pausable scheduler and generated schedules whose FIFOs
  share memory.
- **Overlapping windows** (`Blocks`, `OverlapAdd`, `SlidingBuffer`, `Reconstruction`). The closed form of
  overlap-add and perfect reconstruction, proved of the nodes themselves over any number of runs.
- **Events on the wire** (`PackFormat`, `EventFormat`, `Pack`, `Unpack`, `Framing`). The serialiser, exactly which
  events survive the round trip, and reassembly of frames from arbitrary pieces.

Where the code does not do what its documentation or its callers would expect, the model follows the code; an input
that shows it and the exact condition are proved:

- 64-bit integer scalars are written by `Pack` but `Unpack` has no case for them; strings of 2^32 - 1 bytes or
  more, priorities above the three known ones, constant tensors and, where an allocation of no bytes gives a null
  pointer, empty tensors with dimensions do not come back either (`EventFormat.EventRoundTrip`; an event of each kind:
  `EventsThatAreLost`, `StringIsLost`, `TensorsAreLost`).
- `4 + msg_len` in the host receiver is computed in 32 bits, so a header of 2^32 - 4 or more makes it read behind
  its buffer: any cut of a stream is received correctly if and only if no header is that large
  (`Framing.WhenAnyCutWorks`; four bytes that do it: `HugeHeaderOverruns`).
- The expiry test compares 32-bit time stamps that wrap around (`QueueSpec.ExpiryExact`; a message dropped after 5 of
  its 20 ms, and one handed over after 12 of 5: `ExpiryFails`).
- A thread outside of the runtime that passed the pause test of `push` before a pause can insert its event after
  the queue was cleared: `RuntimeOutside.PushOvertakesPause` is such a run, and `RuntimeOutside.PauseLeavesEmpty`
  says that the queue is sure to stay empty if and only if no thread is past that test and before its insert.
- The callback scheduler looks at a status above zero only if the last entry of a pass returned it, and forgets it
  otherwise (`Callback.EndOfCallExact`; a status that is lost: `StatusIsLost`); it starts over, with its count, if and
  only if the last call did not pause (`Callback.CallbackScheduler.Scheduler`).
- `reset` of a FIFO only moves its positions. It gives the delay samples back, whatever the data, if and only if no
  write that moved or stored anything came after the first sample was read (`FifoReset.ResetExact`; a FIFO that starts
  with another sample after its reset: `ResetLosesDelay`). The runtime itself passes `all` to `reset_fifos`, and the
  generated code then fills the buffers with zeros: the delay samples are zeros (`FifoReset.ResetFifo`).
- When a node and an event handler fail at the same time the two threads wait for each other's reply:
  `RuntimeMutualWait.MutualWaitHappens` is a run of 29 moves that leads there, and from then on a pause never returns
  (`MutualWaitLasts`), but a stop does (`RuntimeLiveness.StopCallReturns`).

`stream_stop_threads` ends the queue of the current context only. Called while the event thread waits for a resume it
ends that thread (`RuntimeStop.StopEnds`), and called while it is in `execute` it is sure to end it if and only if it
works on the queue of the current context (`StopEndsExactly`), which is so in every run in which `resume` is called
only after a pause that has returned (`StopEndsBothThreads`).

`dafny verify dfyconfig.toml` checks the whole project.

## Model

| member | source | states |
|---|---|---|
| RuntimeModel.EventStep | platform/posix_runtime/stream_runtime_init.cpp:187-225 | no move of the event thread moves another actor, sets the context pointer or the stop flag, touches the stream thread's resume and done messages, or withdraws a reply of its own; it shows at most one handler run, or the pause of a pure event graph (what its statements do to the queue, the flags and the events is said by RuntimeSwitch.ReachableSwitched, RuntimeHandshake.WaitMove, RuntimeStop.ThreadsEnd and RuntimeOutside.PauseLeavesEmpty) |
| RuntimeModel.StreamStep | platform/posix_runtime/stream_runtime_init.cpp:227-273 | no move of the stream thread moves another actor, sets the context pointer or the stop flag, touches the event thread's resume message or withdraws a reply of its own (what its statements do is said by RuntimeSwitch.ReachableSwitched and ResetBeforeResume, RuntimeHandshake.WaitMove, EventFlags.StreamEventFlags.Poll and RuntimeStop.ThreadsEnd) |
| RuntimeModel.ControlStep | platform/posix_runtime/stream_runtime_init.cpp:275-427 | no move of the controller moves a thread, changes the context a thread has loaded, or is seen by the nodes (what its statements do is said by RuntimeHandshake.CallAdvances and PauseParksBoth, RuntimeLiveness.CallReturns and RuntimeStop.StopPosts) |
| RuntimeInvariant.ReachableLinked | platform/posix_runtime/stream_runtime_init.cpp:187-290 | in every run, errors and stops included: the event thread works on the current context, the pointer is null only after both joins, and an end request reaches and wakes the event thread |
| RuntimeStop.ReachableStopped | platform/posix_runtime/stream_runtime_init.cpp:411-427 | in every run: once stop has posted its messages, every wait that a thread can still reach finds its flag up; and whenever stop is called the event thread works on the current queue or waits for a resume |
| RuntimeStop.StopPosts | platform/posix_runtime/stream_runtime_init.cpp:411-422 | the caller of stop is never blocked before the joins, whatever state the threads are in |
| RuntimeStop.ThreadsEnd | platform/posix_runtime/stream_runtime_init.cpp:99-273 | after the stop messages every move of a thread that has not ended lowers its rank, and no move of another raises it |
| RuntimeStop.StopReturns | platform/posix_runtime/stream_runtime_init.cpp:424-427 | with both threads at their end the stop call returns and the context pointer is null |
| RuntimeStop.StopEnds | platform/posix_runtime/stream_runtime_init.cpp:99-273 | from any state with the event thread on the current queue or waiting for a resume (and the wake-up of a queue that was asked to end still up), errors and mutual waits included: the caller posts within five moves, both threads end within a bounded number of their own moves however the actors interleave, and the call returns |
| RuntimeStop.StopEndsBothThreads | platform/posix_runtime/stream_runtime_init.cpp:99-273 | the same from every state in which a controller that resumes only after a returned pause can call stop |
| RuntimeStop.StopHangs | platform/posix_runtime/stream_runtime_init.cpp:411-427 | with the event thread at work on another queue that has no request, no number of moves without an error or an outside thread ends it, and the join lasts |
| RuntimeStop.StopEndsExactly | platform/posix_runtime/stream_runtime_init.cpp:411-427 | called while the event thread is at work for context d, stop is sure to end it, whatever else the state and the interleaving, if and only if d has the queue of the current context |
| RuntimeSwitch.ReachableSwitched | platform/posix_runtime/stream_runtime_init.cpp:99-121 | over any sequence of switches the observable events follow one automaton: run, pause, reset, resume |
| RuntimeSwitch.OneContextRuns | platform/posix_runtime/stream_runtime_init.cpp:236-271 | at most one context has un-paused nodes and only its nodes run or are paused |
| RuntimeSwitch.ResetBeforeResume | platform/posix_runtime/stream_runtime_init.cpp:111-115 | the FIFOs of a context are reset right before its nodes are resumed |
| RuntimeSwitch.PauseAndResumeAlternate | platform/posix_runtime/stream_runtime_init.cpp:255-271 | pause_all_nodes and resume_all_nodes strictly alternate over the whole run |
| RuntimeSwitch.NeverLoadsNull | platform/posix_runtime/stream_runtime_init.cpp:411-427 | the context pointer is null only after a stop that joined both threads |
| RuntimeHandshake.ReachableHand | platform/posix_runtime/stream_runtime_init.cpp:187-325 | in every error-free run the points of the three actors and the flag words fit together |
| RuntimeHandshake.PauseParksBoth | platform/posix_runtime/stream_runtime_init.cpp:275-290 | when pause has returned both threads wait for a resume, the queue's pause request is up, nothing runs until the next call and, without outside threads, the queue stays empty |
| RuntimeOutside.WorldRefines | platform/posix_runtime/stream_event_queue.cpp:99-133 | every run with any number of outside threads, each in its own statement of push, is a run of the state machine |
| RuntimeOutside.StaysCalm | platform/posix_runtime/stream_event_queue.cpp:99-133 | once no outside thread is past the pause test, none gets past it until the next call, and the cleared queue stays empty |
| RuntimeOutside.PauseReturns | platform/posix_runtime/stream_runtime_init.cpp:275-290 | from every point of a pause call there is a run, without a move of the outside threads, in which it returns |
| RuntimeOutside.PauseLeavesEmpty | platform/posix_runtime/stream_event_queue.cpp:99-133 | in every run, from the moment the pause request is set: whatever happens the queue is empty once the pause has returned and until the next call, if and only if no outside thread is past the pause test of a push to it without having inserted (and, after the return, it is empty now) |
| RuntimeOutside.PushOvertakesPause | platform/posix_runtime/stream_event_queue.cpp:99-133 | 24 moves from the initial state, in every error-free configuration, after which the pause has returned and the queue holds one event |
| RuntimeHandshake.CallsSucceed | platform/posix_runtime/stream_runtime_init.cpp:292-325 | in error-free runs resume never fails, and between calls both flag words are zero |
| RuntimeHandshake.CallAdvances | platform/posix_runtime/stream_runtime_init.cpp:275-325 | a pause or resume call that is not waiting goes on to its next statement |
| RuntimeHandshake.WaitMove | platform/posix_runtime/stream_runtime_init.cpp:275-325 | while a call waits, each move of the awaited thread brings the reply nearer and no other move sets it back |
| RuntimeHandshake.ReplyStays | platform/posix_runtime/stream_runtime_init.cpp:48-70 | a reply that is up stays up until the caller takes it |
| RuntimeHandshake.WaitEnds | platform/posix_runtime/stream_runtime_init.cpp:275-325 | no wait of a pause or resume call lasts, however the actors interleave |
| RuntimeLiveness.CallReturns | platform/posix_runtime/stream_runtime_init.cpp:275-325 | in every endless fair run without errors every call of pause and resume returns |
| RuntimeLiveness.StopCallReturns | platform/posix_runtime/stream_runtime_init.cpp:411-427 | in every endless fair run, errors included, from any state with the event thread on the current queue or waiting for a resume, a call of stop returns with both threads ended and the context pointer null |
| RuntimeMutualWait.MutualWaitHappens | platform/posix_runtime/stream_runtime_init.cpp:130-225 | in every configuration in which nodes and handlers may fail, 29 moves from the initial state after which each thread waits for the other's reply |
| RuntimeMutualWait.MutualWaitLasts | platform/posix_runtime/stream_runtime_init.cpp:130-290 | however long the run, unless stop is called neither thread moves again and a call of pause does not return |
| EventFlags.StreamEventFlags.Post | platform/posix_runtime/stream_runtime_init.cpp:33-40 | of the four flags a word stands for, those of the mask are up afterwards and the others as before |
| EventFlags.StreamEventFlags.Clear | platform/posix_runtime/stream_runtime_init.cpp:42-46 | of the four flags a word stands for, those of the mask are down afterwards and the others as before |
| EventFlags.StreamEventFlags.Wait | platform/posix_runtime/stream_runtime_init.cpp:48-70 | whatever other threads post and clear meanwhile and whenever this one gets to look: the wait is over at the first look at which an awaited flag is up, and is sure to end if a flag is raised, not lowered again and looked at; it returns exactly the awaited flags that are up then and lowers those and no others |
| EventFlags.StreamEventFlags.Poll | platform/posix_runtime/config/app_config.hpp:22-36 | the poll before each node does to the word what the state machine does to its record, and finds out the same |
| EventFlags.WordOps | platform/posix_runtime/stream_rtos_events.h:5-14 | or, and-not and and of words are raising, lowering and selecting flags, and a word determines its flags |
| EventFlags.StreamPosts | platform/posix_runtime/stream_rtos_events.h:5-8 | raising bits of the message word is raising fields of the model's record |
| EventFlags.StreamWaits | platform/posix_runtime/stream_rtos_events.h:5-8 | the resume waits and the scheduler's poll of two bits at once do to the word what the model does to the record |
| EventFlags.ReplyPosts | platform/posix_runtime/stream_rtos_events.h:11-14 | raising and clearing bits of the reply word is what the model does to its record |
| EventFlags.ReplyWaits | platform/posix_runtime/stream_rtos_events.h:11-14 | waits for a reply, or for a reply or its failure, see and take what the model says |
| EventModel.Clone | platform/StreamNode.hpp:1533-1561 | a clone is equal in everything a node can look at, for lists slot by slot |
| QueueSpec.HistoryConserves | platform/posix_runtime/stream_event_queue.cpp:99-261 | for every history and priority: what was accepted is, in order, what was dispatched, expired or cleared followed by what is pending |
| QueueSpec.AcceptedIsPushed | platform/posix_runtime/stream_event_queue.cpp:99-133 | the accepted messages of a priority are, one by one and in order, those of the pushes that found room, each with its sender |
| QueueSpec.DeliveryOrder | platform/posix_runtime/stream_event_queue.cpp:197-255 | in every history, whatever others push and whatever expires or is cleared: of one sender's messages to one destination at one priority (or any other selection) those handed over are, in the order of the calls, the images of those sent under an increasing map that leaves out exactly the ones not dispatched; if none is lost they are a prefix |
| QueueSpec.ExpiryExact | platform/posix_runtime/stream_event_queue.cpp:225-232 | the expiry test is right exactly when the limit and the clock wrap around together or not at all |
| QueueSpec.ExpiryFails | platform/posix_runtime/stream_event_queue.cpp:225-232 | a message that expires after 5 of its 20 ms, and one that does not after 12 of 5 |
| QueueSpec.BacklogTake | platform/posix_runtime/stream_event_queue.cpp:207-218 | a dispatch takes the oldest message of the highest non-empty priority |
| EventQueue.CircularPut | platform/posix_runtime/stream_event_queue.cpp:113-121 | writing at the write index of a ring with room appends to its contents |
| EventQueue.CircularGet | platform/posix_runtime/stream_event_queue.cpp:209-214 | the slot at the read index is the first of the contents and the rest stays in order |
| EventQueue.Ring.Put | platform/posix_runtime/stream_event_queue.cpp:113-122 | a ring with room gets the message behind its contents |
| EventQueue.Ring.Get | platform/posix_runtime/stream_event_queue.cpp:209-214 | the oldest message leaves a ring |
| EventQueue.Ring.Empty | platform/posix_runtime/stream_event_queue.cpp:156-163 | the loop of clear empties a ring |
| EventQueue.PosixEventQueue.constructor | platform/posix_runtime/stream_event_queue.cpp:78-90 | a new queue is empty, with no request and no error |
| EventQueue.PosixEventQueue.Push | platform/posix_runtime/stream_event_queue.cpp:99-133 | exactly when a push is accepted, where the message goes, and what a refused one leaves in the flags |
| EventQueue.PosixEventQueue.IsEmpty | platform/posix_runtime/stream_event_queue.cpp:135-148 | true exactly when nothing is pending in any priority |
| EventQueue.PosixEventQueue.Clear | platform/posix_runtime/stream_event_queue.cpp:150-167 | everything pending is cleared in every priority |
| EventQueue.PosixEventQueue.TakeNext | platform/posix_runtime/stream_event_queue.cpp:204-222 | the critical section of execute takes what the specification says, or finds nothing |
| EventQueue.PosixEventQueue.HandleOne | platform/posix_runtime/stream_event_queue.cpp:202-254 | one turn drops an expired message or hands it over, and a failure is recorded against its node and pauses the queue |
| EventQueue.PosixEventQueue.Drain | platform/posix_runtime/stream_event_queue.cpp:200-255 | without new pushes messages are handled by priority and age up to the first failure, and otherwise the queue ends empty |
| EventQueue.PosixEventQueue.SetError | platform/EventQueue.hpp:139-147 | an error replaces the one before, pauses the queue and wakes the consumer |
| EventQueue.PosixEventQueue.ConsumeError | platform/EventQueue.hpp:149-158 | a pending error is given out once |
| EventQueue.PosixEventQueue.Resume | platform/EventQueue.hpp:133-137 | resuming withdraws the pause and the error and leaves the end request |
| EventQueue.PosixEventQueue.Pause | platform/posix_runtime/stream_event_queue.cpp:175-179 | a pause request wakes the consumer |
| EventQueue.PosixEventQueue.End | platform/posix_runtime/stream_event_queue.cpp:169-173 | an end request wakes the consumer |
| EventOutput.EventOutput.SendAsync | platform/EventQueue.hpp:242-284 | a send succeeds exactly when there is room for all; then every subscriber has one equal copy, otherwise a prefix of them has |
| EventOutput.BroadcastInterleaved | platform/EventQueue.hpp:269-275 | whatever other threads push, take and clear between the pushes of a broadcast: its sender adds one equal copy of the event for each of the first subscribers, in their order, nothing elsewhere, and fails only if one is left out |
| EventOutput.SendingStep | platform/EventQueue.hpp:269-275 | one accepted copy more keeps copies, order and flags as the loop promises |
| WakeUp.CountsRefine | platform/posix_runtime/stream_event_queue.cpp:99-222 | the three counts of this model, and their sum, change with every push, dispatch and clear as the lanes of the queue do |
| WakeUp.RunKeepsInv | platform/posix_runtime/stream_event_queue.cpp:99-261 | in every run a request or message that the consumer has looked past leaves a wake-up due |
| WakeUp.NoLostWakeUp | platform/zephyr_runtime/stream_event_queue.cpp:171-271 | a blocked consumer has nothing to do except what an actor has done and not yet notified, also when wait and clear are two steps |
| WakeUp.WokenByNextNotify | platform/posix_runtime/stream_event_queue.cpp:181-195 | and the next notification makes it look again |
| Fifo.CopyDown | platform/GenericNodes.hpp:325-327 | the ascending copy is right although source and destination overlap |
| Fifo.Fifo.constructor | platform/GenericNodes.hpp:294-295 | a new FIFO holds its delay samples, which are the first of the given buffer |
| Fifo.Fifo.GuardsMeanRoom | platform/GenericNodes.hpp:349-360 | the under- and overflow tests and the two counts are about the queue, whatever the positions |
| Fifo.Fifo.GetWriteBuffer | platform/GenericNodes.hpp:319-334 | the region is in bounds behind what is pending, which moved to the start but is the same; every other cell is as before |
| Fifo.Fifo.GetReadBuffer | platform/GenericNodes.hpp:341-347 | the region is in bounds and holds the oldest samples |
| Fifo.Fifo.Write | platform/GenericNodes.hpp:319-334 | a producer's turn appends its samples, and which cells of the buffer it changes |
| Fifo.Fifo.Read | platform/GenericNodes.hpp:341-347 | a consumer's turn takes the oldest samples |
| Fifo.Fifo.Reset | platform/GenericNodes.hpp:299-303 | the positions go back to their start and no cell of the buffer changes, so the delay samples are what it holds there |
| Fifo.RefinesQueue | platform/GenericNodes.hpp:290-360 | for any guarded uses, what was read is a prefix of the delay samples followed by everything written |
| FifoReset.ResetExact | platform/GenericNodes.hpp:299-334 | for every length, delay above zero and sequence of guarded uses: a reset after them gives the delay samples back, whatever the data, if and only if no write that moved or stored anything came after the first sample was read |
| FifoReset.UseAndReset | platform/GenericNodes.hpp:299-334 | the FIFO object itself, used in any guarded way and reset, starts with its delay samples if there was no such write |
| FifoReset.ResetLosesDelay | platform/GenericNodes.hpp:299-334 | one sample read, one written, a reset: the FIFO starts with 5.0 instead of its delay sample 0.0 |
| FifoReset.ResetFifo | Examples/callback/scheduler.cpp:279-298 | with the buffers filled afterwards, as for the runtime's own call, the delay samples are zeros whatever the FIFO was used for |
| Dataflow.FireKeepsKahn | Examples/runtime_mode/runtime_sched.cpp:189-200 | an execution of any node, whatever it computes, keeps the equation of every edge: what was emitted is the node's function of what it has read |
| Dataflow.FireKeepsBounds | Examples/runtime_mode/GenericRuntimeNodes.h:132-172 | a guarded execution leaves every FIFO within its bounds |
| Dataflow.RunKeepsKahn | Examples/runtime_mode/runtime_sched.cpp:155-218 | for every order of executions no FIFO under- or overflows and every edge obeys Kahn's equations |
| Dataflow.EmittedStable | Examples/runtime_mode/AppNodes.hpp:211-226 | what a node has emitted depends only on what it has read |
| Dataflow.RunFollowsStream | Examples/runtime_mode/runtime_sched.cpp:155-218 | every edge carries a prefix of the one stream the network defines, whatever was skipped |
| Dataflow.SchedulesAgree | Examples/runtime_mode/runtime_sched.cpp:155-218 | two executions with any schedules and lengths never disagree on an edge |
| FifoGraph.FifoGraph.PrepareForRunning | Examples/runtime_mode/GenericRuntimeNodes.h:623-641 | asked of the FIFO objects, the two tests decide as in Dataflow |
| FifoGraph.FifoGraph.RunNode | Examples/runtime_mode/AppNodes.hpp:211-226 | a node that reads its inputs from the compacting buffers one after the other and writes its outputs leaves buffers, positions and memory as one execution in Dataflow does |
| FifoGraph.FifoGraph.Execute | Examples/runtime_mode/runtime_sched.cpp:155-218 | any sequence of entries over the FIFO objects refines the same sequence in Dataflow |
| FifoGraph.FifoGraph.StreamsAgree | Examples/runtime_mode/runtime_sched.cpp:155-218 | what each compacting buffer has carried and what its edge carries in any other order of executions never disagree |
| Periodic.BalancedRestores | Examples/simple/scheduler.cpp:92-95 | a pass restores the counts exactly when the rates balance |
| Periodic.CountsDecide | platform/GenericNodes.hpp:137-147 | whether a node fits depends only on the counts |
| Periodic.EveryPassFits | Examples/simple/scheduler.cpp:184-224 | one admissible pass with balanced rates makes every pass of an unbounded run admissible and restores the counts |
| RunGraph.RuntimeGraph.PrepareForRunning | Examples/runtime_mode/GenericRuntimeNodes.h:623-641 | a node is skipped exactly when an input would underflow or an output overflow |
| RunGraph.RuntimeGraph.Entry | Examples/runtime_mode/runtime_sched.cpp:171-201 | one entry runs its node or skips it and reports the node's status |
| RunGraph.RuntimeGraph.RunGraph | Examples/runtime_mode/runtime_sched.cpp:155-218 | the interpreter makes exactly the entries of its passes, up to the first failure, to the last iteration, or for an endless run to any moment it is looked at |
| SimpleScheduler.ScheduleIsStatic | Examples/simple/scheduler.cpp:92-116 | the 19 entries fit FIFOs of 11 and balance |
| SimpleScheduler.SimpleGraph.Scheduler | Examples/simple/scheduler.cpp:184-224 | for all source data and any number of passes over the real FIFOs the sink gets the source's samples plus one |
| SimpleScheduler.SimpleGraph.RunProcessing | Examples/simple/AppNodes.hpp:147-156 | the processing node moves seven samples and adds one to each |
| Callback.SpellsStep | Examples/callback/scheduler.cpp:331-389 | an execution extends the cyclic schedule by one, a pause leaves it and the state alone |
| Callback.EndOfCallExact | Examples/callback/scheduler.cpp:22-25 | statuses above zero end a call only at the last entry of a pass, at the first such pass; all others of them are lost |
| Callback.StatusIsLost | Examples/callback/scheduler.cpp:331-389 | in a schedule of three entries a status 5 of the second is lost |
| Callback.CallbackScheduler.Begin | Examples/callback/scheduler.cpp:309-330 | a call goes on from the paused entry and count, or starts over |
| Callback.CallbackScheduler.Entry | Examples/callback/scheduler.cpp:331-388 | what an attempt leaves in the saved state, and that a retry is told so |
| Callback.CallbackScheduler.Pass | Examples/callback/scheduler.cpp:331-390 | from any entry on, the loop over the entries goes to their end or leaves at the first negative status, and only there |
| Callback.CallbackScheduler.Scheduler | Examples/callback/scheduler.cpp:303-396 | for all statuses: where the call ends and with which error; it starts over if and only if the last one did not pause, and is left paused if and only if it ends with a pause; executions over all calls spell the cyclic schedule, the state is that of a run without pauses and the count is the number of whole passes |
| Callback.CallbackScheduler.PausedCalls | Examples/callback/scheduler.cpp:303-396 | any number of calls that all pause make the executions of one uninterrupted call |
| SharedMemory.OutputsArrive | Examples/buffer/scheduler.cpp:183 | in the shared run every output, the elided copies included, is found in its buffer |
| SharedMemory.StillThere | Examples/buffer/scheduler.cpp:172-177 | a block that is still to be read is not overwritten |
| SharedMemory.SharingIsInvisible | Examples/buffer/scheduler.cpp:172-266 | disjoint live ranges or copies: for all data, node functions and numbers of passes every node reads what it would with separate buffers |
| BufferScheduler.GeneratedSharingIsInvisible | Examples/buffer/scheduler.cpp:97-189 | the generated schedule and its two buffers meet the condition |
| BufferScheduler.Scheduler | Examples/buffer/scheduler.cpp:198-266 | the generated loop over the schedule and the two real buffers makes the passes of the machine with shared places: both sinks give out what their nodes read there, which is at every pass the composed functions of the source |
| BufferScheduler.SchedulerIsFaithful | Examples/buffer/scheduler.cpp:97-266 | and this is what they read in the machine in which every FIFO has a buffer of its own |
| Blocks.CopyBlock | platform/core_nodes/OverlapAndAdd.hpp:68 | memcpy replaces exactly its destination region |
| Blocks.MoveDown | platform/core_nodes/OverlapAndAdd.hpp:70 | memmove towards the start is right although the regions overlap |
| OverlapAdd.OverlapAdd.Run | platform/core_nodes/OverlapAndAdd.hpp:54-88 | all three branches emit the first hop of the accumulated window and keep the rest |
| OverlapAdd.OverlapAddIsShiftedSum | platform/core_nodes/OverlapAndAdd.hpp:54-88 | after any number of runs output n is the sum of a_k[n - k * hop] and the memory holds exactly the sums still to come |
| OverlapAdd.RunAll | platform/core_nodes/OverlapAndAdd.hpp:54-88 | the node itself, run over any number of windows, emits these sums and holds those still to come |
| SlidingBuffer.SlidingBuffer.Run | platform/core_nodes/SlidingBuffer.hpp:54-62 | the window is the memory and the new samples, and its end is remembered |
| SlidingBuffer.WindowsSlide | platform/core_nodes/SlidingBuffer.hpp:54-62 | window k is the stretch of the delayed input that starts k hops in |
| SlidingBuffer.RunAll | platform/core_nodes/SlidingBuffer.hpp:54-62 | the node itself, run over any number of inputs, emits these windows |
| Reconstruction.WindowsSumToOne | platform/core_nodes/OverlapAndAdd.hpp:54-88 | where all windows have started the shifted windows sum to one |
| Reconstruction.PerfectReconstruction | platform/core_nodes/OverlapAndAdd.hpp:54-88 | sliding buffer, window and overlap-add give the input delayed by exactly the overlap, for all sizes and run lengths |
| Reconstruction.Reconstruct | platform/core_nodes/OverlapAndAdd.hpp:54-88 | the two nodes themselves, run block by block with a window between them, give that output |
| PackFormat.FromLeOfLe | platform/cg_pack.hpp:120-156 | little-endian words are read back |
| PackFormat.TensorBack | platform/cg_pack.hpp:690-735 | a copied tensor is read back, without its dimensions if it is empty and its buffer null |
| PackFormat.StrBack | platform/cg_pack.hpp:682-688 | a string is read back exactly if its size fits 32 bits |
| PackFormat.ValueRoundTrip | platform/cg_pack.hpp:595-742 | a portable value comes back with exactly its encoding consumed whatever follows; no other value comes back |
| EventFormat.ValuesStep | platform/cg_pack.hpp:474-480 | one value more of a list comes back exactly if it and those before are portable |
| EventFormat.EventRoundTrip | platform/cg_pack.hpp:97-484 | node, event id, priority and values come back with ttl 0 if and only if the priority is known and all values are portable |
| EventFormat.EventsThatAreLost | platform/cg_pack.hpp:97-742 | events with a 64-bit integer or a priority of 3 that do not come back |
| EventFormat.TensorsAreLost | platform/cg_pack.hpp:97-742 | an event with a constant tensor, and one with an empty tensor, that do not come back |
| EventFormat.StringIsLost | platform/cg_pack.hpp:682-688 | an event with a string of 2^32 - 1 bytes does not come back |
| Pack.Pack.WriteU32 | platform/cg_pack.hpp:131-137 | a word is appended little-endian |
| Pack.Pack.WriteU64 | platform/cg_pack.hpp:146-156 | a double word is appended little-endian |
| Pack.Pack.PackArray | platform/cg_pack.hpp:158-163 | elements are appended behind their number in 32 bits |
| Pack.Pack.PackTensor | platform/cg_pack.hpp:194-246 | a tensor, constant or not, is appended as the format says |
| Pack.Pack.PackValue | platform/cg_pack.hpp:248-389 | a value is appended as the format says |
| Pack.Pack.PackEvent | platform/cg_pack.hpp:97-117 | an event is appended as the format says |
| Unpack.Unpack.Maybe | platform/cg_pack.hpp:514-522 | a tag is consumed only if it is the expected one |
| Unpack.Unpack.ReadArray | platform/cg_pack.hpp:496-505 | the dimensions are read behind their unused count |
| Unpack.Unpack.UnpackTensor | platform/cg_pack.hpp:546-593 | a tensor's data is read as the format says |
| Unpack.Unpack.UnpackValue | platform/cg_pack.hpp:595-742 | a value is read as the format says and the pointer stops behind it |
| Unpack.Unpack.UnpackEvent | platform/cg_pack.hpp:447-484 | an event is read as the format says and the pointer stops behind it |
| Framing.ProcessIsSplit | Examples/events/host_com.cpp:218-240 | the loop over the buffer splits it into its frames if no header wraps around |
| Framing.ChunkIndependence | Examples/events/host_com.cpp:215-240 | however a stream is cut, the messages handled are its frames in order and the incomplete rest stays |
| Framing.WhenAnyCutWorks | Examples/events/host_com.cpp:222-231 | this holds for every cut if and only if no header is above 2^32 - 5 |
| Framing.HugeHeaderOverruns | Examples/events/host_com.cpp:222-231 | the header 255, 255, 255, 255 makes the loop leave its buffer |
| Framing.MessageReceiver.ReceiveMessages | Examples/events/host_com.cpp:215-242 | one piece of data is processed as specified, or the code would leave its buffer |

## Left out

- StopEndsBothThreads: counts the threads' own moves, so a thread that the operating system never runs is not covered. Its runs are those of a controller that calls `resume` only after a pause has returned, so not after an error; other calls can leave the event thread at work on another queue, and that stop then hangs is proved from such a state (StopHangs, StopEndsExactly), not by a run that leads to it. `callerIsRuntimeThread` with a detaching caller is not modelled.
- MutualWaitLasts: under the same restriction on `resume`.
- CallReturns: every thread that can move does so again and again, which the operating system has to grant.
- ReachableHand: one controller, contexts with a scheduler length above zero and no errors. This also excludes nodes that return CG_STOP_SCHEDULER, which is no error in the source, and schedulers that return CG_SUCCESS, which ends the stream thread so that a later pause never returns. Recovery by `resume` after an error is not claimed, since an error leaves its PAUSED reply raised and `resume` then reports a failure.
- PauseLeavesEmpty: under the same restrictions; a push by an outside thread that finds the queue full is an error.
- OneContextRuns: pure event graphs (scheduler length zero) during a context switch are not covered.
- Drain: nothing is pushed while it runs; pushes in between are covered by the histories of QueueSpec and by WakeUp.
- SendAsync: in the class nothing else acts between the pushes of one broadcast; BroadcastInterleaved covers that over histories. Synchronous sending, which calls the nodes directly, is not modelled.
- RunGraph: node executions are atomic, and its FIFOs are those of Dataflow; FifoGraph makes the same entries over objects of the class Fifo, without the passes and statuses of the loops around them. Customisation hooks and the flatbuffer loader are left out.
- RunNode: a node keeps what it has read, of which whatever state it has is a function, instead of that state.
- Scheduler: in Callback a function entry, which never pauses and is not told its execution status, is treated like a node that answers zero; the effect of a failed execution on the FIFOs is arbitrary.
- UnpackValue: shared-memory buffers come back as no value, as without a memory server; data that do not decode, which the code reads without looking at the size, are excluded by the precondition.
- PackTensor: shared buffers are left out.
- ReadArray: the code reads native words; little-endian is assumed.
- ExpiryExact: a message waiting longer than the 32-bit clock can count is not covered.
- Starting the threads, its failure path and stream_wait_for_threads_end.
- A `resume` with an invalid context, which returns before it touches anything shared.
- Nodes that read and write one edge: their samples are modelled, but not that asking for room moves what was just read.
- Mutex errors, failing allocations, sockets, thread priorities, logging and the clock, which is a parameter.
- Rounding: samples are reals, and packed floating-point numbers are bit patterns.
- The generator of the schedules, the RTOS ports other than the Zephyr wake-up, ProtectedBuffer, ValueParse, MemServer and IPC.
