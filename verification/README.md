# SprayCC: a verified model

SprayCC spreads compiler runs over a cluster. A *client* stands in for the compiler and submits a task, a *server* queues
tasks and starts *executors*, an executor runs a task and sends its output back through the server. This project models the
parts where that can go wrong and proves, for every run, that it does not, or exactly when it does.

- **The server.** `Scheduler` says what each operation of the server does to its state, `ServerObject.ServerState` is the
  object itself, with its loops, proved to do just that. An operation ends normally, in a send error that ends the
  server, in one of the code's own assertions, or in a decrement of a zero counter.
- **The whole system.** `Composition` puts the server together with any number of clients and executors. Every connection
  has a handler task and a first-in first-out log in each direction; steps are: accept, a peer reading, writing or dying,
  the handler reading, writing, ending or failing silently, the channel closing, the server handling one message, the
  watchdog. `Invariant`, `PeerSteps`, `ServerSteps` and `Runs` prove one inductive invariant of it. `Relay`, `Accounts`,
  `Counting`, `Guarantees`, `Verdicts`, `Admission`, `Timing`, `Leaving`, `Matching`, `Launching` and `ListScheduling` draw
  the conclusions, `Counterexamples` shows the runs on which a conclusion fails without its assumption.
- **The byte stream.** `Framing` models the length-prefixed messages read in arbitrary pieces. `Cancellation` shows when
  abandoning a read loses bytes, puts the handlers' readers, abandoned by every write, into the composed system, and proves
  that the result still does nothing but runs of the composed system.
- **Files.** `Redirection` and `Transfer` model which arguments are output files, how the executor renames them and how
  their contents travel; `Execution` is the executor's whole program for one task; `EndToEnd` joins this to the relay
  theorem: from the files a command leaves at the redirected paths to the client's files, in every run.
- **History.** `Histories` models the record of run times; `Feedback` follows it from the runs of one server to the queue
  of a later one.

## Findings

- `handle_dropped` leaves an idle executor in the queue. A task can then be sent to it and is lost, and the server may
  shut down on the client that waits for it (`Counterexamples.IdleDropLosesTask`); `Guarantees.ShutdownExact` says exactly
  when a shutdown is safe. A release of such an executor is counted a second time, so the executor count goes wrong and
  can be decremented at zero (`Counterexamples.IdleDropUnderflows`); `Counting.ExecutorCountExact` says exactly by how much
  the count is off after any run, `Verdicts.MessageVerdict` and `Verdicts.WatchdogVerdict` exactly which events underflow.
  `Accounts.IdleDropFree` names runs in which none of this happens.
- An executor that drops in the middle of a task whose client's channel is closed makes `handle_dropped` return an error,
  which ends the server (src/server.rs:221-226, `Counterexamples.BusyDropEndsServer`); output for such a client is harmless
  (src/server.rs:192-197). The same two verdict theorems say exactly which events end the server.
- The guarantees are about peers that run SprayCC's own two programs. For any message at all, in every reachable state,
  `Verdicts.AnyMessage` says exactly which ones fail one of the server's assertions: among them a result from a connection
  that is not paired, which the handler passes on unchecked (src/server.rs:537-542, `Counterexamples.StrayResultFails`),
  and a task with an output position outside its arguments (src/ipc.rs:86-95, `Counterexamples.StrayTaskFails`).
- The message length is written as an unsigned and read as a signed 32-bit integer, so a payload is read back exactly if
  it is shorter than two gigabytes (`Framing.ReadFrameExact`). Between two and four the stream breaks; beyond, the length is
  also truncated, and the message may be returned with the stream left out of step (`Framing.LongFrame`,
  `Framing.LongPayloadBreaks`, `Framing.LongerPayloadMisaligns`).
- Output positions are stored in 16 bits: beyond 65535 they name the wrong argument, though never one out of range
  (`Redirection.NarrowExact`, `Redirection.FarOutputMisplaced`).
- Of two outputs for the same place, under one name or under two such as `a.o` and `./a.o`, only the last non-empty one
  survives (`Transfer.ArrivesExact`, `Transfer.SharedPlaceLosesOutput`).
- The comment in `handle_gnu` says that `-E` makes a command remote; the code tests for `-e`, and the model follows
  the code (src/client.rs:268, 275).

## Modelling decisions

- Counters, ids and times are unbounded naturals except where width matters: pair ids are narrowed to 32 bits, and at most
  2^32 connections are accepted; lengths are 32-bit, output positions 16-bit; decrementing zero is a verdict of its own.
- A clock is a parameter. An event reads it twice (once to stamp, once to compare), and clocks may go back except in
  `Histories`, which says so.
- Equal priorities may be served in any order: the tickets popped are a parameter constrained by `Scheduler.ValidPicks`.
- A failed spawn changes nothing and is tried again, so the launch loop is modelled with a finite script of failures.
- A run ends with a server event that fails; the guarantees hold of every state up to there, and the verdict theorems say
  how the event that fails ends.
- A client starts with output positions inside its argument list, which is what `Redirection.HandleGnu` guarantees.
- Names of the client's files lead to places on its disk by a function that does not change while it waits; different names
  may lead to one place.
- What a command does is a function from its arguments to its output, its exit code and the files it leaves.
- `Composition.Job` is history kept for the proofs; nothing the server or a peer does depends on it.

## Model

| member | source | states |
|---|---|---|
| `ServerObject.ServerState.constructor` | src/server.rs:130-154 | a new server has no remotes, empty queues and zero counters |
| `ServerObject.ServerState.AddRemote` | src/server.rs:202-213 | a new connection is pending, unpaired, and numbered by its place in the table; nothing else changes |
| `ServerObject.ServerState.SendToPairedRemote` | src/server.rs:188-199 | a result goes to the paired client if it is one; a closed channel marks that client dead and is no error |
| `ServerObject.ServerState.HandleDropped` | src/server.rs:216-238 | a dropped executor's client is told, or the server ends if it cannot be; the count goes down once; the pairing and the queue stay |
| `ServerObject.ServerState.RemoteIsClient` | src/server.rs:243-260 | the task is queued at its recorded time or a second, plus 300 seconds for a priority task, before the queues are served; computing the id of a task with an output position out of range panics before anything changes |
| `ServerObject.ServerState.RemoteIsExec` | src/server.rs:264-281 | the executor is counted as running, no longer as pending in its own queue, and made available |
| `ServerObject.ServerState.ExecIsReady` | src/server.rs:284-288 | the executor goes unpaired to the end of the queue, then the queues are served |
| `ServerObject.ServerState.Update` | src/server.rs:291-297 | executors are started before tasks are matched |
| `ServerObject.ServerState.MatchNext` | src/server.rs:302-337 | a task of greatest priority goes to the executor that waited longest; both are paired with each other; each failure leaves the state the code leaves |
| `ServerObject.ServerState.MatchAll` | src/server.rs:301-338 | matching goes on until one of the queues is empty or a step fails |
| `ServerObject.ServerState.ReleaseIdle` | src/server.rs:347-353 | every waiting executor is marked dead, dismissed and uncounted, in order, until a step fails |
| `ServerObject.ServerState.CheckQueues` | src/server.rs:300-355 | executors are released after matching, only if more than the configured delay has passed since the last submission |
| `ServerObject.ServerState.StartExecsInQueue` | src/server.rs:401-429 | whichever spawns fail, the counter ends where the launch rule puts it |
| `ServerObject.ServerState.StartExecs` | src/server.rs:374-399 | with two queues, half of the wanted number (rounded up) each, the second seeing what the first started |
| `ServerObject.ServerState.TaskEnded` | src/server.rs:596-630 | a success is recorded, the message relayed, the task counted as finished, the executor made available, in that order, stopping at an error |
| `ServerObject.ServerState.HandleMsg` | src/server.rs:568-643 | every message has exactly the specified effect and verdict |
| `ServerObject.ServerState.OkToShutdown` | src/server.rs:162-170 | true exactly if nothing is queued, no executor is counted and the idle period is over |
| `ServerObject.MaximumExists` | src/server.rs:302 | a non-empty task queue has an entry of greatest priority to pop |
| `Messages.OneOutputId` | src/ipc.rs:86-87 | a task with one output is remembered under the name of that output, whatever its directory |
| `Messages.SharedId` | src/ipc.rs:86-87 | two such tasks share an id if and only if their outputs have the same name |
| `Messages.MoreOutputsId` | src/ipc.rs:88-95 | each further output appends a semicolon and its name |
| `Messages.NoOutputsId` | src/ipc.rs:79-85 | without outputs the id is the directory with a semicolon and the argument appended for each argument in turn |
| `Runs.RegisterSafe` | src/server.rs:568-643 | no message that can arrive trips an assertion, and only a drop can fail at all before the queues are served |
| `Runs.StepKeeps` | src/server.rs:465-503 | every step of server, handlers, clients and executors keeps the invariant |
| `Runs.RunKeeps` | src/server.rs:465-503 | the invariant holds after every run |
| `Guarantees.PairingSound` | src/server.rs:301-328 | in every reachable state pairs are symmetric, no two executors share a client, waiting executors are distinct and unpaired |
| `Guarantees.ServerNeverPanics` | src/server.rs:568-643 | whatever message arrives in a reachable state, no assertion fails and no unknown message is met; without idle drops no counter underflows |
| `Guarantees.WatchdogNeverPanics` | src/server.rs:492-497 | the same for the watchdog |
| `Guarantees.ClientUnderstands` | src/client.rs:155-188 | every message put on a client's channel is a result, and file output among them is for a file the client has |
| `Guarantees.PeersNeverPanic` | src/exec.rs:35-63 | in every reachable state all that was ever put on a peer's channel it can handle: executors get only tasks and their dismissal, clients only results, with file indices in range |
| `Verdicts.ReleaseEnds` | src/server.rs:347-353 | the release ends in an error if and only if one of the first count + 1 waiting executors is out of reach, and else decrements zero if and only if more wait than are counted |
| `Verdicts.ReleaseCountExact` | src/server.rs:347-353 | a release goes through and keeps the executor count right if and only if every waiting executor is live and can be reached |
| `Verdicts.AssignEnds` | src/server.rs:301-338 | matching ends in an error if and only if one of the waiting executors that get a task is out of reach |
| `Verdicts.UpdateEnds` | src/server.rs:291-355 | how serving the queues ends, decided by the queue, the number of tasks, the count and whether a release is due |
| `Verdicts.MessageVerdict` | src/server.rs:485-491 | in every reachable state, exactly which next message ends the server, which underflows, and that none fails an assertion |
| `Verdicts.WatchdogVerdict` | src/server.rs:492-497 | the same for the watchdog |
| `Verdicts.AnyMessage` | src/server.rs:568-643 | in every reachable state, for any message from any connection, whether its program would send it or not: it fails an assertion if and only if it is one of those listed |
| `Admission.AdmissionControlled` | src/server.rs:537-542 | in every reachable state only peers with the server's and the user's code are queued, paired, counted or sent anything; any other is dead once its opening message was handled |
| `Admission.AdmissionGranted` | src/server.rs:537-542 | nobody with the right codes is turned away: once its opening message was read and handled a client's task is queued or given out, and an executor, of either queue, is enrolled until its drop is handled or it is dismissed |
| `Guarantees.TurnTakingHolds` | src/server.rs:532-560 | a message waits for a peer only when everything that peer wrote has been read and handled |
| `Guarantees.RunningFigure` | src/server.rs:358 | the reported running figure never underflows and is exactly the number of executors with an unfinished task, dropped ones included |
| `Guarantees.ExecutorCount` | src/server.rs:216-238 | without idle drops the executor count is the number of live executors after every run |
| `Guarantees.AnsweredUnlessLost` | src/server.rs:216-238 | with nothing queued, a waiting client was answered if and only if its task was not lost and is not still being worked on |
| `Guarantees.ShutdownExact` | src/server.rs:162-170 | when the server may stop, all waiting clients have their answer if and only if no such client's task went to a dead executor or is with a live one |
| `Guarantees.ShutdownSafe` | src/server.rs:162-170 | without idle drops, when the server may stop every accepted client that is not dead has been sent its terminal message |
| `Timing.ShutdownWaits` | src/server.rs:162-170 | after every run the server may stop if and only if nothing is queued, no executor is counted, and the configured seconds and one more have passed since the last message it handled |
| `Timing.ReleaseTimely` | src/server.rs:340-353 | a step earlier than the configured seconds and one more after the last submission dismisses nobody; one that serves the queues later, with nothing queued, dismisses every waiting executor |
| `Timing.RunStamps` | src/server.rs:255 | the two times the server remembers are those of the last message and of the last task of the run |
| `Leaving.ClientLeaves` | src/client.rs:96-105 | a client that does not crash leaves exactly when what it has read gives its session an exit status |
| `Leaving.ExecutorLeaves` | src/exec.rs:35-63 | an executor that does not crash leaves exactly when it has read its dismissal |
| `Counterexamples.IdleDropLosesTask` | src/server.rs:216-238 | a run with one idle drop after which the server may stop on a client that got nothing |
| `Counterexamples.IdleDropUnderflows` | src/server.rs:347-353 | a run with idle drops after which the watchdog decrements a zero executor count |
| `Counterexamples.BusyDropEndsServer` | src/server.rs:221-226 | a run without idle drops in which the drop of a busy executor, its client gone, ends the server |
| `Counterexamples.StrayResultFails` | src/server.rs:189 | a connection that opens with output makes the server fail its assertion |
| `Counterexamples.StrayTaskFails` | src/ipc.rs:86-95 | a task with the right codes and an output position out of range makes the server panic |
| `Counting.ExecutorCountExact` | src/server.rs:347-353 | after every run the executor count is too low by exactly the number of executors released after their drop was processed |
| `Accounts.RunAccounts` | src/server.rs:358 | submitted = finished + queued + with an executor, in every run; the executor count too when no idle executor dropped |
| `Accounts.ReleaseDrift` | src/server.rs:347-353 | a release moves the count away from the table by one for each dead executor in the queue |
| `Relay.OutputIsStretch` | src/exec.rs:68-132 | what an executor wrote for one task is one unbroken stretch of its writings |
| `Relay.RelayCorrect` | src/server.rs:585-630 | in every reachable state a client has been sent a beginning of its own task's output, nothing of any other task, at most one terminal message and that last |
| `Relay.RelayComplete` | src/server.rs:596-630 | a live client whose executor finished has been sent all of it |
| `Relay.NothingAfterTerminal` | src/server.rs:188-199 | once a client was sent a terminal message nothing is sent to it again, however the run goes on |
| `Relay.RunGrows` | src/server.rs:188-199 | messages accepted by a channel are never taken back or reordered |
| `Matching.AssignConserves` | src/server.rs:301-338 | matching empties one of the queues, taking executors from the front and as many tasks as executors |
| `Matching.UpdateQueues` | src/server.rs:291-355 | executors are dismissed only when no task is queued |
| `Matching.OneAtATime` | src/server.rs:284-338 | one event matches at most one task, of greatest priority; an event that frees an executor while tasks are queued matches exactly one; executors are served first come first served |
| `Matching.NeverIdleWhileQueued` | src/server.rs:301 | after every run the task queue or the executor queue is empty |
| `Matching.QueueStep` | src/server.rs:284-338 | without submissions, a step takes exactly one top task out of a non-empty queue if an executor became available, else none |
| `Matching.GoneForGood` | src/server.rs:302 | a task taken from the queue is not queued again |
| `Matching.BoundedWaiting` | src/server.rs:284-338 | with k others of at least its priority, a task is assigned within k+1 executor-ready events |
| `Matching.WaitingIsBounded` | src/server.rs:284-338 | the same from the start of the server, after any run |
| `Launching.LaunchClosedForm` | src/server.rs:401-429 | the counter ends at max(old, min(target, min(queued, maximum) - running - other)); the other counter stays |
| `Launching.StartExact` | src/server.rs:374-399 | what one pass leaves of both counters: nothing changes with an empty queue; else max(old, min(wanted, room)), wanted being keep_pending or what initial_count still lacks, and with two queues half of it, rounded up, in each, the second seeing the first |
| `Launching.UpdateStarts` | src/server.rs:291-297 | executors are started by the number of tasks queued before any is handed out |
| `Launching.FirstTaskStartsOne` | src/server.rs:412-418 | a single task and no executor anywhere start one |
| `Launching.StartBounds` | src/server.rs:374-399 | one pass stays within the queue length and the maximum and starts at most keep_pending + 1 |
| `Launching.ExecutorBudget` | src/server.rs:264-271 | if no more executors call in than were started, each pending counter is the number started and not yet enrolled, and running + pending never exceeds the maximum |
| `Launching.PendingBounded` | src/server.rs:374-429 | in every run each pending counter stays within max(keep_pending, initial_count) |
| `ListScheduling.ReachableIsStaffed` | src/server.rs:300-338 | every state reached without idle drops can be the start of a batch, with all executors connected as the crew |
| `ListScheduling.HandOver` | src/server.rs:300-338 | a single free executor takes a queued task of greatest priority at once |
| `ListScheduling.FinishWithWork` | src/server.rs:596-630 | while tasks are queued, an executor that finishes gets a top task and everybody is busy |
| `ListScheduling.FinishWithoutWork` | src/server.rs:596-630 | with nothing queued, an executor that finishes goes idle or is dismissed, and nobody else changes |
| `ListScheduling.OutputUndisturbed` | src/server.rs:585-595 | relayed output changes neither queue nor anybody's pairing |
| `ListScheduling.WatchUndisturbed` | src/server.rs:492-497 | while nobody is idle with a task queued, the watchdog matches nothing and dismisses idle executors at most |
| `ListScheduling.ListSchedulingBound` | README.md:118-119 | with m executors, whatever output is relayed and whenever the watchdog fires, a batch ends at T with m*T <= sum of times + (m-1) * longest time |
| `Framing.SizeRoundTrip` | src/ipc.rs:232-253 | a length comes back unchanged below 2^31 and enormous from there to 2^32 |
| `Framing.BigEndian` | src/ipc.rs:253 | a length is written most significant byte first |
| `Framing.Connection.ReadBuf` | src/ipc.rs:224 | a read moves bytes from the stream to the buffer, losing none; 0 exactly at the end |
| `Framing.Connection.Fill` | src/ipc.rs:223-235 | reading goes on until enough is buffered, and fails exactly if the stream is too short |
| `Framing.Connection.ReadMessage` | src/ipc.rs:220-247 | message, clean close, broken stream or garbage, and the bytes left, depend only on the bytes of the stream, not on the pieces |
| `Framing.Connection.WriteMessage` | src/ipc.rs:249-257 | a length and the payload are appended to what was sent |
| `Framing.ReadFrame` | src/ipc.rs:220-247 | a frame is read back and exactly its bytes are used up, whatever follows |
| `Framing.ReadFrameExact` | src/ipc.rs:220-257 | a frame is read back and leaves the stream at the next one if and only if its payload is shorter than 2^31 bytes |
| `Framing.LongFrame` | src/ipc.rs:232-253 | what a longer payload does: the stream breaks, or the end of the payload is left in it |
| `Framing.LongPayloadBreaks` | src/ipc.rs:232 | a payload of two gigabytes that breaks the stream |
| `Framing.LongerPayloadMisaligns` | src/ipc.rs:253 | a payload of four gigabytes that leaves the stream out of step |
| `Framing.CutFrame` | src/ipc.rs:223-246 | a cut frame is an error, or a clean close if nothing of it arrived |
| `Framing.ReadNext` | src/ipc.rs:220-247 | one read of a stream of frames returns the next message and leaves the rest, or reports the end |
| `Framing.ReadAll` | src/ipc.rs:220-247 | any split of the stream yields exactly the messages written, then a close; cut inside a frame, all complete messages and then an error |
| `Cancellation.DrainFrames` | src/ipc.rs:220-247 | any beginning of a stream yields the messages it wholly contains and leaves the reader part way into the next |
| `Cancellation.CancelExact` | src/server.rs:533-560 | abandoning a read keeps every byte if and only if fewer than four bytes of the current frame had arrived |
| `Cancellation.CompleteKeeps` | src/ipc.rs:232-243 | a read that has its length and as many bytes returns exactly the next message the peer wrote and leaves what comes after its frame |
| `Cancellation.WiredIsRun` | src/server.rs:532-560 | the system in which each handler's reader receives bytes, takes lengths, completes and is abandoned by every write does nothing the composed system does not do |
| `Cancellation.CancellationHarmless` | src/server.rs:532-560 | over all such runs: every completed read returns the next message written, so no frame is lost, repeated or misaligned, and a read is only abandoned with nothing received that was not used |
| `Framing.BytesAreLawful` | src/ipc.rs:241-250 | the assumption made about the payload encoding can be met |
| `Redirection.OutputsExact` | src/client.rs:273-283 | the output positions are exactly those after `-o` or `-MF`, strictly increasing and in range |
| `Redirection.NarrowExact` | src/client.rs:278 | stored in 16 bits they are right if and only if the last is below 65536, and in range always |
| `Redirection.FarOutputMisplaced` | src/client.rs:278 | a command line whose output position is stored wrong |
| `Redirection.HandleGnu` | src/client.rs:266-285 | local unless some argument asks for compilation; priority if some argument asks for dependencies; output positions as above |
| `Redirection.FlagsMean` | src/client.rs:275-282 | which flags make a command remote, which urgent, and after which an output follows |
| `Redirection.Compilation` | src/client.rs:287-294 | the ordinary compilation is remote and its output is the argument after `-o` |
| `Redirection.Dependencies` | src/client.rs:277-282 | a generation of dependencies is remote and urgent |
| `Redirection.Linking` | src/client.rs:267-270 | a link is local |
| `Redirection.BaseNameExact` | src/task.rs:97-98 | the base name is what follows the last slash, an empty or `.` end passed over; there is none for `..`, and then it is `unknown` |
| `Redirection.SecondOfName` | src/task.rs:100-107 | the second output of a name gets `.1` |
| `Redirection.DecimalRoundTrip` | src/task.rs:105 | decimal suffixes are injective |
| `Redirection.CandidatesDiffer` | src/task.rs:100-107 | the names tried are pairwise different |
| `Redirection.Pigeonhole` | src/task.rs:102-107 | if the first n names are taken, n names are taken |
| `Redirection.GenerateUniqueFile` | src/task.rs:95-111 | finds the first free candidate after at most one more try than names are taken, and takes it |
| `Redirection.RedirectDistinct` | src/task.rs:71-89 | one path per position, all different and none taken before |
| `Redirection.RedirectPlaces` | src/task.rs:79-83 | a position gets the path made for its last mention; other arguments stay |
| `Redirection.RedirectNames` | src/task.rs:95-111 | each path is in the directory and named after the argument it replaces |
| `Redirection.RedirectExact` | src/task.rs:79-83 | the argument at a position is the path made for it if and only if the position is not mentioned again |
| `Redirection.RedirectAligned` | src/task.rs:71-89 | for the positions the client stores, if the last fits in 16 bits, the k-th path stands at the k-th position, named after what it replaces, and all else is unchanged |
| `Redirection.RedirectOutputs` | src/task.rs:71-89 | the in-place loop does this to the argument array; no outputs change nothing, a missing directory is an error |
| `Transfer.SendOutputFile` | src/exec.rs:135-152 | the blocks are non-empty, at most 65536 bytes, and make up the file; a file that does not open sends nothing; a failing read leaves a beginning |
| `Transfer.RelayPipes` | src/exec.rs:84-113 | in any interleaving, each stream arrives complete and in order |
| `Transfer.SendFiles` | src/exec.rs:119-121 | the files at the given paths are sent one after the other under their indices, up to one that cannot be read |
| `Transfer.RunTask` | src/exec.rs:79-132 | the output of a command and the files at the given paths of the executor's disk, then the completion; no completion if a file cannot be read to its end |
| `Transfer.Client.constructor` | src/client.rs:191-196 | one unopened file for each output name, nothing created yet |
| `Transfer.Client.WriteOutput` | src/client.rs:181-188 | output goes to its stream or file, a file being created in the place its name stands for at its first block; an index out of range or a shut file panics |
| `Transfer.Client.HandleMsg` | src/client.rs:155-178 | a failure gives status -1, a completion its exit code, or none; other messages panic |
| `Transfer.Client.Wait` | src/client.rs:96-105 | messages are handled in order until one gives a status or the connection closes |
| `Transfer.ReceiveBlocks` | src/client.rs:32-49 | blocks received in a row make up the file; none leave no trace |
| `Transfer.SessionIsReceive` | src/client.rs:96-105 | a client receiving output and one terminal message handles all of it |
| `Transfer.SessionEnds` | src/client.rs:155-178 | a session has a status if and only if a message gives one; a failure gives -1, a completion its exit code |
| `Transfer.SessionStops` | src/client.rs:96-105 | once it has a status the client looks at nothing more |
| `Transfer.TransferCorrect` | src/exec.rs:119-132 | a client that receives what an executor writes ends with the same streams and exit code and with the files delivered to the places of their names, and no index is out of range |
| `Transfer.DeliveredExact` | src/client.rs:32-49 | a place holds the last non-empty file sent for it; places without one are untouched, so a file is created exactly if it opened and was not empty |
| `Transfer.ArrivesExact` | src/client.rs:181-196 | a file arrives intact if and only if the last non-empty file for its place, whatever its name, has the same contents |
| `Transfer.DeliveredSettles` | src/client.rs:32-49 | place by place and file by file what the client's disk holds: a place is newly filled exactly if a non-empty file came for it, others are untouched, a file is intact exactly if it equals the last for its place |
| `Transfer.SharedPlaceLosesOutput` | src/client.rs:41 | two outputs for one place, under one name or any two names, of which the first is lost |
| `Execution.HandleNewTask` | src/exec.rs:68-132 | a task that cannot start is answered by one failure; else the command is run on the redirected arguments and what is sent is its output, the files it left at the redirected paths, and a completion under the id of the task as submitted |
| `Execution.EmitAll` | src/exec.rs:68-132 | all the executor's program writes, an executor of the composed system can write, message by message |
| `Execution.OutputIsWritten` | src/exec.rs:68-132 | in every run the output of a task is exactly what its executor wrote while working on it, whatever steps came in between |
| `EndToEnd.WorkInRange` | src/task.rs:79-83 | in every reachable state the task a busy executor works on has its output positions in range |
| `EndToEnd.AllReturned` | src/task.rs:71-89 | with different places, each output is found in the place of its original name as the command wrote it under the redirected one, or left alone if that does not open or is empty |
| `EndToEnd.IndicesStayInRange` | src/client.rs:191-196 | in every reachable state every client's output positions are inside its arguments |
| `EndToEnd.FilesArrive` | src/exec.rs:119-149 | through the server, in every run and every interleaving: a client whose task an executor finished by its program ends with the command's streams and exit code, and its disk is exactly settled by the files the command left at the redirected paths; with different places every `args[output_args[i]]` leads to what the command wrote at the redirected argument |
| `EndToEnd.DropReported` | src/server.rs:218-228 | after every run a client whose executor dropped with its task has been sent a failure last, and its session ends with -1 |
| `EndToEnd.RefusalReported` | src/exec.rs:72-75 | a client whose executor refused its task ends with -1, its disk untouched |
| `EndToEnd.CompletionId` | src/exec.rs:68-70 | a completion carries the id of the task its own client submitted |
| `EndToEnd.RecordedUnderLookupKey` | src/server.rs:602-604 | a success is recorded under the very id by which the server will look the task up, although the executor redirected the arguments |
| `EndToEnd.RunTimeRecorded` | src/exec.rs:124-129 | what is recorded for a success is the time the command ran, not the time its output took to send |
| `Histories.History.IsEmpty` | src/history.rs:24-26 | true exactly if nothing is recorded |
| `Histories.History.Get` | src/history.rs:29-31 | the elapsed time recorded, if any |
| `Histories.History.Update` | src/history.rs:34-36 | a new entry replaces the old one under its key and no other |
| `Histories.History.Merge` | src/history.rs:44-46 | incoming entries win, others stay |
| `Histories.WriteHistoryFile` | src/history.rs:110-132 | the file becomes what it held overridden by the session's results, without entries as old as the cutoff; a missing file counts as empty |
| `Histories.PurgedAfterHalfAYear` | src/history.rs:119-120 | an entry 183 days old at the write is purged, a younger one kept |
| `Histories.Shutdown` | src/server.rs:173-179 | a server that recorded nothing leaves the file alone; else it is merged and purged |
| `Histories.EarlyPurgeExact` | src/history.rs:114-120 | purging early changes the result if and only if some entry is neither renewed nor too old at the end, which takes a clock going back |
| `Histories.PurgeOnce` | src/history.rs:110-120 | purging at every write leaves the same file as keeping everything and purging once at the end |
| `Histories.PriorityFeedback` | src/server.rs:243-254 | the last success of a target, unless purged, sets the priority of that target in a later session, plus 300 seconds for a priority task |
| `Histories.PriorityInSeconds` | src/server.rs:245-248 | a target without a recorded time counts as one second, a priority task as 300 seconds more |
| `Feedback.MakingIsRecorded` | src/server.rs:602-604 | after every run the server's record is exactly the run's successes, the last per id, under the ids of the tasks as their clients submitted them |
| `Feedback.RunPriced` | src/server.rs:243-254 | in every state of a run every queued task has the priority its id and kind give it |
| `Feedback.FeedbackOverRuns` | src/server.rs:243-254 | the last success in one server's run, unless purged, decides the priority at which a later server's queue holds a task with that id, in every state it reaches |

## Left out

- Encodings by bincode, serde and TOML: payloads are any encoding that decodes what it encoded and ignores what follows.
- Inside of the priority queue and of the channels, including the capacity of 256 messages and waiting for room in them.
- Liveness: nothing says that a peer, the handler or the watchdog ever takes its next step; waiting is bounded in events.
- src/config.rs and src/main.rs: files, limits and arguments of the programs.
- Spawning processes, finding the compiler on PATH, temporary directories, connecting and retrying, network addresses.
- Running a task locally, and the client's choice of compiler.
- Splitting stdout and stderr into lines and their character encoding: each piece sent is given.
- Cancelling a task: not implemented in the source.
- Servers that write the history at overlapping times: their read and rename are not one step.
- Byte counters, timing statistics, printing.
- Errors of the client's disk.
- ListScheduling.ListSchedulingBound: time is a model of its own: a task keeps its executor busy for a fixed time, and
  handling a message takes none.
- Execution.HandleNewTask: the texts of the failures are shortened; a command that cannot be started makes the executor end.
- Transfer.Client.Wait: closing the files and the panic when the connection ends without a status are not modelled.
- Sums of times are unbounded: the overflow of the run-time totals, or of a priority, by absurd durations
  (src/server.rs:248, 622-623) is not modelled.
