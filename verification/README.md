# Verified model of scaproust

A Dafny model of the core of scaproust, an implementation of the nanomsg scalability protocols, with proofs of what
its parts keep over every input and every run. The parts compose:

* **The endpoint scheduler** (`Core`, `Scheduling`, `Priolist`, `SchedulingLaws`, `ServiceOrder`): a vector with a
  cached cursor, sixteen priority classes and a round robin in each. The cursor is always a best active item, waiting
  is bounded, draining is ordered. Two conditions are exact: priorities above 16 are lost by the search, and removal
  strands the cursor exactly when the cursor is in the last slot and another item is removed.
* **Resumable framing** (`Streams`, `Sending`, `Receiving`, `Pipes`, `PipeLaws`, `PipeTurns`,
  `PipeEnds`, `PipeProgress`, `PipeObjects`, `ActivePipe`): the TCP
  and IPC writers and readers, the stub with its pending operations, and the `Active` pipe state. A stream carries the
  script of what the operating system answers to each call, so that a statement for every script is a statement for
  every chunking, every would-block and every failure.
* **Backtrace routing** (`Backtrace`, `Devices`): requests and replies through chains of any number of devices, for the
  codecs and for chains of the sockets themselves.
* **The protocols** (`Contexts`, `RequestIds`, `Broadcast`, `Push`, `Pull`, `Pair`, `Req`, `ReqLaws`, `Rep`, `RepLaws`,
  `Surveyor`, `SurveyorLaws`, `Bus`, `BusLaws`, and `Reports` with a module for each protocol) and **polling** (`Probe`): state machines whose context records every answer to the user, every message handed to a
  pipe, every notice raised and every live timer, so that laws speak about whole runs with events in any order.

The `Reports` modules tie what a socket stores to what it was told. Who is there, who is ready and who is waited for is
computed from the events and from what was asked and sent, and over that it is proved exactly when a pipe is asked or
given a message, what the user is answered, and what the notices say.

Each part is written twice: as functions on values, about which the laws are proved, and, where the program updates
objects in place, as classes whose methods are proved to do what those functions say. The protocols with a scheduler
have a third form, `CodeStep`: a step with the removal as the code has it, and nothing if it pops past the end of the
vector. It is what their classes do (`CodeStep(old(View()), event) == Some(View())`), and `EveryCodeRunIff` ties its runs
to those of the laws. Randomness, time and the environment are parameters of events: the seed of a request id, the timer that
scheduling returns (or nothing if it fails), the order in which a set is drained.

## Model

| member | source | states |
|---|---|---|
| Core.ReadOfWrite | src/transport/tcp/send.rs:84-91 | a big-endian word read back is the number written, modulo what fits |
| Core.WriteOfRead | src/proto/req.rs:551-567 | a word written back from what was read is the same bytes |
| Core.TopBitOfWord | src/proto/rep.rs:463-466 | the first byte has its top bit set exactly when the number is at least 2^31 modulo 2^32 |
| Scheduling.Find | src/proto/priolist.rs:205-218 | the result is the first match of the range; none means there is none |
| SchedulingLaws.NextCursorIsBest | src/proto/priolist.rs:162-180 | the search finds a best active item, nearest after the pivot in its class and lowest in others |
| SchedulingLaws.NextCursorFindsNothingIff | src/proto/priolist.rs:162-180 | the search finds nothing exactly when every active item is outside the pivot's class and the sixteen classes |
| SchedulingLaws.PopKeepsCursorIff | src/proto/priolist.rs:127-180 | for any priorities, pop leaves a right cursor exactly when it served the only active item or another is in the same class or in one up to 16 |
| SchedulingLaws.DeactivateKeepsCursorIff | src/proto/priolist.rs:142-160 | for any priorities, deactivate leaves a right cursor exactly when it is not the cursor's item or the search sees what is left |
| SchedulingLaws.PriorityAboveSixteenIsLost | src/proto/priolist.rs:172-179 | priority 17 is accepted and then lost: a concrete run |
| SchedulingLaws.ActiveMeansPeek | src/proto/priolist.rs:138-140 | there is a cursor exactly when something is active |
| SchedulingLaws.InsertKeeps | src/proto/priolist.rs:74-76 | insert keeps the cursor invariant and adds an inactive member |
| SchedulingLaws.ActivateKeeps | src/proto/priolist.rs:93-117 | activate keeps the invariant, adds exactly that member to the active ones, and changes the cursor only for a better class |
| SchedulingLaws.DeactivateKeeps | src/proto/priolist.rs:142-160 | deactivate keeps the invariant and removes exactly that member from the active ones |
| SchedulingLaws.PopKeeps | src/proto/priolist.rs:127-136 | pop keeps the invariant, returns an active member and deactivates it; it returns nothing exactly when nothing is active |
| SchedulingLaws.PopServesBest | src/proto/priolist.rs:127-180 | what pop returns has the best priority, as inserted, among what is active |
| SchedulingLaws.RemoveFollowingKeeps | src/proto/priolist.rs:28-48 | the documented removal keeps the invariant and leaves the current item current unless it is the one removed |
| SchedulingLaws.RemoveKeepsCursorIff | src/proto/priolist.rs:78-91 | for any priorities, the code meets the documented removal and keeps its cursor in range, each exactly when the cursor is not stranded; it keeps the cursor right exactly when, besides, the search sees what is left if the current item is the one removed |
| SchedulingLaws.StrandingHappens | src/proto/priolist.rs:84-91 | two inserts and one activation lead to a state in which removal strands the cursor |
| SchedulingLaws.OutOfRangeIff | src/proto/priolist.rs:74-160 | for any state whatever, exactly when each operation leaves a cursor that the next pop would panic on: a removal makes it so, an insertion mends it for a cursor just past the end, an activation if it takes the cursor, a deactivation never |
| ServiceOrder.BoundedWaiting | src/proto/priolist.rs:99-180 | over any interleaving of pops, activations and deactivations of others, an item that stays active in the best class is returned within (circular distance from the cursor) + 1 pops |
| ServiceOrder.PopKeepsOrder | src/proto/priolist.rs:127-180 | what pop serves came first, and the others keep their order |
| ServiceOrder.DrainServesEachOnceInOrder | src/proto/priolist.rs:127-180 | popping until none is left serves every active item exactly once, by class, round from the cursor in the first class |
| Priolists.Priolist.FindFirst | src/proto/priolist.rs:205-218 | the loop returns the first match |
| Priolists.Priolist.ComputeNext | src/proto/priolist.rs:162-180 | the search over the rest of the class, its start and the lower classes, in place |
| Priolists.Priolist.Insert | src/proto/priolist.rs:74-76 | the new vector and cursor |
| Priolists.Priolist.Activate | src/proto/priolist.rs:93-117 | the new vector and cursor |
| Priolists.Priolist.Deactivate | src/proto/priolist.rs:142-160 | the new vector and cursor |
| Priolists.Priolist.Peek | src/proto/priolist.rs:138-140 | ready exactly when there is a cursor |
| Priolists.Priolist.Pop | src/proto/priolist.rs:127-136 | the id served, the new vector and cursor |
| Priolists.Priolist.Remove | src/proto/priolist.rs:78-91 | the new vector and cursor as the code leaves them |
| Streams.FlatWrite | src/transport/tcp/send.rs:182-200 | a vectored write takes a prefix of the buffers end to end; would-block counts as nothing written |
| Streams.FlatRead | src/transport/async/stub.rs:105-119 | what is read is a prefix of what the stream holds; would-block counts as nothing read |
| Sending.TcpTransportHdrAppends | src/transport/tcp/send.rs:84-131 | the first vectored write appends the bytes of the frame from the saved offset, across all three sections, and saves where it stopped |
| Sending.TcpProtocolHdrAppends | src/transport/tcp/send.rs:133-159 | the same from inside the protocol header |
| Sending.TcpUsrPayloadAppends | src/transport/tcp/send.rs:161-180 | the same from inside the payload |
| Sending.IpcTransportHdrAppends | src/transport/ipc/send.rs:81-93 | the sectioned writer appends its part of the frame |
| Sending.IpcProtocolHdrAppends | src/transport/ipc/send.rs:95-106 | the same for the protocol header |
| Sending.IpcUsrPayloadAppends | src/transport/ipc/send.rs:108-119 | the same for the payload |
| Sending.RunAppends | src/transport/tcp/send.rs:38-54 | for either transport, any step and any stream: a run appends a contiguous part of the frame from the saved offset, the new offset denotes exactly what is out, and it returns true exactly when the frame is whole |
| Receiving.FrameIsFrame | src/transport/tcp/recv.rs:69-84 | what the writers put out announces its own length and carries header and body end to end |
| Receiving.RunParses | src/transport/tcp/recv.rs:26-94 | for either transport, any step inside a frame and any stream, of which a part may still be to come: a run returns exactly the payload of the frame and leaves the rest of the stream, or saves where it stands; an oversize frame is refused after its header with nothing to resume |
| Pipes.ResumeSaves | src/transport/tcp/stub.rs:52-60 | an unfinished send leaves an operation that can be resumed, of the same message |
| Pipes.ResumeReadSaves | src/transport/tcp/stub.rs:61-69 | an unfinished receive leaves an operation that can be resumed |
| PipeObjects.SendOperation.Run | src/transport/tcp/send.rs:30-54 | the resume loop; a finished operation cannot be run |
| PipeObjects.ReadBuffer | src/transport/async/stub.rs:105-119 | the buffer is filled in place with exactly what was read |
| PipeObjects.ReadHeader | src/transport/tcp/recv.rs:69-84 | the header buffer, then a payload buffer of the announced size or a refusal |
| PipeObjects.ReadPayload | src/transport/tcp/recv.rs:86-94 | the payload buffer, then the message |
| PipeObjects.AdmitPayload | src/transport/tcp/recv.rs:74-80 | an announced size above the limit is refused, any other gets a zeroed buffer of that size |
| PipeObjects.ResumeLive | src/transport/ipc/recv.rs:34-50 | the resume loop over buffers in place, for both transports |
| PipeObjects.RecvOperation.Run | src/transport/ipc/recv.rs:26-33 | the step is taken, resumed and stored again if unfinished; a finished operation cannot be run |
| PipeLaws.EveryRunSendsFrames | src/transport/async/active/unix.rs:38-65 | whatever comes in and whatever becomes of the pipe, after every run the stream holds the whole frames of the messages that raised Sent, in order, and a part of at most one more; of a pipe that is not dead that part is exactly what the saved operation denotes, each Send raises at most one Sent, and CanSend(true) is never raised while a send is pending |
| PipeLaws.Completes | src/transport/ipc/recv.rs:69-84 | any bytes are whole frames and the beginning of at most one more |
| PipeLaws.EveryRunReceivesFrames | src/transport/async/active/unix.rs:67-95 | whatever bytes come in, whole frames or not, and whatever becomes of the pipe, what every run hands up are the payloads of the first whole frames, in order and unchanged |
| PipeLaws.EveryRunIsFramed | src/transport/async/active/unix.rs:127-151 | both at once |
| PipeTurns.PoliteRunIsAllowed | src/transport/async/active/unix.rs:44-95 | a layer that sends only on CanSend(true) and receives only on CanRecv(true), each taken back by its own call, never starts an operation over an unfinished one |
| PipeProgress.PermissionIsGivenIff | src/transport/async/active/unix.rs:38-105 | after any run and a readiness event that the pipe survives, the layer above may send exactly if the pipe is writable and every message handed to it is out, and receive exactly if it is readable and every call has handed one up |
| PipeProgress.PermissionsAreNews | src/transport/async/active/unix.rs:44-105 | in every run a permission is raised or taken back only if that is news, and none is given by a call or on a hang-up |
| PipeProgress.EveryOperationIsTried | src/transport/async/active/unix.rs:127-151 | after any run, a call, and a readiness event that finds an operation unfinished, uses at least one answer of the stream it is for |
| PipeProgress.SendsInOneGo | src/transport/tcp/send.rs:38-54 | after any run, a message handed to a pipe raises Sent at once if the stream takes all it is offered |
| PipeProgress.FinishesInOneGo | src/transport/async/active/unix.rs:44-65 | and so does an unfinished one when the pipe becomes writable |
| PipeProgress.ReceivesInOneGo | src/transport/ipc/recv.rs:34-94 | after any run, a call to receive hands up the next whole frame at once, if there is one within the limit and the stream gives all it is asked for |
| PipeEnds.ResumeUses | src/transport/tcp/send.rs:38-54 | a run of either writer fails exactly if one of the answers it used is a failure |
| PipeEnds.ResumeReadUses | src/transport/ipc/recv.rs:34-50 | a run of either reader fails otherwise than for the size exactly if one of the answers it used is a failure |
| PipeEnds.ReadIsAcceptedIff | src/transport/tcp/recv.rs:69-84 | where the reader stands in the frames decides whether every header it read announces an accepted size |
| PipeEnds.DiesIff | src/transport/async/active/unix.rs:38-105 | after a run a pipe is dead exactly if it was told of a hang-up, a write or a read it made failed, or a header it read announces more than the limit |
| PipeEnds.NeverDies | src/transport/async/active/unix.rs:38-105 | so on streams without failures and oversize announcements, without a hang-up, it never dies |
| PipeEnds.DeathIsTold | src/transport/async/state.rs:77-85 | an error is raised exactly if the pipe is dead, and nothing after it |
| PipeLaws.EmptiedMeansAll | src/transport/tcp/recv.rs:26-94 | a reader that has emptied a stream of written frames has handed up every message, in order, header and body joined |
| PipeLaws.NothingIsLostBetween | src/transport/ipc/recv.rs:34-94 | any two runs of two pipes, whatever fails on either side and whenever: what comes out of one is what was handed to the other from the first message on, without a gap, in order, header and body joined |
| PipeLaws.EndToEnd | src/transport/ipc/recv.rs:34-94 | and if neither died, the sender is idle and the reader has emptied its stream, it is all of it |
| ActivePipes.PipeStub.RunSendOperation | src/transport/tcp/stub.rs:52-60 | the operation is kept exactly if it is unfinished |
| ActivePipes.PipeStub.ReadWith | src/transport/tcp/stub.rs:61-69 | an operation that is not the stored one is run on the stream, and the stored one is untouched |
| ActivePipes.PipeStub.RunRecvOperation | src/transport/tcp/stub.rs:61-69 | the operation is kept exactly if it is unfinished |
| ActivePipes.PipeStub.StartSend | src/transport/tcp/stub.rs:85-90 | the stub after a send is started |
| ActivePipes.PipeStub.ResumeSend | src/transport/tcp/stub.rs:91-98 | the stub after a send is resumed, and the error if none is pending |
| ActivePipes.PipeStub.StartRecv | src/transport/tcp/stub.rs:111-116 | the stub after a receive is started |
| ActivePipes.PipeStub.ResumeRecv | src/transport/tcp/stub.rs:117-124 | the stub after a receive is resumed, and the error if none is pending |
| ActivePipes.ActivePipe.WritableChanged | src/transport/async/active/unix.rs:44-65 | a writable pipe resumes a pending send or else raises CanSend if that is news |
| ActivePipes.ActivePipe.ReadableChanged | src/transport/async/active/unix.rs:73-95 | the receiving counterpart |
| ActivePipes.ActivePipe.ChangeCanSend | src/transport/async/active/unix.rs:60-65 | CanSend is raised exactly if it is news |
| ActivePipes.ActivePipe.ChangeCanRecv | src/transport/async/active/unix.rs:89-95 | CanRecv is raised exactly if it is news |
| ActivePipes.ActivePipe.HangUpChanged | src/transport/async/active/unix.rs:96-105 | a hang-up takes both permissions back and fails |
| ActivePipes.ActivePipe.OnSendProgress | src/transport/async/active/unix.rs:38-43 | Sent is raised exactly for a finished message |
| ActivePipes.ActivePipe.OnRecvProgress | src/transport/async/active/unix.rs:67-72 | a complete message is handed up |
| ActivePipes.ActivePipe.Send | src/transport/async/active/unix.rs:127-134 | the whole pipe after a send |
| ActivePipes.ActivePipe.Recv | src/transport/async/active/unix.rs:135-142 | the whole pipe after a receive |
| ActivePipes.ActivePipe.Ready | src/transport/async/active/unix.rs:143-151 | the whole pipe after a readiness event, dead if any part failed |
| Backtrace.RawMsgToMsg | src/proto/rep.rs:439-470 | the loop moves words from body to header up to the first with its top bit set, within the hop limit |
| Backtrace.UnwindSplitsAtBottom | src/proto/rep.rs:449-469 | if word j is the first with its top bit set, and within the hop limit, the message splits exactly after it |
| Backtrace.UnwindNeedsBottom | src/proto/rep.rs:449-469 | conversely a message that splits has such a word |
| Backtrace.UnwindConserves | src/proto/rep.rs:439-470 | no byte is lost or reordered |
| Backtrace.RequestArrivesIff | DEVICE.MD:5-31 | a request arrives with its body unchanged and the whole path in its backtrace exactly when there are at most seven devices and no endpoint on the way looks like a request id |
| Backtrace.ReplyRetracesPath | src/proto/rep.rs:471-490 | the reply visits exactly the reverse of the path and comes back with the request id in front of its body |
| Backtrace.RequesterDecodes | src/proto/req.rs:551-567 | the requester reads back its id and the reply's body |
| Backtrace.ChainRoundTrip | DEVICE.MD:5-31 | for every path of endpoints below 2^31: delivered exactly up to seven devices, reply along the reverse path, original id and reply body at the requester |
| Devices.RequestPasses | src/proto/rep.rs:417-426 | one device, as steps of its replier and its requester, forwards exactly what the replier's codec makes of the request |
| Devices.ReplyPasses | src/proto/rep.rs:215-222 | one device takes the next endpoint from the backtrace of a reply and sends the rest there |
| Devices.ForwardIsPassing | DEVICE.MD:5-17 | a chain of device sockets passes a request as the codecs do |
| Devices.BackRetraces | DEVICE.MD:18-31 | a chain of device sockets passes a reply back along exactly the reverse path |
| Devices.RequestCrosses | DEVICE.MD:5-17 | over any chain of sockets and with any timers, what the requester's step puts on the wire is handed to the replier's user with its body unchanged and the way back kept, exactly with at most seven devices |
| Devices.ReplyCrosses | DEVICE.MD:18-31 | with any timers, what the replier's step puts on the wire visits the reverse path and is handed to the requester's user with the id of its request |
| RequestIds.IdsCollideIff | src/proto/req.rs:524-531 | two sends carry the same id exactly when they are a multiple of 2^31 apart, also if the counter wraps |
| RequestIds.IdIsBottom | src/proto/surv.rs:456-463 | every id has its top bit set and survives the wire |
| Contexts.ChecksTellIff | src/core/context.rs:16-25 | after a check the last notices are the readiness and all alternate exactly if before it they said what was: once one was wrong they never alternate again |
| Contexts.ChecksAgreeIff | src/core/context.rs:16-25 | after a check the last notice of a side is its readiness exactly if it was before or the readiness changed |
| Contexts.NestedChecksTellIff | src/proto/req.rs:109-124 | the same for checks of a nested transition, raised before those of the removal around it, if on each side only one of the two sees a change |
| Contexts.NestedChecksAgreeIff | src/proto/req.rs:109-124 | the same of the last notices alone |
| Broadcast.ReachesEachOnce | src/proto/policy.rs:16-25 | a broadcast reaches every ready pipe exactly once and nothing else, in whatever order the set is drained |
| Broadcast.SendToAll | src/proto/policy.rs:16-25 | the loop drains the whole set |
| Broadcast.SendToAllExcept | src/proto/policy.rs:26-37 | the loop drains the set, skips one and leaves it ready |
| PushProtocol.ReadinessIsTold | src/proto/push.rs:89-101 | after every run the last notice is the actual readiness, and notices alternate |
| PushProtocol.EveryRun | src/proto/push.rs:160-285 | one answer per call, timers exactly those held, on hold only when no pipe is ready, the message under way is the one submitted last |
| PushProtocol.OnlyTheUsedPipeAcknowledges | src/proto/push.rs:186-198 | a send is acknowledged only by the pipe that was given it |
| PushProtocol.EveryCodeRunIff | src/proto/push.rs:252-255 | a run of the code, with the scheduler's own removal, takes at every point the step the laws are about exactly if no removal strands the cursor, and then it is the run the laws are about |
| PushProtocol.StrandedSendPanics | src/proto/priolist.rs:127-136 | a run that strands the cursor, after which a send panics |
| PushProtocol.CodeCanComeBack | src/proto/priolist.rs:84-91 | a run that strands the cursor and yet ends where the documented removal does, without a panic |
| PushReports.ReadyIsWhatWasReported | src/proto/push.rs:199-275 | after every run the scheduler counts as ready exactly the pipes present that reported ready and were given nothing since, and the pipe waited for is the one given a message last |
| PushReports.SendsExactlyIf | src/proto/push.rs:160-211 | after any run, the message submitted last is given to exactly one pipe, of those that are ready by the reports, exactly if a send starts, a pipe opens while one waits for nobody, or the pipe waited for leaves, and somebody is ready |
| PushReports.BestIsUsed | src/proto/push.rs:248-258 | after any run, who is given a message has the best priority, as it joined with, among those that are ready by the reports |
| PushReports.AnswersExactly | src/proto/push.rs:179-226 | after any run, a send is acknowledged exactly by the pipe waited for, and each failure has its cause |
| PushReports.ToldWhatWasReported | src/proto/push.rs:45-62 | the last notice is that the user can send exactly if a pipe is ready by the reports |
| PushSockets.Push.Send | src/proto/push.rs:179-185 | the whole socket after a send |
| PushSockets.Push.OnSendReady | src/proto/push.rs:204-211 | the whole socket after a pipe becomes ready |
| PushSockets.Push.OnSendAck | src/proto/push.rs:186-198 | the whole socket after an acknowledgment |
| PushSockets.Push.RemovePipe | src/proto/push.rs:89-101 | the whole socket after a pipe is lost, as the code leaves it, also when the cursor is stranded |
| PushSockets.Push.AddPipe | src/proto/push.rs:248-251 | a new pipe is known and not ready |
| PushSockets.Push.OnSendTimeout | src/proto/push.rs:199-203 | the whole socket after a send timed out |
| PushSockets.Push.OnSendNotReady | src/proto/push.rs:212-215 | the whole socket after a pipe is ready no more |
| PushSockets.Push.Recv | src/proto/push.rs:223-226 | a receive is refused and its timer cancelled |
| PullProtocol.ReadinessIsTold | src/proto/pull.rs:89-101 | after every run the last notice is the actual readiness, and notices alternate |
| PullProtocol.EveryRun | src/proto/pull.rs:160-283 | one answer per call, timers exactly those held, on hold only when no pipe is ready |
| PullProtocol.OnlyTheAskedPipeDelivers | src/proto/pull.rs:207-219 | a message is handed over only if it comes from the pipe asked last |
| PullProtocol.EveryCodeRunIff | src/proto/pull.rs:250-253 | a run of the code, with the scheduler's own removal, takes at every point the step the laws are about exactly if no removal strands the cursor, and then it is the run the laws are about |
| PullReports.ReadyIsWhatWasReported | src/proto/pull.rs:220-275 | after every run the scheduler counts as ready exactly the pipes present that reported ready and were not asked since, and the pipe waited for is the one asked last |
| PullReports.AsksExactlyIf | src/proto/pull.rs:160-232 | after any run, exactly one pipe is asked, of those that are ready by the reports, exactly if a receive starts, a pipe opens while one waits for nobody, or the pipe waited for leaves, and somebody is ready |
| PullReports.BestIsAsked | src/proto/pull.rs:246-264 | after any run, who is asked has the best priority, as it joined with, among those that are ready by the reports |
| PullReports.AnswersExactly | src/proto/pull.rs:179-224 | after any run, the user gets a message exactly if it comes from the pipe waited for, and each failure with its cause |
| PullReports.ToldWhatWasReported | src/proto/pull.rs:45-62 | the last notice is that the user can receive exactly if a pipe is ready by the reports |
| PullSockets.Pull.Recv | src/proto/pull.rs:202-206 | the whole socket after a receive |
| PullSockets.Pull.OnRecvAck | src/proto/pull.rs:207-219 | the whole socket after a message came |
| PullSockets.Pull.OnRecvReady | src/proto/pull.rs:225-232 | the whole socket after a pipe becomes ready |
| PullSockets.Pull.RemovePipe | src/proto/pull.rs:89-101 | the whole socket after a pipe is lost, as the code leaves it, also when the cursor is stranded |
| PullSockets.Pull.AddPipe | src/proto/pull.rs:246-249 | a new pipe is known and not ready |
| PullSockets.Pull.OnRecvTimeout | src/proto/pull.rs:220-224 | the whole socket after a receive timed out |
| PullSockets.Pull.OnRecvNotReady | src/proto/pull.rs:233-236 | the whole socket after a pipe is ready no more |
| PullSockets.Pull.Send | src/proto/pull.rs:179-182 | a send is refused and its timer cancelled |
| PairProtocol.ReadinessIsTold | src/proto/pair.rs:45-102 | after every run the last notices are the actual readiness, and notices alternate |
| PairProtocol.EveryRun | src/proto/pair.rs:163-363 | one answer per call, timers exactly those held, on hold only when the peer is not ready |
| PairProtocol.OnlyTheAskedPeerDelivers | src/proto/pair.rs:240-252 | a message is handed over only if it comes from the present peer, asked last |
| PairProtocol.OnlyTheUsedPeerAcknowledges | src/proto/pair.rs:198-210 | a send is acknowledged only by the present peer, which was given it |
| PairReports.ReadyIsWhatWasReported | src/proto/pair.rs:216-285 | after every run the peer is the first pipe that joined and has not left, and it is ready for what it reported last and was not used for since |
| PairReports.DoesExactly | src/proto/pair.rs:163-269 | after any run, the peer is given the message submitted last, or asked for one, exactly if a send, or a receive, starts or waits and the peer is ready for it; the user gets what that peer acknowledges or hands up, and each failure with its cause |
| PairReports.TurnsAwayExactly | src/proto/pair.rs:279-285 | a pipe is turned away exactly if it joins while there is a peer |
| PairReports.ToldWhatWasReported | src/proto/pair.rs:45-72 | the last notices are what the peer is ready for by its reports |
| PairSockets.Pair.AddPipe | src/proto/pair.rs:279-285 | a second peer is closed |
| PairSockets.Pair.RemovePipe | src/proto/pair.rs:94-102 | the whole socket after the peer is lost |
| PairSockets.Pair.Send | src/proto/pair.rs:191-197 | the whole socket after a send |
| PairSockets.Pair.Recv | src/proto/pair.rs:235-239 | the whole socket after a receive |
| PairSockets.Pair.OnSendAck | src/proto/pair.rs:198-210 | the whole socket after an acknowledgment |
| PairSockets.Pair.OnSendTimeout | src/proto/pair.rs:211-215 | the whole socket after a send timed out |
| PairSockets.Pair.OnSendReady | src/proto/pair.rs:216-223 | the whole socket after the peer becomes ready for a message |
| PairSockets.Pair.OnSendNotReady | src/proto/pair.rs:224-227 | the whole socket after the peer is ready no more |
| PairSockets.Pair.OnRecvAck | src/proto/pair.rs:240-252 | the whole socket after a message came |
| PairSockets.Pair.OnRecvTimeout | src/proto/pair.rs:253-257 | the whole socket after a receive timed out |
| PairSockets.Pair.OnRecvReady | src/proto/pair.rs:258-265 | the whole socket after the peer has a message |
| PairSockets.Pair.OnRecvNotReady | src/proto/pair.rs:266-269 | the whole socket after the peer has none |
| ReqLaws.ReadinessIsTold | src/proto/req.rs:66-83 | after every run, of a regular socket or of a device's, the last notices are the actual readiness, and notices alternate |
| ReqLaws.RemovalTellsIff | src/proto/req.rs:109-124 | losing a pipe keeps the notices as right as they were although the nested transition checks too |
| ReqLaws.PluggingTellsIff | src/proto/req.rs:172-174 | plugging a device at any point of a run leaves the notices right, then and after, exactly if the socket was then as ready in one mode as in the other |
| ReqLaws.PluggingCanLie | src/proto/req.rs:172-174 | a run after which plugging leaves them wrong |
| ReqLaws.RunAgreesIff | src/proto/req.rs:66-83 | from any state, plugged or not, the last notice of a side is its readiness after a run exactly if it was before or the readiness changed in between |
| ReqLaws.EveryRunMatches | src/proto/req.rs:215-381 | the request held in any state is that of the latest send, through retries and pipe losses; receive states without a pending request are not reached; only requests are on the wire |
| ReqLaws.OnlyTheMatchingReplyDelivers | src/proto/req.rs:319-343 | a message is handed over only if it bears the id of the latest send and comes from the endpoint that got the latest copy |
| ReqLaws.OnlyTheLatestSendIsAnswered | src/proto/req.rs:524-531 | a reply to send j that is handed over after n sends means that n - j is a multiple of 2^31 |
| ReqLaws.TheMatchingReplyDelivers | src/proto/req.rs:472-480 | conversely such a reply is handed over at once |
| ReqLaws.OnlyTheUsedPipeAcknowledges | src/proto/req.rs:251-271 | a send is acknowledged only by the pipe that was given its request, and not for a retry |
| ReqLaws.EveryRunConserves | src/proto/req.rs:241-284 | schedulers in step with the pipes; a send is on hold only when no pipe is ready, a receive only when none that could serve it is |
| ReqLaws.EveryCodeRunIff | src/proto/req.rs:417-422 | a run of the code, with the schedulers' own removal, takes at every point the step the laws are about exactly if no removal strands a cursor, and then it is the run the laws are about |
| ReqReports.ReadyIsWhatWasReported | src/proto/req.rs:277-470 | after every run, of a regular socket or a device: ready for a request are exactly the pipes present that said so and were given none since, ready with a reply those that reported one and were not asked since; a request is pending from its acknowledgment to its end; who is waited for is there and was asked last |
| ReqReports.SendsExactlyIf | src/proto/req.rs:241-381 | after any run, the request of the latest send goes to exactly one pipe, of those ready by the reports, exactly if it starts, a pipe opens while it is on hold, a retry is due while nothing is received, or the pipe it is being handed to leaves, and somebody is ready |
| ReqReports.BestIsUsed | src/proto/req.rs:412-416 | after any run, who is given a request has the best send priority among those that are ready by the reports |
| ReqReports.AsksExactlyIf | src/proto/req.rs:299-381 | after any run, a regular socket asks exactly the pipe that got the latest copy, whenever a receive starts, that pipe has something for one that waits, or what it sent answers another request; a device asks one of those that have something |
| ReqReports.BestIsAsked | src/proto/req.rs:412-416 | after any run, who is asked by a device has the best receive priority among those that have something by the reports |
| ReqReports.AnswersExactly | src/proto/req.rs:215-381 | after any run, what the user is told is exactly what the event is due |
| ReqReports.ToldWhatWasReported | src/proto/req.rs:66-83 | the last notices are what is known from the reports |
| ReqReports.EveryRunIsOutstandingIff | src/proto/req.rs:312-343 | if no pipe delivers more than it was asked for, more is asked of the pipe waited for than came from it, at every point, exactly if no malformed reply is all that was outstanding |
| ReqReports.MalformedLeavesNothingAsked | src/proto/req.rs:488-491 | an orderly run after which a receive waits for a pipe of which nothing is outstanding |
| ReqLaws.StepAnswersIff | src/proto/req.rs:488-491 | from a state in order, a step keeps one answer per call and the timers of calls exactly when it is not the receipt of a malformed reply |
| ReqLaws.EveryRunAnswersIff | src/proto/req.rs:215-381 | a run answers each call exactly once and leaves no timer of a call behind exactly if it receives no malformed reply |
| ReqLaws.EveryRunOwnsRetryIff | src/proto/req.rs:215-381 | in every orderly run, malformed replies included, every live retry timer is the one held exactly if the run never drops a request whose timer is live: by losing the pipe being received from, by a send or a receive when not active, by a send timeout, or by a receive timeout when active |
| ReqLaws.RetryCanBeLost | src/proto/req.rs:224-230 | a run that leaves a retry timer live in an idle socket |
| ReqLaws.RetryCanBeSentOver | src/proto/req.rs:488-491 | an orderly run in which a send after a malformed reply leaves the retry timer live and unheld |
| ReqLaws.OnlyLossDropsRetry | src/proto/req.rs:224-230 | while no reply is malformed, only losing the pipe being received from drops it |
| ReqLaws.ResentExactlyIf | src/proto/req.rs:375-381 | after any run, a retry that is due or a pipe that is lost puts the request of the latest send out again exactly if the socket is active, or was handing it to that very pipe, and a pipe is ready |
| ReqSockets.Req.Transmit | src/proto/req.rs:241-250 | the whole socket after the request went out or on hold |
| ReqSockets.Req.Receive | src/proto/req.rs:299-318 | the whole socket after a receive, for both modes |
| ReqSockets.Req.RemovePipe | src/proto/req.rs:109-124 | the whole socket after a pipe is lost, as the code leaves it, also when the cursor is stranded |
| ReqSockets.Req.Send | src/proto/req.rs:125-129 | the whole socket after a send, under the next id |
| ReqSockets.Req.OnSendAck | src/proto/req.rs:251-271 | the whole socket after an acknowledgment, with the retry scheduled |
| ReqSockets.Req.OnRecvAck | src/proto/req.rs:145-151 | the whole socket after a reply came, malformed ones included |
| ReqSockets.Req.OnRecvTimeout | src/proto/req.rs:344-354 | the whole socket after a receive timed out |
| ReqSockets.Req.OnRecvReady | src/proto/req.rs:355-370 | the whole socket after a pipe has something to read |
| ReqSockets.Req.OnRetryTimeout | src/proto/req.rs:375-381 | the whole socket after a retry is due |
| ReqSockets.Req.AddPipe | src/proto/req.rs:412-416 | a new pipe is known to both schedulers and not ready |
| ReqSockets.Req.OnDevicePlugged | src/proto/req.rs:172-174 | the mode changes and nothing else |
| ReqSockets.Req.OnSendTimeout | src/proto/req.rs:272-276 | the whole socket after a send timed out |
| ReqSockets.Req.OnSendReady | src/proto/req.rs:277-284 | the whole socket after a pipe becomes ready |
| ReqSockets.Req.OnSendNotReady | src/proto/req.rs:285-288 | the whole socket after a pipe is ready no more |
| ReqSockets.Req.Recv | src/proto/req.rs:142-144 | the whole socket after a receive |
| ReqSockets.Req.OnRecvNotReady | src/proto/req.rs:371-374 | the whole socket after a pipe has nothing to read |
| RepLaws.ReadinessIsTold | src/proto/rep.rs:55-72 | after every run, of a regular socket or of a device's, the last notices are the actual readiness, and notices alternate |
| RepLaws.PluggingTellsIff | src/proto/rep.rs:154-156 | plugging a device at any point of a run leaves the notices right, then and after, exactly if the socket was then as ready in one mode as in the other |
| RepLaws.PluggingCanLie | src/proto/rep.rs:154-156 | a run after which plugging leaves them wrong |
| RepLaws.RunAgreesIff | src/proto/rep.rs:55-72 | from any state, plugged or not, the last notice of a side is its readiness after a run exactly if it was before or the readiness changed in between |
| RepLaws.BacktraceRoutes | src/proto/rep.rs:471-490 | a stored backtrace starts with the endpoint the request came from and leads on along exactly the words in front of its payload |
| RepLaws.RoutedMeansAtMostOne | src/proto/rep.rs:236-242 | replies that each follow a delivery are no more than the deliveries |
| RepLaws.EveryRunRoutes | src/proto/rep.rs:215-274 | each reply on the wire goes to the endpoint of the request delivered just before it, under that request's backtrace without its first word; no more replies than requests handed to the user |
| RepLaws.ActiveLeadsBack | src/proto/rep.rs:301-317 | while a request is served the backtrace is empty or its first word is its endpoint |
| RepLaws.ServedIsBareIff | src/proto/rep.rs:121-125 | a request being served has lost its backtrace exactly if a send ack came since it was delivered, and exactly then its reply is refused as malformed |
| RepLaws.LateAckBaresRequest | src/proto/rep.rs:121-125 | an orderly run in which the late ack of a reply that timed out does so |
| RepLaws.OnlyTheLastRequestIsAnswered | src/proto/rep.rs:236-242 | whatever is put on the wire answers the last delivered request with the body of the send that made it or put it on hold |
| RepLaws.LatestBodyIsSentIff | src/proto/rep.rs:215-274 | after any run whatever, that body is the one of the latest send exactly if the reply is being sent now or no send was made while it was on hold |
| RepLaws.OnlyTheLatestBodyIsSent | src/proto/rep.rs:215-274 | so in orderly runs without malformed requests it always is |
| RepLaws.StaleBodyIsSent | src/proto/rep.rs:431-434 | an orderly run with a malformed request in which it is not |
| RepLaws.OnlyTheUsedPipeAcknowledges | src/proto/rep.rs:243-255 | a reply is acknowledged only by the endpoint it was last sent to |
| RepLaws.StepAnswersIff | src/proto/rep.rs:431-434 | a step keeps one answer per call exactly when it is not the receipt of a malformed request |
| RepLaws.EveryRunAnswersIff | src/proto/rep.rs:215-338 | a run answers each call exactly once and leaves no timer behind exactly if it receives no malformed request |
| RepLaws.EveryRunConserves | src/proto/rep.rs:296-330 | scheduler in step with the pipes; a receive is on hold only when no pipe has a request, a reply only when its endpoint is not ready |
| RepLaws.EveryCodeRunIff | src/proto/rep.rs:362-366 | a run of the code, with the scheduler's own removal, takes at every point the step the laws are about exactly if no removal strands the cursor, and then it is the run the laws are about |
| RepReports.ReadyIsWhatWasReported | src/proto/rep.rs:261-400 | after every run, of a regular socket or a device: with a request are exactly the pipes present that reported one and were not asked since, ready for a reply those that said so and were not used for one since; a request is served from its delivery to its reply; who is waited for is there and was asked last |
| RepReports.AsksExactlyIf | src/proto/rep.rs:296-330 | after any run, exactly one pipe is asked, of those with a request by the reports, exactly if a receive starts, a pipe reports one while a receive waits for nobody, or the pipe waited for leaves, and somebody has one |
| RepReports.BestIsAsked | src/proto/rep.rs:358-361 | after any run, who is asked has the best priority, as it joined with, among those that have a request by the reports |
| RepReports.RepliesExactly | src/proto/rep.rs:215-334 | after any run, what goes on the wire and what the user is told is exactly what the event is due |
| RepReports.OnlyTheAskedPipeDelivers | src/proto/rep.rs:301-317 | a request is handed over only from the pipe asked last, which is still there |
| RepReports.ToldWhatWasReported | src/proto/rep.rs:55-72 | the last notices are what is known from the reports |
| RepReports.EveryRunIsOutstandingIff | src/proto/rep.rs:296-330 | if no pipe delivers more than it was asked for, more is asked of the pipe waited for than came from it, at every point, exactly if no malformed request is all that was outstanding |
| RepReports.MalformedLeavesNothingAsked | src/proto/rep.rs:431-434 | an orderly run after which a receive waits for a pipe of which nothing is outstanding |
| RepSockets.Rep.Send | src/proto/rep.rs:114-120 | the whole socket after a send, malformed ones included |
| RepSockets.Rep.Dispatch | src/proto/rep.rs:215-235 | the whole socket after a routed reply, for both modes |
| RepSockets.Rep.OnSendAck | src/proto/rep.rs:121-125 | the whole socket after an acknowledgment; the backtrace is cleared |
| RepSockets.Rep.OnSendReady | src/proto/rep.rs:261-274 | the whole socket after a pipe becomes ready |
| RepSockets.Rep.Recv | src/proto/rep.rs:296-300 | the whole socket after a receive |
| RepSockets.Rep.OnRecvAck | src/proto/rep.rs:138-144 | the whole socket after a request came, with the backtrace stored |
| RepSockets.Rep.RemovePipe | src/proto/rep.rs:98-113 | the whole socket after a pipe is lost, as the code leaves it, also when the cursor is stranded |
| RepSockets.Rep.AddPipe | src/proto/rep.rs:358-361 | a new pipe is known and not ready |
| RepSockets.Rep.OnDevicePlugged | src/proto/rep.rs:154-156 | the mode changes and nothing else |
| RepSockets.Rep.ReplyTo | src/proto/rep.rs:236-242 | the whole socket after a reply went out or on hold |
| RepSockets.Rep.OnSendTimeout | src/proto/rep.rs:256-260 | the whole socket after a send timed out |
| RepSockets.Rep.OnSendNotReady | src/proto/rep.rs:275-278 | the whole socket after a pipe is ready no more |
| RepSockets.Rep.OnRecvTimeout | src/proto/rep.rs:318-322 | the whole socket after a receive timed out |
| RepSockets.Rep.OnRecvReady | src/proto/rep.rs:323-330 | the whole socket after a pipe has a request |
| RepSockets.Rep.OnRecvNotReady | src/proto/rep.rs:331-334 | the whole socket after a pipe has none |
| SurveyorLaws.ReadinessIsTold | src/proto/surv.rs:106-121 | after every run the last notices are the actual readiness, and notices alternate |
| SurveyorLaws.PluggingTellsIff | src/proto/surv.rs:169-171 | plugging a device at any point of a run leaves the notices right, then and after, exactly if then a pipe had something to read only while a survey was active |
| SurveyorLaws.PluggingCanLie | src/proto/surv.rs:169-171 | a run after which plugging leaves them wrong |
| SurveyorLaws.RunAgreesIff | src/proto/surv.rs:106-121 | from any state, plugged or not, the last notice of a side is its readiness after a run exactly if it was before or the readiness changed in between |
| SurveyorLaws.EveryRunMatches | src/proto/surv.rs:228-314 | a pending survey is that of the latest send, no receive waits without one, and only surveys are on the wire |
| SurveyorLaws.OnlyTheLatestSurveyDelivers | src/proto/surv.rs:281-305 | only the payload of a response bearing the id of the latest send is handed over, from the pipe asked last |
| SurveyorLaws.OnlyTheLatestSurveyIsAnswered | src/proto/surv.rs:456-463 | a response to survey j that is handed over after n surveys means that n - j is a multiple of 2^31 |
| SurveyorLaws.TheLatestSurveyDelivers | src/proto/surv.rs:281-305 | conversely such a response is handed over at once and the survey goes on |
| SurveyorLaws.SurveyReachesEachOnce | src/proto/surv.rs:376-388 | a survey reaches every ready pipe exactly once under the id then waited for |
| SurveyorLaws.StepAnswersIff | src/proto/surv.rs:428-431 | a step keeps one answer per call exactly when it is not the receipt of a malformed response |
| SurveyorLaws.EveryRunAnswersIff | src/proto/surv.rs:228-336 | a run answers each call exactly once and leaves no timer of a call behind exactly if it receives no malformed response |
| SurveyorLaws.EveryRunOwnsDeadlineIff | src/proto/surv.rs:211-336 | in every orderly run, malformed responses included, every live deadline is the one held exactly if the run never drops a survey whose deadline is live: by losing the pipe being received from, by a send while a receive waits, by a receive when not active or of a device, or by a receive timeout when active |
| SurveyorLaws.DeadlineCanBeLost | src/proto/surv.rs:211-217 | a run that leaves a deadline live in an idle socket |
| SurveyorLaws.DeadlineCanBeReceivedOver | src/proto/surv.rs:428-431 | an orderly run in which a receive after a malformed response leaves the deadline live in an idle socket |
| SurveyorLaws.OnlyLossDropsDeadline | src/proto/surv.rs:211-217 | while no response is malformed, only losing the pipe being received from and, for a device, receiving drops it |
| SurveyorLaws.LateResponses | src/proto/surv.rs:330-336 | after any run, a response that is handed over comes after the deadline of its survey exactly if the deadline fired while a receive was waiting |
| SurveyorLaws.WaitingOutlivesDeadline | src/proto/surv.rs:330-336 | a deadline that fires while a receive waits leaves it to be answered as before |
| SurveyorLaws.EveryRunConserves | src/proto/surv.rs:261-325 | a receive is on hold only when no pipe has a response |
| SurveyorLaws.EveryCodeRunIff | src/proto/surv.rs:371-375 | a run of the code, with the scheduler's own removal, takes at every point the step the laws are about exactly if no removal strands the cursor, and then it is the run the laws are about |
| SurveyorReports.ReadyIsWhatWasReported | src/proto/surv.rs:228-400 | after every run, of a regular socket or a device: ready for a survey are exactly the pipes that said so with no survey sent since, with a response those present that reported one and were not asked since; a survey is pending from its send to its end; who is waited for is there and was asked last |
| SurveyorReports.SendsExactly | src/proto/surv.rs:228-236 | after any run, of a regular socket or a device, a survey reaches exactly the pipes present and ready by the reports, each once, from a regular socket under the id of its number, which is then the one pending; nothing else is ever sent |
| SurveyorReports.AsksExactlyIf | src/proto/surv.rs:261-325 | after any run, exactly one pipe is asked, of those with a response by the reports, exactly if a receive starts with a survey pending, a pipe reports one while a receive waits for nobody, or the pipe waited for answers another survey (in a device, leaves), and somebody has one |
| SurveyorReports.BestIsAsked | src/proto/surv.rs:367-370 | after any run, who is asked has the best priority, as it joined with, among those that have a response by the reports |
| SurveyorReports.AnswersExactly | src/proto/surv.rs:211-336 | after any run, what the user is told is exactly what the event is due |
| SurveyorReports.ToldWhatWasReported | src/proto/surv.rs:106-121 | the last notices are what is known from the reports |
| SurveyorReports.EveryRunIsOutstandingIff | src/proto/surv.rs:261-325 | if no pipe delivers more than it was asked for, more is asked of the pipe waited for than came from it, at every point, exactly if no malformed response is all that was outstanding |
| SurveyorReports.MalformedLeavesNothingAsked | src/proto/surv.rs:428-431 | an orderly run after which a receive waits for a pipe of which nothing is outstanding |
| SurveyorSockets.Surveyor.Send | src/proto/surv.rs:122-126 | the whole socket after a survey is sent |
| SurveyorSockets.Surveyor.Receive | src/proto/surv.rs:261-280 | the whole socket after a receive, for both modes |
| SurveyorSockets.Surveyor.OnRecvAck | src/proto/surv.rs:142-148 | the whole socket after a response came |
| SurveyorSockets.Surveyor.OnRecvTimeout | src/proto/surv.rs:306-314 | the survey outlives a receive that times out |
| SurveyorSockets.Surveyor.OnSurveyTimeout | src/proto/surv.rs:330-336 | the whole socket after the deadline |
| SurveyorSockets.Surveyor.RemovePipe | src/proto/surv.rs:106-121 | the whole socket after a pipe is lost, as the code leaves it, also when the cursor is stranded |
| SurveyorSockets.Surveyor.AddPipe | src/proto/surv.rs:367-370 | a new pipe is known and not ready |
| SurveyorSockets.Surveyor.OnDevicePlugged | src/proto/surv.rs:169-171 | the mode changes and nothing else |
| SurveyorSockets.Surveyor.Publish | src/proto/surv.rs:228-236 | the whole socket after the broadcast, with the deadline scheduled |
| SurveyorSockets.Surveyor.OnSendReady | src/proto/surv.rs:243-246 | the whole socket after a pipe becomes ready |
| SurveyorSockets.Surveyor.OnSendNotReady | src/proto/surv.rs:247-250 | the whole socket after a pipe is ready no more |
| SurveyorSockets.Surveyor.Recv | src/proto/surv.rs:139-141 | the whole socket after a receive call |
| SurveyorSockets.Surveyor.OnRecvReady | src/proto/surv.rs:315-325 | the whole socket after a pipe has a response |
| SurveyorSockets.Surveyor.OnRecvNotReady | src/proto/surv.rs:326-329 | the whole socket after a pipe has none |
| BusLaws.CodecRoundTrip | src/proto/bus.rs:337-360 | what came off the wire is what is put back on it, and its endpoint is named modulo 2^32 |
| BusLaws.PlainSendReachesAll | src/proto/bus.rs:272-290 | a message without an originator reaches every ready pipe exactly once |
| BusLaws.NoEcho | src/proto/bus.rs:272-293 | a message sent on unchanged reaches every other ready pipe exactly once as it came off the wire, never its endpoint if that is below 2^32, ready or not |
| BusLaws.NoEchoOverRuns | src/proto/bus.rs:337-360 | after any run, each message the user ever got in it is the one taken off the wire at that turn, and sent on, however late, reaches every other ready pipe exactly once, and never the endpoint it came from if that is below 2^32 |
| BusLaws.ReadinessIsTold | src/proto/bus.rs:97-112 | after every run the last notices are the actual readiness, and notices alternate |
| BusLaws.EveryRun | src/proto/bus.rs:174-252 | one answer per call, timers exactly those held, a receive on hold only when no pipe has anything to read |
| BusLaws.OnlyTheAskedPipeDelivers | src/proto/bus.rs:223-235 | what is handed over came from the pipe asked last, and names it |
| BusLaws.EveryCodeRunIff | src/proto/bus.rs:266-271 | a run of the code, with the scheduler's own removal, takes at every point the step the laws are about exactly if no removal strands the cursor, and then it is the run the laws are about |
| BusReports.ReadyIsWhatWasReported | src/proto/bus.rs:218-325 | after every run the scheduler counts as ready exactly the pipes present that reported ready and were not asked since, and the pipe waited for is the one asked last |
| BusReports.AsksExactlyIf | src/proto/bus.rs:174-252 | after any run, exactly one pipe is asked, of those that are ready by the reports, exactly if a receive starts, a pipe opens while one waits for nobody, or the pipe waited for leaves, and somebody is ready |
| BusReports.BestIsAsked | src/proto/bus.rs:262-306 | after any run, who is asked has the best priority, as it joined with, among those that are ready by the reports |
| BusReports.SendsExactly | src/proto/bus.rs:272-299 | after any run, a send reaches exactly the pipes present that said they are ready since the last send, but for the originator it names, each once; nothing else is ever sent |
| BusReports.AnswersExactly | src/proto/bus.rs:193-240 | after any run, a send is answered at once, and the user gets a message exactly if it comes from the pipe waited for |
| BusReports.ToldWhatWasReported | src/proto/bus.rs:97-112 | the last notices are that the user can send or receive exactly if somebody is ready by the reports |
| BusSockets.Bus.Transmit | src/proto/bus.rs:272-293 | the ready set and the sends, with or without an originator |
| BusSockets.Bus.Send | src/proto/bus.rs:113-117 | the whole socket after a send, which is answered at once |
| BusSockets.Bus.AddPipe | src/proto/bus.rs:262-265 | a new pipe is known and not ready |
| BusSockets.Bus.RemovePipe | src/proto/bus.rs:97-112 | the whole socket after a pipe is lost, as the code leaves it, also when the cursor is stranded |
| BusSockets.Bus.OnSendAck | src/proto/bus.rs:197-199 | nothing changes |
| BusSockets.Bus.OnSendTimeout | src/proto/bus.rs:200-202 | nothing changes but the timer |
| BusSockets.Bus.OnSendReady | src/proto/bus.rs:203-206 | the whole socket after a pipe becomes ready |
| BusSockets.Bus.OnSendNotReady | src/proto/bus.rs:207-210 | the whole socket after a pipe is ready no more |
| BusSockets.Bus.Recv | src/proto/bus.rs:218-222 | the whole socket after a receive |
| BusSockets.Bus.OnRecvAck | src/proto/bus.rs:133-136 | the whole socket after a message came, with its endpoint in the header |
| BusSockets.Bus.OnRecvTimeout | src/proto/bus.rs:236-240 | the whole socket after a receive timed out |
| BusSockets.Bus.OnRecvReady | src/proto/bus.rs:241-248 | the whole socket after a pipe has something to read |
| BusSockets.Bus.OnRecvNotReady | src/proto/bus.rs:249-252 | the whole socket after a pipe has nothing to read |
| Probing.EveryRun | src/core/probe.rs:74-165 | with one poll at a time, replies equal polls minus one in progress, a timer is live exactly while one is, and every vote is the last report since the last result |
| Probing.AllOverIff | src/core/probe.rs:125-149 | all votes are in exactly when every side asked for was last reported ready and no request is hidden by a later one for the same socket |
| Probing.InProgressMeansUnready | src/core/probe.rs:125-149 | a poll in progress is never one that could be answered |
| Probing.AnsweredEarlyIff | src/core/probe.rs:125-149 | after any run with a poll in progress or starting, an event that is no timeout is answered at once exactly if then every side asked for was last reported ready and no request is hidden by a later one for the same socket |
| Probing.DeafProbeWaits | src/core/probe.rs:54-58 | with such a hidden request no run gives a result before a timeout |
| Probing.DeafPollIsNotAnswered | src/core/probe.rs:54-58 | two requests for one socket: everything is reported ready and nothing is answered |
| Probing.ResultsAreRight | src/core/probe.rs:94-157 | a result tells what was last reported since the previous one and ends the timer; before the timeout it is given only if every side asked for was reported ready |
| Probing.EveryPollAsksEach | src/core/probe.rs:74-92 | after any run, a poll that was scheduled asks the socket of each request, in order, and nothing else asks anybody |
| Probing.AnswersExactly | src/core/probe.rs:74-157 | after any run, a poll that cannot be scheduled is refused, a timeout gives what was reported, and any other event gives a result exactly if a poll is in progress or starting, every side asked for was reported ready, and no request is hidden |
| Probes.Probe.constructor | src/core/probe.rs:49-68 | the index leads to the last request for each socket |
| Probes.Probe.ClearVotes | src/core/probe.rs:159-165 | the loop clears every vote |
| Probes.Probe.Finish | src/core/probe.rs:151-157 | the timer is cancelled, the votes cleared and the result given |
| Probes.Probe.AskAll | src/core/probe.rs:87-89 | the loop asks every socket, in order |
| Probes.Probe.CheckVotes | src/core/probe.rs:125-149 | the loop finds whether all votes are in |
| Probes.Probe.Poll | src/core/probe.rs:74-92 | the whole probe after a poll, failed scheduling included |
| Probes.Probe.OnPollTimeout | src/core/probe.rs:94-105 | the whole probe after the timeout |
| Probes.Probe.OnSocketCanRecv | src/core/probe.rs:107-114 | the whole probe after a report |
| Probes.Probe.OnSocketCanSend | src/core/probe.rs:116-123 | the whole probe after a report |

## Left out

Promises that turned out false of the code; for each, a run that shows it and the exact condition are among the rows above:

* Removal from the scheduler does not follow a current item that `swap_remove` moves (`StrandingHappens`,
  `RemoveKeepsCursorIff`), and the search misses priorities above 16, which the facade documents but does not check
  (`PriorityAboveSixteenIsLost`, `PopKeepsCursorIff`). The protocols' laws are about the removal that the file documents;
  `EveryCodeRunIff` says when a run of the code is one of theirs, `StrandedSendPanics` and `CodeCanComeBack` what can
  become of one that is not, and `OutOfRangeIff` exactly which operations make the next pop panic.
* A malformed message answers the user and leaves state and timer in place (`EveryRunAnswersIff`), so that the user
  calls over a call that still waits: an older body can be sent (`StaleBodyIsSent`, `LatestBodyIsSentIff`) and a timer
  dropped (`RetryCanBeSentOver`, `DeadlineCanBeReceivedOver`). A receive then waits for a pipe that nobody asks again
  (`MalformedLeavesNothingAsked`, `EveryRunIsOutstandingIff`).
* Any send ack clears the backtrace of the replier (`LateAckBaresRequest`, `ServedIsBareIff`).
* Losing the pipe being received from drops the retry timer or the survey's deadline without cancelling it
  (`RetryCanBeLost`, `EveryRunOwnsRetryIff`, `DeadlineCanBeLost`, `EveryRunOwnsDeadlineIff`).
* A survey's deadline that fires while a receive waits does not end the survey (`WaitingOutlivesDeadline`, `LateResponses`).
* A retry that fires while a receive waits sends nothing, and losing the pipe of an active request does not either
  (`ResentExactlyIf`).
* Plugging a device raises no notice (`PluggingCanLie`, `PluggingTellsIff`); the last notice of a side is right again
  after its next change (`RunAgreesIff`).
* A probe with two requests for one socket does not hear the earlier one (`DeafPollIsNotAnswered`, `AnsweredEarlyIff`).

Not modelled:

- PushSockets.Push.RemovePipe: requires that the step does not pop past the end of the vector, where the code panics; so does every other method that can pop.
- PullSockets.Pull.RemovePipe: requires the same.
- ReqSockets.Req.RemovePipe: requires the same.
- RepSockets.Rep.RemovePipe: requires the same.
- SurveyorSockets.Surveyor.RemovePipe: requires the same.
- BusSockets.Bus.RemovePipe: requires the same.
- Integers are unbounded but for the 32-bit counters and words, the 8-bit priority and the 64-bit length, which wrap as in release builds; addresses and lengths of `usize` do not.
- A payload buffer is taken to have the announced length and is never too large to allocate.
- A dead pipe does nothing more; that its owner then removes it is not modelled.
- Respondent, Sub and Pub, which would add easy members only.
- `pair-prefetch.rs`, which is not compiled.
- The facade, the reactor, timers and real time, reconnecting, configuration options, acceptors, addresses and URLs, the handshake, Windows, `close` and Pipe Closed events.
- Streams and the pipe collection are values handed in and out of the methods; two pipes that share one stream are not modelled.
