# A verified model of the malincam frame pipeline

malincam turns a Raspberry Pi camera into a USB webcam. Frames travel camera → ISP → encoder → USB
gadget as DMABUF descriptors: three *pumps* move them between V4L2 streams, an epoll-based
*pollinator* wakes the pumps, and the host's STREAMON/STREAMOFF events start and stop the whole
pipeline. This project models that machinery in Dafny and proves what it keeps, over whole runs.

## How it is built

- **The kernel is a value with a tape.** `V4l2.dfy` states what a V4L2 buffer queue promises. Each ioctl takes
  one tick from the driver's tape; the tick says which queued buffers the hardware completes just before, which
  error the ioctl returns, and what it reports. Every theorem that quantifies over a driver therefore quantifies
  over all patterns of failures and all interleavings of completions, in the middle of a call too. Between two calls
  a completion is a move of its own. A finite tape means that the hardware does not complete infinitely often inside
  one call; an empty one, that nothing fails or completes inside a call any more.
- **State machines as functions, code as classes.** Each C file has a specification on values (`Streams`, `Rings`,
  `Pumps`, `Nodes`, `Polls`, `Pipelines`, `UvcControls`) and a class that does the same work in place
  (`Device.dfy`, `Queue.dfy`, `Pump.dfy`, `Node.dfy`, `Pollinator.dfy`, `Pipeline.dfy`, `Uvc.dfy`, `Array.dfy`).
  Every method is proved equal to its specification function; the theorems are about those functions. `hide`
  statements keep definitions that a proof does not need away from the solver.
- **ASSERTs and array bounds are outcomes.** The specification functions are total. Where the C code would fire an
  `ASSERT` or leave an array they answer `Abort`. Which calls abort is proved exactly, not assumed.

| file | contents |
|---|---|
| Common, V4l2 | small datatypes; the kernel's contract |
| Streams, StreamLaws, Device | prepare, start, stop, pull and push of one stream; what each leaves in every field; streams that are wedged |
| Rings, Queue, Array | the ring as coded; the growable array and its amortised cost |
| Pumps, Pump | the pump |
| PumpOwnership, PumpFrames, PumpMemory, PumpFifo | its four invariants, one step at a time |
| PumpPayload | what the destination is told about a frame, over whole runs |
| PumpRuns, PumpWakeups | the pump over whole runs; its return value and wake-ups |
| PumpAborts, PumpHazards, PumpExamples | exactly which call aborts, and exactly which pumps can; two runs call by call |
| Nodes, Node, Pipelines, Pipeline, PipelineProofs | nodes, the pipeline and its life |
| PipelineTurns | one turn of the main loop from the bits of the poll; which nodes a failed start leaves started |
| PipelineStarts, PipelineEdges | exactly when it starts and exactly when it can abort; no edge of the polling is lost |
| Polls, Pollinator | the pollinator against a plain map |
| UvcControls, Uvc | control requests of the gadget |

## Main results

1. **The rotating ring is a FIFO free list, exactly as far as the destination lets it be one.** `queuePop` never
   shrinks the queue and the pump never pushes a finished index back: over every run, whatever comes back, the pump
   uses the destination indices in turn, the j-th one being j modulo their number. This is what a true FIFO free list
   would have handed out if and only if the destination gave its buffers back in the order in which it got them
   (`PumpRuns.RingIsFifoExactly`), and so it is whenever the destination completes in order (`PumpRuns.RingIsFifo`).
   `PumpExamples.OutOfOrderStalls` is a run from a fresh start in which it does not, and a call fails with a buffer free.
2. **Ownership.** For any failures and any order, each source buffer is in exactly one place; the counts add up
   exactly, one missing for each failed source QBUF (`PumpRuns.Conservation`); the destination hardware never holds
   memory that the source hardware holds (`PumpRuns.ExclusiveMemory`).
3. **What can abort, exactly.** No ASSERT fires and no array is left in any run of a pump whose planes suit each
   other and whose destination has the buffers that `buffers_count` claims (`PumpAborts.NeverAborts`). Every other pump
   aborts in some run, although no ioctl fails (`PumpHazards.AbortsUnlessSafe`, `PumpHazards.DmabufAbortsExactly`): at
   its first frame, or at the first frame after as many as the destination has buffers, and in no other call
   (`PumpAborts.AbortsExactly`). A freshly opened pipeline of suitable planes can abort if and only if the gadget's
   driver grants fewer than the three buffers requested (`PipelineStarts.PipelineAbortsExactly`): STREAMON, STREAMOFF,
   STREAMON is enough to set the count to three regardless (`PipelineStarts.OnOffOn`).
4. **Latest frame wins.** Frames are forwarded in order, each call forwards the newest it could keep, and no more frames
   are dropped than source QBUFs have failed; as long as none has, every frame is forwarded, skipped for a newer one, or
   pending (`PumpRuns.FrameFates`, `PumpRuns.ForwardsTheNewest`). What the destination is told of a frame, descriptor,
   length and payload of each plane, is what the source's driver said when it handed the frame out
   (`PumpPayload.FramesKeepTheirPayload`, `PumpRuns.ExclusiveMemory`).
5. **The life of the pipeline.** Over any list of STREAMONs, STREAMOFFs, completions and rounds of the main loop, with
   starts and stops failing anywhere (a failing STREAMOFF included) and whatever the drivers grant, every pump that exists
   is in a state that a run from a fresh start of its streams reaches, so that all of the above holds of it; the program
   aborts if and only if a round finds a pump that is about to (`PipelineProofs.PipelineLives`), and the right descriptors
   are watched (`PipelineProofs.WatchesFollowPumps`). A turn of the main loop is, bit by bit, the host's events and then
   the pumps (`PipelineTurns.TurnIs`): after a STREAMON that can be followed there are three pumps, after a STREAMOFF there
   is none and none has run since (`PipelineTurns.TurnStarts`, `PipelineTurns.TurnStops`).
6. **No wake-up is lost and no frame waits for ever.** A call drains both of its streams; what the destination has
   completed when it returns came after the last DQBUF (`PumpWakeups.NoWakeupIsLost`). Over every run whose calls lose
   no buffer, and in any order of completion, a frame is pending only while the destination has the very buffer that the
   frame needs (`PumpWakeups.PendingMeansHeadBusy`). For the pipeline these are invariants over any list of completions
   and turns of the main loop, with any host events and any failing starts and stops in them: while there are pumps,
   every stream with something to hand out has an edge that no poll has reported yet (`PipelineEdges.NoEdgeIsLost`), the
   poll that reports it makes the right pump run (`PipelineEdges.NextPollWakes`), and a pending frame waits for an event
   that is certain to be reported (`PipelineEdges.NoFrameIsStuck`). For drivers that fail nothing the promise of
   epoll_wait is the only hypothesis left (`PipelineEdges.PipelineStaysAwake`), and it can be kept in every state
   (`PipelineEdges.PollCanReport`).
7. **Which starts succeed, exactly.** A stream starts if and only if it is prepared and not wedged and none of the ioctls
   of this start fails (`Streams.StartsExactly`), and a STREAMON succeeds if and only if five streams would start and the
   gadget has buffers or is granted some (`PipelineStarts.StreamOnExactly`). A capture stream is wedged by a start that
   fails after its first QBUF: the queued buffers are never taken back (`deviceStreamStop` only issues STREAMOFF for a
   streaming stream), every later start is refused, and no sequence of host events brings a pump up again
   (`Streams.FailedStart`, `Streams.RetryExactly`, `Streams.WedgedForever`, `PipelineProofs.WedgedPipelineStaysDown`).
   A preparation succeeds if and only if buffers are granted and none of its ioctls fails, each of which has a known place
   among them, and then every field of every buffer is what that buffer's own ioctls reported (`StreamLaws.PrepareExactly`).
8. **The pollinator is a map, array growth is amortised, and the UVC control machine follows the specification**, the
   latter byte by byte: for every packet, what the host reads (`UvcControls.ProbeAndCommit`, `UvcControls.ErrorCodeControl`,
   `UvcControls.AeModeControl`, `UvcControls.BrightnessControl`) or that it is stalled (`UvcControls.NoSuchControl`).

## Where the code differs from its comments or from what one would expect

The model follows the code in each case.

- `queue.h` says "FIFO queue" and "returns < 0 on error". A pop only rotates (`Rings.PopIsFifoOnlyWhenEmpty`), and a
  full queue answers the positive `ENOMEM` (`Rings.PushAppends`).
- `deviceStreamPrepare` overwrites `buffers_count` before it notices that buffers exist. `Streams.PrepareAgain` states
  exactly when the count still fits, and `PumpAborts.AbortsExactly` at which call the pump leaves the array when it
  does not; `PipelineProofs.PipelineNeverAborts` is for gadget drivers that grant the three buffers requested.
- `getPassFunc` compares the source's plane count with itself. `PumpRuns.PassSafeExactly` states exactly which pairs
  meet the ASSERT of their pass function, and `PumpAborts.AbortsExactly` that their pump aborts at its first frame.
- A request that is not of class type is given the error code for an invalid request and is then dispatched all the
  same, so that a successful dispatch clears the code again (`UvcControls.ErrorCodeRead`).
- Brightness: when it is mapped, GET_INFO says that it can be read and set, and yet the table gives it no capability, so that
  every read and every SET_CUR is refused (`UvcControls.BrightnessControl`); its get handler, which nothing calls, would answer
  the minimum for GET_MAX (`UvcControls.BrightnessHandler`). GET_LEN is sent with the high byte first, as coded.
- An exported descriptor 0 ends the export of a buffer as if all were well (`StreamLaws.ZeroEndsTheLoop`).

## Model

| member | source | states |
|---|---|---|
| V4l2.ElapseKeeps | src/device.c:733-795 | while hardware completes buffers behind the program's back, none is lost, duplicated or given other memory, and frames come out in the order of their numbers; in order, the list of buffers in flight does not even change |
| V4l2.QbufKeeps | src/device.c:779-795 | QBUF succeeds exactly when nothing fails, the index exists and the application owns the buffer; otherwise it changes nothing |
| V4l2.DqbufKeeps | src/device.c:752-763 | DQBUF hands out the buffer that completed first, and only a buffer that was queued |
| V4l2.CompletionFills | src/device.c:752-777 | a completion takes the buffer that the hardware picks out of the queue, behind the completed ones, with the next frame number and the payload reported for each plane, and changes nothing else |
| StreamLaws.EveryPlane | src/device.c:308-355 | the planes of one buffer are exported, or mapped, exactly when none of their ioctls fails, and each plane gets what its own ioctl reported, on the one side and not on the other |
| StreamLaws.ZeroEndsTheLoop | src/device.c:312-317 | a descriptor 0 ends the export without an error, and the planes from there on are untouched |
| StreamLaws.PrepareBufferAnswers | src/device.c:357-377 | a stream that imports or takes addresses issues no ioctl for a buffer, and an unknown memory type is refused with EINVAL |
| StreamLaws.FormatLaw | src/device.c:263-288 | setting the format records the reported number of planes on a multi-planar stream only, and nothing on a failure |
| StreamLaws.PrepareExactly | src/device.c:379-467 | from IDLE, a preparation succeeds if and only if buffers are granted and none of its ioctls fails; then buffer k has its index, its length, the length of its planes, and in each plane the descriptor (exporting) or the address (mapping) that the ioctl at this plane's place on the tape reported, and 0 elsewhere |
| StreamLaws.PrepareAnswers | src/device.c:652-682 | which answer means what, and what each leaves: nothing done, the format alone, or the options taken over without buffers |
| StreamLaws.StartAnswers | src/device.c:684-713 | which start answers -ENOENT, -EBUSY, -3, 1 and 0, exactly |
| StreamLaws.StopAnswers | src/device.c:715-731 | a stop answers 1 exactly when STREAMOFF of a streaming stream fails |
| StreamLaws.StartsInOrder | src/device.c:469-479 | a capture stream that starts has queued all its buffers as they are, in the order of their indices |
| StreamLaws.PullArrives | src/device.c:752-777 | the pulled buffer has all fields of the driver's and, on a multi-planar stream, the planes that the driver filled in; its other planes, its mapping and descriptors, and every other buffer are unchanged |
| StreamLaws.PullsNothing | src/device.c:733-763 | nothing is pulled exactly without buffers, after a failing DQBUF or with nothing completed, and then only time passes |
| StreamLaws.PushArrives | src/device.c:779-795 | exactly the pushed buffer is queued, or a refusal is answered with the ioctl's error; -EIO without buffers |
| Streams.PrepareKeeps | src/device.c:652-682 | preparing succeeds only from IDLE, then the count is exact whatever the driver granted; a failure leaves the state as it was and the stream consistent |
| Streams.PrepareAgain | src/device.c:673-678 | a second prepare overwrites the count first: the indices below it stay within the buffers if and only if the driver had granted at least what is requested now |
| Streams.StartKeeps | src/device.c:684-713 | a capture stream that starts has given each of its buffers to the driver once, an output stream none; a failed start keeps the state |
| Streams.StopKeeps | src/device.c:715-731 | a stop gets every buffer back, unless STREAMOFF fails, and then nothing changes |
| Streams.StreamLives | src/device.c:652-731 | over any sequence of prepares, starts and stops with any ioctl outcomes, a stream has buffers exactly when it is not IDLE |
| Streams.FailedStart | src/device.c:697-709 | a failed start leaves buffers with the driver, and the stream wedged, if and only if its first QBUF was not the one that failed |
| Streams.StartsExactly | src/device.c:684-713 | a start succeeds if and only if the stream is prepared, not wedged, and none of the ioctls that this start issues fails |
| Streams.RetryExactly | src/device.c:684-731 | a failed start can be repeated with success if and only if it had failed at its first QBUF and no ioctl of the second one fails |
| Streams.SecondQbufWedges | src/device.c:469-479 | a start whose second QBUF fails wedges the stream, for every driver |
| Streams.WedgedForever | src/device.c:684-731 | a wedged stream never starts again, whatever sequence of starts and stops follows |
| Streams.UnluckyNeverStreams | src/device.c:469-731 | a concrete stream and tape: one failing QBUF, nothing failing after it, and no list of starts and stops makes it stream |
| Rings.PushAppends | src/queue.c:29-40 | a push appends while there is room; a full queue is unchanged and answers a positive ENOMEM |
| Rings.PopShifts | src/queue.c:43-50 | a pop hands out the first item and brings the next slot into view; the size stays |
| Rings.PopRotates | src/queue.c:43-50 | on a full queue a pop is a rotation |
| Rings.PopIsFifoOnlyWhenEmpty | src/queue.c:43-50 | the FIFO claim of the header holds for a pop if and only if the queue is empty |
| Queues.Queue.constructor | src/queue.c:13-21 | an empty ring with the requested number of slots |
| Queues.Queue.Finalize | src/queue.c:23-25 | nothing is left of the ring |
| Queues.Queue.Push | src/queue.c:29-40 | does in place what the ring's push does |
| Queues.Queue.Pop | src/queue.c:43-50 | does in place what the ring's pop does |
| Queues.Queue.Peek | src/queue.c:52-57 | shows the item a pop would hand out |
| Arrays.Array.Reserve | src/array.h:38-50 | more room, the same items, and the copies accounted for |
| Arrays.Array.Append | src/array.h:52-64 | one item more at the old size, all earlier ones in place; without an item the new slot is unspecified |
| Arrays.GrowthExactly | src/array.h:53-56 | the first capacity is the least that fills 16 bytes, and a full array grows by half, rounded down, but by one at least |
| Arrays.AppendsAreAmortised | src/array.h:38-64 | n appends to an empty array keep every item at its index within the capacity and copy at most 4n items in all |
| Devices.DeviceStream.SetStreamFormat | src/device.c:263-288 | the step of the stream's state machine |
| Devices.DeviceStream.RequestStreamBuffers | src/device.c:379-467 | the grant, one query and one preparation for each buffer, and no buffers at all when any of them fails |
| Devices.DeviceStream.ExposeBuffer | src/device.c:308-355 | exports or maps each plane in turn, with the early success on descriptor 0 |
| Devices.DeviceStream.PrepareBuffer | src/device.c:357-377 | what preparing a buffer means for each memory type |
| Devices.DeviceStream.Prepare | src/device.c:652-682 | equals the state machine's prepare |
| Devices.DeviceStream.EnqueueBuffers | src/device.c:469-479 | every buffer queued in order, up to the first refusal |
| Devices.DeviceStream.Start | src/device.c:684-713 | equals the state machine's start |
| Devices.DeviceStream.Stop | src/device.c:715-731 | equals the state machine's stop |
| Devices.DeviceStream.PullBuffer | src/device.c:733-777 | the buffer handed out describes what the driver returned, plane by plane; every other buffer is untouched |
| Devices.DeviceStream.CopyPlanes | src/device.c:767-773 | the planes the driver filled in replace the first ones, the others stay |
| Devices.DeviceStream.PushBuffer | src/device.c:779-795 | equals the state machine's push |
| PumpMemory.PassDescribesSource | src/pump.c:9-51 | each DMABUF pass describes every source plane to the destination by descriptor, length and payload and changes nothing else, field by field; exact but for the data offset a single-planar destination cannot hold |
| PumpMemory.PassDescribesMapping | src/pump.c:53-93 | the other passes tell a single-planar destination the address of the source's mapping, its length and its payload, the copying one the payload alone |
| PumpMemory.TableRows | src/pump.c:101-186 | which pairs of memory types and plane layouts can be connected, by which pass, and that no other pair can |
| PumpPayload.FramesKeepTheirPayload | src/pump.c:224-310 | over every run, each buffer queued at the destination tells, for every plane, the length and payload that the source's driver reported when it handed out the recorded frame |
| PumpObjects.PassDmabufPlanes | src/pump.c:9-18 | the plane loop computes that description |
| PumpObjects.PassBuffer | src/pump.c:9-93 | what each pass function does to the destination buffer |
| PumpObjects.GetPassFunc | src/pump.c:153-186 | the first table row that fits the two streams |
| PumpObjects.CreatePump | src/pump.c:188-211 | no pump when no row fits; otherwise nothing attached and every index available |
| PumpObjects.PumpObject.constructor | src/pump.c:195-210 | a valid pump with nothing attached, every index available and nothing pending |
| PumpObjects.PumpObject.DrainDestination | src/pump.c:225-241 | step 1 in place equals step 1 of the specification and keeps the invariant |
| PumpObjects.PumpObject.DrainSource | src/pump.c:243-275 | step 2 likewise |
| PumpObjects.PumpObject.ForwardPending | src/pump.c:277-310 | step 3 likewise, unless it aborts |
| PumpObjects.PumpObject.PumpPump | src/pump.c:224-310 | a whole call that does not abort equals the specification's and keeps the invariant on every exit |
| PumpOwnership.OwnTakeBack | src/pump.c:227-240 | a returned destination buffer has a recorded source buffer, which goes back to the source or is lost through exactly this failure |
| PumpOwnership.OwnReplace | src/pump.c:244-275 | a new frame replaces the pending one, and a refused push loses exactly one buffer |
| PumpOwnership.OwnForward | src/pump.c:277-309 | step 3 forwards exactly when nothing fails and the head of the ring is not in flight; a failure leaves the bookkeeping alone, and an abort everything |
| PumpOwnership.PassExactly | src/pump.c:9-93 | for every pass function, exactly which calls survive its ASSERTs |
| PumpOwnership.ForwardAborts | src/pump.c:277-309 | step 3 aborts exactly when the head of the ring lies beyond the destination's buffers or the pass function rejects the frame |
| PumpFrames.FramesReplace | src/pump.c:243-275 | every arrival keeps the account of the frames, whether the old frame is skipped or the new one is dropped |
| PumpFrames.FramesForward | src/pump.c:283-308 | forwarding keeps the order and takes the pending frame |
| PumpMemory.MemoryForward | src/pump.c:283-308 | what the destination driver holds afterwards still points at the recorded source buffers |
| PumpFifo.RotationTakeBack | src/pump.c:227-240 | a completion, in whatever order, leaves the turn of the indices alone and counts the returned one |
| PumpFifo.RotationForward | src/pump.c:278-308 | one rotation of the ring uses the next index in turn and puts it behind all others |
| PumpFifo.FifoExactly | src/pump.c:204-308 | the ring is the FIFO free list followed by the buffers in flight if and only if what was used is what came back followed by what is in flight, in that order |
| PumpFifo.OrderedTakeBack | src/pump.c:227-240 | a destination that completes in order gives back the index that was used first |
| PumpFifo.OrderedForward | src/pump.c:278-308 | and a forward, successful or not, keeps it so |
| PumpFifo.HeadBusyMeansAllBusy | src/pump.c:284-303 | in order, the head of the ring is busy exactly when every destination buffer is |
| PumpRuns.CreatedInv | src/pump.c:188-211 | a pump created on freshly started streams satisfies all invariants, whatever `buffers_count` says |
| PumpRuns.PassSafeExactly | src/pump.c:153-186 | a DMABUF pair is accepted always, and its pass function gets through its ASSERT, for any two buffers, if and only if the destination is multi-planar or there is one plane |
| PumpAborts.NeverAborts | src/pump.c:224-310 | if the planes suit and the destination has the buffers its count claims, or the count is zero, no run of any length fires an ASSERT or leaves an array, whatever the drivers do |
| PumpAborts.AbortsExactly | src/pump.c:277-300 | on any started pair, after any run, exactly which call aborts: one with a frame to forward, when the planes do not suit, or as many frames have gone as the destination has buffers and its count claims more, or the frame is too long to copy |
| PumpAborts.ReachedAborts | src/pump.c:277-300 | the same for any state that a DMABUF pump reaches |
| PumpHazards.AbortsUnlessSafe | src/pump.c:188-310 | for every started pair whose pump does not copy and whose drivers fail nothing: some run aborts if and only if the pair is not the safe kind of `NeverAborts` |
| PumpHazards.DmabufAbortsExactly | src/pump.c:188-310 | for DMABUF pairs, in terms of the streams: if and only if the count is not zero and exceeds the buffers, or a single-planar destination is given several planes |
| PumpRuns.Conservation | src/pump.c:224-310 | buffers with the source, with the destination, pending, plus failed source QBUFs, always make up all source buffers |
| PumpRuns.ExclusiveMemory | src/pump.c:224-310 | a buffer the destination holds points at one source buffer, which nobody else holds |
| PumpRuns.FrameFates | src/pump.c:243-308 | frames are forwarded in capture order and each dequeued frame is forwarded once, skipped, dropped or pending, exactly one of them; no more are dropped than source QBUFs have failed, and none while none has |
| PumpRuns.ForwardsTheNewest | src/pump.c:243-308 | a call forwards at most one frame, the newest dequeued that was not dropped, and the newest of all while no source QBUF has failed |
| PumpRuns.RingIsFifoExactly | src/pump.c:204-308 | on every run, in any order of completion, the indices are used in turn; they are those of a true FIFO free list if and only if the returned ones came back in the order of their use |
| PumpRuns.RingIsFifo | src/pump.c:204-206 | on every run with in-order completion the used indices are those of a true FIFO free list, and the ring is that list followed by the buffers in flight |
| PumpRuns.ReachedFacts | src/pump.c:224-310 | every reached state has the exact counts, the fates of the frames with the bound on dropped ones, the turn of the indices and the exclusive memory |
| PumpWakeups.ForwardResult | src/pump.c:277-309 | 0 exactly when no frame is left pending; with no failing ioctl, nonzero exactly when a frame waits and the head of the ring is in flight |
| PumpWakeups.ZeroLeavesNothingPending | src/pump.c:224-310 | a call that returns 0 leaves no frame pending |
| PumpWakeups.NonzeroMeansHeadBusy | src/pump.c:224-310 | in any order: a call that loses no buffer and whose last QBUF meets no failure returns nonzero exactly when it leaves a frame pending, and then the destination buffer that it will try next is in flight, and queued unless it has completed already |
| PumpWakeups.NonzeroMeansAllBusy | src/pump.c:224-310 | in order, every destination buffer is then in flight |
| PumpWakeups.NoWakeupIsLost | src/pump.c:225-310 | if no ioctl of the two loops fails, both run until their stream is drained, as edge-triggered polling needs; what the destination has completed at the return is newer than the last DQBUF, and there is none unless it completes just before the QBUF of step 3 |
| PumpWakeups.PendingWakesAgain | src/pump.c:224-310 | a call that leaves a frame pending has drained both streams, and the buffer the frame needs is still queued, or has completed after the last DQBUF |
| PumpWakeups.PendingMeansHeadBusy | src/pump.c:224-310 | over every run whose calls lose no buffer and meet no failing last QBUF, in any order of completion, a pending frame means that the destination has the buffer next in turn |
| PumpWakeups.CleanWhenNothingFails | src/pump.c:224-310 | all calls of a run are of that kind when the drivers fail nothing |
| PumpExamples.OutOfOrderStalls | src/pump.c:284-303 | a run from a fresh start, no ioctl failing, in which one completion out of order makes the third call fail although a destination buffer is free |
| PumpExamples.SecondFrameAborts | src/pump.c:284-286 | a run from a fresh start, no ioctl failing, on a destination with one buffer and a count of three, in which the second frame leaves the array |
| Nodes.NodeStartKeeps | src/Node.c:8-30 | a node that starts has both streams freshly started; a failure keeps them consistent |
| Nodes.StartAllOrNothing | src/Node.c:8-30 | a failed start restores all states if and only if the output had not started or the STREAMOFF of the rollback succeeds |
| Nodes.StartOrder | src/Node.c:8-30 | the output starts first; if it refuses, the input is untouched; if the input refuses, the output is stopped again; the answer is that of the stream that refused |
| Nodes.StopOrder | src/Node.c:32-51 | both streams are stopped whatever the first one answers, and the first answer that is not 0 is reported |
| Nodes.NodeStopKeeps | src/Node.c:32-51 | after a stop that returns 0 nothing streams |
| NodeObjects.NodeObject.StartNode | src/Node.c:8-30 | equals the specification, rollback included |
| NodeObjects.NodeObject.StopNode | src/Node.c:32-51 | equals the specification, first error reported |
| Polls.MonitorRefines | src/pollinator.c:61-101 | registering, changing and unregistering act on the registrations as on a plain map; epoll_ctl is never refused; a reused slot is referenced by nobody else |
| Polls.PollinatorIsAMap | src/pollinator.c:39-101 | the same over any sequence of calls |
| Polls.MaskExactly | src/pollinator.c:89-96 | each watch flag asks for its own epoll event and no other, always edge-triggered |
| Polls.FlagsExactly | src/pollinator.c:135-142 | for every word of events, each flag is set if and only if its own event is in it, the one for errors for an error or a hang-up |
| Polls.RecognisedExactly | src/pollinator.c:135-142 | a report is acted on if and only if it has one of the five events |
| Polls.MaskRoundTrip | src/pollinator.c:89-142 | a descriptor that reports all the events it is watched for, without the edge-triggered flag, reports the flags asked for |
| Polls.GatheredExactly | src/pollinator.c:120-154 | after a poll a bit is set exactly when it was before or a descriptor registered for it reported one of the five events, in any order |
| Pollinators.Pollinator.constructor | src/pollinator.c:21-28 | nothing is watched |
| Pollinators.Pollinator.FindSlot | src/pollinator.c:39-48 | the first slot of the descriptor |
| Pollinators.Pollinator.AllocSlot | src/pollinator.c:50-59 | the first free slot or a new one, all others unchanged |
| Pollinators.Pollinator.MonitorFd | src/pollinator.c:61-101 | the in-place form refines the plain map |
| Pollinators.Pollinator.Dispatch | src/pollinator.c:120-154 | the dispatch loop with bitSetFunc gathers the bits of the registrations that the kernel's indices name |
| PipelineProofs.OpenedFits | src/Pilatform.c:155-353 | streams prepared in their roles fit their pairs, whatever the drivers granted |
| PipelineProofs.InstallFits | src/main.c:243-245 | a pump created on a started pair exists and is the beginning of a run |
| PipelineProofs.StartFits | src/main.c:220-285 | a successful start makes three fresh pumps and the five registrations; a failed one touches neither; while a pump exists a start fails and changes nothing |
| PipelineProofs.StopFits | src/main.c:287-327 | a stop from any full or partial start leaves no pump, and no stream streaming unless a STREAMOFF failed |
| PipelineProofs.StreamOnFits | src/UVC.c:762-766 | preparing the gadget at every STREAMON keeps all this, whatever its driver grants |
| PipelineProofs.RoundFits | src/main.c:353-377 | the pump calls of a round keep all three pumps in order, each on its own two streams |
| PipelineProofs.RoundAbortsExactly | src/main.c:353-377 | a round aborts if and only if a pump that is due would abort in the state before the round |
| PipelineProofs.PipelineLives | src/main.c:220-388 | over any list of host events, completions and rounds: a pump only while all six streams stream, every pump in a state of a run from a fresh start, and an abort if and only if a round finds a pump that is about to |
| PipelineProofs.PipelineNeverAborts | src/main.c:220-388 | no abort, over any list of steps, if the planes suit and the gadget is granted what it asks for |
| PipelineProofs.WatchesFollowPumps | src/main.c:247-324 | at any time exactly the five descriptors are watched for their bits while there are pumps, and only the gadget's events otherwise |
| PipelineProofs.PumpsWakeUp | src/main.c:247-371 | while the pumps exist, bits 1, 2, 4 and 8 of the poll's word are set exactly when a descriptor at one of the two ends of that pump, or the gadget's, reported one of the five events |
| PipelineEdges.NextPollWakes | src/main.c:332-371 | a poll that reports what epoll promises, the raw EPOLLIN or EPOLLOUT of each stream with something completed behind an edge, makes every pump due that has something to take on either side |
| PipelineEdges.RoundAwake | src/main.c:353-371 | after a round, what a stream still has completed came during that round and raised a new edge |
| PipelineEdges.PollCanReport | src/pollinator.c:103-118 | what is asked of epoll_wait can be met in every state of the pipeline, with pumps or without |
| PipelineEdges.NoEdgeIsLost | src/main.c:329-388 | over any list of completions and turns of the main loop, whatever the host switches and whichever starts and stops fail: while there are pumps, every stream with something completed has an edge on its descriptor that no poll has reported yet |
| PipelineEdges.NoFrameIsStuck | src/main.c:329-388 | over such a list, with calls that lose no buffer, a frame pending in a pump waits for a queued buffer or for an edge not reported yet |
| PipelineEdges.WorksWhenNothingFails | src/main.c:353-371 | the loops of all pumps work and all calls are clean in every step when the drivers fail nothing, and the drivers go on so |
| PipelineEdges.PipelineStaysAwake | src/main.c:329-388 | with drivers that fail nothing, epoll's promise alone makes every edge reported and every pending frame wait for an event to come |
| PipelineTurns.TurnIs | src/main.c:349-377 | a turn of the main loop by the bits of the poll's word: with bit 8 the pending events, each STREAMON starting and each STREAMOFF stopping the pipeline, and then the pumps of bits 1, 2 and 4 |
| PipelineTurns.TurnStarts | src/main.c:349-388 | after a turn whose last event is a STREAMON that five streams and the gadget can follow, all three pumps exist |
| PipelineTurns.TurnStops | src/main.c:349-388 | after a turn whose last event is a STREAMOFF there is no pump, and the turn leaves just what the stop left |
| PipelineTurns.StartsFromTheEnd | src/main.c:223-241 | the nodes are started from the gadget back to the camera; at a refusal those before it stay started and those after it are untouched |
| PipelineProofs.WedgedPipelineStaysDown | src/main.c:220-327 | with a wedged capture stream no list of events ever leads to a pump |
| PipelineStarts.StartsWhenAllCan | src/main.c:220-245 | pipelineStart succeeds if and only if all six streams are prepared, none is wedged, and no ioctl of their starts fails |
| PipelineStarts.ImportsWhenGranted | src/device.c:379-467 | an idle gadget stream obtains buffers, as many as granted, if and only if its driver grants one and no ioctl of this preparation fails |
| PipelineStarts.StreamOnExactly | src/UVC.c:710-766 | a STREAMON succeeds if and only if five streams would start and the gadget has buffers, or is granted some, and starts; only the ioctls that it issues matter |
| PipelineStarts.OnOffOn | src/UVC.c:710-766 | after STREAMON, STREAMOFF, STREAMON, with nothing failing, there is a fresh pump to the gadget for three buffers however many were granted |
| PipelineStarts.OnOffOnAborts | src/pump.c:284-286 | when fewer were granted, that pump never forwards more frames than that, and the call that would aborts |
| PipelineStarts.OnOffOnCanAbort | src/main.c:329-388 | and then there are completions and rounds of the main loop that abort the program |
| PipelineStarts.PipelineAbortsExactly | src/main.c:220-388 | a freshly opened pipeline of suitable planes, whose drivers fail nothing, can abort over some steps if and only if the gadget's driver grants fewer than three buffers |
| PipelineObjects.Pipeline.constructor | src/main.c:159-205 | a valid pipeline without pumps that watches the gadget's events |
| PipelineObjects.Pipeline.Start | src/main.c:220-285 | equals the specification |
| PipelineObjects.Pipeline.Stop | src/main.c:287-327 | equals the specification |
| PipelineObjects.Pipeline.PrepareGadget | src/UVC.c:710-727 | the gadget's stream is prepared, whatever comes of it, and nothing else changes |
| PipelineObjects.Pipeline.StreamOn | src/UVC.c:762-766 | prepare and start, as one step |
| PipelineObjects.Pipeline.HandleEvent | src/main.c:382-388 | a STREAMON prepares the gadget and starts the pipeline, a STREAMOFF stops it |
| PipelineObjects.Pipeline.HandleEvents | src/UVC.c:788-811 | the pending events are handled one after the other |
| PipelineObjects.Pipeline.PollOnce | src/main.c:332-335 | the word holds exactly what the poll gathered, and nothing else changes |
| PipelineObjects.Pipeline.ServeOnce | src/main.c:349-377 | with bit 8 the events first, and then the pumps of bits 1, 2 and 4 that exist then, unless one of these aborts |
| PipelineObjects.Pipeline.RunPumps | src/main.c:353-377 | the three calls in place, each on its own two streams, equal one round that does not abort |
| PipelineObjects.Pipeline.Process | src/main.c:329-380 | one turn of the main loop that does not abort: the events and pumps of the bits that the poll has gathered, which are also steps of the pipeline's life |
| UvcControls.TagsAreUnique | src/UVC.c:214-236 | equal tags come from the same interface, entity and selector |
| UvcControls.ClassMask | src/UVC.c:651-698 | a request counts as a class request exactly when its type under the mask 0x60 is 0x20 |
| UvcControls.Addressed | src/UVC.c:242-295 | which control a packet addresses, from its raw fields: interface in the low and entity in the high byte of wIndex, the selector in the high byte of wValue |
| UvcControls.ErrorCodeControl | src/UVC.c:326-389 | for every request of the error code control, the bytes of the answer or the stall with its error code |
| UvcControls.AeModeControl | src/UVC.c:502-529 | the same for the auto-exposure mode, which is always automatic |
| UvcControls.BrightnessControl | src/UVC.c:544-551 | the same for brightness, which announces more than it allows |
| UvcControls.BrightnessHandler | src/UVC.c:459-486 | what the get handler of brightness would answer, as a 16-bit little-endian number |
| UvcControls.ProbeAndCommit | src/UVC.c:391-436 | the same for probe and commit: the 34 bytes of the one format, zeros, or the announced length; and that SET_CUR alone opens a data phase, on the control addressed |
| UvcControls.NoSuchControl | src/UVC.c:651-698 | every other address is stalled with the code for an invalid request |
| UvcControls.OthersOpenNothing | src/UVC.c:651-698 | no other address opens a data phase, and no packet changes the mapping of brightness |
| UvcControls.DataCloses | src/UVC.c:729-748 | a DATA packet closes the data phase and runs the setter of the control that opened it, if it has one; the ASSERT fires for brightness without a mapping and for nothing else |
| UvcControls.StallIffError | src/UVC.c:651-698 | a SETUP is answered with a stall exactly when the error code is nonzero afterwards |
| UvcControls.AnswersHaveAnnouncedLength | src/UVC.c:326-376 | what is answered for a value, and what a data phase expects, is as long as GET_LEN announces |
| UvcControls.ErrorCodeRead | src/UVC.c:378-389 | a read of the error code answers the previous code if and only if it is a class request or that code was the one for an invalid request |
| UvcControls.ErrorCodeOfPreviousRequest | src/UVC.c:651-698 | on traces, a class read answers the code of the SETUP before it, and zero exactly when that was not stalled |
| UvcControls.DataPhaseExactly | src/UVC.c:729-748 | on traces, a DATA packet runs set_data exactly when the packet before it asked to set probe or commit, and on that control; the brightness ASSERT is unreachable |
| UvcGadgets.UvcGadget.FindControlByTag | src/UVC.c:288-295 | the first control with the tag |
| UvcGadgets.UvcGadget.DispatchRequest | src/UVC.c:326-376 | equals the specification |
| UvcGadgets.UvcGadget.ProcessEventSetup | src/UVC.c:651-708 | equals the specification, and stalls exactly on an error |
| UvcGadgets.UvcGadget.ProcessEventData | src/UVC.c:729-748 | equals the specification |

## Left out

- Arrays.Array.Append: sizes and capacities are unbounded integers, so 32-bit overflow of `capacity * 3 / 2` and a failing `malloc` are not modelled.
- PumpObjects.PumpObject.PumpPump: defined for calls that do not abort, as are the methods above it; what the program does after it has left an array is not modelled.
- PumpObjects.PassBuffer: the MMAP-to-MMAP pass is modelled without the bytes it copies.
- Devices.DeviceStream.Prepare: crop and compose selection and the format's pixels are left out; their ioctls cannot change a stream's buffers. A driver that reports eight planes or none, where the code has an ASSERT, is outside the kernel's contract, and QUERYBUF reports one length for all planes of a buffer. Which plane an EXPBUF names is not part of the model: the code names plane 0 for every plane, and the driver's answer is taken as it is.
- Devices.DeviceStream.Start: requires that `buffers_count` of a capture stream does not exceed its buffers; only the gadget's output stream is ever prepared twice.
- Pollinators.Pollinator.MonitorFd: epoll_ctl fails only for a descriptor that is already, or not, in the set; descriptors are not negative.
- Pollinators.Pollinator.Dispatch: bitSetFunc is the only callback, so other return values, the limit of 16 events, EINTR and timeouts do not appear.
- PipelineEdges.NoEdgeIsLost: epoll is a promise (`PollReports`): a descriptor that has an edge, something completed and a registration for the event that tells so is reported; errors, hang-ups and UVC events raise no edges here, and the edge of a completion is raised at once, also on a descriptor that is not registered, where it has no effect.
- PipelineObjects.Pipeline.Process: a failing epoll_wait, which exits the program, is not a step; the gadget's SETUP and DATA events are a machine of their own (UvcControls.dfy) and are not interleaved with the pipeline's steps; a failing DQEVENT or response, which ends the event loop early, is a shorter list of events.
- UvcGadgets.UvcGadget.ProcessEventSetup: sending the response may fail with an error that is only returned.
- PumpPayload.FramesKeepTheirPayload: for a multi-planar source it speaks of the planes that the driver filled in when it handed the buffer out.
- Each buffer has its own planes: the pointer to a stack array in `streamRequestBuffers` and unreleased mappings and descriptors are not modelled.
- Error codes of ioctls are positive numbers; strings, logging, LED blinking and timing have no state here.
- V4L2 controls, sub-devices and the opening of devices (src/V4l2Control.c, src/subdev.c, src/Pilatform.c) are hardware configuration with fixed constants.
- The values of USB and V4L2 constants come from kernel headers that are not part of the repository; the length 34 of the streaming control structure is that of UVC 1.1.
