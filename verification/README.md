# Verified model of icanact-remote's ask, reply and framing core

This project models the concurrent and byte-level core of the remote-actor transport and
proves what it promises over every run and every input.

- **Ask forwarder** (`Forwarder*.dfy`): admission under a lock, permit accounting, a pool of
  workers that may drain, panic or be aborted at any time, and any number of concurrent,
  cancellable `shutdown` calls that elect a leader, wait, force, reap join handles and publish
  one result. A state machine whose steps are single atomic accesses, mutex regions and
  await-free regions. `ShutdownWake.dfy` is the notifier that gets idle workers moving.
- **Immediate gossip** (`GossipCoalescing.dfy`): the two-flag protocol between the timer's
  select arm and its detached workers, one atomic access per step.
- **Frames** (`BigEndian.dfy`, `Framing.dfy`, `FrameParser.dfy`, `Codec.dfy`, `FrameReader.dfy`):
  the 5/27-bit control word, the in-place header writers, the parser, and the reader that
  reassembles frames from arbitrary pieces of a byte stream.
- **Interned routes** (`Routes.dfy`, `RoutedConnection.dfy`): the connection's slot table and
  the sender that replaces actor and type by a slot, with failing enqueues and rollback.
- **Replies and leases** (`Replies.dfy`, `ReplyInvariants.dfy`, `ReplySteps.dfy`,
  `ReplyRuns.dfy`, `ReplyCalls.dfy`, `ReplyAdmission.dfy`, `ReplyFrames.dfy`): responders sharing one claim,
  fallbacks, leases, the two-dimensional delivery budget and the reply slots. Any number of
  asks, budgets, connections and callers interleave.
- **Correlation** (`Correlation*.dfy`): the ring of slots that matches replies to waiting asks.
  Ids that agree modulo 8192 share a slot, so allocations, completions, polls, timeouts, guard
  drops and teardown of unrelated requests meet on it; one atomic access per step.
- **Buffer pool** (`BufferPool.dfy`), **address ownership** (`AddrOwnership.dfy`) and
  **client-only sessions** (`ClientOnly.dfy`, and `ClientOnlyRaces.dfy` for concurrent callers).

Code that updates fields or arrays in place appears as classes and methods proved against
specification functions; protocols appear as a state, an `Enabled` guard, an `Apply` function
and `After`, the state a run of steps reaches. Timeouts, queue answers, allocator growth,
eviction choices and scheduling are free choices of a step or parameters of a call.

Some promises turned out not to hold without a condition. Each failure has a witness.

- `finalize_observer_gaps` can count an ask that is later rolled back. This happens when the
  last worker panics while an enqueue stands between its increment and its send.
  `OvercountWitness` is such a run; `Conservation` says the books are exact if and only if
  reconciliation did not read the counter at that point, and that the exception needs every
  worker to have left before admission closed.
- Not every accepted frame re-encodes to itself: the parser ignores the reserved bytes of
  gossip, plain asks, responses and pub-sub messages. `ReencodingFails` is such a frame;
  `ReencodesIff`, `AskReencodesIff` and `GossipReencodesIff` give the exact conditions.
- A parked waiter is not always woken for its reply. A guard drop for an older id on the same
  slot can seize a ready slot while the waiter looks, and then put it back without a wake-up;
  an unlimited wait never resumes. `StrandedWitness` is such a run on the full ring;
  `StrandedIff` says this is the only way, in every run that never hands out a live id.
- `complete` can report that nobody waits for an id while its request does wait. While a stale
  caller briefly holds the slot, the one attempt fails and nothing is published.
  `MissedWitness` is such a run; `CompletionIff` and `MissedIff` give the exact conditions.
- A timed wait can end with its slot left behind for good. The reply can become ready between
  the wait's last try and its last look; a caller that then gives the request up without a
  cancel leaks the slot. `LeakedWitness` is such a run; `DisarmLeaksIff` and `NoLeaks` give the
  exact condition, and `ResolvedIsClean` says only timed-out waits are affected.
- A timed wait can lose its limit. If its last look finds the slot being written, it waits on
  without a timeout, also when the writer is a stale caller that just puts the slot back.
  `UnlimitedWitness` is such a run; `UnlimitedIff` gives the exact condition.
- `allocate` can report a full ring while a slot is empty. Its sweep skips id zero without a
  further try, so the slot of that id is not visited. `ZeroIsSkipped` is such a case on a ring of
  any size; `AllocateAlone` says an undisturbed sweep fails exactly when none of its ids is nonzero
  with an empty slot, and `AllocateIff` that without a wrap this means the ring is full.
- The table of client-only peers can outgrow its bound, because the length test, the look-up,
  the eviction and the insertion are separate accesses. `OutgrownWitness` reaches any size with
  two callers; `ClientOnlyRaces.TableBounded` bounds the excess by what causes it.

## Model

| member | source | states |
|---|---|---|
| `ForwarderSteps.EnqueueKeepsInv` | src/ask_forwarder.rs:465-497 | every step of an enqueue (permit, closed check, count, send, rollback) keeps the whole invariant |
| `ForwarderSteps.WorkerKeepsInv` | src/ask_forwarder.rs:800-890 | every step of a worker, including panic, abort and its exit guard, keeps the whole invariant |
| `ForwarderElection.ShutdownKeepsInv` | src/ask_forwarder.rs:291-387 | every step of any concurrent shutdown call, including cancellation, keeps the whole invariant |
| `ForwarderElection.DropKeepsInv` | src/ask_forwarder.rs:499-507 | dropping the last owner closes, forces and aborts without breaking the invariant |
| `ForwarderRuns.RunInv` | src/ask_forwarder.rs:132-185 | the invariant holds in every reachable state |
| `ForwarderRuns.AcceptedCountsOk` | src/ask_forwarder.rs:465-497 | accepted tasks are exactly the enqueues that returned Ok |
| `ForwarderRuns.Conservation` | src/ask_forwarder.rs:771-798 | when all workers have ended: accepted = observed + lost with no task twice, one reconciliation, completions and observer calls one per Ok enqueue if and only if no snapshot fell inside an unfinished enqueue |
| `ForwarderRuns.OrderlyConservation` | src/ask_forwarder.rs:733-752 | if somebody was still at work when admission closed, or nobody panicked, completions and observer calls equal the Ok enqueues |
| `ForwarderRuns.OvercountWitness` | src/ask_forwarder.rs:474-495 | a run in which a sole worker panics mid-enqueue and one error too many is recorded |
| `ForwarderRuns.ReclamationIsComplete` | src/ask_forwarder.rs:600-611 | published reclamation means a result is set, every handle joined, every worker gone, every permit back, admitted = Ok enqueues |
| `ForwarderRuns.BoundedWork` | src/ask_forwarder.rs:201-205 | available permits plus all work held anywhere is always capacity + 16; at most 16 in flight per worker |
| `ForwarderRuns.BuiltBounded` | src/ask_forwarder.rs:196-205 | the same for whatever sizes were asked for: at least one worker, capacity raised to 128, the permit sum saturating |
| `ForwarderRuns.HandleConservation` | src/ask_forwarder.rs:625-671 | each join handle is in exactly one of stored, held by the leader, or joined; joined handles belong to ended workers |
| `ForwarderRuns.TruthfulShutdown` | src/ask_forwarder.rs:291-387 | all returned calls agree with the published result; they return Ok if and only if nobody exited abnormally, no accepted task was lost and no leader's grace ran out while a worker was still present, and then a worker observed every accepted task |
| `ForwarderVerdict.StepKeepsVerdict` | src/ask_forwarder.rs:349-372 | every step keeps that a timeout is persisted or on its way only for a reason, and that a grace that ran out with a worker present is one |
| `ForwarderRuns.ForcedIff` | src/ask_forwarder.rs:349-372 | the forced flag is set exactly when the result is a timeout or the last owner was dropped |
| `ForwarderRuns.Sticky` | src/ask_forwarder.rs:590-611 | the terminal result, publication and every returned value survive any continuation |
| `ForwarderRuns.LeadershipSafety` | src/ask_forwarder.rs:548-584 | at most one leader; every unwoken parked waiter coexists with a leader or an undelivered notification |
| `ForwarderRuns.NotificationKept` | src/ask_forwarder.rs:300-319 | a waiter notified between registering and parking does not park |
| `ForwarderRuns.NotificationReaches` | src/ask_forwarder.rs:306-319 | a notification wakes every waiter that has registered, parked or not |
| `ForwarderRuns.DoneReaches` | src/ask_forwarder.rs:733-752 | the last worker's notification wakes the leader, armed or parked |
| `ForwarderRuns.CancelLeader` | src/ask_forwarder.rs:509-527 | unwinding a cancelled leader returns its handles before it releases leadership, then wakes the others |
| `ForwarderRuns.Takeover` | src/ask_forwarder.rs:293-319 | after cancelling the leader at any await point, any parked waiter can become leader, with all handles back in store |
| `ForwarderProgress.NeverStuck` | src/ask_forwarder.rs:613-623 | while a shutdown call has not returned, some step other than an outside choice is enabled |
| `ForwarderProgress.InternalStepDescends` | src/ask_forwarder.rs:800-890 | every internal step lowers a well-founded rank |
| `ForwarderProgress.ReachableSettles` | src/ask_forwarder.rs:291-387 | from every reachable state, in whatever order internal steps run, they end, and then every shutdown call has returned |
| `ForwarderProgress.DroppedWorkersLeave` | src/ask_forwarder.rs:499-507 | once the last owner is dropped every worker has been told to abort, and each can go on leaving without anybody |
| `ForwarderPatience.PatienceMoves` | src/ask_forwarder.rs:800-890 | while a shutdown call has not returned, the workers can go on draining or the call itself can move, without a panic, an abort or the end of a grace period |
| `ForwarderPatience.GracefulShutdown` | src/ask_forwarder.rs:291-365 | from any state where nothing has gone wrong, steps without panics, aborts and expired graces return only Ok, and where no such step is left every call that was not cancelled has returned Ok |
| `ForwarderHistory.ObserverTold` | src/ask_forwarder.rs:1101-1118 | in every run the observer heard one success per forward that succeeded, and one error per other recorded outcome and per task reconciled as lost |
| `ForwarderHistory.RoundRobin` | src/ask_forwarder.rs:484-486 | enqueues take the workers in turn, one attempt each, starting over after the last and at the wrap of the counter |
| `ForwarderHistory.EnqueueIff` | src/ask_forwarder.rs:465-497 | an uninterrupted enqueue with a permit succeeds exactly when the worker whose turn it is still receives and has room; refused, it leaves no trace but the turn |
| `ForwarderHistory.WorkerNeverBlocked` | src/ask_forwarder.rs:819-890 | in every run a worker can start its next task exactly while it runs with fewer than sixteen in flight, any waiting task can expire and any forward can end, and a leaving worker can leave |
| `ForwarderHistory.WorkerOrder` | src/ask_forwarder.rs:821-858 | in every run what a worker started, then holds back, is what it was sent, in that order, less the tasks it dropped; exactly that if it dropped none |
| `ShutdownWake.NoWorkerSleepsOn` | src/ask_forwarder.rs:810-836 | once the flag is set and no call is between setting it and notifying, every parked worker has seen the flag or has been notified |
| `ShutdownWake.NextLookSees` | src/ask_forwarder.rs:810-836 | a parked worker, once it goes round, finds the flag set |
| `ShutdownWake.PermitWakesNext` | src/ask_forwarder.rs:341-347 | a notification kept for want of a listener goes to the next worker that registers, and to it alone |
| `ShutdownWake.EveryWorkerRung` | src/ask_forwarder.rs:341-347 | setting the flag is followed by a notification of everybody registered and one more for every worker |
| `ShutdownWake.RingCounts` | src/ask_forwarder.rs:341-347 | each of these wakes one listener, or is kept if there is none |
| `ForwarderQueues.LiveLapsedPartition` | src/ask_forwarder.rs:908-926 | kept and expired tasks together are the queue, as multisets |
| `ForwarderQueues.LiveInOrder` | src/ask_forwarder.rs:908-926 | kept tasks stay in their original order |
| `ForwarderQueues.LiveExactly` | src/ask_forwarder.rs:908-926 | a task is kept if and only if it has no deadline or its deadline is later |
| `ForwarderQueues.WorkerQueues.ExpireWaiting` | src/ask_forwarder.rs:908-926 | the in-place pass leaves exactly the unexpired tasks and completes each removed one once |
| `ForwarderQueues.WorkerQueues.DispatchWaiting` | src/ask_forwarder.rs:928-950 | tasks start first-in first-out, never expired, never beyond the limit, until the queue or the limit is reached |
| `ForwarderQueues.PassConserves` | src/ask_forwarder.rs:928-968 | one expire-and-dispatch pass neither loses nor duplicates a task |
| `ForwarderQueues.SaturatingDeadline` | src/ask_forwarder.rs:691-704 | the halving search ends, is exact when the sum is representable, and otherwise is within half of the largest offset |
| `GossipCoalescing.RunInv` | src/handle.rs:3699-3739 | gate, trigger and notifier invariants hold in every run |
| `GossipCoalescing.OneRoundAtATime` | src/handle.rs:3709-3733 | two immediate rounds never run at once |
| `GossipCoalescing.NoTriggerStranded` | src/handle.rs:3699-3739 | until a round begins after a change, the change is on its way through one of the named places |
| `GossipCoalescing.QuietMeansServed` | src/handle.rs:3699-3739 | when nothing is left to do, a round began after every change |
| `GossipCoalescing.StepDescends` | src/handle.rs:3699-3739 | every internal step short of beginning a round lowers a rank |
| `GossipCoalescing.ServedInTime` | src/handle.rs:3699-3739 | with no further change the system can always go on until a round has begun after the latest change, and one has begun after at most a known number of steps in any order |
| `GossipCoalescing.RoundAgain` | src/handle.rs:3709-3733 | a worker that finds a new trigger after its round serves it with another round before it opens the gate |
| `GossipCoalescing.NoRoundAfterShutdown` | src/handle.rs:3709-3733 | once shutdown has begun, no continuation begins a round |
| `Framing.ControlRoundTrip` | src/framing.rs:218-266 | a control word decodes to a kind and length if and only if it is their encoding |
| `Framing.ControlWordBytes` | src/framing.rs:218-227 | byte by byte: eight times the kind plus the top three bits of the length, then the other bytes of the length, most significant first |
| `Framing.WireNumbers` | src/framing.rs:50-68 | the number of every kind, and that no other number is a kind |
| `Framing.NackNumbers` | src/framing.rs:492-502 | the number of every refusal, and how any other number is read |
| `BigEndian.ByteAt` | src/framing.rs:226-226 | byte i of an encoded word is its digit of weight 256^(width - 1 - i) |
| `BigEndian.U32Bytes` | src/framing.rs:295-295 | four bytes are read most significant first |
| `BigEndian.U64Bytes` | src/framing.rs:295-295 | eight bytes are two such words, the high one first |
| `Framing.EncodeIff` | src/framing.rs:197-206 | a message can be framed if and only if its request id is not zero and its body fits 27 bits; which refusal it gets otherwise |
| `Framing.TryWriteActorTellHeader` | src/framing.rs:288-298 | the array is exactly the header, or the length error; followed by any payload of that length it is that message's frame |
| `Framing.TryWriteActorAskHeader` | src/framing.rs:354-375 | the array is exactly the header with its optional request id; request id zero and oversize are refused; followed by any payload of that length it is that ask's frame |
| `Framing.TryWriteRoutedActorAskHeader` | src/framing.rs:391-402 | the array is exactly the header, or the length error; followed by any payload of that length it is that message's frame |
| `Framing.WriteRouteBindHeader` | src/framing.rs:411-423 | the array is exactly the whole bind frame |
| `Framing.TryWriteAskResponseHeader` | src/framing.rs:441-455 | the array is exactly the header with zeroed reserved bytes, or the length error; followed by any payload of that length it is that message's frame |
| `Framing.TryWriteAskNackHeader` | src/framing.rs:537-547 | the array is exactly the refusal frame, marked in the reserved bytes |
| `Framing.TryWriteDirectAskHeader` | src/framing.rs:637-647 | the array is exactly the header, or the length error; followed by any payload of that length it is that message's frame |
| `Framing.TryWriteDirectResponseHeader` | src/framing.rs:675-684 | the array is exactly the header, or the length error; followed by any payload of that length it is that message's frame |
| `Framing.TryWriteReservedPrefix` | src/framing.rs:577-597 | gossip and pub-sub prefixes are the control word and twelve zeros, or the length error; followed by any payload of that length they are that message's frame |
| `Framing.TryWriteStreamRequestStartHeader` | src/framing.rs:737-754 | the array is exactly the header, or the length error; followed by any payload of that length it is that message's frame |
| `Framing.TryWriteStreamResponseStartHeader` | src/framing.rs:770-783 | the array is exactly the header, or the length error; followed by any payload of that length it is that message's frame |
| `Framing.TryWriteStreamDataHeader` | src/framing.rs:799-815 | the array is exactly the header of either direction, or the length error; followed by any chunk of that length it is that chunk's frame |
| `Framing.WriteStreamAbortHeader` | src/framing.rs:818-828 | the array is exactly the whole abort frame |
| `Codec.FrameShape` | src/framing.rs:269-273 | every encoded frame is its control word, fields and payload, and its control word names them |
| `Codec.PayloadIs` | src/aligned.rs:129-171 | payloads of aligned kinds start at a multiple of sixteen and are handed out whole |
| `Codec.NackFields` | src/framing.rs:537-568 | a refusal frame is read back as that refusal |
| `Codec.RoundTrip` | src/handle.rs:5454-5762 | parsing any encoded frame delivers exactly the message's fields and payload, or its one refusal |
| `Codec.DeliveredIff` | src/handle.rs:5454-5762 | an encoded frame is accepted if and only if its ids are nonzero and its route is acceptable or known |
| `Codec.Reencodes` | src/handle.rs:5476-5762 | every accepted tell, ask, direct ask or stream frame is the one encoding of its message |
| `Codec.ReencodesIff` | src/handle.rs:5578-5663 | an accepted raw ask, response, direct response or pub-sub frame is its message's encoding if and only if its reserved bytes are clean |
| `Codec.ReencodingFails` | src/handle.rs:5596-5615 | a concrete response frame with a stray reserved byte is accepted and is not its message's encoding |
| `Codec.AskReencodesIff` | src/handle.rs:5578-5595 | an accepted ask, decoded or raw, is the encoding of its id and payload if and only if its reserved bytes are zero |
| `Codec.GossipReencodesIff` | src/handle.rs:5664-5674 | an accepted gossip frame is the encoding of its payload if and only if its reserved bytes are zero |
| `Codec.RouteBindReencodes` | src/handle.rs:5524-5546 | an accepted binding is the one frame for its slot, actor and type |
| `Codec.RoutedAskReencodes` | src/handle.rs:5547-5577 | an accepted compact ask is the one frame for its id, slot and payload |
| `Codec.AcceptedIff` | src/handle.rs:5476-5762 | of the kinds without ignored bytes, the parser accepts exactly the frames of deliverable messages |
| `Codec.LenientAcceptedIff` | src/handle.rs:5578-5663 | of the kinds with ignored bytes, it accepts exactly the frames with room for the header, and delivers what they say whatever the ignored bytes hold |
| `FrameReader.Fill` | src/handle.rs:5779-5790 | the read loops return the next bytes however the stream is cut, short only at its end |
| `FrameReader.ReadMessage` | src/handle.rs:5772-5811 | one read does what the specification does on the remaining bytes, with the right error for each kind of end |
| `FrameReader.ReadOneIff` | src/handle.rs:5791-5811 | a read returns a result and leaves the rest if and only if what precedes the rest is one control word and a body of 1 to max bytes that parses |
| `FrameReader.LengthRefused` | src/handle.rs:5793-5798 | a length of zero or above the limit is refused whatever follows |
| `FrameReader.ReadStream` | src/handle.rs:5772-5811 | iterated over a source that hands out arbitrary pieces, the reader produces exactly the transcript of the bytes |
| `FrameReader.StreamRecovered` | src/handle.rs:5772-5811 | reading the concatenation of any list of sendable frames returns that list and then a clean close |
| `FrameReader.ReadFrames` | src/handle.rs:5772-5811 | a source holding any list of sendable frames, however cut, is read as that list and then a clean close |
| `FrameReader.PrefixYieldsNothing` | src/handle.rs:5772-5811 | no proper prefix of a frame yields a message |
| `FrameReader.EncodeInjective` | src/framing.rs:288-455 | different messages have different frames, so a refusal is never a response |
| `FrameReader.StreamUnambiguous` | src/framing.rs:218-266 | two lists of messages with the same bytes are the same list |
| `Routes.RouteTable.constructor` | src/route_interning.rs:33-45 | an empty table whose first slot is one |
| `Routes.RouteTable.New` | src/route_interning.rs:34-36 | an empty table with the per-connection limit |
| `Routes.RouteTable.Bind` | src/route_interning.rs:89-115 | binds exactly when slot and key are new, or already bound to each other, within the limit |
| `Routes.RouteTable.SlotFor` | src/route_interning.rs:71-87 | returns the bound slot, or a never-used one with a bind owed, or none at the limit |
| `Routes.RouteTable.RemoveUnbound` | src/route_interning.rs:124-133 | removes exactly the given pairing |
| `Routes.BindKeeps` | src/route_interning.rs:89-115 | binding keeps the two maps inverse and never changes what a bound slot stands for |
| `Routes.AcceptsIff` | src/route_interning.rs:89-115 | a binding is accepted if and only if the slot already stands for that route, or slot and route are new, the slot is nonzero and there is room |
| `Routes.RollbackUndoes` | src/route_interning.rs:124-133 | rolling back a fresh allocation restores the table |
| `RoutedConnection.HistoryKeepsSlot` | src/handle.rs:5524-5577 | no history of frames, well-formed or not, changes a bound slot |
| `RoutedConnection.CompactRefinesLong` | src/handle.rs:5524-5577 | after a binding and any history, a compact ask is delivered as the long ask with that actor and type |
| `RoutedConnection.AskDelivered` | src/connection_pool/stream_writer.rs:6033-6162 | whichever enqueues fail, sender and receiver keep equal tables, and the ask is delivered as its long form exactly when its frame is within the limits, its request id is not zero and its enqueues are accepted |
| `RoutedConnection.AskReachedIff` | src/connection_pool/stream_writer.rs:6033-6162 | an ask reaches the queue if and only if it gets through: by its sizes, its request id, the answers of its enqueues and whether its route is known or can be introduced |
| `RoutedConnection.ConnectionRefinesLongForm` | src/connection_pool/stream_writer.rs:6033-6162 | for any list of asks the interning connection delivers what a reference owes that knows no slots and sends the long form of each ask that gets through, and no frame is refused |
| `RoutedConnection.InterningIsInvisible` | src/connection_pool/stream_writer.rs:6033-6162 | where payloads leave room for the longer header, a connection sending only those long asks delivers the same asks in the same order |
| `ReplySteps.StepKeepsInv` | src/reply_lease.rs:331-438 | every step of every responder, fallback, admission, lease, writer and close keeps the reply invariant |
| `ReplyRuns.AtMostOneReply` | src/ask_responder.rs:107-115 | in every run at most one claim, one accepted frame, one observer call and one owner per ask; a won claim is owned, handed over, or lost in one recorded way |
| `ReplyRuns.SettledForever` | src/ask_responder.rs:440-474 | once a won claim has no owner, no continuation touches the ask |
| `ReplyRuns.EndingCounted` | src/ask_responder.rs:585-728 | each way a claim ends is counted exactly when an action ends it that way, in terms of what the encoder, the queue and the connection answered |
| `ReplyRuns.NewHandles` | src/ask_responder.rs:404-416 | a minted responder carries its observer, not called yet, and a clone is one more handle on the same ask |
| `ReplyRuns.ObservedBeforeHandover` | src/ask_responder.rs:714-728 | a reply the observer can be shown is handed over only after the observer's one call |
| `ReplyRuns.LeaseAccepts` | src/connection_pool/reply_slots.rs:92-165 | a lease on an open connection accepts a reply if and only if it is within its reservation and stores it; a longer one ends the lease with its cancellation reply queued |
| `ReplyRuns.LeaseAlwaysDelivers` | src/reply_lease.rs:283-329 | on an open connection a lease gives up its claim only by queueing exactly one frame: the stored reply if it was activated, the cancellation reply otherwise; only an awaited reply leaves somebody waiting |
| `ReplyRuns.WaiterReturnsIff` | src/reply_lease.rs:303-319 | a caller waiting for its reply to be written returns exactly once its record is recycled |
| `ReplyRuns.ActivationHasRoom` | src/connection_pool/reply_slots.rs:213-255 | the ready queue always has room for a lease's record |
| `ReplyRuns.CutOnlyByClosing` | src/connection_pool/reply_slots.rs:748-770 | no claim is lost to closure unless a connection closed |
| `ReplyRuns.ClosedTakesNone` | src/connection_pool/reply_slots.rs:748-770 | a closed connection stays closed and no continuation reserves a record on it |
| `ReplyRuns.PermitsConserved` | src/reply_lease.rs:120-164 | in every run available + held equals the limits for jobs and bytes, free + reserved slots is 64, and every reservation fits its cancellation reply and one inline frame |
| `ReplyRuns.RecycledOnce` | src/connection_pool/reply_slots.rs:457-500 | a queued record can always be finished and a closed connection's record swept, and the first of these returns its job, bytes and slot |
| `ReplyRuns.PublishedBounded` | src/connection_pool/reply_slots.rs:92-165 | in every run each stored reply is within its reservation, and those under one budget together are within the bytes it has given out |
| `ReplyFrames.CancellationFits` | src/reply_lease.rs:365-403 | in every run the cancellation reply of every reserved record can be framed and fits one message of its connection |
| `ReplyRuns.AllReturned` | src/connection_pool/reply_slots.rs:457-500 | with no admission under way and every record recycled, every permit and slot is back |
| `ReplyRuns.NeverBlocked` | src/ask_responder.rs:585-728 | whatever an agent's own state allows is enabled in every state satisfying the invariant |
| `ReplyCalls.AskCell.Claim` | src/ask_responder.rs:107-115 | only the first caller of the guard wins, and the guard stays set |
| `ReplyCalls.AskCell.Notify` | src/ask_responder.rs:719-728 | the observer is called only if present, not yet called, and within the streaming limit |
| `ReplyCalls.ReplyBytes` | src/ask_responder.rs:585-630 | a whole call is the composition of the claim, notification and enqueue steps |
| `ReplyCalls.ReplyGuaranteed` | src/ask_responder.rs:632-649 | a call that wins the claim sends inline or retries before it returns; a losing call changes nothing |
| `ReplyCalls.WholeCallMeans` | src/ask_responder.rs:612-630 | what a whole call leaves: a frame, a recorded loss, or a fallback owning the claim |
| `ReplyAdmission.NewBudget` | src/reply_lease.rs:76-118 | a budget exists exactly for nonzero limits in permit range whose cancellation reply fits; all permits start available |
| `ReplyAdmission.ReplyDeliveryBudget.TryReserve` | src/reply_lease.rs:120-159 | takes one job and the bytes, or nothing, with the refusal for each case |
| `ReplyAdmission.ReplySlots.TryReserve` | src/connection_pool/reply_slots.rs:568-594 | takes one slot of an open table, or nothing, with the refusal for each case |
| `ReplyAdmission.SlotRecord.Recycle` | src/connection_pool/reply_slots.rs:457-500 | the first call returns permits and slot, later calls nothing |
| `ReplyAdmission.SizeRefusal` | src/reply_lease.rs:365-403 | the size checks pass if and only if the reservation is in range and fits the cancellation reply and its frame |
| `ReplyAdmission.ReserveForResponder` | src/reply_lease.rs:331-438 | a lease if and only if every check passes and the claim is owned or won; every failure restores permits, slots and claim, returns what was passed in and names the first check that failed |
| `ReplyAdmission.SoloAdmission` | src/reply_lease.rs:331-438 | the interleaved machine's admission steps, run without interference, are all-or-nothing under the same condition |
| `ReplyAdmission.FirstProblem` | src/reply_lease.rs:331-438 | the refusal an admission gets; none exactly when it is admissible |
| `ReplyRuns.ClosedAdmissionUndone` | src/connection_pool/reply_slots.rs:644-648 | an admission that finds its connection closed at the last check gets back what it started from, and its permits return |
| `CorrelationSafety.StepKeepsInv` | src/connection_pool/correlation.rs:212-479 | every access of every allocation, completion, poll, timeout, guard drop and teardown keeps ownership, initialisation and id invariants |
| `CorrelationSafety.MemorySafe` | src/connection_pool/correlation.rs:110-153 | in every run no uninitialised cell is read or dropped and none overwritten, a slot being written has one owner, and published = taken + dropped + stored |
| `CorrelationSafety.RightReply` | src/connection_pool/correlation.rs:124-141 | a waiter only receives a value with which its own full id was completed in that run, whatever ids alias |
| `CorrelationReplies.RepliesWereSent` | src/connection_pool/correlation.rs:304-326 | in every run every reply in a cell or in a caller's hands was handed to a completion of that id earlier |
| `CorrelationReplies.TimeoutsWereChosen` | src/connection_pool/correlation.rs:531-572 | a wait reports a timeout only if its timeout firing was the last thing its caller chose |
| `CorrelationReplies.RequestCanEnd` | src/connection_pool/correlation.rs:531-572 | a timeout that fires sets its wait on the verdict, and a request at rest can always be dropped |
| `CorrelationSafety.OwnedIsFrozen` | src/connection_pool/correlation.rs:282-311 | while one caller owns a slot no run of the others changes its phase, id or reply |
| `CorrelationFates.OwnStep` | src/connection_pool/correlation.rs:282-311 | an owner can always make its next access, keeps to its plan, and is done after three at most |
| `CorrelationFates.OwnerFate` | src/connection_pool/correlation.rs:282-431 | whatever the others do between an owner's accesses, it leaves the slot, and ends itself, exactly as its first look decided |
| `CorrelationFates.CompletionIff` | src/connection_pool/correlation.rs:282-341 | a completion ends with its reply ready under its id if and only if its first access finds the slot waiting under that full id |
| `CorrelationFates.TakeIff` | src/connection_pool/correlation.rs:110-153 | a poll that finds its slot ready ends with exactly the reply that lay there and the slot empty if the slot has its full id, and otherwise puts the slot back and ends without one, whatever the others do meanwhile |
| `CorrelationFates.ExpiryIff` | src/connection_pool/correlation.rs:531-572 | a timeout that finds its slot waiting ends the wait and empties the slot if the slot has its full id, and otherwise puts the slot back and polls once more |
| `CorrelationFates.GivesUpOnEmpty` | src/connection_pool/correlation.rs:376-479 | a guard drop or teardown gives a slot up only when it is empty; until then it retries, clears it, or seizes it to compare ids |
| `CorrelationFates.ClearedBeforeDone` | src/connection_pool/correlation.rs:376-479 | a guard drop is over only after its slot was seen empty or under another id, and a teardown of a slot only after it was seen empty, whatever happens in between |
| `CorrelationFates.ReportMatchesSlot` | src/connection_pool/correlation.rs:482-572 | a wait reports its slot gone only if its last access saw the slot empty or under another id, and a timeout only if it saw the slot occupied |
| `CorrelationFates.PollBounded` | src/connection_pool/correlation.rs:482-572 | a poll comes closer to being parked, ended or in hold of its slot with each of its own accesses, whatever the others do |
| `CorrelationFates.MissedIff` | src/connection_pool/correlation.rs:282-302 | when a completion finds its slot being written, who holds it, and that a request waits there after all if and only if the holder is a stale caller that seized it waiting or its own allocation |
| `CorrelationAllocation.AllocateAlone` | src/connection_pool/correlation.rs:212-270 | an undisturbed allocation takes the first nonzero id whose slot is empty and opens that slot for it, or gives up after its tries with no slot changed |
| `CorrelationAllocation.AllocateIff` | src/connection_pool/correlation.rs:212-270 | while the counter does not wrap within one sweep, it succeeds if and only if some slot is empty |
| `CorrelationAllocation.ZeroIsSkipped` | src/connection_pool/correlation.rs:218-222 | with the counter at zero, a ring in which only the slot of id zero is empty is reported full |
| `CorrelationWakeups.RunWakeInv` | src/connection_pool/correlation.rs:155-175 | while every id handed out is fresh: live requests have distinct ids, and every unwoken listener is registered on its own slot with each change it has not seen due to be rung |
| `CorrelationWakeups.StrandedIff` | src/connection_pool/correlation.rs:376-431 | while every id handed out is fresh, an unwoken parked waiter is stranded if and only if a stale cancel last restored its ready slot and no wake-up is under way; without such a cancel nobody is |
| `CorrelationWakeups.FewIdsAreFresh` | src/connection_pool/correlation.rs:212-222 | until the counter first wraps every id handed out is fresh |
| `CorrelationLeaks.NoLeaks` | src/connection_pool/correlation.rs:376-431 | as long as requests are given up clean, every waiting or ready slot has a live request with its id |
| `CorrelationLeaks.ResolvedIsClean` | src/connection_pool/handle.rs:166-180 | a request that got its reply or was told its slot is gone can be given up without a cancel |
| `CorrelationLeaks.DisarmLeaksIff` | src/connection_pool/handle.rs:166-189 | giving up a request without a cancel leaks its slot if and only if the slot still waits or holds a reply under its id |
| `CorrelationLeaks.UnlimitedIff` | src/connection_pool/correlation.rs:531-572 | a timed wait that goes on has lost its limit if and only if its last look after the timeout found the slot being written |
| `CorrelationLeaks.NoLimitNoTimeout` | src/connection_pool/correlation.rs:575-636 | a wait that was given no limit never gets one and never reports a timeout |
| `CorrelationWitness.StrandedWitness` | src/connection_pool/correlation.rs:402-424 | a run on 8192 slots that ends at rest with a ready reply and its waiter parked |
| `CorrelationWitness.MissedWitness` | src/connection_pool/correlation.rs:282-302 | a run on 8192 slots in which a completion fails although its request waits before and after |
| `CorrelationWitness.LeakedWitness` | src/connection_pool/correlation.rs:531-572 | a run on 8192 slots with two callers that ends at rest with a ready reply and no live request |
| `CorrelationWitness.UnlimitedWitness` | src/connection_pool/correlation.rs:566-568 | a run on 8192 slots in which a timed wait ends up parked without a limit on a slot that merely waits |
| `BufferPool.RunInv` | src/aligned.rs:245-336 | the accounting invariant holds in every run |
| `BufferPool.RetainedIsExact` | src/aligned.rs:270-336 | the counter is queued + reserved-not-pushed + popped-not-released capacity, within budget; no release saturates; handed-out buffers are empty and large enough |
| `BufferPool.RaceRetries` | src/aligned.rs:270-289 | a return that loses a race is retried with the new counter and given up only for want of budget |
| `BufferPool.ReturnAlone` | src/aligned.rs:324-336 | a return that nobody disturbs pools the emptied buffer exactly when its size, the budget and the queue allow, and else leaves the pool as it was |
| `BufferPool.GetAlone` | src/aligned.rs:308-321 | a request that nobody disturbs gets the oldest idle buffer, grown only if too small, or a new one |
| `BufferPool.AlignedBytesPool.constructor` | src/aligned.rs:245-264 | prefills min(pool size, budget / 256) default buffers |
| `BufferPool.AlignedBytesPool.TryReserve` | src/aligned.rs:270-289 | reserves if and only if the budget allows |
| `BufferPool.AlignedBytesPool.GetBuffer` | src/aligned.rs:308-321 | pops the oldest idle buffer or allocates; the result is empty, and the popped one grown only if too small |
| `BufferPool.AlignedBytesPool.ReturnBuffer` | src/aligned.rs:324-336 | pools the emptied buffer exactly when its size, the budget and the queue allow |
| `BufferPool.AlignedBytesPool.WithLen` | src/aligned.rs:29-38 | receive buffers start zero-filled, whatever they held before |
| `AddrOwnership.ProvisionalInert` | src/addr_ownership.rs:97-131 | in no state does a provisional claim change the table |
| `AddrOwnership.ProvisionalNonInterference` | src/addr_ownership.rs:97-146 | deleting all provisional claims leaves the table and all verified decisions unchanged |
| `AddrOwnership.OwnerInClosedForm` | src/addr_ownership.rs:97-146 | the owner after any history from any table, in closed form |
| `AddrOwnership.FirstVerifiedOwnsForever` | src/addr_ownership.rs:97-146 | from an empty table the owner is the first verified non-local claimant, under any continuation |
| `AddrOwnership.AcceptedIffOwner` | src/addr_ownership.rs:134-146 | a verified non-local claim is accepted if and only if its node is the verified owner afterwards |
| `AddrOwnership.DecisionInClosedForm` | src/addr_ownership.rs:97-131 | the answer to any claim after any history from an empty table, with the reason of each refusal |
| `AddrOwnership.FirstComeIff` | src/addr_ownership.rs:120-130 | when the first-come rejection is given, exactly |
| `AddrOwnership.FirstComeUnreachable` | src/addr_ownership.rs:120-130 | from an empty table it is never given |
| `ClientOnly.TableIsHistory` | src/client_only.rs:34-52 | the table holds exactly the latest untouched client-only declarations |
| `ClientOnly.CurrentIffLatest` | src/client_only.rs:55-59 | a receipt is current if and only if it belongs to the peer's latest declaration with no later declaration or eviction |
| `ClientOnly.ReceiptsDistinct` | src/client_only.rs:43-43 | before the counter wraps, later declarations get larger receipts |
| `ClientOnly.SameReceiptIff` | src/client_only.rs:43-43 | two declarations get the same receipt if and only if a multiple of 2^64 client-only declarations lies between |
| `ClientOnly.StaleForever` | src/client_only.rs:55-59 | so before the counter wraps a stale receipt is never current again |
| `ClientOnly.StaleIff` | src/client_only.rs:55-59 | a stale receipt becomes current again if and only if the peer's latest untouched declaration came a nonzero multiple of 2^64 client-only declarations later |
| `ClientOnly.TableBounded` | src/client_only.rs:44-49 | declared one at a time, the table never exceeds 4096 entries, whichever entries are evicted |
| `ClientOnlyRaces.TableBounded` | src/client_only.rs:34-52 | with any number of concurrent callers the table exceeds 4096 by at most one per further caller and one per displaced insertion |
| `ClientOnlyRaces.LoneCallerBounded` | src/client_only.rs:34-52 | a lone caller displaces nobody and keeps the bound |
| `ClientOnlyRaces.ReceiptsDistinct` | src/client_only.rs:34-52 | with any number of concurrent callers, and before the counter wraps, no two receipts drawn or stored are the same |
| `ClientOnlyRaces.OutgrownWitness` | src/client_only.rs:44-50 | for any size there is a run of two callers that makes the table that large |
| `ClientOnly.ClientOnlyPeers.NoteDeclaredRole` | src/client_only.rs:34-52 | one declaration does what the specification does with some victim, and its receipt is current |
| `ClientOnly.ClientOnlyPeers.Contains` | src/client_only.rs:27-29 | true if and only if some receipt is current |
| `ClientOnly.ClientOnlyPeers.Current` | src/client_only.rs:55-59 | decides currency of a receipt |

## Left out

- Weak memory ordering: every atomic access is one sequentially consistent step.
- TLS, sockets, Tokio scheduling, timers, tracing and bind/backoff: a timeout is a choice a step may take.
- rkyv decoding: an arbitrary partial function `decode` stands for it, so every result holds for all decoders.
- The optional schema hash of actor messages, which the parser always leaves unset.
- The panicking wrappers around the fallible header writers, which only unwrap their results.
- The passing on of a notification by a worker that leaves its select through another branch: it only adds wake-ups.
- The final owner's drop is one step, allowed when no shutdown call is still running.
- Bit operations on the control word are written as division and remainder.
- The writer task that turns a queued reply record into frames: a queued record counts as handed over, and finishing it recycles it.
- The fences inside slot reservation, activation and close of reply slots: each is one step, with closing possible between any two.
- Slot generation numbers: their exhaustion is a free choice of the reservation step.
- The payload of a fallback retry, which the caller may change; the model counts frames and observer calls.
- `pooled_payload_into_bytes`, which copies a pooled payload to one buffer, and pointer alignment of allocations.
- Order of concurrent declarations by one peer: which receipt is current is stated for declarations made one at a time; for concurrent callers the table's size and the distinctness of receipts are.
- Identity of pooled buffers and lock-freedom of the compare-and-swap loops.
- Release and migration of address ownership, reap reservations and claim generations: histories consist of claims.
- The inbound accept tie-break, the registry and the remaining modules: they would add easy or unrelated members.
- Correlation payloads: a reply is its completer's id and a value; responses, attributed responses and refusals are published alike.
- The correlation waker's internal races: registering and waking are single steps, as its contract promises.
- RoutedConnection.ConnectionRefinesLongForm: correlation ids are nonzero, as the allocator (src/connection_pool/correlation.rs:218-222) hands them out; the parser refuses zero in both forms.
- GossipCoalescing.QuietMeansServed: says nothing about reaching a quiet state, because rounds with nothing new to send can follow each other; that every change is served is ServedInTime.
- ForwarderProgress.ReachableSettles: says internal steps end; that the scheduler runs them at all is assumed.
