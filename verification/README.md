# Verification of the congestion-controlled file transfer and its simulator

A Dafny model of a BitTorrent-like file transfer over UDP, of the streaming
SHA-1 it hashes chunks with, and of the network simulator it runs on, with
proofs of what they are for. `dafny verify dfyconfig.toml` checks everything.

- **One chunk session** (`SlidingBuffer`, `Congestion`, `SenderSpec`, `Sender`,
  `ReceiverSpec`, `Receiver`, `Session`, `SessionProgress`, `ReceiverRuns`,
  `AdditiveIncrease`, `LossFreeRuns`, `JumpingRun`).
  The linked-list windows, the congestion state and the handlers are classes
  whose methods are proved equal to functions on values. Those functions are the
  moves of a labelled transition system with two channels that lose, duplicate
  and reorder. Its invariant gives end-to-end safety; the same moves give progress,
  and what the congestion window does in runs without and with losses.
- **Streaming SHA-1** (`Sha1Spec`, `Sha1Vector`, `Sha1`). The block buffer, both variants of
  the update, the message schedule with its moving pointers and the 80 rounds are
  proved against FIPS 180-4 for every way of splitting a message; the definitions
  taken from the standard are themselves pinned by its example digest.
- **Routing and forwarding** (`Graph`, `Labels`, `Router`, `Forwarding`,
  `Network`). Dijkstra's algorithm in place on router objects, the first-hop table
  each router extracts, and datagrams hopping through bounded queues by all those
  tables together: as a transition system, and as router and queue objects that
  refine it.
- **Chunk claiming and silence** (`ClaimSpec`, `Claiming`, `Whohas`,
  `SilenceSpec`, `EventLoop`, `HostRuns`, `HostLaws`, `Retries`, `ClaimLimits`,
  `FailingRuns`). Several
  peers share one list of claims; the event loop retransmits, counts and gives up.
  `HostRuns` puts both together: its runs are all orders of packets, requests and
  timeouts, the timeouts bound to the counters; `HostLaws` says what such a run
  means for the host's counters and for the WHOHAS packets that peers are sent,
  `Retries` what silence has sent again, and for how long.

Functions on values are named after the input they handle (`AckIn`, `DataIn`,
`IhaveIn`); methods after the C function they follow.

## What turned out not to hold

Each of these has a lemma that shows the failure and one that says when the
promise does hold.

- "Ack n means 1..n arrived" is not a property of the receive window, which lets
  any packet into an empty buffer. It holds if and only if nothing below the first
  arrival is missing (`AckMeansAllArrived`, `UnseededAck`); in a session it holds
  because packet 1 is the only one in flight until it has arrived (`Ordering`).
- The final acknowledgement is computed once. When it is lost the receiver is
  complete but the sender can only give up (`LostFinalAck`, and `FinalAckCanBeLost`
  for every session); it can still finish if and only if a copy is in flight
  (`FinishIffAckInFlight`). A copy that outlives the session finds an empty send
  buffer, whose tail `ack_handler` reads (`StrayFinalAck`); the buffer is non-empty
  exactly while the session is open (`SendBuffer`), and the model delivers an
  acknowledgement only then.
- `add_increase` tests `curr_round` for equality with `cwnd`. While packets and
  acknowledgements arrive once and in order the test is never jumped over
  (`NeverSkipped`, and `LossFreeSession` for every such run of a session). In
  general an acknowledgement jumps over it exactly when it opens more room than
  the round has left (`CumulativeAckJumps`); every session has a run in which one
  does (`TestJumpedOver`), and the window then stays as it is until the next loss
  (`JumpedOverStaysStuck`).
- The message "Attempted 10 data retransmits" suggests a bound of ten. When the
  peer being served is also being waited for, giving up on its data clears its
  retransmission counter but not `curr_to`, and up to twenty data packets go out
  (`TwentyDataPackets`, from a state that packets lead to); `ExceedsIff` says
  exactly when more than ten do.
- The message "Attempted 5 none-data packet retransmits, target node is probably
  down" suggests five in a row. No answer clears that counter: a peer is given up
  for its control packets exactly when five have been sent again since it was last
  reset (`GivenUpWhen`), and a peer that answers each of them before the next
  timeout is given up all the same, in the middle of a transfer to it that it has
  just acknowledged (`AnsweringPeerGivenUp`).
- An IHAVE that comes while chunks of the same peer are still listed is linked in
  behind the head of the old list, and the peer's accounting is then off by one
  (`AccountingUpset`, a run; `IhaveAccounting` and `StepAccounting`, exactly when;
  `StepMends`, exactly when it is right again).
- "At most once" ends when `destroy_fof` forgets the claims of all peers because
  one of them has gone silent: the host can then fetch the same chunk from two
  peers at the same time. `ClaimedTwice` is such a run, timeout by timeout. As long
  as nothing is forgotten it holds (`AtMostOnce`); after that, a chunk can come to
  be fetched from two peers if and only if some peer still has a GET for it to
  answer (`DoubleAfterForgetting`; `DoubleIff` for every reachable state). A DENIED
  or a cleanup does not count as an answer: the code denies the repetition of the
  very GET that it is serving, and a peer that is given up is not told.
- "Every claimed chunk has come in or is being fetched" ends when a peer is given up
  for its control packets (`StrandedChunk`, after six timeouts), when an IHAVE turns
  it to another chunk, or when it completes data of other chunks: the claim stays,
  so no new GET for the chunk goes out. `StepCovered` says exactly after which
  steps it does not hold. Until the claims are forgotten, such a chunk stays so if
  and only if no IHAVE has a peer that was once asked for it waited for again
  (`StrandedIff`), and an IHAVE can always do that (`ClaimedCanCome`).
- readme.txt says that entries are removed from the send window up to and not
  including the acknowledged one; `destroy_upto_ack` removes that one too, and the
  model follows the code.

## Model

| member | source | states |
|---|---|---|
| Session.EndToEnd | packet_handler.c:455-544 | in every run over lossy, duplicating, reordering channels, once the receiver has computed the final acknowledgement the output slot equals the master chunk byte for byte and nothing outside it has changed |
| Session.AckMeansArrived | packet_handler.c:507-516 | in every reachable state each acknowledged number has arrived and sits at its offset in the file |
| Session.StepInv | packet_handler.c:455-618 | every delivery, loss, duplication and timeout keeps the global invariant of sender, channels, receive window and file |
| Session.RunInv | packet_handler.c:455-618 | the global invariant holds along every run |
| Session.DeliverDataInv | packet_handler.c:481-517 | an arriving packet is written in place and seeds or extends the window, so that it stands for exactly the numbers taken in |
| Session.SenderMoves | packet_handler.c:556-618 | every acknowledgement or timeout keeps a serving sender serving or ends the session, and sends only packets of the chunk |
| SessionProgress.Ordering | packet_handler.c:442-443 | last_ack ≤ receiver ack ≤ last_seq ≤ 354; acks in flight are not ahead of the receiver; packets in flight carry what their number dictates; until 1 arrived nothing but 1 is in flight |
| SessionProgress.SendBuffer | packet_handler.c:556-618 | the send buffer is non-empty exactly while the session is open and holds last_ack+1..last_seq in order, at most MAXWIN packets even after cwnd collapses |
| SessionProgress.WindowBound | packet_handler.c:886-938 | nothing is sent above last_ack plus the congestion window at that moment, before it grows, and whatever is sent again is packet last_ack + 1 |
| SessionProgress.CanFinish | peer.c:386-400 | from every reachable open state below the retransmission limit in which the receiver still fetches, some schedule completes the receiver and finishes the sender |
| SessionProgress.FinishIff | peer.c:386-400 | below the retransmission limit an open session can end well if and only if the receiver still fetches or a final acknowledgement is in flight |
| SessionProgress.Complete | packet_handler.c:953-956 | rounds of timeout, delivery and acknowledgement each lower the distance to completion, so finitely many complete the receiver |
| SessionProgress.LostFinalAck | packet_handler.c:517-543 | once the receiver is complete or has given up and no final acknowledgement is in flight, no run brings the sender to finish |
| SessionProgress.FinalAckCanBeLost | packet_handler.c:507-517 | every session has a run after which the receiver is complete and the open sender can no longer finish |
| SessionProgress.FinishIffAckInFlight | packet_handler.c:588-597 | with a receiver that is complete or has given up, the sender can still finish if and only if a final acknowledgement is in flight |
| SessionProgress.StrayFinalAck | packet_handler.c:562-566 | in every session a copy of the final acknowledgement can outlive the sender's cleanup and meet an empty send buffer |
| SessionProgress.LossHalves | packet_handler.c:602-610 | in every reachable state in which the next acknowledgement is the third of its kind, it leaves slow start at window 1 with half the window as threshold, at least 2, resends packet last_ack + 1, and that many further calls of slow start enter avoidance, none earlier |
| ReceiverRuns.GetPending | packet_handler.c:475-479 | in every reachable state the GET is pending if and only if the chunk is fetched and nothing has been taken in, and no silence is counted once it is no longer fetched |
| ReceiverRuns.DataHeard | packet_handler.c:464-473 | any data packet ends the count of silences, an unwanted one changes nothing else |
| ReceiverRuns.Patience | peer.c:438-457 | along every run the count is the number of silences since the last delivery, and the fetch has ended if and only if the final acknowledgement was computed or eleven silences came in a row |
| SenderSpec.AckKeeps | packet_handler.c:556-618 | an acknowledgement keeps the window invariant or ends the session, moves last_ack exactly when it should, and a triple one resends packet last_ack + 1 only |
| SenderSpec.AckSendsInWindow | packet_handler.c:602-617 | every packet ack_handler sends lies within the congestion window that it sends with, before additive increase, and a resent one is the first unacknowledged |
| SenderSpec.BreakNeverTaken | packet_handler.c:911-938 | under the window invariant the loop runs to the end of the congestion window or of the chunk: its exit on num_entry == cwnd is never taken |
| SenderSpec.SendNextMeaning | packet_handler.c:873-943 | send_next_data sends exactly the packets up to the window's or chunk's end and counts them for additive increase, once |
| SenderSpec.GetStarts | packet_handler.c:415-444 | a GET on an idle sender sends packet 1 alone with cwnd 1; while a request is served it is denied and nothing else changes but curr_to |
| SenderSpec.TimeoutKeeps | peer.c:386-401 | a timeout resends exactly packet last_ack + 1, or gives up and leaves everything idle |
| SenderObject.SendingPeer.FillWindow | packet_handler.c:911-938 | the loop over file offsets sends, buffers and counts exactly the packets that tile the chunk from seqnum up to the congestion window, the chunk end or a full buffer, with the master file's bytes |
| SenderObject.SendingPeer.SendNextData | packet_handler.c:873-943 | nothing when the window is full; otherwise that loop on the linked buffer and the congestion state, and one additive increase after it |
| SenderObject.SendingPeer.GetHandler | packet_handler.c:415-444 | on the objects: an idle sender starts the chunk with a reset controller and packet 1, a busy one denies and only redirects curr_to |
| SenderObject.SendingPeer.AckHandler | packet_handler.c:556-618 | on the objects: acks beyond the buffer tail are ignored; others move last_ack, count duplicates, shrink the list and then finish, retransmit its head or go on sending; the flag says that there was a tail to read |
| SenderObject.SendingPeer.PostSendCleanup | packet_handler.c:1081-1089 | the sending side is idle afterwards, its buffer empty |
| SenderObject.SendingPeer.TimeoutHandler | peer.c:386-401 | on the objects: the head of the send buffer goes out again, or at the limit the session is cleared; the flag says that there was a head to read |
| ReceiverObject.ReceivingPeer.DataHandler | packet_handler.c:455-544 | on the linked buffer and the file: ignored when nothing is fetched; otherwise the payload is written at its offset, the number inserted, the end of the first run acknowledged, and the window dropped with the final one |
| ReceiverObject.ReceivingPeer.SilenceHandler | peer.c:438-457 | a timeout while fetching counts up to the limit and then drops the chunk and its window |
| SlidingBuffers.SlidingBuffer.AppendEntry | sliding_buffer.c:49-75 | the list is one entry longer at its tail, with head, tail and count right |
| SlidingBuffers.SlidingBuffer.InsertEntry | sliding_buffer.c:88-159 | the relinked list holds what Insert says: a duplicate or a number below the head is dropped, any other is linked in order |
| SlidingBuffers.SlidingBuffer.FindAck | sliding_buffer.c:209-248 | returns the end of the first run of consecutive numbers, -1 on an empty list, and keeps the list from there on |
| SlidingBuffers.SlidingBuffer.DestroyUptoAck | sliding_buffer.c:259-295 | exactly the leading entries up to and including the acknowledged number leave |
| SlidingBuffers.SlidingBuffer.DestroyEntries | sliding_buffer.c:168-196 | the list is empty, with head, tail and count cleared |
| SlidingBuffers.Apart | sliding_buffer.c:88-159 | a list that ends passes no entry twice, so relinking one entry leaves the others alone |
| ReceiverWindow.InsertSorted | sliding_buffer.c:88-159 | inserting keeps the window strictly sorted and adds exactly the new number, unless it is below the head |
| ReceiverWindow.AckSuffixMeaning | sliding_buffer.c:209-248 | find_ack keeps the sorted suffix that starts at the greatest number up to which nothing is missing |
| ReceiverWindow.LaterArrival | packet_handler.c:509-511 | one insert-and-acknowledge pair turns a window for a set of arrivals into the window for that set with one more number, and the acknowledgement never falls |
| ReceiverWindow.ReceiverRefinement | sliding_buffer.c:88-248 | after any arrivals the window is the sorted form of the acknowledgement and all greater arrivals, and the acknowledgement is the greatest number with everything from the seed on received |
| ReceiverWindow.KeepsDetermines | sliding_buffer.c:88-248 | that description fixes the window's numbers and order uniquely |
| ReceiverWindow.AckMeansAllArrived | sliding_buffer.c:109-123 | "ack n means 1..n arrived" holds if and only if nothing below the first arrival is missing |
| ReceiverWindow.UnseededAck | sliding_buffer.c:109-115 | a lone first arrival above 1 is acknowledged although 1 is missing |
| Chunk.Tiling | packet_handler.c:917-938 | every byte of a chunk belongs to exactly one packet number, and all 354 numbers are needed |
| Chunk.WriteAt | packet_handler.c:484-505 | a write changes exactly its own bytes and fills a gap past the end with zeros |
| Chunk.WriteKeeps | packet_handler.c:484-505 | writing one packet leaves every packet already in place alone |
| Chunk.AllInPlace | packet_handler.c:482-505 | once all packets are in place the slot is the chunk: sender's and receiver's offsets agree |
| Chunk.OffsetsFit | packet_handler.c:483 | the byte offsets of a slot fit an int exactly up to chunk 4095, and the end of a chunk up to 4094 |
| Congestion.EnvelopeKept | congestion_avoidance.c:17-119 | under any interleaving of the updates 1 ≤ cwnd < ssthresh ≤ 64 in slow start, and cwnd ≤ 64, 1 ≤ ssthresh ≤ 32 in avoidance |
| Congestion.SlowStartLength | congestion_avoidance.c:37-62 | from a window of 1 slow start enters avoidance with exactly the (ssthresh - 1)-st call, with window 1 and half the threshold |
| Congestion.HalvedByLoss | congestion_avoidance.c:72-84 | after a loss at window w avoidance is entered with exactly the (max(2, w/2) - 1)-st call of slow start, not earlier, and every window before it is as stated |
| Congestion.JumpedOverStaysStuck | congestion_avoidance.c:94-119 | once curr_round has passed cwnd in avoidance, no run without a loss widens the window again |
| Congestion.CongestionState.SlowStartStep | congestion_avoidance.c:37-62 | the window grows by one below the threshold, and on reaching it becomes 1 in avoidance with half the threshold |
| Congestion.CongestionState.MultDecreaseStep | congestion_avoidance.c:72-84 | back to slow start with window 1 and threshold half the window, kept between 2 and MAXWIN |
| Congestion.CongestionState.AddIncreaseStep | congestion_avoidance.c:94-119 | in avoidance and below MAXWIN the window grows by one exactly when the round counter meets it, and the counter restarts |
| AdditiveIncrease.NeverSkipped | congestion_avoidance.c:94-119 | with one acknowledgement per packet curr_round stays below cwnd between events, and below MAXWIN the window has grown by one for every full window of packets sent |
| LossFreeRuns.LossFreeRun | packet_handler.c:455-618 | in every run of the session in which packets and acknowledgements are delivered once and in order, interleaved in any way, the receiver's acknowledgements take the sender through exactly those states, to the end |
| LossFreeRuns.LossFreeSession | congestion_avoidance.c:94-119 | from the GET on, no such run jumps over the test or gives up, and it finishes with the last of 354 packets and 354 acknowledgements |
| LossFreeRuns.LossFreeGrowth | congestion_avoidance.c:94-119 | between any two moments of such a run, once in avoidance, the window never shrinks and below MAXWIN has grown by one for every full window of packets sent |
| LossFreeRuns.LossFreeFinishes | packet_handler.c:588-597 | every session has such a run to its end |
| AdditiveIncrease.AckMeaning | packet_handler.c:568-617 | an acknowledgement that is neither ignored, final nor the third of its kind: the packets it sends, last_ack, last_seq, duplicates and the controller, exactly |
| AdditiveIncrease.CumulativeAckJumps | packet_handler.c:911-942 | in avoidance with the round not over, an acknowledgement jumps over the equality test if and only if it is not ignored, not the third of its kind, and opens more room than the round has left |
| JumpingRun.TestJumpedOver | congestion_avoidance.c:94-119 | every session has a run, with three copies of one acknowledgement, one lost packet and one overtaken acknowledgement, after which the test has been jumped over |
| Sha1.Streaming | sha.c:453-558 | for every split of a message under 2^64 bits, the bytes of the hash after all updates and the final padding are its SHA-1 digest (sections 5.1.1, 5.2.1, 5.3.1 and 6.1.2 of FIPS 180-4) |
| Sha1.AbsorbPieces | sha.c:453-527 | any number of updates equals one update with the concatenation |
| Sha1.AbsorbTwice | sha.c:453-527 | two updates equal one with both pieces: hash, buffered bytes and length do not depend on the split |
| Sha1.FinishWhole | sha.c:529-545 | finishing after a message hashes exactly its padded form |
| Sha1.ShortCh | sha.c:52 | the short form equals Ch of section 4.1.1 of FIPS 180-4 |
| Sha1.ShortMaj | sha.c:54 | the short form equals Maj of section 4.1.1 of FIPS 180-4 |
| Sha1.LoadSwapped | sha.c:80-89 | a loaded and swapped word is the big-endian word of its bytes on either kind of machine |
| Sha1.StoreSwapped64 | sha.c:84-89 | the swapped length, as it lies in memory, is the big-endian 64-bit length |
| Sha1Spec.ScheduleWords | sha.c:184-200 | the first sixteen words are the block's bytes as big-endian numbers; for every later t, with x the exclusive or of words t-3, t-8, t-14 and t-16, word t is x << 1 or-ed with x >> 31 |
| Sha1Spec.RotlOne | sha.c:49 | rotating by one doubles the word as a number modulo 2^32 and brings the overflow in at the other end |
| Sha1Spec.RotlFive | sha.c:49 | likewise by five bits |
| Sha1Spec.RotlThirty | sha.c:49 | likewise by thirty bits |
| Sha1Spec.BigEndianNumber | sha.c:80-89 | the big-endian word of four bytes is their number in base 256 |
| Sha1Vector.DigestOfAbc | sha.c:574-576 | the digest of "abc" is a9993e36 4706816a ba3e2571 7850c26c 9cd0d89d, the standard's example |
| Sha1Spec.BlocksConcat | sha.c:453-527 | hashing the full blocks of a concatenation is hashing those of the first part and then of its rest with the second |
| Sha1.Sha1Context.MakeSchedule | sha.c:184-200 | the loops over the moving pointers fill the array with the standard's message schedule |
| Sha1.Sha1Context.RunRounds | sha.c:202-224 | the four loops of register-rotating rounds compute the standard's 80 rounds |
| Sha1.Sha1Context.Guts | sha.c:175-451 | the hash words become the compression of the old ones with the block (section 6.1.2 of FIPS 180-4) |
| Sha1.Sha1Context.UpdateBuffered | sha.c:501-523 | the byte-buffered update takes in the data as Absorb says |
| Sha1.Sha1Context.UpdateFast | sha.c:461-500 | the fast-copy update takes in the data as the same Absorb says, so both variants leave equal contexts |
| Sha1.DigestOf | sha.c:598-602 | one context, initialised, fed any number of pieces and finished, returns SHA-1 of their concatenation, on either kind of machine and in either compilation |
| Sha1.ShaHash | chunk.c:33-45 | the digest of one buffer is its SHA-1 |
| Sha1.Sha1Context.Init | sha.c:149-163 | a context that has taken in nothing, with the initial hash of section 5.3.1 of FIPS 180-4 |
| Sha1.Sha1Context.Final | sha.c:529-558 | pads, appends the length and returns the digest bytes in big-endian order on either kind of machine |
| Routers.Router.CreateTable | hupsim.pl:226-288 | on a connected topology every label is the least hop count, every predecessor is one hop nearer, and every entry is an own queue to a neighbour on a shortest path |
| Routers.CreateTables | hupsim.pl:386-389 | when all routers have computed their tables one after the other on shared labels, all tables are right |
| Routers.SelectNext | hupsim.pl:252-259 | the visited router is an unvisited one at least distance |
| Routers.VisitNext | hupsim.pl:247-274 | a visit keeps the labels sound and settled and settles one more router |
| Routers.FirstHop | hupsim.pl:278-282 | following predecessors ends at a neighbour of the source that lies on a shortest path |
| Routers.Router.AddRoute | hupsim.pl:137-148 | the router has a fresh queue for the neighbour and keeps all other routes |
| Routers.AddLink | hupsim.pl:381-382 | two addRoute calls turn routers linked as g into routers linked as g with the link in both directions |
| Routers.NSQueue.EnQ | hupsim.pl:47-69 | a full queue drops and counts, any other takes the datagram at its end, and size stays the total length |
| Routers.NSQueue.Shift | hupsim.pl:208-211 | the head leaves, and size stays the total length |
| Labels.RelaxKeeps | hupsim.pl:267-271 | looking at one route keeps labels sound, visited routers settled and the visited one nearest |
| Labels.VisitKeeps | hupsim.pl:261-273 | a whole visit keeps the invariant of Dijkstra's loop |
| Labels.NoShorterWalk | hupsim.pl:247-274 | at the end no walk to a router is shorter than its label |
| Labels.ReachableIsFinite | hupsim.pl:73 | with at most 65535 routers every reachable one has a label below the infinite one |
| Labels.LabelsAreDistances | hupsim.pl:236-274 | on a connected topology every final label is the distance |
| Graph.DistBounded | hupsim.pl:73 | a shortest path passes as many routers as it has hops, plus one, so distances stay below the number of routers |
| Graph.FirstHopFrom | hupsim.pl:275-287 | a neighbour with the rest of a shortest path left is a first hop, exactly one hop nearer |
| Forwarding.Delivery | hupsim.pl:150-189 | in every run a delivered datagram is where it was bound for after exactly as many hops as the distance, never twice at a router |
| Forwarding.ForwardNearer | hupsim.pl:191-224 | every hop by the separately computed tables lowers the distance by exactly one and reaches a router not yet visited |
| Forwarding.StepInv | hupsim.pl:150-224 | insertion and forwarding keep every queued datagram on a straight way in the queue its router's table names, and every queue within its bound |
| Routers.Router.Recv | hupsim.pl:150-182 | a datagram is discarded, handed over or queued, and nothing else changes |
| Networks.TakeHead | hupsim.pl:208-211 | the head of a queue object leaves, and the objects show the network without it |
| Networks.Receive | hupsim.pl:150-182 | the objects show the network after the receiving router has discarded, handed over, queued or dropped the datagram |
| Networks.InsertAt | hupsim.pl:425-430 | a datagram from outside takes the objects through the network's step for it |
| Networks.ForwardHead | hupsim.pl:208-213 | a due datagram takes the objects through the network's forwarding step |
| Networks.ServeRoute | hupsim.pl:208-213 | the loop over one queue is a run of such steps, and stops only when nothing is queued or due |
| Networks.ServeRouter | hupsim.pl:191-224 | serving all queues of a router is a run of forwarding steps from that router |
| Networks.TablesStart | hupsim.pl:386-389 | routers that have all run createTable, with empty queues, show the empty network of a proper world |
| Networks.HandedOverAtHome | hupsim.pl:168-171 | in every reachable state a router has handed over only datagrams of its own node |
| ForwardingTotals.Conservation | hupsim.pl:47-69 | each datagram is queued, delivered, dropped or discarded, on a path that begins at a router, as often as it was inserted there |
| ForwardingTotals.HopsAddUp | hupsim.pl:191-224 | in every run hops made, hops left and hops lost to drops add up to the distances of all inserted datagrams |
| ForwardingTotals.Drains | hupsim.pl:191-224 | from every state forwarding alone empties all queues |
| HostRuns.AtMostOnce | packet_handler.c:792-861 | between two calls of destroy_fof the claims are exactly the chunks of the first-time GETs in order, and no chunk is asked for twice, of one peer or of two |
| HostRuns.StepInv | packet_handler.c:236-266 | every packet of every peer, request and timeout keeps claims and GETs equal and free of duplicates, the counters within their limits, a pending WHOHAS at the head of its queue, and the history of GETs consistent |
| HostRuns.TickClaim | peer.c:386-458 | a timeout resets a peer's claiming state exactly if its counters say so, and keeps it otherwise |
| HostRuns.TickFof | peer.c:438-453 | a timeout forgets all claims exactly if data of some peer is given up in it, and keeps them otherwise |
| HostRuns.StepAccounting | packet_handler.c:340-404 | a step upsets a peer's accounting exactly if it is an IHAVE out of order |
| HostRuns.AccountingKept | packet_handler.c:792-861 | in every run whose IHAVEs come in order, fetched and listed chunks of a peer make up the announced ones |
| HostLaws.StepCounts | packet_handler.c:1098-1110 | a step that neither completes the request nor starts one keeps its size and adds one for a chunk that is complete, and what is still due from the peers it gives up |
| HostLaws.TurnCompletes | peer.c:440-453 | the timeout that writes off the last chunks of a request clears the host's counters |
| HostLaws.RunCounts | packet_handler.c:517-543 | from a request to its completion the chunks counted are those that came in and those written off for peers given up |
| HostLaws.NthChunkCompletes | packet_handler.c:536-542 | a request of n chunks whose peers all deliver is complete with exactly the n-th chunk, and the host is then as before it |
| HostLaws.StepClaim | packet_handler.c:340-404 | what every step does to the claiming state of each peer |
| HostLaws.StepTells | packet_handler.c:365-371 | a WHOHAS goes to a peer exactly when an empty IHAVE, the end of its last chunk or a request calls for it and one is queued; it is the head of the queue and pending until answered or discarded |
| HostLaws.ToldInOrder | packet_handler.c:759-785 | in every run the WHOHAS packets sent to a peer for the first time are the packets of the requests, in order and without a gap, since its queue was last discarded, and the rest is queued behind the pending one |
| HostLaws.StepMends | packet_handler.c:517-543 | an upset accounting is put right exactly by the end of the last chunk announced, an IHAVE that finds nothing listed, or a reset |
| HostLaws.StepGetPending | packet_handler.c:475-479 | a GET is pending from when it is sent until data or a DENIED comes, another GET goes out, or the peer is given up |
| Retries.SentAgain | peer.c:422-436 | in every run a timeout sends a peer the WHOHAS at the head of its queue again, or else the pending IHAVE, or else a GET for a chunk it was asked for and has not sent completely; nothing only if nothing is pending or the peer is given up |
| Retries.StepIhavePending | packet_handler.c:641-645 | an IHAVE is pending until a GET comes while nobody is served, a DENIED comes or the peer is given up |
| Retries.ServesLast | packet_handler.c:417 | in every run data goes only to the peer whose GET came last, even if it was denied |
| Retries.GivenUpWhen | peer.c:414-457 | in every run the next timeout gives a peer up for control packets exactly if five were sent again since it was last reset, answered or not; for silence only after ten timeouts without data from it |
| Retries.AnsweringPeerGivenUp | peer.c:414-436 | a run with no two timeouts in a row after which the next one resets a peer that is being served, has just acknowledged and owes no answer |
| ClaimLimits.StepAsks | packet_handler.c:792-861 | a step asks one peer at most, for a chunk that was unclaimed and is claimed then; only forgetting makes the claims fewer |
| ClaimLimits.DoubleIff | packet_handler.c:792-861 | in every reachable state, a chunk can come to be fetched from two peers before the claims are forgotten if and only if one peer has a GET for it to answer, and another one has too or the chunk is unclaimed |
| ClaimLimits.DoubleAfterForgetting | peer.c:438-453 | once destroy_fof has run, in a timeout or at the end of a request, a chunk can come to be fetched from two peers if and only if there are two and one has a GET for it to answer, denied or given up as it may be |
| ClaimLimits.Offer | packet_handler.c:340-404 | up to three IHAVEs from a peer have any chunk claimed and that peer's data taken in as it, with a GET if it was unclaimed, and touch no other peer |
| ClaimLimits.StepCovered | packet_handler.c:455-544 | after a step a claimed chunk is neither here nor being fetched exactly if the claims stay, the step does not complete it, every peer it was fetched from is given up, turned to another chunk or done with other data, and no IHAVE turns to a peer that was asked for it |
| ClaimLimits.StrandedIff | packet_handler.c:340-404 | until the claims are forgotten, such a chunk stays so all along a run if and only if no IHAVE of the run has a peer waited for again that was once asked for it |
| ClaimLimits.ClaimedCanCome | packet_handler.c:340-404 | from every reachable state some run without forgetting has any claimed chunk fetched from a peer that was asked for it |
| FailingRuns.ClaimedTwice | peer.c:438-453 | for any chunk there is a run of packets and timeouts, bound to the counters, after which the host fetches it from two peers |
| FailingRuns.StrandedChunk | peer.c:414-420 | for any chunk there is a run after which it is claimed, neither here nor being fetched, nothing is pending or waited for, and no length of silence changes that |
| FailingRuns.AccountingUpset | packet_handler.c:374-400 | for any two chunks there is a run after which a peer lists one chunk more than it announced |
| FailingRuns.SilencePasses | peer.c:405-458 | timeouts within all limits change nothing but the counters of the peers that something is pending at or awaited from |
| ClaimSpec.NextChunkMeaning | packet_handler.c:792-861 | a GET goes out for the first unclaimed chunk, everything before it was claimed, and the accounting is kept |
| ClaimSpec.SendsIffUnclaimed | packet_handler.c:792-861 | a GET goes out if and only if the counts say that a chunk is missing and some listed one is unclaimed; with the accounting right the second is enough |
| ClaimSpec.IhaveAccounting | packet_handler.c:374-400 | an IHAVE leaves the accounting right if and only if no chunk of the peer was still listed |
| ClaimSpec.IhaveAsks | packet_handler.c:400-403 | an IHAVE draws a GET if and only if it names an unclaimed chunk; otherwise the host waits for a chunk it did not ask this peer for |
| ClaimSpec.DoneAccounting | packet_handler.c:517-543 | after the end of a chunk the accounting is right if and only if it was before or the chunk was the last one announced, after which nothing is listed or counted |
| Claiming.RemotePeer.AppendChunks | packet_handler.c:374-398 | the linking loop appends to an empty list, and cuts a non-empty one behind its head |
| Claiming.LocalHost.ClaimFirst | packet_handler.c:811-846 | the nested loops drop exactly the leading claimed chunks and claim the next one |
| Claiming.LocalHost.GetNextChunk | packet_handler.c:792-861 | through the loops and early exits, the first unclaimed listed chunk is claimed and asked for, if the counts say that one is missing |
| Claiming.LocalHost.IhaveHandler | packet_handler.c:340-404 | the answered WHOHAS leaves the queue; no chunks: the next WHOHAS goes out; else the chunks are linked in and the first unclaimed one is asked for |
| Claiming.LocalHost.FinishChunk | packet_handler.c:517-543 | the head chunk is counted and dropped, the next one asked for or the next WHOHAS sent, and all claims forgotten once the request is complete |
| Claiming.LocalHost.InitWhohas | packet_handler.c:683-756 | every peer's queue grows by the packets of the request, in order, its head is pending, and exactly that is sent to it |
| Claiming.TellAll | packet_handler.c:740-756 | each peer is sent the head of its queue if it has one, which is then pending |
| WhohasQueue.RequestSplit | packet_handler.c:687-713 | for any number of hashes the packets hold the request in order and completely, none empty, none over 74 hashes or 1500 bytes, all but the last full |
| Silence.SilenceQuiesces | peer.c:382-465 | after 21 timeouts without an arrival nothing is pending, no data is awaited and none is being sent |
| Silence.TickLowers | peer.c:382-465 | each silent timeout brings every peer and the transfer one step nearer to that |
| SilenceSpec.TickBounded | peer.c:382-465 | a timeout keeps every counter within its limit |
| Silence.ControlBound | peer.c:405-436 | a silent peer is sent at most MAX_RETRANSMITS control packets |
| Silence.DataSendsExactly | peer.c:386-401 | if no control packets run out, exactly the computed number of data packets is sent, one at each timeout |
| Silence.ExceedsIff | peer.c:438-457 | more than MAX_DATA_RETRANSMIT data packets are sent in silence if and only if the served peer has been waited for longer than its last packet went unanswered and no control packets run out |
| FailingRuns.TwentyDataPackets | peer.c:438-457 | packets and one timeout lead to a state from which exactly twenty data packets go out in silence |
| EventLoops.EventLoop.RetransmitData | peer.c:386-401 | the served peer is sent data again and counted, or given up at the limit |
| EventLoops.EventLoop.PeerTurn | peer.c:405-458 | one turn gives up at the control limit, resends what is pending, gives up on awaited data at its limit or counts, and settles the host's counters and claims |
| EventLoops.EventLoop.Timeout | peer.c:382-465 | the loop over the peer list in place takes every peer, curr_to, the claims and the host's counters through one step of the model, and sends each peer the control packet that the model says |
| EventLoops.TimedPeer.CleanUp | peer.c:495-531 | everything kept about the peer is as at the start |

## Left out

- Sockets, `select`, spiffy, file opening, command lines, configuration and debug output; the master and output files are byte sequences, fread and fwrite slices of them.
- Several chunks in one session: packets of one chunk that survive into the next, short final chunks, and serving again after a give-up, which the code does not separate.
- Requests of other peers while a chunk is being served, which redirect `curr_to` before they are denied (packet_handler.c:417); only the runs of the host have them (`Retries.ServesLast`).
- The 32-bit width of sequence numbers and counters: numbers stay at most 354 in a session, and the other counters far below the width.
- Byte offsets that do not fit an int: offsets are unbounded here, so the model is the code for chunk ids up to 4095 at the receiver and 4094 at the sender (`Chunk.OffsetsFit`); above, fseek fails in data_handler and the loop bound of send_next_data wraps around.
- The contents of data packets in the event loop, one by one: `SilenceSpec` and `HostRuns` count them, and `HostRuns` takes the packet that completes the data of a chunk as one input that says whose data it was; what the packets of a chunk do is the session's model.
- ReceiverObject.ReceivingPeer.DataHandler: the next chunk or WHOHAS asked for at the end of a chunk is not in this contract, but in `Claiming.LocalHost.FinishChunk`.
- ReceiverObject.ReceivingPeer.SilenceHandler: the host's counters and claims are not in this contract, but in `EventLoops.EventLoop.PeerTurn`.
- SenderObject.SendingPeer.GetHandler: a GET whose hash is not that of a full chunk of the master file; for an unknown hash the code takes the id -1 and sends the first chunk.
- SenderObject.SendingPeer.AckHandler: after the read through an empty buffer nothing is promised but that the flag is false.
- EventLoops.EventLoop.RetransmitData: the send buffer that is read and cleared there is not part of the event loop's state, but of `SendingPeer`.
- Memory freeing, timestamps, `remove_head` (no caller), `burnStack`, and the unrolled variants of the SHA-1 rounds other than one round per turn.
- Sha1.StoreSwapped64: a 64-bit integer is modelled as its two 32-bit words, which is how the byte swap takes it apart.
- Run-time detection of the byte order: it is a constant of the context, and everything is proved for both values.
- The hexadecimal form of chunk hashes (hexhashlib.c, chunk.c): hashes are opaque values with equality.
- The floating-point division before `ceil` in init_whohas: modelled as exact division rounded up.
- Rates, latencies and times of the simulator's queues: a queued datagram may come due at any time, in FIFO order; packing and unpacking of headers.
- The simulator's `die` branches: on a connected topology they are never reached; on another one the predecessor of an unreachable router is undefined and table creation does not end, and tables are not modelled there.
- Routers.NSQueue.EnQ: the time at which a queued datagram comes due is left out.
- Networks.ServeRoute: how many datagrams come due is a parameter, where the code compares times.
- Networks.ServeRouter: likewise, and the time until the next datagram is not returned.
- Routers.Router.AddRoute: reading the map file is left out, and rate and latency are left out, since no property depends on them.
- The list of routers waiting to be served (hupsim.pl:433-445): a router may be served at any time, and how much comes due meanwhile is a parameter.
- The counts of sent bytes and of drops are in the contracts of `Recv` and `EnQ`, but not tied to the transition system.
- The whohas and ihave handlers' lookup of hashes in files, `client.c`, `server.c`, `bt_parse.c` and the packet constructors: only easy members.
