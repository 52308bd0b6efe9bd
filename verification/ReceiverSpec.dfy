/** What data_handler and the receive timeout do to the receiving side of a peer, as functions on its state. */
module ReceiverSpec {
  import opened Constants
  import opened BufferSpec
  import opened Chunk

  /**
    The receiving side: `hashId` is get_hash_id, PSEUDO_INF when nothing is
    being fetched, `timeouts` is ack_timeout_counter, `window` the receive
    buffer and `file` the output file. The chunk is the last one wanted from
    this peer, so get_next_chunk sends nothing.
   */
  datatype Receiver = Receiver(hashId: nat, pendingGet: bool, timeouts: nat, window: seq<Packet>, file: seq<uint8>)

  datatype Reply = NoAck | Ack(num: nat)

  /** data_handler: write, insert, acknowledge, and clean up after the final acknowledgement. */
  function DataIn(r: Receiver, p: Packet): (q: (Receiver, Reply))
    requires p.num >= 1
  {
    if r.hashId == PSEUDO_INF then (r.(timeouts := 0), NoAck)
    else
      var w := Receive(r.window, p);
      var r1 := r.(timeouts := 0, pendingGet := false,
                   file := WriteAt(r.file, Offset(r.hashId, p.num), p.data), window := w);
      (if w[0].num == FINALACK then r1.(hashId := PSEUDO_INF, window := []) else r1, Ack(w[0].num))
  }

  /** The receive branch of a timeout: after ten silent ones the fetch is abandoned. */
  function SilenceIn(r: Receiver): Receiver {
    if r.hashId == PSEUDO_INF then r
    else if r.timeouts == MAX_DATA_RETRANSMIT then
      r.(hashId := PSEUDO_INF, pendingGet := false, timeouts := 0, window := [])
    else r.(timeouts := r.timeouts + 1)
  }
}
