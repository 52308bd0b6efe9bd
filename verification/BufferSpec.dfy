/**
  What the list operations of sliding_buffer.c do to the sequence of packets a
  sliding window holds, and what that means for the receiver: the cumulative
  acknowledgement and the packets kept above it.
 */
module BufferSpec {
  import opened Constants

  /** A data packet: its sequence number and its payload. */
  datatype Packet = Packet(num: nat, data: seq<uint8>)

  /** Where insert_entry links a packet, walking on from entry `i`; -1 when it frees it instead. */
  function Spot(w: seq<Packet>, num: nat, i: nat): (k: int)
    requires i < |w|
    ensures k == -1 || i < k <= |w|
    decreases |w| - i
  {
    if num == w[i].num then -1
    else if num > w[i].num && (i + 1 == |w| || num < w[i + 1].num) then i + 1
    else if i + 1 == |w| then -1
    else Spot(w, num, i + 1)
  }

  /** insert_entry: any packet enters an empty window; one below the head is dropped. */
  function Insert(w: seq<Packet>, p: Packet): (r: seq<Packet>)
    ensures r != []
  {
    if w == [] then [p]
    else if p.num < w[0].num || Spot(w, p.num, 0) == -1 then w
    else w[..Spot(w, p.num, 0)] + [p] + w[Spot(w, p.num, 0)..]
  }

  /** What find_ack leaves of a non-empty window: it starts at the end of the first run. */
  function AckSuffix(w: seq<Packet>): (r: seq<Packet>)
    requires w != []
    ensures r != []
  {
    if |w| > 1 && w[1].num == w[0].num + 1 then AckSuffix(w[1..]) else w
  }

  /** destroy_upto_ack: entries up to and including `ack` leave the window. */
  function DropUpto(w: seq<Packet>, ack: nat): (r: seq<Packet>)
    ensures r != [] ==> r[0].num > ack
  {
    if w != [] && w[0].num <= ack then DropUpto(w[1..], ack) else w
  }

  /** data_handler's use of the receive window: insert_entry, then find_ack. */
  function Receive(w: seq<Packet>, p: Packet): (r: seq<Packet>)
    ensures r != []
  {
    AckSuffix(Insert(w, p))
  }

  ghost predicate Sorted(w: seq<Packet>) {
    forall i, j :: 0 <= i < j < |w| ==> w[i].num < w[j].num
  }

  ghost function Nums(w: seq<Packet>): set<nat> {
    set p | p in w :: p.num
  }
}
