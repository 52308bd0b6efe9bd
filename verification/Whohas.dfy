/** Splitting a request into WHOHAS packets, and the queue of them that each peer has. */
module WhohasQueue {
  import opened Constants
  import opened ClaimSpec

  /** ceil(n / MAX_CHUNKS_PER_PACK) */
  function Iterations(n: nat): nat {
    (n + MAX_CHUNKS_PER_PACK - 1) / MAX_CHUNKS_PER_PACK
  }

  /** The hashes of packet `i` of a request. */
  function PacketAt(hashes: seq<Hash>, i: nat): (r: seq<Hash>)
    requires i < Iterations(|hashes|)
  {
    var from := i * MAX_CHUNKS_PER_PACK;
    hashes[from..if i == Iterations(|hashes|) - 1 then |hashes| else from + MAX_CHUNKS_PER_PACK]
  }

  function Packets(hashes: seq<Hash>): seq<seq<Hash>> {
    seq(Iterations(|hashes|), i requires 0 <= i < Iterations(|hashes|) => PacketAt(hashes, i))
  }

  /** init_whohas, for one peer */
  function Requested(p: Peer, hashes: seq<Hash>): Peer {
    NextWhohas(p.(whohas := p.whohas + Packets(hashes))).0
  }

  function Flatten(packets: seq<seq<Hash>>): seq<Hash> {
    if packets == [] then [] else packets[0] + Flatten(packets[1..])
  }

  function WhohasLength(hashes: seq<Hash>): nat {
    HEADERLEN + 4 + HASHLEN_PACKET * |hashes|
  }

  lemma {:induction false} FlattenAppend(packets: seq<seq<Hash>>, last: seq<Hash>)
    ensures Flatten(packets + [last]) == Flatten(packets) + last
  {
    if packets == [] {
      assert packets + [last] == [last];
      assert Flatten([last]) == last + Flatten([]);
    } else {
      assert (packets + [last])[1..] == packets[1..] + [last];
      FlattenAppend(packets[1..], last);
      assert packets[0] + (Flatten(packets[1..]) + last) == (packets[0] + Flatten(packets[1..])) + last;
    }
  }

  lemma {:induction false} FlattenPrefix(hashes: seq<Hash>, n: nat)
    requires n < Iterations(|hashes|)
    ensures n * MAX_CHUNKS_PER_PACK < |hashes|
    ensures Flatten(Packets(hashes)[..n]) == hashes[..n * MAX_CHUNKS_PER_PACK]
  {
    if n > 0 {
      FlattenPrefix(hashes, n - 1);
      var packets := Packets(hashes);
      assert packets[..n] == packets[..n - 1] + [PacketAt(hashes, n - 1)];
      FlattenAppend(packets[..n - 1], PacketAt(hashes, n - 1));
    }
  }

  /**
    A request of any length is split into packets that hold it in order and
    completely, none of them empty, none over 74 hashes or 1500 bytes, and all
    but the last of them full.
   */
  lemma RequestSplit(hashes: seq<Hash>)
    ensures Flatten(Packets(hashes)) == hashes
    ensures forall i :: 0 <= i < |Packets(hashes)| ==>
              && 1 <= |Packets(hashes)[i]| <= MAX_CHUNKS_PER_PACK
              && WhohasLength(Packets(hashes)[i]) <= MAX_PACKET_LEN
              && (i < |Packets(hashes)| - 1 ==> |Packets(hashes)[i]| == MAX_CHUNKS_PER_PACK)
  {
    var n := Iterations(|hashes|);
    forall i | 0 <= i < n ensures 1 <= |PacketAt(hashes, i)| <= MAX_CHUNKS_PER_PACK
                                  && (i < n - 1 ==> |PacketAt(hashes, i)| == MAX_CHUNKS_PER_PACK) {
      FlattenPrefix(hashes, i);
    }
    if n > 0 {
      FlattenPrefix(hashes, n - 1);
      assert Packets(hashes) == Packets(hashes)[..n - 1] + [PacketAt(hashes, n - 1)];
      FlattenAppend(Packets(hashes)[..n - 1], PacketAt(hashes, n - 1));
    }
  }
}
