/** How a chunk is cut into numbered packets, and how packets are written back to a file. */
module Chunk {
  import opened Constants
  import opened BufferSpec

  predicate HasChunk(master: seq<uint8>, id: nat) {
    (id + 1) * CHUNKLEN <= |master|
  }

  function ChunkBytes(master: seq<uint8>, id: nat): (c: seq<uint8>)
    requires HasChunk(master, id)
    ensures |c| == CHUNKLEN
  {
    master[id * CHUNKLEN..(id + 1) * CHUNKLEN]
  }

  predicate Numbered(n: nat) { 1 <= n <= FINALACK }

  /** Bytes carried by packet `n`: a full buffer, or what is left of the chunk. */
  function PayloadLen(n: nat): (k: nat)
    requires Numbered(n)
    ensures 0 < k <= BUFLEN && (n - 1) * BUFLEN + k <= CHUNKLEN
  {
    if CHUNKLEN - (n - 1) * BUFLEN < BUFLEN then CHUNKLEN - (n - 1) * BUFLEN else BUFLEN
  }

  /** The data packet the sender makes for number `n` of chunk `id`. */
  function PacketOf(master: seq<uint8>, id: nat, n: nat): (p: Packet)
    requires HasChunk(master, id) && Numbered(n)
    ensures p.num == n && |p.data| == PayloadLen(n)
  {
    Packet(n, ChunkBytes(master, id)[(n - 1) * BUFLEN..(n - 1) * BUFLEN + PayloadLen(n)])
  }

  /** Packets numbered 1 to FINALACK, each of the size its number calls for. */
  ghost predicate IsCut(cut: seq<Packet>) {
    && |cut| == FINALACK
    && forall i {:trigger cut[i]} :: 0 <= i < |cut| ==> cut[i].num == i + 1 && |cut[i].data| == PayloadLen(i + 1)
  }

  /** Chunk `id` cut into all its packets; packet `n` is at index `n - 1`. */
  function Cut(master: seq<uint8>, id: nat): (cut: seq<Packet>)
    requires HasChunk(master, id)
    ensures IsCut(cut) && forall n :: Numbered(n) ==> cut[n - 1] == PacketOf(master, id, n)
  {
    seq(FINALACK, i requires 0 <= i < FINALACK => PacketOf(master, id, i + 1))
  }

  /** The packets tile the chunk: every byte belongs to exactly one number, and all numbers are needed. */
  lemma Tiling(o: nat)
    requires o < CHUNKLEN
    ensures Numbered(o / BUFLEN + 1)
    ensures forall n: nat :: Numbered(n) ==>
                          ((n - 1) * BUFLEN <= o < (n - 1) * BUFLEN + PayloadLen(n) <==> n == o / BUFLEN + 1)
    ensures (FINALACK - 1) * BUFLEN < CHUNKLEN <= FINALACK * BUFLEN
  {
  }

  /** fseek to `off` and fwrite `data`: a gap past the end reads as zeros. */
  function WriteAt(file: seq<uint8>, off: nat, data: seq<uint8>): (r: seq<uint8>)
    ensures |r| == if |file| < off + |data| then off + |data| else |file|
    ensures forall k :: off <= k < off + |data| ==> r[k] == data[k - off]
    ensures forall k :: 0 <= k < |file| && !(off <= k < off + |data|) ==> r[k] == file[k]
    ensures forall k :: |file| <= k < off ==> r[k] == 0
  {
    var base := if |file| < off then file + seq(off - |file|, _ => 0) else file;
    base[..off] + data + if off + |data| < |base| then base[off + |data|..] else []
  }

  ghost predicate Stored(file: seq<uint8>, off: nat, data: seq<uint8>) {
    off + |data| <= |file| && file[off..off + |data|] == data
  }

  lemma WriteStores(file: seq<uint8>, off: nat, data: seq<uint8>)
    ensures Stored(WriteAt(file, off, data), off, data)
  {
  }

  /** Where data_handler writes packet `n` of chunk `dst`. */
  function Offset(dst: nat, n: nat): nat
    requires n >= 1
  {
    dst * CHUNKLEN + (n - 1) * BUFLEN
  }

  /** The greatest value of the source's byte offsets. */
  const INT_MAX: nat := 0x7fff_ffff

  /** The offsets of a slot fit the source's int exactly up to chunk 4095, the end of a chunk up to 4094. */
  lemma OffsetsFit(id: nat)
    ensures (forall n: nat :: Numbered(n) ==> Offset(id, n) <= INT_MAX) <==> id <= 4095
    ensures (id + 1) * CHUNKLEN <= INT_MAX <==> id <= 4094
  {
    assert Numbered(FINALACK) && Offset(id, FINALACK) == id * CHUNKLEN + (FINALACK - 1) * BUFLEN;
  }

  /** Packet `n` of the chunk is in its place in the slot of chunk `dst`. */
  ghost predicate InPlace(cut: seq<Packet>, dst: nat, file: seq<uint8>, n: nat)
    requires |cut| == FINALACK && Numbered(n)
  {
    Stored(file, Offset(dst, n), cut[n - 1].data)
  }

  /** Writing one packet leaves every packet of the chunk that is already in place alone. */
  lemma WriteKeeps(cut: seq<Packet>, dst: nat, file: seq<uint8>, n: nat, m: nat)
    requires IsCut(cut) && Numbered(n) && Numbered(m) && InPlace(cut, dst, file, n)
    ensures InPlace(cut, dst, WriteAt(file, Offset(dst, m), cut[m - 1].data), n)
  {
    assert n < m ==> (n - 1) * BUFLEN + PayloadLen(n) <= (m - 1) * BUFLEN;
    assert m < n ==> (m - 1) * BUFLEN + PayloadLen(m) <= (n - 1) * BUFLEN;
  }

  /** `file` differs from `before` only inside the slot of chunk `dst` and behind the old end. */
  ghost predicate OutsideKept(before: seq<uint8>, dst: nat, file: seq<uint8>) {
    && |before| <= |file| <= (if |before| < (dst + 1) * CHUNKLEN then (dst + 1) * CHUNKLEN else |before|)
    && (forall k :: 0 <= k < |before| && !(dst * CHUNKLEN <= k < (dst + 1) * CHUNKLEN) ==> file[k] == before[k])
    && (forall k :: |before| <= k < |file| && k < dst * CHUNKLEN ==> file[k] == 0)
  }

  lemma WriteKeepsOutside(cut: seq<Packet>, before: seq<uint8>, dst: nat, file: seq<uint8>, m: nat)
    requires IsCut(cut) && Numbered(m) && OutsideKept(before, dst, file)
    ensures OutsideKept(before, dst, WriteAt(file, Offset(dst, m), cut[m - 1].data))
  {
    assert dst * CHUNKLEN <= Offset(dst, m);
    assert Offset(dst, m) + PayloadLen(m) <= (dst + 1) * CHUNKLEN;
  }

  /** Once every packet is in place, the slot holds the chunk. */
  lemma AllInPlace(master: seq<uint8>, src: nat, dst: nat, file: seq<uint8>)
    requires HasChunk(master, src)
    requires forall n :: Numbered(n) ==> InPlace(Cut(master, src), dst, file, n)
    ensures HasChunk(file, dst) && ChunkBytes(file, dst) == ChunkBytes(master, src)
  {
    assert InPlace(Cut(master, src), dst, file, FINALACK);
    assert HasChunk(file, dst);
    forall o | 0 <= o < CHUNKLEN
      ensures ChunkBytes(file, dst)[o] == ChunkBytes(master, src)[o]
    {
      Tiling(o);
      var n := o / BUFLEN + 1;
      assert InPlace(Cut(master, src), dst, file, n);
      var d := PacketOf(master, src, n).data;
      var i := o - (n - 1) * BUFLEN;
      assert file[Offset(dst, n)..Offset(dst, n) + |d|][i] == d[i];
    }
  }
}
