/** Bit identities behind the macros of sha.c. */
module BitTricks {
  lemma ChTrick(x: bv32, y: bv32, z: bv32)
    ensures z ^ (x & (y ^ z)) == (x & y) ^ (!x & z)
  {
  }

  lemma MajTrick(x: bv32, y: bv32, z: bv32)
    ensures (x & (y | z)) | (y & z) == (x & y) ^ (x & z) ^ (y & z)
  {
  }
}

/** The incremental SHA-1 of sha.c: the context it updates in place, refining Sha1Spec. */
module Sha1 {
  import opened Sha1Spec
  import opened BitTricks
  import opened Numbers

  // The macros of sha.c

  function F0(x: Word, y: Word, z: Word): Word { z ^ (x & (y ^ z)) }
  function F20(x: Word, y: Word, z: Word): Word { x ^ y ^ z }
  function F40(x: Word, y: Word, z: Word): Word { (x & (y | z)) | (y & z) }

  /** DO_ROUND with the value `f` of its function, its constant and the next schedule word. */
  function DoRound(f: Word, k: Word, v: Five, w: Word): Five {
    var temp := Sum5(Rotl(v.a, 5), f, v.e, w, k);
    Five(temp, v.a, Rotl(v.b, 30), v.c, v.d)
  }

  /** BYTESWAP: on a big-endian machine nothing, else the rotate-and-mask trick. */
  function ByteSwap(littleEndian: bool, x: Word): Word {
    if littleEndian then
      (((x >> 8) | (x << 24)) & 0xff00ff00) | (((x << 8) | (x >> 24)) & 0x00ff00ff)
    else x
  }

  /** A 32-bit word as it is read from memory. */
  function Load(littleEndian: bool, b0: Byte, b1: Byte, b2: Byte, b3: Byte): Word {
    if littleEndian then BigEndian(b3, b2, b1, b0) else BigEndian(b0, b1, b2, b3)
  }

  /** A 32-bit word as it is written to memory. */
  function Store(littleEndian: bool, x: Word): (r: seq<Byte>)
    ensures |r| == 4
  {
    var b := BigEndian32(x);
    if littleEndian then [b[3], b[2], b[1], b[0]] else b
  }

  /** A uint64_t: its upper and its lower word. */
  datatype Long = Long(hi: Word, lo: Word)

  function Split(n: nat): Long
    requires n < TWO64
  {
    Long((n / TWO32) as Word, (n % TWO32) as Word)
  }

  /** _byteswap64. */
  function ByteSwap64(littleEndian: bool, x: Long): Long {
    if littleEndian then Long(ByteSwap(true, x.lo), ByteSwap(true, x.hi)) else x
  }

  function Store64(littleEndian: bool, x: Long): (r: seq<Byte>)
    ensures |r| == 8
  {
    if littleEndian then Store(true, x.lo) + Store(true, x.hi) else Store(false, x.hi) + Store(false, x.lo)
  }

  function BlockAt(data: seq<Byte>, pos: nat): (r: Block)
    requires pos + 64 <= |data|
    ensures r == data[pos..pos + 64]
  {
    data[pos..pos + 64]
  }

  /** The short form of Ch is the standard's. */
  lemma ShortCh(x: Word, y: Word, z: Word)
    ensures F0(x, y, z) == Ch(x, y, z)
  {
    ChTrick(x, y, z);
  }

  /** The short form of Maj is the standard's. */
  lemma ShortMaj(x: Word, y: Word, z: Word)
    ensures F40(x, y, z) == Maj(x, y, z)
  {
    MajTrick(x, y, z);
  }

  lemma SwapLast(r: Word, f: Word, e: Word, k: Word, w: Word)
    ensures Sum5(r, f, e, w, k) == Sum5(r, f, e, k, w)
  {
  }

  // DO_ROUND is the standard's round, in each of the four stretches

  lemma Round0(t: nat, v: Five, w: Word)
    requires t < 20
    ensures DoRound(F0(v.b, v.c, v.d), 0x5a827999, v, w) == Round(t, v, w)
  {
    ShortCh(v.b, v.c, v.d);
    SwapLast(Rotl(v.a, 5), F0(v.b, v.c, v.d), v.e, 0x5a827999, w);
  }

  lemma Round20(t: nat, v: Five, w: Word)
    requires 20 <= t < 40
    ensures DoRound(F20(v.b, v.c, v.d), 0x6ed9eba1, v, w) == Round(t, v, w)
  {
    SwapLast(Rotl(v.a, 5), F20(v.b, v.c, v.d), v.e, 0x6ed9eba1, w);
  }

  lemma Round40(t: nat, v: Five, w: Word)
    requires 40 <= t < 60
    ensures DoRound(F40(v.b, v.c, v.d), 0x8f1bbcdc, v, w) == Round(t, v, w)
  {
    ShortMaj(v.b, v.c, v.d);
    SwapLast(Rotl(v.a, 5), F40(v.b, v.c, v.d), v.e, 0x8f1bbcdc, w);
  }

  lemma Round60(t: nat, v: Five, w: Word)
    requires 60 <= t < 80
    ensures DoRound(F20(v.b, v.c, v.d), 0xca62c1d6, v, w) == Round(t, v, w)
  {
    SwapLast(Rotl(v.a, 5), F20(v.b, v.c, v.d), v.e, 0xca62c1d6, w);
  }

  /** A loaded and swapped word is the big-endian word of its bytes, whatever the machine. */
  lemma LoadSwapped(littleEndian: bool, b0: Byte, b1: Byte, b2: Byte, b3: Byte)
    ensures ByteSwap(littleEndian, Load(littleEndian, b0, b1, b2, b3)) == BigEndian(b0, b1, b2, b3)
  {
  }

  /** A swapped and stored word is its bytes, most significant first, whatever the machine. */
  lemma StoreSwapped(littleEndian: bool, x: Word)
    ensures Store(littleEndian, ByteSwap(littleEndian, x)) == BigEndian32(x)
  {
  }

  lemma StoreSwapped64(littleEndian: bool, n: nat)
    requires n < TWO64
    ensures Store64(littleEndian, ByteSwap64(littleEndian, Split(n))) == BigEndian64(n)
  {
    StoreSwapped(littleEndian, Split(n).hi);
    StoreSwapped(littleEndian, Split(n).lo);
  }

  // The streaming state and what the operations mean for it

  /** The context: bits taken in modulo 2^64, the hash so far, and the bytes waiting for a full block. */
  datatype Context = Context(total: nat, hash: Five, pending: seq<Byte>)

  const INITIAL := Context(0, H0, [])

  /** SHA1Update over the compression function `f`, whichever way it is compiled. */
  function Absorb(f: Compression, c: Context, data: seq<Byte>): (r: Context)
    ensures r.total < TWO64
  {
    Context((c.total + 8 * |data|) % TWO64, Blocks(f, c.hash, c.pending + data), Rest(c.pending + data))
  }

  function AbsorbAll(f: Compression, c: Context, pieces: seq<seq<Byte>>): (r: Context)
    requires c.total < TWO64
    ensures r.total < TWO64
    decreases |pieces|
  {
    if pieces == [] then c else AbsorbAll(f, Absorb(f, c, pieces[0]), pieces[1..])
  }

  /** SHA1Final: the context it leaves; its hash is the digest. */
  function Finish(f: Compression, c: Context): Context
    requires c.total < TWO64
  {
    Absorb(f, Absorb(f, c, Filler(|c.pending|)), BigEndian64(c.total))
  }

  function Concat(pieces: seq<seq<Byte>>): seq<Byte> {
    if pieces == [] then [] else pieces[0] + Concat(pieces[1..])
  }

  lemma TotalSum(t: nat, m: nat, n: nat)
    ensures ((t + 8 * m) % TWO64 + 8 * n) % TWO64 == (t + 8 * (m + n)) % TWO64
  {
    ModAdd(t + 8 * m, 8 * n);
  }

  lemma ModAdd(x: nat, y: nat)
    ensures (x % TWO64 + y) % TWO64 == (x + y) % TWO64
  {
    var r := x % TWO64;
    assert x + y == (x / TWO64 + (r + y) / TWO64) * TWO64 + (r + y) % TWO64;
  }

  /** Two updates are one: the context does not depend on where the data was split. */
  lemma AbsorbTwice(f: Compression, c: Context, u: seq<Byte>, v: seq<Byte>)
    ensures Absorb(f, Absorb(f, c, u), v) == Absorb(f, c, u + v)
  {
    TotalSum(c.total, |u|, |v|);
    assert c.pending + (u + v) == (c.pending + u) + v;
    BlocksConcat(f, c.hash, c.pending + u, v);
  }

  lemma {:induction false} AbsorbPieces(f: Compression, c: Context, pieces: seq<seq<Byte>>)
    requires c.total < TWO64 && |c.pending| < 64
    ensures AbsorbAll(f, c, pieces) == Absorb(f, c, Concat(pieces))
    decreases |pieces|
  {
    if pieces == [] {
      assert c.pending + [] == c.pending;
    } else {
      AbsorbPieces(f, Absorb(f, c, pieces[0]), pieces[1..]);
      AbsorbTwice(f, c, pieces[0], Concat(pieces[1..]));
    }
  }

  lemma FillerOfRest(n: nat)
    ensures Filler(n % 64) == Filler(n)
  {
  }

  /** Filling up and adding eight bytes `l` after a whole message hashes all of it. */
  lemma FillUp(f: Compression, h: Five, m: seq<Byte>, l: seq<Byte>)
    requires |l| == 8
    ensures var c := Absorb(f, Context(0, h, []), m);
            Absorb(f, Absorb(f, c, Filler(|c.pending|)), l).hash == Blocks(f, h, m + Filler(|m|) + l)
  {
    var start := Context(0, h, []);
    var x := Filler(|m|);
    PendingLength(f, h, m);
    AbsorbTwice(f, Absorb(f, start, m), x, l);
    AbsorbTwice(f, start, m, x + l);
    assert m + (x + l) == m + x + l;
    AbsorbWhole(f, h, m + x + l);
  }

  /** What a fresh context takes in is hashed block by block. */
  lemma AbsorbWhole(f: Compression, h: Five, m: seq<Byte>)
    ensures Absorb(f, Context(0, h, []), m).hash == Blocks(f, h, m)
    ensures |Absorb(f, Context(0, h, []), m).pending| == |m| % 64
  {
    assert [] + m == m;
  }

  lemma PendingLength(f: Compression, h: Five, m: seq<Byte>)
    ensures Filler(|Absorb(f, Context(0, h, []), m).pending|) == Filler(|m|)
  {
    AbsorbWhole(f, h, m);
    FillerOfRest(|m|);
  }

  /** Finishing after a whole message hashes the padded message. */
  lemma FinishWhole(f: Compression, h: Five, m: seq<Byte>)
    ensures Finish(f, Absorb(f, Context(0, h, []), m)).hash == Blocks(f, h, Padded(m))
  {
    FillUp(f, h, m, BigEndian64(8 * |m| % TWO64));
  }

  /**
    Streaming correctness: however a message is split into updates, the digest
    is SHA-1 of the whole message.
   */
  lemma Streaming(pieces: seq<seq<Byte>>)
    ensures DigestBytes(Finish(Compress, AbsorbAll(Compress, INITIAL, pieces)).hash) == Sha1(Concat(pieces))
  {
    AbsorbPieces(Compress, INITIAL, pieces);
    FinishWhole(Compress, H0, Concat(pieces));
  }

  // The context object

  /** `littleEndian` and `fastCopy` stand for the compile-time choices of sha.c. */
  class Sha1Context {
    const littleEndian: bool
    const fastCopy: bool
    const hash: array<Word>
    const buffer: array<Byte>
    var totalLength: nat
    var bufferLength: nat

    ghost predicate Shaped() {
      hash.Length == 5 && buffer.Length == 64
    }

    ghost predicate Valid()
      reads this
    {
      Shaped() && bufferLength < 64 && totalLength < TWO64
    }

    ghost function HashValue(): Five
      reads hash
      requires Shaped()
    {
      Five(hash[0], hash[1], hash[2], hash[3], hash[4])
    }

    ghost function Value(): Context
      reads this, hash, buffer
      requires Valid()
    {
      Context(totalLength, HashValue(), buffer[..bufferLength])
    }

    constructor (littleEndian: bool, fastCopy: bool)
      ensures Valid() && fresh(hash) && fresh(buffer) && Value() == INITIAL
    {
      this.littleEndian := littleEndian;
      this.fastCopy := fastCopy;
      hash := new Word[5];
      buffer := new Byte[64];
      totalLength, bufferLength := 0, 0;
      new;
      Init();
    }

    /** SHA1Init. */
    method Init()
      requires Shaped()
      modifies this, hash
      ensures Valid() && Value() == INITIAL
    {
      totalLength := 0;
      hash[0] := 0x67452301;
      hash[1] := 0xefcdab89;
      hash[2] := 0x98badcfe;
      hash[3] := 0x10325476;
      hash[4] := 0xc3d2e1f0;
      bufferLength := 0;
    }

    /** The words of the block, loaded and swapped. */
    method LoadBlock(block: Block, buf: array<Word>)
      requires buf.Length == 80
      modifies buf
      ensures buf[..16] == seq(16, t requires 0 <= t < 16 => WordAt(block, t))
    {
      for i := 0 to 16
        invariant forall t :: 0 <= t < i ==> buf[t] == WordAt(block, t)
      {
        LoadSwapped(littleEndian, block[4 * i], block[4 * i + 1], block[4 * i + 2], block[4 * i + 3]);
        buf[i] := ByteSwap(littleEndian,
                           Load(littleEndian, block[4 * i], block[4 * i + 1], block[4 * i + 2], block[4 * i + 3]));
      }
    }

    /** The first half of SHA1Guts: the message schedule, by five pointers that move in step. */
    method MakeSchedule(block: Block) returns (buf: array<Word>)
      ensures fresh(buf) && buf[..] == Schedule(block)
    {
      buf := new Word[80];
      LoadBlock(block, buf);
      var w, w16, w14, w8, w3 := 16, 0, 2, 8, 13;
      while w < 80
        invariant 16 <= w <= 80 && w16 == w - 16 && w14 == w - 14 && w8 == w - 8 && w3 == w - 3
        invariant Extend(buf[..w]) == Schedule(block)
      {
        ghost var prefix := buf[..w];
        buf[w] := Xor4(buf[w3], buf[w8], buf[w14], buf[w16]);
        buf[w] := Rotl(buf[w], 1);
        w, w16, w14, w8, w3 := w + 1, w16 + 1, w14 + 1, w8 + 1, w3 + 1;
        assert buf[..w] == prefix + [buf[w - 1]];
        ExtendNext(prefix, buf[w - 1]);
      }
      assert buf[..] == buf[..80];
    }

    /** The eighty rounds of SHA1Guts, in their four stretches. */
    method RunRounds(buf: array<Word>, h: Five) returns (v: Five)
      requires buf.Length == 80
      ensures v == Rounds(buf[..], h, buf.Length)
    {
      ghost var w := buf[..];
      v := h;
      var t := 0;
      while t < 20
        invariant 0 <= t <= 20 && v == Rounds(w, h, t)
      {
        Round0(t, v, buf[t]);
        v := DoRound(F0(v.b, v.c, v.d), 0x5a827999, v, buf[t]);
        t := t + 1;
      }
      while t < 40
        invariant 20 <= t <= 40 && v == Rounds(w, h, t)
      {
        Round20(t, v, buf[t]);
        v := DoRound(F20(v.b, v.c, v.d), 0x6ed9eba1, v, buf[t]);
        t := t + 1;
      }
      while t < 60
        invariant 40 <= t <= 60 && v == Rounds(w, h, t)
      {
        Round40(t, v, buf[t]);
        v := DoRound(F40(v.b, v.c, v.d), 0x8f1bbcdc, v, buf[t]);
        t := t + 1;
      }
      while t < 80
        invariant 60 <= t <= 80 && v == Rounds(w, h, t)
      {
        Round60(t, v, buf[t]);
        v := DoRound(F20(v.b, v.c, v.d), 0xca62c1d6, v, buf[t]);
        t := t + 1;
      }
    }

    /** SHA1Guts. */
    method Guts(block: Block)
      requires Shaped()
      modifies hash
      ensures HashValue() == Compress(old(HashValue()), block)
    {
      var buf := MakeSchedule(block);
      var v := RunRounds(buf, Five(hash[0], hash[1], hash[2], hash[3], hash[4]));
      hash[0] := Add(hash[0], v.a);
      hash[1] := Add(hash[1], v.b);
      hash[2] := Add(hash[2], v.c);
      hash[3] := Add(hash[3], v.d);
      hash[4] := Add(hash[4], v.e);
    }

    /** memcpy to the free end of the block buffer, with the counts that follow it. */
    method CopyIn(piece: seq<Byte>)
      requires Shaped() && bufferLength + |piece| <= 64
      modifies this`bufferLength, this`totalLength, buffer
      ensures bufferLength == old(bufferLength) + |piece|
      ensures buffer[..bufferLength] == old(buffer[..bufferLength]) + piece
      ensures totalLength == (old(totalLength) + 8 * |piece|) % TWO64
    {
      forall i | 0 <= i < |piece| {
        buffer[bufferLength + i] := piece[i];
      }
      totalLength := (totalLength + |piece| * 8) % TWO64;
      bufferLength := bufferLength + |piece|;
    }

    /** Copy a piece that fits, and hash the buffer once it is full. */
    method Feed(piece: seq<Byte>)
      requires Valid() && bufferLength + |piece| <= 64
      modifies this`bufferLength, this`totalLength, hash, buffer
      ensures Valid() && Value() == Absorb(Compress, old(Value()), piece)
      ensures bufferLength == if old(bufferLength) + |piece| == 64 then 0 else old(bufferLength) + |piece|
    {
      ghost var c := Value();
      CopyIn(piece);
      AbsorbPiece(Compress, c, piece);
      if bufferLength == 64 {
        Guts(buffer[..]);
        assert c.pending + piece == buffer[..];
        bufferLength := 0;
      }
    }

    /** One turn of the loop: as much of the data as fits in the buffer. */
    method FeedNext(data: seq<Byte>, pos: nat, ghost c: Context) returns (next: nat)
      requires Valid() && pos < |data| && Value() == Absorb(Compress, c, data[..pos])
      modifies this`bufferLength, this`totalLength, hash, buffer
      ensures pos < next <= |data| && Valid() && Value() == Absorb(Compress, c, data[..next])
    {
      var bytesToCopy := Min(64 - bufferLength, |data| - pos);
      AbsorbNext(Compress, c, data, pos, bytesToCopy);
      next := pos + bytesToCopy;
      Feed(data[pos..next]);
    }

    /** SHA1Update as it is compiled without SHA1_FAST_COPY: everything goes through the buffer. */
    method UpdateBuffered(data: seq<Byte>)
      requires Valid()
      modifies this`bufferLength, this`totalLength, hash, buffer
      ensures Valid() && Value() == Absorb(Compress, old(Value()), data)
    {
      ghost var c := Value();
      var pos := 0;
      AbsorbNothing(Compress, c);
      assert data[..0] == [];
      while pos < |data|
        invariant pos <= |data| && Valid()
        invariant Value() == Absorb(Compress, c, data[..pos])
      {
        pos := FeedNext(data, pos, c);
      }
      assert data[..pos] == data;
    }

    /** A full block, hashed without being copied. */
    method HashBlock(block: Block)
      requires Valid() && bufferLength == 0
      modifies this`totalLength, hash
      ensures Valid() && bufferLength == 0 && Value() == Absorb(Compress, old(Value()), block)
    {
      ghost var c := Value();
      AbsorbBlock(Compress, c, block);
      totalLength := (totalLength + 512) % TWO64;
      Guts(block);
    }

    method HashInPlace(data: seq<Byte>, pos: nat, ghost c: Context)
      requires Valid() && bufferLength == 0 && pos + 64 <= |data|
      requires Value() == Absorb(Compress, c, data[..pos])
      modifies this`totalLength, hash
      ensures Valid() && bufferLength == 0 && Value() == Absorb(Compress, c, data[..pos + 64])
    {
      AbsorbNext(Compress, c, data, pos, 64);
      HashBlock(BlockAt(data, pos));
    }

    /** The end of the data, too short for a block. */
    method Keep(piece: seq<Byte>)
      requires Valid() && bufferLength + |piece| < 64
      modifies this`bufferLength, this`totalLength, buffer
      ensures Valid() && Value() == Absorb(Compress, old(Value()), piece)
    {
      AbsorbPiece(Compress, Value(), piece);
      CopyIn(piece);
    }

    /** SHA1Update as it is compiled with SHA1_FAST_COPY: full blocks are hashed where they are. */
    method UpdateFast(data: seq<Byte>)
      requires Valid()
      modifies this`bufferLength, this`totalLength, hash, buffer
      ensures Valid() && Value() == Absorb(Compress, old(Value()), data)
    {
      ghost var c := Value();
      var pos := TopUp(data);
      while |data| - pos > 63
        invariant pos <= |data| && Valid()
        invariant pos < |data| ==> bufferLength == 0
        invariant Value() == Absorb(Compress, c, data[..pos])
      {
        HashInPlace(data, pos, c);
        pos := pos + 64;
      }
      KeepRest(data, pos, c);
    }

    /** The first part of the fast update: complete the buffer if it holds something. */
    method TopUp(data: seq<Byte>) returns (pos: nat)
      requires Valid()
      modifies this`bufferLength, this`totalLength, hash, buffer
      ensures pos <= |data| && Valid() && Value() == Absorb(Compress, old(Value()), data[..pos])
      ensures pos < |data| ==> bufferLength == 0
    {
      pos := 0;
      AbsorbNothing(Compress, Value());
      assert data[..0] == [];
      if bufferLength != 0 {
        pos := Min(64 - bufferLength, |data|);
        Feed(data[..pos]);
      }
    }

    /** Its last part: what is too short for a block waits in the buffer. */
    method KeepRest(data: seq<Byte>, pos: nat, ghost c: Context)
      requires Valid() && pos <= |data| && |data| - pos <= 63 && (pos < |data| ==> bufferLength == 0)
      requires Value() == Absorb(Compress, c, data[..pos])
      modifies this`bufferLength, this`totalLength, buffer
      ensures Valid() && Value() == Absorb(Compress, c, data)
    {
      AbsorbRest(Compress, c, data, pos);
      if pos < |data| {
        Keep(data[pos..]);
      }
    }

    /** SHA1Update. */
    method Update(data: seq<Byte>)
      requires Valid()
      modifies this`bufferLength, this`totalLength, hash, buffer
      ensures Valid() && Value() == Absorb(Compress, old(Value()), data)
    {
      if fastCopy {
        UpdateFast(data);
      } else {
        UpdateBuffered(data);
      }
    }

    /** SHA1Final. */
    method Final() returns (digest: seq<Byte>)
      requires Valid()
      modifies this`bufferLength, this`totalLength, hash, buffer
      ensures Valid() && Value() == Finish(Compress, old(Value()))
      ensures digest == DigestBytes(HashValue())
    {
      var bytesToPad := 120 - bufferLength;
      if bytesToPad > 64 {
        bytesToPad := bytesToPad - 64;
      }
      StoreSwapped64(littleEndian, totalLength);
      var lengthPad := Store64(littleEndian, ByteSwap64(littleEndian, Split(totalLength)));
      PaddingIsFiller(bufferLength, bytesToPad);
      Update(PADDING[..bytesToPad]);
      Update(lengthPad);
      digest := WriteDigest();
    }

    /** The loop of SHA1Final that writes the hash, most significant bytes first. */
    method WriteDigest() returns (digest: seq<Byte>)
      requires Shaped()
      ensures digest == DigestBytes(HashValue())
    {
      digest := [];
      for i := 0 to 5
        invariant digest == WordBytes(hash[..i])
      {
        StoreSwapped(littleEndian, hash[i]);
        assert hash[..i + 1][..i] == hash[..i];
        digest := digest + (if fastCopy then Store(littleEndian, ByteSwap(littleEndian, hash[i]))
                            else BigEndian32(hash[i]));
      }
      assert hash[..5] == Words(HashValue());
    }
  }

  /**
    One context, initialised, fed any number of pieces and finished: on either
    kind of machine and in either compilation the result is SHA-1 of their
    concatenation.
   */
  method DigestOf(littleEndian: bool, fastCopy: bool, pieces: seq<seq<Byte>>) returns (digest: seq<Byte>)
    ensures digest == Sha1(Concat(pieces))
  {
    var context := new Sha1Context(littleEndian, fastCopy);
    context.Init();
    for i := 0 to |pieces|
      invariant context.Valid() && fresh(context) && fresh(context.hash) && fresh(context.buffer)
      invariant AbsorbAll(Compress, context.Value(), pieces[i..]) == AbsorbAll(Compress, INITIAL, pieces)
    {
      assert pieces[i..][1..] == pieces[i + 1..];
      context.Update(pieces[i]);
    }
    Streaming(pieces);
    digest := context.Final();
  }

  /** shahash of chunk.c: the digest of one buffer. */
  method ShaHash(littleEndian: bool, fastCopy: bool, str: seq<Byte>) returns (hash: seq<Byte>)
    ensures hash == Sha1(str)
  {
    var context := new Sha1Context(littleEndian, fastCopy);
    context.Init();
    context.Update(str);
    FinishWhole(Compress, H0, str);
    hash := context.Final();
  }

  const PADDING: seq<Byte> := [0x80] + seq(63, _ => 0)

  lemma PaddingIsFiller(n: nat, bytesToPad: nat)
    requires n < 64 && bytesToPad == if 120 - n > 64 then 56 - n else 120 - n
    ensures bytesToPad <= |PADDING| && PADDING[..bytesToPad] == Filler(n)
  {
  }

  /** A block that meets an empty buffer is hashed as it is. */
  lemma AbsorbBlock(f: Compression, c: Context, block: Block)
    requires c.pending == []
    ensures Absorb(f, c, block) == Context((c.total + 512) % TWO64, f(c.hash, block), [])
  {
    AbsorbPiece(f, c, block);
    assert [] + block == block;
  }

  lemma AbsorbNothing(f: Compression, c: Context)
    requires c.total < TWO64 && |c.pending| < 64
    ensures Absorb(f, c, []) == c
  {
    assert c.pending + [] == c.pending;
  }

  /** A piece that fits in the buffer: it waits, or completes one block. */
  lemma AbsorbPiece(f: Compression, c: Context, piece: seq<Byte>)
    requires |c.pending| + |piece| <= 64
    ensures Absorb(f, c, piece)
            == if |c.pending| + |piece| < 64 then Context((c.total + 8 * |piece|) % TWO64, c.hash, c.pending + piece)
               else Context((c.total + 8 * |piece|) % TWO64, f(c.hash, c.pending + piece), [])
  {
    var m := c.pending + piece;
    if |m| == 64 {
      assert m[..64] == m && m[64..] == [];
      assert Blocks(f, c.hash, m) == Blocks(f, f(c.hash, m), []);
    }
  }

  lemma AbsorbRest(f: Compression, c: Context, data: seq<Byte>, pos: nat)
    requires pos <= |data|
    ensures Absorb(f, Absorb(f, c, data[..pos]), data[pos..]) == Absorb(f, c, data)
    ensures pos == |data| ==> data[..pos] == data
  {
    assert data[..pos] + data[pos..] == data;
    AbsorbTwice(f, c, data[..pos], data[pos..]);
  }

  lemma AbsorbNext(f: Compression, c: Context, data: seq<Byte>, pos: nat, n: nat)
    requires pos + n <= |data|
    ensures Absorb(f, Absorb(f, c, data[..pos]), data[pos..pos + n]) == Absorb(f, c, data[..pos + n])
  {
    assert data[..pos] + data[pos..pos + n] == data[..pos + n];
    AbsorbTwice(f, c, data[..pos], data[pos..pos + n]);
  }
}
