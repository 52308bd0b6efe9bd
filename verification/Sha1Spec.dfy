/** SHA-1 as FIPS 180-4 defines it, on whole messages. */
module Sha1Spec {

  type Byte = bv8
  type Word = bv32

  /** ROTL, section 3.2. */
  function Rotl(x: Word, n: bv6): Word
    requires n <= 32
  {
    (x << n) | (x >> (32 - n))
  }

  // Section 4.1.1
  function Ch(x: Word, y: Word, z: Word): Word { (x & y) ^ (!x & z) }
  function Parity(x: Word, y: Word, z: Word): Word { x ^ y ^ z }
  function Maj(x: Word, y: Word, z: Word): Word { (x & y) ^ (x & z) ^ (y & z) }

  function F(t: nat, x: Word, y: Word, z: Word): Word {
    if t < 20 then Ch(x, y, z)
    else if t < 40 then Parity(x, y, z)
    else if t < 60 then Maj(x, y, z)
    else Parity(x, y, z)
  }

  /** Section 4.2.1. */
  function K(t: nat): Word {
    if t < 20 then 0x5a827999
    else if t < 40 then 0x6ed9eba1
    else if t < 60 then 0x8f1bbcdc
    else 0xca62c1d6
  }

  /** The big-endian word made of four bytes. */
  function BigEndian(b0: Byte, b1: Byte, b2: Byte, b3: Byte): Word {
    ((b0 as Word) << 24) | ((b1 as Word) << 16) | ((b2 as Word) << 8) | (b3 as Word)
  }

  // The word operations as numbers; in 64 bits nothing wraps around

  // A rotation multiplies by a power of two, and what overflows comes in again at the other end.

  lemma RotlOne(x: Word)
    ensures Rotl(x, 1) as bv64 == ((x as bv64) * 2) % 0x1_0000_0000 + (x as bv64) / 0x8000_0000
  {
  }

  lemma RotlFive(x: Word)
    ensures Rotl(x, 5) as bv64 == ((x as bv64) * 32) % 0x1_0000_0000 + (x as bv64) / 0x800_0000
  {
  }

  lemma RotlThirty(x: Word)
    ensures Rotl(x, 30) as bv64 == ((x as bv64) * 0x4000_0000) % 0x1_0000_0000 + (x as bv64) / 4
  {
  }

  lemma BigEndianNumber(b0: Byte, b1: Byte, b2: Byte, b3: Byte)
    ensures BigEndian(b0, b1, b2, b3) as bv64
            == (b0 as bv64) * 0x100_0000 + (b1 as bv64) * 0x1_0000 + (b2 as bv64) * 0x100 + (b3 as bv64)
  {
  }

  /** A block of 512 bits. */
  type Block = b: seq<Byte> | |b| == 64 witness seq(64, _ => 0)

  /** The recurrence of the message schedule, step 1 of section 6.1.2. */
  function Xor4(w3: Word, w8: Word, w14: Word, w16: Word): Word { w3 ^ w8 ^ w14 ^ w16 }

  function Mix(w3: Word, w8: Word, w14: Word, w16: Word): Word {
    Rotl(Xor4(w3, w8, w14, w16), 1)
  }

  function WordAt(block: Block, t: nat): Word
    requires t < 16
  {
    BigEndian(block[4 * t], block[4 * t + 1], block[4 * t + 2], block[4 * t + 3])
  }

  /** A schedule begun with `w`, completed by the recurrence. */
  function Extend(w: seq<Word>): (r: seq<Word>)
    requires 16 <= |w| <= 80
    ensures |r| == 80
    decreases 80 - |w|
  {
    if |w| == 80 then w else Extend(w + [Mix(w[|w| - 3], w[|w| - 8], w[|w| - 14], w[|w| - 16])])
  }

  lemma ExtendNext(w: seq<Word>, next: Word)
    requires 16 <= |w| < 80 && next == Mix(w[|w| - 3], w[|w| - 8], w[|w| - 14], w[|w| - 16])
    ensures Extend(w + [next]) == Extend(w)
  {
  }

  /** The message schedule of a block. */
  function Schedule(block: Block): (w: seq<Word>)
    ensures |w| == 80
  {
    Extend(seq(16, t requires 0 <= t < 16 => WordAt(block, t)))
  }

  /** The schedule is the standard's: sixteen big-endian words, then the recurrence. */
  lemma ScheduleMixes(block: Block, t: nat)
    requires t < 80
    ensures Schedule(block)[t]
            == if t < 16 then WordAt(block, t)
               else Mix(Schedule(block)[t - 3], Schedule(block)[t - 8],
                        Schedule(block)[t - 14], Schedule(block)[t - 16])
  {
    var w := seq(16, t requires 0 <= t < 16 => WordAt(block, t));
    ExtendWords(w, t);
  }

  lemma MixIsRotation(w3: Word, w8: Word, w14: Word, w16: Word)
    ensures var x := w3 ^ w8 ^ w14 ^ w16; Mix(w3, w8, w14, w16) == (x << 1) | (x >> 31)
  {
  }

  /**
    The schedule is the standard's: sixteen big-endian words, then the exclusive
    or of four earlier ones, rotated by one bit.
   */
  lemma ScheduleWords(block: Block, t: nat)
    requires t < 80
    ensures t < 16 ==>
              Schedule(block)[t] as bv64
              == (block[4 * t] as bv64) * 0x100_0000 + (block[4 * t + 1] as bv64) * 0x1_0000
                 + (block[4 * t + 2] as bv64) * 0x100 + (block[4 * t + 3] as bv64)
    ensures t >= 16 ==>
              var w := Schedule(block);
              var x := w[t - 3] ^ w[t - 8] ^ w[t - 14] ^ w[t - 16];
              w[t] == (x << 1) | (x >> 31)
  {
    ScheduleMixes(block, t);
    if t < 16 {
      BigEndianNumber(block[4 * t], block[4 * t + 1], block[4 * t + 2], block[4 * t + 3]);
    } else {
      var w := Schedule(block);
      MixIsRotation(w[t - 3], w[t - 8], w[t - 14], w[t - 16]);
    }
  }

  lemma {:induction false} ExtendWords(w: seq<Word>, t: nat)
    requires 16 <= |w| <= 80 && t < 80
    ensures var r := Extend(w);
            r[t] == if t < |w| then w[t] else Mix(r[t - 3], r[t - 8], r[t - 14], r[t - 16])
    decreases 80 - |w|
  {
    if |w| < 80 {
      var n := |w|;
      var u := w + [Mix(w[n - 3], w[n - 8], w[n - 14], w[n - 16])];
      ExtendWords(u, t);
      ExtendWords(u, n - 3);
      ExtendWords(u, n - 8);
      ExtendWords(u, n - 14);
      ExtendWords(u, n - 16);
    }
  }

  /** Five words: the working variables or a hash value. */
  datatype Five = Five(a: Word, b: Word, c: Word, d: Word, e: Word)

  /** Section 5.3.1. */
  const H0 := Five(0x67452301, 0xefcdab89, 0x98badcfe, 0x10325476, 0xc3d2e1f0)

  function Sum5(p: Word, q: Word, r: Word, s: Word, t: Word): Word { p + q + r + s + t }

  /** One round of step 3 of section 6.1.2, for a given W_t. */
  function Round(t: nat, v: Five, w: Word): Five {
    Five(Sum5(Rotl(v.a, 5), F(t, v.b, v.c, v.d), v.e, K(t), w), v.a, Rotl(v.b, 30), v.c, v.d)
  }

  /** The working variables after the first `n` rounds with schedule `w`. */
  function Rounds(w: seq<Word>, v: Five, n: nat): Five
    requires n <= |w|
  {
    if n == 0 then v else Round(n - 1, Rounds(w, v, n - 1), w[n - 1])
  }

  function Add(x: Word, y: Word): Word { x + y }

  function Plus(u: Five, v: Five): Five {
    Five(Add(u.a, v.a), Add(u.b, v.b), Add(u.c, v.c), Add(u.d, v.d), Add(u.e, v.e))
  }

  /** Steps 1 to 4 of section 6.1.2 for one block. */
  function Compress(h: Five, block: Block): Five {
    var w := Schedule(block);
    Plus(h, Rounds(w, h, |w|))
  }

  // Iterating a compression function `f` over a message

  type Compression = (Five, Block) -> Five

  /** Every full block of `m`, from the hash value `h` on. */
  function Blocks(f: Compression, h: Five, m: seq<Byte>): Five
    decreases |m|
  {
    if |m| < 64 then h else Blocks(f, f(h, m[..64]), m[64..])
  }

  /** What is left of `m` behind its full blocks. */
  function Rest(m: seq<Byte>): (r: seq<Byte>)
    ensures |r| == |m| % 64
    decreases |m|
  {
    if |m| < 64 then m else Rest(m[64..])
  }

  const TWO32: nat := 0x1_0000_0000
  const TWO64: nat := 0x1_0000_0000_0000_0000

  function BigEndian32(x: Word): (r: seq<Byte>)
    ensures |r| == 4
  {
    [((x >> 24) & 0xff) as Byte, ((x >> 16) & 0xff) as Byte, ((x >> 8) & 0xff) as Byte, (x & 0xff) as Byte]
  }

  /** The four bytes of a word, most significant first, make up the word. */
  lemma BigEndian32Number(x: Word)
    ensures var b := BigEndian32(x);
            x as bv64
            == (b[0] as bv64) * 0x100_0000 + (b[1] as bv64) * 0x1_0000 + (b[2] as bv64) * 0x100 + (b[3] as bv64)
  {
    var b := BigEndian32(x);
    assert b[0] == (x >> 24) as Byte && b[3] == (x & 0xff) as Byte;
  }

  /** A 64-bit number as eight bytes: first the upper word, then the lower one. */
  function BigEndian64(n: nat): (r: seq<Byte>)
    requires n < TWO64
    ensures |r| == 8
  {
    BigEndian32((n / TWO32) as Word) + BigEndian32((n % TWO32) as Word)
  }

  /** The bit "1" and the zero bits of section 5.1.1, for a message of `n` bytes. */
  function Filler(n: nat): (r: seq<Byte>)
    ensures (n + |r| + 8) % 64 == 0 && 1 <= |r| <= 64
  {
    [0x80] + seq((119 - n % 64) % 64, _ => 0)
  }

  /** Section 5.1.1: the padded message; its length in bits is taken modulo 2^64. */
  function Padded(m: seq<Byte>): (r: seq<Byte>)
    ensures |r| % 64 == 0
  {
    m + Filler(|m|) + BigEndian64(8 * |m| % TWO64)
  }

  function WordBytes(ws: seq<Word>): (r: seq<Byte>)
    ensures |r| == 4 * |ws|
  {
    if ws == [] then [] else WordBytes(ws[..|ws| - 1]) + BigEndian32(ws[|ws| - 1])
  }

  function Words(h: Five): seq<Word> { [h.a, h.b, h.c, h.d, h.e] }

  function DigestBytes(h: Five): (r: seq<Byte>)
    ensures |r| == 20
  {
    WordBytes(Words(h))
  }

  /** SHA-1 of a message, section 6.1. */
  function Sha1(m: seq<Byte>): (r: seq<Byte>)
    ensures |r| == 20
  {
    DigestBytes(Blocks(Compress, H0, Padded(m)))
  }

  /** Hashing may stop at any point and go on with what is left. */
  lemma {:induction false} BlocksConcat(f: Compression, h: Five, m: seq<Byte>, v: seq<Byte>)
    ensures Blocks(f, h, m + v) == Blocks(f, Blocks(f, h, m), Rest(m) + v)
    ensures Rest(m + v) == Rest(Rest(m) + v)
    decreases |m|
  {
    if |m| >= 64 {
      assert (m + v)[..64] == m[..64] && (m + v)[64..] == m[64..] + v;
      BlocksConcat(f, f(h, m[..64]), m[64..], v);
    }
  }
}
