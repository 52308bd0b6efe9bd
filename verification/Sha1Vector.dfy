/** The digest of "abc": the first example of the standard, and the first line of the self-test in sha.c. */
module Sha1Vector {
  import opened Sha1Spec

  const ABC: seq<Byte> := [0x61, 0x62, 0x63]

  /** Words 5 * k to 5 * k + 4 of the message schedule. */
  function Row(k: nat): (r: seq<Word>)
    requires k < 16
    ensures |r| == 5
  {
    match k
    case 0 => [0x61626380, 0x00000000, 0x00000000, 0x00000000, 0x00000000]
    case 1 => [0x00000000, 0x00000000, 0x00000000, 0x00000000, 0x00000000]
    case 2 => [0x00000000, 0x00000000, 0x00000000, 0x00000000, 0x00000000]
    case 3 => [0x00000018, 0xc2c4c700, 0x00000000, 0x00000030, 0x85898e01]
    case 4 => [0x00000000, 0x00000060, 0x0b131c03, 0x00000030, 0x85898ec1]
    case 5 => [0x16263806, 0x00000000, 0x00000180, 0x2c4c700c, 0x000000f0]
    case 6 => [0x93afb507, 0x5898e048, 0x8e9a9202, 0x00000600, 0xb131c0f0]
    case 7 => [0x16263bc6, 0x4ebed41e, 0x626380a1, 0x16263806, 0x000018c0]
    case 8 => [0xd2e138c4, 0x00000f00, 0x3afb5079, 0x898e04e5, 0xe2ba3c2b]
    case 9 => [0x000060c0, 0x053a37cd, 0x74458547, 0xda9415ed, 0x26380a16]
    case 10 => [0x626383a1, 0x4ebf54de, 0x3835b44b, 0x0000f600, 0x1e84c7a3]
    case 11 => [0x98e04d98, 0x651d16a0, 0x62658ca1, 0x458544d6, 0x44584cb7]
    case 12 => [0x7ba06619, 0x6380aea2, 0x0ae55269, 0x627b49a1, 0x7cd45c9d]
    case 13 => [0x000f0000, 0xfb50753a, 0xec6765e8, 0xba3c2be2, 0x0060c000]
    case 14 => [0x3a37cd05, 0x458546f4, 0xb8599dd6, 0x380a1a26, 0x01e02203]
    case _ => [0xe7cc3456, 0xe6e60b69, 0x00f60a00, 0x5795ef4f, 0x822e0879]
  }

  /** The working variables after 5 * k rounds. */
  function After(k: nat): Five
    requires k <= 16
  {
    match k
    case 0 => Five(0x67452301, 0xefcdab89, 0x98badcfe, 0x10325476, 0xc3d2e1f0)
    case 1 => Five(0xcfd499de, 0xcdd8e11b, 0x284e43c2, 0x626414db, 0xc045bf0c)
    case 2 => Five(0x8351f929, 0x4b6ae328, 0x27a301f5, 0x664f8c30, 0x0ff1f290)
    case 3 => Five(0x196bee77, 0x9128f695, 0x1181ed99, 0x18c623f9, 0x7ef6a7a2)
    case 4 => Five(0xfd9e1d7d, 0xdc64901d, 0x20aa99ca, 0xd3a49608, 0xc82f758b)
    case 5 => Five(0xc7567dc6, 0xd541f12d, 0x884a0d21, 0x0ce88eff, 0x868dec32)
    case 6 => Five(0xc5fbaf5d, 0x8370b52e, 0xd2aa1365, 0x6f8d7ef5, 0x12104ee9)
    case 7 => Five(0x21796ad4, 0x2c0ebc11, 0x811bea82, 0xcee1174c, 0xc499ed01)
    case 8 => Five(0x32de1cba, 0x4c986405, 0xf718e5cf, 0x03d447f6, 0xf72eec32)
    case 9 => Five(0x40f28e09, 0xee1b1aaf, 0x5fc64f71, 0x25c28357, 0xff21f7b7)
    case 10 => Five(0x120731c5, 0xbaf39337, 0xafab40b2, 0x2806e11b, 0x8714787c)
    case 11 => Five(0x7b71f76d, 0x27e9f1d8, 0x792410db, 0x8e11eb59, 0x99076cb3)
    case 12 => Five(0x3f52de5a, 0x09d785fd, 0x3498bfd4, 0xf211824f, 0xd79915ab)
    case 13 => Five(0x19dfa7ac, 0x6b61c9e1, 0xed9b0082, 0x9523272c, 0xf5d5b051)
    case 14 => Five(0x3f2588c2, 0x497093c0, 0xde37534a, 0x030f7cad, 0x4405957e)
    case 15 => Five(0x5ee76897, 0x11793f6f, 0x3b6d0b79, 0xce616779, 0xf0667e31)
    case _ => Five(0x42541b35, 0x5738d5e1, 0x21834873, 0x681e6df6, 0xd8fdf6ad)
  }

  type Mixing = (Word, Word, Word, Word) -> Word

  /** `mix` is the recurrence of the schedule; the proofs about rows need not look into it. */
  ghost predicate IsMix(mix: Mixing) {
    forall x, y, z, u {:trigger mix(x, y, z, u)} :: mix(x, y, z, u) == Mix(x, y, z, u)
  }

  /** All but the first word of row `e` follow from rows `b`, `c` and `d` before it. */
  predicate Follows(mix: Mixing, b: seq<Word>, c: seq<Word>, d: seq<Word>, e: seq<Word>)
    requires |b| == |c| == |d| == |e| == 5
  {
    && e[1] == mix(d[3], c[3], b[2], b[0]) && e[2] == mix(d[4], c[4], b[3], b[1])
    && e[3] == mix(e[0], d[0], b[4], b[2]) && e[4] == mix(e[1], d[1], c[0], b[3])
  }

  /** The first one, with row `a` before them. */
  predicate Starts(mix: Mixing, a: seq<Word>, b: seq<Word>, c: seq<Word>, d: seq<Word>, e: seq<Word>)
    requires |a| == |b| == |c| == |d| == |e| == 5
  {
    e[0] == mix(d[2], c[2], b[1], a[4])
  }

  ghost predicate RowFollows(mix: Mixing, k: nat)
    requires 3 <= k < 16
  {
    && Follows(mix, Row(k - 3), Row(k - 2), Row(k - 1), Row(k))
    && (k > 3 ==> Starts(mix, Row(k - 4), Row(k - 3), Row(k - 2), Row(k - 1), Row(k)))
  }

  function FiveRounds(t: nat, v: Five, w: seq<Word>): Five
    requires |w| == 5
  {
    Round(t + 4, Round(t + 3, Round(t + 2, Round(t + 1, Round(t, v, w[0]), w[1]), w[2]), w[3]), w[4])
  }

  lemma Words15(mix: Mixing, k: nat)
    requires IsMix(mix) && 3 <= k < 8
    ensures RowFollows(mix, k)
  {
    match k
    case 3 =>
    case 4 =>
    case 5 =>
    case 6 =>
    case _ =>
  }

  lemma Words40(mix: Mixing, k: nat)
    requires IsMix(mix) && 8 <= k < 12
    ensures RowFollows(mix, k)
  {
    match k
    case 8 =>
    case 9 =>
    case 10 =>
    case _ =>
  }

  lemma Words60(mix: Mixing, k: nat)
    requires IsMix(mix) && 12 <= k < 16
    ensures RowFollows(mix, k)
  {
    match k
    case 12 =>
    case 13 =>
    case 14 =>
    case _ =>
  }

  lemma Rounds0(k: nat)
    requires 0 <= k < 4
    ensures FiveRounds(5 * k, After(k), Row(k)) == After(k + 1)
  {
    match k
    case 0 =>
    case 1 =>
    case 2 =>
    case _ =>
  }

  lemma Rounds20(k: nat)
    requires 4 <= k < 8
    ensures FiveRounds(5 * k, After(k), Row(k)) == After(k + 1)
  {
    match k
    case 4 =>
    case 5 =>
    case 6 =>
    case _ =>
  }

  lemma Rounds40(k: nat)
    requires 8 <= k < 12
    ensures FiveRounds(5 * k, After(k), Row(k)) == After(k + 1)
  {
    match k
    case 8 =>
    case 9 =>
    case 10 =>
    case _ =>
  }

  lemma Rounds60(k: nat)
    requires 12 <= k < 16
    ensures FiveRounds(5 * k, After(k), Row(k)) == After(k + 1)
  {
    match k
    case 12 =>
    case 13 =>
    case 14 =>
    case _ =>
  }

  // The padded message

  lemma LengthBytes(n: nat)
    requires n == 24
    ensures BigEndian64(n) == [0, 0, 0, 0, 0, 0, 0, 0x18]
  {
    assert n / TWO32 == 0 && n % TWO32 == 24;
    assert (n / TWO32) as Word == 0 && (n % TWO32) as Word == 0x18;
  }

  /** The bytes of the one block. */
  ghost predicate IsAbcBlock(b: seq<Byte>) {
    && |b| == 64 && b[0] == 0x61 && b[1] == 0x62 && b[2] == 0x63 && b[3] == 0x80 && b[63] == 0x18
    && forall i {:trigger b[i]} :: 4 <= i < 63 ==> b[i] == 0
  }

  lemma BlockBytes(p: seq<Byte>, fill: seq<Byte>, length: seq<Byte>)
    requires p == ABC + fill + length && |fill| == 53 && length == [0, 0, 0, 0, 0, 0, 0, 0x18]
    requires fill[0] == 0x80 && forall i {:trigger fill[i]} :: 1 <= i < 53 ==> fill[i] == 0
    ensures IsAbcBlock(p)
  {
    forall i | 4 <= i < 63 ensures p[i] == 0 {
      assert p[i] == if i < 56 then fill[i - 3] else length[i - 56];
    }
  }

  lemma PaddedParts(m: seq<Byte>, n: nat, length: seq<Byte>)
    requires n == 8 * |m| % TWO64 && length == BigEndian64(n)
    ensures Padded(m) == m + Filler(|m|) + length
  {
  }

  lemma AbcPadded()
    ensures IsAbcBlock(Padded(ABC))
  {
    var n := 8 * |ABC| % TWO64;
    LengthBytes(n);
    PaddedParts(ABC, n, [0, 0, 0, 0, 0, 0, 0, 0x18]);
    BlockBytes(Padded(ABC), Filler(|ABC|), [0, 0, 0, 0, 0, 0, 0, 0x18]);
  }

  /** Five words of `w` from index `at` on. */
  ghost predicate Shows(w: seq<Word>, at: nat, r: seq<Word>)
    requires at + 5 <= |w| && |r| == 5
  {
    w[at] == r[0] && w[at + 1] == r[1] && w[at + 2] == r[2] && w[at + 3] == r[3] && w[at + 4] == r[4]
  }

  /** Row `k` of a schedule is the table's. */
  ghost predicate RowIs(w: seq<Word>, k: nat)
    requires |w| == 80 && k < 16
  {
    Shows(w, 5 * k, Row(k))
  }

  lemma FirstWords(block: Block, t: nat)
    requires t < 16 && IsAbcBlock(block)
    ensures Schedule(block)[t] == if t == 0 then 0x61626380 else if t == 15 then 0x18 else 0
  {
    ScheduleMixes(block, t);
  }

  lemma FirstRows(block: Block, k: nat)
    requires k < 3 && IsAbcBlock(block)
    ensures RowIs(Schedule(block), k)
  {
    FirstWords(block, 5 * k);
    FirstWords(block, 5 * k + 1);
    FirstWords(block, 5 * k + 2);
    FirstWords(block, 5 * k + 3);
    FirstWords(block, 5 * k + 4);
  }

  lemma TableFollows(mix: Mixing, k: nat)
    requires IsMix(mix) && 3 <= k < 16
    ensures RowFollows(mix, k)
  {
    if k < 8 {
      Words15(mix, k);
    } else if k < 12 {
      Words40(mix, k);
    } else {
      Words60(mix, k);
    }
  }

  ghost predicate Recurs(mix: Mixing, w: seq<Word>, t: nat)
    requires |w| == 80 && 16 <= t < 80
  {
    w[t] == mix(w[t - 3], w[t - 8], w[t - 14], w[t - 16])
  }

  /** What the recurrence makes of four rows, or of three and the first word of the next one. */
  lemma NextRow(mix: Mixing, w: seq<Word>, at: nat, b: seq<Word>, c: seq<Word>, d: seq<Word>, e: seq<Word>)
    requires |w| == 80 && 15 <= at <= 75 && |b| == |c| == |d| == |e| == 5
    requires Shows(w, at - 15, b) && Shows(w, at - 10, c) && Shows(w, at - 5, d) && Follows(mix, b, c, d, e)
    requires forall t {:trigger Recurs(mix, w, t)} :: 16 <= t < 80 ==> Recurs(mix, w, t)
    requires w[at] == e[0]
    ensures Shows(w, at, e)
  {
    assert Recurs(mix, w, at + 1) && Recurs(mix, w, at + 2) && Recurs(mix, w, at + 3) && Recurs(mix, w, at + 4);
  }

  lemma FirstOfRow(mix: Mixing, w: seq<Word>, at: nat,
                   a: seq<Word>, b: seq<Word>, c: seq<Word>, d: seq<Word>, e: seq<Word>)
    requires |w| == 80 && 20 <= at <= 75 && |a| == |b| == |c| == |d| == |e| == 5
    requires Shows(w, at - 20, a) && Shows(w, at - 15, b) && Shows(w, at - 10, c) && Shows(w, at - 5, d)
    requires forall t {:trigger Recurs(mix, w, t)} :: 16 <= t < 80 ==> Recurs(mix, w, t)
    requires Starts(mix, a, b, c, d, e)
    ensures w[at] == e[0]
  {
    assert Recurs(mix, w, at);
  }

  lemma RowAfter(mix: Mixing, w: seq<Word>, k: nat)
    requires |w| == 80 && 3 <= k < 16 && RowFollows(mix, k)
    requires RowIs(w, k - 3) && RowIs(w, k - 2) && RowIs(w, k - 1)
    requires if k == 3 then w[15] == Row(3)[0] else RowIs(w, k - 4)
    requires forall t {:trigger Recurs(mix, w, t)} :: 16 <= t < 80 ==> Recurs(mix, w, t)
    ensures RowIs(w, k)
  {
    if k > 3 {
      FirstOfRow(mix, w, 5 * k, Row(k - 4), Row(k - 3), Row(k - 2), Row(k - 1), Row(k));
    }
    NextRow(mix, w, 5 * k, Row(k - 3), Row(k - 2), Row(k - 1), Row(k));
  }

  /** A schedule that begins like the table and follows the recurrence is the table. */
  lemma {:induction false} TableRow(mix: Mixing, w: seq<Word>, k: nat)
    requires |w| == 80 && k < 16
    requires RowIs(w, 0) && RowIs(w, 1) && RowIs(w, 2) && w[15] == Row(3)[0]
    requires forall t {:trigger Recurs(mix, w, t)} :: 16 <= t < 80 ==> Recurs(mix, w, t)
    requires forall r {:trigger RowFollows(mix, r)} :: 3 <= r < 16 ==> RowFollows(mix, r)
    ensures RowIs(w, k)
  {
    if k >= 3 {
      TableRow(mix, w, k - 3);
      TableRow(mix, w, k - 2);
      TableRow(mix, w, k - 1);
      if k > 3 {
        TableRow(mix, w, k - 4);
      }
      RowAfter(mix, w, k);
    }
  }

  lemma ScheduleRow(block: Block, k: nat)
    requires k < 16 && IsAbcBlock(block)
    ensures RowIs(Schedule(block), k)
  {
    var mix: Mixing := (x, y, z, u) => Mix(x, y, z, u);
    var w := Schedule(block);
    FirstRows(block, 0);
    FirstRows(block, 1);
    FirstRows(block, 2);
    FirstWords(block, 15);
    forall t | 16 <= t < 80 ensures Recurs(mix, w, t) {
      ScheduleMixes(block, t);
    }
    forall r | 3 <= r < 16 ensures RowFollows(mix, r) {
      TableFollows(mix, r);
    }
    TableRow(mix, w, k);
  }

  // The rounds

  lemma FiveMore(w: seq<Word>, h: Five, n: nat, five: seq<Word>)
    requires n + 5 <= |w| && |five| == 5 && Shows(w, n, five)
    ensures Rounds(w, h, n + 5) == FiveRounds(n, Rounds(w, h, n), five)
  {
    assert Rounds(w, h, n + 5) == Round(n + 4, Rounds(w, h, n + 4), w[n + 4]);
    assert Rounds(w, h, n + 4) == Round(n + 3, Rounds(w, h, n + 3), w[n + 3]);
    assert Rounds(w, h, n + 3) == Round(n + 2, Rounds(w, h, n + 2), w[n + 2]);
    assert Rounds(w, h, n + 2) == Round(n + 1, Rounds(w, h, n + 1), w[n + 1]);
  }

  lemma FiveOfTable(k: nat)
    requires k < 16
    ensures FiveRounds(5 * k, After(k), Row(k)) == After(k + 1)
  {
    if k < 4 {
      Rounds0(k);
    } else if k < 8 {
      Rounds20(k);
    } else if k < 12 {
      Rounds40(k);
    } else {
      Rounds60(k);
    }
  }

  lemma FiveMoreTo(w: seq<Word>, n: nat, five: seq<Word>, u: Five, v: Five)
    requires n + 5 <= |w| && |five| == 5 && Shows(w, n, five)
    requires Rounds(w, H0, n) == u && FiveRounds(n, u, five) == v
    ensures Rounds(w, H0, n + 5) == v
  {
    FiveMore(w, H0, n, five);
  }

  lemma NextFive(w: seq<Word>, k: nat)
    requires k < 16 && |w| == 80 && RowIs(w, k) && Rounds(w, H0, 5 * k) == After(k)
    ensures Rounds(w, H0, 5 * (k + 1)) == After(k + 1)
  {
    FiveOfTable(k);
    FiveMoreTo(w, 5 * k, Row(k), After(k), After(k + 1));
  }

  lemma {:induction false} RoundsAfter(w: seq<Word>, k: nat)
    requires k <= 16 && |w| == 80
    requires forall r {:trigger RowIs(w, r)} :: 0 <= r < 16 ==> RowIs(w, r)
    ensures Rounds(w, H0, 5 * k) == After(k)
  {
    if k > 0 {
      RoundsAfter(w, k - 1);
      assert RowIs(w, k - 1);
      NextFive(w, k - 1);
    }
  }

  lemma CompressAbc(block: Block)
    requires IsAbcBlock(block)
    ensures Compress(H0, block) == Plus(H0, After(16))
  {
    var w := Schedule(block);
    forall r | 0 <= r < 16 ensures RowIs(w, r) {
      ScheduleRow(block, r);
    }
    RoundsAfter(w, 16);
  }

  lemma OneBlock(f: Compression, h: Five, block: Block)
    ensures Blocks(f, h, block) == f(h, block)
  {
    assert block[..64] == block && block[64..] == [];
  }

  lemma WordBytesNext(ws: seq<Word>, x: Word)
    ensures WordBytes(ws + [x]) == WordBytes(ws) + BigEndian32(x)
  {
    assert (ws + [x])[..|ws|] == ws;
  }

  lemma ThreeWords(a: Word, b: Word, c: Word)
    ensures WordBytes([a, b, c]) == BigEndian32(a) + BigEndian32(b) + BigEndian32(c)
  {
    WordBytesNext([], a);
    WordBytesNext([a], b);
    WordBytesNext([a, b], c);
    assert [] + [a] == [a] && [a] + [b] == [a, b] && [a, b] + [c] == [a, b, c];
  }

  lemma FiveWords(v: Five)
    ensures DigestBytes(v)
            == BigEndian32(v.a) + BigEndian32(v.b) + BigEndian32(v.c) + BigEndian32(v.d) + BigEndian32(v.e)
  {
    var three := [v.a, v.b, v.c];
    ThreeWords(v.a, v.b, v.c);
    WordBytesNext(three, v.d);
    WordBytesNext(three + [v.d], v.e);
    assert three + [v.d] + [v.e] == Words(v);
  }

  lemma LastBytes()
    ensures DigestBytes(Plus(H0, After(16)))
            == [0xa9, 0x99, 0x3e, 0x36, 0x47, 0x06, 0x81, 0x6a, 0xba, 0x3e,
                          0x25, 0x71, 0x78, 0x50, 0xc2, 0x6c, 0x9c, 0xd0, 0xd8, 0x9d]
  {
    FiveWords(Plus(H0, After(16)));
  }

  /** The example of the standard: the digest of "abc". */
  lemma DigestOfAbc()
    ensures Sha1(ABC)
            == [0xa9, 0x99, 0x3e, 0x36, 0x47, 0x06, 0x81, 0x6a, 0xba, 0x3e,
                          0x25, 0x71, 0x78, 0x50, 0xc2, 0x6c, 0x9c, 0xd0, 0xd8, 0x9d]
  {
    AbcPadded();
    OneBlock(Compress, H0, Padded(ABC));
    CompressAbc(Padded(ABC));
    LastBytes();
  }
}
