/**
  What the receive window means: after any run of arrivals it is the sorted
  form of the cumulative acknowledgement and the numbers received above it, and
  the acknowledgement is the end of the run that starts at the seed, the number
  that arrived first.
 */
module ReceiverWindow {
  import opened BufferSpec

  lemma {:induction false} SpotInSorted(w: seq<Packet>, num: nat, i: nat)
    requires Sorted(w) && i < |w| && w[i].num <= num
    ensures Spot(w, num, i) == -1 <==> exists j :: i <= j < |w| && w[j].num == num
    ensures Spot(w, num, i) != -1 ==>
              var k := Spot(w, num, i);
              w[k - 1].num < num && (k < |w| ==> num < w[k].num)
    decreases |w| - i
  {
    if num > w[i].num && i + 1 < |w| && num >= w[i + 1].num {
      SpotInSorted(w, num, i + 1);
    }
  }

  lemma NumsOfConcat(v: seq<Packet>, w: seq<Packet>)
    ensures Nums(v + w) == Nums(v) + Nums(w)
  {
    forall q | q in v + w ensures q in v || q in w {}
    forall k | k in Nums(v) + Nums(w) ensures k in Nums(v + w) {
      var q :| (q in v || q in w) && q.num == k;
      assert q in v + w;
    }
  }

  lemma NumsOfOne(p: Packet)
    ensures Nums([p]) == {p.num}
  {
    assert p in [p];
  }

  lemma NumsOfInserted(w: seq<Packet>, k: nat, p: Packet)
    requires k <= |w|
    ensures Nums(w[..k] + [p] + w[k..]) == Nums(w) + {p.num}
    ensures forall q :: q in w[..k] + [p] + w[k..] ==> q in w || q == p
  {
    NumsOfOne(p);
    NumsOfConcat(w[..k] + [p], w[k..]);
    NumsOfConcat(w[..k], [p]);
    NumsOfConcat(w[..k], w[k..]);
    assert w == w[..k] + w[k..];
  }

  lemma SortedInserted(w: seq<Packet>, k: nat, p: Packet)
    requires Sorted(w) && 0 < k <= |w|
    requires w[k - 1].num < p.num && (k < |w| ==> p.num < w[k].num)
    ensures Sorted(w[..k] + [p] + w[k..])
  {
    var r := w[..k] + [p] + w[k..];
    forall i, j | 0 <= i < j < |r| ensures r[i].num < r[j].num {
      assert r[i] == if i < k then w[i] else if i == k then p else w[i - 1];
      assert r[j] == if j < k then w[j] else if j == k then p else w[j - 1];
    }
  }

  /** insert_entry keeps the order and adds exactly the new number, unless it lies below the head. */
  lemma InsertSorted(w: seq<Packet>, p: Packet)
    requires Sorted(w)
    ensures Sorted(Insert(w, p))
    ensures Nums(Insert(w, p)) == if w != [] && p.num < w[0].num then Nums(w) else Nums(w) + {p.num}
    ensures w != [] ==> Insert(w, p)[0] == w[0]
    ensures forall q :: q in Insert(w, p) ==> q in w || q == p
  {
    if w == [] {
      NumsOfOne(p);
    } else if p.num >= w[0].num {
      SpotInSorted(w, p.num, 0);
      var k := Spot(w, p.num, 0);
      if k != -1 {
        NumsOfInserted(w, k, p);
        SortedInserted(w, k, p);
      }
    }
  }

  lemma {:induction false} AckSuffixStart(w: seq<Packet>) returns (j: nat)
    requires w != []
    ensures j < |w| && AckSuffix(w) == w[j..]
    ensures forall i :: 0 <= i <= j ==> w[i].num == w[0].num + i
    ensures j + 1 < |w| ==> w[j + 1].num != w[j].num + 1
  {
    if |w| > 1 && w[1].num == w[0].num + 1 {
      var k := AckSuffixStart(w[1..]);
      j := k + 1;
      assert w[1..][k..] == w[j..];
      forall i | 0 <= i <= j ensures w[i].num == w[0].num + i {
        assert i == 0 || w[i] == w[1..][i - 1];
      }
    } else {
      j := 0;
      assert w == w[0..];
    }
  }

  /** find_ack walks to the end of the first run and keeps what lies from there on. */
  lemma AckSuffixMeaning(w: seq<Packet>)
    requires w != [] && Sorted(w)
    ensures var r := AckSuffix(w);
            && Sorted(r)
            && w[0].num <= r[0].num
            && (forall k :: w[0].num <= k <= r[0].num ==> k in Nums(w))
            && r[0].num + 1 !in Nums(w)
            && (forall k :: k in Nums(r) <==> k in Nums(w) && k >= r[0].num)
            && (forall q :: q in r ==> q in w)
  {
    var j := AckSuffixStart(w);
    SuffixNums(w, j);
    RunNums(w, j);
  }

  lemma RunNums(w: seq<Packet>, j: nat)
    requires Sorted(w) && j < |w|
    requires forall i :: 0 <= i <= j ==> w[i].num == w[0].num + i
    requires j + 1 < |w| ==> w[j + 1].num != w[j].num + 1
    ensures forall k :: w[0].num <= k <= w[j].num ==> k in Nums(w)
    ensures w[j].num + 1 !in Nums(w)
  {
    forall k | w[0].num <= k <= w[j].num ensures k in Nums(w) {
      assert w[k - w[0].num] in w;
    }
    forall i | 0 <= i < |w| ensures w[i].num != w[j].num + 1 {
      if j < i {
        assert w[j].num < w[j + 1].num <= w[i].num;
      }
    }
  }

  lemma SuffixNums(w: seq<Packet>, j: nat)
    requires Sorted(w) && j < |w|
    ensures Sorted(w[j..]) && forall q :: q in w[j..] ==> q in w
    ensures forall k :: k in Nums(w[j..]) <==> k in Nums(w) && k >= w[j].num
  {
    assert w == w[..j] + w[j..];
    NumsOfConcat(w[..j], w[j..]);
  }

  ghost predicate Filled(got: set<nat>, from: nat, to: nat) {
    forall k :: from <= k <= to ==> k in got
  }

  /** Besides its head the window shows exactly the arrivals above it. */
  ghost predicate KeptAbove(w: seq<Packet>, got: set<nat>)
    requires w != []
  {
    forall k :: k in Nums(w) <==> k == w[0].num || (k in got && k > w[0].num)
  }

  /**
    `w` is what the receiver keeps after the numbers in `got` arrived, `seed` first.
   */
  ghost predicate Keeps(w: seq<Packet>, got: set<nat>, seed: nat) {
    && w != [] && Sorted(w)
    && seed <= w[0].num
    && Filled(got, seed, w[0].num)
    && w[0].num + 1 !in got
    && KeptAbove(w, got)
  }

  lemma FirstArrival(p: Packet)
    ensures Receive([], p) == [p] && Keeps([p], {p.num}, p.num)
  {
    NumsOfOne(p);
  }

  /** `i` is `w` with number `num` inserted, unless it lies below the head. */
  ghost predicate Extends(w: seq<Packet>, num: nat, i: seq<Packet>) {
    && w != [] && i != [] && i[0] == w[0]
    && Nums(i) == if num < w[0].num then Nums(w) else Nums(w) + {num}
  }

  /** `r` is what is left of `i` from the end of its first run on. */
  ghost predicate FromRunEnd(i: seq<Packet>, r: seq<Packet>) {
    && i != [] && r != [] && i[0].num <= r[0].num
    && Filled(Nums(i), i[0].num, r[0].num)
    && r[0].num + 1 !in Nums(i)
    && (forall k :: k in Nums(r) <==> k in Nums(i) && k >= r[0].num)
  }

  lemma RunArrived(w: seq<Packet>, got: set<nat>, seed: nat, num: nat, i: seq<Packet>, r: seq<Packet>)
    requires Keeps(w, got, seed) && Extends(w, num, i) && FromRunEnd(i, r)
    ensures Filled(got + {num}, seed, r[0].num)
  {
    forall k | seed <= k <= r[0].num ensures k in got + {num} {
      assert k < w[0].num || k in Nums(i);
    }
  }

  lemma RunEnds(w: seq<Packet>, got: set<nat>, seed: nat, num: nat, i: seq<Packet>, r: seq<Packet>)
    requires Keeps(w, got, seed) && Extends(w, num, i) && FromRunEnd(i, r)
    ensures r[0].num + 1 !in got + {num}
  {
    assert r[0].num + 1 in Nums(w) <==> r[0].num + 1 in got;
  }

  lemma RestKept(w: seq<Packet>, got: set<nat>, seed: nat, num: nat, i: seq<Packet>, r: seq<Packet>)
    requires Keeps(w, got, seed) && Extends(w, num, i) && FromRunEnd(i, r)
    ensures KeptAbove(r, got + {num})
  {
    assert r[0] in r;
    forall k ensures k in Nums(r) <==> k == r[0].num || (k in got + {num} && k > r[0].num) {
      assert k in Nums(w) <==> k == w[0].num || (k in got && k > w[0].num);
    }
  }

  lemma ExtendedKeeps(w: seq<Packet>, got: set<nat>, seed: nat, num: nat, i: seq<Packet>, r: seq<Packet>)
    requires Keeps(w, got, seed) && Extends(w, num, i) && FromRunEnd(i, r) && Sorted(r)
    ensures Keeps(r, got + {num}, seed) && w[0].num <= r[0].num
  {
    RunArrived(w, got, seed, num, i, r);
    RunEnds(w, got, seed, num, i, r);
    RestKept(w, got, seed, num, i, r);
  }

  lemma InsertThenAck(w: seq<Packet>, p: Packet) returns (i: seq<Packet>, r: seq<Packet>)
    requires w != [] && Sorted(w)
    ensures r == Receive(w, p) && Sorted(r) && Extends(w, p.num, i) && FromRunEnd(i, r)
    ensures forall q :: q in r ==> q in w || q == p
  {
    i := Insert(w, p);
    r := Receive(w, p);
    InsertSorted(w, p);
    AckSuffixMeaning(i);
  }

  /** One insert_entry; find_ack pair on a seeded window; the acknowledgement never falls. */
  lemma LaterArrival(w: seq<Packet>, got: set<nat>, seed: nat, p: Packet)
    requires Keeps(w, got, seed)
    ensures Keeps(Receive(w, p), got + {p.num}, seed)
    ensures w[0].num <= Receive(w, p)[0].num
    ensures forall q :: q in Receive(w, p) ==> q in w || q == p
  {
    var i, r := InsertThenAck(w, p);
    ExtendedKeeps(w, got, seed, p.num, i, r);
  }

  /** The receive window after the arrivals `ps`, from an empty one. */
  ghost function ReceiveAll(ps: seq<Packet>): seq<Packet> {
    if ps == [] then [] else Receive(ReceiveAll(ps[..|ps| - 1]), ps[|ps| - 1])
  }

  /** For every run of arrivals the window is the sorted form of what it should hold. */
  lemma {:induction false} ReceiverRefinement(ps: seq<Packet>)
    requires ps != []
    ensures Keeps(ReceiveAll(ps), Nums(ps), ps[0].num)
    ensures forall q :: q in ReceiveAll(ps) ==> q in ps
  {
    var n := |ps| - 1;
    assert ps == ps[..n] + [ps[n]];
    NumsOfOne(ps[n]);
    if n == 0 {
      assert ps == [ps[0]];
      FirstArrival(ps[0]);
    } else {
      NumsOfConcat(ps[..n], [ps[n]]);
      ReceiverRefinement(ps[..n]);
      LaterArrival(ReceiveAll(ps[..n]), Nums(ps[..n]), ps[0].num, ps[n]);
    }
  }

  lemma SameHead(v: seq<Packet>, w: seq<Packet>, got: set<nat>, seed: nat)
    requires Keeps(v, got, seed) && Keeps(w, got, seed)
    ensures v[0].num >= w[0].num
  {
    assert v[0].num + 1 !in got;
  }

  /** Two windows that keep the same arrivals show the same numbers in the same order. */
  lemma {:induction false} KeepsDetermines(v: seq<Packet>, w: seq<Packet>, got: set<nat>, seed: nat)
    requires Keeps(v, got, seed) && Keeps(w, got, seed)
    ensures |v| == |w| && forall i :: 0 <= i < |v| ==> v[i].num == w[i].num
  {
    SameHead(v, w, got, seed);
    SameHead(w, v, got, seed);
    assert Nums(v) == Nums(w);
    SortedDetermined(v, w);
  }

  lemma {:induction false} SortedDetermined(v: seq<Packet>, w: seq<Packet>)
    requires Sorted(v) && Sorted(w) && Nums(v) == Nums(w)
    ensures |v| == |w| && forall i :: 0 <= i < |v| ==> v[i].num == w[i].num
  {
    if v == [] {
      assert w != [] ==> w[0].num in Nums(w);
    } else {
      assert v[0].num in Nums(w) && w != [];
      assert w[0].num in Nums(v);
      assert v[0].num == w[0].num;
      NumsOfTail(v);
      NumsOfTail(w);
      SortedDetermined(v[1..], w[1..]);
    }
  }

  lemma NumsOfTail(w: seq<Packet>)
    requires w != [] && Sorted(w)
    ensures Nums(w[1..]) == Nums(w) - {w[0].num}
  {
    assert w == [w[0]] + w[1..];
    NumsOfOne(w[0]);
    NumsOfConcat([w[0]], w[1..]);
  }

  /**
    "Ack n means 1..n arrived" holds after a run of arrivals if and only if
    nothing below the seed is missing: the window alone does not enforce it.
   */
  lemma AckMeansAllArrived(ps: seq<Packet>)
    requires ps != []
    ensures (forall k :: 1 <= k <= ReceiveAll(ps)[0].num ==> k in Nums(ps))
            <==> (forall k :: 1 <= k < ps[0].num ==> k in Nums(ps))
  {
    ReceiverRefinement(ps);
  }

  /** It does fail: a lone first arrival above 1 is acknowledged as if everything below it had arrived. */
  lemma UnseededAck(p: Packet)
    requires p.num > 1
    ensures ReceiveAll([p])[0].num == p.num && 1 !in Nums([p])
    ensures !forall k :: 1 <= k <= ReceiveAll([p])[0].num ==> k in Nums([p])
  {
    FirstArrival(p);
    NumsOfOne(p);
    assert [p][..0] == [];
    AckMeansAllArrived([p]);
  }
}
