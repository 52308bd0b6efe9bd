/** Hop distances in a directed graph of routers. */
module Graph {

  /** The neighbours each router has a route to. */
  type Topology = map<nat, set<nat>>

  ghost predicate Closed(g: Topology) {
    forall u {:trigger g[u]} :: u in g ==> g[u] <= g.Keys
  }

  /** `p` lists the routers of a walk, each a neighbour of the one before it. */
  ghost predicate IsWalk(g: Topology, p: seq<nat>) {
    && (forall i :: 0 <= i < |p| ==> p[i] in g)
    && (forall i, j :: 0 <= i && j == i + 1 < |p| ==> p[j] in g[p[i]])
  }

  ghost predicate WalkBetween(g: Topology, u: nat, v: nat, p: seq<nat>) {
    p != [] && p[0] == u && p[|p| - 1] == v && IsWalk(g, p)
  }

  /** `v` can be reached from `u` in exactly `k` hops. */
  ghost predicate Hops(g: Topology, u: nat, v: nat, k: nat) {
    exists p :: WalkBetween(g, u, v, p) && |p| == k + 1
  }

  lemma NoHop(g: Topology, u: nat)
    requires u in g
    ensures Hops(g, u, u, 0)
  {
    assert WalkBetween(g, u, u, [u]);
  }

  lemma NoHopStays(g: Topology, u: nat, v: nat)
    requires Hops(g, u, v, 0)
    ensures u == v && u in g
  {
  }

  lemma OneMoreHop(g: Topology, src: nat, u: nat, v: nat, k: nat)
    requires Hops(g, src, u, k) && v in g && v in g[u]
    ensures Hops(g, src, v, k + 1)
  {
    var p :| WalkBetween(g, src, u, p) && |p| == k + 1;
    assert WalkBetween(g, src, v, p + [v]);
  }

  /** The router before the last of a walk. */
  lemma LastHop(g: Topology, u: nat, v: nat, k: nat) returns (w: nat)
    requires k > 0 && Hops(g, u, v, k)
    ensures Hops(g, u, w, k - 1) && w in g && v in g[w]
  {
    var p :| WalkBetween(g, u, v, p) && |p| == k + 1;
    w := p[k - 1];
    assert WalkBetween(g, u, w, p[..k]);
  }

  /** `d` is the least number of hops from `u` to `v`. */
  ghost predicate Dist(g: Topology, u: nat, v: nat, d: nat) {
    Hops(g, u, v, d) && forall k: nat :: Hops(g, u, v, k) ==> d <= k
  }

  ghost predicate Reaches(g: Topology, u: nat, v: nat) {
    exists k: nat :: Hops(g, u, v, k)
  }

  ghost predicate Connected(g: Topology) {
    forall u, v {:trigger Reaches(g, u, v)} :: u in g && v in g ==> Reaches(g, u, v)
  }

  lemma DistUnique(g: Topology, u: nat, v: nat, d: nat, e: nat)
    requires Dist(g, u, v, d) && Dist(g, u, v, e)
    ensures d == e
  {
  }

  lemma HopsInside(g: Topology, u: nat, v: nat, k: nat)
    requires Hops(g, u, v, k)
    ensures u in g && v in g
  {
  }

  lemma HopsConcat(g: Topology, u: nat, w: nat, v: nat, j: nat, k: nat)
    requires Hops(g, u, w, j) && Hops(g, w, v, k)
    ensures Hops(g, u, v, j + k)
  {
    var p :| WalkBetween(g, u, w, p) && |p| == j + 1;
    var q :| WalkBetween(g, w, v, q) && |q| == k + 1;
    var r := p + q[1..];
    forall a, b | 0 <= a && b == a + 1 < |r| ensures r[b] in g[r[a]] {
      if b <= j {
        assert r[a] == p[a] && r[b] == p[b];
      } else {
        assert r[a] == q[a - j] && r[b] == q[b - j];
      }
    }
    assert WalkBetween(g, u, v, r);
  }

  lemma OneHop(g: Topology, u: nat, v: nat)
    requires u in g && v in g && v in g[u]
    ensures Hops(g, u, v, 1)
  {
    NoHop(g, u);
    OneMoreHop(g, u, u, v, 0);
  }

  /** A walk with one more router in front. */
  lemma HopBefore(g: Topology, p: nat, u: nat, v: nat, k: nat)
    requires p in g && u in g && u in g[p] && Hops(g, u, v, k)
    ensures Hops(g, p, v, k + 1)
  {
    OneHop(g, p, u);
    HopsConcat(g, p, u, v, 1, k);
  }

  /** A router is at distance 0 from itself only. */
  lemma DistZero(g: Topology, u: nat)
    requires u in g
    ensures Dist(g, u, u, 0)
  {
    NoHop(g, u);
  }

  /** Some least number of hops exists below any number of hops. */
  lemma {:induction false} DistExists(g: Topology, u: nat, v: nat, k: nat) returns (d: nat)
    requires Hops(g, u, v, k)
    ensures Dist(g, u, v, d) && d <= k
    decreases k
  {
    if j: nat :| j < k && Hops(g, u, v, j) {
      d := DistExists(g, u, v, j);
    } else {
      d := k;
    }
  }

  ghost predicate Within(g: Topology, u: nat, v: nat, d: int) {
    exists j: nat :: Dist(g, u, v, j) && j <= d
  }

  /** The distance between two routers of a connected topology. */
  ghost function DistOf(g: Topology, u: nat, v: nat): (d: nat)
    requires Connected(g) && u in g && v in g
    ensures Dist(g, u, v, d)
  {
    assert Reaches(g, u, v);
    var k: nat :| Hops(g, u, v, k);
    DistExistsSome(g, u, v, k);
    var d: nat :| Dist(g, u, v, d);
    d
  }

  lemma DistExistsSome(g: Topology, u: nat, v: nat, k: nat)
    requires Hops(g, u, v, k)
    ensures exists d: nat :: Dist(g, u, v, d)
  {
    var d := DistExists(g, u, v, k);
  }

  /** A first hop is exactly one hop nearer. */
  lemma FirstHopNearer(g: Topology, u: nat, v: nat, f: nat)
    requires Connected(g) && Closed(g) && u in g && v in g && IsFirstHop(g, u, v, f)
    ensures f in g && DistOf(g, u, v) == DistOf(g, f, v) + 1
  {
    var d: nat :| Dist(g, u, v, d + 1) && Dist(g, f, v, d);
    HopsInside(g, f, v, d);
    DistUnique(g, u, v, d + 1, DistOf(g, u, v));
    DistUnique(g, f, v, d, DistOf(g, f, v));
  }

  lemma DistOfZero(g: Topology, u: nat, v: nat)
    requires Connected(g) && u in g && v in g
    ensures DistOf(g, u, v) == 0 <==> u == v
  {
    DistZero(g, u);
    if u == v {
      DistUnique(g, u, v, 0, DistOf(g, u, v));
    }
  }

  lemma NotWithin(g: Topology, u: nat, v: nat, d: nat, e: int)
    requires Dist(g, u, v, d) && e < d
    ensures !Within(g, u, v, e)
  {
    forall j: nat | Dist(g, u, v, j) ensures j > e {
      DistUnique(g, u, v, d, j);
    }
  }

  /** The routers nearer than `v` fill every layer, so a distance is less than the number of routers. */
  lemma {:induction false} DistBounded(g: Topology, u: nat, v: nat, d: nat) returns (near: set<nat>)
    requires Dist(g, u, v, d)
    ensures near <= g.Keys && |near| == d + 1
    ensures forall x :: x in near ==> Within(g, u, x, d)
    decreases d
  {
    HopsInside(g, u, v, d);
    if d == 0 {
      near := {v};
    } else {
      var w := LastHop(g, u, v, d);
      PrefixDist(g, u, w, v, d);
      var before := DistBounded(g, u, w, d - 1);
      near := before + {v};
      NotWithin(g, u, v, d, d - 1);
    }
  }

  lemma DistBelowSize(g: Topology, u: nat, v: nat, d: nat)
    requires Dist(g, u, v, d)
    ensures d < |g|
  {
    var near := DistBounded(g, u, v, d);
    Subset(near, g.Keys);
  }

  lemma {:induction false} Subset(a: set<nat>, b: set<nat>)
    requires a <= b
    ensures |a| <= |b|
  {
    if a != {} {
      var x :| x in a;
      Subset(a - {x}, b - {x});
    }
  }

  /** The last router before the end of a shortest path is one hop nearer. */
  lemma PrefixDist(g: Topology, u: nat, w: nat, v: nat, d: nat)
    requires d > 0 && Dist(g, u, v, d) && Hops(g, u, w, d - 1) && w in g && v in g[w]
    ensures Dist(g, u, w, d - 1)
  {
    HopsInside(g, u, v, d);
    forall k: nat | Hops(g, u, w, k) ensures d - 1 <= k {
      OneMoreHop(g, u, w, v, k);
    }
  }

  /** `f` is a neighbour of `u` that lies on a shortest path from `u` to `v`. */
  ghost predicate IsFirstHop(g: Topology, u: nat, v: nat, f: nat) {
    u in g && f in g[u] && exists d: nat :: Dist(g, u, v, d + 1) && Dist(g, f, v, d)
  }

  /** A neighbour from which the rest of a path of least length is left is a first hop. */
  lemma FirstHopFrom(g: Topology, u: nat, v: nat, f: nat, d: nat)
    requires u in g && f in g[u] && d > 0 && Dist(g, u, v, d) && Hops(g, f, v, d - 1)
    ensures IsFirstHop(g, u, v, f) && Dist(g, f, v, d - 1)
  {
    HopsInside(g, f, v, d - 1);
    OneHop(g, u, f);
    forall k: nat | Hops(g, f, v, k) ensures d - 1 <= k {
      HopsConcat(g, u, f, v, 1, k);
    }
    assert Dist(g, u, v, (d - 1) + 1) && Dist(g, f, v, d - 1);
  }
}
