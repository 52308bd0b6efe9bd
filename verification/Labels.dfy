/** The labelling that createTable computes, as values: what relaxing and selecting keep, and what the end means. */
module Labels {
  import opened Graph

  const INFINITY: nat := 65535

  /** Tentative distances, predecessors and the routers already visited. */
  datatype Labelling = Labelling(dist: map<nat, nat>, pred: map<nat, nat>, done: set<nat>)

  /** `v` is reached from `u`. */
  function Improved(l: Labelling, u: nat, v: nat): Labelling
    requires u in l.dist
  {
    Labelling(l.dist[v := l.dist[u] + 1], l.pred[v := u], l.done)
  }

  /** `v` is reached from `u`, if that is shorter. */
  function Relaxed(l: Labelling, u: nat, v: nat): Labelling
    requires u in l.dist && v in l.dist
  {
    if l.dist[v] > l.dist[u] + 1 then Improved(l, u, v) else l
  }

  ghost predicate InRange(g: Topology, src: nat, l: Labelling, fixed: set<nat>) {
    && Closed(g) && src in g
    && l.dist.Keys == g.Keys
    && l.done <= g.Keys && fixed <= g.Keys
    && l.dist[src] == 0
    && (forall v {:trigger l.dist[v]} :: v in g ==> l.dist[v] <= INFINITY)
  }

  /** Every finite label is the length of a walk. */
  ghost predicate Walked(g: Topology, src: nat, dist: map<nat, nat>)
    requires dist.Keys == g.Keys
  {
    forall v {:trigger dist[v]} :: v in g && dist[v] < INFINITY ==> Hops(g, src, v, dist[v])
  }

  /** The predecessor of `v` is one hop nearer, and its own label is among the `fixed` ones, which no longer change. */
  ghost predicate LinkedAt(g: Topology, l: Labelling, fixed: set<nat>, v: nat)
    requires l.dist.Keys == g.Keys && fixed <= g.Keys && v in g
  {
    v in l.pred && l.pred[v] in fixed && v in g[l.pred[v]] && l.dist[v] == l.dist[l.pred[v]] + 1
  }

  ghost predicate Linked(g: Topology, src: nat, l: Labelling, fixed: set<nat>)
    requires l.dist.Keys == g.Keys && fixed <= g.Keys
  {
    forall v {:trigger LinkedAt(g, l, fixed, v)} ::
      v in g && v != src && l.dist[v] < INFINITY ==> LinkedAt(g, l, fixed, v)
  }

  ghost predicate Sound(g: Topology, src: nat, l: Labelling, fixed: set<nat>) {
    InRange(g, src, l, fixed) && Linked(g, src, l, fixed)
  }

  /** `u` has passed its distance on to the routers in `seen`. */
  ghost predicate PassedOn(g: Topology, dist: map<nat, nat>, u: nat, seen: set<nat>)
    requires dist.Keys == g.Keys && u in g
  {
    forall v :: v in seen && v in g ==> dist[v] <= dist[u] + 1
  }

  /** No unvisited router is nearer than `u`. */
  ghost predicate NotBeyond(g: Topology, dist: map<nat, nat>, done: set<nat>, u: nat)
    requires dist.Keys == g.Keys && u in g
  {
    forall v :: v in g && v !in done ==> dist[u] <= dist[v]
  }

  /** Visited routers have passed their distance on, and none of them is farther than an unvisited one. */
  ghost predicate Settled(g: Topology, dist: map<nat, nat>, done: set<nat>)
    requires Closed(g) && dist.Keys == g.Keys && done <= g.Keys
  {
    && (forall u {:trigger PassedOn(g, dist, u, g[u])} :: u in done ==> PassedOn(g, dist, u, g[u]))
    && (forall u {:trigger NotBeyond(g, dist, done, u)} :: u in done ==> NotBeyond(g, dist, done, u))
  }

  /** Between two visits. */
  ghost predicate Good(g: Topology, src: nat, l: Labelling) {
    Sound(g, src, l, l.done) && Settled(g, l.dist, l.done)
  }

  ghost predicate Nearest(g: Topology, dist: map<nat, nat>, done: set<nat>, cur: nat)
    requires dist.Keys == g.Keys
  {
    cur in g && cur !in done && NotBeyond(g, dist, done, cur)
  }

  /** During the visit of `cur`, a nearest unvisited router, after its routes to `seen` were looked at. */
  ghost predicate Visiting(g: Topology, src: nat, l: Labelling, cur: nat, seen: set<nat>) {
    && cur in g
    && Sound(g, src, l, l.done + {cur}) && Settled(g, l.dist, l.done)
    && Nearest(g, l.dist, l.done, cur) && PassedOn(g, l.dist, cur, seen)
  }

  lemma InitialGood(g: Topology, src: nat, l: Labelling)
    requires Closed(g) && src in g && l.dist == (map v | v in g :: if v == src then 0 else INFINITY) && l.done == {}
    ensures Good(g, src, l) && Walked(g, src, l.dist)
  {
    NoHop(g, src);
  }

  lemma VisitStarts(g: Topology, src: nat, l: Labelling, cur: nat)
    requires Good(g, src, l) && Nearest(g, l.dist, l.done, cur)
    ensures Visiting(g, src, l, cur, {})
  {
    forall v | v in g && v != src && l.dist[v] < INFINITY ensures LinkedAt(g, l, l.done + {cur}, v) {
      assert LinkedAt(g, l, l.done, v);
    }
  }

  lemma RelaxWalked(g: Topology, src: nat, l: Labelling, cur: nat, v: nat)
    requires l.dist.Keys == g.Keys && cur in g && v in g && v in g[cur] && l.dist[v] <= INFINITY
    requires Walked(g, src, l.dist)
    ensures Walked(g, src, Relaxed(l, cur, v).dist)
  {
    var dist := Relaxed(l, cur, v).dist;
    forall x | x in g && dist[x] < INFINITY ensures Hops(g, src, x, dist[x]) {
      if dist[x] != l.dist[x] {
        OneMoreHop(g, src, cur, v, l.dist[cur]);
      }
    }
  }

  lemma RelaxLinked(g: Topology, src: nat, l: Labelling, fixed: set<nat>, cur: nat, v: nat)
    requires l.dist.Keys == g.Keys && fixed <= g.Keys && cur in fixed && v in g && v in g[cur] && v !in fixed
    requires Linked(g, src, l, fixed) && l.dist[cur] + 1 < l.dist[v]
    ensures Linked(g, src, Improved(l, cur, v), fixed)
  {
    var r := Improved(l, cur, v);
    forall w | w in g && w != src && r.dist[w] < INFINITY ensures LinkedAt(g, r, fixed, w) {
      if w != v {
        assert LinkedAt(g, l, fixed, w);
      }
    }
  }

  lemma RelaxSettled(g: Topology, dist: map<nat, nat>, done: set<nat>, cur: nat, seen: set<nat>, v: nat)
    requires Closed(g) && dist.Keys == g.Keys && done <= g.Keys && cur in g && v in g
    requires Settled(g, dist, done) && Nearest(g, dist, done, cur) && PassedOn(g, dist, cur, seen)
    requires dist[cur] + 1 < dist[v]
    ensures var d := dist[v := dist[cur] + 1];
            v !in done && v != cur && Settled(g, d, done) && Nearest(g, d, done, cur) && PassedOn(g, d, cur, seen + {v})
  {
    var d := dist[v := dist[cur] + 1];
    assert v !in done by {
      assert v in done ==> NotBeyond(g, dist, done, v);
    }
    forall u | u in done ensures PassedOn(g, d, u, g[u]) && NotBeyond(g, d, done, u) {
      assert PassedOn(g, dist, u, g[u]) && NotBeyond(g, dist, done, u);
    }
  }

  lemma RelaxSound(g: Topology, src: nat, l: Labelling, fixed: set<nat>, cur: nat, v: nat)
    requires Sound(g, src, l, fixed) && cur in fixed && v in g && v in g[cur] && v !in fixed
    requires l.dist[cur] + 1 < l.dist[v]
    ensures Sound(g, src, Improved(l, cur, v), fixed)
  {
    RelaxLinked(g, src, l, fixed, cur, v);
  }

  lemma RelaxImproves(g: Topology, src: nat, l: Labelling, cur: nat, seen: set<nat>, v: nat)
    requires Visiting(g, src, l, cur, seen) && v in g[cur] && l.dist[v] > l.dist[cur] + 1
    ensures Visiting(g, src, Improved(l, cur, v), cur, seen + {v})
  {
    var fixed := l.done + {cur};
    RelaxSettled(g, l.dist, l.done, cur, seen, v);
    RelaxSound(g, src, l, fixed, cur, v);
  }

  /** Looking at one route of the visited router. */
  lemma RelaxKeeps(g: Topology, src: nat, l: Labelling, cur: nat, seen: set<nat>, v: nat)
    requires Visiting(g, src, l, cur, seen) && v in g[cur]
    ensures Visiting(g, src, Relaxed(l, cur, v), cur, seen + {v})
  {
    if l.dist[v] > l.dist[cur] + 1 {
      RelaxImproves(g, src, l, cur, seen, v);
    }
  }

  /** The labels after the routes of `cur` to routers below `n` were looked at, in order. */
  function RelaxedUpTo(g: Topology, l: Labelling, cur: nat, n: nat): (r: Labelling)
    requires Closed(g) && l.dist.Keys == g.Keys && cur in g
    ensures r.dist.Keys == g.Keys && r.done == l.done
    ensures forall v :: v in g ==> r.dist[v] <= l.dist[v]
  {
    if n == 0 then l
    else
      var m := RelaxedUpTo(g, l, cur, n - 1);
      if n - 1 in g[cur] then Relaxed(m, cur, n - 1) else m
  }

  function Below(s: set<nat>, n: nat): set<nat> {
    set k | k in s && k < n
  }

  lemma BelowNext(s: set<nat>, n: nat)
    ensures Below(s, n + 1) == if n in s then Below(s, n) + {n} else Below(s, n)
  {
  }

  /** The labels once index `n` has been looked at, where there may be no route. */
  lemma LookKeeps(g: Topology, src: nat, l: Labelling, m: Labelling, cur: nat, n: nat)
    requires cur in g && Visiting(g, src, l, cur, Below(g[cur], n))
    requires m == if n in g[cur] then Relaxed(l, cur, n) else l
    ensures Visiting(g, src, m, cur, Below(g[cur], n + 1))
  {
    BelowNext(g[cur], n);
    if n in g[cur] {
      RelaxKeeps(g, src, l, cur, Below(g[cur], n), n);
    }
  }

  lemma {:induction false} RelaxedUpToKeeps(g: Topology, src: nat, l: Labelling, cur: nat, n: nat)
    requires Visiting(g, src, l, cur, {})
    ensures Visiting(g, src, RelaxedUpTo(g, l, cur, n), cur, Below(g[cur], n))
  {
    if n == 0 {
      assert Below(g[cur], 0) == {};
    } else {
      RelaxedUpToKeeps(g, src, l, cur, n - 1);
      LookKeeps(g, src, RelaxedUpTo(g, l, cur, n - 1), RelaxedUpTo(g, l, cur, n), cur, n - 1);
    }
  }

  lemma {:induction false} RelaxedUpToWalked(g: Topology, src: nat, l: Labelling, cur: nat, n: nat)
    requires Closed(g) && l.dist.Keys == g.Keys && cur in g && Walked(g, src, l.dist)
    requires forall v :: v in g ==> l.dist[v] <= INFINITY
    ensures Walked(g, src, RelaxedUpTo(g, l, cur, n).dist)
  {
    if n > 0 {
      RelaxedUpToWalked(g, src, l, cur, n - 1);
      if n - 1 in g[cur] {
        RelaxWalked(g, src, RelaxedUpTo(g, l, cur, n - 1), cur, n - 1);
      }
    }
  }

  /** The labels after a whole visit. */
  function Visited(g: Topology, l: Labelling, cur: nat, n: nat): Labelling
    requires Closed(g) && l.dist.Keys == g.Keys && cur in g
  {
    var m := RelaxedUpTo(g, l, cur, n);
    m.(done := m.done + {cur})
  }

  /** A visit of a nearest unvisited router, past all its routes, keeps the labelling good. */
  lemma VisitKeeps(g: Topology, src: nat, l: Labelling, cur: nat, n: nat)
    requires Good(g, src, l) && Walked(g, src, l.dist) && Nearest(g, l.dist, l.done, cur)
    requires forall k :: k in g[cur] ==> k < n
    ensures var m := Visited(g, l, cur, n);
            Good(g, src, m) && Walked(g, src, m.dist) && m.done == l.done + {cur} && |m.done| == |l.done| + 1
  {
    VisitStarts(g, src, l, cur);
    RelaxedUpToKeeps(g, src, l, cur, n);
    RelaxedUpToWalked(g, src, l, cur, n);
    assert Below(g[cur], n) == g[cur];
    VisitEnds(g, src, RelaxedUpTo(g, l, cur, n), cur);
  }

  lemma VisitEnds(g: Topology, src: nat, l: Labelling, cur: nat)
    requires cur in g && Visiting(g, src, l, cur, g[cur])
    ensures Good(g, src, l.(done := l.done + {cur}))
  {
    var done := l.done + {cur};
    forall v | v in g && v != src && l.dist[v] < INFINITY ensures LinkedAt(g, l.(done := done), done, v) {
      assert LinkedAt(g, l, done, v);
    }
    forall u | u in done ensures PassedOn(g, l.dist, u, g[u]) && NotBeyond(g, l.dist, done, u) {
      if u != cur {
        assert PassedOn(g, l.dist, u, g[u]) && NotBeyond(g, l.dist, l.done, u);
      }
    }
  }

  // The end

  ghost predicate Final(g: Topology, src: nat, l: Labelling) {
    Good(g, src, l) && Walked(g, src, l.dist) && l.done == g.Keys
  }

  lemma {:induction false} NoShorterWalk(g: Topology, src: nat, l: Labelling, v: nat, k: nat)
    requires Final(g, src, l) && Hops(g, src, v, k)
    ensures v in g && l.dist[v] <= k
    decreases k
  {
    HopsInside(g, src, v, k);
    if k == 0 {
      NoHopStays(g, src, v);
    } else {
      var w := LastHop(g, src, v, k);
      NoShorterWalk(g, src, l, w, k - 1);
      assert PassedOn(g, l.dist, w, g[w]);
    }
  }

  /** Every finite label is the true distance. */
  lemma FiniteIsDist(g: Topology, src: nat, l: Labelling, v: nat)
    requires Final(g, src, l) && v in g && l.dist[v] < INFINITY
    ensures Dist(g, src, v, l.dist[v])
  {
    forall k: nat | Hops(g, src, v, k) ensures l.dist[v] <= k {
      NoShorterWalk(g, src, l, v, k);
    }
  }

  /** With at most 65535 routers, every router that can be reached has a finite label. */
  lemma ReachableIsFinite(g: Topology, src: nat, l: Labelling, v: nat, k: nat)
    requires Final(g, src, l) && |g| <= INFINITY && Hops(g, src, v, k)
    ensures v in g && l.dist[v] < INFINITY
  {
    var d := DistExists(g, src, v, k);
    DistBelowSize(g, src, v, d);
    NoShorterWalk(g, src, l, v, d);
  }

  /** On a connected topology every label is the true distance. */
  lemma LabelsAreDistances(g: Topology, src: nat, l: Labelling)
    requires Final(g, src, l) && Connected(g) && |g| <= INFINITY
    ensures forall v :: v in g ==> l.dist[v] < INFINITY && Dist(g, src, v, l.dist[v])
  {
    forall v | v in g ensures l.dist[v] < INFINITY && Dist(g, src, v, l.dist[v]) {
      assert Reaches(g, src, v);
      var k: nat :| Hops(g, src, v, k);
      ReachableIsFinite(g, src, l, v, k);
      FiniteIsDist(g, src, l, v);
    }
  }
}
