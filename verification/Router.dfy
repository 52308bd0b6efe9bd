/** The routers of hupsim.pl: links with bounded queues, and the table each router computes by Dijkstra's algorithm. */
module Routers {
  import opened Graph
  import opened Labels
  import opened Forwarding

  const QUEUEMAX: nat := 10

  /** The routing header in front of every datagram. */
  const ROUTERHEADER: int := 16

  function Total(q: seq<Datagram>): nat {
    if q == [] then 0 else Total(q[..|q| - 1]) + q[|q| - 1].length
  }

  /** One outgoing link. */
  class NSQueue {
    const routeRef: Router
    const max: nat
    var queue: seq<Datagram>
    var size: nat
    var dropped: nat

    ghost predicate Valid()
      reads `queue, `size
    {
      size == Total(queue) && |queue| <= max
    }

    constructor (routeRef: Router, max: nat)
      ensures this.routeRef == routeRef && this.max == (if max == 0 then QUEUEMAX else max)
      ensures Valid() && queue == [] && dropped == 0
    {
      this.routeRef := routeRef;
      this.max := if max == 0 then QUEUEMAX else max;
      queue, size, dropped := [], 0, 0;
    }

    /** enQ: a full queue drops the packet and counts it. */
    method EnQ(p: Datagram)
      requires Valid()
      modifies `queue, `size, `dropped
      ensures Valid()
      ensures if old(|queue|) >= max then queue == old(queue) && dropped == old(dropped) + 1
              else queue == old(queue) + [p] && dropped == old(dropped)
    {
      if |queue| >= max {
        dropped := dropped + 1;
      } else {
        queue := queue + [p];
        size := size + p.length;
      }
    }

    /** The shift in run: the head leaves, and its bytes with it. */
    method Shift() returns (p: Datagram)
      requires Valid() && queue != []
      modifies `queue, `size
      ensures Valid() && p == old(queue)[0] && queue == old(queue)[1..]
    {
      p := queue[0];
      TotalOfTail(queue);
      queue := queue[1..];
      size := size - p.length;
    }
  }

  lemma {:induction false} TotalOfTail(q: seq<Datagram>)
    requires q != []
    ensures Total(q) == q[0].length + Total(q[1..])
  {
    if |q| > 1 {
      TotalOfTail(q[..|q| - 1]);
      assert q[..|q| - 1][1..] == q[1..][..|q| - 2];
    }
  }

  class Router {
    const id: nat
    const nodes: map<nat, nat>  // the router behind each address
    var routes: seq<NSQueue?>
    var routingTable: map<nat, NSQueue>
    var distance: nat
    var predecessor: Router?
    var done: nat
    var sent: seq<Datagram>
    var bytesSent: int

    constructor (id: nat, nodes: map<nat, nat>)
      ensures this.id == id && this.nodes == nodes && routes == [] && routingTable == map[]
      ensures sent == [] && bytesSent == 0
    {
      this.id := id;
      this.nodes := nodes;
      sent, bytesSent := [], 0;
      routes, routingTable := [], map[];
      distance, predecessor, done := 0, null, 0;
    }

    predicate HasRoute(j: nat)
      reads this`routes
    {
      j < |routes| && routes[j] != null
    }

    /** addRoute: a fresh queue at the neighbour's index; the array grows as needed. */
    method AddRoute(neighbour: Router, max: nat)
      modifies this`routes
      ensures HasRoute(neighbour.id)
      ensures forall j: nat :: HasRoute(j) <==> j == neighbour.id || old(HasRoute(j))
      ensures forall j: nat :: old(HasRoute(j)) && j != neighbour.id ==> HasRoute(j) && routes[j] == old(routes)[j]
      ensures var q := routes[neighbour.id];
              && fresh(q) && q.Valid() && q.queue == [] && q.routeRef == neighbour
              && q.max == if max == 0 then QUEUEMAX else max
    {
      var q := new NSQueue(neighbour, max);
      if neighbour.id >= |routes| {
        routes := routes + seq(neighbour.id + 1 - |routes|, _ => null);
      }
      routes := routes[neighbour.id := q];
    }

    /** The queue that recv puts a datagram into, if it goes on from here. */
    function Target(p: Datagram): set<NSQueue>
      reads this`routingTable
    {
      if p.to in nodes && nodes[p.to] != id && nodes[p.to] in routingTable then {routingTable[nodes[p.to]]} else {}
    }

    /** recv: discard, hand over to the node, or queue; `ran` says that the router has work to do. */
    method Recv(p: Datagram) returns (ran: bool)
      requires p.to in nodes && nodes[p.to] != id ==> nodes[p.to] in routingTable && routingTable[nodes[p.to]].Valid()
      modifies this`sent, this`bytesSent, Target(p)`queue, Target(p)`size, Target(p)`dropped
      ensures ran == (p.to in nodes && nodes[p.to] != id)
      ensures if p.to in nodes && nodes[p.to] == id then
                sent == old(sent) + [p] && bytesSent == old(bytesSent) + (p.length - ROUTERHEADER)
              else sent == old(sent) && bytesSent == old(bytesSent)
      ensures ran ==> var q := routingTable[nodes[p.to]];
                && q.Valid()
                && if old(|q.queue|) >= q.max then q.queue == old(q.queue) && q.dropped == old(q.dropped) + 1
                   else q.queue == old(q.queue) + [p] && q.dropped == old(q.dropped)
    {
      if p.to !in nodes {
        return false;
      }
      var dest := nodes[p.to];
      if dest == id {
        sent := sent + [p];
        bytesSent := bytesSent + (p.length - ROUTERHEADER);
        ran := false;
      } else {
        routingTable[dest].EnQ(p);
        ran := true;
      }
    }

    /** `q` is one of this router's own queues, to a neighbour that lies on a shortest path to `v`. */
    ghost predicate LeadsTo(g: Topology, v: nat, q: NSQueue)
      reads this`routes
    {
      var f := q.routeRef.id;
      IsFirstHop(g, id, v, f) && HasRoute(f) && routes[f] == q
    }

    /** What createTable promises of the table. */
    ghost predicate TableRight(g: Topology)
      reads this`routes, this`routingTable
    {
      && routingTable.Keys == g.Keys - {id}
      && forall v :: v in routingTable ==> LeadsTo(g, v, routingTable[v])
    }

    /** createTable */
    method CreateTable(vs: seq<Router?>, ghost g: Topology)
      requires Topo(vs, g) && id in g && vs[id] == this
      requires Connected(g) && |g| <= INFINITY
      modifies RoutersOf(vs)`distance, RoutersOf(vs)`predecessor, RoutersOf(vs)`done, this`routingTable
      ensures Topo(vs, g) && ShortestPathTree(vs, g, id) && TableRight(g)
    {
      routingTable := map[];
      ComputeDistances(vs, id, g);
      FillTable(vs, g);
    }

    /** The entry for one other router. */
    method AddEntry(vs: seq<Router?>, vertex: Router, ghost g: Topology)
      requires Topo(vs, g) && id in g && vs[id] == this && ShortestPathTree(vs, g, id)
      requires vertex.id in g && vertex.id != id && vs[vertex.id] == vertex
      modifies `routingTable
      ensures Topo(vs, g) && ShortestPathTree(vs, g, id)
      ensures vertex.id in routingTable && LeadsTo(g, vertex.id, routingTable[vertex.id])
      ensures routingTable == old(routingTable)[vertex.id := routingTable[vertex.id]]
    {
      var start := FirstHop(vs, vertex, id, g);
      RouteOf(vs, g, id, start.id);
      routingTable := routingTable[vertex.id := routes[start.id]];
      assert forall v :: v in g && v != id ==> old(HasParent(vs, g, v));
    }

    /** The last loop of createTable. */
    method FillTable(vs: seq<Router?>, ghost g: Topology)
      requires Topo(vs, g) && id in g && vs[id] == this && routingTable == map[]
      requires ShortestPathTree(vs, g, id)
      modifies `routingTable
      ensures Topo(vs, g) && ShortestPathTree(vs, g, id) && TableRight(g)
    {
      for i := 0 to |vs|
        invariant Topo(vs, g) && ShortestPathTree(vs, g, id)
        invariant routingTable.Keys == (set v | v in g && v != id && v < i)
        invariant forall v :: v in routingTable ==> LeadsTo(g, v, routingTable[v])
      {
        var vertex := vs[i];
        if vertex != null && vertex.id != id {
          assert i in g;
          AddEntry(vs, vertex, g);
        }
      }
    }
  }

  ghost function RoutersOf(vs: seq<Router?>): set<Router> {
    set r: Router | r in vs
  }

  /** `vs` holds the routers of `g`, each at the index of its id. */
  ghost predicate Placed(vs: seq<Router?>, g: Topology) {
    && (forall i: nat :: i in g <==> i < |vs| && vs[i] != null)
    && (forall i :: i in g ==> vs[i].id == i)
  }

  /** Router `i` has a route to each of its neighbours, and to no other router. */
  ghost predicate LinkedAs(vs: seq<Router?>, g: Topology, i: nat)
    requires Closed(g) && Placed(vs, g) && i in g
    reads RoutersOf(vs)`routes
  {
    && (forall j: nat :: j in g[i] <==> vs[i].HasRoute(j))
    && (forall j: nat :: vs[i].HasRoute(j) ==> vs[i].routes[j].routeRef == vs[j])
  }

  /** The routers in `vs` are linked as `g` says. */
  ghost predicate Topo(vs: seq<Router?>, g: Topology)
    reads RoutersOf(vs)`routes
  {
    Closed(g) && Placed(vs, g) && forall i {:trigger LinkedAs(vs, g, i)} :: i in g ==> LinkedAs(vs, g, i)
  }

  function WithHop(g: Topology, u: nat, v: nat): Topology
    requires u in g
  {
    g[u := g[u] + {v}]
  }

  /** A route from `r` to `neighbour`. */
  method AddHop(vs: seq<Router?>, r: Router, neighbour: Router, max: nat, ghost g: Topology)
    requires Topo(vs, g) && r.id in g && vs[r.id] == r && neighbour.id in g && vs[neighbour.id] == neighbour
    modifies r`routes
    ensures Topo(vs, WithHop(g, r.id, neighbour.id))
  {
    ghost var h := WithHop(g, r.id, neighbour.id);
    assert LinkedAs(vs, g, r.id);
    r.AddRoute(neighbour, max);
    forall i | i in h ensures LinkedAs(vs, h, i) {
      assert old(LinkedAs(vs, g, i));
    }
  }

  /** One line of the topology map: a link in both directions. */
  method AddLink(vs: seq<Router?>, from: Router, to: Router, max: nat, ghost g: Topology)
    requires Topo(vs, g) && from.id in g && vs[from.id] == from && to.id in g && vs[to.id] == to
    modifies from`routes, to`routes
    ensures Topo(vs, WithHop(WithHop(g, to.id, from.id), from.id, to.id))
  {
    AddHop(vs, to, from, max, g);
    AddHop(vs, from, to, max, WithHop(g, to.id, from.id));
  }

  /** Once it is labelled, router `i` points to its predecessor in `l`. */
  ghost predicate ShowsParent(vs: seq<Router?>, g: Topology, l: Labelling, i: nat)
    requires Placed(vs, g) && i in g && i in l.dist
    reads RoutersOf(vs)`predecessor
  {
    l.dist[i] < INFINITY ==> i in l.pred && l.pred[i] in g && vs[i].predecessor == vs[l.pred[i]]
  }

  /** The fields of the routers show the labelling `l`. */
  ghost predicate Shows(vs: seq<Router?>, g: Topology, src: nat, l: Labelling)
    reads RoutersOf(vs)`distance, RoutersOf(vs)`predecessor, RoutersOf(vs)`done
    requires Placed(vs, g)
  {
    && l.dist.Keys == g.Keys
    && (forall i {:trigger vs[i].distance} {:trigger l.dist[i]} :: i in g ==> vs[i].distance == l.dist[i])
    && (forall i {:trigger vs[i].done} {:trigger i in l.done} :: i in g ==> (vs[i].done > 0 <==> i in l.done))
    && (forall i {:trigger ShowsParent(vs, g, l, i)} :: i in g && i != src ==> ShowsParent(vs, g, l, i))
  }

  /** The base state: nothing visited, only the source at distance 0. */
  method SetUp(vs: seq<Router?>, src: nat, ghost g: Topology) returns (ghost l: Labelling)
    requires Topo(vs, g) && src in g
    modifies RoutersOf(vs)`distance, RoutersOf(vs)`done
    ensures Topo(vs, g)
    ensures Shows(vs, g, src, l) && Good(g, src, l) && Walked(g, src, l.dist) && l.done == {}
  {
    l := Labelling(map v | v in g :: if v == src then 0 else INFINITY, map[], {});
    for i := 0 to |vs|
      invariant forall j :: j in g && j < i ==> vs[j].distance == l.dist[j] && vs[j].done == 0
    {
      var vertex := vs[i];
      if vertex != null {
        assert i in g;
        vertex.done := 0;
        if vertex.id == src {
          vertex.distance := 0;
        } else {
          vertex.distance := INFINITY;
        }
      }
    }
    InitialGood(g, src, l);
  }

  /** The next router to visit: the first of the nearest unvisited ones. */
  method SelectNext(vs: seq<Router?>, src: nat, ghost g: Topology, ghost l: Labelling) returns (next: Router)
    requires Placed(vs, g) && Shows(vs, g, src, l)
    requires forall v :: v in g ==> l.dist[v] <= INFINITY
    requires exists v :: v in g && v !in l.done
    ensures next.id in g && vs[next.id] == next && Nearest(g, l.dist, l.done, next.id)
  {
    var found: Router? := null;
    var min := INFINITY + 1;
    for i := 0 to |vs|
      invariant found == null ==> min == INFINITY + 1
      invariant found != null ==> found.id in g && vs[found.id] == found && found.id !in l.done
      invariant found != null ==> min == l.dist[found.id]
      invariant forall j :: j in g && j < i && j !in l.done ==> min <= l.dist[j]
    {
      var vertex := vs[i];
      if vertex != null {
        assert i in g;
        if vertex.done == 0 && vertex.distance < min {
          found := vertex;
          min := vertex.distance;
        }
      }
    }
    next := found;
  }

  /** The comparison and the assignments for one route of `next`. */
  method Improve(next: Router, edge: NSQueue)
    modifies edge.routeRef`distance, edge.routeRef`predecessor
    ensures if old(edge.routeRef.distance) > old(next.distance) + 1 then
              edge.routeRef.distance == old(next.distance) + 1 && edge.routeRef.predecessor == next
            else unchanged(edge.routeRef)
  {
    var weight := next.distance + 1;
    if edge.routeRef.distance > weight {
      edge.routeRef.distance := weight;
      edge.routeRef.predecessor := next;
    }
  }

  /** Look at one route of `next`. */
  method RelaxRoute(vs: seq<Router?>, next: Router, edge: NSQueue, src: nat, ghost g: Topology, ghost l: Labelling)
    requires Closed(g) && Placed(vs, g) && Shows(vs, g, src, l)
    requires next.id in g && vs[next.id] == next
    requires edge.routeRef.id in g[next.id] && vs[edge.routeRef.id] == edge.routeRef
    modifies edge.routeRef`distance, edge.routeRef`predecessor
    ensures Shows(vs, g, src, Relaxed(l, next.id, edge.routeRef.id))
  {
    var u, v := next.id, edge.routeRef.id;
    assert l.dist[u] == next.distance && l.dist[v] == edge.routeRef.distance;
    Improve(next, edge);
    forall i | i in g && i != src ensures ShowsParent(vs, g, Relaxed(l, u, v), i) {
      assert old(ShowsParent(vs, g, l, i));
    }
  }

  /** Look at index `j` of the routes of `next`, where there may be none. */
  method RelaxAt(vs: seq<Router?>, next: Router, j: nat, src: nat, ghost g: Topology, ghost l: Labelling)
    requires Topo(vs, g) && next.id in g && vs[next.id] == next && j < |next.routes|
    requires l.dist.Keys == g.Keys && Shows(vs, g, src, RelaxedUpTo(g, l, next.id, j))
    modifies RoutersOf(vs)`distance, RoutersOf(vs)`predecessor
    ensures Topo(vs, g) && Shows(vs, g, src, RelaxedUpTo(g, l, next.id, j + 1))
  {
    var edge := next.routes[j];
    ghost var m := RelaxedUpTo(g, l, next.id, j);
    assert LinkedAs(vs, g, next.id);
    assert j in g[next.id] <==> next.HasRoute(j);
    if edge != null {
      assert RelaxedUpTo(g, l, next.id, j + 1) == Relaxed(m, next.id, j);
      RelaxRoute(vs, next, edge, src, g, m);
    } else {
      assert RelaxedUpTo(g, l, next.id, j + 1) == m;
    }
  }

  /** Look at every route of `next`. */
  method LookAround(vs: seq<Router?>, next: Router, src: nat, ghost g: Topology, ghost l: Labelling)
    requires Topo(vs, g) && next.id in g && vs[next.id] == next && Shows(vs, g, src, l)
    modifies RoutersOf(vs)`distance, RoutersOf(vs)`predecessor
    ensures Topo(vs, g) && Shows(vs, g, src, RelaxedUpTo(g, l, next.id, |next.routes|))
  {
    var n := |next.routes|;
    for j := 0 to n
      invariant Topo(vs, g) && n == |next.routes|
      invariant Shows(vs, g, src, RelaxedUpTo(g, l, next.id, j))
    {
      RelaxAt(vs, next, j, src, g, l);
    }
  }

  method MarkVisited(vs: seq<Router?>, next: Router, src: nat, ghost g: Topology, ghost l: Labelling)
    requires Topo(vs, g) && next.id in g && vs[next.id] == next && Shows(vs, g, src, l)
    modifies next`done
    ensures Topo(vs, g) && Shows(vs, g, src, l.(done := l.done + {next.id}))
  {
    next.done := next.done + 1;
    forall i | i in g && i != src ensures ShowsParent(vs, g, l.(done := l.done + {next.id}), i) {
      assert ShowsParent(vs, g, l, i);
    }
  }

  /** The visit of `next`. */
  method Visit(vs: seq<Router?>, next: Router, src: nat, ghost g: Topology, ghost l: Labelling)
    requires Topo(vs, g) && next.id in g && vs[next.id] == next && Shows(vs, g, src, l)
    modifies RoutersOf(vs)`distance, RoutersOf(vs)`predecessor, RoutersOf(vs)`done
    ensures Topo(vs, g) && Shows(vs, g, src, Visited(g, l, next.id, |next.routes|))
  {
    LookAround(vs, next, src, g, l);
    MarkVisited(vs, next, src, g, RelaxedUpTo(g, l, next.id, |next.routes|));
  }

  lemma RoutesInRange(vs: seq<Router?>, g: Topology, next: Router)
    requires Topo(vs, g) && next.id in g && vs[next.id] == next
    ensures forall k :: k in g[next.id] ==> k < |next.routes|
  {
    assert LinkedAs(vs, g, next.id);
    forall k | k in g[next.id] ensures k < |next.routes| {
      assert next.HasRoute(k);
    }
  }

  /** The visit of a nearest unvisited router keeps the labels good. */
  method VisitNearest(vs: seq<Router?>, next: Router, src: nat, ghost g: Topology, ghost l: Labelling)
    returns (ghost m: Labelling)
    requires Topo(vs, g) && Shows(vs, g, src, l) && Good(g, src, l) && Walked(g, src, l.dist)
    requires next.id in g && vs[next.id] == next && Nearest(g, l.dist, l.done, next.id)
    modifies RoutersOf(vs)`distance, RoutersOf(vs)`predecessor, RoutersOf(vs)`done
    ensures Topo(vs, g) && Shows(vs, g, src, m) && Good(g, src, m) && Walked(g, src, m.dist)
    ensures |m.done| == |l.done| + 1
  {
    m := Visited(g, l, next.id, |next.routes|);
    RoutesInRange(vs, g, next);
    VisitKeeps(g, src, l, next.id, |next.routes|);
    Visit(vs, next, src, g, l);
  }

  /** One turn of Dijkstra's loop: visit a nearest unvisited router. */
  method VisitNext(vs: seq<Router?>, src: nat, ghost g: Topology, ghost l: Labelling) returns (ghost m: Labelling)
    requires Topo(vs, g) && Shows(vs, g, src, l) && Good(g, src, l) && Walked(g, src, l.dist)
    requires exists v :: v in g && v !in l.done
    modifies RoutersOf(vs)`distance, RoutersOf(vs)`predecessor, RoutersOf(vs)`done
    ensures Topo(vs, g) && Shows(vs, g, src, m) && Good(g, src, m) && Walked(g, src, m.dist)
    ensures |m.done| == |l.done| + 1
  {
    var next := SelectNext(vs, src, g, l);
    m := VisitNearest(vs, next, src, g, l);
  }

  ghost function Defined(vs: seq<Router?>, n: nat): set<nat>
    requires n <= |vs|
  {
    set i | 0 <= i < n && vs[i] != null
  }

  lemma DefinedNext(vs: seq<Router?>, n: nat)
    requires n < |vs|
    ensures |Defined(vs, n + 1)| == |Defined(vs, n)| + if vs[n] != null then 1 else 0
  {
    assert Defined(vs, n + 1) == if vs[n] != null then Defined(vs, n) + {n} else Defined(vs, n);
  }

  lemma DefinedAtMost(vs: seq<Router?>, g: Topology, n: nat)
    requires Placed(vs, g) && n <= |vs|
    ensures Defined(vs, n) <= g.Keys && |Defined(vs, n)| <= |g.Keys|
    ensures n == |vs| ==> Defined(vs, n) == g.Keys
  {
    Subset(Defined(vs, n), g.Keys);
  }

  lemma SomeoneLeft(done: set<nat>, all: set<nat>)
    requires done <= all && |done| < |all|
    ensures exists v :: v in all && v !in done
  {
    assert (forall v :: v in all ==> v in done) ==> done == all;
  }

  lemma NobodyLeft(done: set<nat>, all: set<nat>)
    requires done <= all && |done| >= |all|
    ensures done == all
  {
    if v :| v in all && v !in done {
      Subset(done + {v}, all);
    }
  }

  /** The predecessor of router `v` is one hop nearer to the source. */
  ghost predicate HasParent(vs: seq<Router?>, g: Topology, v: nat)
    requires Placed(vs, g) && v in g
    reads RoutersOf(vs)`distance, RoutersOf(vs)`predecessor
  {
    var p := vs[v].predecessor;
    p != null && p.id in g && vs[p.id] == p && v in g[p.id] && vs[v].distance == p.distance + 1
  }

  /** Every label is a true distance, and every chain of predecessors comes one hop nearer at each step. */
  ghost predicate ShortestPathTree(vs: seq<Router?>, g: Topology, src: nat)
    requires Placed(vs, g)
    reads RoutersOf(vs)`distance, RoutersOf(vs)`predecessor
  {
    && (forall v {:trigger vs[v].distance} :: v in g ==> Dist(g, src, v, vs[v].distance))
    && (forall v {:trigger HasParent(vs, g, v)} :: v in g && v != src ==> HasParent(vs, g, v))
  }

  lemma ParentOf(vs: seq<Router?>, g: Topology, src: nat, l: Labelling, v: nat)
    requires Placed(vs, g) && Shows(vs, g, src, l) && Linked(g, src, l, g.Keys)
    requires v in g && v != src && l.dist[v] < INFINITY
    ensures HasParent(vs, g, v)
  {
    assert LinkedAt(g, l, g.Keys, v) && ShowsParent(vs, g, l, v);
  }

  lemma FinalIsTree(vs: seq<Router?>, g: Topology, src: nat, l: Labelling)
    requires Placed(vs, g) && Shows(vs, g, src, l) && Final(g, src, l) && Connected(g) && |g| <= INFINITY
    ensures ShortestPathTree(vs, g, src)
  {
    LabelsAreDistances(g, src, l);
    forall v | v in g && v != src ensures HasParent(vs, g, v) {
      ParentOf(vs, g, src, l, v);
    }
  }

  /** One turn of that loop, where there may be no router. */
  method VisitTurn(vs: seq<Router?>, i: nat, src: nat, ghost g: Topology, ghost l: Labelling)
    returns (ghost m: Labelling)
    requires Topo(vs, g) && Shows(vs, g, src, l) && Good(g, src, l) && Walked(g, src, l.dist)
    requires i < |vs| && |l.done| == |Defined(vs, i)|
    modifies RoutersOf(vs)`distance, RoutersOf(vs)`predecessor, RoutersOf(vs)`done
    ensures Topo(vs, g) && Shows(vs, g, src, m) && Good(g, src, m) && Walked(g, src, m.dist)
    ensures |m.done| == |Defined(vs, i + 1)|
  {
    m := l;
    DefinedNext(vs, i);
    if vs[i] != null {
      DefinedAtMost(vs, g, i + 1);
      SomeoneLeft(l.done, g.Keys);
      m := VisitNext(vs, src, g, l);
    }
  }

  lemma AllVisited(vs: seq<Router?>, g: Topology, src: nat, l: Labelling)
    requires Placed(vs, g) && Good(g, src, l) && Walked(g, src, l.dist) && |l.done| == |Defined(vs, |vs|)|
    ensures Final(g, src, l)
  {
    DefinedAtMost(vs, g, |vs|);
    NobodyLeft(l.done, g.Keys);
  }

  lemma NothingDefined(vs: seq<Router?>)
    ensures Defined(vs, 0) == {}
  {
  }

  /** Dijkstra's loop: as many visits as there are routers. */
  method VisitAll(vs: seq<Router?>, src: nat, ghost g: Topology) returns (ghost l: Labelling)
    requires Topo(vs, g) && src in g
    modifies RoutersOf(vs)`distance, RoutersOf(vs)`predecessor, RoutersOf(vs)`done
    ensures Topo(vs, g) && Shows(vs, g, src, l) && Final(g, src, l)
  {
    l := SetUp(vs, src, g);
    NothingDefined(vs);
    for i := 0 to |vs|
      invariant Topo(vs, g) && Shows(vs, g, src, l) && Good(g, src, l) && Walked(g, src, l.dist)
      invariant |l.done| == |Defined(vs, i)|
    {
      l := VisitTurn(vs, i, src, g, l);
    }
    AllVisited(vs, g, src, l);
  }

  /** The first two loops of createTable. */
  method ComputeDistances(vs: seq<Router?>, src: nat, ghost g: Topology)
    requires Topo(vs, g) && src in g && Connected(g) && |g| <= INFINITY
    modifies RoutersOf(vs)`distance, RoutersOf(vs)`predecessor, RoutersOf(vs)`done
    ensures Topo(vs, g) && ShortestPathTree(vs, g, src)
  {
    ghost var l := VisitAll(vs, src, g);
    FinalIsTree(vs, g, src, l);
  }

  /** Follow the predecessors of `vertex` up to the one whose predecessor is the source. */
  method FirstHop(vs: seq<Router?>, vertex: Router, src: nat, ghost g: Topology) returns (start: Router)
    requires Topo(vs, g) && ShortestPathTree(vs, g, src)
    requires vertex.id in g && vertex.id != src && vs[vertex.id] == vertex
    ensures Topo(vs, g) && start.id in g && vs[start.id] == start && IsFirstHop(g, src, vertex.id, start.id)
  {
    start := vertex;
    ghost var k := 0;
    NoHop(g, vertex.id);
    while start.predecessor.id != src
      invariant Topo(vs, g) && ShortestPathTree(vs, g, src)
      invariant start.id in g && vs[start.id] == start && start.id != src && HasParent(vs, g, start.id)
      invariant start.distance + k == vertex.distance && Hops(g, start.id, vertex.id, k)
      decreases start.distance
    {
      HopBefore(g, start.predecessor.id, start.id, vertex.id, k);
      k := k + 1;
      start := start.predecessor;
      assert HasParent(vs, g, start.id);
    }
    DistZero(g, src);
    DistUnique(g, src, src, start.predecessor.distance, 0);
    FirstHopFrom(g, src, vertex.id, start.id, k + 1);
  }

  lemma RouteOf(vs: seq<Router?>, g: Topology, u: nat, f: nat)
    requires Topo(vs, g) && u in g && f in g[u]
    ensures vs[u].HasRoute(f) && f in g && vs[u].routes[f].routeRef == vs[f] && vs[f].id == f
  {
    assert LinkedAs(vs, g, u);
    assert vs[u].HasRoute(f);
  }

  ghost predicate TablesUpTo(vs: seq<Router?>, g: Topology, n: nat)
    requires Placed(vs, g)
    reads RoutersOf(vs)`routes, RoutersOf(vs)`routingTable
  {
    forall u {:trigger vs[u].TableRight(g)} :: u in g && u < n ==> vs[u].TableRight(g)
  }

  /** The next router computes its table; those computed before stay. */
  method OneMoreTable(vs: seq<Router?>, r: Router, ghost i: nat, ghost g: Topology)
    requires Topo(vs, g) && Connected(g) && |g| <= INFINITY && i < |vs| && vs[i] == r && TablesUpTo(vs, g, i)
    modifies RoutersOf(vs)`distance, RoutersOf(vs)`predecessor, RoutersOf(vs)`done, r`routingTable
    ensures Topo(vs, g) && TablesUpTo(vs, g, i + 1)
  {
    r.CreateTable(vs, g);
    forall u | u in g && u < i + 1 ensures vs[u].TableRight(g) {
      assert u < i ==> vs[u].id != r.id && old(vs[u].TableRight(g));
    }
  }

  /** Every router computes its own table, as the simulator does before it listens. */
  method CreateTables(vs: seq<Router?>, ghost g: Topology)
    requires Topo(vs, g) && Connected(g) && |g| <= INFINITY
    modifies RoutersOf(vs)`distance, RoutersOf(vs)`predecessor, RoutersOf(vs)`done, RoutersOf(vs)`routingTable
    ensures Topo(vs, g) && TablesUpTo(vs, g, |vs|)
  {
    for i := 0 to |vs|
      invariant Topo(vs, g) && TablesUpTo(vs, g, i)
    {
      if vs[i] != null {
        OneMoreTable(vs, vs[i], i, g);
      }
    }
  }
}
