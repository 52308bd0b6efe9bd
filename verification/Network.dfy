/** The routers at work: recv and run on the router objects, refining the network of Forwarding. */
module Networks {
  import opened Graph
  import opened Runs
  import opened Forwarding
  import opened Routers

  function Datagrams(q: seq<Flight>): (r: seq<Datagram>)
    ensures |r| == |q| && forall i :: 0 <= i < |r| ==> r[i] == q[i].d
  {
    seq(|q|, i requires 0 <= i < |q| => q[i].d)
  }

  /** The datagrams handed over by router `u`, in order. */
  ghost function SentAt(delivered: seq<Flight>, u: nat): seq<Datagram> {
    if delivered == [] then []
    else
      var f := delivered[|delivered| - 1];
      var before := SentAt(delivered[..|delivered| - 1], u);
      if f.path != [] && f.path[|f.path| - 1] == u then before + [f.d] else before
  }

  lemma SentAtAppend(delivered: seq<Flight>, f: Flight, u: nat)
    ensures SentAt(delivered + [f], u)
            == if f.path != [] && f.path[|f.path| - 1] == u then SentAt(delivered, u) + [f.d] else SentAt(delivered, u)
  {
    assert (delivered + [f])[..|delivered|] == delivered;
  }

  /** The objects that stand for the routers and links of a topology. */
  datatype Wiring = Wiring(routers: map<nat, Router>, queues: map<Link, NSQueue>)

  /** The queue object of a link leads to the right router and holds the datagrams of `q`. */
  ghost predicate LinkMirrors(x: Wiring, max: map<Link, nat>, link: Link, q: seq<Flight>)
    requires link in x.queues && link in max && link.1 in x.routers
    reads {x.queues[link]}`queue, {x.queues[link]}`size
  {
    var o := x.queues[link];
    && o.Valid() && o.routeRef == x.routers[link.1] && o.max == max[link]
    && o.queue == Datagrams(q)
  }

  /** The router's table is the world's. */
  ghost predicate TableMirrors(r: Router, x: Wiring, w: World)
    requires Proper(w) && x.queues.Keys == Links(w.g) && r.id in w.g
    reads r`routingTable
  {
    && r.nodes == w.nodes
    && forall v {:trigger LinkTo(w, r.id, v)} :: v in w.g && v != r.id ==>
         v in r.routingTable && r.routingTable[v] == x.queues[LinkTo(w, r.id, v)]
  }

  /** The router's table is the world's, and it has handed over its part of what was delivered. */
  ghost predicate RouterMirrors(x: Wiring, w: World, delivered: seq<Flight>, u: nat)
    requires Proper(w) && x.queues.Keys == Links(w.g) && u in w.g && u in x.routers
    reads {x.routers[u]}`routingTable, {x.routers[u]}`sent
  {
    var r := x.routers[u];
    r.id == u && TableMirrors(r, x, w) && r.sent == SentAt(delivered, u)
  }

  type Queues = map<Link, seq<Flight>>

  ghost predicate LinksMirror(x: Wiring, max: map<Link, nat>, queues: Queues)
    reads x.queues.Values`queue, x.queues.Values`size
  {
    && x.queues.Keys == queues.Keys == max.Keys
    && (forall link {:trigger x.queues[link]} :: link in x.queues ==> link.1 in x.routers)
    && (forall link {:trigger LinkMirrors(x, max, link, queues[link])} :: link in x.queues ==>
          LinkMirrors(x, max, link, queues[link]))
  }

  /** No other link has the queue object of this one. */
  ghost predicate Apart(x: Wiring, link: Link)
    requires link in x.queues
  {
    forall other {:trigger x.queues[other]} :: other in x.queues && other != link ==> x.queues[other] != x.queues[link]
  }

  ghost predicate Separate(x: Wiring) {
    forall link {:trigger Apart(x, link)} :: link in x.queues ==> Apart(x, link)
  }

  ghost predicate RoutersMirror(x: Wiring, w: World, delivered: seq<Flight>)
    requires Proper(w) && x.routers.Keys == w.g.Keys && x.queues.Keys == Links(w.g)
    reads x.routers.Values`routingTable, x.routers.Values`sent
  {
    forall u {:trigger RouterMirrors(x, w, delivered, u)} :: u in w.g ==> RouterMirrors(x, w, delivered, u)
  }

  /** The objects are in the state `net`. */
  ghost predicate Mirrors(x: Wiring, w: World, net: Net)
    reads x.routers.Values`routingTable, x.routers.Values`sent, x.queues.Values`queue, x.queues.Values`size
  {
    && Proper(w) && x.routers.Keys == w.g.Keys && x.queues.Keys == Links(w.g)
    && Separate(x) && LinksMirror(x, w.max, net.queues)
    && RoutersMirror(x, w, net.delivered)
  }

  /** At most the queue of one link differs. */
  ghost predicate SameBut(queues: Queues, after: Queues, link: Link) {
    && after.Keys == queues.Keys
    && forall other {:trigger after[other]} :: other in queues && other != link ==> after[other] == queues[other]
  }

  // The steps on the objects

  /** The head of one queue leaves: `after` is `queues` without it. */
  method Pop(route: NSQueue, ghost x: Wiring, ghost max: map<Link, nat>, ghost link: Link,
             ghost queues: Queues, ghost after: Queues)
    returns (p: Datagram)
    requires LinksMirror(x, max, queues) && link in x.queues && route == x.queues[link] && route.queue != []
    requires Apart(x, link)
    requires SameBut(queues, after, link)
    requires Datagrams(after[link]) == route.queue[1..]
    modifies route`queue, route`size
    ensures LinksMirror(x, max, after) && p == old(route.queue[0])
  {
    assert LinkMirrors(x, max, link, queues[link]);
    p := route.Shift();
    forall other | other in x.queues ensures LinkMirrors(x, max, other, after[other]) {
      assert old(LinkMirrors(x, max, other, queues[other]));
    }
  }

  /** What a forwarding step takes out of the network. */
  lemma TakenHead(w: World, net: Net, link: Link)
    requires link in net.queues && net.queues[link] != []
    ensures Enabled(w, net, Forward(link.0, link.1))
    ensures var (rest, f) := Taken(w, net, Forward(link.0, link.1));
            && SameBut(net.queues, rest.queues, link) && rest.delivered == net.delivered
            && Datagrams(rest.queues[link]) == Datagrams(net.queues[link])[1..]
            && f.d == Datagrams(net.queues[link])[0]
  {
  }

  /** The head of a queue leaves it. */
  method TakeHead(route: NSQueue, ghost x: Wiring, ghost w: World, ghost net: Net, ghost link: Link)
    returns (p: Datagram)
    requires Mirrors(x, w, net) && link in x.queues && route == x.queues[link] && route.queue != []
    modifies route`queue, route`size
    ensures Enabled(w, net, Forward(link.0, link.1))
    ensures var (rest, f) := Taken(w, net, Forward(link.0, link.1)); Mirrors(x, w, rest) && p == f.d
  {
    assert LinkMirrors(x, w.max, link, net.queues[link]);
    TakenHead(w, net, link);
    assert Apart(x, link);
    p := Pop(route, x, w.max, link, net.queues, Taken(w, net, Forward(link.0, link.1)).0.queues);
  }

  /** What recv does to the network when the flight is not at its end. */
  lemma RecvOnWay(w: World, net: Net, f: Flight)
    requires Proper(w) && net.queues.Keys == Links(w.g) && f.path != [] && f.path[|f.path| - 1] in w.g
    requires f.d.to in w.nodes && w.nodes[f.d.to] != f.path[|f.path| - 1]
    ensures var t := Recv(w, net, f);
            var link := LinkTo(w, f.path[|f.path| - 1], w.nodes[f.d.to]);
            && t.delivered == net.delivered && SameBut(net.queues, t.queues, link)
            && Datagrams(t.queues[link])
               == Datagrams(net.queues[link]) + (if |net.queues[link]| >= w.max[link] then [] else [f.d])
  {
  }

  /** recv of a datagram that goes on: `after` is `queues` with the datagram queued, or dropped where it was full. */
  method Push(r: Router, p: Datagram, ghost x: Wiring, ghost max: map<Link, nat>, ghost link: Link,
              ghost queues: Queues, ghost after: Queues)
    returns (ran: bool)
    requires LinksMirror(x, max, queues) && link in x.queues && r.Target(p) == {x.queues[link]}
    requires Apart(x, link)
    requires SameBut(queues, after, link)
    requires Datagrams(after[link]) == Datagrams(queues[link]) + if |queues[link]| >= max[link] then [] else [p]
    modifies r`sent, r`bytesSent, x.queues.Values`queue, x.queues.Values`size, x.queues.Values`dropped
    ensures LinksMirror(x, max, after) && ran && r.sent == old(r.sent)
  {
    assert LinkMirrors(x, max, link, queues[link]);
    assert x.queues[link] in r.Target(p);
    ran := r.Recv(p);
    forall other | other in x.queues ensures LinkMirrors(x, max, other, after[other]) {
      assert old(LinkMirrors(x, max, other, queues[other]));
    }
  }

  /** A flight reaches a router that queues or drops it. */
  method ReceiveOnWay(r: Router, p: Datagram, ghost x: Wiring, ghost w: World, ghost net: Net, ghost f: Flight)
    returns (ran: bool)
    requires Mirrors(x, w, net) && f.path != [] && f.path[|f.path| - 1] == r.id && r.id in w.g
    requires r == x.routers[r.id] && p == f.d && p.to in w.nodes && w.nodes[p.to] != r.id
    modifies r`sent, r`bytesSent, x.queues.Values`queue, x.queues.Values`size, x.queues.Values`dropped
    ensures Mirrors(x, w, Recv(w, net, f)) && ran
  {
    ghost var link := LinkTo(w, r.id, w.nodes[p.to]);
    assert RouterMirrors(x, w, net.delivered, r.id);
    assert Apart(x, link);
    RecvOnWay(w, net, f);
    ran := Push(r, p, x, w.max, link, net.queues, Recv(w, net, f).queues);
    forall u | u in w.g ensures RouterMirrors(x, w, net.delivered, u) {
      assert old(RouterMirrors(x, w, net.delivered, u));
    }
  }

  /** recv of a datagram that ends here: what is queued stays. */
  method Finish(r: Router, p: Datagram, ghost x: Wiring, ghost max: map<Link, nat>, ghost queues: Queues)
    returns (ran: bool)
    requires LinksMirror(x, max, queues) && (p.to in r.nodes ==> r.nodes[p.to] == r.id)
    modifies r`sent, r`bytesSent
    ensures LinksMirror(x, max, queues) && !ran
    ensures r.sent == old(r.sent) + if p.to in r.nodes then [p] else []
  {
    assert r.Target(p) == {};
    ran := r.Recv(p);
    assert forall link :: link in x.queues ==> old(LinkMirrors(x, max, link, queues[link]));
  }

  /** What recv does to the network when the flight is at its end, or nobody is its home. */
  lemma RecvAtEnd(w: World, net: Net, f: Flight, u: nat)
    requires Proper(w) && net.queues.Keys == Links(w.g) && f.path != [] && f.path[|f.path| - 1] in w.g
    requires f.d.to in w.nodes ==> w.nodes[f.d.to] == f.path[|f.path| - 1]
    ensures var t := Recv(w, net, f);
            && t.queues == net.queues
            && SentAt(t.delivered, u)
               == SentAt(net.delivered, u) + (if u == f.path[|f.path| - 1] && f.d.to in w.nodes then [f.d] else [])
  {
    SentAtAppend(net.delivered, f, u);
  }

  /** A flight reaches a router that hands it over or discards it. */
  method ReceiveAtEnd(r: Router, p: Datagram, ghost x: Wiring, ghost w: World, ghost net: Net, ghost f: Flight)
    returns (ran: bool)
    requires Mirrors(x, w, net) && f.path != [] && f.path[|f.path| - 1] == r.id && r.id in w.g
    requires r == x.routers[r.id] && p == f.d && (p.to in w.nodes ==> w.nodes[p.to] == r.id)
    modifies r`sent, r`bytesSent
    ensures Mirrors(x, w, Recv(w, net, f)) && !ran
  {
    ghost var after := Recv(w, net, f).delivered;
    assert RouterMirrors(x, w, net.delivered, r.id);
    ran := Finish(r, p, x, w.max, net.queues);
    forall u | u in w.g ensures RouterMirrors(x, w, after, u) {
      RecvAtEnd(w, net, f, u);
      assert old(RouterMirrors(x, w, net.delivered, u));
    }
  }

  /** recv, for a flight whose path ends at `r`. */
  method Receive(r: Router, p: Datagram, ghost x: Wiring, ghost w: World, ghost net: Net, ghost f: Flight)
    returns (ran: bool)
    requires Mirrors(x, w, net) && f.path != [] && f.path[|f.path| - 1] == r.id && r.id in w.g
    requires r == x.routers[r.id] && p == f.d
    modifies r`sent, r`bytesSent, x.queues.Values`queue, x.queues.Values`size, x.queues.Values`dropped
    ensures Mirrors(x, w, Recv(w, net, f)) && ran == (p.to in w.nodes && w.nodes[p.to] != r.id)
  {
    assert RouterMirrors(x, w, net.delivered, r.id);
    if p.to in r.nodes && r.nodes[p.to] != r.id {
      ran := ReceiveOnWay(r, p, x, w, net, f);
    } else {
      ran := ReceiveAtEnd(r, p, x, w, net, f);
    }
  }

  /** A datagram from outside reaches router `r`. */
  method InsertAt(r: Router, p: Datagram, ghost x: Wiring, ghost w: World, ghost net: Net) returns (ghost next: Net)
    requires Mirrors(x, w, net) && r.id in w.g && r == x.routers[r.id]
    modifies r`sent, r`bytesSent, x.queues.Values`queue, x.queues.Values`size, x.queues.Values`dropped
    ensures Enabled(w, net, Insert(r.id, p)) && next == Next(w, net, Insert(r.id, p))
    ensures Mirrors(x, w, next)
  {
    ghost var (rest, f) := Taken(w, net, Insert(r.id, p));
    assert Mirrors(x, w, rest) by {
      forall u | u in w.g ensures RouterMirrors(x, w, rest.delivered, u) {
        assert RouterMirrors(x, w, net.delivered, u);
      }
    }
    var _ := Receive(r, p, x, w, rest, f);
    next := Recv(w, rest, f);
  }

  /** One turn of the loop in run: the head of a queue comes due and reaches the router at its other end. */
  method ForwardHead(route: NSQueue, ghost x: Wiring, ghost w: World, ghost net: Net, ghost link: Link)
    returns (ghost next: Net)
    requires Mirrors(x, w, net) && link in x.queues && route == x.queues[link] && route.queue != []
    modifies x.routers.Values`sent, x.routers.Values`bytesSent
    modifies x.queues.Values`queue, x.queues.Values`size, x.queues.Values`dropped
    ensures Enabled(w, net, Forward(link.0, link.1)) && next == Next(w, net, Forward(link.0, link.1))
    ensures Mirrors(x, w, next)
  {
    assert LinkMirrors(x, w.max, link, net.queues[link]);
    assert RouterMirrors(x, w, net.delivered, link.1);
    var p := TakeHead(route, x, w, net, link);
    ghost var (rest, f) := Taken(w, net, Forward(link.0, link.1));
    var _ := Receive(route.routeRef, p, x, w, rest, f);
    next := Recv(w, rest, f);
  }

  /** The steps that forward over one link, as often as `n` says. */
  ghost function Heads(link: Link, n: nat): (r: seq<Step>)
    ensures |r| == n
  {
    seq(n, _ => Forward(link.0, link.1))
  }

  /** The loop in run over one queue, of which at most `due` datagrams come due while it is served. */
  method ServeRoute(route: NSQueue, due: nat, ghost x: Wiring, ghost w: World, ghost net: Net, ghost link: Link)
    returns (ghost n: nat)
    requires Mirrors(x, w, net) && link in x.queues && route == x.queues[link]
    modifies x.routers.Values`sent, x.routers.Values`bytesSent
    modifies x.queues.Values`queue, x.queues.Values`size, x.queues.Values`dropped
    ensures n <= due && (n == due || route.queue == [])
    ensures Run(System(w), net, Heads(link, n)).To? && Mirrors(x, w, Run(System(w), net, Heads(link, n)).state)
  {
    n := 0;
    ghost var now := net;
    var k := 0;
    while |route.queue| > 0 && k < due
      invariant n == k <= due && Run(System(w), net, Heads(link, n)) == To(now) && Mirrors(x, w, now)
      decreases due - k
    {
      ghost var next := ForwardHead(route, x, w, now, link);
      OneMoreHead(w, net, now, link, n);
      now := next;
      n, k := n + 1, k + 1;
    }
  }

  lemma OneMoreHead(w: World, net: Net, now: Net, link: Link, n: nat)
    requires Proper(w) && Run(System(w), net, Heads(link, n)) == To(now)
    requires now.queues.Keys == Links(w.g) && Enabled(w, now, Forward(link.0, link.1))
    ensures Run(System(w), net, Heads(link, n + 1)) == To(Next(w, now, Forward(link.0, link.1)))
  {
    var step := Forward(link.0, link.1);
    assert Heads(link, n + 1) == Heads(link, n) + [step];
    RunConcat(System(w), net, Heads(link, n), [step]);
    RunCons(System(w), now, step, []);
    assert [step] + [] == [step];
  }

  /** The routes of a router are its queue objects. */
  ghost predicate RoutesMirror(r: Router, x: Wiring)
    reads r`routes
  {
    forall v: nat :: r.HasRoute(v) ==> (r.id, v) in x.queues && r.routes[v] == x.queues[(r.id, v)]
  }

  /** Forwarding steps from router `u` only. */
  ghost predicate AllFrom(u: nat, steps: seq<Step>) {
    forall i :: 0 <= i < |steps| ==> steps[i].Forward? && steps[i].u == u
  }

  /** The turn of route `j`, where there may be none, after the steps taken so far. */
  method ServeAt(r: Router, j: nat, due: nat, ghost x: Wiring, ghost w: World, ghost net: Net,
                 ghost steps: seq<Step>, ghost now: Net)
    returns (ghost more: seq<Step>, ghost next: Net)
    requires RoutesMirror(r, x) && j < |r.routes|
    requires Mirrors(x, w, now) && Run(System(w), net, steps) == To(now) && AllFrom(r.id, steps)
    modifies x.routers.Values`sent, x.routers.Values`bytesSent
    modifies x.queues.Values`queue, x.queues.Values`size, x.queues.Values`dropped
    ensures Mirrors(x, w, next) && Run(System(w), net, steps + more) == To(next) && AllFrom(r.id, steps + more)
  {
    more, next := [], now;
    var route := r.routes[j];
    if route != null {
      assert r.HasRoute(j);
      ghost var n := ServeRoute(route, due, x, w, now, (r.id, j));
      more := Heads((r.id, j), n);
      next := Run(System(w), now, more).state;
      MoreHeads(w, net, steps, now, (r.id, j), n);
    }
    assert steps + [] == steps;
  }

  lemma MoreHeads(w: World, net: Net, steps: seq<Step>, now: Net, link: Link, n: nat)
    requires Proper(w) && Run(System(w), net, steps) == To(now) && AllFrom(link.0, steps)
    ensures Run(System(w), net, steps + Heads(link, n)) == Run(System(w), now, Heads(link, n))
    ensures AllFrom(link.0, steps + Heads(link, n))
  {
    RunConcat(System(w), net, steps, Heads(link, n));
  }

  /** run: serve every queue of the router once; `due[j]` bounds what comes due on route `j` meanwhile. */
  method ServeRouter(r: Router, due: seq<nat>, ghost x: Wiring, ghost w: World, ghost net: Net)
    returns (ghost steps: seq<Step>)
    requires Mirrors(x, w, net) && RoutesMirror(r, x) && |due| == |r.routes|
    modifies x.routers.Values`sent, x.routers.Values`bytesSent
    modifies x.queues.Values`queue, x.queues.Values`size, x.queues.Values`dropped
    ensures AllFrom(r.id, steps)
    ensures Run(System(w), net, steps).To? && Mirrors(x, w, Run(System(w), net, steps).state)
  {
    steps := [];
    ghost var now := net;
    for j := 0 to |r.routes|
      invariant RoutesMirror(r, x) && |due| == |r.routes| && AllFrom(r.id, steps)
      invariant Run(System(w), net, steps) == To(now) && Mirrors(x, w, now)
    {
      ghost var more, next := ServeAt(r, j, due[j], x, w, net, steps, now);
      steps, now := steps + more, next;
    }
  }

  // From routers whose tables are made to a network at work

  /** The queue of the link from `u` to its neighbour `v`. */
  ghost function QueueAt(vs: seq<Router?>, g: Topology, u: nat, v: nat): (q: NSQueue)
    requires Topo(vs, g) && u in g && v in g[u]
    reads RoutersOf(vs)`routes
    ensures vs[u].HasRoute(v) && q == vs[u].routes[v]
  {
    RouteOf(vs, g, u, v);
    vs[u].routes[v]
  }

  /** The objects of a linked set of routers. */
  ghost function WiringOf(vs: seq<Router?>, g: Topology): (x: Wiring)
    requires Topo(vs, g)
    reads RoutersOf(vs)`routes
    ensures x.routers.Keys == g.Keys && x.queues.Keys == Links(g)
    ensures forall u :: u in g ==> x.routers[u] == vs[u]
    ensures forall u, v :: u in g && v in g[u] ==> vs[u].HasRoute(v) && x.queues[(u, v)] == vs[u].routes[v]
  {
    var queues := map link | link in Links(g) :: QueueAt(vs, g, link.0, link.1);
    assert forall u, v :: u in g && v in g[u] ==> (u, v) in Links(g) && queues[(u, v)] == QueueAt(vs, g, u, v);
    Wiring(map u | u in g :: vs[u], queues)
  }

  /** The tables that the routers hold, by ids. */
  ghost function TablesOf(vs: seq<Router?>, g: Topology): map<nat, map<nat, nat>>
    requires Topo(vs, g)
    reads RoutersOf(vs)`routes, RoutersOf(vs)`routingTable
  {
    map u | u in g :: (map v | v in vs[u].routingTable :: vs[u].routingTable[v].routeRef.id)
  }

  /** Every router and every link is as it was made. */
  ghost predicate Untouched(vs: seq<Router?>, w: World)
    requires Topo(vs, w.g) && w.max.Keys == Links(w.g)
    reads RoutersOf(vs), WiringOf(vs, w.g).queues.Values
  {
    && Separate(WiringOf(vs, w.g))
    && (forall u :: u in w.g ==> vs[u].nodes == w.nodes && vs[u].sent == [])
    && (forall link :: link in Links(w.g) ==>
          var q := WiringOf(vs, w.g).queues[link];
          q.Valid() && q.queue == [] && q.max == w.max[link])
  }

  /** The tables that all routers have computed make a proper world. */
  lemma TablesMakeWorld(vs: seq<Router?>, w: World)
    requires Topo(vs, w.g) && Connected(w.g) && TablesUpTo(vs, w.g, |vs|)
    requires w.tables == TablesOf(vs, w.g) && w.max.Keys == Links(w.g)
    requires forall a :: a in w.nodes ==> w.nodes[a] in w.g
    ensures Proper(w)
  {
    forall u, v | u in w.g && v in w.g && u != v ensures EntryCorrect(w, u, v) {
      assert vs[u].TableRight(w.g);
      assert v in vs[u].routingTable;
      assert vs[u].LeadsTo(w.g, v, vs[u].routingTable[v]);
    }
  }

  /** After createTable on every router the objects are in the empty state of a proper world. */
  lemma TablesStart(vs: seq<Router?>, w: World)
    requires Topo(vs, w.g) && Connected(w.g) && TablesUpTo(vs, w.g, |vs|)
    requires w.tables == TablesOf(vs, w.g) && w.max.Keys == Links(w.g)
    requires forall a :: a in w.nodes ==> w.nodes[a] in w.g
    requires Untouched(vs, w)
    ensures Proper(w) && Mirrors(WiringOf(vs, w.g), w, Empty(w))
  {
    TablesMakeWorld(vs, w);
    var x := WiringOf(vs, w.g);
    forall link | link in x.queues ensures link.1 in x.routers && LinkMirrors(x, w.max, link, []) {
      RouteOf(vs, w.g, link.0, link.1);
    }
    forall u | u in w.g ensures RouterMirrors(x, w, [], u) {
      assert vs[u].TableRight(w.g);
      forall v | v in w.g && v != u
        ensures v in vs[u].routingTable && vs[u].routingTable[v] == x.queues[LinkTo(w, u, v)] {
        assert v in vs[u].routingTable;
        assert vs[u].LeadsTo(w.g, v, vs[u].routingTable[v]);
      }
    }
  }

  /** In every reachable state a router has handed over only datagrams of its own node. */
  lemma HandedOverAtHome(x: Wiring, w: World, net: Net, u: nat, i: nat)
    requires Mirrors(x, w, net) && Reachable(w, net) && u in w.g && i < |x.routers[u].sent|
    ensures var p := x.routers[u].sent[i]; p.to in w.nodes && w.nodes[p.to] == u
  {
    ReachableInv(w, net);
    assert RouterMirrors(x, w, net.delivered, u);
    var k := SentFrom(net.delivered, u, i);
  }

  lemma {:induction false} SentFrom(delivered: seq<Flight>, u: nat, i: nat) returns (k: nat)
    requires i < |SentAt(delivered, u)|
    ensures k < |delivered| && delivered[k].d == SentAt(delivered, u)[i]
    ensures delivered[k].path != [] && delivered[k].path[|delivered[k].path| - 1] == u
  {
    var last := |delivered| - 1;
    if i < |SentAt(delivered[..last], u)| {
      k := SentFrom(delivered[..last], u, i);
    } else {
      k := last;
    }
  }
}
