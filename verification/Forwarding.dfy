/** Datagrams that hop from router to router by tables that every router computed for itself. */
module Forwarding {
  import opened Graph
  import opened Runs

  /** What a router looks at: the address a datagram is bound for; `id` tells datagrams apart. */
  datatype Datagram = Datagram(id: nat, to: nat, length: nat)

  /** A datagram with the routers that have received it so far, in order. */
  datatype Flight = Flight(d: Datagram, path: seq<nat>)

  type Link = (nat, nat)

  function Links(g: Topology): set<Link> {
    set u, v | u in g && v in g[u] :: (u, v)
  }

  /** What does not change while packets flow. `tables[u][v]` is the neighbour that `u` uses for `v`. */
  datatype World = World(
    g: Topology,
    tables: map<nat, map<nat, nat>>,
    nodes: map<nat, nat>,
    max: map<Link, nat>)

  ghost predicate EntryCorrect(w: World, u: nat, v: nat) {
    && u in w.tables && v in w.tables[u]
    && IsFirstHop(w.g, u, v, w.tables[u][v])
  }

  /** Every router has filled its own table as createTable promises. */
  ghost predicate Proper(w: World) {
    && Closed(w.g) && Connected(w.g)
    && w.tables.Keys == w.g.Keys && w.max.Keys == Links(w.g)
    && (forall a :: a in w.nodes ==> w.nodes[a] in w.g)
    && (forall u, v {:trigger EntryCorrect(w, u, v)} :: u in w.g && v in w.g && u != v ==> EntryCorrect(w, u, v))
  }

  datatype Net = Net(
    queues: map<Link, seq<Flight>>,
    delivered: seq<Flight>,
    dropped: seq<Flight>,
    homeless: seq<Flight>,
    inserted: multiset<(nat, Datagram)>)

  /** Insert is a datagram that reaches the simulator at router `u`; Forward is the head of a queue coming due. */
  datatype Step = Insert(u: nat, d: Datagram) | Forward(u: nat, v: nat)

  function LinkTo(w: World, u: nat, dest: nat): (link: Link)
    requires Proper(w) && u in w.g && dest in w.g && u != dest
    ensures link in Links(w.g)
  {
    assert EntryCorrect(w, u, dest);
    (u, w.tables[u][dest])
  }

  /** recv, of a flight that has just reached its last router. */
  function Recv(w: World, net: Net, f: Flight): Net
    requires Proper(w) && net.queues.Keys == Links(w.g) && f.path != [] && f.path[|f.path| - 1] in w.g
  {
    var u := f.path[|f.path| - 1];
    if f.d.to !in w.nodes then
      net.(homeless := net.homeless + [f])
    else if w.nodes[f.d.to] == u then
      net.(delivered := net.delivered + [f])
    else
      var link := LinkTo(w, u, w.nodes[f.d.to]);
      if |net.queues[link]| >= w.max[link] then
        net.(dropped := net.dropped + [f])
      else
        net.(queues := net.queues[link := net.queues[link] + [f]])
  }

  ghost predicate Enabled(w: World, net: Net, step: Step) {
    match step
    case Insert(u, _) => u in w.g
    case Forward(u, v) => (u, v) in net.queues && net.queues[(u, v)] != []
  }

  /** The flight that a step hands to recv, and the network without it. */
  function Taken(w: World, net: Net, step: Step): (r: (Net, Flight))
    requires Enabled(w, net, step)
  {
    match step
    case Insert(u, d) => (net.(inserted := net.inserted + multiset{(u, d)}), Flight(d, [u]))
    case Forward(u, v) =>
      var q := net.queues[(u, v)];
      (net.(queues := net.queues[(u, v) := q[1..]]), q[0].(path := q[0].path + [v]))
  }

  function Next(w: World, net: Net, step: Step): Net
    requires Proper(w) && net.queues.Keys == Links(w.g) && Enabled(w, net, step)
  {
    var (rest, f) := Taken(w, net, step);
    Recv(w, rest, f)
  }

  ghost function System(w: World): (Net, Step) -> Maybe<Net>
    requires Proper(w)
  {
    (net: Net, step: Step) =>
      if net.queues.Keys == Links(w.g) && Enabled(w, net, step) then To(Next(w, net, step)) else Stuck
  }

  function Empty(w: World): Net {
    Net(map link | link in Links(w.g) :: [], [], [], [], multiset{})
  }

  ghost predicate Reachable(w: World, net: Net)
    requires Proper(w)
  {
    exists steps :: Run(System(w), Empty(w), steps) == To(net)
  }

  // Paths

  /** Every router on the path is one hop nearer to `dest` than the one before it. */
  ghost predicate Straight(g: Topology, path: seq<nat>, dest: nat)
    requires Connected(g)
  {
    && path != [] && dest in g && IsWalk(g, path)
    && forall i {:trigger path[i]} :: 0 <= i < |path| ==> DistOf(g, path[i], dest) + i == DistOf(g, path[0], dest)
  }

  ghost predicate OnWay(w: World, f: Flight)
    requires Proper(w)
  {
    && f.d.to in w.nodes
    && Straight(w.g, f.path, w.nodes[f.d.to])
  }

  ghost predicate Arrived(w: World, f: Flight)
    requires Proper(w)
  {
    OnWay(w, f) && f.path[|f.path| - 1] == w.nodes[f.d.to]
  }

  /** Queued at `link` because the table of its router says so. */
  ghost predicate QueuedAt(w: World, link: Link, f: Flight)
    requires Proper(w)
  {
    && OnWay(w, f) && f.path[|f.path| - 1] == link.0 != w.nodes[f.d.to]
    && link == LinkTo(w, link.0, w.nodes[f.d.to])
  }

  ghost predicate QueueOk(w: World, link: Link, q: seq<Flight>)
    requires Proper(w) && link in w.max
  {
    |q| <= w.max[link] && forall i :: 0 <= i < |q| ==> QueuedAt(w, link, q[i])
  }

  ghost predicate Inv(w: World, net: Net)
    requires Proper(w)
  {
    && net.queues.Keys == Links(w.g)
    && (forall link {:trigger QueueOk(w, link, net.queues[link])} :: link in net.queues ==>
          QueueOk(w, link, net.queues[link]))
    && (forall i :: 0 <= i < |net.delivered| ==> Arrived(w, net.delivered[i]))
    && (forall i :: 0 <= i < |net.dropped| ==> OnWay(w, net.dropped[i]) && !Arrived(w, net.dropped[i]))
    && (forall i :: 0 <= i < |net.homeless| ==> net.homeless[i].d.to !in w.nodes && |net.homeless[i].path| == 1)
  }

  /** What recv is handed: a flight on a straight way, or one nobody is the home of. */
  ghost predicate Incoming(w: World, f: Flight)
    requires Proper(w)
  {
    && f.path != [] && f.path[|f.path| - 1] in w.g
    && if f.d.to in w.nodes then OnWay(w, f) else |f.path| == 1
  }

  lemma RecvInv(w: World, net: Net, f: Flight)
    requires Proper(w) && Inv(w, net) && Incoming(w, f)
    ensures Inv(w, Recv(w, net, f))
  {
    var t := Recv(w, net, f);
    forall link | link in t.queues ensures QueueOk(w, link, t.queues[link]) {
      assert QueueOk(w, link, net.queues[link]);
    }
  }

  lemma OneRouterStraight(g: Topology, u: nat, dest: nat)
    requires Connected(g) && u in g && dest in g
    ensures Straight(g, [u], dest)
  {
  }

  /** A hop by the tables keeps the way straight. */
  lemma HopStraight(w: World, link: Link, f: Flight)
    requires Proper(w) && link in w.max && QueuedAt(w, link, f)
    ensures OnWay(w, f.(path := f.path + [link.1])) && link.1 in w.g
  {
    var dest := w.nodes[f.d.to];
    assert EntryCorrect(w, link.0, dest);
    FirstHopNearer(w.g, link.0, dest, link.1);
    var p := f.path + [link.1];
    assert f.path[|f.path| - 1] == link.0;
    assert IsWalk(w.g, p);
  }

  lemma TakenInv(w: World, net: Net, step: Step)
    requires Proper(w) && Inv(w, net) && Enabled(w, net, step)
    ensures Inv(w, Taken(w, net, step).0) && Incoming(w, Taken(w, net, step).1)
  {
    var (rest, f) := Taken(w, net, step);
    match step
    case Insert(u, d) =>
      if d.to in w.nodes {
        OneRouterStraight(w.g, u, w.nodes[d.to]);
      }
    case Forward(u, v) =>
      assert QueueOk(w, (u, v), net.queues[(u, v)]);
      HopStraight(w, (u, v), net.queues[(u, v)][0]);
      forall link | link in rest.queues ensures QueueOk(w, link, rest.queues[link]) {
        assert QueueOk(w, link, net.queues[link]);
      }
  }

  lemma StepInv(w: World, net: Net, step: Step)
    requires Proper(w) && Inv(w, net) && Enabled(w, net, step)
    ensures Inv(w, Next(w, net, step))
  {
    TakenInv(w, net, step);
    RecvInv(w, Taken(w, net, step).0, Taken(w, net, step).1);
  }

  lemma {:induction false} RunInv(w: World, net: Net, steps: seq<Step>)
    requires Proper(w) && Inv(w, net) && Run(System(w), net, steps).To?
    ensures Inv(w, Run(System(w), net, steps).state)
    decreases |steps|
  {
    if steps != [] {
      StepInv(w, net, steps[0]);
      RunInv(w, Next(w, net, steps[0]), steps[1..]);
    }
  }

  lemma ReachableInv(w: World, net: Net)
    requires Proper(w) && Reachable(w, net)
    ensures Inv(w, net)
  {
    var steps :| Run(System(w), Empty(w), steps) == To(net);
    forall link | link in Empty(w).queues ensures QueueOk(w, link, Empty(w).queues[link]) {
    }
    RunInv(w, Empty(w), steps);
  }

  /** Routers on a straight way are all different. */
  lemma NoRevisit(g: Topology, path: seq<nat>, dest: nat, i: nat, j: nat)
    requires Connected(g) && Straight(g, path, dest) && i < j < |path|
    ensures path[i] != path[j]
  {
  }

  /**
    Loop-free delivery: a delivered datagram is where it was bound for, after
    exactly as many hops as the distance from where it was inserted, and was
    never twice at the same router.
   */
  lemma Delivery(w: World, net: Net, f: Flight)
    requires Proper(w) && Reachable(w, net) && f in net.delivered
    ensures f.d.to in w.nodes && f.path != [] && IsWalk(w.g, f.path)
    ensures f.path[|f.path| - 1] == w.nodes[f.d.to]
    ensures |f.path| == DistOf(w.g, f.path[0], w.nodes[f.d.to]) + 1
    ensures forall i, j :: 0 <= i < j < |f.path| ==> f.path[i] != f.path[j]
  {
    ReachableInv(w, net);
    var dest := w.nodes[f.d.to];
    DistOfZero(w.g, dest, dest);
    assert DistOf(w.g, f.path[|f.path| - 1], dest) == 0;
    forall i, j | 0 <= i < j < |f.path| ensures f.path[i] != f.path[j] {
      NoRevisit(w.g, f.path, dest, i, j);
    }
  }

  /** Every Forward step takes its datagram exactly one hop nearer to where it is bound for. */
  lemma ForwardNearer(w: World, net: Net, u: nat, v: nat)
    requires Proper(w) && Reachable(w, net) && Enabled(w, net, Forward(u, v))
    ensures var f := net.queues[(u, v)][0];
            && f.d.to in w.nodes && v in w.g && u in w.g
            && DistOf(w.g, u, w.nodes[f.d.to]) == DistOf(w.g, v, w.nodes[f.d.to]) + 1
            && v !in f.path
  {
    ReachableInv(w, net);
    assert QueueOk(w, (u, v), net.queues[(u, v)]);
    var f := net.queues[(u, v)][0];
    HopStraight(w, (u, v), f);
    var p := f.path + [v];
    var dest := w.nodes[f.d.to];
    assert p[|p| - 1] == v && p[|p| - 2] == u;
    forall i | 0 <= i < |f.path| ensures f.path[i] != v {
      NoRevisit(w.g, p, dest, i, |f.path|);
    }
  }
}

/** Nothing is lost or made up on the way, and the hops done, left and lost add up. */
module ForwardingTotals {
  import opened Graph
  import opened Runs
  import opened Forwarding

  /** A weight added up over a list of flights, and over all queues. */
  function Total(q: seq<Flight>, weight: Flight -> nat): nat {
    if q == [] then 0 else weight(q[0]) + Total(q[1..], weight)
  }

  ghost function Queued(queues: map<Link, seq<Flight>>, weight: Flight -> nat): nat
    decreases |queues|
  {
    if queues == map[] then 0
    else
      var link :| link in queues;
      Total(queues[link], weight) + Queued(queues - {link}, weight)
  }

  lemma {:induction false} TotalAppend(q: seq<Flight>, f: Flight, weight: Flight -> nat)
    ensures Total(q + [f], weight) == Total(q, weight) + weight(f)
  {
    if q != [] {
      assert (q + [f])[1..] == q[1..] + [f];
      TotalAppend(q[1..], f, weight);
    }
  }

  /** Any queue may be counted first. */
  lemma {:induction false} QueuedSplit(queues: map<Link, seq<Flight>>, link: Link, weight: Flight -> nat)
    requires link in queues
    ensures Queued(queues, weight) == Total(queues[link], weight) + Queued(queues - {link}, weight)
    decreases |queues|
  {
    var other :| other in queues
                 && Queued(queues, weight) == Total(queues[other], weight) + Queued(queues - {other}, weight);
    if other != link {
      QueuedSplit(queues - {other}, link, weight);
      QueuedSplit(queues - {link}, other, weight);
      assert queues - {other} - {link} == queues - {link} - {other};
    }
  }

  lemma QueuedUpdate(queues: map<Link, seq<Flight>>, link: Link, q: seq<Flight>, weight: Flight -> nat)
    requires link in queues
    ensures Queued(queues[link := q], weight) + Total(queues[link], weight) == Queued(queues, weight) + Total(q, weight)
  {
    QueuedSplit(queues, link, weight);
    QueuedSplit(queues[link := q], link, weight);
    assert queues[link := q] - {link} == queues - {link};
  }

  lemma {:induction false} QueuedNothing(queues: map<Link, seq<Flight>>, weight: Flight -> nat)
    requires forall link :: link in queues ==> queues[link] == []
    ensures Queued(queues, weight) == 0
    decreases |queues|
  {
    if queues != map[] {
      var link :| link in queues
                  && Queued(queues, weight) == Total(queues[link], weight) + Queued(queues - {link}, weight);
      QueuedNothing(queues - {link}, weight);
    }
  }

  /** A weight added up over everything that has not vanished. */
  ghost function Everywhere(net: Net, weight: Flight -> nat): nat {
    Queued(net.queues, weight) + Total(net.delivered, weight) + Total(net.dropped, weight) + Total(net.homeless, weight)
  }

  /** recv puts its flight in exactly one place. */
  lemma RecvTotals(w: World, net: Net, f: Flight, weight: Flight -> nat)
    requires Proper(w) && net.queues.Keys == Links(w.g) && f.path != [] && f.path[|f.path| - 1] in w.g
    ensures Everywhere(Recv(w, net, f), weight) == Everywhere(net, weight) + weight(f)
  {
    TotalAppend(net.delivered, f, weight);
    TotalAppend(net.dropped, f, weight);
    TotalAppend(net.homeless, f, weight);
    var u := f.path[|f.path| - 1];
    if f.d.to in w.nodes && w.nodes[f.d.to] != u {
      var link := LinkTo(w, u, w.nodes[f.d.to]);
      TotalAppend(net.queues[link], f, weight);
      QueuedUpdate(net.queues, link, net.queues[link] + [f], weight);
    }
  }

  /** A step takes its flight out of exactly one queue, or brings it in. */
  lemma TakenTotals(w: World, net: Net, step: Step, weight: Flight -> nat)
    requires Enabled(w, net, step)
    ensures Everywhere(net, weight) == Everywhere(Taken(w, net, step).0, weight)
                                       + match step {
                                           case Insert(_, _) => 0
                                           case Forward(u, v) => weight(net.queues[(u, v)][0])
                                         }
  {
    if step.Forward? {
      QueuedUpdate(net.queues, (step.u, step.v), net.queues[(step.u, step.v)][1..], weight);
    }
  }

  /** What recv is handed fits the network it is handed to. */
  ghost predicate Fits(w: World, rest: Net, f: Flight) {
    rest.queues.Keys == Links(w.g) && f.path != [] && f.path[|f.path| - 1] in w.g
  }

  lemma TakenFits(w: World, net: Net, step: Step)
    requires Proper(w) && Inv(w, net) && Enabled(w, net, step)
    ensures Fits(w, Taken(w, net, step).0, Taken(w, net, step).1)
  {
    TakenInv(w, net, step);
  }

  /** The weight that a step takes out of a queue. */
  function Lifted(w: World, net: Net, step: Step, weight: Flight -> nat): nat
    requires step.Forward? ==> (step.u, step.v) in net.queues && net.queues[(step.u, step.v)] != []
  {
    if step.Forward? then weight(net.queues[(step.u, step.v)][0]) else 0
  }

  /** A step moves one flight from one place to another. */
  lemma StepTotals(w: World, net: Net, step: Step, weight: Flight -> nat)
    requires Proper(w) && Enabled(w, net, step) && net.queues.Keys == Links(w.g)
    requires Fits(w, Taken(w, net, step).0, Taken(w, net, step).1)
    ensures Everywhere(Next(w, net, step), weight) + Lifted(w, net, step, weight)
            == Everywhere(net, weight) + weight(Taken(w, net, step).1)
  {
    var (rest, f) := Taken(w, net, step);
    TakenTotals(w, net, step, weight);
    RecvTotals(w, rest, f, weight);
  }

  /** The flights of datagram `d` that began at router `u`. */
  function Is(u: nat, d: Datagram): Flight -> nat {
    (f: Flight) => if f.path != [] && f.path[0] == u && f.d == d then 1 else 0
  }

  ghost predicate Counted(net: Net, u: nat, d: Datagram) {
    net.inserted[(u, d)] == Everywhere(net, Is(u, d))
  }

  ghost predicate Balanced(net: Net) {
    forall u: nat, d: Datagram :: Counted(net, u, d)
  }

  /** A step inserts what recv is handed and was not queued before. */
  lemma StepInserts(w: World, net: Net, step: Step, u: nat, d: Datagram)
    requires Proper(w) && Inv(w, net) && Enabled(w, net, step)
    requires Fits(w, Taken(w, net, step).0, Taken(w, net, step).1)
    ensures Next(w, net, step).inserted[(u, d)] + Lifted(w, net, step, Is(u, d))
            == net.inserted[(u, d)] + Is(u, d)(Taken(w, net, step).1)
  {
    if step.Forward? {
      assert QueueOk(w, (step.u, step.v), net.queues[(step.u, step.v)]);
    }
  }

  lemma StepCount(w: World, net: Net, step: Step, u: nat, d: Datagram)
    requires Proper(w) && Inv(w, net) && Enabled(w, net, step) && Counted(net, u, d)
    ensures Counted(Next(w, net, step), u, d)
  {
    TakenFits(w, net, step);
    StepTotals(w, net, step, Is(u, d));
    StepInserts(w, net, step, u, d);
  }

  lemma StepBalanced(w: World, net: Net, step: Step)
    requires Proper(w) && Inv(w, net) && Enabled(w, net, step) && Balanced(net)
    ensures Balanced(Next(w, net, step))
  {
    forall u: nat, d: Datagram ensures Counted(Next(w, net, step), u, d) {
      StepCount(w, net, step, u, d);
    }
  }

  lemma {:induction false} RunBalanced(w: World, net: Net, steps: seq<Step>)
    requires Proper(w) && Inv(w, net) && Balanced(net) && Run(System(w), net, steps).To?
    ensures Balanced(Run(System(w), net, steps).state)
    decreases |steps|
  {
    if steps != [] {
      StepInv(w, net, steps[0]);
      StepBalanced(w, net, steps[0]);
      RunBalanced(w, Next(w, net, steps[0]), steps[1..]);
    }
  }

  lemma EmptyGood(w: World)
    requires Proper(w)
    ensures Inv(w, Empty(w)) && forall weight: Flight -> nat :: Queued(Empty(w).queues, weight) == 0
  {
    assert Run(System(w), Empty(w), []) == To(Empty(w));
    ReachableInv(w, Empty(w));
    forall weight: Flight -> nat ensures Queued(Empty(w).queues, weight) == 0 {
      QueuedNothing(Empty(w).queues, weight);
    }
  }

  /**
    Conservation: as often as a datagram was inserted at a router, so often it is
    queued, delivered, dropped or discarded for having no destination node, on a
    path that begins at that router.
   */
  lemma Conservation(w: World, net: Net, u: nat, d: Datagram)
    requires Proper(w) && Reachable(w, net)
    ensures net.inserted[(u, d)] == Queued(net.queues, Is(u, d)) + Total(net.delivered, Is(u, d))
                                    + Total(net.dropped, Is(u, d)) + Total(net.homeless, Is(u, d))
  {
    var steps :| Run(System(w), Empty(w), steps) == To(net);
    EmptyGood(w);
    RunBalanced(w, Empty(w), steps);
    assert Counted(net, u, d);
  }

  // Hops

  /** How far a flight is from where it is bound for. */
  ghost function Left(w: World): Flight -> nat
    requires Proper(w)
  {
    (f: Flight) =>
      if f.d.to in w.nodes && f.path != [] && f.path[|f.path| - 1] in w.g
      then DistOf(w.g, f.path[|f.path| - 1], w.nodes[f.d.to]) else 0
  }

  function Forwards(steps: seq<Step>): nat {
    if steps == [] then 0 else (if steps[0].Forward? then 1 else 0) + Forwards(steps[1..])
  }

  /** The distances that the inserted datagrams have to go. */
  ghost function Journeys(w: World, steps: seq<Step>): nat
    requires Proper(w)
  {
    if steps == [] then 0
    else (if steps[0].Insert? then Left(w)(Flight(steps[0].d, [steps[0].u])) else 0) + Journeys(w, steps[1..])
  }

  ghost function Remaining(w: World, net: Net): nat
    requires Proper(w)
  {
    Queued(net.queues, Left(w)) + Total(net.dropped, Left(w))
  }

  lemma {:induction false} NothingLeft(w: World, q: seq<Flight>)
    requires Proper(w)
    requires forall i :: 0 <= i < |q| ==> Left(w)(q[i]) == 0
    ensures Total(q, Left(w)) == 0
  {
    if q != [] {
      NothingLeft(w, q[1..]);
    }
  }

  /** Nothing is left to go for what was delivered or discarded. */
  lemma OnlyRemaining(w: World, net: Net)
    requires Proper(w) && Inv(w, net)
    ensures Everywhere(net, Left(w)) == Remaining(w, net)
  {
    forall i | 0 <= i < |net.delivered| ensures Left(w)(net.delivered[i]) == 0 {
      DistOfZero(w.g, w.nodes[net.delivered[i].d.to], w.nodes[net.delivered[i].d.to]);
    }
    NothingLeft(w, net.delivered);
    NothingLeft(w, net.homeless);
  }

  /** A Forward step uses up one hop, and an Insert adds the distance to go. */
  lemma StepHops(w: World, net: Net, step: Step)
    requires Proper(w) && Inv(w, net) && Enabled(w, net, step)
    ensures Remaining(w, Next(w, net, step)) + Forwards([step]) == Remaining(w, net) + Journeys(w, [step])
  {
    TakenFits(w, net, step);
    StepTotals(w, net, step, Left(w));
    StepInv(w, net, step);
    OnlyRemaining(w, net);
    OnlyRemaining(w, Next(w, net, step));
    HopsOfStep(w, net, step);
  }

  lemma HopsOfStep(w: World, net: Net, step: Step)
    requires Proper(w) && Inv(w, net) && Enabled(w, net, step)
    ensures Left(w)(Taken(w, net, step).1) + Forwards([step])
            == Lifted(w, net, step, Left(w)) + Journeys(w, [step])
  {
    if step.Forward? {
      var link := (step.u, step.v);
      var q := net.queues[link];
      assert QueueOk(w, link, q);
      HopLeft(w, link, q[0]);
    }
  }

  lemma HopLeft(w: World, link: Link, f: Flight)
    requires Proper(w) && link in w.max && QueuedAt(w, link, f)
    ensures Left(w)(f) == Left(w)(f.(path := f.path + [link.1])) + 1
  {
    HopStraight(w, link, f);
    EntryNearer(w, link.0, w.nodes[f.d.to]);
  }

  lemma EntryNearer(w: World, u: nat, dest: nat)
    requires Proper(w) && u in w.g && dest in w.g && u != dest
    ensures var v := LinkTo(w, u, dest).1; v in w.g && DistOf(w.g, u, dest) == DistOf(w.g, v, dest) + 1
  {
    assert EntryCorrect(w, u, dest);
    FirstHopNearer(w.g, u, dest, w.tables[u][dest]);
  }

  lemma {:induction false} RunHops(w: World, net: Net, steps: seq<Step>)
    requires Proper(w) && Inv(w, net) && Run(System(w), net, steps).To?
    ensures Remaining(w, Run(System(w), net, steps).state) + Forwards(steps) == Remaining(w, net) + Journeys(w, steps)
    decreases |steps|
  {
    if steps != [] {
      StepInv(w, net, steps[0]);
      StepHops(w, net, steps[0]);
      RunHops(w, Next(w, net, steps[0]), steps[1..]);
    }
  }

  /**
    In every run the hops made, the hops queued datagrams still have to make and
    the hops dropped ones had left add up to the distances of all inserted ones;
    so a run makes no more hops than that.
   */
  lemma HopsAddUp(w: World, steps: seq<Step>)
    requires Proper(w) && Run(System(w), Empty(w), steps).To?
    ensures var net := Run(System(w), Empty(w), steps).state;
            Forwards(steps) + Queued(net.queues, Left(w)) + Total(net.dropped, Left(w)) == Journeys(w, steps)
  {
    EmptyGood(w);
    RunHops(w, Empty(w), steps);
  }

  /** From every state the queues run empty, one hop after the other. */
  lemma {:induction false} Drains(w: World, net: Net) returns (steps: seq<Step>)
    requires Proper(w) && Inv(w, net)
    ensures Run(System(w), net, steps).To? && Forwards(steps) == |steps|
    ensures forall link :: link in Links(w.g) ==>
              link in Run(System(w), net, steps).state.queues && Run(System(w), net, steps).state.queues[link] == []
    decreases Queued(net.queues, Left(w))
  {
    if link :| link in net.queues && net.queues[link] != [] {
      var step := Forward(link.0, link.1);
      StepInv(w, net, step);
      ForwardLowers(w, net, step);
      steps := Drains(w, Next(w, net, step));
      RunCons(System(w), net, step, steps);
      assert ([step] + steps)[1..] == steps;
      steps := [step] + steps;
    } else {
      steps := [];
    }
  }

  lemma ForwardLowers(w: World, net: Net, step: Step)
    requires Proper(w) && Inv(w, net) && Enabled(w, net, step) && step.Forward?
    ensures Queued(Next(w, net, step).queues, Left(w)) < Queued(net.queues, Left(w))
  {
    StepHops(w, net, step);
    var f := Taken(w, net, step).1;
    TotalAppend(net.dropped, f, Left(w));
  }
}
