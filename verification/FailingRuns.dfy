/** Runs of the host, event by event, that show what fails. */
module FailingRuns {
  import opened Constants
  import opened Numbers
  import opened ClaimSpec
  import opened WhohasQueue
  import opened SilenceSpec
  import opened Silence
  import opened Runs
  import opened HostRuns
  import opened ClaimLimits

  // Silence, as part of a run

  /** `n` timeouts neither reset this peer nor forget the claims. */
  predicate Patient(p: Timed, n: nat) {
    && (if Pending(p) then p.retransmits + n <= MAX_RETRANSMITS else p.retransmits < MAX_RETRANSMITS)
    && (Waiting(p) ==> p.ackTimeout + n <= MAX_DATA_RETRANSMIT)
  }

  function Older(p: Timed, n: nat): Timed {
    p.(retransmits := p.retransmits + if Pending(p) then n else 0,
       ackTimeout := p.ackTimeout + if Waiting(p) then n else 0)
  }

  function AllOlder(s: State, n: nat): State {
    s.(loop := s.loop.(peers := seq(|s.loop.peers|, i requires 0 <= i < |s.loop.peers| => Older(s.loop.peers[i], n))))
  }

  ghost predicate AllPatient(s: State, n: nat) {
    && s.loop.currTo.None? && !s.serving
    && forall i :: 0 <= i < |s.loop.peers| ==> Patient(s.loop.peers[i], n)
  }

  lemma TimeoutPasses(s: State)
    requires Inv(s) && AllPatient(s, 1)
    ensures Next(s, Timeout) == AllOlder(s, 1)
  {
    var t := DataPart(s.loop);
    HostAfterFof(t.host, t.peers);
    forall i | 0 <= i < |t.peers| ensures NextPeer(t.peers[i]) == Older(s.loop.peers[i], 1) && !Cleans(s.loop, i) {
      assert Patient(s.loop.peers[i], 1);
    }
    assert NextPeers(t.peers) == AllOlder(s, 1).loop.peers;
  }

  function Timeouts(n: nat): seq<Step> {
    seq(n, i requires 0 <= i < n => Timeout)
  }

  lemma OlderInTwo(s: State, n: nat)
    requires n > 0 && AllPatient(s, n)
    ensures AllPatient(s, 1) && AllPatient(AllOlder(s, 1), n - 1)
    ensures AllOlder(AllOlder(s, 1), n - 1) == AllOlder(s, n)
  {
    var t := AllOlder(s, 1);
    forall i | 0 <= i < |s.loop.peers|
      ensures Patient(s.loop.peers[i], 1) && Patient(t.loop.peers[i], n - 1)
      ensures Older(t.loop.peers[i], n - 1) == Older(s.loop.peers[i], n)
    {
      assert Patient(s.loop.peers[i], n);
    }
    assert AllOlder(t, n - 1).loop.peers == AllOlder(s, n).loop.peers;
  }

  lemma OneTimeout(s: State, n: nat) returns (t: State)
    requires n > 0 && Inv(s) && AllPatient(s, n)
    ensures System()(s, Timeout) == To(t) && Inv(t) && AllPatient(t, n - 1) && AllOlder(t, n - 1) == AllOlder(s, n)
  {
    OlderInTwo(s, n);
    TimeoutPasses(s);
    StepInv(s, Timeout);
    t := AllOlder(s, 1);
  }

  lemma {:induction false} SilencePasses(s: State, n: nat)
    requires Inv(s) && AllPatient(s, n)
    ensures Run(System(), s, Timeouts(n)) == To(AllOlder(s, n))
    decreases n
  {
    if n == 0 {
      assert AllOlder(s, 0).loop.peers == s.loop.peers;
    } else {
      var t := OneTimeout(s, n);
      SilencePasses(t, n - 1);
      RunCons(System(), s, Timeout, Timeouts(n - 1));
      assert Timeouts(n) == [Timeout] + Timeouts(n - 1);
    }
  }

  lemma ReachableSilence(s: State, n: nat)
    requires Reachable(s) && AllPatient(s, n)
    ensures Reachable(AllOlder(s, n))
  {
    ReachableInv(s);
    SilencePasses(s, n);
    ReachableBy(s, Timeouts(n));
  }

  // Runs that show what fails

  /** A peer that was asked for its only chunk. */
  function AskedOne(c: Chunk): Peer {
    Peer([c], 1, 0, c.id, Some(c), [], None)
  }

  /** A peer that announced only a chunk claimed from another one. */
  function NotAsked(c: Chunk): Peer {
    Peer([], 1, 1, c.id, None, [], None)
  }

  function AskedFor(hash: Hash): Peer {
    Peer([], 0, 0, PSEUDO_INF, None, [[hash]], Some([hash]))
  }

  lemma RequestOne(p: Peer, hash: Hash)
    requires p.whohas == []
    ensures Requested(p, [hash]) == p.(whohas := [[hash]], pendingWhohas := Some([hash]))
  {
    assert Iterations(1) == 1 && PacketAt([hash], 0) == [hash];
    assert Packets([hash]) == [[hash]];
    assert [] + Packets([hash]) == [[hash]];
  }

  lemma OfferOne(fof: seq<int>, c: Chunk)
    ensures IhaveIn(fof, AskedFor(c.hash), [c])
            == if c.id in fof then (fof, NotAsked(c), []) else (fof + [c.id], AskedOne(c), [Get(c)])
  {
    assert [[c.hash]][1..] == [] && [] + [c] == [c] && [c][1..] == [];
    assert Unclaimed(fof, [c]) == if c.id in fof then Unclaimed(fof, []) else [c];
  }

  /** Peer 0 has announced `c` and is asked for it. */
  lemma FirstPeerAsked(c: Chunk, n: nat) returns (s: State)
    requires n > 0
    ensures Reachable(s) && |s.loop.peers| == n && s.loop.host.fof == [c.id] && s.open == {(0, c.id)}
    ensures s.loop.currTo.None? && !s.serving && s.fetched == {}
    ensures s.loop.peers[0] == Idle().(claim := AskedOne(c))
    ensures forall i :: 1 <= i < n ==> s.loop.peers[i] == Idle().(claim := AskedFor(c.hash))
  {
    s := State(Loop(Host([], 0, 0), seq(n, i => Idle()), None), false, {}, {}, [], {});
    assert Fresh(s) && Run(System(), s, []) == To(s);
    ReachableNext(s, Request([c.hash]));
    s := Next(s, Request([c.hash]));
    RequestOne(Idle().claim, c.hash);
    OfferOne([], c);
    ReachableNext(s, Ihave(0, [c]));
    s := Next(s, Ihave(0, [c]));
  }

  /** Peer 0 has sent some of `c`. */
  lemma FirstPeerSends(c: Chunk, n: nat) returns (s: State)
    requires n > 0
    ensures Reachable(s) && |s.loop.peers| == n && s.loop.host.fof == [c.id] && s.open == {(0, c.id)}
    ensures s.loop.currTo.None? && !s.serving
    ensures s.loop.peers[0] == Idle().(claim := AskedOne(c).(pendingGet := None))
    ensures forall i :: 1 <= i < n ==> s.loop.peers[i] == Idle().(claim := AskedFor(c.hash))
  {
    s := FirstPeerAsked(c, n);
    ReachableNext(s, Data(0));
    s := Next(s, Data(0));
  }

  /** For ten timeouts peer 1 is waited for, though it was not asked; then peer 0 sends a packet. */
  lemma SecondPeerWaitedFor(c: Chunk) returns (s: State)
    ensures Reachable(s) && s.open == {(0, c.id)} && s.loop.currTo.None? && !s.serving
    ensures s.loop.peers == [Idle().(claim := AskedOne(c).(pendingGet := None)),
                             Idle().(claim := NotAsked(c), ackTimeout := MAX_DATA_RETRANSMIT)]
  {
    s := FirstPeerSends(c, 2);
    OfferOne(s.loop.host.fof, c);
    ReachableNext(s, Ihave(1, [c]));
    s := Next(s, Ihave(1, [c]));
    assert s.loop.peers == [Idle().(claim := AskedOne(c).(pendingGet := None)), Idle().(claim := NotAsked(c))];
    ReachableSilence(s, MAX_DATA_RETRANSMIT);
    s := AllOlder(s, MAX_DATA_RETRANSMIT);
    ReachableNext(s, Data(0));
    s := Next(s, Data(0));
  }

  /** The eleventh timeout for peer 1, and another request. */
  lemma SecondPeerGivenUp(s: State, c: Chunk) returns (t: State)
    requires Reachable(s) && s.open == {(0, c.id)} && s.loop.currTo.None? && !s.serving
    requires s.loop.peers == [Idle().(claim := AskedOne(c).(pendingGet := None)),
                              Idle().(claim := NotAsked(c), ackTimeout := MAX_DATA_RETRANSMIT)]
    ensures Reachable(t) && t.loop.host.fof == [] && t.open == {(0, c.id)} && |t.loop.peers| == 2
    ensures t.loop.peers[0].claim.getHashId == c.id && t.loop.peers[0].retransmits == 0
    ensures t.loop.peers[1] == Idle().(claim := AskedFor(c.hash))
  {
    ReachableInv(s);
    assert GivesUp(s.loop, 1);
    TickFof(s);
    ReachableNext(s, Timeout);
    t := Next(s, Timeout);
    assert t.loop.peers == [s.loop.peers[0].(ackTimeout := 1), Idle()];
    RequestOne(t.loop.peers[0].claim, c.hash);
    RequestOne(t.loop.peers[1].claim, c.hash);
    ReachableNext(t, Request([c.hash]));
    t := Next(t, Request([c.hash]));
  }

  /**
    A chunk fetched from two peers at the same time. Peer 1 has nothing but the chunk
    that peer 0 is sending, so it is not asked; the host waits for data from it
    all the same. Peer 0 sends a packet every thirty seconds, peer 1 sends
    nothing: the eleventh timeout gives peer 1 up and forgets the claim of peer 0
    as well. The next request has peer 1 asked for what peer 0 is still sending.
   */
  lemma ClaimedTwice(c: Chunk) returns (s: State)
    ensures Reachable(s) && |s.loop.peers| == 2
    ensures Double(s, c.id)
    ensures forall i :: 0 <= i < 2 ==> Feeds(s, i, c.id) && s.loop.peers[i].retransmits == 0
    ensures s.loop.peers[1].claim.pendingGet == Some(c)
  {
    s := SecondPeerWaitedFor(c);
    s := SecondPeerGivenUp(s, c);
    OfferOne([], c);
    ReachableNext(s, Ihave(1, [c]));
    s := Next(s, Ihave(1, [c]));
    assert Feeds(s, 0, c.id) && Feeds(s, 1, c.id);
  }

  /** An IHAVE that comes while a chunk of the same peer is listed: one chunk more is listed than announced. */
  lemma AccountingUpset(c: Chunk, d: Chunk) returns (s: State)
    ensures Reachable(s) && |s.loop.peers| == 1 && !Accounting(s.loop.peers[0].claim)
  {
    s := FirstPeerAsked(c, 1);
    IhaveAccounting(s.loop.host.fof, s.loop.peers[0].claim, [d]);
    ReachableNext(s, Ihave(0, [d]));
    s := Next(s, Ihave(0, [d]));
  }

  /** Peer 0 is asked for `c` when it asks for a chunk itself, and acknowledges the first packet after a timeout. */
  lemma ServedWhileAsked(c: Chunk) returns (s: State)
    ensures Reachable(s) && s.loop.currTo == Some(0)
    ensures s.loop.peers == [Idle().(claim := AskedOne(c).(pendingGet := None), ackTimeout := 1)]
  {
    s := FirstPeerSends(c, 1);
    ReachableNext(s, GetFrom(0));
    s := Next(s, GetFrom(0));
    var p := s.loop.peers[0];
    ReachableInv(s);
    ReachableNext(s, Timeout);
    s := Next(s, Timeout);
    assert s.loop.peers == [p.(dataRetransmits := 1, ackTimeout := 1)];
    ReachableNext(s, AckFrom(0, false));
    s := Next(s, AckFrom(0, false));
  }

  /** A transfer that sends twenty data packets into the silence. */
  lemma TwentyDataPackets(c: Chunk) returns (s: State)
    ensures Reachable(s) && Bounded(s.loop) && ExceedsLimit(s.loop)
    ensures forall n: nat :: DataSends(s.loop, n) == Min(n, 2 * MAX_DATA_RETRANSMIT)
  {
    s := ServedWhileAsked(c);
    assert Bounded(s.loop) && NobodyRunsOut(s.loop) && DataLeft(s.loop) == 2 * MAX_DATA_RETRANSMIT;
    ExceedsIff(s.loop);
    forall n: nat ensures DataSends(s.loop, n) == Min(n, 2 * MAX_DATA_RETRANSMIT) {
      DataSendsExactly(s.loop, n);
    }
  }

  /**
    Six timeouts strand a chunk: the only peer that has it is given up while the
    GET is unanswered. The claim stays, nothing is pending or waited for any more,
    and no further silence changes this.
   */
  lemma StrandedChunk(c: Chunk) returns (s: State)
    ensures Reachable(s) && c.id in s.loop.host.fof && !Covered(s, c.id)
    ensures forall i :: 0 <= i < |s.loop.peers| ==> !Waiting(s.loop.peers[i]) && !Pending(s.loop.peers[i])
    ensures forall n: nat :: Run(System(), s, Timeouts(n)) == To(s)
  {
    s := FirstPeerAsked(c, 1);
    var asked := Idle().(claim := AskedOne(c));
    assert s.loop.peers == [asked];
    ReachableSilence(s, MAX_RETRANSMITS);
    s := AllOlder(s, MAX_RETRANSMITS);
    assert s.loop.peers == [asked.(retransmits := MAX_RETRANSMITS, ackTimeout := MAX_RETRANSMITS)];
    ReachableInv(s);
    TickFof(s);
    ReachableNext(s, Timeout);
    s := Next(s, Timeout);
    ReachableInv(s);
    forall n: nat ensures Run(System(), s, Timeouts(n)) == To(s) {
      SilencePasses(s, n);
      assert AllOlder(s, n).loop.peers == s.loop.peers;
    }
  }
}
