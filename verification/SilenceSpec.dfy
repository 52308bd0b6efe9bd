/** What the timeout branch of peer_run does while no packet arrives, as values. */
module SilenceSpec {
  import opened Constants
  import opened ClaimSpec

  /** What the event loop keeps about a peer besides the claiming state. */
  datatype Timed = Timed(claim: Peer, pendingIhave: bool, retransmits: nat, dataRetransmits: nat, ackTimeout: nat)

  /** `currTo` is the place in the list of the peer that is being sent data. */
  datatype Loop = Loop(host: Host, peers: seq<Timed>, currTo: Option<nat>)

  predicate Pending(p: Timed) {
    p.claim.pendingWhohas.Some? || p.pendingIhave || p.claim.pendingGet.Some?
  }

  /** Data from this peer is being waited for. */
  predicate Waiting(p: Timed) {
    p.claim.getHashId != PSEUDO_INF
  }

  /** peer_total_cleanup */
  function TotalCleanup(p: Timed): Timed {
    Timed(Cleaned(p.claim), false, 0, 0, 0)
  }

  /** The first two parts of a turn: give up on control packets, or send the pending one again. */
  function AfterControl(p: Timed): Timed {
    var q := if p.retransmits == MAX_RETRANSMITS then TotalCleanup(p) else p;
    if Pending(q) then q.(retransmits := q.retransmits + 1) else q
  }

  /** A control packet that is sent again. */
  datatype Again = Nothing | AgainWhohas(hashes: seq<Hash>) | AgainIhave | AgainGet(chunk: Chunk)

  /** The pending packet that is tried first. */
  function FirstPending(p: Timed): Again {
    if p.claim.pendingWhohas.Some? then AgainWhohas(p.claim.pendingWhohas.value)
    else if p.pendingIhave then AgainIhave
    else if p.claim.pendingGet.Some? then AgainGet(p.claim.pendingGet.value)
    else Nothing
  }

  /** The control packet that goes to a peer in its turn. */
  function ControlSent(p: Timed): Again {
    if p.retransmits == MAX_RETRANSMITS then Nothing else FirstPending(p)
  }

  predicate GivesUpData(p: Timed) {
    Waiting(p) && p.ackTimeout == MAX_DATA_RETRANSMIT
  }

  /** A peer after its turn in the loop. */
  function NextPeer(p: Timed): Timed {
    var q := AfterControl(p);
    if GivesUpData(q) then TotalCleanup(q)
    else if Waiting(q) then q.(ackTimeout := q.ackTimeout + 1)
    else q
  }

  function NextPeers(peers: seq<Timed>): (r: seq<Timed>)
    ensures |r| == |peers|
  {
    seq(|peers|, i requires 0 <= i < |peers| => NextPeer(peers[i]))
  }

  /** The host after the turns of all peers, in the order of the list. */
  function HostAfter(h: Host, peers: seq<Timed>): Host {
    if peers == [] then h
    else
      var last := |peers| - 1;
      var g := HostAfter(h, peers[..last]);
      var q := AfterControl(peers[last]);
      if GivesUpData(q) then DataTimeoutIn(g, q.claim).0 else g
  }

  ghost predicate SomeRanOut(peers: seq<Timed>) {
    exists i :: 0 <= i < |peers| && peers[i].retransmits == MAX_RETRANSMITS
  }

  predicate SendsData(s: Loop)
    requires s.currTo.Some? ==> s.currTo.value < |s.peers|
  {
    s.currTo.Some? && s.peers[s.currTo.value].dataRetransmits != MAX_DATA_RETRANSMIT
  }

  /** The part of a timeout before the loop over the peers. */
  function DataPart(s: Loop): Loop
    requires s.currTo.Some? ==> s.currTo.value < |s.peers|
  {
    if s.currTo.None? then s
    else
      var c := s.currTo.value;
      var p := s.peers[c];
      if SendsData(s) then s.(peers := s.peers[c := p.(dataRetransmits := p.dataRetransmits + 1)])
      else s.(peers := s.peers[c := TotalCleanup(p)], currTo := None)
  }

  /** One timeout. */
  ghost function Tick(s: Loop): Loop
    requires s.currTo.Some? ==> s.currTo.value < |s.peers|
  {
    var t := DataPart(s);
    Loop(HostAfter(t.host, t.peers), NextPeers(t.peers), if SomeRanOut(t.peers) then None else t.currTo)
  }

  // The limits

  predicate InLimits(p: Timed) {
    p.retransmits <= MAX_RETRANSMITS && p.dataRetransmits <= MAX_DATA_RETRANSMIT && p.ackTimeout <= MAX_DATA_RETRANSMIT
  }

  ghost predicate Bounded(s: Loop) {
    && (s.currTo.Some? ==> s.currTo.value < |s.peers|)
    && forall i {:trigger s.peers[i]} :: 0 <= i < |s.peers| ==> InLimits(s.peers[i])
  }

  /** A timeout keeps every counter within its limit. */
  lemma TickBounded(s: Loop)
    requires Bounded(s)
    ensures Bounded(Tick(s)) && |Tick(s).peers| == |s.peers|
    ensures Tick(s).currTo.Some? ==> Tick(s).currTo == s.currTo
  {
    var t := DataPart(s);
    assert forall i :: 0 <= i < |t.peers| ==> InLimits(t.peers[i]);
  }

  /** The loop after `n` timeouts without any arrival. */
  ghost function Ticks(s: Loop, n: nat): (t: Loop)
    requires Bounded(s)
    ensures Bounded(t) && |t.peers| == |s.peers|
    decreases n
  {
    if n == 0 then s
    else
      TickBounded(s);
      Ticks(Tick(s), n - 1)
  }

  /** The data packets sent during `n` silent timeouts. */
  ghost function DataSends(s: Loop, n: nat): nat
    requires Bounded(s)
    decreases n
  {
    if n == 0 then 0
    else
      TickBounded(s);
      (if SendsData(s) then 1 else 0) + DataSends(Tick(s), n - 1)
  }

  /** The control packets sent to peer `i` during `n` silent timeouts. */
  ghost function ControlSends(s: Loop, i: nat, n: nat): nat
    requires Bounded(s) && i < |s.peers|
    decreases n
  {
    if n == 0 then 0
    else
      TickBounded(s);
      (if ControlSent(DataPart(s).peers[i]).Nothing? then 0 else 1) + ControlSends(Tick(s), i, n - 1)
  }
}

/** Silence quiesces, and how much is sent until then. */
module Silence {
  import opened Constants
  import opened Numbers
  import opened ClaimSpec
  import opened SilenceSpec

  /** At most MAX_RETRANSMITS control packets go to a peer that stays silent. */
  lemma {:induction false} ControlBound(s: Loop, i: nat, n: nat)
    requires Bounded(s) && i < |s.peers|
    ensures ControlSends(s, i, n) <= if Pending(s.peers[i]) then MAX_RETRANSMITS - s.peers[i].retransmits else 0
    decreases n
  {
    if n > 0 {
      TickBounded(s);
      TickAt(s, i);
      ControlBound(Tick(s), i, n - 1);
    }
  }

  /** What a timeout does to peer `i`. */
  lemma TickAt(s: Loop, i: nat)
    requires Bounded(s) && i < |s.peers|
    ensures i < |Tick(s).peers|
    ensures Tick(s).peers[i] == NextPeer(DataPart(s).peers[i])
    ensures var p := s.peers[i];
            DataPart(s).peers[i] == if s.currTo != Some(i) then p
                                    else if SendsData(s) then p.(dataRetransmits := p.dataRetransmits + 1)
                                    else TotalCleanup(p)
  {
  }

  // Quiescence

  ghost predicate Quiet(s: Loop) {
    && s.currTo.None?
    && forall i {:trigger s.peers[i]} :: 0 <= i < |s.peers| ==> !Pending(s.peers[i]) && !Waiting(s.peers[i])
  }

  /** Timeouts until nothing is pending at a peer, and nothing awaited from it. */
  function PeerLeft(p: Timed): int {
    Max(if Pending(p) then MAX_RETRANSMITS + 1 - p.retransmits else 0,
           if Waiting(p) then MAX_DATA_RETRANSMIT + 1 - p.ackTimeout else 0)
  }

  lemma PeerLeftLowers(p: Timed)
    requires InLimits(p)
    ensures 0 <= PeerLeft(p) <= MAX_DATA_RETRANSMIT + 1
    ensures PeerLeft(NextPeer(p)) <= Max(PeerLeft(p) - 1, 0)
    ensures PeerLeft(p) == 0 <==> !Pending(p) && !Waiting(p)
  {
  }

  /** The data packets that a transfer still sends if no control packets run out. */
  function DataLeft(s: Loop): int
    requires s.currTo.Some? ==> s.currTo.value < |s.peers|
  {
    if s.currTo.None? then 0
    else
      var p := s.peers[s.currTo.value];
      if Waiting(p) && p.ackTimeout > p.dataRetransmits then 2 * MAX_DATA_RETRANSMIT + 1 - p.ackTimeout
      else MAX_DATA_RETRANSMIT - p.dataRetransmits
  }

  /** How many timeouts are left until the transfer is given up. */
  function TransferLeft(s: Loop): int
    requires s.currTo.Some? ==> s.currTo.value < |s.peers|
  {
    if s.currTo.None? then 0 else DataLeft(s) + 1
  }

  /** The decreasing measure: a timeout brings every peer and the transfer one step nearer to quiet. */
  lemma TickLowers(s: Loop)
    requires Bounded(s)
    ensures Bounded(Tick(s)) && |Tick(s).peers| == |s.peers|
    ensures 0 <= TransferLeft(s) <= 2 * MAX_DATA_RETRANSMIT + 1
    ensures TransferLeft(Tick(s)) <= Max(TransferLeft(s) - 1, 0)
    ensures forall i {:trigger Tick(s).peers[i]} :: 0 <= i < |s.peers| ==>
              PeerLeft(Tick(s).peers[i]) <= Max(PeerLeft(s.peers[i]) - 1, 0)
  {
    TickBounded(s);
    forall i | 0 <= i < |s.peers| ensures PeerLeft(Tick(s).peers[i]) <= Max(PeerLeft(s.peers[i]) - 1, 0) {
      TickAt(s, i);
      PeerLeftLowers(DataPart(s).peers[i]);
    }
    if s.currTo.Some? {
      TickAt(s, s.currTo.value);
    }
  }

  lemma {:induction false} TicksLower(s: Loop, n: nat)
    requires Bounded(s)
    ensures TransferLeft(Ticks(s, n)) <= Max(TransferLeft(s) - n, 0)
    ensures forall i {:trigger Ticks(s, n).peers[i]} :: 0 <= i < |s.peers| ==>
              PeerLeft(Ticks(s, n).peers[i]) <= Max(PeerLeft(s.peers[i]) - n, 0)
    decreases n
  {
    TickLowers(s);
    if n == 0 {
      forall i | 0 <= i < |s.peers| ensures PeerLeft(s.peers[i]) <= Max(PeerLeft(s.peers[i]) - n, 0) {
        PeerLeftLowers(s.peers[i]);
      }
    } else {
      TicksLower(Tick(s), n - 1);
      forall i | 0 <= i < |s.peers|
        ensures PeerLeft(Ticks(s, n).peers[i]) <= Max(PeerLeft(s.peers[i]) - n, 0)
      {
        assert Ticks(s, n).peers[i] == Ticks(Tick(s), n - 1).peers[i];
        assert PeerLeft(Tick(s).peers[i]) <= Max(PeerLeft(s.peers[i]) - 1, 0);
      }
    }
  }

  /** After 21 silent timeouts nothing is pending or awaited any more, and no data is being sent. */
  lemma SilenceQuiesces(s: Loop, n: nat)
    requires Bounded(s) && n >= 2 * MAX_DATA_RETRANSMIT + 1
    ensures Bounded(Ticks(s, n)) && Quiet(Ticks(s, n))
  {
    TickLowers(s);
    TicksLower(s, n);
    var t := Ticks(s, n);
    forall i | 0 <= i < |t.peers| ensures !Pending(t.peers[i]) && !Waiting(t.peers[i]) {
      PeerLeftLowers(s.peers[i]);
      PeerLeftLowers(t.peers[i]);
    }
  }

  // Data packets

  /** The control packets for this peer run out before data from it is given up. */
  predicate WillRunOut(p: Timed) {
    || p.retransmits == MAX_RETRANSMITS
    || (Pending(p) && !(Waiting(p) && MAX_DATA_RETRANSMIT - p.ackTimeout < MAX_RETRANSMITS - p.retransmits))
  }

  ghost predicate NobodyRunsOut(s: Loop) {
    forall i {:trigger s.peers[i]} :: 0 <= i < |s.peers| ==> !WillRunOut(s.peers[i])
  }

  lemma TickNobodyRunsOut(s: Loop)
    requires Bounded(s) && NobodyRunsOut(s)
    ensures Bounded(Tick(s)) && NobodyRunsOut(Tick(s)) && !SomeRanOut(DataPart(s).peers)
  {
    TickBounded(s);
    forall i | 0 <= i < |s.peers| ensures !WillRunOut(Tick(s).peers[i]) && !WillRunOut(DataPart(s).peers[i]) {
      TickAt(s, i);
    }
  }

  lemma TickDataLeft(s: Loop)
    requires Bounded(s) && NobodyRunsOut(s)
    ensures Bounded(Tick(s)) && DataLeft(s) == DataLeft(Tick(s)) + if SendsData(s) then 1 else 0
    ensures DataLeft(s) > 0 <==> SendsData(s)
  {
    TickNobodyRunsOut(s);
    if s.currTo.Some? {
      TickAt(s, s.currTo.value);
    }
  }

  /** If no control packets run out, exactly `DataLeft` data packets are sent, one at each timeout. */
  lemma {:induction false} DataSendsExactly(s: Loop, n: nat)
    requires Bounded(s) && NobodyRunsOut(s)
    ensures DataSends(s, n) == Min(n, DataLeft(s))
    decreases n
  {
    TickDataLeft(s);
    if n == 0 {
      TickLowers(s);
    } else {
      TickNobodyRunsOut(s);
      DataSendsExactly(Tick(s), n - 1);
    }
  }

  lemma RunsOutSooner(s: Loop, i: nat)
    requires Bounded(s) && i < |s.peers| && WillRunOut(s.peers[i]) && Tick(s).currTo.Some?
    ensures i < |Tick(s).peers| && WillRunOut(Tick(s).peers[i])
    ensures Tick(s).peers[i].retransmits == s.peers[i].retransmits + 1
  {
    TickAt(s, i);
    assert DataPart(s).peers[i].retransmits != MAX_RETRANSMITS;
  }

  /** If the control packets for some peer run out, the transfer ends with them. */
  lemma {:induction false} DataSendsCutShort(s: Loop, i: nat, n: nat)
    requires Bounded(s) && i < |s.peers| && WillRunOut(s.peers[i])
    ensures DataSends(s, n) <= MAX_RETRANSMITS + 1 - s.peers[i].retransmits
    decreases n
  {
    if n > 0 {
      TickBounded(s);
      if s.currTo.None? {
        NoTransferNoData(s, n);
      } else if Tick(s).currTo.None? {
        NoTransferNoData(Tick(s), n - 1);
      } else {
        RunsOutSooner(s, i);
        DataSendsCutShort(Tick(s), i, n - 1);
      }
    }
  }

  lemma {:induction false} NoTransferNoData(s: Loop, n: nat)
    requires Bounded(s) && s.currTo.None?
    ensures DataSends(s, n) == 0
    decreases n
  {
    if n > 0 {
      TickBounded(s);
      NoTransferNoData(Tick(s), n - 1);
    }
  }

  ghost predicate ExceedsLimit(s: Loop)
    requires Bounded(s)
  {
    exists n: nat :: DataSends(s, n) > MAX_DATA_RETRANSMIT
  }

  /**
    Silence can draw more than MAX_DATA_RETRANSMIT data packets if and only if
    the peer being served is itself waited for, for longer than the last data
    packet has gone unanswered, and no control packets run out meanwhile: giving
    up on its data then clears its retransmission counter, but not `currTo`.
   */
  lemma ExceedsIff(s: Loop)
    requires Bounded(s)
    ensures ExceedsLimit(s) <==>
              && s.currTo.Some?
              && Waiting(s.peers[s.currTo.value])
              && s.peers[s.currTo.value].ackTimeout > s.peers[s.currTo.value].dataRetransmits
              && NobodyRunsOut(s)
  {
    if NobodyRunsOut(s) {
      forall n: nat ensures DataSends(s, n) == Min(n, DataLeft(s)) {
        DataSendsExactly(s, n);
      }
      assert DataSends(s, 2 * MAX_DATA_RETRANSMIT) == Min(2 * MAX_DATA_RETRANSMIT, DataLeft(s));
    } else {
      var i :| 0 <= i < |s.peers| && WillRunOut(s.peers[i]);
      forall n: nat ensures DataSends(s, n) <= MAX_DATA_RETRANSMIT {
        DataSendsCutShort(s, i, n);
      }
    }
  }
}
