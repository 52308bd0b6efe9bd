/** The timeout branch of peer_run, on peers that are updated in place. */
module EventLoops {
  import opened Constants
  import opened ClaimSpec
  import opened SilenceSpec

  class TimedPeer {
    var claim: Peer
    var pendingIhave: bool
    var retransmits: nat
    var dataRetransmits: nat
    var ackTimeout: nat

    constructor ()
      ensures View() == Timed(Cleaned(claim), false, 0, 0, 0)
    {
      claim := Peer([], 0, 0, PSEUDO_INF, None, [], None);
      pendingIhave, retransmits, dataRetransmits, ackTimeout := false, 0, 0, 0;
    }

    function View(): Timed
      reads this
    {
      Timed(claim, pendingIhave, retransmits, dataRetransmits, ackTimeout)
    }

    /** peer_total_cleanup */
    method CleanUp()
      modifies this
      ensures View() == TotalCleanup(old(View()))
    {
      claim := claim.(numChunks := 0, chunksFetched := 0);
      claim := claim.(getHashId := PSEUDO_INF);
      claim := claim.(hehas := [], whohas := [], pendingWhohas := None);
      pendingIhave := false;
      claim := claim.(pendingGet := None);
      retransmits, dataRetransmits, ackTimeout := 0, 0, 0;
    }

    /** Send the pending control packet again, if there is one. */
    method RetransmitPending() returns (sent: Again)
      modifies this`retransmits
      ensures sent == old(FirstPending(View()))
      ensures View() == if sent.Nothing? then old(View()) else old(View()).(retransmits := old(retransmits) + 1)
    {
      sent := Nothing;
      if claim.pendingWhohas != None {
        sent := AgainWhohas(claim.pendingWhohas.value);
        retransmits := retransmits + 1;
      } else if pendingIhave {
        sent := AgainIhave;
        retransmits := retransmits + 1;
      } else if claim.pendingGet != None {
        sent := AgainGet(claim.pendingGet.value);
        retransmits := retransmits + 1;
      }
    }
  }

  class EventLoop {
    const peers: seq<TimedPeer>
    var currTo: TimedPeer?
    var fof: seq<int>
    var numChunks: int
    var chunksFetched: int

    constructor (peers: seq<TimedPeer>)
      ensures this.peers == peers && currTo == null && fof == [] && numChunks == chunksFetched == 0
    {
      this.peers := peers;
      currTo, fof, numChunks, chunksFetched := null, [], 0, 0;
    }

    ghost predicate Valid()
      reads this
    {
      && (forall i, j :: 0 <= i < j < |peers| ==> peers[i] != peers[j])
      && (currTo != null ==> currTo in peers)
    }

    ghost function IndexOf(p: TimedPeer): (i: nat)
      requires p in peers
      ensures i < |peers| && peers[i] == p
    {
      var i :| 0 <= i < |peers| && peers[i] == p;
      i
    }

    ghost function Views(): (r: seq<Timed>)
      reads peers
      ensures |r| == |peers|
    {
      seq(|peers|, i requires 0 <= i < |peers| reads peers => peers[i].View())
    }

    function HostView(): Host
      reads this
    {
      Host(fof, numChunks, chunksFetched)
    }

    ghost function View(): Loop
      requires Valid()
      reads this, peers
    {
      Loop(HostView(), Views(), if currTo == null then None else Some(IndexOf(currTo)))
    }

    /** Retransmit to the peer that is being served, or give it up. */
    method RetransmitData() returns (sent: bool)
      requires Valid()
      modifies `currTo, peers
      ensures Valid() && View() == DataPart(old(View()))
      ensures sent == old(SendsData(View()))
    {
      sent := false;
      ghost var before := View();
      if currTo != null {
        ghost var c := IndexOf(currTo);
        if currTo.dataRetransmits == MAX_DATA_RETRANSMIT {
          currTo.CleanUp();
          assert Views() == before.peers[c := TotalCleanup(before.peers[c])];
          currTo := null;
        } else {
          sent := true;
          currTo.dataRetransmits := currTo.dataRetransmits + 1;
          assert Views() == before.peers[c := before.peers[c].(dataRetransmits := currTo.dataRetransmits)];
        }
      }
    }

    /** Give up waiting for data from a peer, or count the timeout. */
    method CheckData(p: TimedPeer)
      modifies this`fof, this`numChunks, this`chunksFetched, p
      ensures var was := old(p.View());
              && p.View() == (if GivesUpData(was) then TotalCleanup(was)
                              else if Waiting(was) then was.(ackTimeout := was.ackTimeout + 1) else was)
              && HostView() == (if GivesUpData(was) then DataTimeoutIn(old(HostView()), was.claim).0
                                else old(HostView()))
    {
      if p.claim.getHashId != PSEUDO_INF {
        if p.ackTimeout == MAX_DATA_RETRANSMIT {
          chunksFetched := chunksFetched + (p.claim.numChunks - p.claim.chunksFetched);
          if chunksFetched == numChunks {
            chunksFetched := 0;
            numChunks := 0;
          }
          p.CleanUp();
          fof := [];
        } else {
          p.ackTimeout := p.ackTimeout + 1;
        }
      }
    }

    /** The turn of one peer. */
    method PeerTurn(p: TimedPeer) returns (sent: Again)
      modifies this`currTo, this`fof, this`numChunks, this`chunksFetched, p
      ensures p.View() == NextPeer(old(p.View())) && sent == old(ControlSent(p.View()))
      ensures currTo == if old(p.retransmits) == MAX_RETRANSMITS then null else old(currTo)
      ensures var q := AfterControl(old(p.View()));
              HostView() == if GivesUpData(q) then DataTimeoutIn(old(HostView()), q.claim).0 else old(HostView())
    {
      if p.retransmits == MAX_RETRANSMITS {
        p.CleanUp();
        currTo := null;
      }
      sent := p.RetransmitPending();
      assert p.View() == AfterControl(old(p.View()));
      CheckData(p);
    }

    /** The loop over the peers. */
    method PeerTurns() returns (control: seq<Again>)
      requires Valid()
      modifies `currTo, `fof, `numChunks, `chunksFetched, peers
      ensures Valid() && Views() == NextPeers(old(Views()))
      ensures HostView() == HostAfter(old(HostView()), old(Views()))
      ensures currTo == if SomeRanOut(old(Views())) then null else old(currTo)
      ensures |control| == |peers| && forall i :: 0 <= i < |peers| ==> control[i] == ControlSent(old(Views())[i])
    {
      ghost var was := Views();
      control := [];
      for i := 0 to |peers|
        invariant Valid() && |control| == i
        invariant forall k :: 0 <= k < |peers| ==> peers[k].View() == if k < i then NextPeer(was[k]) else was[k]
        invariant forall k :: 0 <= k < i ==> control[k] == ControlSent(was[k])
        invariant HostView() == HostAfter(old(HostView()), was[..i])
        invariant currTo == if SomeRanOut(was[..i]) then null else old(currTo)
      {
        assert peers[i].View() == was[i];
        RanOutNext(was, i);
        HostAfterNext(old(HostView()), was, i);
        var sent := PeerTurn(peers[i]);
        control := control + [sent];
      }
      assert was[..|peers|] == was;
    }

    /** One timeout of the event loop. */
    method Timeout() returns (data: bool, control: seq<Again>)
      requires Valid()
      modifies `currTo, `fof, `numChunks, `chunksFetched, peers
      ensures Valid() && View() == Tick(old(View()))
      ensures data == SendsData(old(View()))
      ensures |control| == |peers|
      ensures forall i :: 0 <= i < |peers| ==> control[i] == ControlSent(DataPart(old(View())).peers[i])
    {
      data := RetransmitData();
      control := PeerTurns();
    }
  }

  lemma HostAfterNext(h: Host, peers: seq<Timed>, i: nat)
    requires i < |peers|
    ensures var q := AfterControl(peers[i]);
            var g := HostAfter(h, peers[..i]);
            HostAfter(h, peers[..i + 1]) == if GivesUpData(q) then DataTimeoutIn(g, q.claim).0 else g
  {
    assert peers[..i + 1][..i] == peers[..i];
  }

  lemma RanOutNext(peers: seq<Timed>, i: nat)
    requires i < |peers|
    ensures SomeRanOut(peers[..i + 1]) <==> SomeRanOut(peers[..i]) || peers[i].retransmits == MAX_RETRANSMITS
  {
    if SomeRanOut(peers[..i]) {
      var k :| 0 <= k < i && peers[..i][k].retransmits == MAX_RETRANSMITS;
      assert peers[..i + 1][k].retransmits == MAX_RETRANSMITS;
    }
    if peers[i].retransmits == MAX_RETRANSMITS {
      assert peers[..i + 1][i].retransmits == MAX_RETRANSMITS;
    }
    if SomeRanOut(peers[..i + 1]) {
      var k :| 0 <= k < i + 1 && peers[..i + 1][k].retransmits == MAX_RETRANSMITS;
      if k < i {
        assert peers[..i][k].retransmits == MAX_RETRANSMITS;
      }
    }
  }
}
