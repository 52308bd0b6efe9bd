/** The claiming code of packet_handler.c, on a host and its peers that are updated in place. */
module Claiming {
  import opened Constants
  import opened ClaimSpec
  import opened WhohasQueue

  class RemotePeer {
    var hehas: seq<Chunk>
    var numChunks: int
    var chunksFetched: int
    var getHashId: int
    var pendingGet: Option<Chunk>
    var whohas: seq<seq<Hash>>
    var pendingWhohas: Option<seq<Hash>>

    constructor ()
      ensures View() == Peer([], 0, 0, PSEUDO_INF, None, [], None)
    {
      hehas, numChunks, chunksFetched := [], 0, 0;
      getHashId, pendingGet := PSEUDO_INF, None;
      whohas, pendingWhohas := [], None;
    }

    function View(): Peer
      reads this
    {
      Peer(hehas, numChunks, chunksFetched, getHashId, pendingGet, whohas, pendingWhohas)
    }

    /** send_next_whohas */
    method SendNextWhohas() returns (out: seq<Message>)
      modifies this
      ensures (View(), out) == NextWhohas(old(View()))
      ensures out == HeadOf(whohas) && (whohas != [] ==> pendingWhohas == Some(whohas[0]))
    {
      if |whohas| == 0 {
        return [];
      }
      out := [Whohas(whohas[0])];
      pendingWhohas := Some(whohas[0]);
    }

    /** post_receive_cleanup, without the host's counter */
    method PostReceiveCleanup()
      modifies this
      ensures View() == Received(old(View()))
    {
      if hehas != [] {
        hehas := hehas[1..];
      }
      chunksFetched := chunksFetched + 1;
      getHashId := PSEUDO_INF;
    }

    /** The loop of ihave_handler that links the announced chunks in, behind the head of an old list. */
    method AppendChunks(chunks: seq<Chunk>)
      requires chunks != []
      modifies `hehas
      ensures hehas == Appended(old(hehas), chunks) && hehas != []
    {
      var appendTo := if hehas == [] then None else Some(0);
      ghost var head := if hehas == [] then [] else [hehas[0]];
      for i := 0 to |chunks|
        invariant if i == 0 then hehas == old(hehas) && appendTo == (if hehas == [] then None else Some(0))
                  else hehas == head + chunks[..i] && appendTo == Some(|hehas| - 1)
      {
        match appendTo
        case None =>
          hehas := [chunks[i]];
          appendTo := Some(0);
        case Some(at) =>
          hehas := hehas[..at + 1] + [chunks[i]];
          appendTo := Some(at + 1);
      }
      assert chunks[..|chunks|] == chunks;
    }
  }

  class LocalHost {
    var fof: seq<int>
    var numChunks: int
    var chunksFetched: int

    constructor ()
      ensures View() == Host([], 0, 0)
    {
      fof, numChunks, chunksFetched := [], 0, 0;
    }

    function View(): Host
      reads this
    {
      Host(fof, numChunks, chunksFetched)
    }

    /** The inner loop of get_next_chunk: is the chunk already claimed? */
    method IsClaimed(id: int) returns (found: bool)
      ensures found <==> id in fof
    {
      var k := 0;
      while k < |fof|
        invariant k <= |fof| && id !in fof[..k]
      {
        if fof[k] == id {
          return true;
        }
        k := k + 1;
      }
      return false;
    }

    /** The nested loops of get_next_chunk: drop claimed chunks, claim the first one that is not. */
    method ClaimFirst(peer: RemotePeer)
      requires peer.hehas != []
      modifies this`fof, peer`hehas, peer`chunksFetched
      ensures peer.hehas == Unclaimed(old(fof), old(peer.hehas))
      ensures peer.chunksFetched == old(peer.chunksFetched) + (old(|peer.hehas|) - |peer.hehas|)
      ensures fof == if peer.hehas == [] then old(fof) else old(fof) + [peer.hehas[0].id]
    {
      if |fof| == 0 {
        fof := [peer.hehas[0].id];
      } else {
        while peer.hehas != []
          invariant fof == old(fof)
          invariant Unclaimed(fof, peer.hehas) == Unclaimed(fof, old(peer.hehas))
          invariant peer.chunksFetched == old(peer.chunksFetched) + (old(|peer.hehas|) - |peer.hehas|)
          decreases |peer.hehas|
        {
          var found := IsClaimed(peer.hehas[0].id);
          if found {
            peer.hehas := peer.hehas[1..];
            peer.chunksFetched := peer.chunksFetched + 1;
          } else {
            fof := fof + [peer.hehas[0].id];
            break;
          }
        }
      }
    }

    /** get_next_chunk */
    method GetNextChunk(peer: RemotePeer) returns (out: seq<Message>)
      modifies this`fof, peer
      ensures (fof, peer.View(), out) == NextChunk(old(fof), old(peer.View()))
    {
      if peer.numChunks == peer.chunksFetched {
        return [];
      }
      if peer.hehas == [] {
        return [];
      }
      ClaimFirst(peer);
      if peer.hehas == [] {
        return [];
      }
      peer.getHashId := peer.hehas[0].id;
      peer.pendingGet := Some(peer.hehas[0]);
      out := [Get(peer.hehas[0])];
    }

    /** ihave_handler */
    method IhaveHandler(peer: RemotePeer, chunks: seq<Chunk>) returns (out: seq<Message>)
      requires peer.pendingWhohas.Some? ==> peer.whohas != []
      modifies this`fof, peer
      ensures (fof, peer.View(), out) == IhaveIn(old(fof), old(peer.View()), chunks)
    {
      peer.chunksFetched := 0;
      if peer.pendingWhohas != None {
        peer.whohas := peer.whohas[1..];
        peer.pendingWhohas := None;
      }
      assert peer.View() == Answered(old(peer.View()));
      if |chunks| == 0 {
        out := peer.SendNextWhohas();
        return;
      }
      peer.AppendChunks(chunks);
      peer.numChunks := |chunks|;
      peer.getHashId := peer.hehas[0].id;
      out := GetNextChunk(peer);
    }

    /** destroy_fof */
    method DestroyFof()
      modifies `fof
      ensures fof == []
    {
      fof := [];
    }

    /** data_handler, once the final acknowledgement has been computed */
    method FinishChunk(peer: RemotePeer) returns (out: seq<Message>)
      modifies this, peer
      ensures (View(), peer.View(), out) == DoneIn(old(View()), old(peer.View()))
    {
      peer.pendingGet := None;
      peer.PostReceiveCleanup();
      chunksFetched := chunksFetched + 1;
      if peer.chunksFetched < peer.numChunks {
        out := GetNextChunk(peer);
      } else {
        peer.numChunks := 0;
        peer.chunksFetched := 0;
        peer.hehas := [];
        out := peer.SendNextWhohas();
      }
      if numChunks == chunksFetched {
        DestroyFof();
        numChunks := 0;
        chunksFetched := 0;
      }
    }

    /** init_whohas: queue the packets of a request at every peer, then send each the head of its queue. */
    method InitWhohas(peers: seq<RemotePeer>, hashes: seq<Hash>) returns (out: seq<seq<Message>>)
      requires forall j, k :: 0 <= j < k < |peers| ==> peers[j] != peers[k]
      modifies this`numChunks, this`chunksFetched, peers
      ensures numChunks == |hashes| && chunksFetched == 0
      ensures forall j :: 0 <= j < |peers| ==> peers[j].View() == Requested(old(peers[j].View()), hashes)
      ensures |out| == |peers|
      ensures forall j :: 0 <= j < |peers| ==> out[j] == HeadOf(old(peers[j].whohas) + Packets(hashes))
    {
      var iterations := Iterations(|hashes|);
      for i := 0 to iterations
        invariant forall j :: 0 <= j < |peers| ==> peers[j].View() == Queued(old(peers[j].View()), hashes, i)
      {
        var count :=
          if iterations == 1 then |hashes|
          else if i == iterations - 1 then |hashes| - i * MAX_CHUNKS_PER_PACK
          else MAX_CHUNKS_PER_PACK;
        SliceInside(hashes, i, count);
        var packet := hashes[i * MAX_CHUNKS_PER_PACK..i * MAX_CHUNKS_PER_PACK + count];
        for j := 0 to |peers|
          invariant forall k :: 0 <= k < |peers| ==>
                      peers[k].View() == Queued(old(peers[k].View()), hashes, if k < j then i + 1 else i)
        {
          QueuedNext(old(peers[j].View()), hashes, i);
          peers[j].whohas := peers[j].whohas + [packet];
        }
      }
      numChunks := |hashes|;
      chunksFetched := 0;
      assert Packets(hashes)[..iterations] == Packets(hashes);
      out := TellAll(peers);
    }
  }

  /** The loop of init_whohas that calls send_next_whohas for every peer. */
  method TellAll(peers: seq<RemotePeer>) returns (out: seq<seq<Message>>)
    requires forall j, k :: 0 <= j < k < |peers| ==> peers[j] != peers[k]
    modifies peers
    ensures |out| == |peers|
    ensures forall j :: 0 <= j < |peers| ==> (peers[j].View(), out[j]) == NextWhohas(old(peers[j].View()))
    ensures forall j :: 0 <= j < |peers| ==> out[j] == HeadOf(old(peers[j].whohas))
  {
    out := [];
    for j := 0 to |peers|
      invariant forall k :: j <= k < |peers| ==> peers[k].View() == old(peers[k].View())
      invariant |out| == j
      invariant forall k :: 0 <= k < j ==> (peers[k].View(), out[k]) == NextWhohas(old(peers[k].View()))
      invariant forall k :: 0 <= k < j ==> out[k] == HeadOf(old(peers[k].whohas))
    {
      var sent := peers[j].SendNextWhohas();
      out := out + [sent];
    }
  }

  /** The WHOHAS at the head of a queue, if there is one. */
  function HeadOf(whohas: seq<seq<Hash>>): seq<Message> {
    if whohas == [] then [] else [Whohas(whohas[0])]
  }

  /** A peer after the first `n` packets of a request were queued. */
  ghost function Queued(p: Peer, hashes: seq<Hash>, n: nat): Peer
    requires n <= Iterations(|hashes|)
  {
    p.(whohas := p.whohas + Packets(hashes)[..n])
  }

  lemma QueuedNext(p: Peer, hashes: seq<Hash>, n: nat)
    requires n < Iterations(|hashes|)
    ensures Queued(p, hashes, n + 1).whohas == Queued(p, hashes, n).whohas + [PacketAt(hashes, n)]
  {
    assert Packets(hashes)[..n + 1] == Packets(hashes)[..n] + [PacketAt(hashes, n)];
  }

  /** The slice that init_whohas copies is the packet of its turn. */
  lemma SliceInside(hashes: seq<Hash>, i: nat, count: int)
    requires i < Iterations(|hashes|)
    requires count == if Iterations(|hashes|) == 1 then |hashes|
                      else if i == Iterations(|hashes|) - 1 then |hashes| - i * MAX_CHUNKS_PER_PACK
                      else MAX_CHUNKS_PER_PACK
    ensures 0 <= count && i * MAX_CHUNKS_PER_PACK + count <= |hashes|
    ensures hashes[i * MAX_CHUNKS_PER_PACK..i * MAX_CHUNKS_PER_PACK + count] == PacketAt(hashes, i)
  {
  }
}
