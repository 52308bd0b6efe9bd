/** Chunk claiming as values: which chunks a host asks which of its peers for. */
module ClaimSpec {
  import opened Constants

  datatype Option<+T> = None | Some(value: T)

  type Hash = nat

  /** The number of a chunk; PSEUDO_INF stands for none. */
  type ChunkId = x: int | x != PSEUDO_INF witness 0

  /** A chunk that a peer has; `id` is its place in the requested file, -1 if it was not requested. */
  datatype Chunk = Chunk(hash: Hash, id: ChunkId)

  /** What the host keeps about one of its peers. */
  datatype Peer = Peer(
    hehas: seq<Chunk>,
    numChunks: int,
    chunksFetched: int,
    getHashId: int,
    pendingGet: Option<Chunk>,
    whohas: seq<seq<Hash>>,
    pendingWhohas: Option<seq<Hash>>)

  /** What the host keeps about itself; `fof` lists the chunks being fetched or already fetched. */
  datatype Host = Host(fof: seq<int>, numChunks: int, chunksFetched: int)

  datatype Message = Get(chunk: Chunk) | Whohas(hashes: seq<Hash>)

  /** The chunks from the first unclaimed one on. */
  function Unclaimed(fof: seq<int>, hehas: seq<Chunk>): (r: seq<Chunk>)
    ensures |r| <= |hehas|
  {
    if hehas != [] && hehas[0].id in fof then Unclaimed(fof, hehas[1..]) else hehas
  }

  /** get_next_chunk */
  function NextChunk(fof: seq<int>, p: Peer): (r: (seq<int>, Peer, seq<Message>)) {
    if p.numChunks == p.chunksFetched || p.hehas == [] then (fof, p, [])
    else
      var rest := Unclaimed(fof, p.hehas);
      var q := p.(hehas := rest, chunksFetched := p.chunksFetched + (|p.hehas| - |rest|));
      if rest == [] then (fof, q, [])
      else (fof + [rest[0].id], q.(getHashId := rest[0].id, pendingGet := Some(rest[0])), [Get(rest[0])])
  }

  /** send_next_whohas */
  function NextWhohas(p: Peer): (r: (Peer, seq<Message>)) {
    if p.whohas == [] then (p, [])
    else (p.(pendingWhohas := Some(p.whohas[0])), [Whohas(p.whohas[0])])
  }

  /** New chunks are linked behind the head of the old list, so that its rest falls off. */
  function Appended(hehas: seq<Chunk>, chunks: seq<Chunk>): seq<Chunk> {
    if hehas == [] || chunks == [] then hehas + chunks else [hehas[0]] + chunks
  }

  /** The part of ihave_handler before the chunks are looked at: the answered WHOHAS leaves the queue. */
  function Answered(p: Peer): Peer
    requires p.pendingWhohas.Some? ==> p.whohas != []
  {
    var q := p.(chunksFetched := 0);
    if p.pendingWhohas.Some? then q.(whohas := p.whohas[1..], pendingWhohas := None) else q
  }

  /** ihave_handler */
  function IhaveIn(fof: seq<int>, p: Peer, chunks: seq<Chunk>): (r: (seq<int>, Peer, seq<Message>))
    requires p.pendingWhohas.Some? ==> p.whohas != []
  {
    var q := Answered(p);
    if chunks == [] then
      var (s, out) := NextWhohas(q);
      (fof, s, out)
    else
      var hehas := Appended(q.hehas, chunks);
      NextChunk(fof, q.(hehas := hehas, numChunks := |chunks|, getHashId := hehas[0].id))
  }

  /** post_receive_cleanup, for the peer's part */
  function Received(p: Peer): Peer {
    p.(hehas := if p.hehas == [] then [] else p.hehas[1..],
       chunksFetched := p.chunksFetched + 1,
       getHashId := PSEUDO_INF)
  }

  /** The branch of data_handler for the last packet of a chunk. */
  function DoneIn(h: Host, p: Peer): (r: (Host, Peer, seq<Message>)) {
    var q := Received(p.(pendingGet := None));
    var (fof, s, out) :=
      if q.chunksFetched < q.numChunks then NextChunk(h.fof, q)
      else
        var (t, whohas) := NextWhohas(q.(numChunks := 0, chunksFetched := 0, hehas := []));
        (h.fof, t, whohas);
    var fetched := h.chunksFetched + 1;
    (if h.numChunks == fetched then Host([], 0, 0) else Host(fof, h.numChunks, fetched), s, out)
  }

  /** denied_handler */
  function DeniedIn(p: Peer): Peer {
    var q := p.(pendingGet := None);
    if p.pendingWhohas.Some? then q.(whohas := [], pendingWhohas := None) else q
  }

  /** peer_total_cleanup, as far as claiming goes */
  function Cleaned(p: Peer): Peer {
    Peer([], 0, 0, PSEUDO_INF, None, [], None)
  }

  /** The timeout that gives up waiting for data from a peer: the claims of all peers are forgotten. */
  function DataTimeoutIn(h: Host, p: Peer): (r: (Host, Peer)) {
    var fetched := h.chunksFetched + (p.numChunks - p.chunksFetched);
    (if fetched == h.numChunks then Host([], 0, 0) else Host([], h.numChunks, fetched), Cleaned(p))
  }

  // What get_next_chunk means

  ghost predicate AllClaimed(fof: seq<int>, chunks: seq<Chunk>) {
    forall i :: 0 <= i < |chunks| ==> chunks[i].id in fof
  }

  /** What is skipped is a prefix of claimed chunks, and it is the longest one. */
  lemma {:induction false} UnclaimedMeaning(fof: seq<int>, hehas: seq<Chunk>)
    ensures var r := Unclaimed(fof, hehas); var k := |hehas| - |r|;
            && r == hehas[k..] && AllClaimed(fof, hehas[..k])
            && (r != [] ==> r[0].id !in fof)
  {
    if hehas != [] && hehas[0].id in fof {
      UnclaimedMeaning(fof, hehas[1..]);
      var k := |hehas[1..]| - |Unclaimed(fof, hehas[1..])|;
      assert hehas[..k + 1] == [hehas[0]] + hehas[1..][..k];
    }
  }

  /** Fetched and still listed chunks make up the announced ones. */
  ghost predicate Accounting(p: Peer) {
    p.chunksFetched + |p.hehas| == p.numChunks
  }

  /**
    A GET goes out for the first unclaimed chunk, which becomes the last claim;
    without one nothing is claimed. The peer's accounting does not change.
   */
  lemma NextChunkMeaning(fof: seq<int>, p: Peer)
    ensures var (fof', q, out) := NextChunk(fof, p);
            && (out == [] ==> fof' == fof && q.getHashId == p.getHashId)
            && (out != [] ==>
                  && q.hehas != [] && out == [Get(q.hehas[0])] && q.getHashId == q.hehas[0].id
                  && q.hehas[0].id !in fof && fof' == fof + [q.hehas[0].id]
                  && q.hehas == p.hehas[|p.hehas| - |q.hehas|..]
                  && AllClaimed(fof, p.hehas[..|p.hehas| - |q.hehas|]))
            && q.numChunks == p.numChunks
            && q.chunksFetched + |q.hehas| == p.chunksFetched + |p.hehas|
            && (Accounting(q) <==> Accounting(p))
  {
    UnclaimedMeaning(fof, p.hehas);
  }

  /**
    A GET goes out exactly when the counts say that a chunk is missing and some
    listed one is unclaimed; with the accounting right the second is enough.
   */
  lemma SendsIffUnclaimed(fof: seq<int>, p: Peer)
    ensures NextChunk(fof, p).2 != [] <==> p.numChunks != p.chunksFetched && !AllClaimed(fof, p.hehas)
    ensures Accounting(p) ==> (NextChunk(fof, p).2 != [] <==> !AllClaimed(fof, p.hehas))
  {
    UnclaimedMeaning(fof, p.hehas);
    var k := |p.hehas| - |Unclaimed(fof, p.hehas)|;
    if Unclaimed(fof, p.hehas) == [] {
      assert p.hehas[..k] == p.hehas;
    }
  }

  /**
    An IHAVE that names chunks leaves the accounting right if and only if no
    chunk of that peer was still listed when it came; otherwise one more chunk is
    listed than announced. An empty IHAVE leaves it right if and only if nothing
    of that peer had been fetched.
   */
  lemma IhaveAccounting(fof: seq<int>, p: Peer, chunks: seq<Chunk>)
    requires p.pendingWhohas.Some? ==> p.whohas != []
    ensures var q := IhaveIn(fof, p, chunks).1;
            && (chunks != [] ==> (Accounting(q) <==> p.hehas == []))
            && (chunks != [] && p.hehas != [] ==> q.chunksFetched + |q.hehas| == q.numChunks + 1)
            && (chunks == [] && Accounting(p) ==> (Accounting(q) <==> p.chunksFetched == 0))
  {
    if chunks != [] {
      var r := Answered(p);
      var hehas := Appended(r.hehas, chunks);
      NextChunkMeaning(fof, r.(hehas := hehas, numChunks := |chunks|, getHashId := hehas[0].id));
    }
  }

  /**
    Without a chunk left over, an IHAVE draws a GET if and only if it names an
    unclaimed chunk. When it does not, the host waits for a chunk from this peer
    all the same, though it never asked this peer for it.
   */
  lemma IhaveAsks(fof: seq<int>, p: Peer, chunks: seq<Chunk>)
    requires p.pendingWhohas.Some? ==> p.whohas != []
    requires chunks != [] && p.hehas == []
    ensures var (fof', q, out) := IhaveIn(fof, p, chunks);
            && (out != [] <==> !AllClaimed(fof, chunks))
            && (out != [] ==> out == [Get(q.hehas[0])] && q.getHashId == q.hehas[0].id && fof' == fof + [q.getHashId])
            && (out == [] ==> fof' == fof && q.hehas == [] && q.getHashId == chunks[0].id)
  {
    var q := Answered(p).(hehas := chunks, numChunks := |chunks|, getHashId := chunks[0].id);
    assert Appended(p.hehas, chunks) == chunks;
    NextChunkMeaning(fof, q);
    SendsIffUnclaimed(fof, q);
  }

  /**
    After the end of a chunk the accounting is right if and only if it was before,
    or the chunk was the last one announced: nothing is listed or counted then.
   */
  lemma DoneAccounting(h: Host, p: Peer)
    ensures var q := DoneIn(h, p).1;
            && (Accounting(q) <==> Accounting(p) || p.chunksFetched + 1 >= p.numChunks)
            && (p.chunksFetched + 1 >= p.numChunks ==> q.hehas == [] && q.numChunks == q.chunksFetched == 0)
  {
    NextChunkMeaning(h.fof, Received(p.(pendingGet := None)));
  }
}
