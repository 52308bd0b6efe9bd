/** Every run of a host with any number of peers: what arrives, what times out, and what is claimed meanwhile. */
module HostRuns {
  import opened Constants
  import opened ClaimSpec
  import opened WhohasQueue
  import opened SilenceSpec
  import opened Runs

  /**
    The event loop's state (`serving` is his_request != NULL) with its history.
    `sent` has every GET that ever went to a peer, and `open` those of them that
    have not been answered completely. Neither a DENIED nor a cleanup changes
    them: the one may answer a repetition of the GET that is being served, and the
    other tells the peer nothing. `gets` and `fetched` list the first-time GETs and
    the chunks that came in since the claims were last forgotten.
   */
  datatype State = State(
    loop: Loop,
    serving: bool,
    sent: set<(nat, ChunkId)>,
    open: set<(nat, ChunkId)>,
    gets: seq<(nat, ChunkId)>,
    fetched: set<int>)

  /**
    What the data is that is complete now: all of it the answer to a GET, or copies
    of the answer to an earlier one, taken in as one chunk throughout; or anything
    else, such as data of several chunks.
   */
  datatype Source = Answer(chunk: ChunkId) | Late(chunk: ChunkId) | Mixed

  /**
    A packet from peer `i`, a request of the user, or three seconds of silence.
    `Done` is the packet that makes the data complete, `Data` any other data packet,
    `Stray` one that comes while nothing is waited for; `last` marks the final
    acknowledgement.
   */
  datatype Step =
    | Ihave(i: nat, chunks: seq<Chunk>) | Data(i: nat) | Done(i: nat, of: Source) | Stray(i: nat)
    | Denied(i: nat) | WhohasFrom(i: nat) | GetFrom(i: nat) | AckFrom(i: nat, last: bool)
    | Request(hashes: seq<Hash>) | Timeout

  /** Peer `i` sends data of chunks that it was asked for, or a mixture. */
  predicate Sends(s: State, i: nat, of: Source) {
    match of
    case Answer(c) => (i, c) in s.open
    case Late(c) => (i, c) in s.sent
    case Mixed => true
  }

  ghost predicate Enabled(s: State, step: Step) {
    match step
    case Ihave(i, _) =>
      i < |s.loop.peers| && (s.loop.peers[i].claim.pendingWhohas.Some? ==> s.loop.peers[i].claim.whohas != [])
    case Data(i) => i < |s.loop.peers| && Waiting(s.loop.peers[i])
    case Done(i, of) => i < |s.loop.peers| && Waiting(s.loop.peers[i]) && Sends(s, i, of)
    case Stray(i) => i < |s.loop.peers| && !Waiting(s.loop.peers[i])
    case Denied(i) => i < |s.loop.peers|
    case WhohasFrom(i) => i < |s.loop.peers|
    case GetFrom(i) => i < |s.loop.peers|
    case AckFrom(i, _) => i < |s.loop.peers|
    case Request(_) => true
    case Timeout => Bounded(s.loop)
  }

  /** The next timeout ends the transfer to peer `i`, or gives up on control packets to it. */
  predicate RunsOut(l: Loop, i: nat)
    requires i < |l.peers|
  {
    || (l.currTo == Some(i) && l.peers[i].dataRetransmits == MAX_DATA_RETRANSMIT)
    || l.peers[i].retransmits == MAX_RETRANSMITS
  }

  /** The next timeout gives up waiting for data from peer `i`. */
  predicate GivesUp(l: Loop, i: nat)
    requires i < |l.peers|
  {
    !RunsOut(l, i) && GivesUpData(l.peers[i])
  }

  /** The next timeout resets peer `i`. */
  predicate Cleans(l: Loop, i: nat)
    requires i < |l.peers|
  {
    RunsOut(l, i) || GivesUpData(l.peers[i])
  }

  /** destroy_fof runs: a request is complete, or waiting for some peer's data is given up. */
  ghost predicate Forgets(s: State, step: Step) {
    match step
    case Done(_, _) => s.loop.host.numChunks == s.loop.host.chunksFetched + 1
    case Timeout => exists i :: 0 <= i < |s.loop.peers| && GivesUp(s.loop, i)
    case _ => false
  }

  /** The state with peer `i` and the host changed. */
  function With(s: State, i: nat, p: Timed, host: Host): State
    requires i < |s.loop.peers|
  {
    s.(loop := s.loop.(peers := s.loop.peers[i := p], host := host))
  }

  predicate GetSent(out: seq<Message>) {
    out != [] && out[0].Get?
  }

  /** The history when `out` goes to peer `i`; a handler sends one message at most. */
  function Asking(s: State, i: nat, out: seq<Message>): State {
    if GetSent(out) then
      var get := (i, out[0].chunk.id);
      s.(gets := s.gets + [get], sent := s.sent + {get}, open := s.open + {get})
    else s
  }

  /** The history when the data of peer `i`, waited for as chunk `id`, is complete. */
  function Completed(s: State, i: nat, of: Source, id: int): State {
    s.(open := if of.Answer? then s.open - {(i, of.chunk)} else s.open,
       fetched := if !of.Mixed? && of.chunk == id then s.fetched + {id} else s.fetched)
  }

  ghost function Forgotten(s: State, forgets: bool): State {
    if forgets then s.(gets := [], fetched := {}) else s
  }

  ghost function Next(s: State, step: Step): State
    requires Enabled(s, step)
  {
    var host := s.loop.host;
    match step
    case Ihave(i, chunks) =>
      var t := s.loop.peers[i];
      var (fof, p, out) := IhaveIn(host.fof, t.claim, chunks);
      Asking(With(s, i, t.(claim := p), host.(fof := fof)), i, out)
    case Data(i) =>
      var t := s.loop.peers[i];
      With(s, i, t.(ackTimeout := 0, claim := t.claim.(pendingGet := None)), host)
    case Done(i, of) =>
      var t := s.loop.peers[i];
      var (h, p, out) := DoneIn(host, t.claim);
      var u := With(Completed(s, i, of, t.claim.getHashId), i, t.(ackTimeout := 0, claim := p), h);
      Forgotten(Asking(u, i, out), Forgets(s, step))
    case Stray(i) =>
      var t := s.loop.peers[i];
      var (fof, p, out) := NextChunk(host.fof, t.claim);
      Asking(With(s, i, t.(ackTimeout := 0, claim := p), host.(fof := fof)), i, out)
    case Denied(i) =>
      var t := s.loop.peers[i];
      With(s, i, t.(claim := DeniedIn(t.claim), pendingIhave := false), host)
    case WhohasFrom(i) =>
      With(s, i, s.loop.peers[i].(pendingIhave := true), host)
    case GetFrom(i) =>
      var u := if s.serving then s else With(s, i, s.loop.peers[i].(pendingIhave := false), host);
      u.(loop := u.loop.(currTo := Some(i)), serving := true)
    case AckFrom(i, last) =>
      var u := With(s, i, s.loop.peers[i].(dataRetransmits := 0), host);
      if last then u.(loop := u.loop.(currTo := None), serving := false) else u
    case Request(hashes) =>
      s.(loop := s.loop.(
           host := host.(numChunks := |hashes|, chunksFetched := 0),
           peers := seq(|s.loop.peers|, i requires 0 <= i < |s.loop.peers| =>
                          s.loop.peers[i].(claim := Requested(s.loop.peers[i].claim, hashes)))))
    case Timeout =>
      Forgotten(s.(loop := Tick(s.loop), serving := s.serving && Tick(s.loop).currTo.Some?), Forgets(s, step))
  }

  ghost function System(): (State, Step) -> Maybe<State> {
    (s: State, step: Step) => if Enabled(s, step) then To(Next(s, step)) else Stuck
  }

  ghost function Idle(): Timed {
    Timed(Peer([], 0, 0, PSEUDO_INF, None, [], None), false, 0, 0, 0)
  }

  /** Nothing requested, nothing claimed, nobody served. */
  ghost predicate Fresh(s: State) {
    && s.loop.host == Host([], 0, 0) && s.loop.currTo.None? && !s.serving
    && s.sent == {} && s.open == {} && s.gets == [] && s.fetched == {}
    && forall i :: 0 <= i < |s.loop.peers| ==> s.loop.peers[i] == Idle()
  }

  ghost predicate Reachable(s: State) {
    exists start, steps :: Fresh(start) && Run(System(), start, steps) == To(s)
  }

  lemma ReachableBy(s: State, steps: seq<Step>)
    requires Reachable(s) && Run(System(), s, steps).To?
    ensures Reachable(Run(System(), s, steps).state)
  {
    var start, before :| Fresh(start) && Run(System(), start, before) == To(s);
    RunConcat(System(), start, before, steps);
  }

  lemma ReachableNext(s: State, step: Step)
    requires Reachable(s) && Enabled(s, step)
    ensures Reachable(Next(s, step))
  {
    assert Run(System(), Next(s, step), []) == To(Next(s, step));
    RunCons(System(), s, step, []);
    ReachableBy(s, [step] + []);
  }

  // What every run keeps

  function Ids(gets: seq<(nat, ChunkId)>): seq<int> {
    seq(|gets|, i requires 0 <= i < |gets| => gets[i].1)
  }

  ghost predicate Distinct(ids: seq<int>) {
    forall a, b :: 0 <= a < b < |ids| ==> ids[a] != ids[b]
  }

  ghost predicate PendingIsHead(p: Peer) {
    p.pendingWhohas.Some? ==> p.whohas != [] && p.pendingWhohas.value == p.whohas[0]
  }

  /** The history is consistent: GETs go to peers, and what is claimed was asked for. */
  ghost predicate HistoryInv(s: State) {
    && s.open <= s.sent
    && (forall get {:trigger get in s.sent} :: get in s.sent ==> get.0 < |s.loop.peers|)
    && (forall k :: 0 <= k < |s.gets| ==> s.gets[k] in s.sent)
  }

  ghost predicate Inv(s: State) {
    && s.loop.host.fof == Ids(s.gets) && Distinct(s.loop.host.fof)
    && Bounded(s.loop)
    && (forall i {:trigger s.loop.peers[i]} :: 0 <= i < |s.loop.peers| ==> PendingIsHead(s.loop.peers[i].claim))
    && HistoryInv(s)
  }

  /** A handler claims and asks for one unclaimed chunk, which is then waited for, or for nothing. */
  ghost predicate AsksNew(fof: seq<int>, fof': seq<int>, q: Peer, out: seq<Message>) {
    if GetSent(out)
    then out[0].chunk.id == q.getHashId && q.getHashId !in fof && fof' == fof + [q.getHashId]
    else fof' == fof
  }

  lemma IhaveAsksNew(fof: seq<int>, p: Peer, chunks: seq<Chunk>)
    requires PendingIsHead(p)
    ensures var (fof', q, out) := IhaveIn(fof, p, chunks); AsksNew(fof, fof', q, out) && PendingIsHead(q)
    ensures chunks != [] ==> IhaveIn(fof, p, chunks).1.getHashId != PSEUDO_INF
    ensures chunks == [] ==> IhaveIn(fof, p, chunks).1.getHashId == p.getHashId
  {
    if chunks != [] {
      var r := Answered(p);
      var hehas := Appended(r.hehas, chunks);
      NextChunkMeaning(fof, r.(hehas := hehas, numChunks := |chunks|, getHashId := hehas[0].id));
    }
  }

  lemma DoneAsksNew(h: Host, p: Peer)
    requires PendingIsHead(p)
    ensures var (h', q, out) := DoneIn(h, p);
            && PendingIsHead(q)
            && (h.numChunks != h.chunksFetched + 1 ==> AsksNew(h.fof, h'.fof, q, out))
            && (h.numChunks == h.chunksFetched + 1 ==>
                  h'.fof == [] && AsksNew(h.fof, if GetSent(out) then h.fof + [q.getHashId] else h.fof, q, out))
  {
    NextChunkMeaning(h.fof, Received(p.(pendingGet := None)));
  }

  // A timeout, peer by peer

  lemma TickClaim(l: Loop, i: nat)
    requires Bounded(l) && i < |l.peers|
    ensures i < |Tick(l).peers|
    ensures Tick(l).peers[i].claim == if Cleans(l, i) then Cleaned(l.peers[i].claim) else l.peers[i].claim
    ensures GivesUpData(AfterControl(DataPart(l).peers[i])) <==> GivesUp(l, i)
  {
  }

  lemma {:induction false} HostAfterFof(h: Host, peers: seq<Timed>)
    ensures (forall k :: 0 <= k < |peers| ==> !GivesUpData(AfterControl(peers[k]))) ==> HostAfter(h, peers) == h
    ensures HostAfter(h, peers).fof
            == if exists k :: 0 <= k < |peers| && GivesUpData(AfterControl(peers[k])) then [] else h.fof
  {
    if peers != [] {
      var rest := peers[..|peers| - 1];
      HostAfterFof(h, rest);
      assert forall k :: 0 <= k < |rest| ==> rest[k] == peers[k];
    }
  }

  lemma TickFof(s: State)
    requires Bounded(s.loop)
    ensures Tick(s.loop).host.fof == if Forgets(s, Timeout) then [] else s.loop.host.fof
  {
    var t := DataPart(s.loop);
    HostAfterFof(t.host, t.peers);
    forall i | 0 <= i < |t.peers| ensures GivesUpData(AfterControl(t.peers[i])) <==> GivesUp(s.loop, i) {
      TickClaim(s.loop, i);
    }
  }

  lemma TimeoutInv(s: State)
    requires Inv(s)
    ensures Inv(Next(s, Timeout))
  {
    TickBounded(s.loop);
    TickFof(s);
    var t := Next(s, Timeout);
    forall i | 0 <= i < |t.loop.peers| ensures PendingIsHead(t.loop.peers[i].claim) {
      TickClaim(s.loop, i);
    }
  }

  lemma IdsOfAsking(s: State, i: nat, out: seq<Message>)
    ensures Ids(Asking(s, i, out).gets)
            == if GetSent(out) then Ids(s.gets) + [out[0].chunk.id] else Ids(s.gets)
  {
    if GetSent(out) {
      assert Ids(s.gets + [(i, out[0].chunk.id)]) == Ids(s.gets) + [out[0].chunk.id];
    }
  }

  /** A handler that changes peer `i` and asks it for an unclaimed chunk, or for nothing. */
  lemma HandlerInv(s: State, i: nat, p: Timed, host: Host, out: seq<Message>)
    requires Inv(s) && i < |s.loop.peers|
    requires InLimits(p) && PendingIsHead(p.claim) && AsksNew(s.loop.host.fof, host.fof, p.claim, out)
    ensures Inv(Asking(With(s, i, p, host), i, out))
  {
    IdsOfAsking(With(s, i, p, host), i, out);
  }

  lemma DoneInv(s: State, i: nat, of: Source)
    requires Inv(s) && Enabled(s, Done(i, of))
    ensures Inv(Next(s, Done(i, of)))
  {
    var t := s.loop.peers[i];
    var (h, p, out) := DoneIn(s.loop.host, t.claim);
    DoneAsksNew(s.loop.host, t.claim);
    var fof := if !Forgets(s, Done(i, of)) then h.fof
               else if GetSent(out) then s.loop.host.fof + [p.getHashId] else s.loop.host.fof;
    HandlerInv(Completed(s, i, of, t.claim.getHashId), i, t.(ackTimeout := 0, claim := p), h.(fof := fof), out);
  }

  lemma StepInv(s: State, step: Step)
    requires Inv(s) && Enabled(s, step)
    ensures Inv(Next(s, step))
  {
    var host := s.loop.host;
    match step
    case Ihave(i, chunks) =>
      var t := s.loop.peers[i];
      var (fof, p, out) := IhaveIn(host.fof, t.claim, chunks);
      IhaveAsksNew(host.fof, t.claim, chunks);
      HandlerInv(s, i, t.(claim := p), host.(fof := fof), out);
    case Done(i, of) => DoneInv(s, i, of);
    case Stray(i) =>
      var t := s.loop.peers[i];
      var (fof, p, out) := NextChunk(host.fof, t.claim);
      NextChunkMeaning(host.fof, t.claim);
      HandlerInv(s, i, t.(ackTimeout := 0, claim := p), host.(fof := fof), out);
    case Timeout => TimeoutInv(s);
    case _ => QuietInv(s, step);
  }

  /** The steps that neither claim nor ask for anything. */
  predicate AsksNothing(step: Step) {
    step.Data? || step.Denied? || step.WhohasFrom? || step.GetFrom? || step.AckFrom? || step.Request?
  }

  lemma QuietInv(s: State, step: Step)
    requires Inv(s) && Enabled(s, step) && AsksNothing(step)
    ensures Inv(Next(s, step))
  {
    var t := Next(s, step);
    assert t.loop.host.fof == s.loop.host.fof && t.gets == s.gets;
    forall i | 0 <= i < |t.loop.peers| ensures InLimits(t.loop.peers[i]) && PendingIsHead(t.loop.peers[i].claim) {
      assert InLimits(s.loop.peers[i]) && PendingIsHead(s.loop.peers[i].claim);
    }
  }

  lemma {:induction false} RunInv(s: State, steps: seq<Step>)
    requires Inv(s) && Run(System(), s, steps).To?
    ensures Inv(Run(System(), s, steps).state)
    decreases |steps|
  {
    if steps != [] {
      StepInv(s, steps[0]);
      RunInv(Next(s, steps[0]), steps[1..]);
    }
  }

  lemma ReachableInv(s: State)
    requires Reachable(s)
    ensures Inv(s)
  {
    var start, steps :| Fresh(start) && Run(System(), start, steps) == To(s);
    RunInv(start, steps);
  }

  /**
    At most once: as long as the claims are not forgotten, the list of claims is
    exactly the chunks of the first-time GETs, in order, and no chunk is asked
    for twice, of the same peer or of two different ones.
   */
  lemma AtMostOnce(s: State, a: nat, b: nat)
    requires Reachable(s)
    ensures s.loop.host.fof == Ids(s.gets)
    ensures a < b < |s.gets| ==> s.gets[a].1 != s.gets[b].1
  {
    ReachableInv(s);
    if a < b < |s.gets| {
      assert s.loop.host.fof[a] != s.loop.host.fof[b];
    }
  }

  // Accounting over runs

  /** What an input from peer `i` must find for its accounting to survive. */
  ghost predicate InOrder(s: State, step: Step, i: nat)
    requires i < |s.loop.peers|
  {
    var p := s.loop.peers[i].claim;
    step.Ihave? && step.i == i ==> if step.chunks == [] then p.chunksFetched == 0 else p.hehas == []
  }

  /** A step upsets the accounting of a peer exactly if it is an IHAVE that comes out of order. */
  lemma StepAccounting(s: State, step: Step, i: nat)
    requires Enabled(s, step) && i < |s.loop.peers| && Accounting(s.loop.peers[i].claim)
    ensures |Next(s, step).loop.peers| == |s.loop.peers|
    ensures Accounting(Next(s, step).loop.peers[i].claim) <==> InOrder(s, step, i)
  {
    match step
    case Ihave(j, chunks) => IhaveAccounting(s.loop.host.fof, s.loop.peers[j].claim, chunks);
    case Done(j, _) =>
      if j == i {
        DoneAccounting(s.loop.host, s.loop.peers[j].claim);
      }
    case Stray(j) => NextChunkMeaning(s.loop.host.fof, s.loop.peers[j].claim);
    case Timeout => TickClaim(s.loop, i);
    case _ =>
  }

  ghost predicate Orderly(s: State, steps: seq<Step>, i: nat)
    requires i < |s.loop.peers|
    decreases |steps|
  {
    steps != [] && Enabled(s, steps[0]) ==>
      && InOrder(s, steps[0], i) && i < |Next(s, steps[0]).loop.peers|
      && Orderly(Next(s, steps[0]), steps[1..], i)
  }

  /** In every run whose IHAVEs come in order the accounting of a peer stays right. */
  lemma {:induction false} AccountingKept(s: State, steps: seq<Step>, i: nat)
    requires i < |s.loop.peers| && Accounting(s.loop.peers[i].claim) && Orderly(s, steps, i)
    requires Run(System(), s, steps).To?
    ensures var t := Run(System(), s, steps).state; i < |t.loop.peers| && Accounting(t.loop.peers[i].claim)
    decreases |steps|
  {
    if steps != [] {
      StepAccounting(s, steps[0], i);
      AccountingKept(Next(s, steps[0]), steps[1..], i);
    }
  }
}
