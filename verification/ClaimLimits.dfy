/** A chunk is fetched from one peer at a time, and from some peer once it is claimed, but for what is stated here. */
module ClaimLimits {
  import opened ClaimSpec
  import opened Runs
  import opened HostRuns

  /** Some GET for chunk `c` went to peer `i`. */
  ghost predicate Asked(s: State, i: nat, c: ChunkId) {
    (i, c) in s.sent
  }

  /** And one of them has not been answered completely. */
  ghost predicate Unanswered(s: State, i: nat, c: ChunkId) {
    (i, c) in s.open
  }

  /** What peer `i` sends is taken in as chunk `c`. */
  ghost predicate TakenFrom(s: State, i: nat, c: ChunkId) {
    i < |s.loop.peers| && s.loop.peers[i].claim.getHashId == c
  }

  /** The claims are not forgotten on the way. */
  ghost predicate NoForget(s: State, steps: seq<Step>)
    decreases |steps|
  {
    steps != [] && Enabled(s, steps[0]) ==> !Forgets(s, steps[0]) && NoForget(Next(s, steps[0]), steps[1..])
  }

  lemma {:induction false} NoForgetConcat(s: State, u: seq<Step>, v: seq<Step>)
    requires NoForget(s, u) && Run(System(), s, u).To? && NoForget(Run(System(), s, u).state, v)
    ensures NoForget(s, u + v) && Run(System(), s, u + v) == Run(System(), Run(System(), s, u).state, v)
    decreases |u|
  {
    RunConcat(System(), s, u, v);
    if u == [] {
      assert u + v == v;
    } else {
      assert (u + v)[1..] == u[1..] + v;
      NoForgetConcat(Next(s, u[0]), u[1..], v);
    }
  }

  lemma NoForgetOne(s: State, step: Step)
    requires Enabled(s, step) && !Forgets(s, step)
    ensures NoForget(s, [step]) && Run(System(), s, [step]) == To(Next(s, step))
  {
    assert Run(System(), Next(s, step), [step][1..]) == To(Next(s, step));
    assert NoForget(Next(s, step), [step][1..]);
  }

  // One peer at a time, exactly

  /** Peer `i` has a GET for chunk `c` to answer, and its answer is taken in. */
  ghost predicate Feeds(s: State, i: nat, c: ChunkId) {
    Unanswered(s, i, c) && TakenFrom(s, i, c)
  }

  /** Chunk `c` is being fetched from two peers. */
  ghost predicate Double(s: State, c: ChunkId) {
    exists i: nat, j: nat :: i != j && Feeds(s, i, c) && Feeds(s, j, c)
  }

  /** That can come about before the claims are forgotten again. */
  ghost predicate CanDouble(s: State, c: ChunkId) {
    exists steps :: NoForget(s, steps) && Run(System(), s, steps).To? && Double(Run(System(), s, steps).state, c)
  }

  /** Peer `i` has a GET for `c` to answer, or could be sent one. */
  ghost predicate CanAsk(s: State, i: nat, c: ChunkId) {
    i < |s.loop.peers| && (Unanswered(s, i, c) || c !in s.loop.host.fof)
  }

  /** One peer has a GET for `c` to answer, and another one has too, or could be sent one. */
  ghost predicate Shareable(s: State, c: ChunkId) {
    exists i: nat, j: nat :: i != j && Unanswered(s, i, c) && CanAsk(s, j, c)
  }

  predicate From(step: Step, i: nat) {
    (step.Ihave? || step.Done? || step.Stray?) && step.i == i
  }

  /** A step asks one peer for an unclaimed chunk, and claims it; only forgetting makes the claims fewer. */
  lemma StepAsks(s: State, step: Step, j: nat, c: ChunkId)
    requires Inv(s) && Enabled(s, step)
    ensures var t := Next(s, step);
            && |t.loop.peers| == |s.loop.peers| && s.sent <= t.sent
            && (Unanswered(t, j, c) && !Unanswered(s, j, c) ==> From(step, j) && c !in s.loop.host.fof)
            && (Asked(t, j, c) && !Asked(s, j, c) ==> Unanswered(t, j, c))
            && (!Forgets(s, step) ==>
                  && (Unanswered(t, j, c) && !Unanswered(s, j, c) ==> c in t.loop.host.fof)
                  && (c in s.loop.host.fof ==> c in t.loop.host.fof))
  {
    var host := s.loop.host;
    match step
    case Ihave(i, chunks) => IhaveAsksNew(host.fof, s.loop.peers[i].claim, chunks);
    case Done(i, _) => DoneAsksNew(host, s.loop.peers[i].claim);
    case Stray(i) => NextChunkMeaning(host.fof, s.loop.peers[i].claim);
    case Timeout => TickFof(s);
    case _ =>
  }

  lemma StepShareable(s: State, step: Step, c: ChunkId)
    requires Inv(s) && Enabled(s, step) && !Forgets(s, step) && Shareable(Next(s, step), c)
    ensures Shareable(s, c)
  {
    var t := Next(s, step);
    var i: nat, j: nat :| i != j && Unanswered(t, i, c) && CanAsk(t, j, c);
    StepInv(s, step);
    StepAsks(s, step, i, c);
    StepAsks(s, step, j, c);
    assert (Unanswered(s, i, c) && CanAsk(s, j, c)) || (Unanswered(s, j, c) && CanAsk(s, i, c));
  }

  lemma {:induction false} RunShareable(s: State, steps: seq<Step>, c: ChunkId)
    requires Inv(s) && NoForget(s, steps) && Run(System(), s, steps).To?
    requires Shareable(Run(System(), s, steps).state, c)
    ensures Shareable(s, c)
    decreases |steps|
  {
    if steps != [] {
      StepInv(s, steps[0]);
      RunShareable(Next(s, steps[0]), steps[1..], c);
      StepShareable(s, steps[0], c);
    }
  }

  /** How many IHAVEs with chunk `c` it takes until data from a peer is taken in as `c`, less one. */
  function Rank(fof: seq<int>, p: Peer): nat {
    if p.hehas == [] then 0 else if p.hehas[0].id in fof then 1 else 2
  }

  /** An IHAVE with chunk `c` has its data taken in as `c`, or clears the way for the next one. */
  lemma IhaveOfOne(fof: seq<int>, p: Peer, c: ChunkId)
    requires PendingIsHead(p)
    ensures var (fof', q, out) := IhaveIn(fof, p, [Chunk(0, c)]);
            && PendingIsHead(q)
            && if c in fof' && q.getHashId == c then c in fof || GetSent(out)
               else Rank(fof', q) < Rank(fof, p) && (c in fof' <==> c in fof)
  {
    var chunk := Chunk(0, c);
    var hehas := Appended(p.hehas, [chunk]);
    assert hehas == if p.hehas == [] then [chunk] else [p.hehas[0], chunk];
    assert [chunk][1..] == [] && hehas[1..] == if p.hehas == [] then [] else [chunk];
    assert Unclaimed(fof, [chunk]) == if c in fof then Unclaimed(fof, []) else [chunk];
  }

  ghost predicate Grows(s: State, t: State, k: nat) {
    && |t.loop.peers| == |s.loop.peers| && s.sent <= t.sent && s.open <= t.open
    && forall j :: 0 <= j < |s.loop.peers| && j != k ==> t.loop.peers[j] == s.loop.peers[j]
  }

  /** Up to three IHAVEs from a peer have `c` claimed and its data taken in as `c`; it is asked if `c` was unclaimed. */
  lemma {:induction false} Offer(s: State, k: nat, c: ChunkId) returns (steps: seq<Step>)
    requires Inv(s) && k < |s.loop.peers|
    ensures NoForget(s, steps) && Run(System(), s, steps).To?
    ensures var t := Run(System(), s, steps).state;
            && Inv(t) && Grows(s, t, k) && c in t.loop.host.fof && TakenFrom(t, k, c)
            && (c !in s.loop.host.fof ==> Unanswered(t, k, c))
    decreases Rank(s.loop.host.fof, s.loop.peers[k].claim)
  {
    var offer := Ihave(k, [Chunk(0, c)]);
    var t := Next(s, offer);
    IhaveOfOne(s.loop.host.fof, s.loop.peers[k].claim, c);
    IhaveAsksNew(s.loop.host.fof, s.loop.peers[k].claim, [Chunk(0, c)]);
    StepInv(s, offer);
    NoForgetOne(s, offer);
    steps := [offer];
    if !(c in t.loop.host.fof && TakenFrom(t, k, c)) {
      var rest := Offer(t, k, c);
      NoForgetConcat(s, steps, rest);
      steps := steps + rest;
    }
  }

  lemma OfferBoth(s: State, i: nat, j: nat, c: ChunkId)
    requires Inv(s) && i != j && Unanswered(s, i, c) && CanAsk(s, j, c)
    ensures CanDouble(s, c)
  {
    var u := Offer(s, j, c);
    var t := Run(System(), s, u).state;
    assert (i, c) in s.sent;
    var v := Offer(t, i, c);
    NoForgetConcat(s, u, v);
    var w := Run(System(), t, v).state;
    assert Feeds(w, i, c) && Feeds(w, j, c);
    assert NoForget(s, u + v) && Run(System(), s, u + v) == To(w) && Double(w, c);
  }

  /**
    When exactly a chunk can come to be fetched from two peers at the same time,
    as long as the claims are not forgotten (again): if and only if one peer has a
    GET for it to answer, and another one has too or the chunk is unclaimed.
   */
  lemma DoubleIff(s: State, c: ChunkId)
    requires Reachable(s)
    ensures CanDouble(s, c) <==> Shareable(s, c)
  {
    ReachableInv(s);
    if Shareable(s, c) {
      var i: nat, j: nat :| i != j && Unanswered(s, i, c) && CanAsk(s, j, c);
      OfferBoth(s, i, j, c);
    } else if CanDouble(s, c) {
      var steps :| NoForget(s, steps) && Run(System(), s, steps).To? && Double(Run(System(), s, steps).state, c);
      var t := Run(System(), s, steps).state;
      var i: nat, j: nat :| i != j && Feeds(t, i, c) && Feeds(t, j, c);
      assert CanAsk(t, j, c);
      RunShareable(s, steps, c);
    }
  }

  /** In particular, once the claims are forgotten, exactly the chunks that some peer still has a GET to answer for. */
  lemma DoubleAfterForgetting(s: State, step: Step, c: ChunkId)
    requires Reachable(s) && Enabled(s, step) && Forgets(s, step)
    ensures var t := Next(s, step);
            CanDouble(t, c) <==> |t.loop.peers| >= 2 && exists i: nat :: Unanswered(t, i, c)
  {
    var t := Next(s, step);
    ReachableInv(s);
    ReachableNext(s, step);
    ReachableInv(t);
    DoubleIff(t, c);
    ForgottenFof(s, step);
    if |t.loop.peers| >= 2 && exists i: nat :: Unanswered(t, i, c) {
      var i: nat :| Unanswered(t, i, c);
      assert CanAsk(t, if i == 0 then 1 else 0, c);
    } else if Shareable(t, c) {
      TwoPeers(t, c);
    }
  }

  lemma TwoPeers(s: State, c: ChunkId)
    requires Inv(s) && Shareable(s, c)
    ensures |s.loop.peers| >= 2 && exists i: nat :: Unanswered(s, i, c)
  {
    var i: nat, j: nat :| i != j && Unanswered(s, i, c) && CanAsk(s, j, c);
    assert (i, c) in s.sent;
  }

  lemma ForgottenFof(s: State, step: Step)
    requires Inv(s) && Enabled(s, step) && Forgets(s, step)
    ensures Next(s, step).loop.host.fof == []
  {
    if step.Timeout? {
      TickFof(s);
    }
  }

  // Claimed chunks that nobody is waited for

  /** The host takes in data from peer `i` as chunk `c`, and has asked it for `c`. */
  ghost predicate Fetching(s: State, i: nat, c: ChunkId) {
    Asked(s, i, c) && TakenFrom(s, i, c)
  }

  /** If chunk `c` is claimed, it has come in, or it is being fetched. */
  ghost predicate Covered(s: State, c: ChunkId) {
    c in s.loop.host.fof ==> c in s.fetched || exists i: nat :: Fetching(s, i, c)
  }

  /** An IHAVE that finds everything listed claimed, and `c` listed first: `c` is waited for, without a GET. */
  predicate WaitsFor(fof: seq<int>, p: Peer, chunks: seq<Chunk>, c: ChunkId) {
    var hehas := Appended(p.hehas, chunks);
    chunks != [] && hehas[0].id == c && forall k :: 0 <= k < |hehas| ==> hehas[k].id in fof
  }

  /** And the peer that it comes from was asked for `c` before. */
  ghost predicate Resumes(s: State, step: Step, i: nat, c: ChunkId)
    requires Enabled(s, step)
  {
    && step.Ihave? && step.i == i && Asked(s, i, c)
    && WaitsFor(s.loop.host.fof, s.loop.peers[i].claim, step.chunks, c)
  }

  /** After this step peer `i` is no longer waited for as the source of the claimed chunk `c`. */
  ghost predicate Ends(s: State, step: Step, i: nat, c: ChunkId)
    requires Enabled(s, step)
  {
    match step
    case Ihave(j, chunks) => i == j && chunks != [] && !WaitsFor(s.loop.host.fof, s.loop.peers[i].claim, chunks, c)
    case Done(j, _) => i == j
    case Timeout => i < |s.loop.peers| && Cleans(s.loop, i)
    case _ => false
  }

  /** The step completes chunk `c`, all of it in its place. */
  ghost predicate Brings(s: State, step: Step, c: ChunkId)
    requires Enabled(s, step)
  {
    step.Done? && !step.of.Mixed? && step.of.chunk == c && TakenFrom(s, step.i, c)
  }

  lemma IhaveGets(fof: seq<int>, p: Peer, chunks: seq<Chunk>)
    requires PendingIsHead(p) && chunks != []
    ensures var (fof', q, out) := IhaveIn(fof, p, chunks);
            var hehas := Appended(p.hehas, chunks);
            if AllClaimed(fof, hehas) then !GetSent(out) && q.getHashId == hehas[0].id else GetSent(out)
  {
    var hehas := Appended(p.hehas, chunks);
    UnclaimedMeaning(fof, hehas);
    var k := |hehas| - |Unclaimed(fof, hehas)|;
    assert k == |hehas| ==> hehas[..k] == hehas;
    assert k < |hehas| ==> hehas[k] == Unclaimed(fof, hehas)[0];
  }

  /** Exactly when a claimed chunk is taken in from a peer after a step. */
  lemma StepTakes(s: State, step: Step, i: nat, c: ChunkId)
    requires Inv(s) && Enabled(s, step) && !Forgets(s, step) && c in s.loop.host.fof
    ensures Fetching(Next(s, step), i, c)
            <==> (Fetching(s, i, c) && !Ends(s, step, i, c)) || Resumes(s, step, i, c)
  {
    var host := s.loop.host;
    StepAsks(s, step, i, c);
    match step
    case Ihave(j, chunks) =>
      IhaveAsksNew(host.fof, s.loop.peers[j].claim, chunks);
      if chunks != [] {
        IhaveGets(host.fof, s.loop.peers[j].claim, chunks);
      }
    case Done(j, _) => DoneAsksNew(host, s.loop.peers[j].claim);
    case Stray(j) => NextChunkMeaning(host.fof, s.loop.peers[j].claim);
    case Timeout =>
      if i < |s.loop.peers| {
        TickClaim(s.loop, i);
      }
    case _ =>
  }

  lemma StepFetches(s: State, step: Step, c: ChunkId)
    requires Enabled(s, step) && !Forgets(s, step)
    ensures c in Next(s, step).fetched <==> c in s.fetched || Brings(s, step, c)
  {
  }

  /**
    A step that leaves the claimed chunk `c` neither here nor waited for: the
    claims stay, every peer it was fetched from is given up, turns to something
    else or completes other data, and none is turned to again.
   */
  ghost predicate Strands(s: State, step: Step, c: ChunkId)
    requires Enabled(s, step)
  {
    && !Forgets(s, step) && c in s.loop.host.fof && c !in s.fetched && !Brings(s, step, c)
    && forall i: nat :: !Resumes(s, step, i, c) && (Fetching(s, i, c) ==> Ends(s, step, i, c))
  }

  /** Exactly when "every claimed chunk has come in or is being fetched" does not hold after a step. */
  lemma StepCovered(s: State, step: Step, c: ChunkId)
    requires Inv(s) && Enabled(s, step)
    ensures Covered(Next(s, step), c) <==> !Strands(s, step, c)
  {
    if Forgets(s, step) {
      ForgottenFof(s, step);
    } else if c in s.loop.host.fof {
      StepAsks(s, step, 0, c);
      StepFetches(s, step, c);
      forall i: nat
        ensures Fetching(Next(s, step), i, c)
                <==> (Fetching(s, i, c) && !Ends(s, step, i, c)) || Resumes(s, step, i, c)
      {
        StepTakes(s, step, i, c);
      }
    } else {
      NewClaimFetched(s, step, c);
    }
  }

  /** What is newly claimed is fetched. */
  lemma NewClaimFetched(s: State, step: Step, c: ChunkId)
    requires Inv(s) && Enabled(s, step) && !Forgets(s, step) && c !in s.loop.host.fof
    ensures Covered(Next(s, step), c)
  {
    var host := s.loop.host;
    var t := Next(s, step);
    match step
    case Ihave(i, chunks) =>
      IhaveAsksNew(host.fof, s.loop.peers[i].claim, chunks);
      assert c in t.loop.host.fof ==> Fetching(t, i, c);
    case Done(i, _) =>
      DoneAsksNew(host, s.loop.peers[i].claim);
      assert c in t.loop.host.fof ==> Fetching(t, i, c);
    case Stray(i) =>
      NextChunkMeaning(host.fof, s.loop.peers[i].claim);
      assert c in t.loop.host.fof ==> Fetching(t, i, c);
    case Timeout => TickFof(s);
    case _ =>
  }

  /** No step of the run turns to a peer again that was asked for `c`. */
  ghost predicate NeverResumes(s: State, steps: seq<Step>, c: ChunkId)
    decreases |steps|
  {
    steps != [] && Enabled(s, steps[0]) ==>
      && (forall i: nat :: !Resumes(s, steps[0], i, c))
      && NeverResumes(Next(s, steps[0]), steps[1..], c)
  }

  /** `c` stays claimed, neither here nor fetched, all along the run. */
  ghost predicate StaysStranded(s: State, steps: seq<Step>, c: ChunkId)
    decreases |steps|
  {
    && !Covered(s, c)
    && (steps != [] && Enabled(s, steps[0]) ==> StaysStranded(Next(s, steps[0]), steps[1..], c))
  }

  /**
    Until the claims are forgotten, a chunk that is claimed, but neither here nor
    fetched, stays so if and only if no peer that was once asked for it is turned
    to again.
   */
  lemma {:induction false} StrandedIff(s: State, steps: seq<Step>, c: ChunkId)
    requires Inv(s) && !Covered(s, c) && NoForget(s, steps) && Run(System(), s, steps).To?
    ensures StaysStranded(s, steps, c) <==> NeverResumes(s, steps, c)
    decreases |steps|
  {
    if steps != [] {
      StrandedStep(s, steps[0], c);
      if !Covered(Next(s, steps[0]), c) {
        StrandedIff(Next(s, steps[0]), steps[1..], c);
      }
    }
  }

  lemma StrandedStep(s: State, step: Step, c: ChunkId)
    requires Inv(s) && Enabled(s, step) && !Covered(s, c) && !Forgets(s, step)
    ensures Inv(Next(s, step))
    ensures !Covered(Next(s, step), c) <==> forall i: nat :: !Resumes(s, step, i, c)
  {
    StepInv(s, step);
    StepCovered(s, step, c);
    if Brings(s, step, c) {
      BringsFetched(s, step, c);
    }
  }

  lemma BringsFetched(s: State, step: Step, c: ChunkId)
    requires Inv(s) && Enabled(s, step) && Brings(s, step, c)
    ensures Fetching(s, step.i, c)
  {
  }

  /** A claimed chunk was asked for. */
  lemma ClaimAsked(s: State, c: ChunkId) returns (i: nat)
    requires Inv(s) && c in s.loop.host.fof
    ensures Asked(s, i, c) && i < |s.loop.peers|
  {
    var k :| 0 <= k < |s.gets| && Ids(s.gets)[k] == c;
    assert s.gets[k] in s.sent;
    i := s.gets[k].0;
  }

  /** And that can always happen: without forgetting the claims, some run has any claimed chunk fetched again. */
  lemma ClaimedCanCome(s: State, c: ChunkId) returns (steps: seq<Step>)
    requires Reachable(s) && c in s.loop.host.fof
    ensures NoForget(s, steps) && Run(System(), s, steps).To?
    ensures exists i: nat :: Fetching(Run(System(), s, steps).state, i, c)
  {
    ReachableInv(s);
    var i := ClaimAsked(s, c);
    steps := Offer(s, i, c);
    assert Fetching(Run(System(), s, steps).state, i, c);
  }
}
