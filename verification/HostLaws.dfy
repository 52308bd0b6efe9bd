/** What every run of the host means for its counters, for the WHOHAS packets it sends, and for what is pending. */
module HostLaws {
  import opened ClaimSpec
  import opened WhohasQueue
  import opened SilenceSpec
  import opened Runs
  import opened HostRuns

  // The host's counters

  /** What the next timeout writes off for the first `n` peers: the chunks still due from those it gives up. */
  ghost function WrittenOff(l: Loop, n: nat): int
    requires n <= |l.peers|
  {
    if n == 0 then 0
    else
      var p := l.peers[n - 1].claim;
      WrittenOff(l, n - 1) + if GivesUp(l, n - 1) then p.numChunks - p.chunksFetched else 0
  }

  /** With peer `n - 1` written off, the request counts as complete. */
  ghost predicate CompleteBy(s: State, n: nat) {
    && 0 < n <= |s.loop.peers| && GivesUp(s.loop, n - 1)
    && s.loop.host.chunksFetched + WrittenOff(s.loop, n) == s.loop.host.numChunks
  }

  ghost predicate Completes(s: State, step: Step) {
    match step
    case Done(_, _) => s.loop.host.chunksFetched + 1 == s.loop.host.numChunks
    case Timeout => exists n :: CompleteBy(s, n)
    case _ => false
  }

  /** What a step adds to the chunks fetched: the chunk that is complete, or what is written off. */
  ghost function Credit(s: State, step: Step): int {
    match step
    case Done(_, _) => 1
    case Timeout => WrittenOff(s.loop, |s.loop.peers|)
    case _ => 0
  }

  lemma TurnOf(l: Loop, i: nat)
    requires Bounded(l) && i < |l.peers|
    ensures var q := AfterControl(DataPart(l).peers[i]);
            && (GivesUp(l, i) <==> GivesUpData(q))
            && (GivesUp(l, i) ==> q.claim.numChunks == l.peers[i].claim.numChunks
                                  && q.claim.chunksFetched == l.peers[i].claim.chunksFetched)
  {
  }

  lemma HostTurn(h: Host, peers: seq<Timed>, n: nat)
    requires 0 < n <= |peers|
    ensures var g := HostAfter(h, peers[..n - 1]);
            var q := AfterControl(peers[n - 1]);
            HostAfter(h, peers[..n]) == if GivesUpData(q) then DataTimeoutIn(g, q.claim).0 else g
  {
    assert peers[..n][..n - 1] == peers[..n - 1];
  }

  lemma {:induction false} TurnsCount(s: State, n: nat)
    requires Bounded(s.loop) && n <= |s.loop.peers| && forall k :: 0 <= k <= n ==> !CompleteBy(s, k)
    ensures var h := HostAfter(s.loop.host, DataPart(s.loop).peers[..n]);
            && h.numChunks == s.loop.host.numChunks
            && h.chunksFetched == s.loop.host.chunksFetched + WrittenOff(s.loop, n)
  {
    if n > 0 {
      TurnsCount(s, n - 1);
      HostTurn(s.loop.host, DataPart(s.loop).peers, n);
      TurnOf(s.loop, n - 1);
      assert !CompleteBy(s, n);
    }
  }

  /** The turn that completes the request clears both counters. */
  lemma TurnCompletes(s: State, n: nat)
    requires Bounded(s.loop) && CompleteBy(s, n) && forall k :: 0 <= k < n ==> !CompleteBy(s, k)
    ensures HostAfter(s.loop.host, DataPart(s.loop).peers[..n]) == Host([], 0, 0)
  {
    TurnsCount(s, n - 1);
    HostTurn(s.loop.host, DataPart(s.loop).peers, n);
    TurnOf(s.loop, n - 1);
  }

  /** A step that does not complete the request keeps its size, and counts what it adds. */
  lemma StepCounts(s: State, step: Step)
    requires Inv(s) && Enabled(s, step) && !step.Request? && !Completes(s, step)
    ensures var h := Next(s, step).loop.host;
            && h.numChunks == s.loop.host.numChunks
            && h.chunksFetched == s.loop.host.chunksFetched + Credit(s, step)
  {
    if step.Timeout? {
      var peers := DataPart(s.loop).peers;
      TurnsCount(s, |s.loop.peers|);
      assert peers[..|peers|] == peers;
    }
  }

  /** The chunk that completes the request clears both counters. */
  lemma DoneCompletes(s: State, i: nat, of: Source)
    requires Inv(s) && Enabled(s, Done(i, of)) && Completes(s, Done(i, of))
    ensures Next(s, Done(i, of)).loop.host == Host([], 0, 0)
  {
  }

  ghost function Credits(s: State, steps: seq<Step>): int
    decreases |steps|
  {
    if steps == [] || !Enabled(s, steps[0]) then 0
    else Credit(s, steps[0]) + Credits(Next(s, steps[0]), steps[1..])
  }

  /** No step of the run completes the request or starts another one. */
  ghost predicate Incomplete(s: State, steps: seq<Step>)
    decreases |steps|
  {
    steps != [] && Enabled(s, steps[0]) ==>
      !steps[0].Request? && !Completes(s, steps[0]) && Incomplete(Next(s, steps[0]), steps[1..])
  }

  /**
    Until a request is complete, the host has counted one chunk for each that came
    in, and for each peer given up the chunks that were still due from it.
   */
  lemma {:induction false} RunCounts(s: State, steps: seq<Step>)
    requires Inv(s) && Incomplete(s, steps) && Run(System(), s, steps).To?
    ensures var h := Run(System(), s, steps).state.loop.host;
            && h.numChunks == s.loop.host.numChunks
            && h.chunksFetched == s.loop.host.chunksFetched + Credits(s, steps)
    decreases |steps|
  {
    if steps != [] {
      StepInv(s, steps[0]);
      StepCounts(s, steps[0]);
      RunCounts(Next(s, steps[0]), steps[1..]);
    }
  }

  function Dones(steps: seq<Step>): nat
    decreases |steps|
  {
    if steps == [] then 0 else (if steps[0].Done? then 1 else 0) + Dones(steps[1..])
  }

  /** No other request comes, and no peer's data is given up. */
  ghost predicate AllDeliver(s: State, steps: seq<Step>)
    decreases |steps|
  {
    steps != [] && Enabled(s, steps[0]) ==>
      && !steps[0].Request? && (steps[0].Timeout? ==> !Forgets(s, Timeout))
      && AllDeliver(Next(s, steps[0]), steps[1..])
  }

  lemma {:induction false} NothingWrittenOff(s: State, n: nat)
    requires n <= |s.loop.peers| && !Forgets(s, Timeout)
    ensures WrittenOff(s.loop, n) == 0 && !CompleteBy(s, n)
  {
    if n > 0 {
      NothingWrittenOff(s, n - 1);
    }
  }

  lemma {:induction false} DeliveryCounts(s: State, steps: seq<Step>)
    requires Inv(s) && AllDeliver(s, steps) && Run(System(), s, steps).To?
    requires s.loop.host.chunksFetched + Dones(steps) < s.loop.host.numChunks
    ensures var h := Run(System(), s, steps).state.loop.host;
            && h.numChunks == s.loop.host.numChunks
            && h.chunksFetched == s.loop.host.chunksFetched + Dones(steps)
    decreases |steps|
  {
    if steps != [] {
      if steps[0].Timeout? {
        forall n | 0 <= n <= |s.loop.peers| ensures WrittenOff(s.loop, n) == 0 && !CompleteBy(s, n) {
          NothingWrittenOff(s, n);
        }
      }
      StepInv(s, steps[0]);
      StepCounts(s, steps[0]);
      DeliveryCounts(Next(s, steps[0]), steps[1..]);
    }
  }

  /**
    A request of n chunks, all of which are delivered, is complete with exactly
    the n-th of them, and the host is then as if nothing had been requested.
   */
  lemma NthChunkCompletes(s: State, hashes: seq<Hash>, steps: seq<Step>, i: nat, of: Source)
    requires Reachable(s) && Dones(steps) < |hashes|
    requires var t := Next(s, Request(hashes));
             AllDeliver(t, steps) && Run(System(), t, steps).To? && Enabled(Run(System(), t, steps).state, Done(i, of))
    ensures var u := Run(System(), Next(s, Request(hashes)), steps).state;
            var h := Next(u, Done(i, of)).loop.host;
            && u.loop.host.numChunks == |hashes| && u.loop.host.chunksFetched == Dones(steps)
            && (h == Host([], 0, 0) <==> Dones(steps) + 1 == |hashes|)
            && (Dones(steps) + 1 < |hashes| ==> h.numChunks == |hashes| && h.chunksFetched == Dones(steps) + 1)
  {
    var t := Next(s, Request(hashes));
    ReachableInv(s);
    StepInv(s, Request(hashes));
    DeliveryCounts(t, steps);
    RunInv(t, steps);
    var u := Run(System(), t, steps).state;
    if Completes(u, Done(i, of)) {
      DoneCompletes(u, i, of);
    } else {
      StepCounts(u, Done(i, of));
    }
  }

  // The WHOHAS packets

  /** The message that a step sends to peer `i` for the first time, if it sends one. */
  ghost function OutTo(s: State, step: Step, i: nat): seq<Message>
    requires Enabled(s, step) && i < |s.loop.peers|
  {
    var p := s.loop.peers[i].claim;
    match step
    case Ihave(j, chunks) => if j == i then IhaveIn(s.loop.host.fof, p, chunks).2 else []
    case Done(j, _) => if j == i then DoneIn(s.loop.host, p).2 else []
    case Stray(j) => if j == i then NextChunk(s.loop.host.fof, p).2 else []
    case Request(hashes) => NextWhohas(p.(whohas := p.whohas + Packets(hashes))).1
    case _ => []
  }

  predicate WhohasSent(out: seq<Message>) {
    out != [] && out[0].Whohas?
  }

  /** The inputs that call for the next WHOHAS: an empty IHAVE, the end of the last chunk announced, a request. */
  ghost predicate CallsForWhohas(s: State, step: Step, i: nat)
    requires Enabled(s, step) && i < |s.loop.peers|
  {
    match step
    case Ihave(j, chunks) => j == i && chunks == []
    case Done(j, _) => j == i && s.loop.peers[i].claim.chunksFetched + 1 >= s.loop.peers[i].claim.numChunks
    case Request(_) => true
    case _ => false
  }

  /** The inputs that discard the queue of WHOHAS packets of peer `i`. */
  ghost predicate Discards(s: State, step: Step, i: nat)
    requires Enabled(s, step) && i < |s.loop.peers|
  {
    match step
    case Denied(j) => j == i && s.loop.peers[i].claim.pendingWhohas.Some?
    case Timeout => Cleans(s.loop, i)
    case _ => false
  }

  /** The queue of peer `i` after a step: the answered packet leaves at its head, a request enters at its end. */
  ghost function QueueAfter(s: State, step: Step, i: nat): seq<seq<Hash>>
    requires Enabled(s, step) && i < |s.loop.peers|
  {
    var p := s.loop.peers[i].claim;
    if Discards(s, step, i) then []
    else if step.Request? then p.whohas + Packets(step.hashes)
    else if step.Ihave? && step.i == i && p.pendingWhohas.Some? then p.whohas[1..]
    else p.whohas
  }

  /** The claiming state of peer `i` after a step. */
  ghost function ClaimAfter(s: State, step: Step, i: nat): Peer
    requires Enabled(s, step) && i < |s.loop.peers|
  {
    var p := s.loop.peers[i].claim;
    match step
    case Ihave(j, chunks) => if j == i then IhaveIn(s.loop.host.fof, p, chunks).1 else p
    case Data(j) => if j == i then p.(pendingGet := None) else p
    case Done(j, _) => if j == i then DoneIn(s.loop.host, p).1 else p
    case Stray(j) => if j == i then NextChunk(s.loop.host.fof, p).1 else p
    case Denied(j) => if j == i then DeniedIn(p) else p
    case Request(hashes) => Requested(p, hashes)
    case Timeout => if Cleans(s.loop, i) then Cleaned(p) else p
    case _ => p
  }

  lemma StepClaim(s: State, step: Step, i: nat)
    requires Inv(s) && Enabled(s, step) && i < |s.loop.peers|
    ensures |Next(s, step).loop.peers| == |s.loop.peers|
    ensures Next(s, step).loop.peers[i].claim == ClaimAfter(s, step, i)
  {
    if step.Timeout? {
      TickClaim(s.loop, i);
    }
  }

  /**
    The queue of WHOHAS packets changes only as stated. A WHOHAS goes to a peer
    exactly when an input calls for it and one is queued, and it is the head of
    the queue; it is pending from then on until it is answered, or the queue
    discarded.
   */
  lemma StepTells(s: State, step: Step, i: nat)
    requires Inv(s) && Enabled(s, step) && i < |s.loop.peers|
    ensures var q := QueueAfter(s, step, i);
            var out := OutTo(s, step, i);
            && ClaimAfter(s, step, i).whohas == q
            && (WhohasSent(out) <==> CallsForWhohas(s, step, i) && q != [])
            && (WhohasSent(out) ==> out == [Whohas(q[0])])
            && ClaimAfter(s, step, i).pendingWhohas
               == if WhohasSent(out) then Some(q[0])
                  else if Discards(s, step, i) || (step.Ihave? && step.i == i) then None
                  else s.loop.peers[i].claim.pendingWhohas
  {
  }

  /** Packets queued for a peer and packets sent to it for the first time, since its queue was last discarded. */
  datatype Ledger = Ledger(queued: seq<seq<Hash>>, told: seq<seq<Hash>>)

  /** A WHOHAS that is not a repetition of the pending one. */
  ghost predicate FirstTold(s: State, step: Step, i: nat)
    requires Enabled(s, step) && i < |s.loop.peers|
  {
    WhohasSent(OutTo(s, step, i)) && (s.loop.peers[i].claim.pendingWhohas.None? || step.Ihave?)
  }

  ghost function Entered(l: Ledger, s: State, step: Step, i: nat): Ledger
    requires Enabled(s, step) && i < |s.loop.peers|
  {
    if Discards(s, step, i) then Ledger([], [])
    else Ledger(l.queued + (if step.Request? then Packets(step.hashes) else []),
                l.told + (if FirstTold(s, step, i) then [OutTo(s, step, i)[0].hashes] else []))
  }

  /** The queue is the end of what was queued; what was told is all before it, and its head while that is pending. */
  ghost predicate Matches(l: Ledger, p: Peer) {
    && PendingIsHead(p) && |p.whohas| <= |l.queued|
    && var a := |l.queued| - |p.whohas|;
       && p.whohas == l.queued[a..]
       && l.told == l.queued[..a + if p.pendingWhohas.Some? then 1 else 0]
  }

  lemma AnsweredMatches(l: Ledger, p: Peer)
    requires Matches(l, p) && p.pendingWhohas.Some?
    ensures Matches(l, p.(whohas := p.whohas[1..], pendingWhohas := None))
  {
  }

  lemma GrownMatches(l: Ledger, p: Peer, more: seq<seq<Hash>>)
    requires Matches(l, p)
    ensures Matches(Ledger(l.queued + more, l.told), p.(whohas := p.whohas + more))
  {
    var b := |l.told|;
    assert (l.queued + more)[..b] == l.queued[..b];
  }

  lemma SentMatches(l: Ledger, p: Peer)
    requires Matches(l, p) && p.whohas != []
    ensures Matches(Ledger(l.queued, l.told + if p.pendingWhohas.None? then [p.whohas[0]] else []),
                    p.(pendingWhohas := Some(p.whohas[0])))
  {
  }

  /** A queue whose head leaves if it is answered, and that grows by `more`; its head is sent if `sent` says so. */
  lemma QueueMatches(l: Ledger, p: Peer, m: Ledger, q: Peer, more: seq<seq<Hash>>, answered: bool, sent: bool)
    requires Matches(l, p) && (answered ==> p.pendingWhohas.Some?)
    requires q.whohas == (if answered then p.whohas[1..] else p.whohas) + more && m.queued == l.queued + more
    requires sent ==> q.whohas != []
    requires q.pendingWhohas == if sent then Some(q.whohas[0]) else if answered then None else p.pendingWhohas
    requires m.told == l.told + if sent && (p.pendingWhohas.None? || answered) then [q.whohas[0]] else []
    ensures Matches(m, q)
  {
    var r := p;
    if answered {
      AnsweredMatches(l, p);
      r := p.(whohas := p.whohas[1..], pendingWhohas := None);
    }
    GrownMatches(l, r, more);
    if sent {
      SentMatches(Ledger(m.queued, l.told), r.(whohas := q.whohas));
    }
  }

  lemma EnteredMatches(l: Ledger, s: State, step: Step, i: nat)
    requires Inv(s) && Enabled(s, step) && i < |s.loop.peers| && Matches(l, s.loop.peers[i].claim)
    ensures Matches(Entered(l, s, step, i), ClaimAfter(s, step, i))
  {
    StepTells(s, step, i);
    if !Discards(s, step, i) {
      var p := s.loop.peers[i].claim;
      QueueMatches(l, p, Entered(l, s, step, i), ClaimAfter(s, step, i),
                   if step.Request? then Packets(step.hashes) else [],
                   step.Ihave? && step.i == i && p.pendingWhohas.Some?, WhohasSent(OutTo(s, step, i)));
    }
  }

  ghost function LedgerAfter(l: Ledger, s: State, steps: seq<Step>, i: nat): Ledger
    decreases |steps|
  {
    if steps == [] || !Enabled(s, steps[0]) || i >= |s.loop.peers| then l
    else LedgerAfter(Entered(l, s, steps[0], i), Next(s, steps[0]), steps[1..], i)
  }

  lemma {:induction false} LedgerMatches(l: Ledger, s: State, steps: seq<Step>, i: nat)
    requires Inv(s) && i < |s.loop.peers| && Matches(l, s.loop.peers[i].claim) && Run(System(), s, steps).To?
    ensures var t := Run(System(), s, steps).state;
            i < |t.loop.peers| && Matches(LedgerAfter(l, s, steps, i), t.loop.peers[i].claim)
    decreases |steps|
  {
    if steps != [] {
      StepInv(s, steps[0]);
      StepClaim(s, steps[0], i);
      EnteredMatches(l, s, steps[0], i);
      LedgerMatches(Entered(l, s, steps[0], i), Next(s, steps[0]), steps[1..], i);
    }
  }

  /**
    In every run the WHOHAS packets that a peer is sent for the first time are the
    packets of the requests, in order and without a gap, since its queue was last
    discarded; the ones not sent yet are queued behind the pending one.
   */
  lemma ToldInOrder(start: State, steps: seq<Step>, i: nat)
    requires Fresh(start) && i < |start.loop.peers| && Run(System(), start, steps).To?
    ensures var l := LedgerAfter(Ledger([], []), start, steps, i);
            var t := Run(System(), start, steps).state;
            && i < |t.loop.peers| && l.told <= l.queued
            && var p := t.loop.peers[i].claim;
               && (p.pendingWhohas.Some? ==>
                     p.whohas != [] && l.told != [] && p.pendingWhohas == Some(l.told[|l.told| - 1]))
               && l.queued[|l.told|..] == (if p.pendingWhohas.Some? then p.whohas[1..] else p.whohas)
  {
    assert Run(System(), start, []) == To(start);
    ReachableInv(start);
    LedgerMatches(Ledger([], []), start, steps, i);
  }

  // The accounting of a peer

  /** The inputs that put an upset accounting right again. */
  ghost predicate Mends(s: State, step: Step, i: nat)
    requires i < |s.loop.peers|
  {
    var p := s.loop.peers[i].claim;
    match step
    case Ihave(j, chunks) => j == i && if chunks == [] then |p.hehas| == p.numChunks else p.hehas == []
    case Done(j, _) => j == i && p.chunksFetched + 1 >= p.numChunks
    case Timeout => Cleans(s.loop, i)
    case _ => false
  }

  lemma ClaimMends(s: State, step: Step, i: nat)
    requires Enabled(s, step) && i < |s.loop.peers| && !Accounting(s.loop.peers[i].claim)
    ensures Accounting(ClaimAfter(s, step, i)) <==> Mends(s, step, i)
  {
    var p := s.loop.peers[i].claim;
    match step
    case Ihave(_, chunks) =>
      if step.i == i {
        IhaveAccounting(s.loop.host.fof, p, chunks);
      }
    case Done(_, _) => DoneAccounting(s.loop.host, p);
    case Stray(_) => NextChunkMeaning(s.loop.host.fof, p);
    case _ =>
  }

  /** An accounting that is upset is put right exactly by such an input. */
  lemma StepMends(s: State, step: Step, i: nat)
    requires Inv(s) && Enabled(s, step) && i < |s.loop.peers| && !Accounting(s.loop.peers[i].claim)
    ensures |Next(s, step).loop.peers| == |s.loop.peers|
    ensures Accounting(Next(s, step).loop.peers[i].claim) <==> Mends(s, step, i)
  {
    StepClaim(s, step, i);
    ClaimMends(s, step, i);
  }

  // The pending GET, and a peer that is given up

  /**
    A GET is pending at a peer from when it is sent until data comes from the
    peer, or a DENIED, or the peer is given up; another GET takes its place.
   */
  lemma StepGetPending(s: State, step: Step, i: nat)
    requires Inv(s) && Enabled(s, step) && i < |s.loop.peers|
    ensures var out := OutTo(s, step, i);
            ClaimAfter(s, step, i).pendingGet
            == if GetSent(out) then Some(out[0].chunk)
               else if step == Data(i) || (step.Done? && step.i == i) || step == Denied(i)
                       || (step.Timeout? && Cleans(s.loop, i)) then None
               else s.loop.peers[i].claim.pendingGet
  {
  }

  /** A peer that is given up is as it was before anything was requested. */
  lemma GivenUpIsIdle(p: Timed)
    ensures TotalCleanup(p) == Idle()
  {
  }
}
