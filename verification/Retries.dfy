/** What silence has sent again in the runs of a host, and for how long. */
module Retries {
  import opened Constants
  import opened ClaimSpec
  import opened SilenceSpec
  import opened Silence
  import opened Runs
  import opened HostRuns
  import opened HostLaws

  // What is sent again

  /** The pending GET of peer `i` is one that it has not answered completely. */
  ghost predicate GetOpen(s: State, i: nat)
    requires i < |s.loop.peers|
  {
    var get := s.loop.peers[i].claim.pendingGet;
    get.Some? ==> (i, get.value.id) in s.open
  }

  /** A GET leaves `open` with the data that answers it, and a new one enters. */
  lemma StepOpen(s: State, step: Step, i: nat, c: ChunkId)
    requires Enabled(s, step) && i < |s.loop.peers|
    ensures (i, c) in s.open && step != Done(i, Answer(c)) ==> (i, c) in Next(s, step).open
    ensures var out := OutTo(s, step, i); GetSent(out) && out[0].chunk.id == c ==> (i, c) in Next(s, step).open
  {
  }

  lemma StepGetOpen(s: State, step: Step, i: nat)
    requires Inv(s) && Enabled(s, step) && i < |s.loop.peers| && GetOpen(s, i)
    ensures i < |Next(s, step).loop.peers| && GetOpen(Next(s, step), i)
  {
    StepClaim(s, step, i);
    StepGetPending(s, step, i);
    var get := ClaimAfter(s, step, i).pendingGet;
    if get.Some? {
      StepOpen(s, step, i, get.value.id);
    }
  }

  lemma {:induction false} RunGetOpen(s: State, steps: seq<Step>, i: nat)
    requires Inv(s) && i < |s.loop.peers| && GetOpen(s, i) && Run(System(), s, steps).To?
    ensures var t := Run(System(), s, steps).state; i < |t.loop.peers| && GetOpen(t, i)
    decreases |steps|
  {
    if steps != [] {
      StepInv(s, steps[0]);
      StepGetOpen(s, steps[0], i);
      RunGetOpen(Next(s, steps[0]), steps[1..], i);
    }
  }

  /**
    A timeout has a peer sent the WHOHAS at the head of its queue again, or else
    the pending IHAVE, or else a GET for a chunk that it was asked for and has not
    sent completely; nothing if nothing is pending, or the timeout gives it up.
   */
  ghost predicate SendsAgain(s: State, i: nat)
    requires Bounded(s.loop) && i < |s.loop.peers|
  {
    var p := s.loop.peers[i];
    match ControlSent(DataPart(s.loop).peers[i])
    case AgainWhohas(hashes) => p.claim.whohas != [] && hashes == p.claim.whohas[0]
    case AgainIhave => p.pendingIhave && p.claim.pendingWhohas.None?
    case AgainGet(chunk) => (i, chunk.id) in s.open && !p.pendingIhave && p.claim.pendingWhohas.None?
    case Nothing =>
      || RunsOut(s.loop, i)
      || (!p.pendingIhave && p.claim.pendingWhohas.None? && p.claim.pendingGet.None?)
  }

  lemma OpenSendsAgain(s: State, i: nat)
    requires Inv(s) && i < |s.loop.peers| && GetOpen(s, i)
    ensures SendsAgain(s, i)
  {
    assert PendingIsHead(s.loop.peers[i].claim);
  }

  lemma SentAgain(start: State, steps: seq<Step>, i: nat)
    requires Fresh(start) && i < |start.loop.peers| && Run(System(), start, steps).To?
    ensures var t := Run(System(), start, steps).state;
            Bounded(t.loop) && i < |t.loop.peers| && SendsAgain(t, i)
  {
    assert Run(System(), start, []) == To(start);
    ReachableInv(start);
    RunInv(start, steps);
    RunGetOpen(start, steps, i);
    OpenSendsAgain(Run(System(), start, steps).state, i);
  }

  lemma TimeoutIhave(l: Loop, i: nat)
    requires Bounded(l) && i < |l.peers|
    ensures i < |Tick(l).peers|
    ensures Tick(l).peers[i].pendingIhave <==> l.peers[i].pendingIhave && !Cleans(l, i)
  {
    TickAt(l, i);
  }

  /**
    An IHAVE is pending from when a WHOHAS draws it until a GET comes from the
    peer while nobody is served, or a DENIED, or the peer is given up.
   */
  lemma StepIhavePending(s: State, step: Step, i: nat)
    requires Enabled(s, step) && i < |s.loop.peers|
    ensures i < |Next(s, step).loop.peers|
    ensures Next(s, step).loop.peers[i].pendingIhave <==>
              || step == WhohasFrom(i)
              || (s.loop.peers[i].pendingIhave && step != Denied(i) && !(step == GetFrom(i) && !s.serving)
                  && !(step.Timeout? && Cleans(s.loop, i)))
  {
    if step.Timeout? {
      TimeoutIhave(s.loop, i);
    }
  }

  /** The peer whose GET came last, if `last` is that before the run. */
  function LastGet(last: Option<nat>, steps: seq<Step>): Option<nat>
    decreases |steps|
  {
    if steps == [] then last else LastGet(if steps[0].GetFrom? then Some(steps[0].i) else last, steps[1..])
  }

  lemma StepServes(s: State, step: Step)
    requires Enabled(s, step)
    ensures step.GetFrom? ==> Next(s, step).loop.currTo == Some(step.i)
    ensures !step.GetFrom? && Next(s, step).loop.currTo.Some? ==> Next(s, step).loop.currTo == s.loop.currTo
  {
  }

  /** Data goes only to the peer whose GET came last, even if that was denied because another one was being served. */
  lemma {:induction false} ServesLast(s: State, steps: seq<Step>, last: Option<nat>)
    requires Inv(s) && (s.loop.currTo.Some? ==> s.loop.currTo == last) && Run(System(), s, steps).To?
    ensures var t := Run(System(), s, steps).state;
            && (t.loop.currTo.Some? ==> t.loop.currTo == LastGet(last, steps))
            && (steps != [] && steps[|steps| - 1].GetFrom? ==> t.loop.currTo == LastGet(last, steps))
    decreases |steps|
  {
    if steps != [] {
      var t := Next(s, steps[0]);
      StepServes(s, steps[0]);
      StepInv(s, steps[0]);
      ServesLast(t, steps[1..], if steps[0].GetFrom? then Some(steps[0].i) else last);
    }
  }

  // For how long

  /** How often a peer has been sent a control packet again, after a step. */
  ghost function TriesAfter(n: nat, s: State, step: Step, i: nat): nat
    requires Enabled(s, step) && i < |s.loop.peers|
  {
    var p := s.loop.peers[i];
    if !step.Timeout? then n
    else if Cleans(s.loop, i) then 0
    else if p.claim.pendingWhohas.Some? || p.pendingIhave || p.claim.pendingGet.Some? then n + 1
    else n
  }

  lemma TimeoutTries(l: Loop, i: nat)
    requires Bounded(l) && i < |l.peers|
    ensures i < |Tick(l).peers|
    ensures var p := l.peers[i];
            Tick(l).peers[i].retransmits
            == if Cleans(l, i) then 0
               else if p.claim.pendingWhohas.Some? || p.pendingIhave || p.claim.pendingGet.Some? then p.retransmits + 1
               else p.retransmits
  {
    TickAt(l, i);
  }

  lemma StepTries(s: State, step: Step, i: nat)
    requires Enabled(s, step) && i < |s.loop.peers|
    ensures i < |Next(s, step).loop.peers|
    ensures Next(s, step).loop.peers[i].retransmits == TriesAfter(s.loop.peers[i].retransmits, s, step, i)
  {
    if step.Timeout? {
      TimeoutTries(s.loop, i);
    }
  }

  /** The control packets sent again in a run, since the peer was last reset, if there were `n` before it. */
  ghost function Tries(n: nat, s: State, steps: seq<Step>, i: nat): nat
    decreases |steps|
  {
    if steps == [] || !Enabled(s, steps[0]) || i >= |s.loop.peers| then n
    else Tries(TriesAfter(n, s, steps[0], i), Next(s, steps[0]), steps[1..], i)
  }

  lemma {:induction false} RunTries(s: State, steps: seq<Step>, i: nat)
    requires i < |s.loop.peers| && Run(System(), s, steps).To?
    ensures var t := Run(System(), s, steps).state;
            i < |t.loop.peers| && t.loop.peers[i].retransmits == Tries(s.loop.peers[i].retransmits, s, steps, i)
    decreases |steps|
  {
    if steps != [] {
      StepTries(s, steps[0], i);
      RunTries(Next(s, steps[0]), steps[1..], i);
    }
  }

  /** The data packets of peer `i`, wanted or not. */
  predicate Heard(step: Step, i: nat) {
    step == Data(i) || step == Stray(i) || (step.Done? && step.i == i)
  }

  /** The timeouts since the last data packet from peer `i`, if there were `n` before the run. */
  function Unheard(n: nat, steps: seq<Step>, i: nat): nat
    decreases |steps|
  {
    if steps == [] then n
    else Unheard(if Heard(steps[0], i) then 0 else if steps[0].Timeout? then n + 1 else n, steps[1..], i)
  }

  lemma TimeoutUnheard(l: Loop, i: nat)
    requires Bounded(l) && i < |l.peers|
    ensures i < |Tick(l).peers| && Tick(l).peers[i].ackTimeout <= l.peers[i].ackTimeout + 1
  {
    TickAt(l, i);
  }

  lemma StepUnheard(s: State, step: Step, i: nat)
    requires Enabled(s, step) && i < |s.loop.peers|
    ensures i < |Next(s, step).loop.peers|
    ensures var n := s.loop.peers[i].ackTimeout;
            Next(s, step).loop.peers[i].ackTimeout
            <= if Heard(step, i) then 0 else if step.Timeout? then n + 1 else n
  {
    if step.Timeout? {
      TimeoutUnheard(s.loop, i);
    }
  }

  lemma {:induction false} RunUnheard(s: State, steps: seq<Step>, i: nat, n: nat)
    requires i < |s.loop.peers| && s.loop.peers[i].ackTimeout <= n && Run(System(), s, steps).To?
    ensures var t := Run(System(), s, steps).state;
            i < |t.loop.peers| && t.loop.peers[i].ackTimeout <= Unheard(n, steps, i)
    decreases |steps|
  {
    if steps != [] {
      StepUnheard(s, steps[0], i);
      var m := if Heard(steps[0], i) then 0 else if steps[0].Timeout? then n + 1 else n;
      RunUnheard(Next(s, steps[0]), steps[1..], i, m);
    }
  }

  /**
    The next timeout gives a peer up for its control packets exactly if five were
    sent again since it was last reset, however promptly it answered them; it
    gives up on its data only after ten timeouts since the last data packet.
   */
  lemma GivenUpWhen(start: State, steps: seq<Step>, i: nat)
    requires Fresh(start) && i < |start.loop.peers| && Run(System(), start, steps).To?
    ensures var t := Run(System(), start, steps).state;
            && i < |t.loop.peers|
            && Tries(0, start, steps, i) <= MAX_RETRANSMITS
            && (RunsOut(t.loop, i) <==>
                  || (t.loop.currTo == Some(i) && t.loop.peers[i].dataRetransmits == MAX_DATA_RETRANSMIT)
                  || Tries(0, start, steps, i) == MAX_RETRANSMITS)
            && (GivesUp(t.loop, i) ==> Unheard(0, steps, i) >= MAX_DATA_RETRANSMIT)
  {
    assert Run(System(), start, []) == To(start);
    ReachableInv(start);
    assert start.loop.peers[i] == Idle();
    RunInv(start, steps);
    RunTries(start, steps, i);
    RunUnheard(start, steps, i, 0);
    var t := Run(System(), start, steps).state;
    assert InLimits(t.loop.peers[i]);
  }

  // A peer that answers is given up

  /** One peer and nothing going on, but for the control packets it has been sent again. */
  ghost function Tried(k: nat): State {
    State(Loop(Host([], 0, 0), [Idle().(retransmits := k)], None), false, {}, {}, [], {})
  }

  /** The peer asks, is sent the IHAVE again after a timeout, answers it with a GET, and takes all the data. */
  const ROUND: seq<Step> := [WhohasFrom(0), Timeout, GetFrom(0), AckFrom(0, true)]

  ghost predicate AddsOneTry(k: nat, round: seq<Step>) {
    Run(System(), Tried(k), round) == To(Tried(k + 1))
  }

  lemma RoundRun(k: nat)
    requires k < MAX_RETRANSMITS
    ensures AddsOneTry(k, ROUND)
  {
    var p := Idle().(retransmits := k, pendingIhave := true);
    var q := p.(retransmits := k + 1);
    var a := Tried(k).(loop := Tried(k).loop.(peers := [p]));
    var b := Tried(k).(loop := Tried(k).loop.(peers := [q]));
    var c := Tried(k + 1).(loop := Tried(k + 1).loop.(currTo := Some(0)), serving := true);
    assert Next(Tried(k), WhohasFrom(0)).loop.peers == [p];
    assert Next(a, Timeout) == b by {
      assert NextPeers([p]) == [q];
      assert !GivesUpData(AfterControl(p));
      HostAfterFof(Host([], 0, 0), [p]);
    }
    assert Next(b, GetFrom(0)).loop.peers == c.loop.peers;
    assert Next(c, AckFrom(0, true)).loop.peers == Tried(k + 1).loop.peers;
    RunThrough(System(), [Tried(k), a, b, c, Tried(k + 1)], ROUND);
  }

  lemma RoundsRun(round: seq<Step>)
    requires forall j :: 0 <= j < MAX_RETRANSMITS ==> AddsOneTry(j, round)
    ensures Run(System(), Tried(0), Repeated(round, MAX_RETRANSMITS)) == To(Tried(MAX_RETRANSMITS))
  {
    var states := seq(MAX_RETRANSMITS + 1, k requires 0 <= k <= MAX_RETRANSMITS => Tried(k));
    forall j | 0 <= j < MAX_RETRANSMITS ensures Run(System(), states[j], round) == To(states[j + 1]) {
      assert AddsOneTry(j, round);
    }
    RunRepeated(System(), states, round);
  }

  lemma {:induction false} RoundsAlternate(k: nat, round: seq<Step>)
    requires |round| == 4 && forall m :: 0 <= m < 4 ==> (round[m].Timeout? <==> m == 1)
    ensures var r := Repeated(round, k); |r| == 4 * k && forall m :: 0 <= m < |r| ==> (r[m].Timeout? <==> m % 4 == 1)
  {
    if k > 0 {
      RoundsAlternate(k - 1, round);
    }
  }

  /** No packet is left unanswered for two timeouts in a row. */
  predicate NeverTwice(steps: seq<Step>) {
    forall m :: 0 <= m < |steps| - 1 && steps[m].Timeout? ==> !steps[m + 1].Timeout?
  }

  /** The peer asks once more, has all its control packets answered, and has just acknowledged data. */
  ghost function Served(): State {
    var s := Tried(MAX_RETRANSMITS);
    s.(loop := s.loop.(currTo := Some(0)), serving := true)
  }

  lemma LastSteps()
    ensures Run(System(), Tried(MAX_RETRANSMITS), [GetFrom(0), AckFrom(0, false)]) == To(Served())
  {
    var s, t := Tried(MAX_RETRANSMITS), Served();
    assert Next(s, GetFrom(0)).loop.peers == t.loop.peers;
    assert Next(t, AckFrom(0, false)).loop.peers == t.loop.peers;
    RunThrough(System(), [s, t, t], [GetFrom(0), AckFrom(0, false)]);
  }

  lemma ServedRun(round: seq<Step>, last: seq<Step>) returns (steps: seq<Step>)
    requires forall j :: 0 <= j < MAX_RETRANSMITS ==> AddsOneTry(j, round)
    requires Run(System(), Tried(MAX_RETRANSMITS), last) == To(Served())
    ensures Run(System(), Tried(0), steps) == To(Served())
    ensures steps == Repeated(round, MAX_RETRANSMITS) + last
  {
    RoundsRun(round);
    RunConcat(System(), Tried(0), Repeated(round, MAX_RETRANSMITS), last);
    steps := Repeated(round, MAX_RETRANSMITS) + last;
  }

  lemma ServedGivenUp(t: State)
    requires t == Served()
    ensures Enabled(t, Timeout) && Next(t, Timeout).loop.currTo == None && !Next(t, Timeout).serving
  {
    assert DataPart(t.loop).peers[0].retransmits == MAX_RETRANSMITS;
  }

  /**
    A peer that answers everything before the next timeout is given up all the
    same, in the middle of a transfer to it that it has just acknowledged.
   */
  lemma AnsweringPeerGivenUp()
    ensures exists start, steps ::
              && Fresh(start) && NeverTwice(steps) && Run(System(), start, steps).To?
              && steps != [] && steps[|steps| - 1] == AckFrom(0, false)
              && var t := Run(System(), start, steps).state;
                 && t.loop.currTo == Some(0) && t.serving && |t.loop.peers| == 1
                 && !Pending(t.loop.peers[0]) && t.loop.peers[0].dataRetransmits == 0
                 && Enabled(t, Timeout) && Next(t, Timeout).loop.currTo == None && !Next(t, Timeout).serving
  {
    var start := Tried(0);
    forall j | 0 <= j < MAX_RETRANSMITS ensures AddsOneTry(j, ROUND) {
      RoundRun(j);
    }
    LastSteps();
    RoundsAlternate(MAX_RETRANSMITS, ROUND);
    var steps := ServedRun(ROUND, [GetFrom(0), AckFrom(0, false)]);
    assert Fresh(start);
    ServedGivenUp(Run(System(), start, steps).state);
  }
}
