/** What a run of a session means for the receiver's pending GET and for its patience. */
module ReceiverRuns {
  import opened Constants
  import opened BufferSpec
  import opened ReceiverSpec
  import opened Runs
  import opened Session

  // The pending GET

  /**
    While the chunk is fetched, the GET is pending exactly as long as nothing has
    been taken in; after that nothing is pending, and no silence is counted.
   */
  ghost predicate GetPart(s: State) {
    if Fetching(s) then s.rcv.pendingGet <==> s.got == {} else !s.rcv.pendingGet && s.rcv.timeouts == 0
  }

  lemma StepGet(cut: seq<Packet>, s: State, step: Step)
    requires |cut| == FINALACK && Enabled(s, step) && GetPart(s)
    ensures GetPart(Next(cut, s, step))
  {
    if step.DeliverData? && Fetching(s) {
      assert step.p.num in Next(cut, s, step).got;
    }
  }

  lemma {:induction false} RunGet(cut: seq<Packet>, s: State, steps: seq<Step>)
    requires |cut| == FINALACK && GetPart(s) && Run(System(cut), s, steps).To?
    ensures GetPart(Run(System(cut), s, steps).state)
    decreases |steps|
  {
    if steps != [] {
      StepGet(cut, s, steps[0]);
      RunGet(cut, Next(cut, s, steps[0]), steps[1..]);
    }
  }

  /** In every session the GET is pending until the first data packet is taken in or the fetch given up, no longer. */
  lemma GetPending(c: Setup, s: State)
    requires Proper(c) && Reachable(c, s)
    ensures s.rcv.pendingGet <==> Fetching(s) && s.got == {}
    ensures !Fetching(s) ==> s.rcv.timeouts == 0
  {
    var steps :| Run(System(CutOf(c)), Start(c), steps) == To(s);
    RunGet(CutOf(c), Start(c), steps);
  }

  // Patience

  /** Any data packet ends the counting of silence, even one that is not wanted; that one changes nothing else. */
  lemma DataHeard(r: Receiver, p: Packet)
    requires p.num >= 1
    ensures var (q, reply) := DataIn(r, p);
            && q.timeouts == 0
            && (r.hashId == PSEUDO_INF ==> q == r.(timeouts := 0) && reply == NoAck)
            && (r.hashId != PSEUDO_INF ==> !q.pendingGet && reply.Ack?)
  {
  }

  /** The silent timeouts of the receiver since the last delivery, if there were `n` before the run. */
  function Silent(steps: seq<Step>, n: nat): nat
    decreases |steps|
  {
    if steps == [] then n
    else Silent(steps[1..], SilentAfter(steps[0], n))
  }

  function SilentAfter(step: Step, n: nat): nat {
    if step.DeliverData? then 0 else if step.ReceiverTimeout? then n + 1 else n
  }

  /** At some point of the run more than MAX_DATA_RETRANSMIT of them have followed each other. */
  predicate TooSilent(steps: seq<Step>, n: nat)
    decreases |steps|
  {
    steps != [] && (SilentAfter(steps[0], n) > MAX_DATA_RETRANSMIT || TooSilent(steps[1..], SilentAfter(steps[0], n)))
  }

  /** What is not fetched any more is never fetched again. */
  lemma {:induction false} NotFetching(cut: seq<Packet>, s: State, steps: seq<Step>)
    requires |cut| == FINALACK && !Fetching(s) && Run(System(cut), s, steps).To?
    ensures var t := Run(System(cut), s, steps).state; !Fetching(t) && t.ack == s.ack
    decreases |steps|
  {
    if steps != [] {
      NotFetching(cut, Next(cut, s, steps[0]), steps[1..]);
    }
  }

  /** One step of a receiver that still fetches. */
  lemma FetchingStep(cut: seq<Packet>, s: State, step: Step)
    requires |cut| == FINALACK && Enabled(s, step)
    requires Fetching(s) && s.ack != FINALACK && s.rcv.timeouts <= MAX_DATA_RETRANSMIT
    ensures var t := Next(cut, s, step);
            && (Fetching(t) ==> t.rcv.timeouts == SilentAfter(step, s.rcv.timeouts) <= MAX_DATA_RETRANSMIT)
            && (!Fetching(t) <==> t.ack == FINALACK || SilentAfter(step, s.rcv.timeouts) > MAX_DATA_RETRANSMIT)
            && (t.ack == FINALACK ==> SilentAfter(step, s.rcv.timeouts) <= MAX_DATA_RETRANSMIT)
  {
  }

  /**
    The counter of a receiver that fetches is the number of silent timeouts since
    the last delivery, and the fetch is over exactly if the chunk is complete or
    the eleventh of them in a row has come.
   */
  lemma {:induction false} PatienceKept(cut: seq<Packet>, s: State, steps: seq<Step>)
    requires |cut| == FINALACK && Run(System(cut), s, steps).To?
    requires Fetching(s) && s.ack != FINALACK && s.rcv.timeouts <= MAX_DATA_RETRANSMIT
    ensures var t := Run(System(cut), s, steps).state;
            && (Fetching(t) ==> t.rcv.timeouts == Silent(steps, s.rcv.timeouts) <= MAX_DATA_RETRANSMIT)
            && (!Fetching(t) <==> t.ack == FINALACK || TooSilent(steps, s.rcv.timeouts))
    decreases |steps|
  {
    if steps != [] {
      var t := Next(cut, s, steps[0]);
      FetchingStep(cut, s, steps[0]);
      if Fetching(t) {
        PatienceKept(cut, t, steps[1..]);
      } else {
        NotFetching(cut, t, steps[1..]);
      }
    }
  }

  /** So it is in every session, counted from its start. */
  lemma Patience(c: Setup, steps: seq<Step>)
    requires Proper(c) && Run(System(CutOf(c)), Start(c), steps).To?
    ensures var t := Run(System(CutOf(c)), Start(c), steps).state;
            && (Fetching(t) ==> t.rcv.timeouts == Silent(steps, 0))
            && (!Fetching(t) <==> t.ack == FINALACK || TooSilent(steps, 0))
  {
    PatienceKept(CutOf(c), Start(c), steps);
  }
}
