/** What every run of a session keeps, and what some schedule always achieves. */
module SessionProgress {
  import opened Constants
  import opened Numbers
  import opened BufferSpec
  import opened Congestion
  import opened Runs
  import opened Chunk
  import opened SenderSpec
  import opened ReceiverWindow
  import opened Session

  /** How sender, channels and receiver stand to each other in every reachable state. */
  lemma Ordering(c: Setup, s: State)
    requires Proper(c) && Reachable(c, s)
    ensures s.snd.lastAck <= s.ack <= s.snd.lastSeq <= FINALACK
    ensures forall a :: a in s.acks ==> 1 <= a <= s.ack
    ensures forall p :: p in s.data ==> 1 <= p.num <= s.snd.lastSeq && p == PacketOf(c.master, c.src, p.num)
    ensures 1 !in s.got ==> s.rcv.window == [] && s.acks == multiset{} && forall p :: p in s.data ==> p.num == 1
    ensures s.rcv.window != [] ==> Keeps(s.rcv.window, s.got, 1) && s.ack == s.rcv.window[0].num
  {
    ReachableInv(c, s);
    assert s.rcv.window != [] ==> 1 in s.got;
  }

  lemma BufferHolds(c: Setup, s: Sender, i: nat)
    requires Proper(c) && Serving(CutOf(c), s) && i < |s.window|
    ensures s.window[i] == PacketOf(c.master, c.src, s.lastAck + 1 + i)
  {
  }

  /**
    The send buffer is non-empty exactly while the session is open, so only then
    may ack_handler read its tail; it holds `lastAck + 1 .. lastSeq`, never more
    than MAXWIN packets, whatever the congestion window has shrunk to.
   */
  lemma SendBuffer(c: Setup, s: State)
    requires Proper(c) && Reachable(c, s)
    ensures s.outcome.Open? <==> s.snd.window != []
    ensures s.outcome.Open? ==>
              && s.snd.lastSeq <= FINALACK
              && |s.snd.window| == s.snd.lastSeq - s.snd.lastAck <= MAXWIN
              && forall i :: 0 <= i < |s.snd.window| ==>
                               s.snd.window[i] == PacketOf(c.master, c.src, s.snd.lastAck + 1 + i)
  {
    ReachableInv(c, s);
    if s.outcome.Open? {
      forall i | 0 <= i < |s.snd.window|
        ensures s.snd.window[i] == PacketOf(c.master, c.src, s.snd.lastAck + 1 + i)
      {
        BufferHolds(c, s.snd, i);
      }
    }
  }

  /** The congestion window when the sender sends in a step. */
  function WindowThen(s: State, step: Step): nat {
    if step.DeliverAck? then SendingWindow(s.snd, step.a) else s.snd.control.cwnd
  }

  /**
    Whatever the sender sends in a step lies in the window of that moment, and a
    retransmission, be it for a triple ack or a timeout, is the packet right
    behind the last acknowledged one.
   */
  lemma WindowBound(c: Setup, s: State, step: Step, p: Packet)
    requires Proper(c) && Reachable(c, s) && Enabled(s, step)
    requires p in SenderMove(CutOf(c), s, step).1
    ensures var t := Next(CutOf(c), s, step).snd;
            && t.lastAck < p.num <= t.lastAck + WindowThen(s, step) <= t.lastAck + t.control.cwnd
            && (p.num <= s.snd.lastSeq ==> p.num == s.snd.lastAck + 1)
  {
    ReachableInv(c, s);
    match step {
      case DeliverAck(a) => AckSendsInWindow(CutOf(c), s.snd, a, p);
      case SenderTimeout => TimeoutKeeps(CutOf(c), s.snd);
    }
  }

  /**
    A third acknowledgement of its kind halves the window in every session: slow
    start begins again at 1 with half the old window as its threshold, and ends
    with exactly the call that reaches it. The packet behind the last
    acknowledged one is sent again, and nothing else.
   */
  lemma LossHalves(c: Setup, s: State, a: nat, calls: nat)
    requires Proper(c) && Reachable(c, s) && s.outcome.Open? && Enabled(s, DeliverAck(a)) && TripleAck(s.snd, a)
    ensures s.snd.lastAck < FINALACK
    ensures var t := Next(CutOf(c), s, DeliverAck(a));
            var half := Max(2, s.snd.control.cwnd / 2);
            && t.snd.control == Control(true, 1, half, 0)
            && ApplyAll(t.snd.control, seq(calls, _ => Slow))
               == (if calls < half - 1 then Control(true, 1 + calls, half, 0) else Control(false, 1, half / 2, 0))
            && t.data == s.data + multiset{PacketOf(c.master, c.src, s.snd.lastAck + 1)}
  {
    ReachableInv(c, s);
    AckTriple(CutOf(c), s.snd, a);
    SlowStartLength(MultDecrease(s.snd.control), calls);
  }

  // Progress

  ghost predicate Underway(cut: seq<Packet>, dst: nat, before: seq<uint8>, s: State) {
    Inv(cut, dst, before, s) && s.outcome.Open? && Fetching(s)
  }

  ghost function Distance(s: State): int {
    (FINALACK - s.ack) + (FINALACK - s.snd.lastAck)
  }

  /** The receiver's side is complete and its last word to the sender is in flight. */
  ghost predicate Answered(cut: seq<Packet>, dst: nat, before: seq<uint8>, s: State) {
    Inv(cut, dst, before, s) && s.outcome.Open? && s.ack == FINALACK && FINALACK in s.acks
  }

  /** A timeout puts the packet behind the last acknowledged one in flight. */
  lemma TimeoutSends(cut: seq<Packet>, dst: nat, before: seq<uint8>, s: State)
    requires Underway(cut, dst, before, s) && s.snd.retransmits < MAX_DATA_RETRANSMIT
    ensures var t := Next(cut, s, SenderTimeout);
            && Underway(cut, dst, before, t) && cut[s.snd.lastAck] in t.data
            && t.ack == s.ack && t.snd.lastAck == s.snd.lastAck
  {
    StepInv(cut, dst, before, s, SenderTimeout);
    TimeoutKeeps(cut, s.snd);
  }

  /** An arrival that the sender still waits to have acknowledged is acknowledged. */
  lemma AnswerBeyond(dst: nat, window: seq<Packet>, got: set<nat>, ack: nat, lastSeq: nat, p: Packet, lastAck: nat)
    requires dst < PSEUDO_INF && WindowOk(dst, dst, window, got, ack, lastSeq)
    requires 1 <= p.num <= lastSeq <= FINALACK && (ack == 0 ==> p.num == 1)
    requires p.num == lastAck + 1 && lastAck <= ack
    ensures lastAck < Receive(window, p)[0].num
  {
    Arrival(dst, window, got, ack, lastSeq, p);
    ArrivalKeeps(window, got, p);
  }

  /** Its delivery draws an acknowledgement beyond the last one the sender has seen. */
  lemma DeliveryAnswers(cut: seq<Packet>, dst: nat, before: seq<uint8>, s: State)
    requires Underway(cut, dst, before, s) && cut[s.snd.lastAck] in s.data
    ensures var t := Next(cut, s, DeliverData(cut[s.snd.lastAck]));
            && s.ack <= t.ack && s.snd.lastAck < t.ack && t.ack in t.acks && t.snd == s.snd
            && if t.ack == FINALACK then Answered(cut, dst, before, t) else Underway(cut, dst, before, t)
  {
    var p := cut[s.snd.lastAck];
    StepInv(cut, dst, before, s, DeliverData(p));
    DeliverResult(cut, dst, before, s, p);
    AnswerBeyond(dst, s.rcv.window, s.got, s.ack, s.snd.lastSeq, p, s.snd.lastAck);
  }

  lemma DeliverResult(cut: seq<Packet>, dst: nat, before: seq<uint8>, s: State, p: Packet)
    requires Underway(cut, dst, before, s) && p in s.data
    ensures var t := Next(cut, s, DeliverData(p));
            && t.ack == Receive(s.rcv.window, p)[0].num && s.ack <= t.ack && t.ack in t.acks
            && t.snd == s.snd && t.outcome == s.outcome && (t.ack != FINALACK ==> Fetching(t))
  {
    Arrival(dst, s.rcv.window, s.got, s.ack, s.snd.lastSeq, p);
  }

  lemma AckDelivered(cut: seq<Packet>, dst: nat, before: seq<uint8>, s: State)
    requires Underway(cut, dst, before, s) && s.ack in s.acks && s.snd.lastAck < s.ack
    ensures var t := Next(cut, s, DeliverAck(s.ack));
            && Underway(cut, dst, before, t) && t.snd.lastAck == s.ack == t.ack && t.snd.retransmits == 0
  {
    StepInv(cut, dst, before, s, DeliverAck(s.ack));
    AckKeeps(cut, s.snd, s.ack);
  }

  /**
    Progress: while the retransmission limit is not reached, rounds of timeout,
    delivery and acknowledgement bring the receiver to completion; every round
    lowers the distance.
   */
  lemma {:induction false} Complete(cut: seq<Packet>, dst: nat, before: seq<uint8>, s: State) returns (steps: seq<Step>)
    requires Underway(cut, dst, before, s) && s.snd.retransmits < MAX_DATA_RETRANSMIT
    ensures Run(System(cut), s, steps).To?
    ensures Answered(cut, dst, before, Run(System(cut), s, steps).state)
    decreases Distance(s)
  {
    var next := System(cut);
    var p := cut[s.snd.lastAck];
    TimeoutSends(cut, dst, before, s);
    var s1 := Next(cut, s, SenderTimeout);
    DeliveryAnswers(cut, dst, before, s1);
    var s2 := Next(cut, s1, DeliverData(p));
    if s2.ack == FINALACK {
      steps := [];
    } else {
      AckDelivered(cut, dst, before, s2);
      steps := Complete(cut, dst, before, Next(cut, s2, DeliverAck(s2.ack)));
      RunCons(next, s2, DeliverAck(s2.ack), steps);
      steps := [DeliverAck(s2.ack)] + steps;
    }
    RunCons(next, s1, DeliverData(p), steps);
    RunCons(next, s, SenderTimeout, [DeliverData(p)] + steps);
    steps := [SenderTimeout] + ([DeliverData(p)] + steps);
  }

  /** The final acknowledgement, delivered, ends the session on the sender's side too. */
  lemma FinalAckFinishes(cut: seq<Packet>, dst: nat, before: seq<uint8>, s: State)
    requires Answered(cut, dst, before, s)
    ensures Enabled(s, DeliverAck(FINALACK))
    ensures var t := Next(cut, s, DeliverAck(FINALACK));
            t.outcome.Finished? && t.acks == s.acks - multiset{FINALACK} && Idle(t.snd) && t.ack == FINALACK
  {
    AckKeeps(cut, s.snd, FINALACK);
  }

  /** From every reachable open state below the limit some schedule completes both sides. */
  lemma CanFinish(c: Setup, s: State) returns (steps: seq<Step>)
    requires Proper(c) && Reachable(c, s) && s.outcome.Open? && Fetching(s)
    requires s.snd.retransmits < MAX_DATA_RETRANSMIT
    ensures var r := Run(System(CutOf(c)), s, steps);
            && r.To? && r.state.outcome.Finished? && r.state.ack == FINALACK
            && Reachable(c, r.state)
  {
    var next := System(CutOf(c));
    ReachableInv(c, s);
    var u := Complete(CutOf(c), c.dst, c.before, s);
    FinalAckFinishes(CutOf(c), c.dst, c.before, Run(next, s, u).state);
    RunConcat(next, s, u, [DeliverAck(FINALACK)]);
    steps := u + [DeliverAck(FINALACK)];
    ReachableFrom(c, s, steps);
  }

  lemma ReachableFrom(c: Setup, s: State, steps: seq<Step>)
    requires Proper(c) && Reachable(c, s) && Run(System(CutOf(c)), s, steps).To?
    ensures Reachable(c, Run(System(CutOf(c)), s, steps).state)
  {
    var u :| Run(System(CutOf(c)), Start(c), u) == To(s);
    RunConcat(System(CutOf(c)), Start(c), u, steps);
  }

  lemma ReachableByRun(c: Setup, steps: seq<Step>) returns (s: State)
    requires Proper(c) && Run(System(CutOf(c)), Start(c), steps).To?
    ensures s == Run(System(CutOf(c)), Start(c), steps).state && Reachable(c, s)
  {
    s := Run(System(CutOf(c)), Start(c), steps).state;
  }

  // The final acknowledgement is sent once

  /** The receiver is done, or has given up, and no final acknowledgement is on its way to an unfinished sender. */
  ghost predicate Unanswerable(cut: seq<Packet>, dst: nat, before: seq<uint8>, s: State) {
    Inv(cut, dst, before, s) && !Fetching(s) && FINALACK !in s.acks && !s.outcome.Finished?
  }

  lemma UnanswerableStep(cut: seq<Packet>, dst: nat, before: seq<uint8>, s: State, step: Step)
    requires Unanswerable(cut, dst, before, s) && Enabled(s, step)
    ensures Unanswerable(cut, dst, before, Next(cut, s, step))
  {
    StepInv(cut, dst, before, s, step);
    if s.outcome.Open? && step.DeliverAck? {
      AckKeeps(cut, s.snd, step.a);
    }
  }

  /** A lost final acknowledgement is never repeated: the sender can then only give up. */
  lemma {:induction false} LostFinalAck(cut: seq<Packet>, dst: nat, before: seq<uint8>, s: State, steps: seq<Step>)
    requires Unanswerable(cut, dst, before, s) && Run(System(cut), s, steps).To?
    ensures Unanswerable(cut, dst, before, Run(System(cut), s, steps).state)
    decreases |steps|
  {
    if steps != [] {
      UnanswerableStep(cut, dst, before, s, steps[0]);
      LostFinalAck(cut, dst, before, Next(cut, s, steps[0]), steps[1..]);
    }
  }

  ghost predicate CanEndWell(cut: seq<Packet>, s: State)
    requires |cut| == FINALACK
  {
    exists steps :: EndsWell(Run(System(cut), s, steps))
  }

  ghost predicate EndsWell(r: Maybe<State>) {
    r.To? && r.state.outcome.Finished?
  }

  /**
    Once the receiver has everything, or has given up, the sender can still finish
    if and only if a final acknowledgement is in flight.
   */
  lemma FinishIffAckInFlight(c: Setup, s: State)
    requires Proper(c) && Reachable(c, s) && s.outcome.Open? && !Fetching(s)
    ensures FINALACK in s.acks <==> CanEndWell(CutOf(c), s)
  {
    ReachableInv(c, s);
    FinishWithAck(CutOf(c), c.dst, c.before, s);
  }

  lemma FinishWithAck(cut: seq<Packet>, dst: nat, before: seq<uint8>, s: State)
    requires Inv(cut, dst, before, s) && s.outcome.Open? && !Fetching(s)
    ensures FINALACK in s.acks <==> CanEndWell(cut, s)
  {
    if FINALACK in s.acks {
      FinalAckFinishes(cut, dst, before, s);
      RunCons(System(cut), s, DeliverAck(FINALACK), []);
      assert EndsWell(Run(System(cut), s, [DeliverAck(FINALACK)] + []));
    } else if CanEndWell(cut, s) {
      var steps :| EndsWell(Run(System(cut), s, steps));
      LostFinalAck(cut, dst, before, s, steps);
    }
  }

  /** Below the retransmission limit, an open session can end well exactly while the receiver fetches or has said so. */
  lemma FinishIff(c: Setup, s: State)
    requires Proper(c) && Reachable(c, s) && s.outcome.Open? && s.snd.retransmits < MAX_DATA_RETRANSMIT
    ensures CanEndWell(CutOf(c), s) <==> Fetching(s) || FINALACK in s.acks
  {
    if Fetching(s) {
      var steps := CanFinish(c, s);
      assert EndsWell(Run(System(CutOf(c)), s, steps));
    } else {
      FinishIffAckInFlight(c, s);
    }
  }

  /** Dropping every copy of the final acknowledgement. */
  lemma {:induction false} DropFinalAcks(cut: seq<Packet>, dst: nat, before: seq<uint8>, s: State)
    returns (steps: seq<Step>)
    requires Inv(cut, dst, before, s) && s.outcome.Open? && s.ack == FINALACK
    ensures Run(System(cut), s, steps).To?
    ensures Unanswerable(cut, dst, before, Run(System(cut), s, steps).state)
    ensures var t := Run(System(cut), s, steps).state; t.outcome.Open? && t.ack == FINALACK
    decreases s.acks[FINALACK]
  {
    if FINALACK in s.acks {
      var t := Next(cut, s, DropAck(FINALACK));
      StepInv(cut, dst, before, s, DropAck(FINALACK));
      steps := DropFinalAcks(cut, dst, before, t);
      RunCons(System(cut), s, DropAck(FINALACK), steps);
      steps := [DropAck(FINALACK)] + steps;
    } else {
      steps := [];
    }
  }

  lemma LosingRun(cut: seq<Packet>, dst: nat, before: seq<uint8>, s: State) returns (steps: seq<Step>)
    requires Underway(cut, dst, before, s) && s.snd.retransmits < MAX_DATA_RETRANSMIT
    ensures Run(System(cut), s, steps).To?
    ensures Unanswerable(cut, dst, before, Run(System(cut), s, steps).state)
    ensures var t := Run(System(cut), s, steps).state; t.outcome.Open? && t.ack == FINALACK
  {
    var u := Complete(cut, dst, before, s);
    var v := DropFinalAcks(cut, dst, before, Run(System(cut), s, u).state);
    RunConcat(System(cut), s, u, v);
    steps := u + v;
  }

  /** In every session losses can lead to a complete receiver and an open sender that can no longer finish. */
  lemma FinalAckCanBeLost(c: Setup) returns (s: State)
    requires Proper(c)
    ensures Reachable(c, s) && s.outcome.Open? && s.ack == FINALACK && !CanEndWell(CutOf(c), s)
  {
    StartUnderway(c);
    var steps := LosingRun(CutOf(c), c.dst, c.before, Start(c));
    s := ReachableByRun(c, steps);
    FinishWithAck(CutOf(c), c.dst, c.before, s);
  }

  /** One way for a duplicate of the final acknowledgement to outlive the session. */
  lemma StrayFrom(cut: seq<Packet>, dst: nat, before: seq<uint8>, s: State) returns (steps: seq<Step>)
    requires Answered(cut, dst, before, s)
    ensures Run(System(cut), s, steps).To?
    ensures var t := Run(System(cut), s, steps).state; FINALACK in t.acks && t.snd.window == []
  {
    var s1 := Next(cut, s, DuplicateAck(FINALACK));
    StepInv(cut, dst, before, s, DuplicateAck(FINALACK));
    FinalAckFinishes(cut, dst, before, s1);
    RunCons(System(cut), s1, DeliverAck(FINALACK), []);
    RunCons(System(cut), s, DuplicateAck(FINALACK), [DeliverAck(FINALACK)] + []);
    steps := [DuplicateAck(FINALACK)] + ([DeliverAck(FINALACK)] + []);
  }

  lemma StrayRun(cut: seq<Packet>, dst: nat, before: seq<uint8>, s: State) returns (steps: seq<Step>)
    requires Underway(cut, dst, before, s) && s.snd.retransmits < MAX_DATA_RETRANSMIT
    ensures Run(System(cut), s, steps).To?
    ensures var t := Run(System(cut), s, steps).state; FINALACK in t.acks && t.snd.window == []
  {
    var u := Complete(cut, dst, before, s);
    var v := StrayFrom(cut, dst, before, Run(System(cut), s, u).state);
    RunConcat(System(cut), s, u, v);
    steps := u + v;
  }

  /**
    In every session a duplicate of the final acknowledgement can outlive the
    sender's cleanup: ack_handler would then read the tail of an empty buffer.
   */
  lemma StrayFinalAck(c: Setup) returns (s: State)
    requires Proper(c)
    ensures Reachable(c, s) && FINALACK in s.acks && s.snd.window == [] && !Enabled(s, DeliverAck(FINALACK))
  {
    StartUnderway(c);
    var steps := StrayRun(CutOf(c), c.dst, c.before, Start(c));
    s := ReachableByRun(c, steps);
  }

  lemma StartUnderway(c: Setup)
    requires Proper(c)
    ensures Underway(CutOf(c), c.dst, c.before, Start(c)) && Start(c).snd.retransmits == 0
  {
    StartInv(c);
    GetStarts(CutOf(c), c.idle, c.src);
  }
}
