/** A run of every session that jumps over the test of add_increase, so that the window stays stuck. */
module JumpingRun {
  import opened Constants
  import opened Numbers
  import opened BufferSpec
  import opened Runs
  import opened Congestion
  import opened SenderSpec
  import opened AdditiveIncrease
  import opened Session
  import opened SessionProgress
  import opened LossFreeRuns

  lemma ReachableNext(c: Setup, s: State, step: Step) returns (t: State)
    requires Proper(c) && Reachable(c, s) && Enabled(s, step)
    ensures t == Next(CutOf(c), s, step) && Reachable(c, t)
  {
    t := Next(CutOf(c), s, step);
    RunCons(System(CutOf(c)), s, step, []);
    ReachableFrom(c, s, [step] + []);
  }

  /** Reachable and loss-free up to now, with every acknowledgement delivered. */
  ghost predicate Synced(c: Setup, s: State) {
    Proper(c) && Reachable(c, s) && Flow(CutOf(c), c.dst, c.before, s) && s.ack == s.snd.lastAck
  }

  /** The next packet and its acknowledgement, delivered. */
  lemma Round(c: Setup, s: State) returns (t: State)
    requires Synced(c, s) && s.ack + 1 < FINALACK
    ensures Synced(c, t) && t.ack == s.ack + 1
    ensures t.snd.lastSeq == RoundLast(s.snd) && t.snd.control == RoundControl(s.snd)
  {
    FlowRound(CutOf(c), c.dst, c.before, s);
    t := ReachableNext(c, s, DeliverData(CutOf(c)[s.ack]));
    t := ReachableNext(c, t, DeliverAck(s.ack + 1));
  }

  /** An acknowledgement, delivered: what that changes besides the sender. */
  lemma AckStep(c: Setup, s: State, a: nat) returns (t: State)
    requires Proper(c) && Reachable(c, s) && s.outcome.Open? && a in s.acks && a <= s.snd.lastSeq && a < FINALACK
    ensures Reachable(c, t) && Serving(CutOf(c), s.snd)
    ensures t.outcome.Open? && t.rcv == s.rcv && t.got == s.got && t.ack == s.ack && t.acks == s.acks - multiset{a}
    ensures t.snd == AckIn(CutOf(c), s.snd, a).0
    ensures t.data == s.data + multiset(AckIn(CutOf(c), s.snd, a).1)
  {
    ReachableInv(c, s);
    t := ReachableNext(c, s, DeliverAck(a));
    AckKeeps(CutOf(c), s.snd, a);
  }

  lemma AckNumbers(cut: seq<Packet>, s: Sender, a: nat, r: (Sender, seq<Packet>))
    requires Serving(cut, s) && a <= s.lastSeq && a < FINALACK && !TripleAck(s, a) && r == AckIn(cut, s, a)
    ensures r.0.lastAck == Max(s.lastAck, a) && r.0.lastSeq == LastSent(s, a) && r.1 == cut[s.lastSeq..r.0.lastSeq]
    ensures r.0.dupAcks == DupsAfter(s, a) && r.0.control == ControlAfter(s, a)
  {
    AckMeaning(cut, s, a);
  }

  /** An acknowledgement that lets the sender go on, as numbers. */
  lemma AckAdvance(c: Setup, s: State, a: nat) returns (t: State)
    requires Proper(c) && Reachable(c, s) && s.outcome.Open? && a in s.acks && a <= s.snd.lastSeq && a < FINALACK
    requires !TripleAck(s.snd, a)
    ensures Reachable(c, t)
    ensures t.outcome.Open? && t.rcv == s.rcv && t.got == s.got && t.ack == s.ack && t.acks == s.acks - multiset{a}
    ensures t.snd.lastAck == Max(s.snd.lastAck, a) && t.snd.control == ControlAfter(s.snd, a)
    ensures t.snd.dupAcks == DupsAfter(s.snd, a)
    ensures s.snd.lastSeq <= t.snd.lastSeq == LastSent(s.snd, a) <= FINALACK
    ensures t.data == s.data + multiset(CutOf(c)[s.snd.lastSeq..t.snd.lastSeq])
  {
    t := AckStep(c, s, a);
    AckNumbers(CutOf(c), s.snd, a, AckIn(CutOf(c), s.snd, a));
  }

  /** A third acknowledgement of its kind. */
  lemma AckThird(c: Setup, s: State, a: nat) returns (t: State)
    requires Proper(c) && Reachable(c, s) && s.outcome.Open? && a in s.acks && a <= s.snd.lastSeq && a < FINALACK
    requires TripleAck(s.snd, a)
    ensures Reachable(c, t)
    ensures t.outcome.Open? && t.rcv == s.rcv && t.got == s.got && t.ack == s.ack && t.acks == s.acks - multiset{a}
    ensures t.snd.lastAck == s.snd.lastAck && t.snd.lastSeq == s.snd.lastSeq
    ensures t.snd.control == MultDecrease(s.snd.control)
    ensures t.data == s.data + multiset{CutOf(c)[a]}
  {
    ReachableInv(c, s);
    AckTriple(CutOf(c), s.snd, a);
    t := AckStep(c, s, a);
  }

  lemma Duplicate(c: Setup, s: State, a: nat) returns (t: State)
    requires Proper(c) && Reachable(c, s) && a in s.acks
    ensures t == s.(acks := s.acks + multiset{a}) && Reachable(c, t)
  {
    t := ReachableNext(c, s, DuplicateAck(a));
  }

  lemma Started(c: Setup) returns (s: State)
    requires Proper(c)
    ensures Synced(c, s) && s.ack == 0
    ensures s.snd.lastSeq == 1 && s.snd.dupAcks == 0
    ensures s.snd.control == Control(true, 1, MAXWIN, 1)
  {
    StartFlow(c);
    s := Start(c);
    assert Run(System(CutOf(c)), s, []) == To(s);
  }

  lemma OneInFlight(cut: seq<Packet>, s: State)
    requires InFlightIn(cut, s) && s.ack == 1 && s.snd.lastAck == 0 && s.snd.lastSeq == 1
    ensures s.data == multiset{} && s.acks == multiset{1} && s.got == {1}
  {
  }

  /** The first packet has arrived. */
  lemma FirstArrived(c: Setup) returns (s: State)
    requires Proper(c)
    ensures Reachable(c, s) && s.outcome.Open? && Fetching(s) && s.ack == 1 && s.acks == multiset{1}
    ensures s.snd.lastAck == 0 && s.snd.lastSeq == 1 && s.snd.dupAcks == 0
    ensures s.snd.control == Control(true, 1, MAXWIN, 1)
    ensures s.data == multiset{} && s.got == {1}
  {
    s := Started(c);
    FlowData(CutOf(c), c.dst, c.before, s);
    s := ReachableNext(c, s, DeliverData(CutOf(c)[0]));
    OneInFlight(CutOf(c), s);
  }

  lemma Join(cut: seq<Packet>, lo: nat, mid: nat, hi: nat)
    requires lo <= mid <= hi <= |cut|
    ensures multiset(cut[lo..mid]) + multiset(cut[mid..hi]) == multiset(cut[lo..hi])
  {
    assert cut[lo..hi] == cut[lo..mid] + cut[mid..hi];
  }

  /** Its acknowledgement is copied, and one of the copies delivered. */
  lemma OneAck(c: Setup) returns (s: State)
    requires Proper(c)
    ensures Reachable(c, s) && s.outcome.Open? && Fetching(s) && s.ack == 1 && s.acks == multiset{1}
    ensures s.snd.lastAck == 1 && s.snd.lastSeq == 3 && s.snd.dupAcks == 1
    ensures s.snd.control == Control(true, 2, MAXWIN, 3)
    ensures s.data == multiset(CutOf(c)[1..3]) && s.got == {1}
  {
    s := FirstArrived(c);
    s := Duplicate(c, s, 1);
    s := AckAdvance(c, s, 1);
  }

  /** And once more: packets 2 to 4 are out. */
  lemma TwoAcks(c: Setup) returns (s: State)
    requires Proper(c)
    ensures Reachable(c, s) && s.outcome.Open? && Fetching(s) && s.ack == 1 && s.acks == multiset{1}
    ensures s.snd.lastAck == 1 && s.snd.lastSeq == 4 && s.snd.dupAcks == 2
    ensures s.snd.control == Control(true, 3, MAXWIN, 4)
    ensures s.data == multiset(CutOf(c)[1..4]) && s.got == {1}
  {
    s := OneAck(c);
    s := Duplicate(c, s, 1);
    s := AckAdvance(c, s, 1);
    Join(CutOf(c), 1, 3, 4);
  }

  lemma SyncedAgain(c: Setup, s: State)
    requires Proper(c) && Reachable(c, s) && s.outcome.Open? && Fetching(s)
    requires s.ack == s.snd.lastAck == 1 && s.acks == multiset{} && s.got == {1} && s.snd.lastSeq == 4
    requires s.data == multiset(CutOf(c)[1..4])
    ensures Synced(c, s)
  {
    ReachableInv(c, s);
  }

  /** The third copy closes the window; the packet it has resent is lost. */
  lemma TripleLoss(c: Setup) returns (s: State)
    requires Proper(c)
    ensures Synced(c, s) && s.ack == 1 && s.snd.lastSeq == 4 && s.snd.control == Control(true, 1, 2, 0)
  {
    s := TwoAcks(c);
    s := AckThird(c, s, 1);
    s := ReachableNext(c, s, DropData(CutOf(c)[1]));
    SyncedAgain(c, s);
  }

  /** In order up to acknowledgement 3: the controller is in avoidance. */
  lemma InAvoidance(c: Setup) returns (s: State)
    requires Proper(c)
    ensures Synced(c, s) && s.ack == 3 && s.snd.lastSeq == 4 && s.snd.control == Control(false, 1, 1, 0)
  {
    s := TripleLoss(c);
    s := Round(c, s);
    assert s.snd.lastSeq == 4 && s.snd.control == Control(false, 1, 1, 0);
    s := Round(c, s);
  }

  /** In order up to acknowledgement 4: the window has grown to 2. */
  lemma WindowOfTwo(c: Setup) returns (s: State)
    requires Proper(c)
    ensures Synced(c, s) && s.ack == 4 && s.snd.lastSeq == 5 && s.snd.control == Control(false, 2, 1, 0)
  {
    s := InAvoidance(c);
    s := Round(c, s);
  }

  /** In order up to acknowledgement 5: the window has grown to 3. */
  lemma WindowOfThree(c: Setup) returns (s: State)
    requires Proper(c)
    ensures Synced(c, s) && s.ack == 5 && s.snd.lastSeq == 7 && s.snd.control == Control(false, 3, 1, 0)
  {
    s := WindowOfTwo(c);
    s := Round(c, s);
  }

  /** In order up to acknowledgement 6: the round has one packet left. */
  lemma RoundNearlyOver(c: Setup) returns (s: State)
    requires Proper(c)
    ensures Synced(c, s) && s.ack == 6 && s.snd.lastSeq == 9 && s.snd.control == Control(false, 3, 1, 2)
  {
    s := WindowOfThree(c);
    s := Round(c, s);
  }

  lemma DeliverNext(c: Setup, s: State) returns (t: State)
    requires Proper(c) && Reachable(c, s) && Flow(CutOf(c), c.dst, c.before, s) && s.ack < s.snd.lastSeq
    ensures Reachable(c, t) && Flow(CutOf(c), c.dst, c.before, t) && t.snd == s.snd && t.ack == s.ack + 1
    ensures t.snd.lastAck < t.ack ==> t.ack in t.acks
  {
    FlowData(CutOf(c), c.dst, c.before, s);
    t := ReachableNext(c, s, DeliverData(CutOf(c)[s.ack]));
  }

  /**
    In every session the test can be jumped over: packets 7 and 8 arrive, and
    acknowledgement 8 overtakes acknowledgement 7.
   */
  lemma TestJumpedOver(c: Setup) returns (s: State)
    requires Proper(c)
    ensures Reachable(c, s) && s.outcome.Open? && Fetching(s) && JumpedOver(s.snd.control)
  {
    s := RoundNearlyOver(c);
    s := DeliverNext(c, s);
    s := DeliverNext(c, s);
    s := AckAdvance(c, s, 8);
  }
}
