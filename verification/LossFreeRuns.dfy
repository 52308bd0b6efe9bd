/** Sessions without losses: every packet is delivered once and in order, and so is every acknowledgement. */
module LossFreeRuns {
  import opened Constants
  import opened BufferSpec
  import opened Runs
  import opened Congestion
  import opened Chunk
  import opened SenderSpec
  import opened AdditiveIncrease
  import opened Session

  /** The next packet to arrive is the first missing one, the next acknowledgement the one behind the last. */
  predicate InOrderStep(cut: seq<Packet>, s: State, step: Step)
    requires |cut| == FINALACK
  {
    || (s.ack < FINALACK && step == DeliverData(cut[s.ack]))
    || step == DeliverAck(s.snd.lastAck + 1)
  }

  ghost predicate InOrder(cut: seq<Packet>, s: State, steps: seq<Step>)
    requires |cut| == FINALACK
    decreases |steps|
  {
    steps != [] && Enabled(s, steps[0]) ==>
      InOrderStep(cut, s, steps[0]) && InOrder(cut, Next(cut, s, steps[0]), steps[1..])
  }

  /** Nothing is lost, repeated or out of turn: what is in flight is what has not arrived yet. */
  ghost predicate InFlight(cut: seq<Packet>, data: multiset<Packet>, acks: multiset<nat>, got: set<nat>,
                           lastAck: nat, ack: nat, lastSeq: nat)
    requires |cut| == FINALACK && ack <= lastSeq <= FINALACK
  {
    && data == multiset(cut[ack..lastSeq])
    && (forall a: nat :: acks[a] == if lastAck < a <= ack then 1 else 0)
    && (forall n: nat :: n in got <==> 1 <= n <= ack)
  }

  ghost predicate InFlightIn(cut: seq<Packet>, s: State) {
    && |cut| == FINALACK && s.snd.lastAck <= s.ack <= s.snd.lastSeq <= FINALACK
    && InFlight(cut, s.data, s.acks, s.got, s.snd.lastAck, s.ack, s.snd.lastSeq)
  }

  ghost predicate Flow(cut: seq<Packet>, dst: nat, before: seq<uint8>, s: State) {
    && Inv(cut, dst, before, s) && s.outcome.Open?
    && (s.ack < FINALACK ==> Fetching(s))
    && InFlightIn(cut, s)
  }

  lemma InFlightData(cut: seq<Packet>, data: multiset<Packet>, acks: multiset<nat>, got: set<nat>,
                     lastAck: nat, ack: nat, lastSeq: nat)
    requires |cut| == FINALACK && lastAck <= ack < lastSeq <= FINALACK
    requires InFlight(cut, data, acks, got, lastAck, ack, lastSeq)
    ensures InFlight(cut, data - multiset{cut[ack]}, acks + multiset{ack + 1}, got + {ack + 1},
                     lastAck, ack + 1, lastSeq)
  {
    assert cut[ack..lastSeq] == [cut[ack]] + cut[ack + 1..lastSeq];
  }

  lemma InFlightAck(cut: seq<Packet>, data: multiset<Packet>, acks: multiset<nat>, got: set<nat>,
                    lastAck: nat, ack: nat, lastSeq: nat, last: nat)
    requires |cut| == FINALACK && lastAck < ack <= lastSeq <= last <= FINALACK
    requires InFlight(cut, data, acks, got, lastAck, ack, lastSeq)
    ensures InFlight(cut, data + multiset(cut[lastSeq..last]), acks - multiset{lastAck + 1}, got,
                     lastAck + 1, ack, last)
  {
    assert cut[ack..last] == cut[ack..lastSeq] + cut[lastSeq..last];
  }

  lemma ArrivalInOrder(dst: nat, window: seq<Packet>, got: set<nat>, ack: nat, lastSeq: nat, p: Packet)
    requires dst < PSEUDO_INF && WindowOk(dst, dst, window, got, ack, lastSeq)
    requires p.num == ack + 1 && forall n: nat :: n in got <==> 1 <= n <= ack
    ensures Receive(window, p)[0].num == ack + 1
  {
    if ack == 0 {
      assert got == {};
    } else {
      assert 1 in got;
    }
    ArrivalKeeps(window, got, p);
    var w := Receive(window, p);
    assert w[0].num in got + {p.num} && w[0].num + 1 !in got + {p.num};
  }

  lemma MissingInFlight(cut: seq<Packet>, s: State)
    requires IsCut(cut) && InFlightIn(cut, s) && s.ack < s.snd.lastSeq
    ensures Enabled(s, DeliverData(cut[s.ack]))
  {
    assert cut[s.ack..s.snd.lastSeq][0] == cut[s.ack];
  }

  lemma DeliverEffect(cut: seq<Packet>, s: State, p: Packet)
    requires |cut| == FINALACK && Fetching(s) && Enabled(s, DeliverData(p))
    ensures var t := Next(cut, s, DeliverData(p)); var k := Receive(s.rcv.window, p)[0].num;
            && t.data == s.data - multiset{p} && t.acks == s.acks + multiset{k} && t.got == s.got + {p.num}
            && t.ack == k && t.snd == s.snd && t.outcome == s.outcome && (k < FINALACK ==> Fetching(t))
  {
  }

  lemma DeliverInFlight(cut: seq<Packet>, s: State, t: State)
    requires IsCut(cut) && InFlightIn(cut, s) && s.ack < s.snd.lastSeq
    requires t.data == s.data - multiset{cut[s.ack]} && t.acks == s.acks + multiset{s.ack + 1}
    requires t.got == s.got + {s.ack + 1} && t.ack == s.ack + 1 && t.snd == s.snd
    ensures InFlightIn(cut, t)
  {
    InFlightData(cut, s.data, s.acks, s.got, s.snd.lastAck, s.ack, s.snd.lastSeq);
  }

  lemma DeliverKeepsInFlight(cut: seq<Packet>, s: State)
    requires IsCut(cut) && InFlightIn(cut, s) && Fetching(s) && s.ack < s.snd.lastSeq
    requires Receive(s.rcv.window, cut[s.ack])[0].num == s.ack + 1
    ensures Enabled(s, DeliverData(cut[s.ack]))
    ensures var t := Next(cut, s, DeliverData(cut[s.ack]));
            && InFlightIn(cut, t) && t.snd == s.snd && t.ack == s.ack + 1 && t.outcome == s.outcome
            && (t.ack < FINALACK ==> Fetching(t))
  {
    MissingInFlight(cut, s);
    DeliverEffect(cut, s, cut[s.ack]);
    DeliverInFlight(cut, s, Next(cut, s, DeliverData(cut[s.ack])));
  }

  lemma InvArrival(cut: seq<Packet>, dst: nat, before: seq<uint8>, s: State)
    requires Inv(cut, dst, before, s) && Fetching(s) && InFlightIn(cut, s) && s.ack < s.snd.lastSeq
    ensures Receive(s.rcv.window, cut[s.ack])[0].num == s.ack + 1
  {
    ArrivalInOrder(dst, s.rcv.window, s.got, s.ack, s.snd.lastSeq, cut[s.ack]);
  }

  /** The first missing packet, delivered, is acknowledged as such. */
  lemma FlowData(cut: seq<Packet>, dst: nat, before: seq<uint8>, s: State)
    requires Flow(cut, dst, before, s) && s.ack < s.snd.lastSeq
    ensures Enabled(s, DeliverData(cut[s.ack]))
    ensures var t := Next(cut, s, DeliverData(cut[s.ack]));
            Flow(cut, dst, before, t) && t.snd == s.snd && t.ack == s.ack + 1
  {
    InvArrival(cut, dst, before, s);
    DeliverKeepsInFlight(cut, s);
    StepInv(cut, dst, before, s, DeliverData(cut[s.ack]));
  }

  lemma AckInFlight(cut: seq<Packet>, s: State)
    requires Serving(cut, s.snd) && InFlightIn(cut, s) && s.snd.lastAck < s.ack && s.snd.lastAck + 1 < FINALACK
    ensures Enabled(s, DeliverAck(s.snd.lastAck + 1))
    ensures var t := Next(cut, s, DeliverAck(s.snd.lastAck + 1));
            && InFlightIn(cut, t) && t.ack == s.ack && t.outcome == s.outcome && t.rcv == s.rcv
            && t.snd == AckNext(cut, s.snd).0 && t.snd.lastAck == s.snd.lastAck + 1
  {
    var a := s.snd.lastAck + 1;
    AckAdvances(cut, s.snd, a);
    InFlightAck(cut, s.data, s.acks, s.got, s.snd.lastAck, s.ack, s.snd.lastSeq, AckNext(cut, s.snd).0.lastSeq);
  }

  /** The acknowledgement of the next packet, delivered, lets the sender go on. */
  lemma FlowAck(cut: seq<Packet>, dst: nat, before: seq<uint8>, s: State)
    requires Flow(cut, dst, before, s) && s.snd.lastAck < s.ack && s.snd.lastAck + 1 < FINALACK
    ensures Enabled(s, DeliverAck(s.snd.lastAck + 1))
    ensures var t := Next(cut, s, DeliverAck(s.snd.lastAck + 1));
            && Flow(cut, dst, before, t) && t.ack == s.ack
            && t.snd == AckNext(cut, s.snd).0 && t.snd.lastAck == s.snd.lastAck + 1
  {
    AckInFlight(cut, s);
    StepInv(cut, dst, before, s, DeliverAck(s.snd.lastAck + 1));
  }

  /** The final acknowledgement ends the session. */
  lemma FlowLast(cut: seq<Packet>, dst: nat, before: seq<uint8>, s: State)
    requires Flow(cut, dst, before, s) && s.snd.lastAck < s.ack && s.snd.lastAck + 1 == FINALACK
    ensures Enabled(s, DeliverAck(FINALACK))
    ensures var t := Next(cut, s, DeliverAck(FINALACK)); t.outcome.Finished? && t.ack == FINALACK && Idle(t.snd)
  {
    AckKeeps(cut, s.snd, FINALACK);
  }

  /** In order means: while a packet is out that has not arrived, or an acknowledgement. */
  lemma InOrderEnabled(cut: seq<Packet>, s: State, step: Step)
    requires IsCut(cut) && InFlightIn(cut, s) && Enabled(s, step) && InOrderStep(cut, s, step)
    ensures step.DeliverData? ==> s.ack < s.snd.lastSeq
    ensures step.DeliverAck? ==> s.snd.lastAck < s.ack
  {
    if step.DeliverData? {
      assert s.ack == s.snd.lastSeq ==> s.data == multiset{};
    } else {
      assert s.acks[step.a] > 0;
    }
  }

  /** One delivery of a loss-free run. */
  lemma FlowStep(cut: seq<Packet>, dst: nat, before: seq<uint8>, s: State, step: Step)
    requires Flow(cut, dst, before, s) && Steady(cut, s.snd) && Enabled(s, step) && InOrderStep(cut, s, step)
    ensures s.ack <= FINALACK && s.snd.lastAck < FINALACK
    ensures var t := Next(cut, s, step);
            if step.DeliverData? then Flow(cut, dst, before, t) && t.snd == s.snd && t.ack == s.ack + 1
            else if s.snd.lastAck + 1 == FINALACK then
              s.ack == FINALACK && t.outcome.Finished? && t.ack == FINALACK && Idle(t.snd)
            else
              && Flow(cut, dst, before, t) && t.ack == s.ack && Steady(cut, t.snd)
              && t.snd == AckNext(cut, s.snd).0 && t.snd.lastAck == s.snd.lastAck + 1
  {
    InOrderEnabled(cut, s, step);
    if step.DeliverData? {
      FlowData(cut, dst, before, s);
    } else if s.snd.lastAck + 1 == FINALACK {
      FlowLast(cut, dst, before, s);
    } else {
      FlowAck(cut, dst, before, s);
      SteadyStep(cut, s.snd);
    }
  }

  lemma StartFlow(c: Setup)
    requires Proper(c)
    ensures Flow(CutOf(c), c.dst, c.before, Start(c)) && Steady(CutOf(c), Start(c).snd)
    ensures Start(c).snd.lastAck == 0 && Start(c).ack == 0
    ensures Start(c).snd.lastSeq == 1 && Start(c).snd.dupAcks == 0
    ensures Start(c).snd.control == Control(true, 1, MAXWIN, 1)
  {
    var cut := CutOf(c);
    StartInv(c);
    GetStarts(cut, c.idle, c.src);
    assert cut[0..1] == [cut[0]];
  }

  /** Where a loss-free run from `s` leads: it has finished, or its sender is the one of LossFree. */
  ghost predicate Followed(cut: seq<Packet>, s: Sender, ack: nat, t: State, steps: nat)
    requires Steady(cut, s) && ack <= FINALACK
  {
    if t.outcome.Finished? then t.ack == FINALACK && steps == (FINALACK - ack) + (FINALACK - s.lastAck)
    else
      && t.outcome.Open? && Steady(cut, t.snd)
      && s.lastAck <= t.snd.lastAck < FINALACK
      && steps == (t.ack - ack) + (t.snd.lastAck - s.lastAck)
      && t.snd == LossFree(cut, s, t.snd.lastAck - s.lastAck)
  }

  lemma FollowedAck(cut: seq<Packet>, s: Sender, ack: nat, t: State, steps: nat)
    requires Steady(cut, s) && s.lastAck + 1 < FINALACK && ack <= FINALACK
    requires Steady(cut, AckNext(cut, s).0) && AckNext(cut, s).0.lastAck == s.lastAck + 1
    requires Followed(cut, AckNext(cut, s).0, ack, t, steps)
    ensures Followed(cut, s, ack, t, steps + 1)
  {
    if !t.outcome.Finished? {
      var k := t.snd.lastAck - s.lastAck;
      assert LossFree(cut, s, k) == LossFree(cut, AckNext(cut, s).0, k - 1);
    }
  }

  /**
    In every run of the session in which packets and acknowledgements are
    delivered once and in order, interleaved in any way, the sender is steady
    until it has finished.
   */
  lemma {:induction false} LossFreeRun(cut: seq<Packet>, dst: nat, before: seq<uint8>, s: State, steps: seq<Step>)
    requires Flow(cut, dst, before, s) && Steady(cut, s.snd) && s.ack <= FINALACK
    requires InOrder(cut, s, steps) && Run(System(cut), s, steps).To?
    ensures Followed(cut, s.snd, s.ack, Run(System(cut), s, steps).state, |steps|)
    decreases |steps|
  {
    if steps != [] {
      var t := Next(cut, s, steps[0]);
      FlowStep(cut, dst, before, s, steps[0]);
      if t.outcome.Finished? {
        FinishedIsLast(cut, t, steps[1..]);
      } else {
        LossFreeRun(cut, dst, before, t, steps[1..]);
        if steps[0].DeliverAck? {
          FollowedAck(cut, s.snd, s.ack, Run(System(cut), t, steps[1..]).state, |steps| - 1);
        }
      }
    }
  }

  lemma FinishedIsLast(cut: seq<Packet>, s: State, steps: seq<Step>)
    requires |cut| == FINALACK && s.ack == FINALACK && Idle(s.snd)
    requires InOrder(cut, s, steps) && Run(System(cut), s, steps).To?
    ensures steps == []
  {
  }

  lemma FollowedNeverJumps(cut: seq<Packet>, s: Sender, ack: nat, t: State, steps: nat)
    requires Steady(cut, s) && ack <= FINALACK && Followed(cut, s, ack, t, steps)
    ensures !t.outcome.GivenUp? && (t.outcome.Open? ==> !JumpedOver(t.snd.control))
    ensures t.outcome.Finished? ==> steps == (FINALACK - ack) + (FINALACK - s.lastAck)
  {
  }

  lemma LossFreeFrom(cut: seq<Packet>, dst: nat, before: seq<uint8>, s: State, steps: seq<Step>)
    requires Flow(cut, dst, before, s) && Steady(cut, s.snd) && s.ack == 0 && s.snd.lastAck == 0
    requires InOrder(cut, s, steps) && Run(System(cut), s, steps).To?
    ensures var t := Run(System(cut), s, steps).state;
            && !t.outcome.GivenUp?
            && (t.outcome.Open? ==> !JumpedOver(t.snd.control))
            && (t.outcome.Finished? ==> |steps| == 2 * FINALACK)
  {
    LossFreeRun(cut, dst, before, s, steps);
    FollowedNeverJumps(cut, s.snd, 0, Run(System(cut), s, steps).state, |steps|);
  }

  /** A loss-free session: from its start on the test of add_increase is met exactly and never jumped over. */
  lemma LossFreeSession(c: Setup, steps: seq<Step>)
    requires Proper(c) && InOrder(CutOf(c), Start(c), steps) && Run(System(CutOf(c)), Start(c), steps).To?
    ensures var t := Run(System(CutOf(c)), Start(c), steps).state;
            && !t.outcome.GivenUp?
            && (t.outcome.Open? ==> !JumpedOver(t.snd.control))
            && (t.outcome.Finished? ==> |steps| == 2 * FINALACK)
  {
    StartFlow(c);
    LossFreeFrom(CutOf(c), c.dst, c.before, Start(c), steps);
  }

  lemma {:induction false} FlowKept(cut: seq<Packet>, dst: nat, before: seq<uint8>, s: State, steps: seq<Step>)
    requires Flow(cut, dst, before, s) && Steady(cut, s.snd)
    requires InOrder(cut, s, steps) && Run(System(cut), s, steps).To?
    ensures var t := Run(System(cut), s, steps).state;
            t.outcome.Open? ==> Flow(cut, dst, before, t) && Steady(cut, t.snd)
    decreases |steps|
  {
    if steps != [] {
      var t := Next(cut, s, steps[0]);
      FlowStep(cut, dst, before, s, steps[0]);
      if t.outcome.Finished? {
        FinishedIsLast(cut, t, steps[1..]);
      } else {
        FlowKept(cut, dst, before, t, steps[1..]);
      }
    }
  }

  lemma FollowedGrows(cut: seq<Packet>, s: Sender, ack: nat, t: State, steps: nat)
    requires Steady(cut, s) && ack <= FINALACK && Followed(cut, s, ack, t, steps) && t.outcome.Open?
    ensures Grown(s, t.snd)
  {
    NeverSkipped(cut, s, t.snd.lastAck - s.lastAck);
  }

  lemma GrowthBetween(cut: seq<Packet>, dst: nat, before: seq<uint8>, s: State, u: seq<Step>, v: seq<Step>)
    requires Flow(cut, dst, before, s) && Steady(cut, s.snd)
    requires InOrder(cut, s, u) && Run(System(cut), s, u).To?
    requires var t := Run(System(cut), s, u).state;
             t.outcome.Open? && InOrder(cut, t, v) && Run(System(cut), t, v).To?
    ensures var t := Run(System(cut), s, u).state; var w := Run(System(cut), t, v).state;
            w.outcome.Open? ==> Grown(t.snd, w.snd)
  {
    FlowKept(cut, dst, before, s, u);
    var t := Run(System(cut), s, u).state;
    LossFreeRun(cut, dst, before, t, v);
    var w := Run(System(cut), t, v).state;
    if w.outcome.Open? {
      FollowedGrows(cut, t.snd, t.ack, w, |v|);
    }
  }

  /**
    Between any two moments of a loss-free session, once it is in avoidance, the
    window never shrinks, and below the limit it grows by one for every full
    window of packets sent.
   */
  lemma LossFreeGrowth(c: Setup, u: seq<Step>, v: seq<Step>)
    requires Proper(c) && InOrder(CutOf(c), Start(c), u) && Run(System(CutOf(c)), Start(c), u).To?
    requires var s := Run(System(CutOf(c)), Start(c), u).state;
             s.outcome.Open? && InOrder(CutOf(c), s, v) && Run(System(CutOf(c)), s, v).To?
    ensures var s := Run(System(CutOf(c)), Start(c), u).state;
            var t := Run(System(CutOf(c)), s, v).state;
            t.outcome.Open? ==> Grown(s.snd, t.snd)
  {
    StartFlow(c);
    GrowthBetween(CutOf(c), c.dst, c.before, Start(c), u, v);
  }

  /** There is such a run to the end of the session, from any point of one. */
  lemma {:induction false} LossFreeEnd(cut: seq<Packet>, dst: nat, before: seq<uint8>, s: State)
    returns (steps: seq<Step>)
    requires Flow(cut, dst, before, s)
    ensures InOrder(cut, s, steps) && Run(System(cut), s, steps).To?
    ensures Run(System(cut), s, steps).state.outcome.Finished?
    decreases (FINALACK - s.ack) + (FINALACK - s.snd.lastAck)
  {
    var step := if s.snd.lastAck < s.ack then DeliverAck(s.snd.lastAck + 1) else DeliverData(cut[s.ack]);
    var rest: seq<Step>;
    if s.ack == s.snd.lastAck {
      FlowData(cut, dst, before, s);
      rest := LossFreeEnd(cut, dst, before, Next(cut, s, step));
    } else if s.snd.lastAck + 1 == FINALACK {
      FlowLast(cut, dst, before, s);
      rest := [];
    } else {
      FlowAck(cut, dst, before, s);
      rest := LossFreeEnd(cut, dst, before, Next(cut, s, step));
    }
    RunCons(System(cut), s, step, rest);
    steps := [step] + rest;
    assert steps[1..] == rest;
  }

  /** Without losses every session ends well, after one delivery of each packet and each acknowledgement. */
  lemma LossFreeFinishes(c: Setup) returns (steps: seq<Step>)
    requires Proper(c)
    ensures InOrder(CutOf(c), Start(c), steps) && |steps| == 2 * FINALACK
    ensures var r := Run(System(CutOf(c)), Start(c), steps);
            r.To? && r.state.outcome.Finished? && r.state.ack == FINALACK
  {
    StartFlow(c);
    steps := LossFreeEnd(CutOf(c), c.dst, c.before, Start(c));
    LossFreeRun(CutOf(c), c.dst, c.before, Start(c), steps);
  }

  /** The last number sent once the next packet has been acknowledged, and the controller. */
  function RoundLast(s: Sender): int {
    LastSent(s, s.lastAck + 1)
  }

  function RoundControl(s: Sender): Control {
    ControlAfter(s, s.lastAck + 1)
  }

  lemma RoundNumbers(cut: seq<Packet>, s: Sender, t: Sender)
    requires Serving(cut, s) && s.lastAck + 1 < FINALACK && t == AckNext(cut, s).0
    ensures t.lastSeq == RoundLast(s) && t.control == RoundControl(s)
  {
    AckMeaning(cut, s, s.lastAck + 1);
  }

  lemma FlowAckNumbers(cut: seq<Packet>, dst: nat, before: seq<uint8>, s: State)
    requires Flow(cut, dst, before, s) && s.snd.lastAck < s.ack && s.snd.lastAck + 1 < FINALACK
    ensures Enabled(s, DeliverAck(s.snd.lastAck + 1))
    ensures var t := Next(cut, s, DeliverAck(s.snd.lastAck + 1));
            && Flow(cut, dst, before, t) && t.ack == s.ack && t.snd.lastAck == s.snd.lastAck + 1
            && t.snd.lastSeq == RoundLast(s.snd) && t.snd.control == RoundControl(s.snd)
  {
    FlowAck(cut, dst, before, s);
    RoundNumbers(cut, s.snd, Next(cut, s, DeliverAck(s.snd.lastAck + 1)).snd);
  }

  /** One round: the next packet and its acknowledgement. */
  lemma FlowRound(cut: seq<Packet>, dst: nat, before: seq<uint8>, s: State)
    requires Flow(cut, dst, before, s) && s.ack == s.snd.lastAck && s.ack + 1 < FINALACK
    ensures Enabled(s, DeliverData(cut[s.ack]))
    ensures var t := Next(cut, s, DeliverData(cut[s.ack]));
            && Enabled(t, DeliverAck(s.ack + 1))
            && var u := Next(cut, t, DeliverAck(s.ack + 1));
               && Flow(cut, dst, before, u) && u.ack == u.snd.lastAck == s.ack + 1
               && u.snd.lastSeq == RoundLast(s.snd) && u.snd.control == RoundControl(s.snd)
  {
    FlowData(cut, dst, before, s);
    FlowAckNumbers(cut, dst, before, Next(cut, s, DeliverData(cut[s.ack])));
  }
}
