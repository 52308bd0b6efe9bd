/**
  Additive increase in a loss-free run: every packet is acknowledged by itself
  and in order, so that each acknowledgement names the packet behind the last.
 */
module AdditiveIncrease {
  import opened Constants
  import opened Numbers
  import opened BufferSpec
  import opened Congestion
  import opened SenderSpec

  function Outstanding(s: Sender): int { s.lastSeq - s.lastAck }

  /**
    In avoidance the round is not over, and either the window is full or it has
    just grown; once the last packet is out, only the former matters.
   */
  ghost predicate Steady(cut: seq<Packet>, s: Sender) {
    && Serving(cut, s)
    && (!s.control.slowStart ==>
          && s.control.currRound < s.control.cwnd
          && (|| s.lastSeq == FINALACK
              || Outstanding(s) >= s.control.cwnd
              || (Outstanding(s) == s.control.cwnd - 1 && s.control.currRound == 0 && s.control.cwnd >= 2)))
  }

  function AckNext(cut: seq<Packet>, s: Sender): (r: (Sender, seq<Packet>))
    requires s.window != [] && |cut| == FINALACK
  {
    AckIn(cut, s, s.lastAck + 1)
  }

  /** 1 + 2 + ... + n. */
  function Sum(n: nat): nat {
    if n == 0 then 0 else Sum(n - 1) + n
  }

  /** Packets sent in avoidance, if its window went from 1 to `cwnd` growing after every full window. */
  function Allowance(c: Control): nat {
    Sum(if c.cwnd == 0 then 0 else c.cwnd - 1) + c.currRound
  }

  /** The last number sent once acknowledgement `a` has been dealt with. */
  function LastSent(s: Sender, a: nat): int {
    Max(s.lastSeq, Min(FINALACK, Max(s.lastAck, a) + SlowStart(s.control).cwnd))
  }

  /** The controller once acknowledgement `a` has been dealt with. */
  function ControlAfter(s: Sender, a: nat): Control {
    var c := SlowStart(s.control);
    if s.lastSeq + 1 > Max(s.lastAck, a) + c.cwnd then c
    else AddIncrease(c.(currRound := c.currRound + Max(0, LastSent(s, a) - s.lastSeq)))
  }

  function DupsAfter(s: Sender, a: nat): nat {
    if a == s.lastAck then s.dupAcks + 1 else if a < s.lastAck then s.dupAcks else 1
  }

  /** What an acknowledgement does that is neither ignored, nor final, nor the third of its kind. */
  lemma AckMeaning(cut: seq<Packet>, s: Sender, a: nat)
    requires Serving(cut, s) && a <= s.lastSeq && a < FINALACK && !TripleAck(s, a)
    ensures var (t, out) := AckIn(cut, s, a);
            && t.lastAck == Max(s.lastAck, a) && t.dupAcks == DupsAfter(s, a)
            && t.lastSeq == LastSent(s, a) && t.control == ControlAfter(s, a)
            && out == cut[s.lastSeq..t.lastSeq]
  {
    AckSends(cut, s, a);
    SendNextMeaning(cut, Advanced(cut, s, a));
  }

  /** What one acknowledgement of the next packet does, as numbers. */
  lemma NextMeaning(cut: seq<Packet>, s: Sender)
    requires Serving(cut, s) && s.lastAck + 1 < FINALACK
    ensures var r := AckNext(cut, s);
            var c := SlowStart(s.control);
            var last := Max(s.lastSeq, Min(FINALACK, s.lastAck + 1 + c.cwnd));
            && r.0.lastAck == s.lastAck + 1 && r.0.lastSeq == last && |r.1| == last - s.lastSeq
            && r.0.control == if s.lastSeq + 1 > s.lastAck + 1 + c.cwnd then c
                              else AddIncrease(c.(currRound := c.currRound + |r.1|))
  {
    AckMeaning(cut, s, s.lastAck + 1);
  }

  /** One acknowledgement: the round counter is met exactly, never jumped over. */
  lemma SteadyStep(cut: seq<Packet>, s: Sender)
    requires Steady(cut, s) && s.lastAck + 1 < FINALACK
    ensures Steady(cut, AckNext(cut, s).0) && AckNext(cut, s).0.lastAck == s.lastAck + 1
  {
    AckKeeps(cut, s, s.lastAck + 1);
    NextMeaning(cut, s);
  }

  lemma RoundStep(cut: seq<Packet>, s: Sender)
    requires Steady(cut, s) && s.lastAck + 1 < FINALACK && !s.control.slowStart
    ensures var r := AckNext(cut, s);
            && !r.0.control.slowStart
            && |r.1| == r.0.lastSeq - s.lastSeq
            && s.control.currRound + |r.1| <= s.control.cwnd <= r.0.control.cwnd
            && (s.control.cwnd < MAXWIN ==> Allowance(r.0.control) == Allowance(s.control) + |r.1|)
  {
    NextMeaning(cut, s);
  }

  /** The sender after `k` further packets have been acknowledged one by one. */
  ghost function LossFree(cut: seq<Packet>, s: Sender, k: nat): Sender
    requires Steady(cut, s) && s.lastAck + k < FINALACK
    decreases k
  {
    if k == 0 then s
    else
      SteadyStep(cut, s);
      LossFree(cut, AckNext(cut, s).0, k - 1)
  }

  /** In avoidance the window only grows, and below the limit every packet sent counts towards it. */
  ghost predicate Grown(s: Sender, t: Sender) {
    !s.control.slowStart ==>
      && !t.control.slowStart && s.control.cwnd <= t.control.cwnd
      && (t.control.cwnd < MAXWIN ==> Allowance(t.control) - Allowance(s.control) == t.lastSeq - s.lastSeq)
  }

  lemma GrownOn(s: Sender, t: Sender, u: Sender)
    requires Grown(s, t) && Grown(t, u)
    ensures Grown(s, u)
  {
  }

  lemma LossFreeStep(cut: seq<Packet>, s: Sender, k: nat) returns (next: Sender)
    requires Steady(cut, s) && 0 < k && s.lastAck + k < FINALACK
    ensures Steady(cut, next) && next.lastAck == s.lastAck + 1
    ensures LossFree(cut, s, k) == LossFree(cut, next, k - 1)
    ensures Grown(s, next)
  {
    SteadyStep(cut, s);
    next := AckNext(cut, s).0;
    if !s.control.slowStart {
      RoundStep(cut, s);
    }
  }

  /**
    Over a whole loss-free run the exact-equality test of add_increase is never
    skipped, and below the limit every packet sent in avoidance counts: the
    window has grown by one for every full window of packets.
   */
  lemma {:induction false} NeverSkipped(cut: seq<Packet>, s: Sender, k: nat)
    requires Steady(cut, s) && s.lastAck + k < FINALACK
    ensures var t := LossFree(cut, s, k);
            Steady(cut, t) && t.lastAck == s.lastAck + k && Grown(s, t)
    decreases k
  {
    if k > 0 {
      var next := LossFreeStep(cut, s, k);
      NeverSkipped(cut, next, k - 1);
      GrownOn(s, next, LossFree(cut, next, k - 1));
    }
  }

  ghost predicate JumpedOver(c: Control) {
    !c.slowStart && c.currRound > c.cwnd
  }

  /**
    With losses it is different: an acknowledgement in avoidance jumps over the
    test if and only if it is taken, is not the third of its kind, and opens more
    room than the round has left. The window then stays stuck (JumpedOverStaysStuck).
   */
  lemma CumulativeAckJumps(cut: seq<Packet>, s: Sender, ack: nat)
    requires Serving(cut, s) && !s.control.slowStart && s.control.currRound < s.control.cwnd
    ensures JumpedOver(AckIn(cut, s, ack).0.control)
            <==> && ack <= s.lastSeq && !TripleAck(s, ack)
                 && Min(FINALACK, Max(s.lastAck, ack) + s.control.cwnd) - s.lastSeq
                    > s.control.cwnd - s.control.currRound
  {
    if ack > s.lastSeq {
      assert s.window[|s.window| - 1] == cut[s.lastSeq - 1];
    } else if TripleAck(s, ack) {
      AckTriple(cut, s, ack);
    } else if ack == FINALACK {
      AckDecides(cut, s, ack);
    } else {
      AckMeaning(cut, s, ack);
    }
  }
}
