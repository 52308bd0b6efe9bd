/** The congestion controller of congestion_avoidance.c and the envelope it never leaves. */
module Congestion {
  import opened Constants
  import opened Numbers

  /** The value of a congestion_state_t; `slowStart` is ca_state == IN_SS. */
  datatype Control = Control(slowStart: bool, cwnd: nat, ssthresh: nat, currRound: nat)

  const INITIAL := Control(true, 1, MAXWIN, 0)

  function SlowStart(c: Control): Control {
    if !c.slowStart then c
    else if Min(c.cwnd + 1, c.ssthresh) == c.ssthresh then Control(false, 1, c.ssthresh / 2, 0)
    else c.(cwnd := Min(c.cwnd + 1, c.ssthresh))
  }

  function MultDecrease(c: Control): Control {
    Control(true, 1, Min(Max(2, c.cwnd / 2), MAXWIN), 0)
  }

  function AddIncrease(c: Control): Control {
    if c.slowStart || c.currRound != c.cwnd then c
    else if c.cwnd == MAXWIN then c.(currRound := 0)
    else c.(currRound := 0, cwnd := c.cwnd + 1)
  }

  /** The controller object: every method leaves the value its function names. */
  class CongestionState {
    var slowStart: bool
    var cwnd: nat
    var ssthresh: nat
    var currRound: nat

    ghost function Value(): Control
      reads this
    {
      Control(slowStart, cwnd, ssthresh, currRound)
    }

    constructor ()
      ensures Value() == INITIAL
    {
      slowStart, cwnd, ssthresh, currRound := true, 1, MAXWIN, 0;
    }

    method Init()
      modifies this
      ensures Value() == INITIAL
    {
      slowStart := true;
      cwnd := 1;
      ssthresh := MAXWIN;
      currRound := 0;
    }

    method SlowStartStep()
      modifies this
      ensures Value() == SlowStart(old(Value()))
    {
      if !slowStart {
        return;
      }
      var w := cwnd;
      cwnd := Min(w + 1, ssthresh);
      if cwnd == ssthresh {
        slowStart := false;
        cwnd := 1;
        ssthresh := ssthresh / 2;
        currRound := 0;
      }
    }

    method MultDecreaseStep()
      modifies this
      ensures Value() == MultDecrease(old(Value()))
    {
      slowStart := true;
      ssthresh := Max(2, cwnd / 2);
      ssthresh := Min(ssthresh, MAXWIN);
      currRound := 0;
      cwnd := 1;
    }

    method AddIncreaseStep()
      modifies this
      ensures Value() == AddIncrease(old(Value()))
    {
      if slowStart || currRound != cwnd {
        return;
      }
      if cwnd == MAXWIN {
        currRound := 0;
        return;
      }
      currRound := 0;
      cwnd := cwnd + 1;
    }
  }

  // What holds of the controller

  /** The envelope: slow start stays strictly below its threshold, avoidance within the window limit. */
  predicate Envelope(c: Control) {
    if c.slowStart then 1 <= c.cwnd < c.ssthresh <= MAXWIN
    else 1 <= c.cwnd <= MAXWIN && 1 <= c.ssthresh <= MAXWIN / 2
  }

  /** One update of the controller; `Sent(n)` is the count send_next_data adds to curr_round. */
  datatype Update = Slow | Decrease | Increase | Sent(n: nat)

  function Apply(c: Control, u: Update): Control {
    match u
    case Slow => SlowStart(c)
    case Decrease => MultDecrease(c)
    case Increase => AddIncrease(c)
    case Sent(n) => c.(currRound := c.currRound + n)
  }

  function ApplyAll(c: Control, us: seq<Update>): Control
    decreases |us|
  {
    if us == [] then c else ApplyAll(Apply(c, us[0]), us[1..])
  }

  /** Any interleaving of the updates stays in the envelope. */
  lemma {:induction false} EnvelopeKept(c: Control, us: seq<Update>)
    requires Envelope(c)
    ensures Envelope(ApplyAll(c, us))
    decreases |us|
  {
    if us != [] {
      EnvelopeKept(Apply(c, us[0]), us[1..]);
    }
  }

  /**
    From a window of 1, slow start grows by one a call and enters avoidance with
    exactly the (ssthresh - 1)-st call; the window is then 1 again and the
    threshold halved.
   */
  lemma {:induction false} SlowStartLength(c: Control, calls: nat)
    requires c.slowStart && c.cwnd == 1 && 2 <= c.ssthresh
    ensures var r := ApplyAll(c, seq(calls, _ => Slow));
            if calls < c.ssthresh - 1 then r == c.(cwnd := 1 + calls)
            else r == Control(false, 1, c.ssthresh / 2, 0)
  {
    SlowStartFrom(c, calls);
  }

  lemma {:induction false} SlowStartFrom(c: Control, calls: nat)
    requires c.slowStart && 1 <= c.cwnd < c.ssthresh
    ensures var r := ApplyAll(c, seq(calls, _ => Slow));
            if calls < c.ssthresh - c.cwnd then r == c.(cwnd := c.cwnd + calls)
            else r == Control(false, 1, c.ssthresh / 2, 0)
    decreases calls
  {
    var us := seq(calls, _ => Slow);
    if calls > 0 {
      assert us[1..] == seq(calls - 1, _ => Slow);
      if c.cwnd + 1 < c.ssthresh {
        SlowStartFrom(SlowStart(c), calls - 1);
      } else {
        AvoidanceIgnoresSlowStart(SlowStart(c), calls - 1);
      }
    }
  }

  lemma {:induction false} AvoidanceIgnoresSlowStart(c: Control, calls: nat)
    requires !c.slowStart
    ensures ApplyAll(c, seq(calls, _ => Slow)) == c
    decreases calls
  {
    if calls > 0 {
      assert seq(calls, _ => Slow)[1..] == seq(calls - 1, _ => Slow);
      AvoidanceIgnoresSlowStart(c, calls - 1);
    }
  }

  /**
    After a loss at window `w` slow start begins again at 1, and avoidance is
    entered with exactly the (max(2, w / 2) - 1)-st call, not earlier: the
    threshold was half the window that was lost.
   */
  lemma HalvedByLoss(c: Control, calls: nat)
    requires Envelope(c)
    ensures var r := ApplyAll(c, [Decrease] + seq(calls, _ => Slow));
            var half := Max(2, c.cwnd / 2);
            if calls < half - 1 then r == Control(true, 1 + calls, half, 0)
            else r == Control(false, 1, half / 2, 0)
  {
    var us := seq(calls, _ => Slow);
    assert ([Decrease] + us)[1..] == us;
    SlowStartLength(Apply(c, Decrease), calls);
  }

  /**
    The exact-equality test can be jumped over: once curr_round has passed cwnd
    in avoidance, no run without a multiplicative decrease ever widens the
    window again.
   */
  lemma {:induction false} JumpedOverStaysStuck(c: Control, us: seq<Update>)
    requires !c.slowStart && c.currRound > c.cwnd
    requires Decrease !in us
    ensures var r := ApplyAll(c, us);
            !r.slowStart && r.cwnd == c.cwnd && r.currRound >= c.currRound
    decreases |us|
  {
    if us != [] {
      assert us[0] in us;
      JumpedOverStaysStuck(Apply(c, us[0]), us[1..]);
    }
  }
}
