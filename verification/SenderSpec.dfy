/**
  What get_handler, ack_handler, send_next_data and the data timeout do to the
  sending side of a peer, as functions on its state. `cut` is the requested
  chunk cut into its packets.
 */
module SenderSpec {
  import opened Constants
  import opened Numbers
  import opened BufferSpec
  import opened Congestion
  import opened Chunk

  /**
    The sending side: `serving` is his_request != NULL, `currTo` is
    curr_to != NULL, `hashId` is send_hash_id, `retransmits` is
    num_data_retransmits and `window` the send buffer.
   */
  datatype Sender = Sender(
    serving: bool,
    currTo: bool,
    hashId: nat,
    lastAck: nat,
    dupAcks: nat,
    lastSeq: nat,
    retransmits: nat,
    control: Control,
    window: seq<Packet>)

  /** One turn of send_next_data's loop: a packet enters the buffer and is counted. */
  function WithPacket(s: Sender, p: Packet): Sender {
    s.(lastSeq := p.num, window := s.window + [p], control := s.control.(currRound := s.control.currRound + 1))
  }

  /** The loop of send_next_data from number `n` on, with its three exits: the state it leaves, the packets it sends. */
  function Fill(cut: seq<Packet>, s: Sender, n: nat): (r: (Sender, seq<Packet>))
    requires |cut| == FINALACK && 1 <= n
    decreases s.lastAck + s.control.cwnd + 1 - n
  {
    if n > FINALACK || n > s.lastAck + s.control.cwnd || |s.window| == s.control.cwnd then (s, [])
    else
      var (t, out) := Fill(cut, WithPacket(s, cut[n - 1]), n + 1);
      (t, [cut[n - 1]] + out)
  }

  /** send_next_data: the new state and the packets that leave, in order. */
  function SendNext(cut: seq<Packet>, s: Sender, seqnum: nat): (r: (Sender, seq<Packet>))
    requires |cut| == FINALACK && 1 <= seqnum
  {
    if seqnum > s.lastAck + s.control.cwnd then (s, [])
    else
      var (t, out) := Fill(cut, s, seqnum);
      (t.(control := AddIncrease(t.control)), out)
  }

  /** get_handler for chunk `id`; the flag says that the request is denied. */
  function GetIn(cut: seq<Packet>, s: Sender, id: nat): (r: (Sender, seq<Packet>, bool))
    requires |cut| == FINALACK
  {
    if s.serving then (s.(currTo := true), [], true)
    else
      var (t, out) := SendNext(cut, s.(currTo := true, serving := true, hashId := id, control := INITIAL), 1);
      (t, out, false)
  }

  /** post_send_cleanup together with the clearing of curr_to before it. */
  function Finished(s: Sender): Sender {
    s.(lastAck := 0, dupAcks := 0, serving := false, currTo := false, hashId := PSEUDO_INF, window := [])
  }

  /** The bookkeeping of ack_handler before it decides what to send. */
  function Register(s: Sender, ack: nat): Sender {
    if s.lastAck == ack then s.(dupAcks := s.dupAcks + 1, window := DropUpto(s.window, s.lastAck))
    else if s.lastAck > ack then s.(window := DropUpto(s.window, s.lastAck))
    else s.(lastAck := ack, dupAcks := 1, window := DropUpto(s.window, ack))
  }

  /** What ack_handler decides after the bookkeeping; it reads the head of the buffer to retransmit. */
  function Decide(cut: seq<Packet>, s: Sender): (r: (Sender, seq<Packet>))
    requires |cut| == FINALACK
  {
    if s.lastSeq == FINALACK && s.lastAck == FINALACK then (Finished(s), [])
    else if s.dupAcks == 3 then
      (s.(dupAcks := 1, control := MultDecrease(s.control)), s.window[..Min(1, |s.window|)])
    else SendNext(cut, s.(control := SlowStart(s.control)), s.lastSeq + 1)
  }

  /** ack_handler; it reads the tail of the send buffer first. */
  function AckIn(cut: seq<Packet>, s: Sender, ack: nat): (r: (Sender, seq<Packet>))
    requires s.window != [] && |cut| == FINALACK
  {
    if ack > s.window[|s.window| - 1].num || !s.serving then (s.(retransmits := 0), [])
    else Decide(cut, Register(s.(retransmits := 0), ack))
  }

  /** The data branch of a timeout in peer_run: give up at the limit, else resend the head. */
  function TimeoutIn(s: Sender): (r: (Sender, seq<Packet>)) {
    if !s.currTo then (s, [])
    else if s.retransmits == MAX_DATA_RETRANSMIT then (Finished(s).(retransmits := 0), [])
    else (s.(retransmits := s.retransmits + 1), s.window[..Min(1, |s.window|)])
  }

  // The sender window invariant

  /** Between handlers, while a request is served: the window is non-empty and holds `lastAck + 1 .. lastSeq`. */
  ghost predicate Serving(cut: seq<Packet>, s: Sender) {
    && s.serving && s.currTo
    && IsCut(cut)
    && s.lastAck < s.lastSeq <= FINALACK
    && s.lastSeq <= s.lastAck + MAXWIN
    && s.window == cut[s.lastAck..s.lastSeq]
    && s.dupAcks < 3
    && s.retransmits <= MAX_DATA_RETRANSMIT
    && Envelope(s.control)
  }

  ghost predicate Idle(s: Sender) {
    && !s.serving && !s.currTo && s.hashId == PSEUDO_INF
    && s.window == [] && s.lastAck == 0 && s.dupAcks == 0 && s.retransmits == 0
  }

  lemma {:induction false} DropFromCut(cut: seq<Packet>, lo: nat, hi: nat, ack: nat)
    requires IsCut(cut) && lo <= ack <= hi <= FINALACK
    ensures DropUpto(cut[lo..hi], ack) == cut[ack..hi]
    decreases ack - lo
  {
    if lo < ack {
      assert cut[lo..hi][1..] == cut[lo + 1..hi];
      DropFromCut(cut, lo + 1, hi, ack);
    }
  }

  /** The state and the output of the loop when it runs up to packet `last`. */
  function FilledTo(cut: seq<Packet>, s: Sender, last: nat): (r: (Sender, seq<Packet>))
    requires |cut| == FINALACK && s.lastAck <= s.lastSeq <= last <= FINALACK
  {
    (s.(lastSeq := last, window := cut[s.lastAck..last],
        control := s.control.(currRound := s.control.currRound + (last - s.lastSeq))),
     cut[s.lastSeq..last])
  }

  lemma FilledToNext(cut: seq<Packet>, s: Sender, last: nat)
    requires IsCut(cut) && s.lastAck <= s.lastSeq < last <= FINALACK && s.window == cut[s.lastAck..s.lastSeq]
    ensures var t := WithPacket(s, cut[s.lastSeq]);
            && t.lastSeq == s.lastSeq + 1 && t.window == cut[t.lastAck..t.lastSeq]
            && FilledTo(cut, s, last).0 == FilledTo(cut, t, last).0
            && FilledTo(cut, s, last).1 == [cut[s.lastSeq]] + FilledTo(cut, t, last).1
  {
  }

  /**
    While the window holds exactly `lastAck + 1 .. lastSeq` the loop runs until
    the congestion window or the chunk is used up: its exit on a full buffer is
    never taken.
   */
  lemma {:induction false} BreakNeverTaken(cut: seq<Packet>, s: Sender)
    requires IsCut(cut) && s.lastAck <= s.lastSeq <= FINALACK && s.window == cut[s.lastAck..s.lastSeq]
    ensures Fill(cut, s, s.lastSeq + 1)
            == FilledTo(cut, s, Max(s.lastSeq, Min(FINALACK, s.lastAck + s.control.cwnd)))
    decreases FINALACK - s.lastSeq
  {
    var last := Max(s.lastSeq, Min(FINALACK, s.lastAck + s.control.cwnd));
    if s.lastSeq < last {
      FilledToNext(cut, s, last);
      BreakNeverTaken(cut, WithPacket(s, cut[s.lastSeq]));
    } else {
      assert cut[s.lastSeq..last] == [] && s.control.(currRound := s.control.currRound + 0) == s.control;
    }
  }

  /** What send_next_data does when the window holds exactly `lastAck + 1 .. lastSeq`. */
  lemma SendNextMeaning(cut: seq<Packet>, s: Sender)
    requires IsCut(cut) && s.lastAck <= s.lastSeq <= FINALACK && s.window == cut[s.lastAck..s.lastSeq]
    ensures var r := SendNext(cut, s, s.lastSeq + 1);
            var last := Max(s.lastSeq, Min(FINALACK, s.lastAck + s.control.cwnd));
            && r.1 == cut[s.lastSeq..last]
            && r.0 == s.(lastSeq := last,
                         window := cut[s.lastAck..last],
                         control := if s.lastSeq + 1 > s.lastAck + s.control.cwnd then s.control
                                    else AddIncrease(s.control.(currRound := s.control.currRound + (last - s.lastSeq))))
  {
    if s.lastSeq + 1 <= s.lastAck + s.control.cwnd {
      BreakNeverTaken(cut, s);
    }
  }

  /** A GET on an idle sender starts the session with packet 1 alone; while one is served it is denied. */
  lemma GetStarts(cut: seq<Packet>, s: Sender, id: nat)
    requires IsCut(cut)
    ensures s.serving ==> GetIn(cut, s, id) == (s.(currTo := true), [], true)
    ensures Idle(s) ==>
              GetIn(cut, s, id)
              == (s.(serving := true, currTo := true, hashId := id, lastSeq := 1, window := [cut[0]],
                     control := Control(true, 1, MAXWIN, 1)),
                  [cut[0]], false)
  {
    if Idle(s) {
      var s0 := s.(serving := true, currTo := true, hashId := id, control := INITIAL);
      assert Fill(cut, WithPacket(s0, cut[0]), 2) == (WithPacket(s0, cut[0]), []);
      assert s0.window + [cut[0]] == [cut[0]] == [cut[0]] + [];
    }
  }

  /** The state after the bookkeeping: an ack moves `lastAck` up or not at all, and the window follows it. */
  function Registered(cut: seq<Packet>, s: Sender, ack: nat): Sender
    requires |cut| == FINALACK && s.lastAck <= s.lastSeq <= FINALACK && ack <= s.lastSeq
  {
    s.(retransmits := 0,
       lastAck := Max(s.lastAck, ack),
       dupAcks := if ack == s.lastAck then s.dupAcks + 1 else if ack < s.lastAck then s.dupAcks else 1,
       window := cut[Max(s.lastAck, ack)..s.lastSeq])
  }

  /** A triple acknowledgement finds the packet it asks for at the head of the buffer. */
  lemma TripleHasHead(cut: seq<Packet>, s: Sender, ack: nat)
    requires Serving(cut, s) && ack <= s.lastSeq
    ensures var t := Register(s.(retransmits := 0), ack);
            t.dupAcks == 3 ==> t.window != [] && t.window[0] == cut[t.lastAck]
  {
    DropFromCut(cut, s.lastAck, s.lastSeq, Max(s.lastAck, ack));
  }

  lemma AckDecides(cut: seq<Packet>, s: Sender, ack: nat)
    requires Serving(cut, s) && ack <= s.lastSeq
    ensures AckIn(cut, s, ack) == Decide(cut, Registered(cut, s, ack))
  {
    DropFromCut(cut, s.lastAck, s.lastSeq, Max(s.lastAck, ack));
    assert s.window[|s.window| - 1] == cut[s.lastSeq - 1];
    assert Register(s.(retransmits := 0), ack) == Registered(cut, s, ack);
  }

  /** A state that is about to send fresh numbers: like a serving one, but its window may be empty. */
  ghost predicate Ready(cut: seq<Packet>, s: Sender) {
    && s.serving && s.currTo && IsCut(cut) && Envelope(s.control)
    && s.lastAck <= s.lastSeq <= FINALACK && s.lastAck < FINALACK && s.lastSeq <= s.lastAck + MAXWIN
    && s.window == cut[s.lastAck..s.lastSeq]
    && s.dupAcks < 3 && s.retransmits <= MAX_DATA_RETRANSMIT
  }

  /** Sending fresh numbers restores a non-empty window. */
  lemma FreshKeeps(cut: seq<Packet>, s: Sender)
    requires Ready(cut, s)
    ensures var r := SendNext(cut, s, s.lastSeq + 1);
            && Serving(cut, r.0)
            && r.0 == s.(lastSeq := r.0.lastSeq, window := r.0.window, control := r.0.control)
            && s.lastSeq <= r.0.lastSeq <= Max(s.lastSeq, r.0.lastAck + r.0.control.cwnd)
            && r.1 == cut[s.lastSeq..r.0.lastSeq]
  {
    SendNextMeaning(cut, s);
  }

  /** The third acknowledgement in a row that names the same packet. */
  predicate TripleAck(s: Sender, ack: nat) {
    ack == s.lastAck && s.dupAcks == 2
  }

  /** The state from which ack_handler goes on sending. */
  function Advanced(cut: seq<Packet>, s: Sender, ack: nat): Sender
    requires |cut| == FINALACK && s.lastAck <= s.lastSeq <= FINALACK && ack <= s.lastSeq
  {
    Registered(cut, s, ack).(control := SlowStart(s.control))
  }

  lemma AckSends(cut: seq<Packet>, s: Sender, ack: nat)
    requires Serving(cut, s) && ack <= s.lastSeq && ack < FINALACK && !TripleAck(s, ack)
    ensures AckIn(cut, s, ack) == SendNext(cut, Advanced(cut, s, ack), s.lastSeq + 1)
    ensures Ready(cut, Advanced(cut, s, ack))
  {
    AckDecides(cut, s, ack);
  }

  /**
    ack_handler keeps the window invariant or ends the session; what it sends is
    either the packet behind the last acknowledged one or fresh numbers, and
    never lies past the window.
   */
  ghost predicate AckOutcome(cut: seq<Packet>, s: Sender, ack: nat, t: Sender, out: seq<Packet>)
    requires Serving(cut, s)
  {
    if ack == s.lastSeq == FINALACK then Idle(t) && t.lastSeq == FINALACK && out == []
    else
      && Serving(cut, t) && t.hashId == s.hashId && t.retransmits == 0
      && t.lastAck == (if s.lastAck < ack <= s.lastSeq then ack else s.lastAck)
      && s.lastSeq <= t.lastSeq <= Max(s.lastSeq, t.lastAck + t.control.cwnd)
      && (if TripleAck(s, ack) then
            out == [cut[s.lastAck]] && t == s.(retransmits := 0, dupAcks := 1, control := MultDecrease(s.control))
          else out == cut[s.lastSeq..t.lastSeq])
  }

  lemma AckTriple(cut: seq<Packet>, s: Sender, ack: nat)
    requires Serving(cut, s) && TripleAck(s, ack)
    ensures AckIn(cut, s, ack)
            == (s.(retransmits := 0, dupAcks := 1, control := MultDecrease(s.control)), [cut[s.lastAck]])
  {
    AckDecides(cut, s, ack);
    assert cut[s.lastAck..s.lastSeq][..1] == [cut[s.lastAck]];
  }

  lemma AckAdvances(cut: seq<Packet>, s: Sender, ack: nat)
    requires Serving(cut, s) && ack <= s.lastSeq && ack < FINALACK && !TripleAck(s, ack)
    ensures var r := AckIn(cut, s, ack);
            && Serving(cut, r.0) && r.0.hashId == s.hashId && r.0.retransmits == 0
            && r.0.lastAck == Max(s.lastAck, ack)
            && s.lastSeq <= r.0.lastSeq <= Max(s.lastSeq, r.0.lastAck + r.0.control.cwnd)
            && r.1 == cut[s.lastSeq..r.0.lastSeq]
  {
    AckSends(cut, s, ack);
    FreshKeeps(cut, Advanced(cut, s, ack));
  }

  lemma AckKeeps(cut: seq<Packet>, s: Sender, ack: nat)
    requires Serving(cut, s)
    ensures AckOutcome(cut, s, ack, AckIn(cut, s, ack).0, AckIn(cut, s, ack).1)
  {
    if ack > s.lastSeq {
      assert s.window[|s.window| - 1] == cut[s.lastSeq - 1];
    } else if TripleAck(s, ack) {
      AckTriple(cut, s, ack);
    } else if ack == FINALACK {
      AckDecides(cut, s, ack);
    } else {
      AckAdvances(cut, s, ack);
    }
  }

  /** The congestion window when ack_handler sends: before additive increase, which follows. */
  function SendingWindow(s: Sender, ack: nat): nat {
    (if TripleAck(s, ack) then MultDecrease(s.control) else SlowStart(s.control)).cwnd
  }

  lemma FreshInWindow(cut: seq<Packet>, s: Sender)
    requires Ready(cut, s)
    ensures var t := SendNext(cut, s, s.lastSeq + 1).0;
            && s.control.cwnd <= t.control.cwnd
            && (s.lastSeq < t.lastSeq ==> t.lastSeq <= s.lastAck + s.control.cwnd)
  {
    SendNextMeaning(cut, s);
  }

  lemma AckTaken(cut: seq<Packet>, s: Sender, ack: nat)
    requires Serving(cut, s) && AckIn(cut, s, ack).1 != []
    ensures ack <= s.lastSeq && (ack < FINALACK || TripleAck(s, ack))
  {
    assert s.window[|s.window| - 1] == cut[s.lastSeq - 1];
    if ack == FINALACK && ack <= s.lastSeq {
      AckDecides(cut, s, ack);
    }
  }

  lemma AckFresh(cut: seq<Packet>, s: Sender, ack: nat, r: (Sender, seq<Packet>))
    requires Serving(cut, s) && !TripleAck(s, ack) && r == AckIn(cut, s, ack) && r.1 != []
    ensures SendingWindow(s, ack) <= r.0.control.cwnd
    ensures s.lastSeq < r.0.lastSeq ==> r.0.lastSeq <= r.0.lastAck + SendingWindow(s, ack)
  {
    AckTaken(cut, s, ack);
    AckAdvances(cut, s, ack);
    AckSends(cut, s, ack);
    FreshInWindow(cut, Advanced(cut, s, ack));
  }

  /**
    What ack_handler sends lies in the window that it has then; a number sent
    before is the one right behind the last acknowledged packet.
   */
  lemma AckSendsInWindow(cut: seq<Packet>, s: Sender, ack: nat, p: Packet)
    requires Serving(cut, s) && p in AckIn(cut, s, ack).1
    ensures var t := AckIn(cut, s, ack).0;
            && t.lastAck < p.num <= t.lastAck + SendingWindow(s, ack) <= t.lastAck + t.control.cwnd
            && (p.num <= s.lastSeq ==> p.num == s.lastAck + 1)
  {
    AckKeeps(cut, s, ack);
    var r := AckIn(cut, s, ack);
    if !TripleAck(s, ack) {
      var i :| 0 <= i < |r.1| && r.1[i] == p;
      assert p == cut[s.lastSeq + i];
      AckFresh(cut, s, ack, r);
    }
  }

  /** A timeout resends exactly the packet behind the last acknowledged one, or gives the session up. */
  lemma TimeoutKeeps(cut: seq<Packet>, s: Sender)
    requires Serving(cut, s)
    ensures var (t, out) := TimeoutIn(s);
            if s.retransmits == MAX_DATA_RETRANSMIT then Idle(t) && t.lastSeq == s.lastSeq && out == []
            else Serving(cut, t) && t == s.(retransmits := s.retransmits + 1) && out == [cut[s.lastAck]]
  {
  }
}
