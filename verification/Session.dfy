/**
  One chunk session as a labelled transition system: a sender and a receiver
  joined by a data channel and an acknowledgement channel that lose, duplicate
  and reorder at will.
 */
module Session {
  import opened Constants
  import opened BufferSpec
  import opened Runs
  import opened Chunk
  import opened SenderSpec
  import opened ReceiverSpec
  import opened ReceiverWindow

  datatype Outcome = Open | Finished | GivenUp

  /**
    A channel is the multiset of what is in flight. `got` and `ack` record the
    numbers data_handler took in and the last acknowledgement it computed, and
    `outcome` how the sender left the session.
   */
  datatype State = State(
    snd: Sender,
    rcv: Receiver,
    data: multiset<Packet>,
    acks: multiset<nat>,
    got: set<nat>,
    ack: nat,
    outcome: Outcome)

  datatype Step =
    | DeliverData(p: Packet) | DropData(p: Packet) | DuplicateData(p: Packet)
    | DeliverAck(a: nat) | DropAck(a: nat) | DuplicateAck(a: nat)
    | SenderTimeout | ReceiverTimeout

  /** ack_handler reads the tail of the send buffer, so an ack is taken only while there is one. */
  predicate Enabled(s: State, step: Step) {
    match step
    case DeliverData(p) => p in s.data && p.num >= 1
    case DropData(p) => p in s.data
    case DuplicateData(p) => p in s.data
    case DeliverAck(a) => a in s.acks && s.snd.window != []
    case DropAck(a) => a in s.acks
    case DuplicateAck(a) => a in s.acks
    case SenderTimeout => true
    case ReceiverTimeout => true
  }

  /** The sender's part of a step: its new state and the packets it sends. */
  function SenderMove(cut: seq<Packet>, s: State, step: Step): (r: (Sender, seq<Packet>))
    requires |cut| == FINALACK && Enabled(s, step)
  {
    match step
    case DeliverAck(a) => AckIn(cut, s.snd, a)
    case SenderTimeout => TimeoutIn(s.snd)
    case _ => (s.snd, [])
  }

  function Next(cut: seq<Packet>, s: State, step: Step): (t: State)
    requires |cut| == FINALACK && Enabled(s, step)
  {
    match step
    case DeliverData(p) =>
      var (r, reply) := DataIn(s.rcv, p);
      if reply.NoAck? then s.(rcv := r, data := s.data - multiset{p})
      else s.(rcv := r, data := s.data - multiset{p}, acks := s.acks + multiset{reply.num},
              got := s.got + {p.num}, ack := reply.num)
    case DropData(p) => s.(data := s.data - multiset{p})
    case DuplicateData(p) => s.(data := s.data + multiset{p})
    case DeliverAck(a) =>
      var (t, out) := SenderMove(cut, s, step);
      s.(snd := t, data := s.data + multiset(out), acks := s.acks - multiset{a},
         outcome := if s.outcome.Open? && !t.serving then Finished else s.outcome)
    case DropAck(a) => s.(acks := s.acks - multiset{a})
    case DuplicateAck(a) => s.(acks := s.acks + multiset{a})
    case SenderTimeout =>
      var (t, out) := SenderMove(cut, s, step);
      s.(snd := t, data := s.data + multiset(out),
         outcome := if s.outcome.Open? && !t.serving then GivenUp else s.outcome)
    case ReceiverTimeout => s.(rcv := SilenceIn(s.rcv))
  }

  /** The transition system of a session that transfers `cut`. */
  function System(cut: seq<Packet>): (State, Step) -> Maybe<State>
    requires |cut| == FINALACK
  {
    (s: State, step: Step) => if Enabled(s, step) then To(Next(cut, s, step)) else Stuck
  }

  /** Chunk `src` of the sender is wanted as chunk `dst` of the receiver, whose output file is `before`. */
  datatype Setup = Setup(master: seq<uint8>, src: nat, dst: nat, before: seq<uint8>, idle: Sender)

  ghost predicate Proper(c: Setup) {
    HasChunk(c.master, c.src) && c.dst < PSEUDO_INF && Idle(c.idle)
  }

  ghost function CutOf(c: Setup): (cut: seq<Packet>)
    requires Proper(c)
    ensures IsCut(cut)
  {
    Cut(c.master, c.src)
  }

  /** The state right after the receiver's GET reached an idle sender. */
  ghost function Start(c: Setup): State
    requires Proper(c)
  {
    var (t, out, _) := GetIn(CutOf(c), c.idle, c.src);
    State(t, Receiver(c.dst, true, 0, [], c.before), multiset(out), multiset{}, {}, 0, Open)
  }

  ghost predicate Reachable(c: Setup, s: State)
    requires Proper(c)
  {
    exists steps :: Run(System(CutOf(c)), Start(c), steps) == To(s)
  }

  // The global invariant

  ghost predicate SenderPart(cut: seq<Packet>, s: State) {
    && (if s.outcome.Open? then Serving(cut, s.snd) else Idle(s.snd))
    && 1 <= s.snd.lastSeq <= FINALACK
    && s.snd.lastAck <= s.ack <= s.snd.lastSeq
    && (s.ack == 0 ==> s.snd.lastSeq == 1)
  }

  /** Packets in flight carry what their number dictates; acks in flight are not ahead of the receiver. */
  ghost predicate ChannelPart(cut: seq<Packet>, s: State)
    requires |cut| == FINALACK && s.snd.lastSeq <= FINALACK
  {
    && (forall p :: p in s.data ==> 1 <= p.num <= s.snd.lastSeq && p == cut[p.num - 1])
    && (forall a :: a in s.acks ==> 1 <= a <= s.ack)
  }

  ghost predicate Fetching(s: State) { s.rcv.hashId != PSEUDO_INF }

  /**
    The receiver's window is seeded with packet 1 and stands for exactly the
    numbers taken in; `hashId` is PSEUDO_INF when nothing is being fetched.
   */
  ghost predicate WindowOk(dst: nat, hashId: nat, window: seq<Packet>, got: set<nat>, ack: nat, lastSeq: nat) {
    && (hashId != PSEUDO_INF ==>
          && hashId == dst
          && ack < FINALACK
          && (got == {} ==> window == [] && ack == 0)
          && (got != {} ==> Keeps(window, got, 1) && ack == window[0].num))
    && (hashId == PSEUDO_INF ==> window == [])
    && (forall n :: n in got ==> 1 <= n <= lastSeq)
    && (forall n :: 1 <= n <= ack ==> n in got)
  }

  ghost predicate WindowPart(dst: nat, s: State) {
    WindowOk(dst, s.rcv.hashId, s.rcv.window, s.got, s.ack, s.snd.lastSeq)
  }

  ghost predicate FilePart(cut: seq<Packet>, dst: nat, before: seq<uint8>, s: State)
    requires |cut| == FINALACK && s.snd.lastSeq <= FINALACK && forall n :: n in s.got ==> 1 <= n <= s.snd.lastSeq
  {
    && (forall n :: n in s.got ==> InPlace(cut, dst, s.rcv.file, n))
    && OutsideKept(before, dst, s.rcv.file)
  }

  ghost predicate Inv(cut: seq<Packet>, dst: nat, before: seq<uint8>, s: State) {
    && IsCut(cut) && dst < PSEUDO_INF
    && SenderPart(cut, s)
    && ChannelPart(cut, s)
    && WindowPart(dst, s)
    && FilePart(cut, dst, before, s)
  }

  lemma StartInv(c: Setup)
    requires Proper(c)
    ensures Inv(CutOf(c), c.dst, c.before, Start(c))
  {
    var cut := CutOf(c);
    GetStarts(cut, c.idle, c.src);
    assert cut[0..1] == [cut[0]];
  }

  lemma ArrivalKeeps(window: seq<Packet>, got: set<nat>, p: Packet)
    requires if got == {} then window == [] && p.num == 1 else Keeps(window, got, 1)
    ensures var w := Receive(window, p);
            && Keeps(w, got + {p.num}, 1) && 1 <= w[0].num && w[0].num in got + {p.num}
            && (got != {} ==> window[0].num <= w[0].num)
  {
    if got == {} {
      FirstArrival(p);
    } else {
      LaterArrival(window, got, 1, p);
    }
  }

  /** An arrival at the window: the first one must be number 1, and the acknowledgement never falls. */
  lemma Arrival(dst: nat, window: seq<Packet>, got: set<nat>, ack: nat, lastSeq: nat, p: Packet)
    requires dst < PSEUDO_INF && WindowOk(dst, dst, window, got, ack, lastSeq)
    requires 1 <= p.num <= lastSeq <= FINALACK && (ack == 0 ==> p.num == 1)
    ensures var w := Receive(window, p);
            && ack <= w[0].num <= lastSeq
            && 1 <= w[0].num
            && if w[0].num == FINALACK then WindowOk(dst, PSEUDO_INF, [], got + {p.num}, FINALACK, lastSeq)
               else WindowOk(dst, dst, w, got + {p.num}, w[0].num, lastSeq)
  {
    ArrivalKeeps(window, got, p);
  }

  lemma ArrivalFile(cut: seq<Packet>, dst: nat, before: seq<uint8>, s: State, p: Packet)
    requires IsCut(cut) && s.snd.lastSeq <= FINALACK && Numbered(p.num) && p == cut[p.num - 1]
    requires forall n :: n in s.got ==> 1 <= n <= s.snd.lastSeq
    requires FilePart(cut, dst, before, s)
    ensures var file := WriteAt(s.rcv.file, Offset(dst, p.num), p.data);
            OutsideKept(before, dst, file) && forall n :: n in s.got + {p.num} ==> InPlace(cut, dst, file, n)
  {
    var file := WriteAt(s.rcv.file, Offset(dst, p.num), p.data);
    WriteKeepsOutside(cut, before, dst, s.rcv.file, p.num);
    forall n | n in s.got + {p.num} ensures InPlace(cut, dst, file, n) {
      if n == p.num {
        WriteStores(s.rcv.file, Offset(dst, p.num), p.data);
      } else {
        WriteKeeps(cut, dst, s.rcv.file, n, p.num);
      }
    }
  }

  lemma DeliverKeepsChannels(cut: seq<Packet>, dst: nat, before: seq<uint8>, s: State, p: Packet)
    requires Inv(cut, dst, before, s) && Enabled(s, DeliverData(p)) && Fetching(s)
    ensures var t := Next(cut, s, DeliverData(p)); SenderPart(cut, t) && ChannelPart(cut, t)
  {
    Arrival(dst, s.rcv.window, s.got, s.ack, s.snd.lastSeq, p);
  }

  lemma DeliverKeepsWindow(cut: seq<Packet>, dst: nat, before: seq<uint8>, s: State, p: Packet)
    requires Inv(cut, dst, before, s) && Enabled(s, DeliverData(p)) && Fetching(s)
    ensures WindowPart(dst, Next(cut, s, DeliverData(p)))
  {
    Arrival(dst, s.rcv.window, s.got, s.ack, s.snd.lastSeq, p);
  }

  /** A delivered data packet: the first one seeds the window with number 1, later ones extend it. */
  lemma DeliverDataInv(cut: seq<Packet>, dst: nat, before: seq<uint8>, s: State, p: Packet)
    requires Inv(cut, dst, before, s) && Enabled(s, DeliverData(p))
    ensures Inv(cut, dst, before, Next(cut, s, DeliverData(p)))
  {
    if Fetching(s) {
      DeliverKeepsChannels(cut, dst, before, s, p);
      DeliverKeepsWindow(cut, dst, before, s, p);
      ArrivalFile(cut, dst, before, s, p);
    }
  }

  /** What the sender sends comes from the chunk and is covered by `lastSeq`. */
  ghost predicate FromCut(cut: seq<Packet>, out: seq<Packet>, hi: nat)
    requires |cut| == FINALACK && hi <= FINALACK
  {
    forall p :: p in out ==> 1 <= p.num <= hi && p == cut[p.num - 1]
  }

  lemma SliceFromCut(cut: seq<Packet>, lo: nat, hi: nat)
    requires IsCut(cut) && lo <= hi <= FINALACK
    ensures FromCut(cut, cut[lo..hi], hi)
  {
    forall p | p in cut[lo..hi] ensures 1 <= p.num <= hi && p == cut[p.num - 1] {
      var i :| 0 <= i < hi - lo && cut[lo..hi][i] == p;
      assert p == cut[lo + i];
    }
  }

  /** Every move of a serving sender keeps it serving or ends the session, and sends packets of the chunk only. */
  lemma SenderMoves(cut: seq<Packet>, s: State, step: Step)
    requires Serving(cut, s.snd) && Enabled(s, step) && (step.DeliverAck? || step.SenderTimeout?)
    requires 1 <= s.snd.lastSeq
    ensures var (t, out) := SenderMove(cut, s, step);
            && (if t.serving then Serving(cut, t) else Idle(t))
            && s.snd.lastSeq <= t.lastSeq <= FINALACK
            && FromCut(cut, out, t.lastSeq)
            && (t.serving ==>
                  t.lastAck == if step.DeliverAck? && s.snd.lastAck < step.a <= s.snd.lastSeq then step.a
                               else s.snd.lastAck)
  {
    match step {
      case DeliverAck(a) => AckMove(cut, s.snd, a);
      case SenderTimeout => TimeoutKeeps(cut, s.snd);
    }
  }

  lemma AckMove(cut: seq<Packet>, s: Sender, a: nat)
    requires Serving(cut, s)
    ensures var r := AckIn(cut, s, a);
            && (if r.0.serving then Serving(cut, r.0) else Idle(r.0))
            && s.lastSeq <= r.0.lastSeq <= FINALACK
            && FromCut(cut, r.1, r.0.lastSeq)
            && (r.0.serving ==> r.0.lastAck == if s.lastAck < a <= s.lastSeq then a else s.lastAck)
  {
    AckKeeps(cut, s, a);
    SliceFromCut(cut, s.lastSeq, AckIn(cut, s, a).0.lastSeq);
  }

  lemma SenderMoveInv(cut: seq<Packet>, dst: nat, before: seq<uint8>, s: State, step: Step)
    requires Inv(cut, dst, before, s) && Enabled(s, step) && (step.DeliverAck? || step.SenderTimeout?)
    ensures Inv(cut, dst, before, Next(cut, s, step))
  {
    if s.outcome.Open? {
      SenderMoves(cut, s, step);
    }
  }

  /** Losing packets, or abandoning the fetch, breaks nothing. */
  lemma FewerKeep(cut: seq<Packet>, dst: nat, before: seq<uint8>, s: State, t: State)
    requires Inv(cut, dst, before, s)
    requires t.snd == s.snd && t.got == s.got && t.ack == s.ack && t.outcome == s.outcome && t.rcv.file == s.rcv.file
    requires (t.rcv.hashId == s.rcv.hashId && t.rcv.window == s.rcv.window)
             || (t.rcv.hashId == PSEUDO_INF && t.rcv.window == [])
    requires forall p :: p in t.data ==> p in s.data
    requires forall a :: a in t.acks ==> a in s.acks
    ensures Inv(cut, dst, before, t)
  {
  }

  lemma ChannelStepInv(cut: seq<Packet>, dst: nat, before: seq<uint8>, s: State, step: Step)
    requires Inv(cut, dst, before, s) && Enabled(s, step)
    requires !step.DeliverData? && !step.DeliverAck? && !step.SenderTimeout?
    ensures Inv(cut, dst, before, Next(cut, s, step))
  {
    FewerKeep(cut, dst, before, s, Next(cut, s, step));
  }

  lemma StepInv(cut: seq<Packet>, dst: nat, before: seq<uint8>, s: State, step: Step)
    requires Inv(cut, dst, before, s) && Enabled(s, step)
    ensures Inv(cut, dst, before, Next(cut, s, step))
  {
    match step
    case DeliverData(p) => DeliverDataInv(cut, dst, before, s, p);
    case DeliverAck(_) => SenderMoveInv(cut, dst, before, s, step);
    case SenderTimeout => SenderMoveInv(cut, dst, before, s, step);
    case _ => ChannelStepInv(cut, dst, before, s, step);
  }

  lemma {:induction false} RunInv(cut: seq<Packet>, dst: nat, before: seq<uint8>, s: State, steps: seq<Step>)
    requires Inv(cut, dst, before, s) && Run(System(cut), s, steps).To?
    ensures Inv(cut, dst, before, Run(System(cut), s, steps).state)
    decreases |steps|
  {
    if steps != [] {
      StepInv(cut, dst, before, s, steps[0]);
      RunInv(cut, dst, before, Next(cut, s, steps[0]), steps[1..]);
    }
  }

  lemma ReachableInv(c: Setup, s: State)
    requires Proper(c) && Reachable(c, s)
    ensures Inv(CutOf(c), c.dst, c.before, s)
  {
    var steps :| Run(System(CutOf(c)), Start(c), steps) == To(s);
    StartInv(c);
    RunInv(CutOf(c), c.dst, c.before, Start(c), steps);
  }

  // Safety

  /**
    End-to-end safety: once the receiver has computed the final acknowledgement,
    the output slot holds the master chunk byte for byte, and nothing outside
    the slot has changed.
   */
  lemma EndToEnd(c: Setup, s: State)
    requires Proper(c) && Reachable(c, s) && s.ack == FINALACK
    ensures (c.dst + 1) * CHUNKLEN <= |s.rcv.file| && (c.src + 1) * CHUNKLEN <= |c.master|
    ensures s.rcv.file[c.dst * CHUNKLEN..(c.dst + 1) * CHUNKLEN] == c.master[c.src * CHUNKLEN..(c.src + 1) * CHUNKLEN]
    ensures OutsideKept(c.before, c.dst, s.rcv.file)
  {
    ReachableInv(c, s);
    forall n | Numbered(n) ensures InPlace(Cut(c.master, c.src), c.dst, s.rcv.file, n) {
      assert n in s.got;
    }
    AllInPlace(c.master, c.src, c.dst, s.rcv.file);
  }

  /** A number acknowledged is a number whose predecessors all arrived, and sit in the file. */
  lemma AckMeansArrived(c: Setup, s: State, n: nat)
    requires Proper(c) && Reachable(c, s) && 1 <= n <= s.ack
    ensures n in s.got && Numbered(n) && InPlace(CutOf(c), c.dst, s.rcv.file, n)
  {
    ReachableInv(c, s);
  }
}
