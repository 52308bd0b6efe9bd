/** The sending side of a peer as the object its handlers update, refining SenderSpec. */
module SenderObject {
  import opened Constants
  import opened BufferSpec
  import opened SlidingBuffers
  import opened Congestion
  import opened Chunk
  import opened SenderSpec

  /** `offset` is where packet `n` starts, or past the chunk that starts at `first`. */
  ghost predicate OffsetOf(n: nat, offset: nat, first: nat) {
    1 <= n && if n <= FINALACK then offset == first + (n - 1) * BUFLEN else offset >= first + CHUNKLEN
  }

  /** What is left of the chunk, or a full buffer, is the packet's payload; the next packet starts behind it. */
  lemma NextOffset(n: nat, offset: nat, first: nat)
    requires OffsetOf(n, offset, first) && offset < first + CHUNKLEN
    ensures Numbered(n) && offset == first + (n - 1) * BUFLEN
    ensures PayloadLen(n) == if first + CHUNKLEN - offset < BUFLEN then first + CHUNKLEN - offset else BUFLEN
    ensures OffsetOf(n + 1, offset + PayloadLen(n), first)
  {
  }

  class SendingPeer {
    const master: seq<uint8>  // the master data file
    const state: CongestionState
    const sendBuffer: SlidingBuffer
    var serving: bool
    var currTo: bool
    var sendHashId: nat
    var lastAck: nat
    var numDupacks: nat
    var lastSeq: nat
    var numDataRetransmits: nat

    ghost function Value(): Sender
      reads this, state, sendBuffer
    {
      Sender(serving, currTo, sendHashId, lastAck, numDupacks, lastSeq, numDataRetransmits,
             state.Value(), sendBuffer.contents)
    }

    ghost predicate Valid()
      reads this, sendBuffer, sendBuffer.repr
    {
      sendBuffer.Valid() && (serving ==> HasChunk(master, sendHashId))
    }

    /** The packets of the chunk that is being served. */
    ghost function ServedCut(): (cut: seq<Packet>)
      reads `sendHashId
      ensures |cut| == FINALACK
    {
      if HasChunk(master, sendHashId) then Cut(master, sendHashId) else seq(FINALACK, _ => Packet(0, []))
    }

    constructor (master: seq<uint8>)
      ensures Valid() && fresh(state) && fresh(sendBuffer) && sendBuffer.repr == {}
      ensures this.master == master && Idle(Value())
    {
      this.master := master;
      state := new CongestionState();
      sendBuffer := new SlidingBuffer();
      serving, currTo := false, false;
      sendHashId := PSEUDO_INF;
      lastAck, numDupacks, lastSeq, numDataRetransmits := 0, 0, 0, 0;
    }

    /** Packet `n` of `cut` is what the master file holds at its offset. */
    ghost predicate ReadAt(cut: seq<Packet>, n: nat)
      requires |cut| == FINALACK && Numbered(n) && HasChunk(master, sendHashId)
      reads `sendHashId
    {
      cut[n - 1] == PacketOf(master, sendHashId, n)
    }

    /** `cut` is the chunk that is being served. */
    ghost predicate ReadsAs(cut: seq<Packet>)
      reads `sendHashId
    {
      && |cut| == FINALACK && HasChunk(master, sendHashId)
      && forall n {:trigger ReadAt(cut, n)} :: Numbered(n) ==> ReadAt(cut, n)
    }

    lemma ServedReads()
      requires HasChunk(master, sendHashId)
      ensures ReadsAs(ServedCut())
    {
    }

    /** One turn of send_next_data's loop: read a packet's bytes, enter it in the buffer and count it. */
    method SendPacket(n: nat, offset: nat, first: nat, ghost cut: seq<Packet>) returns (p: Packet)
      requires Valid() && ReadsAs(cut) && first == sendHashId * CHUNKLEN
      requires OffsetOf(n, offset, first) && offset < first + CHUNKLEN
      modifies `lastSeq, state, sendBuffer, sendBuffer.repr
      ensures Valid() && fresh(sendBuffer.repr - old(sendBuffer.repr))
      ensures Numbered(n) && p == cut[n - 1] && OffsetOf(n + 1, offset + |p.data|, first)
      ensures Value() == WithPacket(old(Value()), p)
    {
      var bytesToRead := if first + CHUNKLEN - offset < BUFLEN then first + CHUNKLEN - offset else BUFLEN;
      NextOffset(n, offset, first);
      p := Packet(n, master[offset..offset + bytesToRead]);
      ReadIsPacket(master, sendHashId, n, p);
      assert ReadAt(cut, n);
      lastSeq := n;
      sendBuffer.AppendEntry(p);
      state.currRound := state.currRound + 1;
    }

    /** The loop of send_next_data, with its exit on a full buffer. */
    method FillWindow(seqnum: nat, ghost cut: seq<Packet>) returns (sent: seq<Packet>)
      requires Valid() && ReadsAs(cut) && 1 <= seqnum
      modifies `lastSeq, state, sendBuffer, sendBuffer.repr
      ensures Valid() && (Value(), sent) == Fill(cut, old(Value()), seqnum)
    {
      sent := [];
      ghost var whole := Fill(cut, Value(), seqnum);
      var first: nat := sendHashId * CHUNKLEN;
      var offset: nat := first + (seqnum - 1) * BUFLEN;
      var next: nat := seqnum;
      FillStarts(cut, Value(), seqnum);
      while offset < first + CHUNKLEN && next <= lastAck + state.cwnd
        invariant Valid() && fresh(sendBuffer.repr - old(sendBuffer.repr))
        invariant OffsetOf(next, offset, first)
        invariant Continues(whole, cut, sent, Value(), next)
        decreases lastAck + state.cwnd + 1 - next
      {
        if sendBuffer.numEntry == state.cwnd {
          break;
        }
        NextOffset(next, offset, first);
        FillOnce(whole, cut, sent, Value(), next);
        var p := SendPacket(next, offset, first, cut);
        sent := sent + [p];
        next := next + 1;
        offset := offset + |p.data|;
      }
      FillEnds(whole, cut, sent, Value(), next);
    }

    /** send_next_data: fill the congestion window with fresh packets read from the master file. */
    method SendNextData(seqnum: nat) returns (sent: seq<Packet>)
      requires Valid() && HasChunk(master, sendHashId) && 1 <= seqnum
      modifies this, state, sendBuffer, sendBuffer.repr
      ensures Valid() && ServedCut() == old(ServedCut())
      ensures (Value(), sent) == SendNext(old(ServedCut()), old(Value()), seqnum)
    {
      sent := [];
      if seqnum > lastAck + state.cwnd {
        return;
      }
      ServedReads();
      sent := FillWindow(seqnum, ServedCut());
      state.AddIncreaseStep();
    }

    /** get_handler: deny while another request is served, else start with packet 1. */
    method GetHandler(id: nat) returns (sent: seq<Packet>, denied: bool)
      requires Valid() && HasChunk(master, id)
      modifies this, state, sendBuffer, sendBuffer.repr
      ensures Valid()
      ensures (Value(), sent, denied) == GetIn(Cut(master, id), old(Value()), id)
    {
      currTo := true;
      if serving {
        return [], true;
      }
      serving := true;
      sendHashId := id;
      state.Init();
      sent := SendNextData(1);
      denied := false;
    }

    /** post_send_cleanup. */
    method PostSendCleanup()
      requires Valid()
      modifies this, sendBuffer
      ensures Valid() && sendBuffer.repr == {}
      ensures Value() == old(Value()).(lastAck := 0, dupAcks := 0, serving := false, hashId := PSEUDO_INF, window := [])
    {
      lastAck := 0;
      numDupacks := 0;
      serving := false;
      sendHashId := PSEUDO_INF;
      sendBuffer.DestroyEntries();
    }

    /** retransmit_data: the head of the send buffer goes out again. */
    method RetransmitData() returns (sent: seq<Packet>)
      requires Valid() && Value().window != []
      ensures sent == Value().window[..1]
    {
      sent := [sendBuffer.head.packet];
    }

    /** The part of ack_handler that records the acknowledgement and shrinks the send buffer. */
    method RegisterAck(ack: nat)
      requires Valid()
      modifies this, sendBuffer
      ensures Valid() && Value() == Register(old(Value()), ack)
      ensures sendBuffer.repr <= old(sendBuffer.repr)
    {
      if lastAck == ack {
        numDupacks := numDupacks + 1;
        sendBuffer.DestroyUptoAck(lastAck);
      } else if lastAck > ack {
        sendBuffer.DestroyUptoAck(lastAck);
      } else {
        lastAck := ack;
        numDupacks := 1;
        sendBuffer.DestroyUptoAck(lastAck);
      }
    }

    /** The part of ack_handler that finishes, retransmits or goes on sending. */
    method DecideNext() returns (sent: seq<Packet>)
      requires Valid() && HasChunk(master, sendHashId)
      requires numDupacks == 3 && !(lastSeq == FINALACK && lastAck == FINALACK) ==> Value().window != []
      modifies this, state, sendBuffer, sendBuffer.repr
      ensures Valid()
      ensures (Value(), sent) == Decide(old(ServedCut()), old(Value()))
    {
      if lastSeq == FINALACK && lastAck == FINALACK {
        currTo := false;
        PostSendCleanup();
        sent := [];
      } else if numDupacks == 3 {
        numDupacks := 1;
        state.MultDecreaseStep();
        sent := RetransmitData();
      } else {
        state.SlowStartStep();
        sent := SendNextData(lastSeq + 1);
      }
    }

    /** The part of ack_handler behind its two checks. */
    method RegisterAndDecide(ack: nat) returns (sent: seq<Packet>)
      requires Valid() && HasChunk(master, sendHashId)
      requires Register(Value(), ack).dupAcks == 3 ==> Register(Value(), ack).window != []
      modifies this, state, sendBuffer, sendBuffer.repr
      ensures Valid()
      ensures (Value(), sent) == Decide(old(ServedCut()), Register(old(Value()), ack))
    {
      RegisterAck(ack);
      sent := DecideNext();
    }

    /**
      ack_handler; it reads the tail of the send buffer before anything else. On
      an empty buffer there is none, and `ok` is false: the source's behaviour is
      undefined from there on.
     */
    method AckHandler(ack: nat) returns (ok: bool, sent: seq<Packet>)
      requires Valid()
      requires serving && Value().window != [] ==> Serving(ServedCut(), Value())
      modifies this, state, sendBuffer, sendBuffer.repr
      ensures Valid() && (ok <==> old(Value().window) != [])
      ensures ok ==> (Value(), sent) == AckIn(old(ServedCut()), old(Value()), ack)
      ensures !ok ==> Value() == old(Value()).(retransmits := 0) && sent == []
    {
      ghost var s, cut := Value(), ServedCut();
      numDataRetransmits := 0;
      ok, sent := sendBuffer.tail != null, [];
      if !ok || ack > sendBuffer.tail.packet.num || !serving {
        return;
      }
      assert sendBuffer.tail.packet == s.window[|s.window| - 1] == cut[s.lastSeq - 1];
      TripleHasHead(cut, s, ack);
      sent := RegisterAndDecide(ack);
    }

    /** The data branch of a timeout; `ok` is false where it would read the head of an empty buffer. */
    method TimeoutHandler() returns (ok: bool, sent: seq<Packet>)
      requires Valid()
      modifies this, sendBuffer
      ensures Valid()
      ensures ok <==> old(currTo && numDataRetransmits != MAX_DATA_RETRANSMIT ==> Value().window != [])
      ensures ok ==> (Value(), sent) == TimeoutIn(old(Value()))
      ensures !ok ==> Value() == old(Value()) && sent == []
    {
      ok, sent := true, [];
      if currTo {
        if numDataRetransmits == MAX_DATA_RETRANSMIT {
          PostSendCleanup();
          numDataRetransmits := 0;
          currTo := false;
        } else if sendBuffer.head == null {
          ok := false;
        } else {
          sent := RetransmitData();
          numDataRetransmits := numDataRetransmits + 1;
        }
      }
    }
  }

  /** A loop that comes to `whole` in the end has sent `sent` and stands at `n` in state `s`. */
  ghost predicate Continues(whole: (Sender, seq<Packet>), cut: seq<Packet>, sent: seq<Packet>, s: Sender, n: nat)
    requires |cut| == FINALACK && 1 <= n
  {
    whole == (Fill(cut, s, n).0, sent + Fill(cut, s, n).1)
  }

  lemma FillStarts(cut: seq<Packet>, s: Sender, n: nat)
    requires |cut| == FINALACK && 1 <= n
    ensures Continues(Fill(cut, s, n), cut, [], s, n)
  {
    assert [] + Fill(cut, s, n).1 == Fill(cut, s, n).1;
  }

  lemma FillEnds(whole: (Sender, seq<Packet>), cut: seq<Packet>, sent: seq<Packet>, s: Sender, n: nat)
    requires |cut| == FINALACK && 1 <= n && Continues(whole, cut, sent, s, n)
    requires n > FINALACK || n > s.lastAck + s.control.cwnd || |s.window| == s.control.cwnd
    ensures whole == (s, sent)
  {
    assert sent + [] == sent;
  }

  lemma FillOnce(whole: (Sender, seq<Packet>), cut: seq<Packet>, sent: seq<Packet>, s: Sender, n: nat)
    requires |cut| == FINALACK && Numbered(n) && Continues(whole, cut, sent, s, n)
    requires n <= s.lastAck + s.control.cwnd && |s.window| != s.control.cwnd
    ensures Continues(whole, cut, sent + [cut[n - 1]], WithPacket(s, cut[n - 1]), n + 1)
  {
    var out := Fill(cut, WithPacket(s, cut[n - 1]), n + 1).1;
    assert sent + ([cut[n - 1]] + out) == (sent + [cut[n - 1]]) + out;
  }

  lemma SliceOfSlice<T>(s: seq<T>, a: nat, b: nat, c: nat, d: nat)
    requires a <= b <= |s| && c <= d <= b - a
    ensures s[a..b][c..d] == s[a + c..a + d]
  {
    var t := s[a..b];
    forall i | 0 <= i < d - c ensures t[c..d][i] == s[a + c..a + d][i] {
      assert t[c..d][i] == t[c + i] == s[a + (c + i)];
    }
  }

  /** What fread delivers at the packet's offset is the packet's payload. */
  lemma ReadIsPacket(master: seq<uint8>, id: nat, n: nat, p: Packet)
    requires HasChunk(master, id) && Numbered(n)
    requires p == Packet(n, master[id * CHUNKLEN + (n - 1) * BUFLEN..id * CHUNKLEN + (n - 1) * BUFLEN + PayloadLen(n)])
    ensures p == PacketOf(master, id, n)
  {
    SliceOfSlice(master, id * CHUNKLEN, (id + 1) * CHUNKLEN, (n - 1) * BUFLEN, (n - 1) * BUFLEN + PayloadLen(n));
  }
}
