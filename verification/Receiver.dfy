/** The receiving side of a peer as the object its handlers update, refining ReceiverSpec. */
module ReceiverObject {
  import opened Constants
  import opened BufferSpec
  import opened SlidingBuffers
  import opened Chunk
  import opened ReceiverSpec

  class ReceivingPeer {
    const recvBuffer: SlidingBuffer
    var getHashId: nat
    var pendingGet: bool
    var ackTimeoutCounter: nat
    var outputFile: seq<uint8>

    ghost function Value(): Receiver
      reads this, recvBuffer
    {
      Receiver(getHashId, pendingGet, ackTimeoutCounter, recvBuffer.contents, outputFile)
    }

    ghost predicate Valid()
      reads this, recvBuffer, recvBuffer.repr
    {
      recvBuffer.Valid()
    }

    /** A peer whose GET for chunk `id` has just been sent. */
    constructor (id: nat, file: seq<uint8>)
      ensures Valid() && fresh(recvBuffer) && recvBuffer.repr == {}
      ensures Value() == Receiver(id, true, 0, [], file)
    {
      recvBuffer := new SlidingBuffer();
      getHashId := id;
      pendingGet := true;
      ackTimeoutCounter := 0;
      outputFile := file;
    }

    /** post_receive_cleanup, as far as the buffer and get_hash_id go. */
    method PostReceiveCleanup()
      requires Valid()
      modifies this, recvBuffer
      ensures Valid() && Value() == old(Value()).(hashId := PSEUDO_INF, window := [])
    {
      getHashId := PSEUDO_INF;
      recvBuffer.DestroyEntries();
    }

    /** insert_entry and find_ack on the receive buffer. */
    method TakeIn(p: Packet) returns (acknum: int)
      requires Valid()
      modifies recvBuffer, recvBuffer.repr
      ensures Valid() && recvBuffer.contents == Receive(old(recvBuffer.contents), p)
      ensures acknum == recvBuffer.contents[0].num
    {
      recvBuffer.InsertEntry(p);
      acknum := recvBuffer.FindAck();
    }

    /** data_handler: ignore, or write, insert and acknowledge. */
    method DataHandler(p: Packet) returns (reply: Reply)
      requires Valid() && p.num >= 1
      modifies this, recvBuffer, recvBuffer.repr
      ensures Valid()
      ensures (Value(), reply) == DataIn(old(Value()), p)
    {
      ackTimeoutCounter := 0;
      if getHashId == PSEUDO_INF {
        return NoAck;
      }
      pendingGet := false;
      var offset := getHashId * CHUNKLEN + (p.num - 1) * BUFLEN;
      outputFile := WriteAt(outputFile, offset, p.data);
      var acknum := TakeIn(p);
      reply := Ack(acknum);
      if acknum == FINALACK {
        PostReceiveCleanup();
      }
    }

    /** The receive branch of a timeout. */
    method SilenceHandler()
      requires Valid()
      modifies this, recvBuffer
      ensures Valid() && Value() == SilenceIn(old(Value()))
    {
      if getHashId != PSEUDO_INF {
        if ackTimeoutCounter == MAX_DATA_RETRANSMIT {
          PostReceiveCleanup();
          pendingGet := false;
          ackTimeoutCounter := 0;
        } else {
          ackTimeoutCounter := ackTimeoutCounter + 1;
        }
      }
    }
  }
}
