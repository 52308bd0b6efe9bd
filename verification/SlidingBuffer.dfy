/** The linked-list window of sliding_buffer.c, refining the sequences of BufferSpec. */
module SlidingBuffers {
  import opened BufferSpec

  class Entry {
    const packet: Packet
    var next: Entry?

    constructor (p: Packet)
      ensures packet == p && next == null
    {
      packet := p;
      next := null;
    }
  }

  ghost function PacketsOf(nodes: seq<Entry>): (w: seq<Packet>)
    ensures |w| == |nodes| && forall i :: 0 <= i < |w| ==> w[i] == nodes[i].packet
  {
    seq(|nodes|, i requires 0 <= i < |nodes| => nodes[i].packet)
  }

  ghost function At(nodes: seq<Entry>, i: nat): Entry? {
    if i < |nodes| then nodes[i] else null
  }

  /** Entry `i` points to the one behind it, the last one to nothing. */
  ghost predicate LinksOn(nodes: seq<Entry>, i: nat)
    requires i < |nodes|
    reads nodes
  {
    nodes[i].next == At(nodes, i + 1)
  }

  ghost predicate Linked(nodes: seq<Entry>)
    reads nodes
  {
    forall i {:trigger LinksOn(nodes, i)} :: 0 <= i < |nodes| ==> LinksOn(nodes, i)
  }

  /** A list that ends passes no entry twice. */
  lemma {:induction false} Apart(nodes: seq<Entry>, i: nat, j: nat)
    requires Linked(nodes) && i < j < |nodes|
    ensures nodes[i] != nodes[j]
    decreases |nodes| - j
  {
    assert LinksOn(nodes, i) && LinksOn(nodes, j);
    if j + 1 < |nodes| {
      Apart(nodes, i + 1, j + 1);
    }
  }

  /** An entry occurs at one position only. */
  lemma OnceAt(nodes: seq<Entry>, i: nat)
    requires Linked(nodes) && i < |nodes|
    ensures forall j {:trigger nodes[j]} :: 0 <= j < |nodes| && j != i ==> nodes[j] != nodes[i]
  {
    forall j | 0 <= j < |nodes| && j != i ensures nodes[j] != nodes[i] {
      if j < i {
        Apart(nodes, j, i);
      } else {
        Apart(nodes, i, j);
      }
    }
  }

  /** `r` is `nodes` with `e` at position `k`. */
  ghost predicate Inserted(nodes: seq<Entry>, k: nat, e: Entry, r: seq<Entry>) {
    && k <= |nodes| && |r| == |nodes| + 1 && r[k] == e
    && (forall i {:trigger r[i]} :: 0 <= i < k ==> r[i] == nodes[i])
    && (forall i {:trigger r[i]} :: k < i < |r| ==> r[i] == nodes[i - 1])
  }

  lemma InsertNode(nodes: seq<Entry>, k: nat, e: Entry) returns (r: seq<Entry>)
    requires k <= |nodes|
    ensures Inserted(nodes, k, e, r)
    ensures PacketsOf(r) == PacketsOf(nodes)[..k] + [e.packet] + PacketsOf(nodes)[k..]
  {
    r := nodes[..k] + [e] + nodes[k..];
  }

  /** The chain of `was` with a detour through `e` behind position `i` is the chain of `r`. */
  lemma LinkedInsert(was: seq<Entry>, i: nat, e: Entry, r: seq<Entry>)
    requires i < |was| && Inserted(was, i + 1, e, r)
    requires forall j {:trigger LinksOn(was, j)} :: 0 <= j < |was| && j != i ==> LinksOn(was, j)
    requires was[i].next == e && e.next == At(was, i + 1)
    ensures Linked(r)
  {
    forall j | 0 <= j < |r| ensures LinksOn(r, j) {
      if j < i {
        assert LinksOn(was, j);
      } else if j > i + 1 {
        assert LinksOn(was, j - 1);
      }
    }
  }

  /** The two pointers that linking an entry in sets; `r` is the chain `was` with the entry in it. */
  method Splice(prev: Entry, e: Entry, ghost was: seq<Entry>, ghost i: nat, ghost r: seq<Entry>)
    requires Linked(was) && i < |was| && prev == was[i] && e !in was && Inserted(was, i + 1, e, r)
    modifies prev, e
    ensures Linked(r) && (e.next == null <==> i + 1 == |was|)
  {
    OnceAt(was, i);
    assert LinksOn(was, i);
    e.next := prev.next;
    prev.next := e;
    forall j | 0 <= j < |was| && j != i ensures LinksOn(was, j) {
      assert old(LinksOn(was, j));
    }
    LinkedInsert(was, i, e, r);
  }

  class SlidingBuffer {
    var numEntry: nat
    var head: Entry?
    var tail: Entry?
    ghost var nodes: seq<Entry>  // the entries from head to tail
    ghost var contents: seq<Packet>  // their packets
    ghost var repr: set<Entry>  // all entries made so far and not given up

    ghost predicate Valid()
      reads this, repr
    {
      && (forall i {:trigger nodes[i]} :: 0 <= i < |nodes| ==> nodes[i] in repr)
      && numEntry == |nodes| == |contents|
      && contents == PacketsOf(nodes)
      && Linked(nodes)
      && (nodes == [] ==> head == null && tail == null)
      && (nodes != [] ==> head == nodes[0] && tail == nodes[|nodes| - 1])
    }

    constructor ()
      ensures Valid() && repr == {} && contents == []
    {
      numEntry, head, tail := 0, null, null;
      nodes, contents, repr := [], [], {};
    }

    method AppendEntry(p: Packet)
      requires Valid()
      modifies this, repr
      ensures Valid() && fresh(repr - old(repr))
      ensures contents == old(contents) + [p]
    {
      var e := new Entry(p);
      if head == null {
        head, tail := e, e;
      } else {
        OnceAt(nodes, |nodes| - 1);
        tail.next := e;
        tail := e;
      }
      nodes, contents, repr := nodes + [e], contents + [p], repr + {e};
      numEntry := numEntry + 1;
      forall j | 0 <= j < |nodes| ensures LinksOn(nodes, j) {
        if j + 1 < |nodes| {
          assert old(LinksOn(nodes, j));
        }
      }
    }

    /** Links a fresh entry behind the entry at position `i`, as both linking branches of insert_entry do. */
    method LinkAfter(prev: Entry, e: Entry, ghost i: nat)
      requires Valid() && i < |nodes| && prev == nodes[i] && e !in nodes && e.next == null
      modifies this, prev, e
      ensures Valid() && repr == old(repr) + {e} && Inserted(old(nodes), i + 1, e, nodes)
      ensures contents == old(contents)[..i + 1] + [e.packet] + old(contents)[i + 1..]
    {
      ghost var r := InsertNode(nodes, i + 1, e);
      Splice(prev, e, nodes, i, r);
      if e.next == null {
        tail := e;
      }
      numEntry := numEntry + 1;
      nodes, contents, repr := r, PacketsOf(r), repr + {e};
    }

    method InsertEntry(p: Packet)
      requires Valid()
      modifies this, repr
      ensures Valid() && fresh(repr - old(repr))
      ensures contents == Insert(old(contents), p)
    {
      var e := new Entry(p);
      if head == null {
        head, tail := e, e;
        nodes, contents, repr := [e], [p], repr + {e};
        numEntry := numEntry + 1;
        return;
      }
      if p.num < head.packet.num {
        return;
      }
      Place(e);
    }

    /** The loop of insert_entry: walk to where the fresh entry belongs, or find that it is known. */
    method Place(e: Entry)
      requires Valid() && nodes != [] && e !in nodes && e.next == null && e.packet.num >= head.packet.num
      modifies this, repr, e
      ensures Valid() && repr <= old(repr) + {e}
      ensures contents == Insert(old(contents), e.packet)
    {
      ghost var w, p := contents, e.packet;
      var curr: Entry? := head;
      ghost var i := 0;
      while curr != null
        invariant i <= |nodes| && nodes == old(nodes) && w == contents && repr == old(repr)
        invariant curr == if i < |nodes| then nodes[i] else null
        invariant Valid() && e !in nodes && e.next == null
        invariant Spot(w, p.num, 0) == if i < |nodes| then Spot(w, p.num, i) else -1
        decreases |nodes| - i
      {
        var prev := curr;
        assert LinksOn(nodes, i);
        curr := curr.next;
        if e.packet.num == prev.packet.num {
          return;
        }
        if e.packet.num > prev.packet.num {
          if curr == null || e.packet.num < curr.packet.num {
            LinkAfter(prev, e, i);
            return;
          }
        }
        i := i + 1;
      }
    }

    /** find_ack: the end of the first run of consecutive numbers, -1 on an empty window. */
    method FindAck() returns (ack: int)
      requires Valid()
      modifies this
      ensures Valid() && repr <= old(repr)
      ensures old(contents) == [] ==> ack == -1 && contents == []
      ensures old(contents) != [] ==>
                contents == AckSuffix(old(contents)) && ack == contents[0].num
    {
      if head == null {
        return -1;
      }
      var curr := head;
      ghost var w := contents;
      ack := curr.packet.num;
      assert LinksOn(nodes, 0);
      while curr.next != null
        invariant Valid() && repr == old(repr)
        invariant nodes != [] && curr == head && ack == curr.packet.num && LinksOn(nodes, 0)
        invariant AckSuffix(w) == AckSuffix(contents)
        decreases |nodes|
      {
        if curr.next.packet.num == ack + 1 {
          ack := curr.next.packet.num;
        } else {
          return;
        }
        curr := curr.next;
        Unlink();
        assert LinksOn(nodes, 0);
      }
    }

    /** Drops the head entry; the tail is cleared with the last one. */
    method Unlink()
      requires Valid() && nodes != []
      modifies this
      ensures Valid() && nodes == old(nodes)[1..] && head == old(head.next) && repr == old(repr)
      ensures contents == old(contents)[1..]
    {
      assert LinksOn(nodes, 0);
      forall j | 0 <= j < |nodes| - 1 ensures LinksOn(nodes[1..], j) {
        assert LinksOn(nodes, j + 1);
      }
      head := head.next;
      nodes, contents := nodes[1..], contents[1..];
      numEntry := numEntry - 1;
      if head == null {
        tail := null;
      }
    }

    method DestroyUptoAck(ack: nat)
      requires Valid()
      modifies this
      ensures Valid() && repr <= old(repr)
      ensures contents == DropUpto(old(contents), ack)
    {
      var curr := head;
      while curr != null
        invariant Valid() && repr == old(repr) && curr == head
        invariant DropUpto(old(contents), ack) == DropUpto(contents, ack)
        decreases |nodes|
      {
        if ack < curr.packet.num {
          return;
        }
        curr := curr.next;
        Unlink();
      }
    }

    method DestroyEntries()
      requires Valid()
      modifies this
      ensures Valid() && repr == {} && contents == []
    {
      head, tail := null, null;
      nodes, contents, repr := [], [], {};
      numEntry := 0;
    }
  }
}
