/** The singly linked queue shared by the florist pool (HW5) and the provider server
    (Final): `head`, nodes joined by `next`, and no tail pointer.  Final also counts the
    nodes in `size`; HW5 reports in `status` whether there was something to poll.  The
    class carries both. */
module LinkedQueue {

  class Node<T> {
    var data: T
    var next: Node?<T>

    constructor (data: T)
      ensures this.data == data && next == null
    {
      this.data := data;
      next := null;
    }
  }

  class Queue<T(0)> {
    var head: Node?<T>
    var size: nat
    // The nodes of the chain, first to last
    ghost var chain: seq<Node<T>>

    /** The chain starts at head, is linked in order, has no repeated node and ends:
        following `next` visits every node once and stops. */
    ghost predicate Valid()
      reads this, chain
    {
      && size == |chain|
      && (head == null <==> chain == [])
      && (chain != [] ==> head == chain[0] && chain[|chain| - 1].next == null)
      && (forall i | 0 <= i < |chain| - 1 :: chain[i].next == chain[i + 1])
      && (forall i, j | 0 <= i < j < |chain| :: chain[i] != chain[j])
    }

    /** What the queue holds, the oldest first. */
    ghost function Contents(): seq<T>
      reads this, chain
    {
      seq(|chain|, i requires 0 <= i < |chain| reads this, chain => chain[i].data)
    }

    /** The nodes that belong to this queue. */
    ghost function Footprint(): set<object>
      reads this
    {
      {this as object} + set n: Node<T> | n in chain :: n as object
    }

    constructor ()
      ensures Valid() && Contents() == [] && fresh(Footprint())
    {
      head, size, chain := null, 0, [];
    }

    method Offer(item: T)
      requires Valid()
      modifies Footprint()
      ensures Valid() && fresh(Footprint() - old(Footprint()))
      ensures Contents() == old(Contents()) + [item]
    {
      var last := new Node(item);
      if head == null {
        head := last;
      } else {
        var current := head;
        ghost var i := 0;
        while current.next != null
          invariant 0 <= i < |chain| && current == chain[i]
          invariant i < |chain| - 1 ==> current.next == chain[i + 1]
          decreases |chain| - i
        {
          current := current.next;
          i := i + 1;
        }
        assert chain[i] in chain;
        current.next := last;
      }
      chain := chain + [last];
      size := size + 1;
    }

    /** Removes and returns the oldest item; with an empty queue the item is arbitrary. */
    method Poll() returns (status: bool, item: T)
      requires Valid()
      modifies Footprint()
      ensures Valid() && Footprint() <= old(Footprint())
      ensures status <==> old(Contents()) != []
      ensures status ==> old(Contents()) == [item] + Contents()
      ensures !status ==> Contents() == old(Contents())
    {
      item := *;
      status := false;
      if head != null {
        status := true;
        item := head.data;
        assert |chain| > 1 ==> chain[0].next == chain[1];
        head := head.next;
        chain := chain[1..];
        assert forall n | n in chain :: n in old(chain);
        size := size - 1;
      }
    }

    method IsEmpty() returns (empty: bool)
      requires Valid()
      ensures empty <==> Contents() == []
    {
      empty := head == null;
    }

    /** QueueIsFull of the provider server, by the counter. */
    method IsFull(limit: nat) returns (full: bool)
      requires Valid()
      ensures full <==> |Contents()| == limit
    {
      full := size == limit;
    }
  }

  // ---------------------------------------------------------------- every run of operations

  datatype Op<T> = OfferOp(item: T) | PollOp

  /** A queue as a value: what has come out so far and what is still inside. */
  datatype Fifo<T> = Fifo(polled: seq<T>, inside: seq<T>)

  function Apply<T>(q: Fifo<T>, op: Op<T>): Fifo<T> {
    match op
    case OfferOp(x) => q.(inside := q.inside + [x])
    case PollOp => if q.inside == [] then q else Fifo(q.polled + [q.inside[0]], q.inside[1..])
  }

  function After<T>(ops: seq<Op<T>>): Fifo<T> {
    if ops == [] then Fifo([], []) else Apply(After(ops[..|ops| - 1]), ops[|ops| - 1])
  }

  /** The items offered by a run of operations, in order. */
  function Offered<T>(ops: seq<Op<T>>): seq<T> {
    if ops == [] then []
    else Offered(ops[..|ops| - 1]) + (match ops[|ops| - 1] case OfferOp(x) => [x] case PollOp => [])
  }

  /** First in, first out, over any run: what came out, followed by what is still inside,
      is exactly what was offered, in the same order. */
  lemma {:induction false} FirstInFirstOut<T>(ops: seq<Op<T>>)
    ensures After(ops).polled + After(ops).inside == Offered(ops)
  {
    if ops != [] {
      var before, op := ops[..|ops| - 1], ops[|ops| - 1];
      FirstInFirstOut(before);
      var q := After(before);
      match op {
        case OfferOp(x) => assert q.polled + (q.inside + [x]) == (q.polled + q.inside) + [x];
        case PollOp =>
          if q.inside != [] {
            assert q.polled + [q.inside[0]] + q.inside[1..] == q.polled + q.inside;
          }
      }
    }
  }

  /** The heap queue follows the value queue through any run of operations. */
  method RunOps<T(0)>(ops: seq<Op<T>>) returns (queue: Queue<T>, polled: seq<T>)
    ensures queue.Valid() && fresh(queue.Footprint())
    ensures Fifo(polled, queue.Contents()) == After(ops)
    ensures polled + queue.Contents() == Offered(ops)
    ensures queue.size == |Offered(ops)| - |polled|
  {
    queue := new Queue();
    polled := [];
    for i := 0 to |ops|
      invariant queue.Valid() && fresh(queue.Footprint())
      invariant Fifo(polled, queue.Contents()) == After(ops[..i])
    {
      assert ops[..i + 1][..i] == ops[..i];
      match ops[i] {
        case OfferOp(x) =>
          queue.Offer(x);
        case PollOp =>
          var status, item := queue.Poll();
          if status { polled := polled + [item]; }
      }
    }
    assert ops[..|ops|] == ops;
    FirstInFirstOut(ops);
  }
}
