/** A FIFO queue over a private growable array: elements join at the back and
    leave from the front. */
module Queues {
  import opened Outcomes

  class Queue<T> {
    /** The backing array, front first. */
    var items: seq<T>

    /** A new queue holds no element. */
    constructor ()
      ensures items == []
    {
      items := [];
    }

    /** The number of elements waiting in the queue. */
    method Size() returns (n: nat)
      ensures n == |items|
    {
      n := |items|;
    }

    /** True exactly when no element is waiting. */
    method IsEmpty() returns (empty: bool)
      ensures empty <==> |items| == 0
    {
      empty := |items| == 0;
    }

    /** Appends `value` at the back and answers true; `undefined` is refused
        and leaves the queue as it was. */
    method Enqueue(value: Option<T>) returns (r: Result<bool>)
      modifies this
      ensures value.None? ==> r == Err(InvalidArgument) && items == old(items)
      ensures value.Some? ==> r == Ok(true) && items == old(items) + [value.value]
      ensures |items| == |old(items)| + (if value.Some? then 1 else 0)
    {
      if value.None? {
        return Err(InvalidArgument);
      }
      items := items + [value.value];
      r := Ok(true);
    }

    /** Removes and returns the front element; an empty queue throws and
        stays empty. */
    method Dequeue() returns (r: Result<T>)
      modifies this
      ensures old(items) == [] ==> r == Err(EmptyContainer) && items == []
      ensures old(items) != [] ==> r == Ok(old(items)[0]) && items == old(items)[1..]
    {
      var empty := IsEmpty();
      if empty {
        return Err(EmptyContainer);
      }
      r := Ok(items[0]);
      items := items[1..];
    }

    /** Returns the front element without removing it; an empty queue throws. */
    method Peek() returns (r: Result<T>)
      ensures items == [] ==> r == Err(EmptyContainer)
      ensures items != [] ==> r == Ok(items[0])
    {
      var empty := IsEmpty();
      if empty {
        return Err(EmptyContainer);
      }
      r := Ok(items[0]);
    }

    /** Drops every element and answers the new size, 0. */
    method Clear() returns (n: nat)
      modifies this
      ensures n == 0 && items == []
    {
      items := [];
      n := 0;
    }

    /** All elements, front first. Never throws, not even on an empty queue.
        TypeScript's `Queue.getAll` (src/queue.ts:78) hands out its live
        backing array, which a caller could then change; here the caller
        receives a copy of the contents. */
    method GetAll() returns (all: seq<T>)
      ensures all == items
    {
      all := items;
    }
  }

  /** Enqueuing every element of `es` onto a new queue and then dequeuing as
      many times hands the elements back in the order they went in. */
  method FifoRoundTrip<T>(es: seq<T>) returns (drained: seq<T>)
    ensures drained == es
  {
    var q := new Queue<T>();
    var i := 0;
    while i < |es|
      invariant 0 <= i <= |es|
      invariant q.items == es[..i]
    {
      var _ := q.Enqueue(Some(es[i]));
      i := i + 1;
    }
    drained := [];
    while |drained| < |es|
      invariant |drained| <= |es|
      invariant drained == es[..|drained|]
      invariant q.items == es[|drained|..]
    {
      var r := q.Dequeue();
      drained := drained + [r.value];
    }
  }

  /** Size and emptiness agree on any queue. */
  method EmptyExactlyWhenSizeZero<T>(q: Queue<T>) returns (empty: bool, n: nat)
    ensures empty <==> n == 0
  {
    empty := q.IsEmpty();
    n := q.Size();
  }

  /** Peek answers what the next dequeue removes, and leaves the queue as
      it was for that dequeue. */
  method PeekThenDequeue<T>(q: Queue<T>) returns (seen: Result<T>, taken: Result<T>)
    modifies q
    ensures seen == taken
    ensures old(q.items) != [] ==> q.items == old(q.items)[1..]
  {
    seen := q.Peek();
    taken := q.Dequeue();
  }

  /** enqueue("a"), enqueue("b"), enqueue("c"): peek gives "a", dequeuing
      gives "a", "b", "c", the queue ends empty, and an empty queue's getAll
      is the empty sequence. */
  method Scenario() returns (front: Result<string>, a: Result<string>, b: Result<string>,
                             c: Result<string>, n: nat, rest: seq<string>)
    ensures front == Ok("a") && a == Ok("a") && b == Ok("b") && c == Ok("c")
    ensures n == 0 && rest == []
  {
    var q := new Queue<string>();
    var added := q.Enqueue(Some("a"));
    added := q.Enqueue(Some("b"));
    added := q.Enqueue(Some("c"));
    front := q.Peek();
    a := q.Dequeue();
    b := q.Dequeue();
    c := q.Dequeue();
    n := q.Size();
    rest := q.GetAll();
  }
}
