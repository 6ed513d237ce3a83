/** A LIFO stack over a private growable array whose last element is the top. */
module Stacks {
  import opened Outcomes

  /** `s` back to front: the first element of the result is the last of `s`. */
  function Reversed<T>(s: seq<T>): (r: seq<T>)
    ensures |r| == |s|
  {
    if s == [] then [] else [s[|s| - 1]] + Reversed(s[..|s| - 1])
  }

  /** Position `k` of the reversal holds position `|s| - 1 - k` of `s`. */
  lemma {:induction false} ReversedAt<T>(s: seq<T>, k: nat)
    requires k < |s|
    ensures Reversed(s)[k] == s[|s| - 1 - k]
  {
    if k > 0 {
      ReversedAt(s[..|s| - 1], k - 1);
    }
  }

  /** Reversing twice gives the original order back. */
  lemma {:induction false} ReversedTwice<T>(s: seq<T>)
    ensures Reversed(Reversed(s)) == s
  {
    forall k | 0 <= k < |s|
      ensures Reversed(Reversed(s))[k] == s[k]
    {
      ReversedAt(Reversed(s), k);
      ReversedAt(s, |s| - 1 - k);
    }
  }

  class Stack<T> {
    /** The backing array, bottom first; its last element is the top. */
    var items: seq<T>

    /** A new stack holds no element. */
    constructor ()
      ensures items == []
    {
      items := [];
    }

    /** The number of elements on the stack. */
    method Size() returns (n: nat)
      ensures n == |items|
    {
      n := |items|;
    }

    /** True exactly when the stack holds no element. */
    method IsEmpty() returns (empty: bool)
      ensures empty <==> |items| == 0
    {
      empty := |items| == 0;
    }

    /** Puts `value` on top and answers true; `undefined` is refused and
        leaves the stack as it was. */
    method Push(value: Option<T>) returns (r: Result<bool>)
      modifies this
      ensures value.None? ==> r == Err(InvalidArgument) && items == old(items)
      ensures value.Some? ==> r == Ok(true) && items == old(items) + [value.value]
      ensures |items| == |old(items)| + (if value.Some? then 1 else 0)
    {
      if value.None? {
        return Err(InvalidArgument);
      }
      items := items + [value.value];
      r := Ok(true);
    }

    /** Removes and returns the top element; an empty stack throws and stays
        empty. */
    method Pop() returns (r: Result<T>)
      modifies this
      ensures old(items) == [] ==> r == Err(EmptyContainer) && items == []
      ensures old(items) != [] ==>
        r == Ok(old(items)[|old(items)| - 1]) && items == old(items)[..|old(items)| - 1]
    {
      var empty := IsEmpty();
      if empty {
        return Err(EmptyContainer);
      }
      r := Ok(items[|items| - 1]);
      items := items[..|items| - 1];
    }

    /** Returns the top element without removing it; an empty stack throws. */
    method Peek() returns (r: Result<T>)
      ensures items == [] ==> r == Err(EmptyContainer)
      ensures items != [] ==> r == Ok(items[|items| - 1])
    {
      var empty := IsEmpty();
      if empty {
        return Err(EmptyContainer);
      }
      r := Ok(items[|items| - 1]);
    }

    /** Drops every element and answers the new size, 0. */
    method Clear() returns (n: nat)
      modifies this
      ensures n == 0 && items == []
    {
      items := [];
      n := 0;
    }

    /** All elements, top first; an empty stack throws. TypeScript's
        `Stack.getAll` (src/stack.ts:80) obtains them with an in-place
        reversal of the backing array, so the stack's own order is reversed
        too: the former bottom becomes the top. */
    method GetAll() returns (r: Result<seq<T>>)
      modifies this
      ensures old(items) == [] ==> r == Err(EmptyContainer) && items == []
      ensures old(items) != [] ==> items == Reversed(old(items)) && r == Ok(items)
    {
      var empty := IsEmpty();
      if empty {
        return Err(EmptyContainer);
      }
      items := Reversed(items);
      r := Ok(items);
    }
  }

  /** Pushing every element of `ps` onto a new stack and then popping as many
      times hands the elements back last first. */
  method LifoRoundTrip<T>(ps: seq<T>) returns (popped: seq<T>)
    ensures popped == Reversed(ps)
  {
    var st := new Stack<T>();
    var i := 0;
    while i < |ps|
      invariant 0 <= i <= |ps|
      invariant st.items == ps[..i]
    {
      var _ := st.Push(Some(ps[i]));
      i := i + 1;
    }
    assert st.items == ps;
    popped := [];
    while |popped| < |ps|
      invariant |st.items| + |popped| == |ps|
      invariant popped + Reversed(st.items) == Reversed(ps)
    {
      var r := st.Pop();
      popped := popped + [r.value];
    }
  }

  /** After getAll, pop hands back what was the bottom element. */
  method PopAfterGetAll<T>(st: Stack<T>) returns (all: Result<seq<T>>, r: Result<T>)
    modifies st
    ensures old(st.items) == [] ==> all == Err(EmptyContainer) && r == Err(EmptyContainer)
    ensures old(st.items) != [] ==> r == Ok(old(st.items)[0])
    ensures old(st.items) != [] ==> st.items == Reversed(old(st.items)[1..])
  {
    ghost var before := st.items;
    all := st.GetAll();
    r := st.Pop();
    if before != [] {
      ReversedAt(before, |before| - 1);
      assert Reversed(before)[..|before| - 1] == Reversed(before[1..]) by {
        forall k | 0 <= k < |before| - 1
          ensures Reversed(before)[k] == Reversed(before[1..])[k]
        {
          ReversedAt(before, k);
          ReversedAt(before[1..], k);
        }
      }
    }
  }

  /** Two getAll calls in a row leave the stack in its original order. */
  method GetAllTwice<T>(st: Stack<T>) returns (first: Result<seq<T>>, second: Result<seq<T>>)
    modifies st
    ensures st.items == old(st.items)
    ensures old(st.items) != [] ==> first == Ok(Reversed(old(st.items))) && second == Ok(old(st.items))
  {
    ghost var before := st.items;
    first := st.GetAll();
    second := st.GetAll();
    ReversedTwice(before);
  }

  /** Peek answers what the next pop removes, and leaves the stack as it was
      for that pop. */
  method PeekThenPop<T>(st: Stack<T>) returns (seen: Result<T>, taken: Result<T>)
    modifies st
    ensures seen == taken
    ensures old(st.items) != [] ==> st.items == old(st.items)[..|old(st.items)| - 1]
  {
    seen := st.Peek();
    taken := st.Pop();
  }

  /** Size and emptiness agree on any stack. */
  method EmptyExactlyWhenSizeZero<T>(st: Stack<T>) returns (empty: bool, n: nat)
    ensures empty <==> n == 0
  {
    empty := st.IsEmpty();
    n := st.Size();
  }

  /** push(1), push(2), push(3): peek gives 3, popping gives 3, 2, 1, the
      stack ends empty, and getAll on it then throws. */
  method Scenario() returns (top: Result<int>, a: Result<int>, b: Result<int>,
                             c: Result<int>, n: nat, all: Result<seq<int>>)
    ensures top == Ok(3) && a == Ok(3) && b == Ok(2) && c == Ok(1)
    ensures n == 0 && all == Err(EmptyContainer)
  {
    var st := new Stack<int>();
    var added := st.Push(Some(1));
    added := st.Push(Some(2));
    added := st.Push(Some(3));
    top := st.Peek();
    a := st.Pop();
    b := st.Pop();
    c := st.Pop();
    n := st.Size();
    all := st.GetAll();
  }
}
