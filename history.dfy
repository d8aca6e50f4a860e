/** The observation history: a bounded FIFO (Python's `deque(maxlen = H)`)
    and the function that says what one history read leaves in it. */
module History {
  import opened Tensors

  /** `collections.deque` with a fixed `maxlen`: appending to a full deque
      evicts the oldest entry. */
  class Deque<T> {
    const maxlen: nat
    var items: seq<T>   // oldest first

    ghost predicate Valid()
      reads this
    {
      |items| <= maxlen
    }

    constructor (maxlen: nat)
      ensures Valid()
      ensures this.maxlen == maxlen && items == []
    {
      this.maxlen := maxlen;
      items := [];
    }

    method Append(x: T)
      requires Valid()
      modifies this
      ensures Valid()
      ensures items == KeepLast(old(items) + [x], maxlen)
      ensures |old(items)| < maxlen ==> items == old(items) + [x]
    {
      if |items| < maxlen {
        items := items + [x];
      } else if maxlen > 0 {
        items := items[1..] + [x];
      }
    }

    /** `len(deque)`. */
    function Len(): (n: nat)
      reads this
      requires Valid()
      ensures n == |items| && n <= maxlen
    {
      |items|
    }
  }

  /** What one history read does to a queue with capacity `h` holding `q`:
      pad with `x` while the queue is not full, then append `x` once more,
      evicting the oldest entry. */
  function Refill<T>(q: seq<T>, x: T, h: nat): (r: seq<T>)
    requires |q| <= h
    ensures |r| == h
    ensures h > 0 ==> r[h - 1] == x
  {
    KeepLast(q + Repeat(x, h - |q|) + [x], h)
  }

  /** The first read after a reset yields `h` copies of the observation. */
  lemma RefillFromEmpty<T>(x: T, h: nat)
    ensures Refill([], x, h) == Repeat(x, h)
  {
    forall k | 0 <= k < h
      ensures Refill([], x, h)[k] == x
    {
      RefillAt([], x, h, k);
    }
  }

  /** Once full, a read drops the oldest entry and puts the new one last. */
  lemma RefillWhenFull<T>(q: seq<T>, x: T, h: nat)
    requires |q| == h > 0
    ensures Refill(q, x, h) == q[1..] + [x]
  {
    assert Repeat(x, 0) == [];
    assert q + Repeat(x, 0) + [x] == q + [x];
  }

  /** In general the oldest entry of `q` is dropped and the rest of `q`
      keeps its order, followed by copies of `x` up to the capacity. */
  lemma RefillAt<T>(q: seq<T>, x: T, h: nat, k: nat)
    requires |q| <= h && k < h
    ensures Refill(q, x, h)[k] == if k + 1 < |q| then q[k + 1] else x
  {
    var s := q + Repeat(x, h - |q|) + [x];
    assert Refill(q, x, h) == s[1..];
  }
}
