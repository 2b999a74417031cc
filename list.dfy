/**
 * The focus list (`List<T>` of src/list.rs): an append-only vector of items
 * with one cursor, `index`, that `next` and `prev` move with wrap-around.
 */
module FocusList {
  import opened Types

  /** The cursor after `next` on a list of `n` items: `(i + 1) % n`. */
  function NextIndex(i: nat, n: nat): (j: nat)
    requires n > 0
    ensures j < n
    ensures i + 1 < n ==> j == i + 1
    ensures i + 1 == n ==> j == 0
  {
    (i + 1) % n
  }

  /** The cursor after `prev` on a list of `n` items: 0 wraps to `n - 1`. */
  function PrevIndex(i: nat, n: nat): (j: nat)
    requires n > 0
    ensures i < n ==> j < n
    ensures i == 0 ==> j == n - 1
    ensures i > 0 ==> j + 1 == i
  {
    if i == 0 then n - 1 else i - 1
  }

  /** The cursor after `k` calls of `next`. */
  function NextN(i: nat, n: nat, k: nat): (j: nat)
    requires n > 0
  {
    if k == 0 then i else NextIndex(NextN(i, n, k - 1), n)
  }

  /** The cursor after `k` calls of `prev`. */
  function PrevN(i: nat, n: nat, k: nat): (j: nat)
    requires n > 0
  {
    if k == 0 then i else PrevIndex(PrevN(i, n, k - 1), n)
  }

  /** `prev` undoes `next`. */
  lemma PrevUndoesNext(i: nat, n: nat)
    requires i < n
    ensures PrevIndex(NextIndex(i, n), n) == i
  {
  }

  /** `next` undoes `prev`. */
  lemma NextUndoesPrev(i: nat, n: nat)
    requires i < n
    ensures NextIndex(PrevIndex(i, n), n) == i
  {
  }

  /** `a + b` calls of `next` are `a` calls followed by `b` calls. */
  lemma {:induction false} NextNSplit(i: nat, n: nat, a: nat, b: nat)
    requires n > 0
    ensures NextN(i, n, a + b) == NextN(NextN(i, n, a), n, b)
  {
    if b > 0 {
      NextNSplit(i, n, a, b - 1);
    }
  }

  /** `a + b` calls of `prev` are `a` calls followed by `b` calls. */
  lemma {:induction false} PrevNSplit(i: nat, n: nat, a: nat, b: nat)
    requires n > 0
    ensures PrevN(i, n, a + b) == PrevN(PrevN(i, n, a), n, b)
  {
    if b > 0 {
      PrevNSplit(i, n, a, b - 1);
    }
  }

  /** Short of the end, `next` only counts up. */
  lemma {:induction false} NextNCountsUp(i: nat, n: nat, k: nat)
    requires i + k < n
    ensures NextN(i, n, k) == i + k
  {
    if k > 0 {
      NextNCountsUp(i, n, k - 1);
    }
  }

  /** Short of the start, `prev` only counts down. */
  lemma {:induction false} PrevNCountsDown(i: nat, n: nat, k: nat)
    requires k <= i < n
    ensures PrevN(i, n, k) == i - k
  {
    if k > 0 {
      PrevNCountsDown(i, n, k - 1);
    }
  }

  /** Calling `next` once per item brings the cursor back where it started. */
  lemma {:induction false} NextFullCycle(i: nat, n: nat)
    requires i < n
    ensures NextN(i, n, n) == i
  {
    // n - 1 - i steps up to the last item, one wrap to 0, then i steps up
    NextNSplit(i, n, n - 1 - i, 1 + i);
    NextNCountsUp(i, n, n - 1 - i);
    NextNSplit(n - 1, n, 1, i);
    NextNCountsUp(0, n, i);
  }

  /** Calling `prev` once per item brings the cursor back where it started. */
  lemma {:induction false} PrevFullCycle(i: nat, n: nat)
    requires i < n
    ensures PrevN(i, n, n) == i
  {
    // i steps down to 0, one wrap to n - 1, then n - 1 - i steps down
    PrevNSplit(i, n, i, 1 + (n - 1 - i));
    PrevNCountsDown(i, n, i);
    PrevNSplit(0, n, 1, n - 1 - i);
    PrevNCountsDown(n - 1, n, n - 1 - i);
  }

  /** `List<T>`: the items in insertion order and the focus cursor. */
  class List<T> {
    var items: seq<T>
    var index: nat

    /** The cursor is 0 on an empty list and a valid index otherwise. */
    ghost predicate Valid()
      reads this
    {
      if items == [] then index == 0 else index < |items|
    }

    /** `List::new` / `Default::default`: no items, cursor 0. */
    constructor ()
      ensures Valid()
      ensures items == [] && index == 0
    {
      items := [];
      index := 0;
    }

    /** `get` (and `get_mut`): the item at `i`, or None past the end. */
    function Get(i: nat): (r: Option<T>)
      reads this
      ensures r.Some? <==> i < |items|
      ensures r.Some? ==> r.value == items[i]
    {
      if i < |items| then Some(items[i]) else None
    }

    /** `add`: append at the end; the cursor does not move. */
    method Add(item: T)
      requires Valid()
      modifies this
      ensures Valid()
      ensures items == old(items) + [item]
      ensures index == old(index)
    {
      items := items + [item];
    }

    /** `next`: one step forward with wrap-around; panics (modulo by zero) on an empty list. */
    method Next()
      requires Valid() && items != []
      modifies this
      ensures Valid()
      ensures items == old(items)
      ensures index == NextIndex(old(index), |items|)
    {
      index := (index + 1) % |items|;
    }

    /** `prev`: one step back with wrap-around; `len - 1` underflows on an empty list. */
    method Prev()
      requires Valid() && items != []
      modifies this
      ensures Valid()
      ensures items == old(items)
      ensures index == PrevIndex(old(index), |items|)
    {
      if index == 0 {
        index := |items| - 1;
      } else {
        index := index - 1;
      }
    }

    /** `focused`: the item under the cursor; the `unwrap` panics on an empty list. */
    function Focused(): (r: T)
      reads this
      requires Valid() && items != []
      ensures Get(index) == Some(r)
    {
      items[index]
    }
  }
}
