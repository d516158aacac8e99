/** Failure-compatible result types used wherever the source throws or returns
    `null`/`undefined`. */
module Outcomes {

  datatype Option<+T> = None | Some(value: T) {

    /** The value, or `fallback` for `None` (a JavaScript default parameter). */
    function GetOr(fallback: T): T
    {
      match this
      case Some(v) => v
      case None => fallback
    }
  }

  /** `Err` carries the message of the `Error` the source throws. */
  datatype Result<+T> = Ok(value: T) | Err(message: string)
}

/** Array operations the examples share: `push`, `indexOf` (reference or
    value equality, which the model expresses through `==` on ids or values)
    and `splice(index, 1)`. */
module Seqs {

  /** `Array.prototype.indexOf`: the first index holding `x`, or -1. */
  function IndexOf<T(==)>(s: seq<T>, x: T): (i: int)
    ensures -1 <= i < |s|
    ensures i == -1 <==> x !in s
    ensures 0 <= i ==> s[i] == x && x !in s[..i]
  {
    if |s| == 0 then -1
    else if s[0] == x then 0
    else
      var j := IndexOf(s[1..], x);
      assert s[1..][..if j < 0 then 0 else j] == s[1..1 + (if j < 0 then 0 else j)];
      if j == -1 then -1 else j + 1
  }

  /** `splice(i, 1)`: drop exactly the element at position `i`. */
  function RemoveAt<T>(s: seq<T>, i: nat): (r: seq<T>)
    requires i < |s|
    ensures |r| == |s| - 1
    ensures forall k :: 0 <= k < i ==> r[k] == s[k]
    ensures forall k :: i <= k < |r| ==> r[k] == s[k + 1]
  {
    s[..i] + s[i + 1..]
  }

  /** The remove idiom of the examples: find the first occurrence with
      `indexOf` and splice it out when it exists. */
  function RemoveFirst<T(==)>(s: seq<T>, x: T): (r: seq<T>)
    ensures x !in s ==> r == s
    ensures x in s ==> |r| == |s| - 1
    ensures x in s ==> exists i :: 0 <= i < |s| && s[i] == x && x !in s[..i] && r == s[..i] + s[i + 1..]
    ensures multiset(r) == multiset(s) - multiset{x}
  {
    var i := IndexOf(s, x);
    if i == -1 then s
    else
      assert s == s[..i] + [x] + s[i + 1..];
      RemoveAt(s, i)
  }

  /** Number of occurrences of `x` in `s`. */
  function Count<T(==)>(s: seq<T>, x: T): nat
  {
    if |s| == 0 then 0 else (if s[0] == x then 1 else 0) + Count(s[1..], x)
  }

  lemma {:induction false} CountAppend<T>(a: seq<T>, b: seq<T>, x: T)
    ensures Count(a + b, x) == Count(a, x) + Count(b, x)
  {
    if |a| == 0 {
      assert a + b == b;
    } else {
      assert (a + b)[1..] == a[1..] + b;
      CountAppend(a[1..], b, x);
    }
  }

  lemma {:induction false} CountNotIn<T>(s: seq<T>, x: T)
    requires x !in s
    ensures Count(s, x) == 0
  {
    if |s| > 0 {
      CountNotIn(s[1..], x);
    }
  }

  /** The first occurrence is unique: any position holding `x` with no earlier
      `x` is the one `IndexOf` finds. */
  lemma {:induction false} IndexOfUnique<T>(s: seq<T>, x: T, i: nat)
    requires i < |s| && s[i] == x && x !in s[..i]
    ensures IndexOf(s, x) == i
  {
    if i > 0 {
      assert s[0] == s[..i][0];
      assert s[1..][..i - 1] == s[1..i];
      assert forall k :: 1 <= k < i ==> s[k] == s[..i][k];
      IndexOfUnique(s[1..], x, i - 1);
    }
  }

  /** Concatenation is associative. */
  lemma ConcatAssoc<T>(a: seq<T>, b: seq<T>, c: seq<T>)
    ensures a + (b + c) == (a + b) + c
  {
  }

  /** Appending at the end does not change the head, and the tail gets the
      same element appended. */
  lemma SnocTail<T>(s: seq<T>, x: T)
    requires |s| > 0
    ensures (s + [x])[0] == s[0] && (s + [x])[1..] == s[1..] + [x]
  {
    assert (s + [x])[1..] == s[1..] + [x];
  }

  /** Removing what was just pushed (and was not there before) restores the list. */
  lemma PushThenRemove<T>(s: seq<T>, x: T)
    requires x !in s
    ensures RemoveFirst(s + [x], x) == s
  {
    assert (s + [x])[..|s|] == s;
    IndexOfUnique(s + [x], x, |s|);
  }

  /** Removing an element already present is unaffected by a later push. */
  lemma PushCommutesWithRemove<T>(s: seq<T>, x: T, y: T)
    requires y in s
    ensures RemoveFirst(s + [x], y) == RemoveFirst(s, y) + [x]
  {
    var i := IndexOf(s, y);
    var t := s + [x];
    RemoveFirstAt(s, y, i);
    assert t[..i] == s[..i];
    RemoveFirstAt(t, y, i);
    assert t[i + 1..] == s[i + 1..] + [x];
    ConcatAssoc(s[..i], s[i + 1..], [x]);
  }

  /** Removal splices out the first position holding the element. */
  lemma RemoveFirstAt<T>(s: seq<T>, x: T, i: nat)
    requires i < |s| && s[i] == x && x !in s[..i]
    ensures RemoveFirst(s, x) == s[..i] + s[i + 1..]
  {
    IndexOfUnique(s, x, i);
  }
}

/** The `forEach` loops that call one method on every listener of a list, in
    list order and with the same arguments: the observer and mediator
    examples share them. Ids stand for object references. */
module Broadcasts {
  type Id = nat

  /** One call made on a listener. */
  datatype Delivery<A> = Delivery(to: Id, args: A)

  function Broadcast<A>(ids: seq<Id>, args: A): (calls: seq<Delivery<A>>)
    ensures |calls| == |ids|
    ensures forall i :: 0 <= i < |calls| ==> calls[i] == Delivery(ids[i], args)
  {
    if |ids| == 0 then [] else [Delivery(ids[0], args)] + Broadcast(ids[1..], args)
  }
}
