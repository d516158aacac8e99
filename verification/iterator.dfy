/** The guarded iterator: `MyCollection` collects items, `MyIterator` walks
    them and answers `null` (here `None`) once exhausted, without moving. */
module GuardedIterator {
  import opened Outcomes

  datatype Collection<T> = Collection(items: seq<T>)

  datatype Iterator<T> = Iterator(items: seq<T>, index: nat)

  /** The result of one `next` call: the value returned and the iterator after. */
  datatype Stepped<T> = Stepped(value: Option<T>, after: Iterator<T>)

  function NewCollection<T>(): (c: Collection<T>)
    ensures |c.items| == 0
  {
    Collection([])
  }

  /** `addItem`: push at the end. */
  function AddItem<T>(c: Collection<T>, item: T): (r: Collection<T>)
    ensures |r.items| == |c.items| + 1
    ensures r.items[..|c.items|] == c.items && r.items[|c.items|] == item
  {
    Collection(c.items + [item])
  }

  /** `createIterator`: a cursor at index 0 over the collection's items. */
  function CreateIterator<T>(c: Collection<T>): (it: Iterator<T>)
    ensures it.items == c.items && it.index == 0
    ensures Valid(it)
  {
    Iterator(c.items, 0)
  }

  /** The index never leaves 0..items.length. */
  predicate Valid<T>(it: Iterator<T>)
  {
    it.index <= |it.items|
  }

  function HasNext<T>(it: Iterator<T>): (b: bool)
    ensures b <==> it.index < |it.items|
  {
    it.index < |it.items|
  }

  /** `next`: the current item and one step forward while items remain;
      otherwise `null` and no movement. */
  function Next<T>(it: Iterator<T>): (s: Stepped<T>)
    ensures s.after.items == it.items
    ensures HasNext(it) ==> s.value == Some(it.items[it.index]) && s.after.index == it.index + 1
    ensures !HasNext(it) ==> s.value == None && s.after == it
    ensures Valid(it) ==> Valid(s.after)
  {
    if HasNext(it) then Stepped(Some(it.items[it.index]), Iterator(it.items, it.index + 1))
    else Stepped(None, it)
  }

  /** The client loop `while (it.hasNext()) console.log(it.next())`: the
      values it logs are exactly the remaining items, in order. */
  method Drain<T>(it: Iterator<T>) returns (out: seq<T>, last: Iterator<T>)
    requires Valid(it)
    ensures out == it.items[it.index..]
    ensures !HasNext(last) && last.items == it.items
  {
    out := [];
    last := it;
    while HasNext(last)
      invariant last.items == it.items
      invariant it.index <= last.index <= |it.items|
      invariant out == it.items[it.index..last.index]
      decreases |last.items| - last.index
    {
      var s := Next(last);
      out := out + [s.value.value];
      last := s.after;
    }
  }

  /** Draining a fresh iterator yields every added item once, in insertion order. */
  method DrainCollection<T>(c: Collection<T>) returns (out: seq<T>)
    ensures out == c.items
  {
    var last;
    out, last := Drain(CreateIterator(c));
  }

  /** The client run over three added items. */
  method ClientRun() returns (out: seq<string>)
    ensures out == ["Item 1", "Item 2", "Item 3"]
  {
    var c := AddItem(AddItem(AddItem(NewCollection(), "Item 1"), "Item 2"), "Item 3");
    out := DrainCollection(c);
  }
}

/** The unguarded iterator: `next` always increments the index and answers
    `undefined` (here `None`) past the end. */
module UnguardedIterator {
  import opened Outcomes

  datatype Iterator<T> = Iterator(items: seq<T>, index: nat)

  datatype Stepped<T> = Stepped(value: Option<T>, after: Iterator<T>)

  function CreateIterator<T>(items: seq<T>): (it: Iterator<T>)
    ensures it.items == items && it.index == 0
  {
    Iterator(items, 0)
  }

  function HasNext<T>(it: Iterator<T>): (b: bool)
    ensures b <==> it.index < |it.items|
  {
    it.index < |it.items|
  }

  /** `next`: reads `items[index++]`, whatever the index. */
  function Next<T>(it: Iterator<T>): (s: Stepped<T>)
    ensures s.after.items == it.items && s.after.index == it.index + 1
    ensures HasNext(it) ==> s.value == Some(it.items[it.index])
    ensures !HasNext(it) ==> s.value == None
  {
    Stepped(if it.index < |it.items| then Some(it.items[it.index]) else None,
            Iterator(it.items, it.index + 1))
  }

  /** `next` called n times, discarding the values. */
  function Advance<T>(it: Iterator<T>, n: nat): Iterator<T>
    decreases n
  {
    if n == 0 then it else Advance(Next(it).after, n - 1)
  }

  /** Past the end, every further `next` still moves the index while
      `hasNext` stays false and the value stays `undefined`. */
  lemma {:induction false} PastEndKeepsMoving<T>(it: Iterator<T>, n: nat)
    requires !HasNext(it)
    ensures Advance(it, n).index == it.index + n
    ensures !HasNext(Advance(it, n)) && Next(Advance(it, n)).value == None
    decreases n
  {
    if n > 0 {
      PastEndKeepsMoving(Next(it).after, n - 1);
    }
  }

  /** The client loop: logs exactly the items, in order, and stops at the end. */
  method Drain<T>(items: seq<T>) returns (out: seq<T>, last: Iterator<T>)
    ensures out == items
    ensures last.index == |items|
  {
    out := [];
    last := CreateIterator(items);
    while HasNext(last)
      invariant last.items == items && last.index <= |items|
      invariant out == items[..last.index]
      decreases |items| - last.index
    {
      var s := Next(last);
      out := out + [s.value.value];
      last := s.after;
    }
  }
}
