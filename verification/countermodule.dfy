/** Revealing module: a private count behind increment, decrement and
    getCount. */
module CounterModule {

  datatype Counter = Counter(count: int)

  function New(): (c: Counter)
    ensures c.count == 0
  {
    Counter(0)
  }

  function Increment(c: Counter): (r: Counter)
    ensures r.count == c.count + 1
  {
    Counter(c.count + 1)
  }

  function Decrement(c: Counter): (r: Counter)
    ensures r.count == c.count - 1
  {
    Counter(c.count - 1)
  }

  /** `getCount` reads; the counter is not a result, so it cannot change. */
  function GetCount(c: Counter): (n: int)
    ensures n == c.count
  {
    c.count
  }

  datatype Op = Inc | Dec

  function Run(ops: seq<Op>): Counter
  {
    if |ops| == 0 then New()
    else
      var c := Run(ops[..|ops| - 1]);
      if ops[|ops| - 1] == Inc then Increment(c) else Decrement(c)
  }

  function Occurrences(ops: seq<Op>, op: Op): nat
  {
    if |ops| == 0 then 0
    else Occurrences(ops[..|ops| - 1], op) + (if ops[|ops| - 1] == op then 1 else 0)
  }

  /** The count is always #increments - #decrements. */
  lemma {:induction false} CountIsBalance(ops: seq<Op>)
    ensures GetCount(Run(ops)) == Occurrences(ops, Inc) - Occurrences(ops, Dec)
  {
    if |ops| > 0 {
      CountIsBalance(ops[..|ops| - 1]);
    }
  }

  /** The client run: inc, inc, dec gives 1. */
  lemma ClientRun()
    ensures GetCount(Decrement(Increment(Increment(New())))) == 1
  {
  }
}
