/** Payment strategies: a cart sums its item prices and pays the total once
    through the strategy it was built with. */
module PaymentStrategies {
  import opened Outcomes

  datatype Item = Item(name: string, price: int)

  datatype Strategy = BaseStrategy | CreditCard | PayPal | BankTransfer

  datatype Cart = Cart(items: seq<Item>, strategy: Strategy)

  /** The one `pay(amount)` call made by `checkout`. */
  datatype Payment = Payment(amount: int, via: Strategy)

  /** Reference definition: the sum of the item prices. */
  function Sum(items: seq<Item>): int
  {
    if |items| == 0 then 0 else Sum(items[..|items| - 1]) + items[|items| - 1].price
  }

  function NewCart(s: Strategy): (c: Cart)
    ensures c.items == [] && c.strategy == s
  {
    Cart([], s)
  }

  /** `addItem`: push at the end. */
  function AddItem(c: Cart, item: Item): (r: Cart)
    ensures r.items == c.items + [item] && r.strategy == c.strategy
    ensures Sum(r.items) == Sum(c.items) + item.price
  {
    assert (c.items + [item])[..|c.items|] == c.items;
    Cart(c.items + [item], c.strategy)
  }

  /** `calculateTotalAmount`: the `reduce` from 0. */
  method CalculateTotalAmount(c: Cart) returns (total: int)
    ensures total == Sum(c.items)
    ensures c.items == [] ==> total == 0
  {
    total := 0;
    var i := 0;
    while i < |c.items|
      invariant 0 <= i <= |c.items|
      invariant total == Sum(c.items[..i])
    {
      assert c.items[..i + 1][..i] == c.items[..i];
      total := total + c.items[i].price;
      i := i + 1;
    }
    assert c.items[..i] == c.items;
  }

  /** `checkout`: pay the total through the cart's strategy; the abstract
      strategy throws. The cart itself is not changed. */
  method Checkout(c: Cart) returns (r: Result<Payment>)
    ensures c.strategy.BaseStrategy? <==> r.Err?
    ensures r.Err? ==> r.message == "pay method must be implemented"
    ensures r.Ok? ==> r.value == Payment(Sum(c.items), c.strategy)
  {
    var total := CalculateTotalAmount(c);
    if c.strategy.BaseStrategy? {
      r := Err("pay method must be implemented");
    } else {
      r := Ok(Payment(total, c.strategy));
    }
  }

  /** The client run: 50 + 30 by credit card, 25 + 40 by PayPal. */
  method ClientRun() returns (p1: Result<Payment>, p2: Result<Payment>)
    ensures p1 == Ok(Payment(80, CreditCard))
    ensures p2 == Ok(Payment(65, PayPal))
  {
    var cart1 := AddItem(AddItem(NewCart(CreditCard), Item("Item 1", 50)), Item("Item 2", 30));
    p1 := Checkout(cart1);
    var cart2 := AddItem(AddItem(NewCart(PayPal), Item("Item 3", 25)), Item("Item 4", 40));
    p2 := Checkout(cart2);
  }
}

/** Sorting strategies: the three concrete strategies are stubs that log a
    line and hand the input back unchanged. */
module SortingStrategies {
  import opened Outcomes

  datatype Strategy = BaseStrategy | BubbleSort | QuickSort | MergeSort

  datatype Sorted = Sorted(values: seq<int>, line: string)

  function StrategyName(s: Strategy): string
  {
    match s
    case BaseStrategy => ""
    case BubbleSort => "Bubble Sort"
    case QuickSort => "Quick Sort"
    case MergeSort => "Merge Sort"
  }

  /** Each strategy's `sort`. */
  function StrategySort(s: Strategy, values: seq<int>): (r: Result<Sorted>)
    ensures s.BaseStrategy? <==> r.Err?
    ensures r.Err? ==> r.message == "sort method must be implemented"
    ensures r.Ok? ==> r.value.values == values
    ensures r.Ok? ==> r.value.line == "Sorting array using " + StrategyName(s)
  {
    if s.BaseStrategy? then Err("sort method must be implemented")
    else Ok(Sorted(values, "Sorting array using " + StrategyName(s)))
  }

  /** `Sorter.sort`: whatever the strategy returns. */
  function SorterSort(strategy: Strategy, values: seq<int>): (r: Result<Sorted>)
    ensures r == StrategySort(strategy, values)
  {
    StrategySort(strategy, values)
  }

  predicate IsSorted(a: seq<int>)
  {
    forall i, j :: 0 <= i < j < |a| ==> a[i] <= a[j]
  }

  /** The stubs do not sort: the client's first array comes back unsorted. */
  lemma StubsDoNotSort(s: Strategy)
    requires !s.BaseStrategy?
    ensures SorterSort(s, [5, 2, 9, 1, 5]).Ok?
    ensures !IsSorted(SorterSort(s, [5, 2, 9, 1, 5]).value.values)
  {
    var a := SorterSort(s, [5, 2, 9, 1, 5]).value.values;
    assert a[0] > a[1];
  }
}
