/** The subject side shared by both observer examples: an ordered list of
    observer ids (ids stand for object references) with `push`-append,
    `indexOf`/`splice` removal and a `forEach` broadcast. `A` is the argument
    tuple passed to `update`. */
module ObserverList {
  import Seqs
  import opened Broadcasts

  datatype Subject = Subject(observers: seq<Id>)

  function New(): (s: Subject)
    ensures s.observers == []
  {
    Subject([])
  }

  /** `addObserver`: push at the end. */
  function AddObserver(s: Subject, o: Id): (r: Subject)
    ensures r.observers == s.observers + [o]
  {
    Subject(s.observers + [o])
  }

  /** `removeObserver`: splice out the first occurrence, if any. */
  function RemoveObserver(s: Subject, o: Id): (r: Subject)
    ensures o !in s.observers ==> r == s
    ensures o in s.observers ==>
      exists i :: (0 <= i < |s.observers| && s.observers[i] == o &&
                   o !in s.observers[..i] && r.observers == s.observers[..i] + s.observers[i + 1..])
  {
    Subject(Seqs.RemoveFirst(s.observers, o))
  }

  /** `notifyObservers`: one `update` per list entry, in list order, all with
      the same arguments. */
  function Notify<A>(s: Subject, args: A): (calls: seq<Delivery<A>>)
    ensures |calls| == |s.observers|
    ensures forall i :: 0 <= i < |calls| ==> calls[i] == Delivery(s.observers[i], args)
  {
    Broadcast(s.observers, args)
  }

  /** An observer is updated as many times as it appears in the list; an
      observer added once is updated exactly once. */
  lemma {:induction false} DeliveriesPerObserver<A>(os: seq<Id>, o: Id, args: A)
    ensures Seqs.Count(Broadcast(os, args), Delivery(o, args)) == Seqs.Count(os, o)
  {
    if |os| > 0 {
      DeliveriesPerObserver(os[1..], o, args);
      assert Broadcast(os, args)[1..] == Broadcast(os[1..], args);
    }
  }

  /** Adding then removing a fresh observer restores the list, and the
      broadcast goes back to what it was. */
  lemma AddThenRemove<A>(s: Subject, o: Id, args: A)
    requires o !in s.observers
    ensures RemoveObserver(AddObserver(s, o), o) == s
    ensures Notify(RemoveObserver(AddObserver(s, o), o), args) == Notify(s, args)
  {
    Seqs.PushThenRemove(s.observers, o);
  }
}

/** Stock market: `StockMarketDisplay` keeps the last price of each stock,
    `NewsFeed` only prints; `setStockPrice` is a plain `notifyObservers`. */
module StockMarket {
  import ObserverList
  import Broadcasts

  type Id = Broadcasts.Id

  datatype Observer = Display(stocks: map<string, int>) | NewsFeed

  /** The objects the ids in a subject refer to. */
  type World = map<Id, Observer>

  datatype Args = Args(stockName: string, price: int)

  /** `update` of each concrete observer. */
  function Update(o: Observer, a: Args): (r: Observer)
    ensures o.NewsFeed? ==> r == o
    ensures o.Display? ==> r.Display? && r.stocks.Keys == o.stocks.Keys + {a.stockName}
    ensures o.Display? ==> r.stocks[a.stockName] == a.price
    ensures o.Display? ==> forall k :: k in o.stocks && k != a.stockName ==> r.stocks[k] == o.stocks[k]
  {
    match o
    case Display(stocks) => Display(stocks[a.stockName := a.price])
    case NewsFeed => NewsFeed
  }

  /** Receiving the same update twice is the same as receiving it once. */
  lemma UpdateIdempotent(o: Observer, a: Args)
    ensures Update(Update(o, a), a) == Update(o, a)
  {
  }

  /** `notifyObservers`: the `forEach` loop, returning the calls it made and
      the objects after the calls. Every listed observer has been updated;
      the others are untouched. */
  method NotifyObservers(s: ObserverList.Subject, w: World, a: Args)
    returns (calls: seq<Broadcasts.Delivery<Args>>, w': World)
    requires forall o :: o in s.observers ==> o in w
    ensures calls == ObserverList.Notify(s, a)
    ensures w'.Keys == w.Keys
    ensures forall o :: o in w && o in s.observers ==> w'[o] == Update(w[o], a)
    ensures forall o :: o in w && o !in s.observers ==> w'[o] == w[o]
  {
    calls := [];
    w' := w;
    var i := 0;
    while i < |s.observers|
      invariant 0 <= i <= |s.observers|
      invariant calls == Broadcasts.Broadcast(s.observers[..i], a)
      invariant w'.Keys == w.Keys
      invariant forall o :: o in w && o in s.observers[..i] ==> w'[o] == Update(w[o], a)
      invariant forall o :: o in w && o !in s.observers[..i] ==> w'[o] == w[o]
    {
      var o := s.observers[i];
      UpdateIdempotent(w[o], a);
      BroadcastSnoc(s.observers[..i], o, a);
      assert s.observers[..i + 1] == s.observers[..i] + [o];
      calls := calls + [Broadcasts.Delivery(o, a)];
      w' := w'[o := Update(w'[o], a)];
      i := i + 1;
    }
    assert s.observers[..i] == s.observers;
  }

  lemma BroadcastSnoc(os: seq<Id>, o: Id, a: Args)
    ensures Broadcasts.Broadcast(os + [o], a) == Broadcasts.Broadcast(os, a) + [Broadcasts.Delivery(o, a)]
  {
  }

  /** `setStockPrice` is exactly `notifyObservers` with the same arguments. */
  method SetStockPrice(s: ObserverList.Subject, w: World, name: string, price: int)
    returns (calls: seq<Broadcasts.Delivery<Args>>, w': World)
    requires forall o :: o in s.observers ==> o in w
    ensures |calls| == |s.observers|
    ensures forall i :: 0 <= i < |calls| ==>
      (calls[i].to == s.observers[i] && calls[i].args == Args(name, price))
    ensures w'.Keys == w.Keys
    ensures forall o :: o in w && o in s.observers ==> w'[o] == Update(w[o], Args(name, price))
    ensures forall o :: o in w && o !in s.observers ==> w'[o] == w[o]
  {
    calls, w' := NotifyObservers(s, w, Args(name, price));
  }

  /** The client run: display (id 0) and news feed (id 1), then AAPL 150 and
      GOOG 2800; the display ends up knowing both prices. */
  method ClientRun() returns (w: World)
    ensures w.Keys == {0, 1}
    ensures w[0] == Display(map["AAPL" := 150, "GOOG" := 2800])
    ensures w[1] == NewsFeed
  {
    var s := ObserverList.AddObserver(ObserverList.AddObserver(ObserverList.New(), 0), 1);
    w := map[0 := Display(map[]), 1 := NewsFeed];
    var calls;
    calls, w := SetStockPrice(s, w, "AAPL", 150);
    assert s.observers == [0, 1];
    calls, w := SetStockPrice(s, w, "GOOG", 2800);
  }
}

/** Weather station: both observers are stateless printers; the station has
    the same add/remove/notify list semantics. */
module WeatherStation {
  import ObserverList
  import Broadcasts

  type Id = Broadcasts.Id

  datatype Observer = TemperatureDisplay | MobileApp

  /** The console line each observer prints, by kind and temperature. */
  datatype Line = CurrentTemperature(t: int) | MobileNotification(t: int)

  function Update(o: Observer, temperature: int): (l: Line)
    ensures l.t == temperature
    ensures o.TemperatureDisplay? <==> l.CurrentTemperature?
  {
    match o
    case TemperatureDisplay => CurrentTemperature(temperature)
    case MobileApp => MobileNotification(temperature)
  }

  /** `setTemperature` = `notifyObservers(temperature)`: the lines printed, one
      per listed observer, in list order. */
  method SetTemperature(s: ObserverList.Subject, w: map<Id, Observer>, temperature: int)
    returns (lines: seq<Line>)
    requires forall o :: o in s.observers ==> o in w
    ensures |lines| == |s.observers|
    ensures forall i :: 0 <= i < |lines| ==> lines[i] == Update(w[s.observers[i]], temperature)
  {
    lines := [];
    var i := 0;
    while i < |s.observers|
      invariant 0 <= i <= |s.observers|
      invariant |lines| == i
      invariant forall k :: 0 <= k < i ==> lines[k] == Update(w[s.observers[k]], temperature)
    {
      lines := lines + [Update(w[s.observers[i]], temperature)];
      i := i + 1;
    }
  }

  /** The client run: two observers, temperatures 25 then 30. */
  method ClientRun() returns (first: seq<Line>, second: seq<Line>)
    ensures first == [CurrentTemperature(25), MobileNotification(25)]
    ensures second == [CurrentTemperature(30), MobileNotification(30)]
  {
    var s := ObserverList.AddObserver(ObserverList.AddObserver(ObserverList.New(), 0), 1);
    var w := map[0 := TemperatureDisplay, 1 := MobileApp];
    first := SetTemperature(s, w, 25);
    second := SetTemperature(s, w, 30);
  }
}
