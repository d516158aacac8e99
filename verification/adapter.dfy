/** Class adapter: `request` logs its translation and calls the adaptee's
    `specificRequest` exactly once; the abstract target throws. */
module RequestAdapter {
  import opened Outcomes
  import Seqs

  datatype Line = Translating | SpecificRequest

  datatype Target = BaseTarget | Adapter

  /** `request`: the lines it adds to the console. */
  function Request(t: Target, log: seq<Line>): (r: Result<seq<Line>>)
    ensures t.BaseTarget? <==> r.Err?
    ensures r.Err? ==> r.message == "request method must be implemented"
    ensures r.Ok? ==> r.value == log + [Translating, SpecificRequest]
  {
    match t
    case BaseTarget => Err("request method must be implemented")
    case Adapter => Ok(log + [Translating, SpecificRequest])
  }

  /** Each adapted request reaches the adaptee exactly once. */
  lemma OneSpecificRequestPerRequest(log: seq<Line>)
    ensures Seqs.Count(Request(Adapter, log).value, SpecificRequest) == Seqs.Count(log, SpecificRequest) + 1
  {
    var added := [Translating, SpecificRequest];
    Seqs.CountAppend(log, added, SpecificRequest);
    assert added[1..] == [SpecificRequest];
    assert [SpecificRequest][1..] == [];
  }

  /** The client run: one request through the adapter prints the translating
      line and then the adaptee's line. */
  lemma ClientRun()
    ensures Request(Adapter, []) == Ok([Translating, SpecificRequest])
  {
    assert [] + [Translating, SpecificRequest] == [Translating, SpecificRequest];
  }
}

/** Data fetching adapter: normalises a legacy `{result}` and a modern
    `{data}` response into `{result}`; for any other API it falls off the
    end of the method and returns `undefined`. */
module DataFetchAdapter {
  import opened Outcomes

  datatype Api = LegacyApi | ModernApi | OtherApi

  /** `{ result: ... }`. */
  datatype Normalised = Normalised(result: string)

  /** `LegacyApi.fetchData()` yields `{result: "Legacy Data"}`. */
  function LegacyFetchData(): (r: string)
    ensures r == "Legacy Data"
  {
    "Legacy Data"
  }

  /** `ModernApi.fetch()` yields `{data: "Modern Data"}`. */
  function ModernFetch(): (r: string)
    ensures r == "Modern Data"
  {
    "Modern Data"
  }

  /** `DataAdapter.fetchData`: dispatch on `instanceof`. */
  function FetchData(api: Api): (r: Option<Normalised>)
    ensures api.OtherApi? <==> r.None?
    ensures api.LegacyApi? ==> r == Some(Normalised(LegacyFetchData()))
    ensures api.ModernApi? ==> r == Some(Normalised(ModernFetch()))
  {
    match api
    case LegacyApi => Some(Normalised(LegacyFetchData()))
    case ModernApi => Some(Normalised(ModernFetch()))
    case OtherApi => None
  }

  /** Both known APIs come out in the same shape, with different contents. */
  lemma KnownApisNormalised()
    ensures FetchData(LegacyApi) == Some(Normalised("Legacy Data"))
    ensures FetchData(ModernApi) == Some(Normalised("Modern Data"))
    ensures FetchData(LegacyApi) != FetchData(ModernApi)
  {
    assert "Legacy Data"[0] != "Modern Data"[0];
  }
}

/** Charting adapter: turns the provider's numbers into `{y: value}` points. */
module ChartAdapter {

  datatype Point = Point(y: int)

  /** `DataProvider.getData`. */
  function GetData(): (d: seq<int>)
    ensures |d| == 5 && forall i :: 0 <= i < 5 ==> d[i] == 10 * (i + 1)
  {
    [10, 20, 30, 40, 50]
  }

  /** `getFormattedData`: `rawData.map(value => ({ y: value }))`. */
  method GetFormattedData(raw: seq<int>) returns (points: seq<Point>)
    ensures |points| == |raw|
    ensures forall i :: 0 <= i < |raw| ==> points[i] == Point(raw[i])
  {
    points := [];
    var i := 0;
    while i < |raw|
      invariant 0 <= i <= |raw|
      invariant |points| == i
      invariant forall k :: 0 <= k < i ==> points[k] == Point(raw[k])
    {
      points := points + [Point(raw[i])];
      i := i + 1;
    }
  }

  /** Points map back to the raw values. */
  function Values(points: seq<Point>): (vs: seq<int>)
    ensures |vs| == |points| && forall i :: 0 <= i < |points| ==> vs[i] == points[i].y
  {
    if |points| == 0 then [] else [points[0].y] + Values(points[1..])
  }

  /** Formatting loses nothing: reading `y` back gives the raw data. */
  method FormattedRoundTrip(raw: seq<int>) returns (back: seq<int>)
    ensures back == raw
  {
    var points := GetFormattedData(raw);
    back := Values(points);
  }

  /** The client run: five points 10..50. */
  method ClientRun() returns (points: seq<Point>)
    ensures points == [Point(10), Point(20), Point(30), Point(40), Point(50)]
  {
    points := GetFormattedData(GetData());
  }
}
