/** Flux: one dispatcher with registered callbacks. The store's
    `handleAction` and the console `render` view are the two callbacks of
    the example; `dispatch` calls each one with the action, in registration
    order. */
module FluxDispatcher {

  const ADD_TODO: string := "ADD_TODO"

  datatype Action = Action(kind: string, payload: string)

  /** The callbacks the example registers. */
  datatype Callback = StoreHandler | Render

  datatype Dispatcher = Dispatcher(callbacks: seq<Callback>)

  /** What the callbacks act on: the store's todos and each list `render`
      printed. */
  datatype World = World(todos: seq<string>, rendered: seq<seq<string>>)

  /** One callback invocation recorded by `dispatch`. */
  datatype Invocation = Invocation(callback: Callback, action: Action)

  /** `addTodo(text)`. */
  function AddTodo(text: string): (a: Action)
    ensures a.kind == ADD_TODO && a.payload == text
  {
    Action(ADD_TODO, text)
  }

  /** `register`: push the callback. */
  function Register(d: Dispatcher, cb: Callback): (r: Dispatcher)
    ensures r.callbacks == d.callbacks + [cb]
  {
    Dispatcher(d.callbacks + [cb])
  }

  /** `TodoStore.handleAction`: push the payload for ADD_TODO; the switch has
      no default, so other types do nothing. */
  function HandleAction(todos: seq<string>, a: Action): (r: seq<string>)
    ensures a.kind == ADD_TODO ==> |r| == |todos| + 1 && r[..|todos|] == todos && r[|todos|] == a.payload
    ensures a.kind != ADD_TODO ==> r == todos
  {
    if a.kind == ADD_TODO then todos + [a.payload] else todos
  }

  /** Running one callback. */
  function Call(cb: Callback, w: World, a: Action): (r: World)
    ensures cb.StoreHandler? ==> r == World(HandleAction(w.todos, a), w.rendered)
    ensures cb.Render? ==> r.todos == w.todos && r.rendered == w.rendered + [w.todos]
  {
    match cb
    case StoreHandler => w.(todos := HandleAction(w.todos, a))
    case Render => w.(rendered := w.rendered + [w.todos])
  }

  /** Reference semantics: the callbacks applied left to right. */
  function CallAll(cbs: seq<Callback>, w: World, a: Action): World
  {
    if |cbs| == 0 then w else Call(cbs[|cbs| - 1], CallAll(cbs[..|cbs| - 1], w, a), a)
  }

  /** `dispatch(action)`: the `forEach` over the callbacks. Every registered
      callback is invoked exactly once, in registration order, with the same
      action. */
  method Dispatch(d: Dispatcher, w: World, a: Action) returns (trace: seq<Invocation>, w': World)
    ensures |trace| == |d.callbacks|
    ensures forall i :: 0 <= i < |trace| ==> trace[i] == Invocation(d.callbacks[i], a)
    ensures w' == CallAll(d.callbacks, w, a)
  {
    trace := [];
    w' := w;
    var i := 0;
    while i < |d.callbacks|
      invariant 0 <= i <= |d.callbacks|
      invariant |trace| == i
      invariant forall k :: 0 <= k < i ==> trace[k] == Invocation(d.callbacks[k], a)
      invariant w' == CallAll(d.callbacks[..i], w, a)
    {
      assert d.callbacks[..i + 1][..i] == d.callbacks[..i];
      trace := trace + [Invocation(d.callbacks[i], a)];
      w' := Call(d.callbacks[i], w', a);
      i := i + 1;
    }
    assert d.callbacks[..i] == d.callbacks;
  }

  /** The example's wiring: the store registers before `render`, so `render`
      already sees a dispatched todo. */
  method ClientRun() returns (w: World)
    ensures w.todos == ["Buy groceries"]
    ensures w.rendered == [["Buy groceries"]]
  {
    var d := Register(Register(Dispatcher([]), StoreHandler), Render);
    var trace;
    assert d.callbacks == [StoreHandler, Render];
    trace, w := Dispatch(d, World([], []), AddTodo("Buy groceries"));
    StoreBeforeRender(World([], []), "Buy groceries");
  }

  /** In general: with the store registered before `render`, each dispatched
      ADD_TODO is already in the todos `render` prints. */
  lemma StoreBeforeRender(w: World, text: string)
    ensures CallAll([StoreHandler, Render], w, AddTodo(text)).rendered ==
      w.rendered + [w.todos + [text]]
  {
    var a := AddTodo(text);
    var cbs := [StoreHandler, Render];
    assert cbs[..1] == [StoreHandler];
    assert cbs[..1][..0] == [];
    assert CallAll(cbs[..1][..0], w, a) == w;
    var w1 := CallAll(cbs[..1], w, a);
    assert w1 == Call(StoreHandler, w, a);
    assert w1.todos == w.todos + [text];
    assert CallAll(cbs, w, a) == Call(Render, w1, a);
  }
}

/** Flux with a Redux store: a reducer that appends the payload. */
module FluxReducer {
  import opened Outcomes

  const ADD_TODO: string := "ADD_TODO"

  datatype Action = Action(kind: string, payload: string)

  function AddTodo(text: string): (a: Action)
    ensures a.kind == ADD_TODO && a.payload == text
  {
    Action(ADD_TODO, text)
  }

  /** `todoReducer(state = [], action)`: a new list with the payload at the
      end for ADD_TODO, the same state otherwise. */
  function TodoReducer(state: Option<seq<string>>, a: Action): (r: seq<string>)
    ensures a.kind == ADD_TODO ==>
      |r| == |state.GetOr([])| + 1 && r[..|state.GetOr([])|] == state.GetOr([]) && r[|r| - 1] == a.payload
    ensures a.kind != ADD_TODO ==> r == state.GetOr([])
  {
    var s := state.GetOr([]);
    if a.kind == ADD_TODO then s + [a.payload] else s
  }

  /** A run of ADD_TODOs from the initial state lists the payloads in order. */
  function AddAll(texts: seq<string>): seq<string>
  {
    if |texts| == 0 then [] else TodoReducer(Some(AddAll(texts[..|texts| - 1])), AddTodo(texts[|texts| - 1]))
  }

  lemma {:induction false} AddAllKeepsOrder(texts: seq<string>)
    ensures AddAll(texts) == texts
  {
    if |texts| > 0 {
      AddAllKeepsOrder(texts[..|texts| - 1]);
      assert texts == texts[..|texts| - 1] + [texts[|texts| - 1]];
    }
  }
}
