/** Redux counter: a pure reducer over a number. An `undefined` state (the
    store's first call) defaults to 0; unknown action types leave the state. */
module ReduxCounter {
  import opened Outcomes

  const INCREMENT: string := "INCREMENT"
  const DECREMENT: string := "DECREMENT"

  /** An action object; only its `type` is read. */
  datatype Action = Action(kind: string)

  function Increment(): (a: Action)
    ensures a.kind == INCREMENT
  {
    Action(INCREMENT)
  }

  function Decrement(): (a: Action)
    ensures a.kind == DECREMENT
  {
    Action(DECREMENT)
  }

  /** `counterReducer(state = 0, action)`; `None` is an `undefined` state. */
  function CounterReducer(state: Option<int>, action: Action): (r: int)
    ensures action.kind == INCREMENT ==> r == state.GetOr(0) + 1
    ensures action.kind == DECREMENT ==> r == state.GetOr(0) - 1
    ensures action.kind != INCREMENT && action.kind != DECREMENT ==> r == state.GetOr(0)
  {
    var s := state.GetOr(0);
    if action.kind == INCREMENT then s + 1
    else if action.kind == DECREMENT then s - 1
    else s
  }

  /** INCREMENT and DECREMENT undo each other, in either order. */
  lemma IncrementDecrementCancel(n: int)
    ensures CounterReducer(Some(CounterReducer(Some(n), Increment())), Decrement()) == n
    ensures CounterReducer(Some(CounterReducer(Some(n), Decrement())), Increment()) == n
  {
  }

  /** Folding a list of actions from the initial `undefined` state. */
  function Run(actions: seq<Action>): int
  {
    if |actions| == 0 then 0
    else CounterReducer(Some(Run(actions[..|actions| - 1])), actions[|actions| - 1])
  }

  function CountKind(actions: seq<Action>, kind: string): nat
  {
    if |actions| == 0 then 0
    else CountKind(actions[..|actions| - 1], kind) + (if actions[|actions| - 1].kind == kind then 1 else 0)
  }

  /** The state is always #increments - #decrements. */
  lemma {:induction false} RunCountsActions(actions: seq<Action>)
    ensures Run(actions) == CountKind(actions, INCREMENT) - CountKind(actions, DECREMENT)
  {
    if |actions| > 0 {
      RunCountsActions(actions[..|actions| - 1]);
    }
  }
}

/** Redux todo list: ADD_TODO appends a todo whose id is the old length;
    TOGGLE_TODO flips `completed` on every todo whose id matches. */
module ReduxTodo {
  import opened Outcomes

  const ADD_TODO: string := "ADD_TODO"
  const TOGGLE_TODO: string := "TOGGLE_TODO"

  datatype Todo = Todo(id: int, text: Option<string>, completed: bool)

  /** An action object: `type` plus the optional `text` and `id` fields
      (`None` when the field is absent, that is `undefined`). */
  datatype Action = Action(kind: string, text: Option<string>, id: Option<int>)

  function AddTodo(text: string): (a: Action)
    ensures a.kind == ADD_TODO && a.text == Some(text) && a.id.None?
  {
    Action(ADD_TODO, Some(text), None)
  }

  function ToggleTodo(id: int): (a: Action)
    ensures a.kind == TOGGLE_TODO && a.id == Some(id) && a.text.None?
  {
    Action(TOGGLE_TODO, None, Some(id))
  }

  /** `todo.id === action.id ? {...todo, completed: !todo.completed} : todo`
      over the whole list. */
  function ToggleAll(state: seq<Todo>, id: Option<int>): (r: seq<Todo>)
    ensures |r| == |state|
    ensures forall i :: 0 <= i < |r| ==> r[i].id == state[i].id && r[i].text == state[i].text
    ensures forall i :: 0 <= i < |r| ==>
      r[i].completed == (if id == Some(state[i].id) then !state[i].completed else state[i].completed)
  {
    if |state| == 0 then []
    else
      var t := state[0];
      var rest := ToggleAll(state[1..], id);
      var r := [if id == Some(t.id) then t.(completed := !t.completed) else t] + rest;
      assert forall i | 1 <= i < |r| :: r[i] == rest[i - 1] && state[i] == state[1..][i - 1];
      r
  }

  /** `todoReducer(state = [], action)`. */
  function TodoReducer(state: Option<seq<Todo>>, action: Action): (r: seq<Todo>)
    ensures action.kind == ADD_TODO ==>
      var s := state.GetOr([]);
      |r| == |s| + 1 && r[..|s|] == s && r[|s|] == Todo(|s|, action.text, false)
    ensures action.kind == TOGGLE_TODO ==> r == ToggleAll(state.GetOr([]), action.id)
    ensures action.kind != ADD_TODO && action.kind != TOGGLE_TODO ==> r == state.GetOr([])
  {
    var s := state.GetOr([]);
    if action.kind == ADD_TODO then s + [Todo(|s|, action.text, false)]
    else if action.kind == TOGGLE_TODO then ToggleAll(s, action.id)
    else s
  }

  /** Toggling the same id twice is the identity. */
  lemma {:induction false} ToggleTwice(state: seq<Todo>, id: Option<int>)
    ensures ToggleAll(ToggleAll(state, id), id) == state
  {
    var r := ToggleAll(ToggleAll(state, id), id);
    assert |r| == |state|;
    forall i | 0 <= i < |r|
      ensures r[i] == state[i]
    {
    }
  }

  /** Toggling an id no todo carries changes nothing. */
  lemma {:induction false} ToggleAbsent(state: seq<Todo>, id: int)
    requires forall i :: 0 <= i < |state| ==> state[i].id != id
    ensures ToggleAll(state, Some(id)) == state
  {
    var r := ToggleAll(state, Some(id));
    forall i | 0 <= i < |r|
      ensures r[i] == state[i]
    {
    }
  }

  /** n ADD_TODOs from the initial state. */
  function AddAll(texts: seq<string>): seq<Todo>
  {
    if |texts| == 0 then []
    else TodoReducer(Some(AddAll(texts[..|texts| - 1])), AddTodo(texts[|texts| - 1]))
  }

  /** Starting from [] and adding n todos gives ids 0..n-1, in order, with
      the given texts, none completed. */
  lemma {:induction false} AddAllIds(texts: seq<string>)
    ensures |AddAll(texts)| == |texts|
    ensures forall i :: 0 <= i < |texts| ==> AddAll(texts)[i] == Todo(i, Some(texts[i]), false)
  {
    if |texts| > 0 {
      var init := texts[..|texts| - 1];
      AddAllIds(init);
      var r := AddAll(texts);
      forall i | 0 <= i < |texts|
        ensures r[i] == Todo(i, Some(texts[i]), false)
      {
        if i < |init| {
          assert r[i] == r[..|init|][i];
          assert texts[i] == init[i];
        }
      }
    }
  }
}
