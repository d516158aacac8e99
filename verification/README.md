# Design-pattern demos, modelled in Dafny

The repository is a collection of small JavaScript demonstrations of design
patterns: behavioural, creational and structural ones, plus a few
architectural ones. Each source file holds two or three unrelated examples.
This project models the sequential logic of every such example as an
immutable Dafny datatype with pure step functions, one Dafny module per
example:

- a `state.dfy` holds `TrafficLight` and `FanSpeed`, both from `BehavioralPatterns/State.js`;
- a `redux.dfy` holds `ReduxCounter` and `ReduxTodo`, both from `ArchitecturalPatterns/Redux.js`;
- the other files follow the same scheme.

Conventions used throughout:

- **Object identity.** JavaScript compares objects by reference in `indexOf`,
  `===` and `!==`. The model gives each object an explicit id (a `nat`) and
  compares ids.
- **Missing values.** `null` and `undefined` become `Option.None`.
- **Thrown errors.** A thrown `Error` becomes `Result.Err` carrying the
  source's message. Both types are in module `Outcomes`.
- **Console output.** Where the printed lines are what an example shows,
  they are modelled as a list of lines: either a log carried in the state
  (the traffic light, the fan, the lazy proxy, the bank account, the
  connection singleton, the image pool) or the lines one operation adds
  (the class adapter's request, the weather station's updates, the light
  switch's button, the remote's power and channel, the sorting stubs, the
  directory display and the picture drawing). Drawing-command undo counts
  its printed lines. Elsewhere the model records the observable calls
  instead: observer updates, mediator deliveries, drawing calls and
  dispatcher invocations. Two printed lines are not modelled: the logger
  singleton's `Log: <message>` line (CreationalPatterns/Singleton.js:115),
  where only the stored list is, and the shape factory's `draw()` lines
  (CreationalPatterns/Factory.js:82-105), where only the fields that
  `draw()` prints are.
- **Literal client runs.** Several `ClientRun` lemmas compare the output
  with the string literals the client comments announce. Their bodies only
  spell out string or sequence equalities for the solver; they contain no
  reasoning about the model beyond the contracts they use.
- **Shared array idioms.** The `push`, `indexOf` and `splice(i, 1)` idioms
  that the observer, mediator and composite examples share are defined
  once, in module `Seqs`. The `forEach` that calls one method on every
  listener, shared by the observer and chat-room examples, is defined once,
  in module `Broadcasts`.

Every client script at the bottom of an example is restated as a lemma or
method whose contract states the final state or output that the script's
comments announce. Most are named `ClientRun`. Five have names that say
what they show: `LoggerSingleton.SharedLogs`,
`DataFetchAdapter.KnownApisNormalised`, `SortingStrategies.StubsDoNotSort`,
`UnguardedIterator.Drain` and `AreaVisitor.ClientRectangle`. The bridge
client is covered by `RemoteDevices.ClientRunAsWritten` and
`RemoteDevices.ClientRunCorrected`.

## Model

| member | source | states |
|---|---|---|
| `Seqs.IndexOf` | BehavioralPatterns/Observer.js:65-70 | `indexOf` answers -1 exactly when the element is absent; otherwise it answers the first position holding it, with no earlier occurrence |
| `Seqs.RemoveAt` | BehavioralPatterns/Observer.js:68 | `splice(index, 1)` drops exactly the element at `index`: one element shorter, the elements before it kept in place, the ones after it moved down by one |
| `Seqs.RemoveFirst` | BehavioralPatterns/Observer.js:65-70 | the `indexOf` + `splice(index, 1)` idiom: an absent element leaves the list unchanged; otherwise exactly the first occurrence is cut out, the rest keeps its order, and the multiset loses one copy |
| `Seqs.PushThenRemove` | BehavioralPatterns/Observer.js:61-70 | removing an element that was just pushed, and was not there before, restores the list |
| `TrafficLight.New` | BehavioralPatterns/State.js:65-71 | a new traffic light is in the red state with nothing printed |
| `TrafficLight.Position` | BehavioralPatterns/State.js:43-62 | each light has a place 0..2 in the red, green, yellow cycle |
| `TrafficLight.Next` | BehavioralPatterns/State.js:43-62 | each state's successor is the next place in the cycle, modulo 3 |
| `TrafficLight.Change` | BehavioralPatterns/State.js:43-79 | `change` moves one place along the cycle; it keeps the earlier log and appends exactly one line, naming the light switched to |
| `TrafficLight.PositionInjective` | BehavioralPatterns/State.js:43-62 | distinct lights have distinct places, so the place determines the light |
| `TrafficLight.ThreeChangesCycle` | BehavioralPatterns/State.js:43-79 | from any state, three changes return to that state and print three lines |
| `TrafficLight.ClientRun` | BehavioralPatterns/State.js:83-86 | the client's three changes print green, yellow, red and end in red |
| `FanSpeed.Level` | BehavioralPatterns/State.js:109-153 | the four speeds as levels 0..3 |
| `FanSpeed.New` | BehavioralPatterns/State.js:156-163 | a new fan is off with nothing printed |
| `FanSpeed.Increase` | BehavioralPatterns/State.js:109-153 | increasing takes the level to min(level+1, 3); it prints nothing exactly at high, and otherwise prints the speed reached |
| `FanSpeed.Decrease` | BehavioralPatterns/State.js:109-153 | decreasing takes the level to max(level-1, 0); it prints nothing exactly at off, and otherwise prints the speed reached |
| `FanSpeed.IncreaseSpeed` | BehavioralPatterns/State.js:169-171 | the fan delegates to its current state; increasing at high leaves the whole fan unchanged; the log only grows |
| `FanSpeed.DecreaseSpeed` | BehavioralPatterns/State.js:173-175 | decreasing at off leaves the whole fan unchanged; otherwise the level drops by one; the log only grows |
| `FanSpeed.LevelInjective` | BehavioralPatterns/State.js:109-153 | the level determines the speed |
| `FanSpeed.IncreaseThenDecrease` | BehavioralPatterns/State.js:109-153 | below high, increasing then decreasing restores the speed |
| `FanSpeed.DecreaseThenIncrease` | BehavioralPatterns/State.js:109-153 | above off, decreasing then increasing restores the speed |
| `FanSpeed.ClientRun` | BehavioralPatterns/State.js:179-183 | up, up, down, down prints low, medium, low, off and ends off |
| `ReduxCounter.Increment` | ArchitecturalPatterns/Redux.js:45 | `increment()` is an INCREMENT action |
| `ReduxCounter.Decrement` | ArchitecturalPatterns/Redux.js:46 | `decrement()` is a DECREMENT action |
| `ReduxCounter.CounterReducer` | ArchitecturalPatterns/Redux.js:49-58 | an undefined state counts as 0; INCREMENT adds 1, DECREMENT subtracts 1, and any other type returns the state |
| `ReduxCounter.IncrementDecrementCancel` | ArchitecturalPatterns/Redux.js:49-54 | INCREMENT and DECREMENT, in either order, return the original state |
| `ReduxCounter.RunCountsActions` | ArchitecturalPatterns/Redux.js:49-58 | after any action sequence from the initial state, the state is #INCREMENT - #DECREMENT |
| `ReduxTodo.AddTodo` | ArchitecturalPatterns/Redux.js:88 | `addTodo(text)` is an ADD_TODO action with that text and no id |
| `ReduxTodo.ToggleTodo` | ArchitecturalPatterns/Redux.js:89 | `toggleTodo(id)` is a TOGGLE_TODO action with that id and no text |
| `ReduxTodo.ToggleAll` | ArchitecturalPatterns/Redux.js:96-99 | the map keeps the length, every id and every text, and flips `completed` exactly on the entries whose id matches |
| `ReduxTodo.TodoReducer` | ArchitecturalPatterns/Redux.js:92-103 | an undefined state counts as []; ADD_TODO keeps every earlier entry and appends one todo `{id: old length, text, completed: false}`; TOGGLE_TODO is the matching-id flip; any other type returns the state |
| `ReduxTodo.ToggleTwice` | ArchitecturalPatterns/Redux.js:96-99 | toggling the same id twice is the identity |
| `ReduxTodo.ToggleAbsent` | ArchitecturalPatterns/Redux.js:96-99 | toggling an id no todo carries changes nothing |
| `ReduxTodo.AddAllIds` | ArchitecturalPatterns/Redux.js:92-95 | n ADD_TODOs from the initial state give ids 0..n-1, in order, with the given texts, none completed |
| `FluxDispatcher.AddTodo` | ArchitecturalPatterns/Flux.js:33-38 | `addTodo(text)` is an ADD_TODO action whose payload is the text |
| `FluxDispatcher.Register` | ArchitecturalPatterns/Flux.js:46-48 | `register` appends the callback at the end |
| `FluxDispatcher.HandleAction` | ArchitecturalPatterns/Flux.js:63-69 | ADD_TODO keeps the todos and appends the payload last; any other type leaves the todos unchanged, because the switch has no default |
| `FluxDispatcher.Call` | ArchitecturalPatterns/Flux.js:63-84 | the store callback changes only the todos; `render` changes only the printed lists, and prints the current todos |
| `FluxDispatcher.Dispatch` | ArchitecturalPatterns/Flux.js:50-52 | every registered callback is invoked exactly once, in registration order, with the same action; the final state is that of the callbacks applied left to right |
| `FluxDispatcher.StoreBeforeRender` | ArchitecturalPatterns/Flux.js:76-87 | with the store registered before `render`, a dispatched ADD_TODO is already in the list `render` prints |
| `FluxDispatcher.ClientRun` | ArchitecturalPatterns/Flux.js:76-87 | the example's single dispatch stores "Buy groceries" and renders the list holding it |
| `FluxReducer.AddTodo` | ArchitecturalPatterns/Flux.js:97-102 | the second `addTodo` builds an ADD_TODO action carrying the text as payload |
| `FluxReducer.TodoReducer` | ArchitecturalPatterns/Flux.js:105-112 | an undefined state counts as []; ADD_TODO returns a new list with the old entries, then the payload; any other type returns the state |
| `FluxReducer.AddAllKeepsOrder` | ArchitecturalPatterns/Flux.js:105-112 | ADD_TODOs from the initial state list the payloads in dispatch order |
| `ConnectionPool.New` | CreationalPatterns/ObjectPool.js:44-47 | a new pool is empty and keeps its `maxSize` |
| `ConnectionPool.Acquire` | CreationalPatterns/ObjectPool.js:49-54 | an empty pool constructs a new connection and stays empty; otherwise the most recently pooled connection is popped (LIFO) |
| `ConnectionPool.Release` | CreationalPatterns/ObjectPool.js:56-61 | below `maxSize`, the connection is closed and pushed; at or above it, the pool is unchanged and nothing is closed |
| `ConnectionPool.ApplyKeepsBounded` | CreationalPatterns/ObjectPool.js:49-61 | one acquire or release preserves "pool length <= maxSize (or empty)" |
| `ConnectionPool.BoundedFrom` | CreationalPatterns/ObjectPool.js:49-61 | from a bounded pool, any sequence of acquires and releases stays bounded |
| `ConnectionPool.AlwaysBounded` | CreationalPatterns/ObjectPool.js:44-61 | from a new pool, any sequence of acquires and releases keeps the pool within `maxSize` |
| `ConnectionPool.ReleaseThenAcquire` | CreationalPatterns/ObjectPool.js:53-59 | releasing into a non-full pool and then acquiring hands back the same connection and restores the pool |
| `ConnectionPool.FullPoolDiscards` | CreationalPatterns/ObjectPool.js:57 | a release into a full pool is discarded |
| `ConnectionPool.ClientRun` | CreationalPatterns/ObjectPool.js:65-73 | the client constructs one connection and reuses it |
| `ImagePool.New` | CreationalPatterns/ObjectPool.js:92-94 | a new image pool is empty |
| `ImagePool.GetImage` | CreationalPatterns/ObjectPool.js:96-104 | the result always has the requested src; a non-empty pool hands back its last image, retargeted, with nothing printed; an empty pool constructs a new image and prints "creating" then "loading" |
| `ImagePool.ReleaseImage` | CreationalPatterns/ObjectPool.js:106-108 | release always pushes: there is no bound |
| `ImagePool.ReleaseThenGet` | CreationalPatterns/ObjectPool.js:96-108 | release then get returns the same image object with the new src, and restores the pool |
| `ImagePool.ClientRun` | CreationalPatterns/ObjectPool.js:112-119 | the client constructs one image and then reuses it for image2.jpg |
| `GuardedIterator.NewCollection` | BehavioralPatterns/Iterator.js:35-37 | a new collection is empty |
| `GuardedIterator.AddItem` | BehavioralPatterns/Iterator.js:39-41 | `addItem` keeps the earlier items and appends the new one last |
| `GuardedIterator.CreateIterator` | BehavioralPatterns/Iterator.js:43-52 | the cursor starts at 0 over the collection's items, within bounds |
| `GuardedIterator.HasNext` | BehavioralPatterns/Iterator.js:54-56 | true iff the index is below the length |
| `GuardedIterator.Next` | BehavioralPatterns/Iterator.js:58-63 | with items left, it returns `items[index]` and advances by exactly one; when exhausted, it returns null and does not move; the index stays within 0..length |
| `GuardedIterator.Drain` | BehavioralPatterns/Iterator.js:72-75 | the `while (hasNext) next` loop yields exactly the remaining items, in order, and ends exhausted |
| `GuardedIterator.DrainCollection` | BehavioralPatterns/Iterator.js:34-75 | draining a new iterator yields every added item exactly once, in insertion order |
| `GuardedIterator.ClientRun` | BehavioralPatterns/Iterator.js:67-75 | the client logs Item 1, Item 2, Item 3 |
| `UnguardedIterator.CreateIterator` | BehavioralPatterns/Iterator.js:82-108 | the cursor starts at 0 over the items |
| `UnguardedIterator.HasNext` | BehavioralPatterns/Iterator.js:91-93 | true iff the index is below the length |
| `UnguardedIterator.Next` | BehavioralPatterns/Iterator.js:87-89 | the index always moves by one; the value is the item while items remain, and undefined past the end |
| `UnguardedIterator.PastEndKeepsMoving` | BehavioralPatterns/Iterator.js:87-93 | past the end, n more `next` calls move the index by n while `hasNext` stays false and the value stays undefined |
| `UnguardedIterator.Drain` | BehavioralPatterns/Iterator.js:112-124 | the client loop yields exactly the items, in order, and stops at the end |
| `LightSwitch.NewRemote` | BehavioralPatterns/Command.js:75-77 | a new remote holds no command |
| `LightSwitch.Execute` | BehavioralPatterns/Command.js:46-70 | the ON command runs `turnOn`, which prints exactly "Light is ON"; the OFF command runs `turnOff`, which prints exactly "Light is OFF" |
| `LightSwitch.SetCommand` | BehavioralPatterns/Command.js:79-81 | `setCommand` replaces the held command |
| `LightSwitch.PressButton` | BehavioralPatterns/Command.js:83-85 | pressing fails exactly when no command was set; otherwise the held command's line is printed once |
| `LightSwitch.PressRunsLastSet` | BehavioralPatterns/Command.js:79-85 | pressing runs exactly the command set most recently |
| `LightSwitch.CommandsDistinguishable` | BehavioralPatterns/Command.js:40-69 | the two commands print different lines, so the output identifies the command |
| `LightSwitch.ClientRun` | BehavioralPatterns/Command.js:89-98 | on one remote, setting on and pressing prints "Light is ON"; setting off and pressing again adds "Light is OFF" |
| `DrawingCommands.Run` | BehavioralPatterns/Command.js:118-138 | each draw command calls the matching receiver method with its stored (x, y) unchanged |
| `DrawingCommands.NewUser` | BehavioralPatterns/Command.js:143-145 | a new user has an empty history |
| `DrawingCommands.Execute` | BehavioralPatterns/Command.js:147-150 | `execute` pushes the command onto the history and runs it exactly once, after the earlier calls |
| `DrawingCommands.Undo` | BehavioralPatterns/Command.js:152-157 | undo removes exactly the last history entry and prints one message; with an empty history it changes nothing and prints nothing; it never touches the receiver |
| `DrawingCommands.ExecuteThenUndo` | BehavioralPatterns/Command.js:147-157 | execute then undo restores the history but not the receiver's effect |
| `DrawingCommands.ClientRun` | BehavioralPatterns/Command.js:161-170 | the client draws a circle and a rectangle, then undo leaves only the circle in the history |
| `ObserverList.New` | BehavioralPatterns/Observer.js:57-59 | a new subject has no observers |
| `ObserverList.AddObserver` | BehavioralPatterns/Observer.js:61-124 | `addObserver` appends at the end |
| `ObserverList.RemoveObserver` | BehavioralPatterns/Observer.js:65-131 | an absent observer leaves the list unchanged; otherwise only its first occurrence is removed, and the rest keeps its order |
| `ObserverList.Notify` | BehavioralPatterns/Observer.js:72-135 | one `update` per list entry, in list order, all with the same arguments |
| `Broadcasts.Broadcast` | BehavioralPatterns/Observer.js:72-74 | the `forEach` over the listeners: one call per listener, the i-th call to the i-th listener, all with the same arguments; `ChatRoom.SendMessage` uses it for Mediator.js:41-45 |
| `ObserverList.DeliveriesPerObserver` | BehavioralPatterns/Observer.js:61-74 | each observer is updated as many times as it is listed |
| `ObserverList.AddThenRemove` | BehavioralPatterns/Observer.js:61-74 | adding then removing an observer that was not listed restores both the list and the broadcast |
| `StockMarket.Update` | BehavioralPatterns/Observer.js:37-54 | the display sets `stocks[name] = price` and keeps every other name's price; the news feed keeps no state |
| `StockMarket.UpdateIdempotent` | BehavioralPatterns/Observer.js:43-45 | the same update received twice has the effect of receiving it once |
| `StockMarket.NotifyObservers` | BehavioralPatterns/Observer.js:72-74 | the loop makes exactly the broadcast's calls; every listed observer ends up updated and every other object is untouched |
| `StockMarket.SetStockPrice` | BehavioralPatterns/Observer.js:76-78 | `setStockPrice` is `notifyObservers` with the same name and price |
| `StockMarket.ClientRun` | BehavioralPatterns/Observer.js:82-90 | after AAPL 150 and GOOG 2800, the display knows both prices and the news feed is unchanged |
| `WeatherStation.Update` | BehavioralPatterns/Observer.js:104-114 | each observer reports the temperature it received, and its kind determines the message |
| `WeatherStation.SetTemperature` | BehavioralPatterns/Observer.js:133-139 | one line per listed observer, in list order, for that temperature |
| `WeatherStation.ClientRun` | BehavioralPatterns/Observer.js:143-151 | both observers report 25, then both report 30 |
| `ChatRoom.NewMediator` | BehavioralPatterns/Mediator.js:32-34 | a new mediator has no users |
| `ChatRoom.AddUser` | BehavioralPatterns/Mediator.js:36-38 | `addUser` appends at the end |
| `ChatRoom.NewUser` | BehavioralPatterns/Mediator.js:50-55 | constructing a user registers it, exactly once, at the end of its mediator's list |
| `ChatRoom.Recipients` | BehavioralPatterns/Mediator.js:40-46 | the sender never receives; every other registered user receives, as often as it is registered |
| `ChatRoom.SendMessage` | BehavioralPatterns/Mediator.js:40-46 | one delivery per recipient, in registration order, all of the same message |
| `ChatRoom.RecipientsOfPush` | BehavioralPatterns/Mediator.js:36-46 | a newly registered user becomes the last recipient of others' messages |
| `ChatRoom.ClientRun` | BehavioralPatterns/Mediator.js:68-77 | Alice's message reaches only Bob, and Bob's only Alice |
| `AirTraffic.NewTower` | BehavioralPatterns/Mediator.js:83-85 | a new tower has no aircraft |
| `AirTraffic.RegisterAircraft` | BehavioralPatterns/Mediator.js:87-89 | registration appends at the end |
| `AirTraffic.NewAircraft` | BehavioralPatterns/Mediator.js:101-106 | constructing an aircraft registers it and keeps the earlier registrations |
| `AirTraffic.RequestLanding` | BehavioralPatterns/Mediator.js:91-97 | landing is granted iff the aircraft is registered, and denied otherwise |
| `AirTraffic.RegisterAll` | BehavioralPatterns/Mediator.js:87-89 | registrations only add: earlier and later aircraft are all registered |
| `AirTraffic.ConstructedIsGranted` | BehavioralPatterns/Mediator.js:91-106 | an aircraft constructed with a tower is always granted landing there |
| `AirTraffic.UnregisteredIsDenied` | BehavioralPatterns/Mediator.js:91-97 | an aircraft not on the tower's list is denied |
| `AirTraffic.ClientRun` | BehavioralPatterns/Mediator.js:115-124 | both client flights are granted |
| `DirectoryTree.NewDirectory` | StructuralPatterns/Composite.js:49-53 | a new directory has the given name and no children |
| `DirectoryTree.Line` | StructuralPatterns/Composite.js:36-68 | a file's own line is "File: " followed by its name and a directory's is "Directory: " followed by its name; the line tells which kind of node printed it |
| `DirectoryTree.Add` | StructuralPatterns/Composite.js:55-57 | `add` appends a reference to the child at the end of the directory's list; every other node in the heap is unchanged |
| `DirectoryTree.Remove` | StructuralPatterns/Composite.js:59-64 | removal compares references, as `indexOf` does: removing an absent node is a no-op; otherwise exactly the first occurrence is cut out, the rest keeps its order, and every other node in the heap is unchanged |
| `DirectoryTree.RemoveDropsOneCopy` | StructuralPatterns/Composite.js:59-64 | as a multiset, the directory's list loses exactly one copy of the removed reference, or nothing when it was absent |
| `DirectoryTree.Display` | StructuralPatterns/Composite.js:42-69 | display starts with the node's own line and reads each child as it is now in the heap; child order is given by `DisplayAllPush` and `AddDisplaysLast` |
| `DirectoryTree.DisplayAll` | StructuralPatterns/Composite.js:66-69 | children print nothing exactly when there are none |
| `DirectoryTree.DisplayLength` | StructuralPatterns/Composite.js:42-69 | display prints exactly one line per node reached, against an independent count; a node listed in two directories is counted once per path |
| `DirectoryTree.DisplayAllLength` | StructuralPatterns/Composite.js:66-69 | the children's output has one line per node below the directory |
| `DirectoryTree.DisplayAllPush` | StructuralPatterns/Composite.js:66-69 | the children's output follows child order: a pushed child prints last |
| `DirectoryTree.AddDisplaysLast` | StructuralPatterns/Composite.js:55-69 | adding a node of lower rank keeps the heap acyclic, and the directory's display becomes its old display followed by the new child's |
| `DirectoryTree.DisplayFrame` | StructuralPatterns/Composite.js:42-69 | a node's display depends only on the nodes below it: changing any node of equal or higher rank leaves it as it was |
| `DirectoryTree.ClientRun` | StructuralPatterns/Composite.js:73-85 | built in the client's order (`dir1.add(dir2)` after `root.add(dir1)`), root's display still shows dir2: root, dir1, dir2, file1.txt, file2.txt |
| `DirectoryTree.RemoveFindsChangedChild` | StructuralPatterns/Composite.js:55-64 | `remove` finds a child by reference even after the child changed: adding to `dir` first leaves what `parent.remove(dir)` does to `parent` the same, the list still loses one entry, and `dir` keeps its new child |
| `PictureTree.NewPicture` | StructuralPatterns/Composite.js:111-115 | a new picture has no graphics |
| `PictureTree.Header` | StructuralPatterns/Composite.js:98-130 | a line prints "Drawing Line", a circle "Drawing Circle", and a picture "Drawing Picture:" before its contents; each kind has its own line |
| `PictureTree.Add` | StructuralPatterns/Composite.js:117-119 | `add` appends a reference at the end of the picture's list; every other graphic is unchanged |
| `PictureTree.Remove` | StructuralPatterns/Composite.js:121-126 | removal compares references: removing an absent graphic is a no-op; otherwise exactly the first occurrence is cut out, the rest keeps its order, and every other graphic is unchanged |
| `PictureTree.RemoveDropsOneCopy` | StructuralPatterns/Composite.js:121-126 | as a multiset, the picture's list loses exactly one copy of the removed reference, or nothing when it was absent |
| `PictureTree.Draw` | StructuralPatterns/Composite.js:98-131 | a line and a circle print one line of their own; a picture prints "Drawing Picture:" first; the contents' order is given by `DrawAllPush` and `AddDrawsLast` |
| `PictureTree.DrawLength` | StructuralPatterns/Composite.js:98-131 | drawing prints one line per graphic reached, against an independent count |
| `PictureTree.DrawAll` | StructuralPatterns/Composite.js:128-131 | the contents print nothing exactly when the picture holds no graphics |
| `PictureTree.DrawAllLength` | StructuralPatterns/Composite.js:128-131 | a picture's contents print one line per graphic below it |
| `PictureTree.DrawAllPush` | StructuralPatterns/Composite.js:128-131 | the contents print in list order: a pushed graphic prints last |
| `PictureTree.DrawFrame` | StructuralPatterns/Composite.js:98-131 | a graphic's output depends only on the graphics below it |
| `PictureTree.AddDrawsLast` | StructuralPatterns/Composite.js:117-131 | adding a graphic of lower rank keeps the heap acyclic, and the picture draws its old output followed by the new graphic's |
| `PictureTree.ClientRun` | StructuralPatterns/Composite.js:135-142 | the client prints the picture header, then the line, then the circle, derived from `AddDrawsLast` |
| `UIDecorators.Render` | StructuralPatterns/Decorator.js:38-71 | every render stack ends with "Basic UI Component" |
| `UIDecorators.RenderStack` | StructuralPatterns/Decorator.js:38-71 | a stack renders as the layers' prefixes, outermost first, then the basic text; the plain decorator adds nothing |
| `UIDecorators.ClientRun` | StructuralPatterns/Decorator.js:74-81 | basic, then "Border + …", then "Color(red) + Border + …" |
| `CoffeeDecorators.Cost` | StructuralPatterns/Decorator.js:89-117 | base cost is 5; milk adds 2 and sugar adds 1 to the wrapped cost; the plain decorator is transparent |
| `CoffeeDecorators.CostFormula` | StructuralPatterns/Decorator.js:89-117 | any stack costs 5 + 2·#milk + #sugar |
| `CoffeeDecorators.OrderIrrelevant` | StructuralPatterns/Decorator.js:89-117 | the wrapping order does not affect the cost |
| `CoffeeDecorators.ClientRun` | StructuralPatterns/Decorator.js:120-127 | the client coffees cost 5, 7 and 8 |
| `VirtualProxy.New` | StructuralPatterns/Proxy.js:48-51 | a new proxy has constructed no image and printed nothing |
| `VirtualProxy.Display` | StructuralPatterns/Proxy.js:31-59 | the first display loads and then displays; later ones only display |
| `VirtualProxy.LoadedAtMostOnce` | StructuralPatterns/Proxy.js:53-58 | across n displays the image loads once (none when n = 0) and displays n times |
| `VirtualProxy.ClientRun` | StructuralPatterns/Proxy.js:62-65 | loading, then displaying nature.jpg |
| `ProtectionProxy.GetBalance` | StructuralPatterns/Proxy.js:77-79 | reports the balance |
| `ProtectionProxy.Withdraw` | StructuralPatterns/Proxy.js:81-88 | subtracts the amount iff balance >= amount; otherwise the balance is unchanged and insufficiency is reported |
| `ProtectionProxy.WithdrawKeepsNonNegative` | StructuralPatterns/Proxy.js:81-88 | a non-negative balance never goes negative |
| `ProtectionProxy.ProxyWithdraw` | StructuralPatterns/Proxy.js:101-107 | up to 1000, behaves exactly like the real withdraw; above it, the balance is unchanged and the limit is reported |
| `ProtectionProxy.ProxyGetBalance` | StructuralPatterns/Proxy.js:97-99 | the proxy's balance is the real account's |
| `ProtectionProxy.ProxyWithdrawBounded` | StructuralPatterns/Proxy.js:81-107 | through the proxy, the balance either stays put or moves by exactly `-amount`, for an amount of at most 1000 that the balance covers; a negative amount therefore raises it |
| `ProtectionProxy.NegativeWithdrawRaises` | StructuralPatterns/Proxy.js:81-107 | neither the proxy's limit nor the account's cover check rejects a negative amount, so withdrawing one raises a non-negative balance by its magnitude |
| `ProtectionProxy.ClientRun` | StructuralPatterns/Proxy.js:111-116 | 2000, withdraw 800 gives 1200, then 1500 is refused |
| `ShapePrototypes.Clone` | CreationalPatterns/Prototype.js:27-60 | the base class throws; a circle clone is a new object with type Circle and the same radius; a square clone is a new object with type Square and the same side |
| `ShapePrototypes.CloneIsCopy` | CreationalPatterns/Prototype.js:38-60 | a clone differs from its prototype only in identity |
| `ShapePrototypes.ClientRun` | CreationalPatterns/Prototype.js:63-65 | the radius-5 circle clones to a new radius-5 circle |
| `PrototypeRegistry.Clone` | CreationalPatterns/Prototype.js:89-117 | the base class throws; given an unused id, a Car clone is a Car and a Motorcycle clone a Motorcycle, each with the new id, so never the prototype itself |
| `PrototypeRegistry.NewRegistry` | CreationalPatterns/Prototype.js:72-74 | a new registry is empty |
| `PrototypeRegistry.Register` | CreationalPatterns/Prototype.js:76-78 | the name maps to the new prototype, replacing any earlier one, and no other name changes |
| `PrototypeRegistry.Create` | CreationalPatterns/Prototype.js:80-86 | an unregistered name fails with "Prototype with name … not found"; a registered one gives a clone of its prototype, whose id differs from the prototype's |
| `PrototypeRegistry.RegisterThenCreate` | CreationalPatterns/Prototype.js:76-86 | register then create returns a vehicle of the registered type with the new id, distinct from the registered object |
| `PrototypeRegistry.RegisterIsolated` | CreationalPatterns/Prototype.js:76-86 | registering one name does not change what another name creates |
| `PrototypeRegistry.ClientRun` | CreationalPatterns/Prototype.js:120-125 | `create('car')` is a new Car; an unregistered name fails |
| `AnimalFactory.CreateAnimal` | CreationalPatterns/Factory.js:35-64 | "dog" gives a Dog that says "Woof!", "cat" a Cat that says "Meow!", both with the given name; anything else fails with "Invalid animal type" |
| `AnimalFactory.Speak` | CreationalPatterns/Factory.js:35-51 | `speak` returns "Woof!" exactly for a dog and "Meow!" exactly for a cat |
| `AnimalFactory.ExactMatch` | CreationalPatterns/Factory.js:54-62 | type matching is exact: "Dog" is rejected |
| `AnimalFactory.ClientRun` | CreationalPatterns/Factory.js:66-71 | Buddy the dog and Whiskers the cat |
| `ShapeFactory.Arg` | CreationalPatterns/Factory.js:109 | a spread argument is present exactly when it was passed |
| `ShapeFactory.CreateShape` | CreationalPatterns/Factory.js:77-121 | circle, square and triangle get the matching class with the arguments forwarded in order; anything else fails |
| `ShapeFactory.ErrorNamesType` | CreationalPatterns/Factory.js:117-118 | the failure message ends with the offending type |
| `ShapeFactory.ClientRun` | CreationalPatterns/Factory.js:123-131 | circle 5, square 4, triangle 3 by 6 |
| `FurnitureFactory.CreateChair` | CreationalPatterns/AbstractFactory.js:72-101 | the abstract factory throws; a concrete factory's chair has its style |
| `FurnitureFactory.CreateSofa` | CreationalPatterns/AbstractFactory.js:72-101 | the abstract factory throws; a concrete factory's sofa has its style |
| `FurnitureFactory.SitChair` | CreationalPatterns/AbstractFactory.js:46-62 | a chair prints "Sitting on a modern chair" exactly when it is modern, and "Sitting on a vintage chair" exactly when it is vintage |
| `FurnitureFactory.SitSofa` | CreationalPatterns/AbstractFactory.js:52-69 | a sofa prints "Sitting on a modern sofa" exactly when it is modern, and "Sitting on a vintage sofa" exactly when it is vintage |
| `FurnitureFactory.SameStyle` | CreationalPatterns/AbstractFactory.js:83-101 | every concrete factory yields a chair and a sofa of the same style |
| `FurnitureFactory.CreateFurniture` | CreationalPatterns/AbstractFactory.js:104-110 | the chair is sat on before the sofa; the abstract factory fails at the chair |
| `FurnitureFactory.ClientRun` | CreationalPatterns/AbstractFactory.js:104-116 | the modern factory prints "Sitting on a modern chair" then "Sitting on a modern sofa"; the vintage factory prints the vintage pair |
| `ComputerFactory.CreateCpu` | CreationalPatterns/AbstractFactory.js:162-191 | the abstract factory throws; a concrete factory's CPU has its setup |
| `ComputerFactory.CreateGpu` | CreationalPatterns/AbstractFactory.js:162-191 | the abstract factory throws; a concrete factory's GPU has its setup |
| `ComputerFactory.Process` | CreationalPatterns/AbstractFactory.js:135-152 | a CPU prints "Gaming CPU processing" exactly for the gaming setup and "Office CPU processing" exactly for the office one |
| `ComputerFactory.Render` | CreationalPatterns/AbstractFactory.js:141-159 | a GPU prints "Gaming GPU rendering" exactly for the gaming setup and "Office GPU rendering" exactly for the office one |
| `ComputerFactory.AssembleComputer` | CreationalPatterns/AbstractFactory.js:194-200 | processing comes before rendering; the abstract factory fails at the CPU |
| `ComputerFactory.SameSetup` | CreationalPatterns/AbstractFactory.js:173-191 | the parts of any concrete factory belong to one setup |
| `ComputerFactory.ClientRun` | CreationalPatterns/AbstractFactory.js:194-206 | the gaming computer prints "Gaming CPU processing" then "Gaming GPU rendering"; the office computer prints the same two lines for Office |
| `ClosureSingleton.New` | CreationalPatterns/Singleton.js:25-27 | no instance exists before the first call |
| `ClosureSingleton.GetInstance` | CreationalPatterns/Singleton.js:28-41 | the first call creates and stores the instance; later calls return it and create nothing; an instance exists iff exactly one was created |
| `ClosureSingleton.AllCallsSame` | CreationalPatterns/Singleton.js:34-38 | once an instance exists, every later call returns it |
| `ClosureSingleton.SameInstance` | CreationalPatterns/Singleton.js:25-41 | n calls from the start all return the same instance |
| `ClosureSingleton.ClientRun` | CreationalPatterns/Singleton.js:43-46 | `instance1 === instance2`, with one construction |
| `DatabaseSingleton.Connect` | CreationalPatterns/Singleton.js:66-70 | connecting marks the connection connected and prints the database name |
| `DatabaseSingleton.Construct` | CreationalPatterns/Singleton.js:54-64 | a stored instance is returned unchanged and the new config is ignored; otherwise a new connection is stored, connected once |
| `DatabaseSingleton.Query` | CreationalPatterns/Singleton.js:72-79 | the query runs only when connected; otherwise "Not connected" is printed |
| `DatabaseSingleton.SecondConstructionReturnsFirst` | CreationalPatterns/Singleton.js:54-70 | a second construction returns the first connection, keeps its config, and does not connect again |
| `DatabaseSingleton.ConstructedQueriesRun` | CreationalPatterns/Singleton.js:54-79 | a constructed connection's queries always run |
| `DatabaseSingleton.ClientRun` | CreationalPatterns/Singleton.js:82-98 | one connection, one "connected" line, then both queries run |
| `LoggerSingleton.Start` | CreationalPatterns/Singleton.js:104-112 | no logger exists at first |
| `LoggerSingleton.Construct` | CreationalPatterns/Singleton.js:105-112 | the first construction creates a logger with empty logs; later ones return it unchanged |
| `LoggerSingleton.Log` | CreationalPatterns/Singleton.js:114-117 | `log` appends to the shared list |
| `LoggerSingleton.SharedLogs` | CreationalPatterns/Singleton.js:124-129 | m1 through logger1, then m2 through logger2, gives [m1, m2] on one shared logger |
| `CounterModule.New` | StructuralPatterns/Module.js:56-58 | the count starts at 0 |
| `CounterModule.Increment` | StructuralPatterns/Module.js:59-61 | adds 1 |
| `CounterModule.Decrement` | StructuralPatterns/Module.js:63-65 | subtracts 1 |
| `CounterModule.GetCount` | StructuralPatterns/Module.js:67-69 | reports the count without changing it |
| `CounterModule.CountIsBalance` | StructuralPatterns/Module.js:56-77 | the count is #increments - #decrements |
| `CounterModule.ClientRun` | StructuralPatterns/Module.js:79-82 | inc, inc, dec gives 1 |
| `PaymentStrategies.NewCart` | BehavioralPatterns/Strategy.js:58-61 | a new cart has no items and keeps its strategy |
| `PaymentStrategies.AddItem` | BehavioralPatterns/Strategy.js:63-65 | appends the item, raising the total by its price |
| `PaymentStrategies.CalculateTotalAmount` | BehavioralPatterns/Strategy.js:72-74 | the sum of item prices; 0 for an empty cart |
| `PaymentStrategies.Checkout` | BehavioralPatterns/Strategy.js:31-70 | pays exactly the total, once, via the cart's strategy; the abstract strategy throws |
| `PaymentStrategies.ClientRun` | BehavioralPatterns/Strategy.js:78-89 | the example carts pay 80 by credit card and 65 by PayPal |
| `SortingStrategies.StrategySort` | BehavioralPatterns/Strategy.js:97-126 | the abstract strategy throws; each stub logs its name and returns the input unchanged |
| `SortingStrategies.SorterSort` | BehavioralPatterns/Strategy.js:129-137 | the sorter returns exactly its strategy's result |
| `SortingStrategies.StubsDoNotSort` | BehavioralPatterns/Strategy.js:104-145 | the client's first array comes back unsorted |
| `DocumentExport.VisitText` | BehavioralPatterns/Visitor.js:37-66 | HTML gives `<p>content</p>`, Markdown gives the content unchanged, and the abstract visitor throws |
| `DocumentExport.VisitImage` | BehavioralPatterns/Visitor.js:37-66 | HTML gives `<img src="url" alt="caption" />`, Markdown gives `![caption](url)`, and the abstract visitor throws |
| `DocumentExport.Accept` | BehavioralPatterns/Visitor.js:69-97 | a text element dispatches to `visitText` and an image element to `visitImage`; the abstract element throws |
| `DocumentExport.AcceptAll` | BehavioralPatterns/Visitor.js:108-111 | the map succeeds iff every element does, and then gives each element's output in document order |
| `DocumentExport.Export` | BehavioralPatterns/Visitor.js:108-111 | the export is the per-element outputs joined by newlines |
| `DocumentExport.ConcreteExportersTotal` | BehavioralPatterns/Visitor.js:48-97 | neither concrete exporter fails on text or image elements |
| `DocumentExport.MarkdownTextIsIdentity` | BehavioralPatterns/Visitor.js:59-84 | Markdown exports text unchanged |
| `DocumentExport.ClientRun` | BehavioralPatterns/Visitor.js:100-108 | the client's HTML export: the paragraph, a newline, then the image tag |
| `AreaVisitor.Accept` | BehavioralPatterns/Visitor.js:148-169 | circles dispatch to `visitCircle` and rectangles to `visitRectangle`, each with the shape's own fields |
| `AreaVisitor.RectangleArea` | BehavioralPatterns/Visitor.js:135-137 | `visitRectangle` returns width times height: zero exactly when a side is zero, non-negative for non-negative sides, and at least each side when both are positive |
| `AreaVisitor.ClientRectangle` | BehavioralPatterns/Visitor.js:135-172 | of the client's shapes, the radius-5 circle is dispatched to `visitCircle` with radius 5, and the 4 by 6 rectangle to `visitRectangle`, where its area is 24 |
| `RemoteDevices.NewTV` | StructuralPatterns/Bridge.js:37-58 | a TV starts disabled on channel 1 |
| `RemoteDevices.NewRadio` | StructuralPatterns/Bridge.js:37-70 | a radio starts disabled at frequency 90 |
| `RemoteDevices.IsEnabled` | StructuralPatterns/Bridge.js:41-43 | reports the status |
| `RemoteDevices.Enable` | StructuralPatterns/Bridge.js:45-47 | sets the status on and changes nothing else |
| `RemoteDevices.Disable` | StructuralPatterns/Bridge.js:49-51 | sets the status off and changes nothing else |
| `RemoteDevices.TogglePower` | StructuralPatterns/Bridge.js:84-92 | flips the status, changes nothing else, and reports the new state |
| `RemoteDevices.ToggleTwice` | StructuralPatterns/Bridge.js:84-92 | toggling twice restores the device |
| `RemoteDevices.SetChannel` | StructuralPatterns/Bridge.js:60-99 | on a TV, sets the channel and reports it; a radio has no `setChannel`, so the call is an error |
| `RemoteDevices.ClientRunAsWritten` | StructuralPatterns/Bridge.js:104-112 | the client's `advancedRemote.setChannel(5)` on the radio is an error |
| `RemoteDevices.ClientRunCorrected` | StructuralPatterns/Bridge.js:103-112 | with the advanced remote built on the client's one `tv`, both remotes hold that TV: the two toggles print "Power ON" then "Power OFF", `setChannel(5)` prints the announced channel line, and the TV ends off on channel 5 |
| `ShapeDrawing.Draw` | StructuralPatterns/Bridge.js:120-161 | a circle forwards its own x, y and radius to its API; the abstract shape and the abstract API throw |
| `ShapeDrawing.ClientRun` | StructuralPatterns/Bridge.js:164-171 | SVG circle at (10,10) radius 5 and canvas circle at (20,20) radius 10 |
| `RequestAdapter.Request` | StructuralPatterns/Adapter.js:33-57 | the target base throws; the adapter prints its translation line, then makes the adaptee's specific request |
| `RequestAdapter.OneSpecificRequestPerRequest` | StructuralPatterns/Adapter.js:53-56 | each adapted request reaches the adaptee exactly once |
| `RequestAdapter.ClientRun` | StructuralPatterns/Adapter.js:60-63 | the client's one request prints the translating line, then the adaptee's line |
| `DataFetchAdapter.FetchData` | StructuralPatterns/Adapter.js:68-96 | legacy data passes through as `result`; modern `data` is renamed to `result`; any other API gives undefined |
| `DataFetchAdapter.LegacyFetchData` | StructuralPatterns/Adapter.js:68-73 | the legacy API's `fetchData` returns the fixed `result` string "Legacy Data" |
| `DataFetchAdapter.ModernFetch` | StructuralPatterns/Adapter.js:75-80 | the modern API's `fetch` returns the fixed `data` string "Modern Data" |
| `DataFetchAdapter.KnownApisNormalised` | StructuralPatterns/Adapter.js:68-105 | both APIs come out as `{result}`, "Legacy Data" and "Modern Data" |
| `ChartAdapter.GetData` | StructuralPatterns/Adapter.js:120-123 | the provider gives 10, 20, 30, 40, 50 |
| `ChartAdapter.GetFormattedData` | StructuralPatterns/Adapter.js:131-135 | the mapping keeps length and order, and element i is `{y: raw[i]}` |
| `ChartAdapter.FormattedRoundTrip` | StructuralPatterns/Adapter.js:131-135 | reading `y` back from the formatted points gives the raw data |
| `ChartAdapter.ClientRun` | StructuralPatterns/Adapter.js:139-143 | the client formats five points, 10 to 50 |
| `MealBuilder.NewMeal` | CreationalPatterns/Builder.js:53-58 | a new meal has burger, fries and drink all null |
| `MealBuilder.NewBuilder` | CreationalPatterns/Builder.js:32-34 | a new builder holds a new meal |
| `MealBuilder.AddBurger` | CreationalPatterns/Builder.js:36-38 | sets the burger only |
| `MealBuilder.AddFries` | CreationalPatterns/Builder.js:40-42 | sets the fries only |
| `MealBuilder.AddDrink` | CreationalPatterns/Builder.js:44-46 | sets the drink only |
| `MealBuilder.GetMeal` | CreationalPatterns/Builder.js:48-50 | returns the builder's own meal, reflecting every earlier add |
| `MealBuilder.LastAddWins` | CreationalPatterns/Builder.js:36-46 | a repeated add overwrites the earlier value |
| `MealBuilder.AddsCommute` | CreationalPatterns/Builder.js:36-46 | the three adds are independent, so their order does not matter |
| `MealBuilder.ClientRun` | CreationalPatterns/Builder.js:68-89 | meal1 has no drink; meal2 is complete |
| `ListMvc.New` | ArchitecturalPatterns/MVC.js:36-90 | a new model has an empty list and nothing rendered |
| `ListMvc.ModelAdd` | ArchitecturalPatterns/MVC.js:40-95 | the model's add appends at the end and renders nothing |
| `ListMvc.ModelGet` | ArchitecturalPatterns/MVC.js:45-99 | the getter returns the model's list |
| `ListMvc.UpdateView` | ArchitecturalPatterns/MVC.js:69-124 | renders the model's current list and never modifies the model |
| `ListMvc.ControllerAdd` | ArchitecturalPatterns/MVC.js:64-119 | adds to the model, then renders the full list with the new item last |
| `ListMvc.AddAllInOrder` | ArchitecturalPatterns/MVC.js:35-73 | adds through the controller keep insertion order and render once per add, each render showing every item so far |
| `TodoMvc.ClientRun` | ArchitecturalPatterns/MVC.js:75-80 | two todos, rendered as one list and then as two |
| `ProductMvc.ClientRun` | ArchitecturalPatterns/MVC.js:128-136 | two products; the final explicit `updateView` renders the same full list again |

## Left out

- Console formatting: numbers are JavaScript numbers printed by template strings. The model keeps prices, balances, costs and temperatures as mathematical integers and records lines as small datatypes. Floating point and number-to-text formatting are not modelled.
- The radio's frequency is a Dafny `real`. `Radio.setFrequency` (StructuralPatterns/Bridge.js:72-75) is not modelled because no client calls it.
- The circle area with `Math.PI`, and the total-area `reduce`, in the area visitor: floating point. Only the integer rectangle area is modelled.
- The Redux store, its subscription and the DOM handlers; the React/ReactRedux part of the Flux file. These are calls into external libraries; only the reducers, the dispatcher and the store callback are modelled.
- `TodoStore.getTodos` is the `todos` field of the model's `World`; it has no member of its own.
- The MVVM, SPA and micro-front-end files and the Facade examples: framework wiring and fixed console output, with no state or computed result.
- `MyModule` and `MyNamespace` in the module example: they only print.
- `new Image()` in the image pool: a browser object. An image is an id plus its `src`.
- GuardedIterator.CreateIterator: the JavaScript iterator shares the collection's array, so items added after `createIterator` are seen; the model snapshots the items when the iterator is created (the client adds everything first).
- PrototypeRegistry.Create: the JavaScript registry is a plain object, so names inherited from `Object.prototype` (such as "toString") are also "found"; the model's map holds only registered names.
- MealBuilder.GetMeal: `getMeal` returns the builder's own object, so later `add` calls also change a meal fetched earlier; the model returns a value.
- StockMarket.Update: the news feed's printed line is not modelled, only that it keeps no state.
- The chart adapter's `plot`: it joins objects, printing "[object Object]" five times; the printed text is not modelled.
- AirTraffic.RequestLanding: the answer is modelled, not the printed text. The source interpolates the aircraft object itself (BehavioralPatterns/Mediator.js:93, 95), so it prints "Landing granted for [object Object]", not the "Landing granted for Flight 123" its comment announces.
- DirectoryTree.Display: only heaps with a rank map that shows them acyclic are displayed (the same holds for `PictureTree.Draw`). The source lets a directory be added below itself, and its `display` then recurses until the stack overflows; the model does not state that failure.
- Observer, mediator and composite lists hold ids. For directories and pictures every node lives in a heap keyed by id, so a child changed after `add` is seen through its parent, as with JavaScript references. For observers, the object an id denotes is a separate map where the example needs one, as for the stock display's prices.
- ImagePool.GetImage: the image is a value, so the returned image is a retargeted copy. The caller's earlier image value keeps its old `src`; in JavaScript `image1` and `image2` are one object, and both show "image2.jpg".
- Five source files declare the same top-level name twice: `class DataAdapter` (StructuralPatterns/Adapter.js:82-126), `class Observer` (BehavioralPatterns/Observer.js:30-97), `class Visitor` (BehavioralPatterns/Visitor.js:37-119), `const { createStore }`, `const store` and `const render` (ArchitecturalPatterns/Redux.js:61-110), and `function render` with `const { render }` (ArchitecturalPatterns/Flux.js:80, 138). A JavaScript script that declares a `class` or `const` name twice in the same scope, or as both a function and a `const`, is rejected with a `SyntaxError` before anything runs, so none of these files runs as written. Flux.js also holds JSX (ArchitecturalPatterns/Flux.js:122-146), which plain JavaScript does not parse. Its two `function addTodo` declarations (ArchitecturalPatterns/Flux.js:33, 97) would break the first example even without those errors: the second declaration is hoisted over the first, so `dispatch(addTodo("Buy groceries"))` (:87) reads `const ADD_TODO` (:95) before it is initialised. Each example is modelled as if it stood in a file of its own, and the `ClientRun` members of the examples in those files describe that stand-alone run.
- ConnectionPool: `query` on a pooled connection prints only; `DatabaseConnection`'s own state is not modelled beyond its id and the `close()` calls.

## Findings

| source | as written | input that shows it | evidently intended | confidence | as-written member | corrected member |
|---|---|---|---|---|---|---|
| StructuralPatterns/Bridge.js:107-112 | the advanced remote is built around the radio, and `advancedRemote.setChannel(5)` forwards to `Radio`, which has no `setChannel` | the client script itself: `new AdvancedRemoteControl(radio)`, then `setChannel(5)` throws a `TypeError` | the comment announces "TV channel set to 5", so the advanced remote was meant to control the TV: `new AdvancedRemoteControl(tv)`. Both remotes then hold the one TV, so the second toggle prints "Power OFF", not the "Power ON" its comment announces; only a second TV would match all three comments | not executed; high | `RemoteDevices.ClientRunAsWritten` | `RemoteDevices.ClientRunCorrected` |
