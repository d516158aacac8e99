/** Light switch: a remote control holds one command at a time and runs it on
    `pressButton`. Before any `setCommand` the slot is `null`. */
module LightSwitch {
  import opened Outcomes

  /** Concrete commands; each wraps the (stateless) light receiver. */
  datatype Command = LightOn | LightOff

  datatype Remote = Remote(command: Option<Command>)

  /** What the receiver prints when a command runs. */
  function Execute(c: Command): (line: string)
    ensures line == "Light is ON" <==> c == LightOn
    ensures line == "Light is OFF" <==> c == LightOff
  {
    match c
    case LightOn => "Light is ON"
    case LightOff => "Light is OFF"
  }

  function NewRemote(): (r: Remote)
    ensures r.command.None?
  {
    Remote(None)
  }

  function SetCommand(r: Remote, c: Command): (r': Remote)
    ensures r'.command == Some(c)
  {
    Remote(Some(c))
  }

  /** `pressButton`: runs the stored command, appending the receiver's line to
      the console; with no command the call is a `TypeError`. */
  function PressButton(r: Remote, console: seq<string>): (out: Result<seq<string>>)
    ensures r.command.None? <==> out.Err?
    ensures r.command.Some? ==> out == Ok(console + [Execute(r.command.value)])
  {
    match r.command
    case None => Err("Cannot read properties of null (reading 'execute')")
    case Some(c) => Ok(console + [Execute(c)])
  }

  /** `pressButton` runs exactly the command most recently set. */
  lemma PressRunsLastSet(r: Remote, c1: Command, c2: Command, console: seq<string>)
    ensures PressButton(SetCommand(SetCommand(r, c1), c2), console) == Ok(console + [Execute(c2)])
  {
  }

  /** The two commands are told apart by what they print. */
  lemma CommandsDistinguishable(c1: Command, c2: Command)
    ensures Execute(c1) == Execute(c2) <==> c1 == c2
  {
    if c1 != c2 {
      assert Execute(c1)[|"Light is O"|] != Execute(c2)[|"Light is O"|];
    }
  }

  /** The client run: one remote, set to on and pressed, then set to off and
      pressed again. */
  lemma ClientRun()
    ensures var r1 := SetCommand(NewRemote(), LightOn);
            PressButton(r1, []) == Ok(["Light is ON"]) &&
            PressButton(SetCommand(r1, LightOff), ["Light is ON"]) == Ok(["Light is ON", "Light is OFF"])
  {
    PressRunsLastSet(NewRemote(), LightOn, LightOff, ["Light is ON"]);
    assert [] + [Execute(LightOn)] == ["Light is ON"];
    assert ["Light is ON"] + [Execute(LightOff)] == ["Light is ON", "Light is OFF"];
  }
}

/** Drawing application: commands carry a point and forward it to the
    drawing receiver; the user keeps a history stack whose `undo` only pops. */
module DrawingCommands {

  datatype Command = DrawCircle(x: int, y: int) | DrawRectangle(x: int, y: int)

  /** A call made on the `Drawing` receiver. */
  datatype Call = CircleAt(cx: int, cy: int) | RectangleAt(rx: int, ry: int)

  /** The invoker: its history plus what has been done to the receiver and
      printed so far. */
  datatype User = User(history: seq<Command>, calls: seq<Call>, undoLog: nat)

  /** `execute` of each concrete command: the receiver method matching the
      command, with the stored point. */
  function Run(c: Command): (call: Call)
    ensures c.DrawCircle? <==> call.CircleAt?
    ensures call.CircleAt? ==> call.cx == c.x && call.cy == c.y
    ensures call.RectangleAt? ==> call.rx == c.x && call.ry == c.y
  {
    match c
    case DrawCircle(x, y) => CircleAt(x, y)
    case DrawRectangle(x, y) => RectangleAt(x, y)
  }

  function NewUser(): (u: User)
    ensures u.history == [] && u.calls == [] && u.undoLog == 0
  {
    User([], [], 0)
  }

  /** `User.execute`: push onto the history, then run the command once. */
  function Execute(u: User, c: Command): (r: User)
    ensures r.history == u.history + [c]
    ensures |r.calls| == |u.calls| + 1 && r.calls[..|u.calls|] == u.calls
    ensures r.calls[|u.calls|] == Run(c)
    ensures r.undoLog == u.undoLog
  {
    User(u.history + [c], u.calls + [Run(c)], u.undoLog)
  }

  /** `User.undo`: pop the last command, printing "Undoing last command" only
      if there was one. The receiver's effect is not reversed. */
  function Undo(u: User): (r: User)
    ensures |u.history| == 0 ==> r == u
    ensures |u.history| > 0 ==> r.history == u.history[..|u.history| - 1] && r.undoLog == u.undoLog + 1
    ensures r.calls == u.calls
  {
    if |u.history| == 0 then u
    else User(u.history[..|u.history| - 1], u.calls, u.undoLog + 1)
  }

  /** Execute then undo restores the history but keeps the drawing call. */
  lemma ExecuteThenUndo(u: User, c: Command)
    ensures Undo(Execute(u, c)).history == u.history
    ensures Undo(Execute(u, c)).calls == u.calls + [Run(c)]
  {
    assert (u.history + [c])[..|u.history|] == u.history;
  }

  /** The client run: circle at (10, 20), rectangle at (30, 40), one undo. */
  lemma ClientRun()
    ensures Undo(Execute(Execute(NewUser(), DrawCircle(10, 20)), DrawRectangle(30, 40))) ==
      User([DrawCircle(10, 20)], [CircleAt(10, 20), RectangleAt(30, 40)], 1)
  {
  }
}
