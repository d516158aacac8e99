/** Traffic light: a three-state cycle. Each concrete state object only knows
    which state comes next; the context starts in the red state and delegates
    `change` to its current state, which logs a message and switches the
    context to the next light. */
module TrafficLight {

  datatype Light = Red | Green | Yellow

  /** The context: the current state plus the console lines emitted so far. */
  datatype TrafficLight = TrafficLight(current: Light, log: seq<string>)

  /** Position of a light in the red, green, yellow cycle (reference definition). */
  function Position(l: Light): (p: nat)
    ensures p < 3
  {
    match l
    case Red => 0
    case Green => 1
    case Yellow => 2
  }

  function ColourName(l: Light): string
  {
    match l
    case Red => "red"
    case Green => "green"
    case Yellow => "yellow"
  }

  /** The constructor: three owned states, the current one is red. */
  function New(): (t: TrafficLight)
    ensures t.current == Red && t.log == []
  {
    TrafficLight(Red, [])
  }

  /** The successor chosen by each concrete state's `change`. */
  function Next(l: Light): (n: Light)
    ensures Position(n) == (Position(l) + 1) % 3
  {
    match l
    case Red => Green
    case Green => Yellow
    case Yellow => Red
  }

  /** `TrafficLight.change`: delegate to the current state, which logs the
      name of the light it switches to and moves the context on. */
  function Change(t: TrafficLight): (r: TrafficLight)
    ensures Position(r.current) == (Position(t.current) + 1) % 3
    ensures |r.log| == |t.log| + 1 && r.log[..|t.log|] == t.log
    ensures r.log[|t.log|] == "Changing light to " + ColourName(r.current)
  {
    var n := Next(t.current);
    TrafficLight(n, t.log + ["Changing light to " + ColourName(n)])
  }

  /** `Change` applied n times. */
  function ChangeN(t: TrafficLight, n: nat): TrafficLight
    decreases n
  {
    if n == 0 then t else ChangeN(Change(t), n - 1)
  }

  /** A light is determined by its position in the cycle. */
  lemma PositionInjective(a: Light, b: Light)
    requires Position(a) == Position(b)
    ensures a == b
  {
  }

  /** Three changes return the light to the state it started in. */
  lemma ThreeChangesCycle(t: TrafficLight)
    ensures ChangeN(t, 3).current == t.current
    ensures |ChangeN(t, 3).log| == |t.log| + 3
  {
    var t3 := ChangeN(t, 3);
    assert t3 == Change(Change(Change(t)));
    PositionInjective(t3.current, t.current);
  }

  /** The client run: red, then three changes, logs green, yellow, red. */
  lemma ClientRun()
    ensures ChangeN(New(), 3).current == Red
    ensures ChangeN(New(), 3).log ==
      ["Changing light to " + "green", "Changing light to " + "yellow", "Changing light to " + "red"]
  {
    assert ChangeN(New(), 3) == Change(Change(Change(New())));
  }
}

/** Fan speed: four states ordered off < low < medium < high. Increasing at
    high and decreasing at off do nothing (and print nothing). */
module FanSpeed {

  datatype Speed = Off | Low | Medium | High

  /** What one state transition does: the next state and the console line it
      printed, if any. */
  datatype Step = Step(next: Speed, message: seq<string>)

  /** The fan context. The four concrete state objects are fixed at
      construction, so the only mutable part is the current speed. */
  datatype Fan = Fan(current: Speed, log: seq<string>)

  /** Reference definition: the speed as a level 0..3. */
  function Level(s: Speed): (n: nat)
    ensures n <= 3
  {
    match s
    case Off => 0
    case Low => 1
    case Medium => 2
    case High => 3
  }

  function SpeedName(s: Speed): string
  {
    match s
    case Off => "off"
    case Low => "low"
    case Medium => "medium"
    case High => "high"
  }

  function Min(a: int, b: int): int { if a <= b then a else b }
  function Max(a: int, b: int): int { if a >= b then a else b }

  function New(): (f: Fan)
    ensures f.current == Off && f.log == []
  {
    Fan(Off, [])
  }

  /** `increaseSpeed` of each concrete state. */
  function Increase(s: Speed): (st: Step)
    ensures Level(st.next) == Min(Level(s) + 1, 3)
    ensures s == High <==> st.message == []
    ensures s != High ==> st.message == ["Increasing fan speed to " + SpeedName(st.next)]
  {
    match s
    case Off => Step(Low, ["Increasing fan speed to " + "low"])
    case Low => Step(Medium, ["Increasing fan speed to " + "medium"])
    case Medium => Step(High, ["Increasing fan speed to " + "high"])
    case High => Step(High, [])
  }

  /** `decreaseSpeed` of each concrete state. */
  function Decrease(s: Speed): (st: Step)
    ensures Level(st.next) == Max(Level(s) - 1, 0)
    ensures s == Off <==> st.message == []
    ensures s != Off ==> st.message == ["Decreasing fan speed to " + SpeedName(st.next)]
  {
    match s
    case Off => Step(Off, [])
    case Low => Step(Off, ["Decreasing fan speed to " + "off"])
    case Medium => Step(Low, ["Decreasing fan speed to " + "low"])
    case High => Step(Medium, ["Decreasing fan speed to " + "medium"])
  }

  /** `Fan.increaseSpeed`: delegate to the current state. */
  function IncreaseSpeed(f: Fan): (r: Fan)
    ensures Level(r.current) == Min(Level(f.current) + 1, 3)
    ensures f.current == High ==> r == f
    ensures |f.log| <= |r.log| && r.log[..|f.log|] == f.log
  {
    var st := Increase(f.current);
    Fan(st.next, f.log + st.message)
  }

  /** `Fan.decreaseSpeed`: delegate to the current state. */
  function DecreaseSpeed(f: Fan): (r: Fan)
    ensures Level(r.current) == Max(Level(f.current) - 1, 0)
    ensures f.current == Off ==> r == f
    ensures |f.log| <= |r.log| && r.log[..|f.log|] == f.log
  {
    var st := Decrease(f.current);
    Fan(st.next, f.log + st.message)
  }

  lemma LevelInjective(a: Speed, b: Speed)
    requires Level(a) == Level(b)
    ensures a == b
  {
  }

  /** Below high, increasing then decreasing restores the speed. */
  lemma IncreaseThenDecrease(f: Fan)
    requires f.current != High
    ensures DecreaseSpeed(IncreaseSpeed(f)).current == f.current
  {
    LevelInjective(DecreaseSpeed(IncreaseSpeed(f)).current, f.current);
  }

  /** Above off, decreasing then increasing restores the speed. */
  lemma DecreaseThenIncrease(f: Fan)
    requires f.current != Off
    ensures IncreaseSpeed(DecreaseSpeed(f)).current == f.current
  {
    LevelInjective(IncreaseSpeed(DecreaseSpeed(f)).current, f.current);
  }

  /** The client run: up, up, down, down comes back to off. */
  lemma ClientRun()
    ensures DecreaseSpeed(DecreaseSpeed(IncreaseSpeed(IncreaseSpeed(New())))).log ==
      ["Increasing fan speed to " + "low", "Increasing fan speed to " + "medium",
       "Decreasing fan speed to " + "low", "Decreasing fan speed to " + "off"]
    ensures DecreaseSpeed(DecreaseSpeed(IncreaseSpeed(IncreaseSpeed(New())))).current == Off
  {
  }
}
