/** Remote controls and devices: every device has a power status; a TV also
    has a channel, a radio a frequency. Remotes act on the device they hold;
    only the TV implements `setChannel`. */
module RemoteDevices {
  import opened Outcomes

  datatype Device =
    | TV(status: bool, channel: int)
    | Radio(status: bool, frequency: real)

  datatype Line = PowerOn | PowerOff | ChannelSet(channel: int)

  function NewTV(): (d: Device)
    ensures d.TV? && !d.status && d.channel == 1
  {
    TV(false, 1)
  }

  function NewRadio(): (d: Device)
    ensures d.Radio? && !d.status && d.frequency == 90.0
  {
    Radio(false, 90.0)
  }

  function IsEnabled(d: Device): (b: bool)
    ensures b == d.status
  {
    d.status
  }

  function Enable(d: Device): (r: Device)
    ensures r.status && r == d.(status := true)
  {
    d.(status := true)
  }

  function Disable(d: Device): (r: Device)
    ensures !r.status && r == d.(status := false)
  {
    d.(status := false)
  }

  /** `RemoteControl.togglePower`: flip the status and report it. */
  function TogglePower(d: Device): (r: (Device, Line))
    ensures r.0.status == !d.status && r.0 == d.(status := !d.status)
    ensures r.1 == (if d.status then PowerOff else PowerOn)
  {
    if IsEnabled(d) then (Disable(d), PowerOff) else (Enable(d), PowerOn)
  }

  /** Toggling twice restores the device. */
  lemma ToggleTwice(d: Device)
    ensures TogglePower(TogglePower(d).0).0 == d
  {
  }

  /** `AdvancedRemoteControl.setChannel`: forwards to the device; a radio has
      no `setChannel`, so the call is a `TypeError`. */
  function SetChannel(d: Device, channel: int): (r: Result<(Device, Line)>)
    ensures d.TV? <==> r.Ok?
    ensures r.Ok? ==> r.value.0 == d.(channel := channel) && r.value.1 == ChannelSet(channel)
    ensures r.Err? ==> r.message == "this.device.setChannel is not a function"
  {
    match d
    case TV(_, _) => Ok((d.(channel := channel), ChannelSet(channel)))
    case Radio(_, _) => Err("this.device.setChannel is not a function")
  }

  /** The client code as written: the advanced remote holds the radio, so
      `advancedRemote.setChannel(5)` throws instead of printing the channel
      line its comment announces. */
  lemma ClientRunAsWritten()
    ensures var radio := TogglePower(NewRadio()).0;
            SetChannel(radio, 5).Err?
  {
  }

  /** The client with the advanced remote built on the same `tv` as the plain
      remote: both toggles act on that one TV, which prints "Power ON" and
      then "Power OFF", and the channel line is printed. The TV ends switched
      off on channel 5. */
  lemma ClientRunCorrected()
    ensures var first := TogglePower(NewTV());
            var second := TogglePower(first.0);
            [first.1, second.1] == [PowerOn, PowerOff] &&
            SetChannel(second.0, 5) == Ok((TV(false, 5), ChannelSet(5)))
  {
  }
}

/** Shape drawing: a circle forwards its own centre and radius to the
    drawing API it was built with. */
module ShapeDrawing {
  import opened Outcomes

  datatype DrawingApi = BaseApi | Svg | Canvas

  datatype Shape = BaseShape(api: DrawingApi) | CircleShape(x: int, y: int, radius: int, api: DrawingApi)

  /** One `drawCircle(x, y, radius)` call on an API. */
  datatype DrawCall = DrawCall(api: DrawingApi, x: int, y: int, radius: int)

  /** `draw`: the abstract shape throws; the circle forwards its fields; the
      abstract API throws when called. */
  function Draw(s: Shape): (r: Result<DrawCall>)
    ensures r.Ok? <==> s.CircleShape? && !s.api.BaseApi?
    ensures s.BaseShape? ==> r == Err("draw method must be implemented")
    ensures r.Ok? ==> r.value == DrawCall(s.api, s.x, s.y, s.radius)
    ensures s.CircleShape? && s.api.BaseApi? ==> r == Err("drawCircle method must be implemented")
  {
    match s
    case BaseShape(_) => Err("draw method must be implemented")
    case CircleShape(x, y, radius, api) =>
      if api.BaseApi? then Err("drawCircle method must be implemented")
      else Ok(DrawCall(api, x, y, radius))
  }

  /** The client run: SVG at (10,10) radius 5, canvas at (20,20) radius 10. */
  lemma ClientRun()
    ensures Draw(CircleShape(10, 10, 5, Svg)) == Ok(DrawCall(Svg, 10, 10, 5))
    ensures Draw(CircleShape(20, 20, 10, Canvas)) == Ok(DrawCall(Canvas, 20, 20, 10))
  {
  }
}
