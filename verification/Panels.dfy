/**
 * What a panel shows: eight lamps and a screen, each remembering the context
 * that wrote it. Resets and the local notice carry no context.
 */
module Panels {
  import opened Basics
  import opened Commands

  const LAMPS := 8

  datatype Lamp = Lamp(on: bool, writer: Option<Context>)

  datatype Screen = Unknown | Blank | Frame(image: Image, writer: Context) | Notice

  datatype Panel = Panel(lamps: seq<Lamp>, screen: Screen)

  const DARK := Lamp(false, None)

  ghost predicate WellFormed(p: Panel) {
    |p.lamps| == LAMPS
  }

  function SetLamp(p: Panel, index: nat, lamp: Lamp): Panel
    requires WellFormed(p) && 1 <= index <= LAMPS
  {
    p.(lamps := p.lamps[index - 1 := lamp])
  }

  function ResetPanel(): Panel {
    Panel(seq(LAMPS, _ => DARK), Blank)
  }

  /** Nothing written under `context` is on the panel. */
  ghost predicate CleanOf(p: Panel, context: Context) {
    && (forall i :: 0 <= i < |p.lamps| ==> p.lamps[i].writer != Some(context))
    && !(p.screen.Frame? && p.screen.writer == context)
  }

  /** The panel after a command whose authority, decoding and USB calls all succeed. */
  function Apply(p: Panel, c: Command): Panel
    requires WellFormed(p)
  {
    match c
    case Hardware(SetLed(control, on), context) =>
      var index := LedIndex(control);
      if index.Some? then SetLamp(p, index.value, Lamp(on, Some(context))) else p
    case Hardware(SetRasterFrame(control, _, image), context) =>
      if control == SCREEN then p.(screen := Frame(image, context)) else p
    case Hardware(ClearRaster(control), _) =>
      if control == SCREEN then p.(screen := Blank) else p
    case ResetDevice => ResetPanel()
    case Stop => ResetPanel()
  }
}
