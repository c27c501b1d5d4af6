/** The commands a controller can queue for one panel, and the lamp numbering they rely on. */
module Commands {
  import opened Basics

  /** An opaque claim of authority; the environment may withdraw it, once and for good. */
  type Context = nat

  type Image = seq<byte>

  const SCREEN := "screen"

  datatype Output =
    | SetLed(control: string, on: bool)
    | SetRasterFrame(control: string, encoding: string, image: Image)
    | ClearRaster(control: string)

  datatype Command =
    | Hardware(output: Output, context: Context)
    | ResetDevice
    | Stop
  {
    predicate IsRasterFrame() {
      Hardware? && output.SetRasterFrame?
    }

    function OutputControlId(): Option<string> {
      if Hardware? then Some(output.control) else None
    }
  }

  function LedIndex(control: string): (index: Option<nat>)
    ensures index.Some? ==> 1 <= index.value <= 8
    ensures index.Some? <==> control in LAMP_CONTROLS
  {
    if control == "s1" then Some(1)
    else if control == "s2" then Some(2)
    else if control == "s3" then Some(3)
    else if control == "s4" then Some(4)
    else if control == "s5" then Some(5)
    else if control == "s6" then Some(6)
    else if control == "up" then Some(7)
    else if control == "down" then Some(8)
    else None
  }

  const LAMP_CONTROLS: set<string> := {"s1", "s2", "s3", "s4", "s5", "s6", "up", "down"}

  /** What parsing a controller message guarantees: a real lamp, a known image encoding. */
  predicate Parsed(c: Command) {
    c.Hardware? ==>
      match c.output
      case SetLed(control, _) => LedIndex(control).Some?
      case SetRasterFrame(_, encoding, _) => encoding == "jpeg" || encoding == "png"
      case ClearRaster(_) => true
  }

  /** Lamp numbers are a bijection between the eight lamp controls and 1..8: the soft keys' own digits, then up, then down. */
  lemma LedIndexBijective(a: string, b: string, n: nat)
    ensures LedIndex(a).Some? && LedIndex(a) == LedIndex(b) ==> a == b
    ensures 1 <= n <= 8 ==> exists control :: control in LAMP_CONTROLS && LedIndex(control) == Some(n)
    ensures 1 <= n <= 6 ==> LedIndex(['s', (n + 48) as char]) == Some(n)
    ensures LedIndex("up") == Some(7) && LedIndex("down") == Some(8) && LedIndex(SCREEN) == None
  {
    if 1 <= n <= 8 {
      var control := ["s1", "s2", "s3", "s4", "s5", "s6", "up", "down"][n - 1];
      assert control in LAMP_CONTROLS && LedIndex(control) == Some(n);
    }
  }
}
