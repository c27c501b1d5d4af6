/**
 * From HID reports to button and encoder inputs. A report is a 16-bit word,
 * read as the set of its one bits; a changed known bit is an edge; edges become
 * inputs.
 */
module HidEdges {
  import opened Basics

  datatype Name =
    | Up | Down
    | RightAnticlockwise | RightClockwise
    | S1 | S2 | S3 | S4 | S5 | S6
    | LeftAnticlockwise | LeftClockwise

  /** A bit position in a 16-bit word. */
  type Bit = n: nat | n < 16

  /** A 16-bit word as the set of its one bits. */
  type Mask = set<Bit>

  datatype HidControl = HidControl(name: Name, bit: Bit)

  datatype HidEvent = HidEvent(control: HidControl, pressed: bool)

  const CONTROLS := 12

  const HID_CONTROLS: seq<HidControl> := [
    HidControl(Up, 0), HidControl(Down, 1), HidControl(RightAnticlockwise, 2), HidControl(RightClockwise, 3),
    HidControl(S1, 8), HidControl(S2, 9), HidControl(S3, 10), HidControl(S4, 11), HidControl(S5, 12), HidControl(S6, 13),
    HidControl(LeftAnticlockwise, 14), HidControl(LeftClockwise, 15)]

  const KNOWN: Mask := {0, 1, 2, 3, 8, 9, 10, 11, 12, 13, 14, 15}

  /** Where a control stands in the table. */
  function Position(name: Name): (k: nat)
    ensures k < CONTROLS && HID_CONTROLS[k].name == name
  {
    match name
    case Up => 0 case Down => 1 case RightAnticlockwise => 2 case RightClockwise => 3
    case S1 => 4 case S2 => 5 case S3 => 6 case S4 => 7 case S5 => 8 case S6 => 9
    case LeftAnticlockwise => 10 case LeftClockwise => 11
  }

  function BitOf(name: Name): Bit {
    HID_CONTROLS[Position(name)].bit
  }

  /** Every control has its own name and its own bit, and the known bits are the controls' bits. */
  lemma ControlsDistinct(k: nat, j: nat)
    requires k < CONTROLS && j < CONTROLS
    ensures Position(HID_CONTROLS[k].name) == k
    ensures HID_CONTROLS[k].bit in KNOWN
    ensures k != j ==> HID_CONTROLS[k].bit != HID_CONTROLS[j].bit && HID_CONTROLS[k].name != HID_CONTROLS[j].name
  {
  }

  lemma OwnPosition(k: nat, name: Name)
    requires k < CONTROLS
    ensures HID_CONTROLS[k].name == name <==> Position(name) == k
  {
    ControlsDistinct(k, Position(name));
  }

  // ---------------------------------------------------------------- decoding

  datatype ByteOrder = Big | Little

  function Pow2(k: nat): (p: nat)
    ensures p >= 1
  {
    if k == 0 then 1 else 2 * Pow2(k - 1)
  }

  predicate BitSet(value: nat, k: nat) {
    value / Pow2(k) % 2 == 1
  }

  function Bits(value: nat): Mask {
    set k: nat | k < 16 && BitSet(value, k)
  }

  function DecodeHidMask(report: seq<byte>, offset: nat, order: ByteOrder): Option<Mask> {
    if |report| < offset + 2 then None
    else
      var first, second := report[offset] as nat, report[offset + 1] as nat;
      Some(Bits(match order case Big => first * 256 + second case Little => second * 256 + first))
  }

  /** The number a mask stands for, counting its bits below `n`. */
  function ValueBelow(mask: Mask, n: nat): nat {
    if n == 0 then 0 else ValueBelow(mask, n - 1) + if n - 1 in mask then Pow2(n - 1) else 0
  }

  lemma {:induction false} BitsBelow(value: nat, n: nat)
    requires n <= 16
    ensures ValueBelow(Bits(value), n) == value % Pow2(n)
  {
    if n > 0 {
      BitsBelow(value, n - 1);
      SplitLowBits(value, Pow2(n - 1));
    }
  }

  lemma SplitLowBits(value: nat, p: nat)
    requires p >= 1
    ensures value % (2 * p) == value % p + if value / p % 2 == 1 then p else 0
  {
    var q, r := value / p, value % p;
    var h, b := q / 2, q % 2;
    assert value == h * (2 * p) + (b * p + r) by {
      assert q * p == (2 * h + b) * p == h * (2 * p) + b * p;
    }
    assert b * p == if b == 1 then p else 0;
    ModUnique(value, 2 * p, h, b * p + r);
  }

  lemma ModUnique(x: nat, d: nat, q: nat, r: nat)
    requires d > 0 && x == q * d + r && r < d
    ensures x % d == r
  {
    var q', r' := x / d, x % d;
    if q > q' {
      Spread(q, q', d);
    } else if q < q' {
      Spread(q', q, d);
    }
  }

  /** The decoded bits are those of the report's two-byte number; only shorter reports are refused. */
  lemma DecodedMaskIsTheNumber(report: seq<byte>, offset: nat, order: ByteOrder)
    ensures var m := DecodeHidMask(report, offset, order);
            && (m.Some? <==> |report| >= offset + 2)
            && (m.Some? ==>
                  ValueBelow(m.value, 16) ==
                  if order.Big? then report[offset] as nat * 256 + report[offset + 1] as nat
                  else report[offset + 1] as nat * 256 + report[offset] as nat)
  {
    if |report| >= offset + 2 {
      var first, second := report[offset] as nat, report[offset + 1] as nat;
      var value := if order.Big? then first * 256 + second else second * 256 + first;
      SixteenBits(value);
    }
  }

  /** Sixteen bits stand for any number that fits in them. */
  lemma SixteenBits(value: nat)
    requires value < 65536
    ensures ValueBelow(Bits(value), 16) == value
  {
    BitsBelow(value, 16);
    PowerSixteen();
  }

  lemma PowerSixteen()
    ensures Pow2(16) == 65536
  {
    assert Pow2(4) == 16 && Pow2(8) == 256 && Pow2(12) == 4096;
  }

  // ---------------------------------------------------------------- edges

  /** The edges among the first `n` controls, in control order. */
  function Edges(previous: Mask, current: Mask, n: nat): seq<HidEvent>
    requires n <= CONTROLS
  {
    if n == 0 then []
    else
      var c := HID_CONTROLS[n - 1];
      var before := Edges(previous, current, n - 1);
      if (c.bit in previous) != (c.bit in current) then before + [HidEvent(c, c.bit in current)] else before
  }

  function ChangedEvents(previous: Mask, current: Mask): seq<HidEvent> {
    Edges(previous, current, CONTROLS)
  }

  lemma BitsAscend(j: nat, k: nat)
    requires j < k < CONTROLS
    ensures HID_CONTROLS[j].bit < HID_CONTROLS[k].bit
  {
  }

  /** Edges come in the order of their bits. */
  ghost predicate InBitOrder(es: seq<HidEvent>) {
    forall i, j :: 0 <= i < j < |es| ==> es[i].control.bit < es[j].control.bit
  }

  ghost predicate BitsBelowOf(es: seq<HidEvent>, bound: nat) {
    forall i :: 0 <= i < |es| ==> es[i].control.bit < bound
  }

  lemma {:induction false} EdgesInOrder(previous: Mask, current: Mask, n: nat)
    requires n <= CONTROLS
    ensures InBitOrder(Edges(previous, current, n))
    ensures BitsBelowOf(Edges(previous, current, n), if n < CONTROLS then HID_CONTROLS[n].bit else 16)
    decreases n
  {
    if n > 0 {
      EdgesInOrder(previous, current, n - 1);
      if n < CONTROLS {
        BitsAscend(n - 1, n);
      }
    }
  }

  function UnknownHidBits(mask: Mask): Mask {
    mask - KNOWN
  }

  /** A mask rebuilt from edges alone. */
  function Fold(mask: Mask, events: seq<HidEvent>): Mask {
    if events == [] then mask
    else
      var m := Fold(mask, events[..|events| - 1]);
      var e := events[|events| - 1];
      if e.pressed then m + {e.control.bit} else m - {e.control.bit}
  }

  lemma {:induction false} FoldConcat(mask: Mask, a: seq<HidEvent>, b: seq<HidEvent>)
    ensures Fold(mask, a + b) == Fold(Fold(mask, a), b)
    decreases |b|
  {
    if b == [] {
      assert a + b == a;
    } else {
      assert (a + b)[..|a + b| - 1] == a + b[..|b| - 1];
      FoldConcat(mask, a, b[..|b| - 1]);
    }
  }

  function FirstBits(n: nat): Mask
    requires n <= CONTROLS
  {
    if n == 0 then {} else FirstBits(n - 1) + {HID_CONTROLS[n - 1].bit}
  }

  lemma AllBitsKnown()
    ensures FirstBits(CONTROLS) == KNOWN
  {
    assert FirstBits(4) == {0, 1, 2, 3};
    assert FirstBits(8) == {0, 1, 2, 3, 8, 9, 10, 11};
  }

  lemma {:induction false} FoldSnoc(mask: Mask, before: seq<HidEvent>, e: HidEvent)
    ensures Fold(mask, before + [e]) ==
            if e.pressed then Fold(mask, before) + {e.control.bit} else Fold(mask, before) - {e.control.bit}
  {
    assert (before + [e])[..|before|] == before;
  }

  /** The mask after the first bits have been carried over. */
  ghost predicate CarriedOver(mask: Mask, current: Mask, first: Mask, result: Mask) {
    forall b: Bit :: b in result <==> if b in first then b in current else b in mask
  }

  /** Edges carry the known bits over and leave the unknown ones behind. */
  lemma {:induction false} FoldEdges(mask: Mask, previous: Mask, current: Mask, n: nat)
    requires n <= CONTROLS && mask * KNOWN == previous * KNOWN
    ensures CarriedOver(mask, current, FirstBits(n), Fold(mask, Edges(previous, current, n)))
    decreases n
  {
    if n > 0 {
      FoldEdges(mask, previous, current, n - 1);
      FoldNextEdge(mask, previous, current, n - 1);
    }
  }

  lemma {:induction false} FoldNextEdge(mask: Mask, previous: Mask, current: Mask, n: nat)
    requires n < CONTROLS && mask * KNOWN == previous * KNOWN
    requires CarriedOver(mask, current, FirstBits(n), Fold(mask, Edges(previous, current, n)))
    ensures CarriedOver(mask, current, FirstBits(n + 1), Fold(mask, Edges(previous, current, n + 1)))
  {
    ControlsDistinct(n, n);
    var c, before := HID_CONTROLS[n], Edges(previous, current, n);
    FoldSnoc(mask, before, HidEvent(c, c.bit in current));
    CarryOne(mask, previous, current, FirstBits(n), Fold(mask, before), c.bit);
  }

  lemma CarryOne(mask: Mask, previous: Mask, current: Mask, first: Mask, m: Mask, bit: Bit)
    requires bit in KNOWN && mask * KNOWN == previous * KNOWN && CarriedOver(mask, current, first, m)
    ensures CarriedOver(mask, current, first + {bit},
                        if (bit in previous) == (bit in current) then m
                        else if bit in current then m + {bit} else m - {bit})
  {
    assert bit in mask * KNOWN <==> bit in mask;
    assert bit in previous * KNOWN <==> bit in previous;
  }

  /** Unknown bits never emit: the edges depend on the known bits alone. */
  lemma {:induction false} UnknownBitsNeverEmit(previous: Mask, current: Mask, n: nat)
    requires n <= CONTROLS
    ensures Edges(previous, current, n) == Edges(previous - UnknownHidBits(previous), current - UnknownHidBits(current), n)
    decreases n
  {
    if n > 0 {
      UnknownBitsNeverEmit(previous, current, n - 1);
      ControlsDistinct(n - 1, n - 1);
    }
  }

  // ---------------------------------------------------------------- inputs

  datatype Direction = Clockwise | Counterclockwise

  datatype Input =
    | Button(control: string, down: bool)
    | Rotate(control: string, delta: int, direction: Direction)

  function TranslateHidEvent(e: HidEvent): Option<Input> {
    match e.control.name
    case Up => Some(Button("up", e.pressed))
    case Down => Some(Button("down", e.pressed))
    case S1 => Some(Button("s1", e.pressed))
    case S2 => Some(Button("s2", e.pressed))
    case S3 => Some(Button("s3", e.pressed))
    case S4 => Some(Button("s4", e.pressed))
    case S5 => Some(Button("s5", e.pressed))
    case S6 => Some(Button("s6", e.pressed))
    case LeftClockwise => if e.pressed then Some(Rotate("left_encoder", 1, Clockwise)) else None
    case LeftAnticlockwise => if e.pressed then Some(Rotate("left_encoder", -1, Counterclockwise)) else None
    case RightClockwise => if e.pressed then Some(Rotate("right_encoder", 1, Clockwise)) else None
    case RightAnticlockwise => if e.pressed then Some(Rotate("right_encoder", -1, Counterclockwise)) else None
  }

  function Translate(events: seq<HidEvent>): seq<Input> {
    if events == [] then []
    else
      var before := Translate(events[..|events| - 1]);
      var input := TranslateHidEvent(events[|events| - 1]);
      if input.Some? then before + [input.value] else before
  }

  lemma {:induction false} TranslateConcat(a: seq<HidEvent>, b: seq<HidEvent>)
    ensures Translate(a + b) == Translate(a) + Translate(b)
    decreases |b|
  {
    if b == [] {
      assert a + b == a;
    } else {
      assert (a + b)[..|a + b| - 1] == a + b[..|b| - 1];
      TranslateConcat(a, b[..|b| - 1]);
    }
  }

  // ---------------------------------------------------------------- one worker's HID session

  /** The mask last seen, every mask seen, every edge and input emitted, and whether a report was too short. */
  datatype Session = Session(previous: Mask, seen: seq<Mask>, edges: seq<HidEvent>, inputs: seq<Input>, failed: bool)

  const START := Session({}, [], [], [], false)

  /** One read: nothing or an empty report changes nothing; a one-byte report ends the session. */
  function Receive(s: Session, report: Option<seq<byte>>): Session {
    if s.failed || report == None || report.value == [] then s
    else
      var mask := DecodeHidMask(report.value, 0, Big);
      if mask == None then s.(failed := true)
      else
        var events := ChangedEvents(s.previous, mask.value);
        Session(mask.value, s.seen + [mask.value], s.edges + events, s.inputs + Translate(events), false)
  }

  function ReceiveAll(reports: seq<Option<seq<byte>>>): Session {
    if reports == [] then START else Receive(ReceiveAll(reports[..|reports| - 1]), reports[|reports| - 1])
  }

  /** The presses and releases of one button. */
  function Presses(inputs: seq<Input>, control: string): seq<bool> {
    if inputs == [] then []
    else
      var before := Presses(inputs[..|inputs| - 1], control);
      var i := inputs[|inputs| - 1];
      if i.Button? && i.control == control then before + [i.down] else before
  }

  function Turns(inputs: seq<Input>, control: string): int {
    if inputs == [] then 0
    else
      var i := inputs[|inputs| - 1];
      Turns(inputs[..|inputs| - 1], control) + if i.Rotate? && i.control == control then i.delta else 0
  }

  /** Down, up, down, up, ... */
  ghost predicate Alternates(downs: seq<bool>) {
    forall k :: 0 <= k < |downs| ==> downs[k] == (k % 2 == 0)
  }

  /** How often a bit goes from 0 to 1 along the masks, starting from 0. */
  function RisingEdges(seen: seq<Mask>, bit: Bit): nat {
    if seen == [] then 0
    else
      var n := |seen| - 1;
      RisingEdges(seen[..n], bit) + if bit in seen[n] && (n == 0 || bit !in seen[n - 1]) then 1 else 0
  }

  /** The control a button event is reported under. */
  function ButtonControl(name: Name): Option<string> {
    match TranslateHidEvent(HidEvent(HID_CONTROLS[Position(name)], true))
    case Some(Button(control, _)) => Some(control)
    case _ => None
  }

  lemma {:induction false} PressesConcat(a: seq<Input>, b: seq<Input>, control: string)
    ensures Presses(a + b, control) == Presses(a, control) + Presses(b, control)
    ensures Turns(a + b, control) == Turns(a, control) + Turns(b, control)
    decreases |b|
  {
    if b == [] {
      assert a + b == a;
    } else {
      assert (a + b)[..|a + b| - 1] == a + b[..|b| - 1];
      PressesConcat(a, b[..|b| - 1], control);
    }
  }

  /** What one translated edge adds to a button's presses, and to an encoder's turns. */
  function PressOf(input: Option<Input>, control: string): seq<bool> {
    if input.Some? && input.value.Button? && input.value.control == control then [input.value.down] else []
  }

  function TurnOf(input: Option<Input>, control: string): int {
    if input.Some? && input.value.Rotate? && input.value.control == control then input.value.delta else 0
  }

  function Press(e: HidEvent, control: string): seq<bool> {
    PressOf(TranslateHidEvent(e), control)
  }

  function Turn(e: HidEvent, control: string): int {
    TurnOf(TranslateHidEvent(e), control)
  }

  function Appended(inputs: seq<Input>, input: Option<Input>): seq<Input> {
    if input.Some? then inputs + [input.value] else inputs
  }

  lemma {:induction false} TranslateSnoc(before: seq<HidEvent>, e: HidEvent)
    ensures Translate(before + [e]) == Appended(Translate(before), TranslateHidEvent(e))
  {
    assert (before + [e])[..|before|] == before;
  }

  lemma {:induction false} InputSnoc(inputs: seq<Input>, input: Option<Input>, control: string)
    ensures Presses(Appended(inputs, input), control) == Presses(inputs, control) + PressOf(input, control)
    ensures Turns(Appended(inputs, input), control) == Turns(inputs, control) + TurnOf(input, control)
  {
    if input.Some? {
      assert (inputs + [input.value])[..|inputs|] == inputs;
    }
  }

  lemma {:induction false} EdgeSnoc(before: seq<HidEvent>, e: HidEvent, control: string)
    ensures Presses(Translate(before + [e]), control) == Presses(Translate(before), control) + Press(e, control)
    ensures Turns(Translate(before + [e]), control) == Turns(Translate(before), control) + Turn(e, control)
  {
    TranslateSnoc(before, e);
    InputSnoc(Translate(before), TranslateHidEvent(e), control);
  }

  /** What a change of the control at `i` adds to a button's presses. */
  function PressOfChange(previous: Mask, current: Mask, i: nat, control: string): seq<bool>
    requires i < CONTROLS
  {
    var c := HID_CONTROLS[i];
    if (c.bit in previous) != (c.bit in current) then Press(HidEvent(c, c.bit in current), control) else []
  }

  /** What a bit's change does to its button. */
  function Change(previous: Mask, current: Mask, bit: Bit): seq<bool> {
    if (bit in previous) != (bit in current) then [bit in current] else []
  }

  /** Of all controls in the table only the one at `k` presses the button. */
  ghost predicate OnlyPresses(previous: Mask, current: Mask, k: nat, downs: seq<bool>, control: string) {
    forall i: nat :: i < CONTROLS ==>
      PressOfChange(previous, current, i, control) == if i == k then downs else []
  }

  /** A button's control id is reported by its own control only. */
  lemma PressIsOwn(e: HidEvent, name: Name, control: string)
    requires ButtonControl(name) == Some(control)
    ensures Press(e, control) == if e.control.name == name then [e.pressed] else []
  {
  }

  lemma ButtonsPressAlone(previous: Mask, current: Mask, name: Name, control: string)
    requires ButtonControl(name) == Some(control)
    ensures OnlyPresses(previous, current, Position(name), Change(previous, current, BitOf(name)), control)
  {
    forall i: nat | i < CONTROLS
      ensures PressOfChange(previous, current, i, control) ==
              if i == Position(name) then Change(previous, current, BitOf(name)) else []
    {
      var c := HID_CONTROLS[i];
      OwnPosition(i, name);
      PressIsOwn(HidEvent(c, c.bit in current), name, control);
    }
  }

  /** The presses the first `n` controls can cause. */
  function PressesOfChanges(previous: Mask, current: Mask, n: nat, control: string): seq<bool>
    requires n <= CONTROLS
  {
    if n == 0 then [] else PressesOfChanges(previous, current, n - 1, control) + PressOfChange(previous, current, n - 1, control)
  }

  lemma {:induction false} PressesAreChanges(previous: Mask, current: Mask, n: nat, control: string)
    requires n <= CONTROLS
    ensures Presses(Translate(Edges(previous, current, n)), control) == PressesOfChanges(previous, current, n, control)
    decreases n
  {
    if n > 0 {
      PressesAreChanges(previous, current, n - 1, control);
      AddPress(previous, current, n - 1, control);
    }
  }

  lemma {:induction false} OneChangePresses(previous: Mask, current: Mask, n: nat, k: nat, downs: seq<bool>, control: string)
    requires n <= CONTROLS && OnlyPresses(previous, current, k, downs, control)
    ensures PressesOfChanges(previous, current, n, control) == if k < n then downs else []
    decreases n
  {
    if n > 0 {
      OneChangePresses(previous, current, n - 1, k, downs, control);
    }
  }

  /** One report presses or releases a button exactly when its bit changed, and at most once. */
  lemma {:induction false} PressesOfEdges(previous: Mask, current: Mask, k: nat, downs: seq<bool>, control: string)
    requires k < CONTROLS && OnlyPresses(previous, current, k, downs, control)
    ensures Presses(Translate(ChangedEvents(previous, current)), control) == downs
  {
    PressesAreChanges(previous, current, CONTROLS, control);
    OneChangePresses(previous, current, CONTROLS, k, downs, control);
  }

  lemma {:induction false} AddPress(previous: Mask, current: Mask, n: nat, control: string)
    requires n < CONTROLS
    ensures Presses(Translate(Edges(previous, current, n + 1)), control) ==
            Presses(Translate(Edges(previous, current, n)), control) + PressOfChange(previous, current, n, control)
  {
    var c := HID_CONTROLS[n];
    EdgeSnoc(Edges(previous, current, n), HidEvent(c, c.bit in current), control);
  }

  function Rises(previous: Mask, current: Mask, bit: Bit): int {
    if bit !in previous && bit in current then 1 else 0
  }

  /** How a control's rising edge turns an encoder. */
  function Sign(name: Name, control: string): int {
    match name
    case LeftClockwise => if control == "left_encoder" then 1 else 0
    case LeftAnticlockwise => if control == "left_encoder" then -1 else 0
    case RightClockwise => if control == "right_encoder" then 1 else 0
    case RightAnticlockwise => if control == "right_encoder" then -1 else 0
    case _ => 0
  }

  lemma TurnIsSigned(e: HidEvent, control: string)
    ensures Turn(e, control) == if e.pressed then Sign(e.control.name, control) else 0
  {
  }

  lemma {:induction false} AddTurn(previous: Mask, current: Mask, n: nat, c: HidControl, control: string)
    requires n < CONTROLS && c == HID_CONTROLS[n]
    ensures Turns(Translate(Edges(previous, current, n + 1)), control) ==
            Turns(Translate(Edges(previous, current, n)), control) + Sign(c.name, control) * Rises(previous, current, c.bit)
  {
    var e := HidEvent(c, c.bit in current);
    EdgeSnoc(Edges(previous, current, n), e, control);
    TurnIsSigned(e, control);
    assert Edges(previous, current, n + 1) ==
           if (c.bit in previous) != (c.bit in current) then Edges(previous, current, n) + [e] else Edges(previous, current, n);
  }

  /** The turns the first `n` controls can cause. */
  function SignedRises(previous: Mask, current: Mask, n: nat, control: string): int
    requires n <= CONTROLS
  {
    if n == 0 then 0
    else
      var c := HID_CONTROLS[n - 1];
      SignedRises(previous, current, n - 1, control) + Sign(c.name, control) * Rises(previous, current, c.bit)
  }

  lemma {:induction false} TurnsOfEdges(previous: Mask, current: Mask, n: nat, control: string)
    requires n <= CONTROLS
    ensures Turns(Translate(Edges(previous, current, n)), control) == SignedRises(previous, current, n, control)
  {
    if n > 0 {
      TurnsOfEdges(previous, current, n - 1, control);
      AddTurn(previous, current, n - 1, HID_CONTROLS[n - 1], control);
    }
  }

  /** The four contacts in the control table. */
  lemma EncoderBits()
    ensures BitOf(LeftClockwise) == 15 && BitOf(LeftAnticlockwise) == 14
    ensures BitOf(RightClockwise) == 3 && BitOf(RightAnticlockwise) == 2
  {
  }

  lemma TurnsAre(previous: Mask, current: Mask, control: string)
    requires control == "left_encoder" || control == "right_encoder"
    ensures Turns(Translate(ChangedEvents(previous, current)), control) ==
            if control == "left_encoder" then Rises(previous, current, 15) - Rises(previous, current, 14)
            else Rises(previous, current, 3) - Rises(previous, current, 2)
  {
    TurnsOfEdges(previous, current, CONTROLS, control);
    SignedRisesOfEncoders(previous, current, control, CONTROLS);
  }

  /** One report's net turn of an encoder: clockwise rises less anticlockwise rises. */
  lemma NetTurn(previous: Mask, current: Mask)
    ensures var inputs := Translate(ChangedEvents(previous, current));
            && Turns(inputs, "left_encoder") ==
               Rises(previous, current, BitOf(LeftClockwise)) - Rises(previous, current, BitOf(LeftAnticlockwise))
            && Turns(inputs, "right_encoder") ==
               Rises(previous, current, BitOf(RightClockwise)) - Rises(previous, current, BitOf(RightAnticlockwise))
  {
    EncoderBits();
    TurnsAre(previous, current, "left_encoder");
    TurnsAre(previous, current, "right_encoder");
  }

  /** Only the four encoder contacts have a sign. */
  lemma {:induction false} SignedRisesOfEncoders(previous: Mask, current: Mask, control: string, n: nat)
    requires n <= CONTROLS && (control == "left_encoder" || control == "right_encoder")
    ensures SignedRises(previous, current, n, control) ==
            if control == "left_encoder"
            then (if n > 11 then Rises(previous, current, 15) else 0) - (if n > 10 then Rises(previous, current, 14) else 0)
            else (if n > 3 then Rises(previous, current, 3) else 0) - (if n > 2 then Rises(previous, current, 2) else 0)
  {
    if n > 0 {
      SignedRisesOfEncoders(previous, current, control, n - 1);
      assert Position(HID_CONTROLS[n - 1].name) == n - 1;
    }
  }

  // ---------------------------------------------------------------- whole sessions

  ghost predicate SessionStory(s: Session) {
    && s.previous == (if s.seen == [] then {} else s.seen[|s.seen| - 1])
    && s.inputs == Translate(s.edges)
    && Fold({}, s.edges) == s.previous * KNOWN
    && (forall e :: e in s.edges ==> e.control in HID_CONTROLS)
  }

  lemma EdgesAreKnown(previous: Mask, current: Mask, n: nat)
    requires n <= CONTROLS
    ensures forall e :: e in Edges(previous, current, n) ==> e.control in HID_CONTROLS
  {
  }

  lemma StoryContinues(s: Session, mask: Mask)
    requires SessionStory(s)
    ensures var events := ChangedEvents(s.previous, mask);
            SessionStory(Session(mask, s.seen + [mask], s.edges + events, s.inputs + Translate(events), false))
  {
    var events := ChangedEvents(s.previous, mask);
    FoldConcat({}, s.edges, events);
    FoldKnown(s.previous, mask);
    TranslateConcat(s.edges, events);
    EdgesAreKnown(s.previous, mask, CONTROLS);
  }

  /** All edges together carry the known bits over. */
  lemma FoldKnown(previous: Mask, mask: Mask)
    ensures Fold(previous * KNOWN, ChangedEvents(previous, mask)) == mask * KNOWN
  {
    assert previous * KNOWN * KNOWN == previous * KNOWN;
    FoldEdges(previous * KNOWN, previous, mask, CONTROLS);
    AllBitsKnown();
  }

  /** No edge is lost: folding every emitted edge from nothing gives the known bits of the last mask. */
  lemma {:induction false} EdgesLoseNothing(reports: seq<Option<seq<byte>>>)
    ensures SessionStory(ReceiveAll(reports))
  {
    if reports != [] {
      var s, r := ReceiveAll(reports[..|reports| - 1]), reports[|reports| - 1];
      EdgesLoseNothing(reports[..|reports| - 1]);
      var s' := Receive(s, r);
      if s'.seen != s.seen {
        var mask := DecodeHidMask(r.value, 0, Big).value;
        StoryContinues(s, mask);
      }
    }
  }

  /** Each button's inputs alternate down and up, starting with down, and end as its bit does. */
  lemma {:induction false} ButtonsAlternate(reports: seq<Option<seq<byte>>>, name: Name, control: string)
    requires ButtonControl(name) == Some(control)
    ensures var s := ReceiveAll(reports);
            var downs := Presses(s.inputs, control);
            Alternates(downs) && (BitOf(name) in s.previous <==> |downs| % 2 == 1)
  {
    if reports != [] {
      var s, r := ReceiveAll(reports[..|reports| - 1]), reports[|reports| - 1];
      ButtonsAlternate(reports[..|reports| - 1], name, control);
      var s' := Receive(s, r);
      if s'.seen != s.seen {
        var mask := DecodeHidMask(r.value, 0, Big).value;
        PressesConcat(s.inputs, Translate(ChangedEvents(s.previous, mask)), control);
        ButtonsPressAlone(s.previous, mask, name, control);
        PressesOfEdges(s.previous, mask, Position(name), Change(s.previous, mask, BitOf(name)), control);
        AlternateOnce(Presses(s.inputs, control), BitOf(name) in s.previous, BitOf(name) in mask);
      }
    }
  }

  lemma AlternateOnce(downs: seq<bool>, was: bool, now: bool)
    requires Alternates(downs) && (was <==> |downs| % 2 == 1)
    ensures var downs' := downs + if was != now then [now] else [];
            Alternates(downs') && (now <==> |downs'| % 2 == 1)
  {
  }

  /** The net turn an encoder should have made: clockwise rising edges less anticlockwise ones. */
  function NetRises(seen: seq<Mask>, clockwise: Name, anticlockwise: Name): int {
    RisingEdges(seen, BitOf(clockwise)) - RisingEdges(seen, BitOf(anticlockwise))
  }

  lemma {:induction false} NetRisesSnoc(seen: seq<Mask>, previous: Mask, mask: Mask, clockwise: Name, anticlockwise: Name)
    requires previous == if seen == [] then {} else seen[|seen| - 1]
    ensures NetRises(seen + [mask], clockwise, anticlockwise) ==
            NetRises(seen, clockwise, anticlockwise) +
              Rises(previous, mask, BitOf(clockwise)) - Rises(previous, mask, BitOf(anticlockwise))
  {
    RisesAreRisingEdges(seen, previous, mask, BitOf(clockwise));
    RisesAreRisingEdges(seen, previous, mask, BitOf(anticlockwise));
  }

  /** Each encoder's net delta is its clockwise rising edges less its anticlockwise ones. */
  lemma {:induction false} EncodersCountRisingEdges(reports: seq<Option<seq<byte>>>)
    ensures var s := ReceiveAll(reports);
            && Turns(s.inputs, "left_encoder") == NetRises(s.seen, LeftClockwise, LeftAnticlockwise)
            && Turns(s.inputs, "right_encoder") == NetRises(s.seen, RightClockwise, RightAnticlockwise)
  {
    if reports != [] {
      var s, r := ReceiveAll(reports[..|reports| - 1]), reports[|reports| - 1];
      EncodersCountRisingEdges(reports[..|reports| - 1]);
      EdgesLoseNothing(reports[..|reports| - 1]);
      var s' := Receive(s, r);
      if s'.seen != s.seen {
        var mask := DecodeHidMask(r.value, 0, Big).value;
        OneReportTurns(s, mask);
      }
    }
  }

  lemma {:induction false} OneReportTurns(s: Session, mask: Mask)
    requires s.previous == if s.seen == [] then {} else s.seen[|s.seen| - 1]
    requires Turns(s.inputs, "left_encoder") == NetRises(s.seen, LeftClockwise, LeftAnticlockwise)
    requires Turns(s.inputs, "right_encoder") == NetRises(s.seen, RightClockwise, RightAnticlockwise)
    ensures var inputs := s.inputs + Translate(ChangedEvents(s.previous, mask));
            && Turns(inputs, "left_encoder") == NetRises(s.seen + [mask], LeftClockwise, LeftAnticlockwise)
            && Turns(inputs, "right_encoder") == NetRises(s.seen + [mask], RightClockwise, RightAnticlockwise)
  {
    var inputs := Translate(ChangedEvents(s.previous, mask));
    PressesConcat(s.inputs, inputs, "left_encoder");
    PressesConcat(s.inputs, inputs, "right_encoder");
    NetTurn(s.previous, mask);
    NetRisesSnoc(s.seen, s.previous, mask, LeftClockwise, LeftAnticlockwise);
    NetRisesSnoc(s.seen, s.previous, mask, RightClockwise, RightAnticlockwise);
  }

  lemma {:induction false} RisesAreRisingEdges(seen: seq<Mask>, previous: Mask, mask: Mask, bit: Bit)
    requires previous == if seen == [] then {} else seen[|seen| - 1]
    ensures RisingEdges(seen + [mask], bit) == RisingEdges(seen, bit) + Rises(previous, mask, bit)
  {
    assert (seen + [mask])[..|seen|] == seen;
  }

  // ---------------------------------------------------------------- what the reports say, byte by byte

  /** What bit `k` of a byte counts for. */
  function Weight(k: nat): (w: nat)
    requires k < 8
    ensures w > 0
  {
    match k
    case 0 => 1 case 1 => 2 case 2 => 4 case 3 => 8
    case 4 => 16 case 5 => 32 case 6 => 64 case 7 => 128
  }

  predicate BitOn(b: byte, k: nat)
    requires k < 8
  {
    b as nat / Weight(k) % 2 == 1
  }

  /** A report too short to decode has come in. */
  predicate Broken(reports: seq<Option<seq<byte>>>) {
    exists i :: 0 <= i < |reports| && reports[i].Some? && |reports[i].value| == 1
  }

  /** The reports a worker acts on: those with content, up to one too short to decode. */
  function Heard(reports: seq<Option<seq<byte>>>): (heard: seq<seq<byte>>)
    ensures forall i :: 0 <= i < |heard| ==> |heard[i]| >= 2
  {
    if reports == [] then []
    else
      var before := Heard(reports[..|reports| - 1]);
      var r := reports[|reports| - 1];
      if Broken(reports[..|reports| - 1]) || r == None || |r.value| < 2 then before else before + [r.value]
  }

  /** The mask is the report's first two bytes: bits 8 to 15 the first byte, bits 0 to 7 the second. */
  ghost predicate MaskOfReport(mask: Mask, report: seq<byte>)
    requires |report| >= 2
  {
    forall k: nat :: k < 8 ==> (8 + k in mask <==> BitOn(report[0], k)) && (k in mask <==> BitOn(report[1], k))
  }

  lemma {:induction false} PowersAreWeights(k: nat)
    requires k < 8
    ensures Pow2(k) == Weight(k) && Pow2(8 + k) == 256 * Weight(k)
  {
    if k == 0 {
      assert Pow2(0) == 1 && Pow2(4) == 16 && Pow2(8) == 256;
    } else {
      PowersAreWeights(k - 1);
    }
  }

  lemma DivUnique(x: nat, d: nat, q: nat, r: nat)
    requires d > 0 && x == q * d + r && r < d
    ensures x / d == q
  {
    var q' := x / d;
    if q > q' {
      Spread(q, q', d);
    } else if q < q' {
      Spread(q', q, d);
    }
  }

  lemma AddMultiple(a: nat, w: nat, x: nat)
    requires w > 0
    ensures (a * w + x) / w == a + x / w
  {
    var q, r := x / w, x % w;
    assert a * w + q * w == (a + q) * w;
    DivUnique(a * w + x, w, a + q, r);
  }

  /** An even multiple of a weight does not show at that weight's bit. */
  lemma LowBit(a: nat, w: nat, second: nat)
    requires w > 0
    ensures (2 * a * w + second) / w % 2 == second / w % 2
  {
    AddMultiple(2 * a, w, second);
    var q := second / w;
    assert (2 * a + q) % 2 == q % 2;
  }

  lemma EvenMultiple(first: nat, k: nat)
    requires k < 8
    ensures first * 256 == 2 * (first * (128 / Weight(k))) * Weight(k)
  {
  }

  lemma HighBit(first: nat, second: nat, w: nat)
    requires w > 0 && second < 256
    ensures (first * 256 + second) / (256 * w) % 2 == first / w % 2
  {
    var q, r := first / w, first % w;
    assert q * (256 * w) == q * w * 256;
    assert first * 256 == (q * w + r) * 256 == q * w * 256 + r * 256;
    DivUnique(first * 256 + second, 256 * w, q, r * 256 + second);
  }

  /** One bit of the word, found in the byte it comes from. */
  lemma BitFromByte(report: seq<byte>, k: nat)
    requires |report| >= 2 && k < 8
    ensures var value := report[0] as nat * 256 + report[1] as nat;
            (BitSet(value, 8 + k) <==> BitOn(report[0], k)) && (BitSet(value, k) <==> BitOn(report[1], k))
  {
    PowersAreWeights(k);
    EvenMultiple(report[0] as nat, k);
    LowBit(report[0] as nat * (128 / Weight(k)), Weight(k), report[1] as nat);
    HighBit(report[0] as nat, report[1] as nat, Weight(k));
  }

  lemma BitsAreSet(value: nat, k: nat)
    requires k < 16
    ensures k in Bits(value) <==> BitSet(value, k)
  {
  }

  lemma DecodedBits(report: seq<byte>)
    requires |report| >= 2
    ensures var m := DecodeHidMask(report, 0, Big); m.Some? && MaskOfReport(m.value, report)
  {
    var value := report[0] as nat * 256 + report[1] as nat;
    assert DecodeHidMask(report, 0, Big) == Some(Bits(value));
    forall k: nat | k < 8
      ensures (8 + k in Bits(value) <==> BitOn(report[0], k)) && (k in Bits(value) <==> BitOn(report[1], k))
    {
      BitFromByte(report, k);
      BitsAreSet(value, k);
      BitsAreSet(value, 8 + k);
    }
  }

  /** The masks seen are the reports heard, and the session fails exactly on a report too short. */
  ghost predicate SeenAreHeard(s: Session, reports: seq<Option<seq<byte>>>) {
    && (s.failed <==> Broken(reports))
    && |s.seen| == |Heard(reports)|
    && forall i :: 0 <= i < |s.seen| ==> MaskOfReport(s.seen[i], Heard(reports)[i])
  }

  lemma {:induction false} SeenMasksAreReports(reports: seq<Option<seq<byte>>>)
    ensures SeenAreHeard(ReceiveAll(reports), reports)
  {
    if reports != [] {
      var n := |reports| - 1;
      SeenMasksAreReports(reports[..n]);
      var r := reports[n];
      if Broken(reports[..n]) {
        var i :| 0 <= i < n && reports[..n][i].Some? && |reports[..n][i].value| == 1;
        assert reports[i].Some? && |reports[i].value| == 1;
      } else if r.Some? && |r.value| == 1 {
        assert Broken(reports);
      } else if r.Some? && r.value != [] {
        DecodedBits(r.value);
      }
      if Broken(reports) {
        var i :| 0 <= i < |reports| && reports[i].Some? && |reports[i].value| == 1;
        assert i < n ==> reports[..n][i] == reports[i];
      }
    }
  }

  /** The last thing heard of a button is a press. */
  predicate IsDown(inputs: seq<Input>, control: string) {
    var downs := Presses(inputs, control);
    downs != [] && downs[|downs| - 1]
  }

  /** The bit of the byte was set in the last report heard. */
  predicate LastBit(heard: seq<seq<byte>>, at: nat, k: nat)
    requires at < 2 && k < 8 && forall i :: 0 <= i < |heard| ==> |heard[i]| >= 2
  {
    heard != [] && BitOn(heard[|heard| - 1][at], k)
  }

  /** Where bit `k` of byte `at` stands in the word. */
  function WordBit(at: nat, k: nat): Bit
    requires at < 2 && k < 8
  {
    if at == 0 then 8 + k else k
  }

  lemma {:induction false} PreviousBit(reports: seq<Option<seq<byte>>>, at: nat, k: nat)
    requires at < 2 && k < 8
    ensures WordBit(at, k) in ReceiveAll(reports).previous <==> LastBit(Heard(reports), at, k)
  {
    SeenMasksAreReports(reports);
    EdgesLoseNothing(reports);
    LastMaskBit(ReceiveAll(reports), Heard(reports), at, k);
  }

  lemma LastMaskBit(s: Session, heard: seq<seq<byte>>, at: nat, k: nat)
    requires at < 2 && k < 8 && |s.seen| == |heard|
    requires forall i :: 0 <= i < |heard| ==> |heard[i]| >= 2 && MaskOfReport(s.seen[i], heard[i])
    requires s.previous == if s.seen == [] then {} else s.seen[|s.seen| - 1]
    ensures WordBit(at, k) in s.previous <==> LastBit(heard, at, k)
  {
    if heard != [] {
      assert MaskOfReport(s.seen[|heard| - 1], heard[|heard| - 1]);
    }
  }

  lemma {:induction false} ButtonFollowsBit(reports: seq<Option<seq<byte>>>, name: Name, control: string, at: nat, k: nat)
    requires ButtonControl(name) == Some(control) && at < 2 && k < 8 && BitOf(name) == WordBit(at, k)
    ensures IsDown(ReceiveAll(reports).inputs, control) <==> LastBit(Heard(reports), at, k)
  {
    ButtonsAlternate(reports, name, control);
    PreviousBit(reports, at, k);
    LastOfAlternating(Presses(ReceiveAll(reports).inputs, control));
  }

  lemma LastOfAlternating(downs: seq<bool>)
    requires Alternates(downs)
    ensures downs != [] && downs[|downs| - 1] <==> |downs| % 2 == 1
  {
  }

  lemma ArrowPlaces()
    ensures ButtonControl(Up) == Some("up") && BitOf(Up) == 0 && ButtonControl(Down) == Some("down") && BitOf(Down) == 1
  {
  }

  lemma SoftKeyPlaces()
    ensures ButtonControl(S1) == Some("s1") && BitOf(S1) == 8 && ButtonControl(S2) == Some("s2") && BitOf(S2) == 9
    ensures ButtonControl(S3) == Some("s3") && BitOf(S3) == 10 && ButtonControl(S4) == Some("s4") && BitOf(S4) == 11
    ensures ButtonControl(S5) == Some("s5") && BitOf(S5) == 12 && ButtonControl(S6) == Some("s6") && BitOf(S6) == 13
  {
  }

  /** A button and the bit that stands for it, on every report sequence. */
  ghost predicate Follows(reports: seq<Option<seq<byte>>>, control: string, at: nat, k: nat)
    requires at < 2 && k < 8
  {
    IsDown(ReceiveAll(reports).inputs, control) <==> LastBit(Heard(reports), at, k)
  }

  /**
   * What the user holds down is what the last report says: the arrow keys are
   * the two lowest bits of its second byte, the soft keys the six lowest of its
   * first, for every sequence of reports.
   */
  lemma ButtonsFollowTheReports(reports: seq<Option<seq<byte>>>)
    ensures Follows(reports, "up", 1, 0) && Follows(reports, "down", 1, 1)
    ensures Follows(reports, "s1", 0, 0) && Follows(reports, "s2", 0, 1) && Follows(reports, "s3", 0, 2)
    ensures Follows(reports, "s4", 0, 3) && Follows(reports, "s5", 0, 4) && Follows(reports, "s6", 0, 5)
  {
    ArrowPlaces();
    SoftKeyPlaces();
    ButtonFollowsBit(reports, Up, "up", 1, 0);
    ButtonFollowsBit(reports, Down, "down", 1, 1);
    ButtonFollowsBit(reports, S1, "s1", 0, 0);
    ButtonFollowsBit(reports, S2, "s2", 0, 1);
    ButtonFollowsBit(reports, S3, "s3", 0, 2);
    ButtonFollowsBit(reports, S4, "s4", 0, 3);
    ButtonFollowsBit(reports, S5, "s5", 0, 4);
    ButtonFollowsBit(reports, S6, "s6", 0, 5);
  }

  /** How often a bit of a byte goes from 0 to 1 along the reports, starting from 0. */
  function Rising(heard: seq<seq<byte>>, at: nat, k: nat): nat
    requires at < 2 && k < 8 && forall i :: 0 <= i < |heard| ==> |heard[i]| >= 2
  {
    if heard == [] then 0
    else
      var n := |heard| - 1;
      Rising(heard[..n], at, k) + if BitOn(heard[n][at], k) && (n == 0 || !BitOn(heard[n - 1][at], k)) then 1 else 0
  }

  lemma {:induction false} RisingIsRisingEdges(seen: seq<Mask>, heard: seq<seq<byte>>, k: nat)
    requires k < 8 && |seen| == |heard| && forall i :: 0 <= i < |heard| ==> |heard[i]| >= 2 && MaskOfReport(seen[i], heard[i])
    ensures RisingEdges(seen, 8 + k) == Rising(heard, 0, k) && RisingEdges(seen, k) == Rising(heard, 1, k)
  {
    if seen != [] {
      var n := |seen| - 1;
      RisingIsRisingEdges(seen[..n], heard[..n], k);
      assert MaskOfReport(seen[n], heard[n]);
      assert n > 0 ==> MaskOfReport(seen[n - 1], heard[n - 1]);
    }
  }

  /** The encoders turn by the reports' bits: the two highest of the first byte, bits 2 and 3 of the second. */
  lemma EncodersFollowTheReports(reports: seq<Option<seq<byte>>>)
    ensures var inputs, heard := ReceiveAll(reports).inputs, Heard(reports);
            && Turns(inputs, "left_encoder") == Rising(heard, 0, 7) - Rising(heard, 0, 6)
            && Turns(inputs, "right_encoder") == Rising(heard, 1, 3) - Rising(heard, 1, 2)
  {
    EncodersCountRisingEdges(reports);
    EncoderPlaces(ReceiveAll(reports).seen);
    RisesAreInTheReports(reports, 7);
    RisesAreInTheReports(reports, 6);
    RisesAreInTheReports(reports, 3);
    RisesAreInTheReports(reports, 2);
  }

  lemma RisesAreInTheReports(reports: seq<Option<seq<byte>>>, k: nat)
    requires k < 8
    ensures RisingEdges(ReceiveAll(reports).seen, 8 + k) == Rising(Heard(reports), 0, k)
    ensures RisingEdges(ReceiveAll(reports).seen, k) == Rising(Heard(reports), 1, k)
  {
    SeenMasksAreReports(reports);
    RisingIsRisingEdges(ReceiveAll(reports).seen, Heard(reports), k);
  }

  lemma EncoderPlaces(seen: seq<Mask>)
    ensures NetRises(seen, LeftClockwise, LeftAnticlockwise) == RisingEdges(seen, 15) - RisingEdges(seen, 14)
    ensures NetRises(seen, RightClockwise, RightAnticlockwise) == RisingEdges(seen, 3) - RisingEdges(seen, 2)
  {
    assert BitOf(LeftClockwise) == 15 && BitOf(LeftAnticlockwise) == 14;
    assert BitOf(RightClockwise) == 3 && BitOf(RightAnticlockwise) == 2;
  }

  /** Inputs come from the panel's own controls, an encoder's one step at a time and named for its direction. */
  predicate Sensible(i: Input) {
    match i
    case Button(control, _) => control in ["up", "down", "s1", "s2", "s3", "s4", "s5", "s6"]
    case Rotate(control, delta, direction) =>
      control in ["left_encoder", "right_encoder"] && delta == if direction.Clockwise? then 1 else -1
  }

  lemma EventIsSensible(e: HidEvent)
    ensures TranslateHidEvent(e).Some? ==> Sensible(TranslateHidEvent(e).value)
  {
  }

  lemma {:induction false} InputsAreSensible(events: seq<HidEvent>)
    ensures forall i :: 0 <= i < |Translate(events)| ==> Sensible(Translate(events)[i])
  {
    if events != [] {
      InputsAreSensible(events[..|events| - 1]);
      EventIsSensible(events[|events| - 1]);
    }
  }

  lemma SessionsAreSensible(reports: seq<Option<seq<byte>>>)
    ensures var inputs := ReceiveAll(reports).inputs; forall i :: 0 <= i < |inputs| ==> Sensible(inputs[i])
  {
    EdgesLoseNothing(reports);
    InputsAreSensible(ReceiveAll(reports).edges);
  }

  // ---------------------------------------------------------------- the code

  class HidReader {
    var previousMask: Mask
    /** The inputs handed to the supervisor, in order. */
    var sent: seq<Input>

    constructor ()
      ensures previousMask == {} && sent == []
    {
      previousMask, sent := {}, [];
    }

    /** Handles one read of the interrupt endpoint; a report too short to decode ends the worker. */
    method OnReport(report: Option<seq<byte>>, ghost s: Session) returns (ok: bool)
      requires !s.failed && previousMask == s.previous && sent == s.inputs
      modifies this
      ensures var s' := Receive(s, report);
              ok == !s'.failed && (ok ==> previousMask == s'.previous) && sent == s'.inputs
    {
      if report == None || report.value == [] {
        return true;
      }
      var mask := DecodeHidMask(report.value, 0, Big);
      if mask == None {
        return false;
      }
      var events := ChangedEvents(previousMask, mask.value);
      var index := 0;
      while index < |events|
        invariant 0 <= index <= |events|
        invariant sent == s.inputs + Translate(events[..index])
        invariant previousMask == s.previous
      {
        var input := TranslateHidEvent(events[index]);
        assert events[..index + 1][..index] == events[..index];
        if input.Some? {
          sent := sent + [input.value];
        }
        index := index + 1;
      }
      assert events[..|events|] == events;
      previousMask := mask.value;
      ok := true;
    }
  }
}
