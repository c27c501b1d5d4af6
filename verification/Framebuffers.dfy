/** The 320x240 framebuffer and its conversion from top-down RGB to the device's layout. */
module Framebuffers {
  import opened Basics
  import opened ControlPackets

  datatype ChannelOrder = Rgb | Bgr
  datatype RowOrder = TopDown | BottomUp

  /** The byte of channel `k` of the pixel in column `x` of row `y`. */
  function Offset(x: nat, y: nat, k: nat): (i: nat)
    requires x < WIDTH && y < HEIGHT && k < BYTES_PER_PIXEL
    ensures i < FRAME_BYTES
  {
    (y * WIDTH + x) * BYTES_PER_PIXEL + k
  }

  function PayloadY(y: nat, order: RowOrder): (r: nat)
    requires y < HEIGHT
    ensures r < HEIGHT
  {
    match order
    case TopDown => y
    case BottomUp => HEIGHT - 1 - y
  }

  function Channel(k: nat, order: ChannelOrder): (r: nat)
    requires k < BYTES_PER_PIXEL
    ensures r < BYTES_PER_PIXEL
  {
    match order
    case Rgb => k
    case Bgr => 2 - k
  }

  // ---------------------------------------------------------------- byte positions

  function Column(i: nat): (x: nat) ensures x < WIDTH { i / BYTES_PER_PIXEL % WIDTH }

  function Row(i: nat): (y: nat)
    requires i < FRAME_BYTES
    ensures y < HEIGHT
  {
    i / BYTES_PER_PIXEL / WIDTH
  }

  function Lane(i: nat): (k: nat) ensures k < BYTES_PER_PIXEL { i % BYTES_PER_PIXEL }

  /** Every byte is one channel of one pixel, and of only one. */
  lemma OffsetBijective(i: nat, x: nat, y: nat, k: nat)
    requires i < FRAME_BYTES && x < WIDTH && y < HEIGHT && k < BYTES_PER_PIXEL
    ensures Offset(Column(i), Row(i), Lane(i)) == i
    ensures Column(Offset(x, y, k)) == x && Row(Offset(x, y, k)) == y && Lane(Offset(x, y, k)) == k
  {
    var o := Offset(x, y, k);
    assert o / BYTES_PER_PIXEL == y * WIDTH + x;
  }

  /** Where output byte `i` comes from. */
  function Source(i: nat, channels: ChannelOrder, rows: RowOrder): (j: nat)
    requires i < FRAME_BYTES
    ensures j < FRAME_BYTES
  {
    Offset(Column(i), PayloadY(Row(i), rows), Channel(Lane(i), channels))
  }

  /** The layout is its own inverse, so it permutes the bytes of the frame. */
  lemma SourceInvolutive(i: nat, channels: ChannelOrder, rows: RowOrder)
    requires i < FRAME_BYTES
    ensures Source(Source(i, channels, rows), channels, rows) == i
  {
    OffsetBijective(i, Column(i), PayloadY(Row(i), rows), Channel(Lane(i), channels));
  }

  /** The device frame of a top-down RGB image. */
  function Converted(rgb: seq<byte>, channels: ChannelOrder, rows: RowOrder): (frame: seq<byte>)
    requires |rgb| == FRAME_BYTES
    ensures |frame| == FRAME_BYTES
  {
    seq(FRAME_BYTES, i requires 0 <= i < FRAME_BYTES => rgb[Source(i, channels, rows)])
  }

  /** Converting twice gives the image back. */
  lemma ConvertedTwice(rgb: seq<byte>, channels: ChannelOrder, rows: RowOrder)
    requires |rgb| == FRAME_BYTES
    ensures Converted(Converted(rgb, channels, rows), channels, rows) == rgb
  {
    forall i | 0 <= i < FRAME_BYTES
      ensures Converted(Converted(rgb, channels, rows), channels, rows)[i] == rgb[i]
    {
      SourceInvolutive(i, channels, rows);
    }
  }

  /** Pixel (x, y) lands in the mapped row of the same column, channel by mapped channel. */
  lemma PixelLands(rgb: seq<byte>, channels: ChannelOrder, rows: RowOrder, x: nat, y: nat, k: nat)
    requires |rgb| == FRAME_BYTES && x < WIDTH && y < HEIGHT && k < BYTES_PER_PIXEL
    ensures Converted(rgb, channels, rows)[Offset(x, PayloadY(y, rows), Channel(k, channels))] == rgb[Offset(x, y, k)]
  {
    OffsetBijective(0, x, PayloadY(y, rows), Channel(k, channels));
  }

  /**
   * The four layouts in plain numbers: pixels row by row, 320 to a row, three
   * bytes each; blue first or red first, top row first or bottom row first.
   */
  lemma LayoutInNumbers(rgb: seq<byte>, x: nat, y: nat, k: nat)
    requires |rgb| == 230400 && x < 320 && y < 240 && k < 3
    ensures Converted(rgb, Rgb, TopDown)[(y * 320 + x) * 3 + k] == rgb[(y * 320 + x) * 3 + k]
    ensures Converted(rgb, Bgr, TopDown)[(y * 320 + x) * 3 + (2 - k)] == rgb[(y * 320 + x) * 3 + k]
    ensures Converted(rgb, Rgb, BottomUp)[((239 - y) * 320 + x) * 3 + k] == rgb[(y * 320 + x) * 3 + k]
    ensures Converted(rgb, Bgr, BottomUp)[((239 - y) * 320 + x) * 3 + (2 - k)] == rgb[(y * 320 + x) * 3 + k]
  {
    PixelLands(rgb, Rgb, TopDown, x, y, k);
    PixelLands(rgb, Bgr, TopDown, x, y, k);
    PixelLands(rgb, Rgb, BottomUp, x, y, k);
    PixelLands(rgb, Bgr, BottomUp, x, y, k);
  }

  // ---------------------------------------------------------------- the code

  /** Writes one pixel's three bytes in the given channel order. */
  method EncodeRgbBytes(rgb: seq<byte>, channels: ChannelOrder, out: array<byte>, at: nat) returns (ok: bool)
    requires |rgb| == 3 ==> at + 3 <= out.Length
    modifies out
    ensures ok <==> |rgb| == 3
    ensures !ok ==> out[..] == old(out[..])
    ensures ok ==> forall k :: 0 <= k < 3 ==> out[at + Channel(k, channels)] == rgb[k]
    ensures ok ==> forall i :: 0 <= i < out.Length && !(at <= i < at + 3) ==> out[i] == old(out[i])
  {
    if |rgb| != 3 {
      return false;
    }
    match channels {
      case Rgb => out[at], out[at + 1], out[at + 2] := rgb[0], rgb[1], rgb[2];
      case Bgr => out[at], out[at + 1], out[at + 2] := rgb[2], rgb[1], rgb[0];
    }
    ok := true;
  }

  /** Pixel (x, y) of the image is in its place in the frame. */
  ghost predicate Placed(frame: seq<byte>, rgb: seq<byte>, channels: ChannelOrder, rows: RowOrder, x: nat, y: nat)
    requires |frame| == FRAME_BYTES && |rgb| == FRAME_BYTES && x < WIDTH && y < HEIGHT
  {
    forall k :: 0 <= k < 3 ==> frame[Offset(x, PayloadY(y, rows), Channel(k, channels))] == rgb[Offset(x, y, k)]
  }

  /** How often each pixel of the frame has been written, by column and payload row. */
  type Tally = map<(nat, nat), nat>

  ghost function Bump(tally: Tally, x: nat, y: nat): Tally {
    tally[(x, y) := if (x, y) in tally then tally[(x, y)] + 1 else 1]
  }

  /** The pixels written so far, each once: those of earlier rows and the first `x` of row `y`. */
  ghost predicate WrittenOnce(tally: Tally, rows: RowOrder, x: nat, y: nat) {
    forall x', y' :: 0 <= x' < WIDTH && 0 <= y' < HEIGHT ==>
      var at := (x', PayloadY(y', rows));
      if y' < y || (y' == y && x' < x) then at in tally && tally[at] == 1 else at !in tally
  }

  lemma BumpOnce(tally: Tally, rows: RowOrder, x: nat, y: nat)
    requires x < WIDTH && y < HEIGHT && WrittenOnce(tally, rows, x, y)
    ensures WrittenOnce(Bump(tally, x, PayloadY(y, rows)), rows, x + 1, y)
  {
  }

  /** Different pixels have no byte in common. */
  lemma PixelsApart(x: nat, y: nat, x': nat, y': nat, k: nat)
    requires x < WIDTH && y < HEIGHT && x' < WIDTH && y' < HEIGHT && (x' != x || y' != y) && k < BYTES_PER_PIXEL
    ensures !(Offset(x, y, 0) <= Offset(x', y', k) < Offset(x, y, 0) + 3)
  {
  }

  lemma PlacedElsewhere(before: seq<byte>, frame: seq<byte>, rgb: seq<byte>, channels: ChannelOrder, rows: RowOrder,
                        x: nat, y: nat, x': nat, y': nat)
    requires |before| == FRAME_BYTES && |frame| == FRAME_BYTES && |rgb| == FRAME_BYTES
    requires x < WIDTH && y < HEIGHT && x' < WIDTH && y' < HEIGHT && (x' != x || y' != y)
    requires var target := Offset(x, PayloadY(y, rows), 0);
             forall i :: 0 <= i < FRAME_BYTES && !(target <= i < target + 3) ==> frame[i] == before[i]
    requires Placed(before, rgb, channels, rows, x', y')
    ensures Placed(frame, rgb, channels, rows, x', y')
  {
    forall k | 0 <= k < 3
      ensures frame[Offset(x', PayloadY(y', rows), Channel(k, channels))] == rgb[Offset(x', y', k)]
    {
      PixelsApart(x, PayloadY(y, rows), x', PayloadY(y', rows), Channel(k, channels));
    }
  }

  lemma PlacedHere(frame: seq<byte>, rgb: seq<byte>, pixel: seq<byte>, channels: ChannelOrder, rows: RowOrder, x: nat, y: nat)
    requires |frame| == FRAME_BYTES && |rgb| == FRAME_BYTES && x < WIDTH && y < HEIGHT
    requires |pixel| == 3 && pixel == rgb[Offset(x, y, 0)..Offset(x, y, 0) + 3]
    requires forall k :: 0 <= k < 3 ==> frame[Offset(x, PayloadY(y, rows), 0) + Channel(k, channels)] == pixel[k]
    ensures Placed(frame, rgb, channels, rows, x, y)
  {
    forall k | 0 <= k < 3 ensures frame[Offset(x, PayloadY(y, rows), Channel(k, channels))] == rgb[Offset(x, y, k)] {
      assert frame[Offset(x, PayloadY(y, rows), 0) + Channel(k, channels)] == pixel[k];
    }
  }

  /** Copies one pixel to its place, and touches no other. */
  method PlacePixel(frame: array<byte>, rgb: seq<byte>, channels: ChannelOrder, rows: RowOrder, x: nat, y: nat)
    requires frame.Length == FRAME_BYTES && |rgb| == FRAME_BYTES && x < WIDTH && y < HEIGHT
    modifies frame
    ensures Placed(frame[..], rgb, channels, rows, x, y)
    ensures forall x', y' | 0 <= x' < WIDTH && 0 <= y' < HEIGHT && (x' != x || y' != y) ::
              Placed(old(frame[..]), rgb, channels, rows, x', y') ==> Placed(frame[..], rgb, channels, rows, x', y')
  {
    var payloadY := PayloadY(y, rows);
    var source := (y * WIDTH + x) * BYTES_PER_PIXEL;
    var target := (payloadY * WIDTH + x) * BYTES_PER_PIXEL;
    var pixel := rgb[source..source + 3];
    ghost var before := frame[..];
    var _ := EncodeRgbBytes(pixel, channels, frame, target);
    PlacedHere(frame[..], rgb, pixel, channels, rows, x, y);
    forall x', y' | 0 <= x' < WIDTH && 0 <= y' < HEIGHT && (x' != x || y' != y) && Placed(before, rgb, channels, rows, x', y')
      ensures Placed(frame[..], rgb, channels, rows, x', y')
    {
      PlacedElsewhere(before, frame[..], rgb, channels, rows, x, y, x', y');
    }
  }

  method FrameFromTopDownRgbBytes(rgb: seq<byte>, channels: ChannelOrder, rows: RowOrder)
    returns (r: Option<array<byte>>, ghost tally: Tally)
    ensures r.Some? <==> |rgb| == FRAME_BYTES
    ensures r.Some? ==> fresh(r.value) && r.value[..] == Converted(rgb, channels, rows)
    ensures r.Some? ==> forall x, y :: 0 <= x < WIDTH && 0 <= y < HEIGHT ==> (x, y) in tally && tally[(x, y)] == 1
  {
    tally := map[];
    if |rgb| != FRAME_BYTES {
      return None, tally;
    }
    var frame := new byte[FRAME_BYTES](_ => 0);
    var y := 0;
    while y < HEIGHT
      invariant 0 <= y <= HEIGHT
      invariant forall x', y' :: 0 <= x' < WIDTH && 0 <= y' < y ==> Placed(frame[..], rgb, channels, rows, x', y')
      invariant WrittenOnce(tally, rows, 0, y)
    {
      var x := 0;
      while x < WIDTH
        invariant 0 <= x <= WIDTH
        invariant forall x', y' :: 0 <= x' < WIDTH && 0 <= y' < HEIGHT && (y' < y || (y' == y && x' < x)) ==>
                    Placed(frame[..], rgb, channels, rows, x', y')
        invariant WrittenOnce(tally, rows, x, y)
      {
        PlacePixel(frame, rgb, channels, rows, x, y);
        BumpOnce(tally, rows, x, y);
        tally := Bump(tally, x, PayloadY(y, rows));
        x := x + 1;
      }
      y := y + 1;
    }
    AllPlaced(frame[..], rgb, channels, rows);
    forall x, y' | 0 <= x < WIDTH && 0 <= y' < HEIGHT ensures (x, y') in tally && tally[(x, y')] == 1 {
      assert PayloadY(PayloadY(y', rows), rows) == y';
    }
    r := Some(frame);
  }

  lemma AllPlaced(frame: seq<byte>, rgb: seq<byte>, channels: ChannelOrder, rows: RowOrder)
    requires |frame| == FRAME_BYTES && |rgb| == FRAME_BYTES
    requires forall x, y :: 0 <= x < WIDTH && 0 <= y < HEIGHT ==> Placed(frame, rgb, channels, rows, x, y)
    ensures frame == Converted(rgb, channels, rows)
  {
    forall i | 0 <= i < FRAME_BYTES ensures frame[i] == rgb[Source(i, channels, rows)] {
      assert Placed(frame, rgb, channels, rows, Column(i), PayloadY(Row(i), rows));
      PlacedByte(frame, rgb, channels, rows, i);
    }
  }

  lemma PlacedByte(frame: seq<byte>, rgb: seq<byte>, channels: ChannelOrder, rows: RowOrder, i: nat)
    requires |frame| == FRAME_BYTES && |rgb| == FRAME_BYTES && i < FRAME_BYTES
    requires Placed(frame, rgb, channels, rows, Column(i), PayloadY(Row(i), rows))
    ensures frame[i] == rgb[Source(i, channels, rows)]
  {
    var x, y, k := Column(i), PayloadY(Row(i), rows), Channel(Lane(i), channels);
    OffsetBijective(i, 0, 0, 0);
    assert frame[Offset(x, PayloadY(y, rows), Channel(k, channels))] == rgb[Offset(x, y, k)];
  }
}
