/** The local notice: a fixed bitmap font drawn at an integer scale, and the lost-stream frame. */
module Notices {
  import opened Basics
  import opened ControlPackets
  import opened Framebuffers

  type Color = (byte, byte, byte)

  const GLYPH_ROWS := 7
  const GLYPH_COLUMNS := 5
  /** Columns from one letter to the next. */
  const PITCH := 6

  /** The seven rows of a letter; anything outside the small font is blank. */
  function Glyph(letter: char): (rows: seq<nat>)
    ensures |rows| == GLYPH_ROWS
  {
    match letter
    case 'A' => [14, 17, 17, 31, 17, 17, 17]
    case 'E' => [31, 16, 16, 30, 16, 16, 31]
    case 'F' => [31, 16, 16, 30, 16, 16, 16]
    case 'G' => [14, 17, 16, 23, 17, 17, 14]
    case 'I' => [31, 4, 4, 4, 4, 4, 31]
    case 'L' => [16, 16, 16, 16, 16, 16, 31]
    case 'M' => [17, 27, 21, 21, 17, 17, 17]
    case 'N' => [17, 25, 25, 21, 19, 19, 17]
    case 'O' => [14, 17, 17, 17, 17, 17, 14]
    case 'R' => [30, 17, 17, 30, 20, 18, 17]
    case 'S' => [15, 16, 16, 14, 1, 1, 30]
    case 'T' => [31, 4, 4, 4, 4, 4, 4]
    case 'W' => [17, 17, 17, 21, 21, 27, 17]
    case _ => [0, 0, 0, 0, 0, 0, 0]
  }

  /** Bit `4 - x` of a glyph row: its column `x` from the left. */
  predicate RowBit(row: nat, x: nat)
    requires x < GLYPH_COLUMNS
  {
    row / [16, 8, 4, 2, 1][x] % 2 == 1
  }

  /** How each letter looks, top row first. */
  function Looks(letter: char): (rows: seq<string>)
    ensures |rows| == 7 && forall y :: 0 <= y < 7 ==> |rows[y]| == 5
  {
    match letter
    case 'A' => [".###.", "#...#", "#...#", "#####", "#...#", "#...#", "#...#"]
    case 'E' => ["#####", "#....", "#....", "####.", "#....", "#....", "#####"]
    case 'F' => ["#####", "#....", "#....", "####.", "#....", "#....", "#...."]
    case 'G' => [".###.", "#...#", "#....", "#.###", "#...#", "#...#", ".###."]
    case 'I' => ["#####", "..#..", "..#..", "..#..", "..#..", "..#..", "#####"]
    case 'L' => ["#....", "#....", "#....", "#....", "#....", "#....", "#####"]
    case 'M' => ["#...#", "##.##", "#.#.#", "#.#.#", "#...#", "#...#", "#...#"]
    case 'N' => ["#...#", "##..#", "##..#", "#.#.#", "#..##", "#..##", "#...#"]
    case 'O' => [".###.", "#...#", "#...#", "#...#", "#...#", "#...#", ".###."]
    case 'R' => ["####.", "#...#", "#...#", "####.", "#.#..", "#..#.", "#...#"]
    case 'S' => [".####", "#....", "#....", ".###.", "....#", "....#", "####."]
    case 'T' => ["#####", "..#..", "..#..", "..#..", "..#..", "..#..", "..#.."]
    case 'W' => ["#...#", "#...#", "#...#", "#.#.#", "#.#.#", "##.##", "#...#"]
    case _ => [".....", ".....", ".....", ".....", ".....", ".....", "....."]
  }

  /** A row of a picture as a number, its leftmost dot the most significant. */
  function RowNumber(row: string): nat
    requires |row| == 5
  {
    Dot(row[0]) * 16 + Dot(row[1]) * 8 + Dot(row[2]) * 4 + Dot(row[3]) * 2 + Dot(row[4])
  }

  function Dot(c: char): nat {
    if c == '#' then 1 else 0
  }

  lemma RowBitShowsDot(row: string, x: nat)
    requires |row| == 5 && x < GLYPH_COLUMNS
    ensures RowBit(RowNumber(row), x) <==> row[x] == '#'
  {
  }

  lemma GlyphIsDrawn(letter: char, y: nat)
    requires y < GLYPH_ROWS
    ensures Glyph(letter)[y] == RowNumber(Looks(letter)[y])
  {
    match letter {
      case 'A' => case 'E' => case 'F' => case 'G' => case 'I' => case 'L' => case 'M' =>
      case 'N' => case 'O' => case 'R' => case 'S' => case 'T' => case 'W' => case _ =>
    }
  }

  /** The bitmaps show the letters, upright and from left to right. */
  lemma GlyphsLookRight(letter: char, x: nat, y: nat)
    requires x < GLYPH_COLUMNS && y < GLYPH_ROWS
    ensures RowBit(Glyph(letter)[y], x) <==> Looks(letter)[y][x] == '#'
  {
    GlyphIsDrawn(letter, y);
    RowBitShowsDot(Looks(letter)[y], x);
  }

  /** Cell (gx, gy) of a text: column `gx` counted over all letters with one blank column between them. */
  predicate CellLit(text: string, gx: nat, gy: nat) {
    && gx / PITCH < |text| && gx % PITCH < GLYPH_COLUMNS && gy < GLYPH_ROWS
    && RowBit(Glyph(text[gx / PITCH])[gy], gx % PITCH)
  }

  /** The cell a pixel falls in, counted from the origin. */
  function CellOf(p: nat, origin: nat, scale: nat): nat
    requires scale >= 1 && p >= origin
  {
    (p - origin) / scale
  }

  /** Whether the pixel at (px, py) is lit when the text is drawn with its corner at (left, top). */
  predicate Lit(text: string, left: nat, top: nat, scale: nat, px: nat, py: nat)
    requires scale >= 1
  {
    px >= left && py >= top && CellLit(text, CellOf(px, left, scale), CellOf(py, top, scale))
  }

  /**
   * The columns a non-empty text takes, without the last letter's gap. A text stands for
   * its bytes, one character each, as the renderer counts and draws bytes.
   */
  function TextWidth(text: string): nat
    requires text != ""
  {
    PITCH * |text| - 1
  }

  predicate Fits(text: string, top: nat, scale: nat) {
    text != "" && scale >= 1 && TextWidth(text) * scale <= WIDTH && top + GLYPH_ROWS * scale <= HEIGHT
  }

  /** Lines are centred. */
  function Left(text: string, scale: nat): nat
    requires text != "" && TextWidth(text) * scale <= WIDTH
  {
    (WIDTH - TextWidth(text) * scale) / 2
  }

  function PixelOf(rgb: array<byte>, px: nat, py: nat): Color
    requires rgb.Length == FRAME_BYTES && px < WIDTH && py < HEIGHT
    reads rgb
  {
    (rgb[Offset(px, py, 0)], rgb[Offset(px, py, 1)], rgb[Offset(px, py, 2)])
  }

  // ---------------------------------------------------------------- cells and pixels

  /** A pixel is in the block of a cell exactly when dividing by the scale gives the cell. */
  lemma BlockOfCell(p: nat, origin: nat, scale: nat, cell: nat)
    requires scale >= 1
    ensures (origin + cell * scale <= p < origin + cell * scale + scale) <==>
            (p >= origin && CellOf(p, origin, scale) == cell)
  {
    if p >= origin {
      var d := p - origin;
      var q, r := d / scale, d % scale;
      assert d == q * scale + r && 0 <= r < scale;
      if q < cell {
        Spread(cell, q, scale);
      } else if q > cell {
        Spread(q, cell, scale);
      }
    }
  }

  /** Every cell of a text that fits is drawn inside the frame. */
  lemma CellInBounds(text: string, top: nat, scale: nat, gx: nat, gy: nat)
    requires Fits(text, top, scale) && gx < TextWidth(text) && gy < GLYPH_ROWS
    ensures Left(text, scale) + gx * scale + scale <= WIDTH
    ensures top + gy * scale + scale <= HEIGHT
  {
    Spread(TextWidth(text), gx, scale);
    Spread(GLYPH_ROWS, gy, scale);
  }

  // ---------------------------------------------------------------- drawing

  ghost predicate InBlock(cornerX: nat, cornerY: nat, scale: nat, px: nat, py: nat) {
    cornerX <= px < cornerX + scale && cornerY <= py < cornerY + scale
  }

  /** Writes one pixel. */
  method SetPixel(rgb: array<byte>, px: nat, py: nat, color: Color)
    requires rgb.Length == FRAME_BYTES && px < WIDTH && py < HEIGHT
    modifies rgb
    ensures forall x, y | 0 <= x < WIDTH && 0 <= y < HEIGHT ::
              PixelOf(rgb, x, y) == if x == px && y == py then color else old(PixelOf(rgb, x, y))
  {
    var offset := (py * WIDTH + px) * BYTES_PER_PIXEL;
    rgb[offset], rgb[offset + 1], rgb[offset + 2] := color.0, color.1, color.2;
  }

  /** Fills the block of one cell. */
  method FillBlock(rgb: array<byte>, cornerX: nat, cornerY: nat, scale: nat, color: Color)
    requires rgb.Length == FRAME_BYTES && cornerX + scale <= WIDTH && cornerY + scale <= HEIGHT
    modifies rgb
    ensures forall px, py | 0 <= px < WIDTH && 0 <= py < HEIGHT ::
              PixelOf(rgb, px, py) == if InBlock(cornerX, cornerY, scale, px, py) then color else old(PixelOf(rgb, px, py))
  {
    var dy := 0;
    while dy < scale
      invariant 0 <= dy <= scale
      invariant forall px, py | 0 <= px < WIDTH && 0 <= py < HEIGHT ::
                  PixelOf(rgb, px, py) ==
                  if InBlock(cornerX, cornerY, scale, px, py) && py < cornerY + dy then color else old(PixelOf(rgb, px, py))
    {
      var dx := 0;
      while dx < scale
        invariant 0 <= dx <= scale
        invariant forall px, py | 0 <= px < WIDTH && 0 <= py < HEIGHT ::
                    PixelOf(rgb, px, py) ==
                    if InBlock(cornerX, cornerY, scale, px, py) && (py < cornerY + dy || (py == cornerY + dy && px < cornerX + dx))
                    then color else old(PixelOf(rgb, px, py))
      {
        SetPixel(rgb, cornerX + dx, cornerY + dy, color);
        dx := dx + 1;
      }
      dy := dy + 1;
    }
  }

  /** The pixel belongs to cell (gx, gy). */
  ghost predicate InCell(left: nat, top: nat, scale: nat, gx: nat, gy: nat, px: nat, py: nat)
    requires scale >= 1
  {
    px >= left && py >= top && CellOf(px, left, scale) == gx && CellOf(py, top, scale) == gy
  }

  lemma BlockIsCell(left: nat, top: nat, scale: nat, gx: nat, gy: nat, px: nat, py: nat)
    requires scale >= 1
    ensures InBlock(left + gx * scale, top + gy * scale, scale, px, py) <==> InCell(left, top, scale, gx, gy, px, py)
  {
    BlockOfCell(px, left, scale, gx);
    BlockOfCell(py, top, scale, gy);
  }

  /** Fills exactly the pixels of one cell. */
  method FillCell(rgb: array<byte>, left: nat, top: nat, scale: nat, gx: nat, gy: nat, color: Color)
    requires rgb.Length == FRAME_BYTES && scale >= 1
    requires left + gx * scale + scale <= WIDTH && top + gy * scale + scale <= HEIGHT
    modifies rgb
    ensures forall px, py | 0 <= px < WIDTH && 0 <= py < HEIGHT ::
              PixelOf(rgb, px, py) == if InCell(left, top, scale, gx, gy, px, py) then color else old(PixelOf(rgb, px, py))
  {
    var cornerX, cornerY := left + gx * scale, top + gy * scale;
    FillBlock(rgb, cornerX, cornerY, scale, color);
    forall px: nat, py: nat {:trigger PixelOf(rgb, px, py)} | px < WIDTH && py < HEIGHT
      ensures InBlock(cornerX, cornerY, scale, px, py) <==> InCell(left, top, scale, gx, gy, px, py)
    {
      BlockIsCell(left, top, scale, gx, gy, px, py);
    }
  }

  /** Draws one cell if its bit is set. */
  method DrawCell(rgb: array<byte>, text: string, top: nat, scale: nat, color: Color, index: nat, y: nat, x: nat)
    requires rgb.Length == FRAME_BYTES && Fits(text, top, scale)
    requires index < |text| && y < GLYPH_ROWS && x < GLYPH_COLUMNS
    modifies rgb
    ensures forall px, py | 0 <= px < WIDTH && 0 <= py < HEIGHT ::
              PixelOf(rgb, px, py) ==
              if RowBit(Glyph(text[index])[y], x) && InCell(Left(text, scale), top, scale, index * PITCH + x, y, px, py)
              then color else old(PixelOf(rgb, px, py))
  {
    var row := Glyph(text[index])[y];
    if !RowBit(row, x) {
      return;
    }
    CellInBounds(text, top, scale, index * PITCH + x, y);
    FillCell(rgb, Left(text, scale), top, scale, index * PITCH + x, y, color);
  }

  /** The cells drawn before cell (index, y, x): earlier letters, earlier rows, earlier columns. */
  ghost predicate Before(index: nat, y: nat, x: nat, gx: nat, gy: nat) {
    gx / PITCH < index || (gx / PITCH == index && (gy < y || (gy == y && gx % PITCH < x)))
  }

  /** The pixels lit so far. */
  ghost predicate LitBefore(text: string, left: nat, top: nat, scale: nat, index: nat, y: nat, x: nat, px: nat, py: nat)
    requires scale >= 1
  {
    Lit(text, left, top, scale, px, py) && Before(index, y, x, CellOf(px, left, scale), CellOf(py, top, scale))
  }

  function PixelIn(s: seq<byte>, px: nat, py: nat): Color
    requires |s| == FRAME_BYTES && px < WIDTH && py < HEIGHT
  {
    (s[Offset(px, py, 0)], s[Offset(px, py, 1)], s[Offset(px, py, 2)])
  }

  /** The picture once the cells before (index, y, x) are drawn over the original. */
  ghost predicate Drawn(rgb: array<byte>, original: seq<byte>, text: string, top: nat, scale: nat, color: Color,
                        index: nat, y: nat, x: nat)
    requires rgb.Length == FRAME_BYTES && |original| == FRAME_BYTES && Fits(text, top, scale)
    reads rgb
  {
    forall px, py | 0 <= px < WIDTH && 0 <= py < HEIGHT ::
      PixelOf(rgb, px, py) ==
      if LitBefore(text, Left(text, scale), top, scale, index, y, x, px, py) then color else PixelIn(original, px, py)
  }

  /** Drawing cell (index, y, x) adds exactly that cell. */
  lemma AddCell(text: string, left: nat, top: nat, scale: nat, index: nat, y: nat, x: nat, px: nat, py: nat)
    requires scale >= 1 && index < |text| && y < GLYPH_ROWS && x < GLYPH_COLUMNS
    ensures LitBefore(text, left, top, scale, index, y, x + 1, px, py) <==>
            || LitBefore(text, left, top, scale, index, y, x, px, py)
            || (RowBit(Glyph(text[index])[y], x) && InCell(left, top, scale, index * PITCH + x, y, px, py))
  {
    if px >= left && py >= top {
      var gx, gy := CellOf(px, left, scale), CellOf(py, top, scale);
      assert gx == gx / PITCH * PITCH + gx % PITCH;
      assert (index * PITCH + x) / PITCH == index && (index * PITCH + x) % PITCH == x;
    }
  }

  /** The end of a row of a letter is the start of its next row, and the end of a letter the start of the next. */
  lemma NextRow(text: string, left: nat, top: nat, scale: nat, index: nat, y: nat, px: nat, py: nat)
    requires scale >= 1
    ensures LitBefore(text, left, top, scale, index, y, GLYPH_COLUMNS, px, py) <==>
            LitBefore(text, left, top, scale, index, y + 1, 0, px, py)
    ensures LitBefore(text, left, top, scale, index, GLYPH_ROWS, 0, px, py) <==>
            LitBefore(text, left, top, scale, index + 1, 0, 0, px, py)
  {
  }

  lemma NextRowDrawn(rgb: array<byte>, original: seq<byte>, text: string, top: nat, scale: nat, color: Color, index: nat, y: nat)
    requires rgb.Length == FRAME_BYTES && |original| == FRAME_BYTES && Fits(text, top, scale)
    ensures Drawn(rgb, original, text, top, scale, color, index, y, GLYPH_COLUMNS) ==>
            Drawn(rgb, original, text, top, scale, color, index, y + 1, 0)
    ensures Drawn(rgb, original, text, top, scale, color, index, GLYPH_ROWS, 0) ==>
            Drawn(rgb, original, text, top, scale, color, index + 1, 0, 0)
  {
    var left := Left(text, scale);
    forall px: nat, py: nat {:trigger PixelOf(rgb, px, py)} | px < WIDTH && py < HEIGHT
      ensures LitBefore(text, left, top, scale, index, y, GLYPH_COLUMNS, px, py) <==>
              LitBefore(text, left, top, scale, index, y + 1, 0, px, py)
      ensures LitBefore(text, left, top, scale, index, GLYPH_ROWS, 0, px, py) <==>
              LitBefore(text, left, top, scale, index + 1, 0, 0, px, py)
    {
      NextRow(text, left, top, scale, index, y, px, py);
    }
  }

  /** Draws cell after cell of one glyph row. */
  method DrawRow(rgb: array<byte>, ghost original: seq<byte>, text: string, top: nat, scale: nat, color: Color, index: nat, y: nat)
    requires rgb.Length == FRAME_BYTES && |original| == FRAME_BYTES && Fits(text, top, scale)
    requires index < |text| && y < GLYPH_ROWS
    requires Drawn(rgb, original, text, top, scale, color, index, y, 0)
    modifies rgb
    ensures Drawn(rgb, original, text, top, scale, color, index, y, GLYPH_COLUMNS)
  {
    var x := 0;
    while x < GLYPH_COLUMNS
      invariant 0 <= x <= GLYPH_COLUMNS
      invariant Drawn(rgb, original, text, top, scale, color, index, y, x)
    {
      DrawCell(rgb, text, top, scale, color, index, y, x);
      ghost var left := Left(text, scale);
      forall px: nat, py: nat {:trigger PixelOf(rgb, px, py)} | px < WIDTH && py < HEIGHT
        ensures LitBefore(text, left, top, scale, index, y, x + 1, px, py) <==>
                || LitBefore(text, left, top, scale, index, y, x, px, py)
                || (RowBit(Glyph(text[index])[y], x) && InCell(left, top, scale, index * PITCH + x, y, px, py))
      {
        AddCell(text, left, top, scale, index, y, x, px, py);
      }
      x := x + 1;
    }
  }

  /** Draws the seven rows of one letter. */
  method DrawLetter(rgb: array<byte>, ghost original: seq<byte>, text: string, top: nat, scale: nat, color: Color, index: nat)
    requires rgb.Length == FRAME_BYTES && |original| == FRAME_BYTES && Fits(text, top, scale) && index < |text|
    requires Drawn(rgb, original, text, top, scale, color, index, 0, 0)
    modifies rgb
    ensures Drawn(rgb, original, text, top, scale, color, index + 1, 0, 0)
  {
    var y := 0;
    while y < GLYPH_ROWS
      invariant 0 <= y <= GLYPH_ROWS
      invariant Drawn(rgb, original, text, top, scale, color, index, y, 0)
    {
      DrawRow(rgb, original, text, top, scale, color, index, y);
      NextRowDrawn(rgb, original, text, top, scale, color, index, y);
      y := y + 1;
    }
    NextRowDrawn(rgb, original, text, top, scale, color, index, 0);
  }

  /** Nothing is drawn before the first cell, and everything lit is drawn before the last. */
  lemma FirstAndLast(rgb: array<byte>, original: seq<byte>, text: string, top: nat, scale: nat, color: Color)
    requires rgb.Length == FRAME_BYTES && |original| == FRAME_BYTES && Fits(text, top, scale)
    ensures rgb[..] == original ==> Drawn(rgb, original, text, top, scale, color, 0, 0, 0)
    ensures Drawn(rgb, original, text, top, scale, color, |text|, 0, 0) ==>
              forall px, py | 0 <= px < WIDTH && 0 <= py < HEIGHT ::
                PixelOf(rgb, px, py) ==
                if Lit(text, Left(text, scale), top, scale, px, py) then color else PixelIn(original, px, py)
  {
    var left := Left(text, scale);
    forall px: nat, py: nat {:trigger PixelOf(rgb, px, py)} | px < WIDTH && py < HEIGHT
      ensures !LitBefore(text, left, top, scale, 0, 0, 0, px, py)
      ensures LitBefore(text, left, top, scale, |text|, 0, 0, px, py) <==> Lit(text, left, top, scale, px, py)
    {
      EveryCellCounts(text, left, top, scale, px, py);
    }
  }

  lemma EveryCellCounts(text: string, left: nat, top: nat, scale: nat, px: nat, py: nat)
    requires scale >= 1
    ensures !LitBefore(text, left, top, scale, 0, 0, 0, px, py)
    ensures LitBefore(text, left, top, scale, |text|, 0, 0, px, py) <==> Lit(text, left, top, scale, px, py)
  {
    if px >= left && py >= top {
      CellsBetween(text, CellOf(px, left, scale), CellOf(py, top, scale));
    }
  }

  /** No cell comes before the first, and every lit cell before the end of the text. */
  lemma CellsBetween(text: string, gx: nat, gy: nat)
    ensures !Before(0, 0, 0, gx, gy)
    ensures CellLit(text, gx, gy) ==> Before(|text|, 0, 0, gx, gy)
  {
  }

  /**
   * Draws one centred line. Every write is inside the frame, and the picture
   * changes exactly at the pixels whose glyph bit is set.
   */
  method DrawNoticeLine(rgb: array<byte>, text: string, top: nat, scale: nat, color: Color)
    requires rgb.Length == FRAME_BYTES && Fits(text, top, scale)
    modifies rgb
    ensures forall px, py | 0 <= px < WIDTH && 0 <= py < HEIGHT ::
              PixelOf(rgb, px, py) ==
              if Lit(text, Left(text, scale), top, scale, px, py) then color else old(PixelOf(rgb, px, py))
  {
    ghost var original := rgb[..];
    FirstAndLast(rgb, original, text, top, scale, color);
    var index := 0;
    while index < |text|
      invariant 0 <= index <= |text|
      invariant Drawn(rgb, original, text, top, scale, color, index, 0, 0)
    {
      DrawLetter(rgb, original, text, top, scale, color, index);
      index := index + 1;
    }
    FirstAndLast(rgb, original, text, top, scale, color);
  }

  // ---------------------------------------------------------------- the lost-stream frame

  const BLACK: Color := (0, 0, 0)
  const ORANGE: Color := (255, 170, 40)
  const GREY: Color := (200, 200, 200)

  const HEADLINE := "STREAM LOST"
  const HEADLINE_TOP := 88
  const HEADLINE_SCALE := 4
  const DETAIL := "WAITING FOR FRAMES"
  const DETAIL_TOP := 144
  const DETAIL_SCALE := 2

  lemma BothLinesFit()
    ensures Fits(HEADLINE, HEADLINE_TOP, HEADLINE_SCALE)
    ensures Fits(DETAIL, DETAIL_TOP, DETAIL_SCALE)
  {
    assert |HEADLINE| == 11 && |DETAIL| == 18;
  }

  /** The picture the notice shows. */
  function NoticePixel(px: nat, py: nat): Color {
    BothLinesFit();
    if Lit(DETAIL, Left(DETAIL, DETAIL_SCALE), DETAIL_TOP, DETAIL_SCALE, px, py) then GREY
    else if Lit(HEADLINE, Left(HEADLINE, HEADLINE_SCALE), HEADLINE_TOP, HEADLINE_SCALE, px, py) then ORANGE
    else BLACK
  }

  /** A line is centred: the margins left and right of its letters differ by at most one pixel. */
  lemma LineIsCentred(text: string, top: nat, scale: nat)
    requires Fits(text, top, scale)
    ensures var left := Left(text, scale);
            var right := 320 - (left + ((|text| - 1) * 6 + 5) * scale);
            0 <= right - left <= 1
  {
  }

  /** Where the notice starts: the S of the headline, the W of the detail line, and black around them. */
  lemma NoticeCorners()
    ensures NoticePixel(33, 88) == (0, 0, 0) && NoticePixel(34, 88) == (255, 170, 40)
    ensures NoticePixel(49, 91) == (255, 170, 40) && NoticePixel(34, 87) == (0, 0, 0)
    ensures NoticePixel(52, 144) == (0, 0, 0) && NoticePixel(53, 144) == (200, 200, 200)
    ensures NoticePixel(54, 145) == (200, 200, 200) && NoticePixel(53, 143) == (0, 0, 0)
  {
    assert |HEADLINE| == 11 && |DETAIL| == 18;
    assert HEADLINE[0] == 'S' && DETAIL[0] == 'W';
  }

  /** The two lines share no pixel, so neither hides the other. */
  lemma LinesApart(px: nat, py: nat)
    ensures !(Fits(HEADLINE, HEADLINE_TOP, HEADLINE_SCALE) && Fits(DETAIL, DETAIL_TOP, DETAIL_SCALE)
              && Lit(HEADLINE, Left(HEADLINE, HEADLINE_SCALE), HEADLINE_TOP, HEADLINE_SCALE, px, py)
              && Lit(DETAIL, Left(DETAIL, DETAIL_SCALE), DETAIL_TOP, DETAIL_SCALE, px, py))
  {
  }

  /** The device frame of the notice: bottom row first, blue before red. */
  method MakeStreamLostFrame() returns (r: Option<array<byte>>)
    ensures r.Some? && r.value.Length == FRAME_BYTES
    ensures forall px, py | 0 <= px < WIDTH && 0 <= py < HEIGHT ::
              PixelOf(r.value, px, HEIGHT - 1 - py) ==
              (NoticePixel(px, py).2, NoticePixel(px, py).1, NoticePixel(px, py).0)
  {
    var rgb := new byte[FRAME_BYTES](_ => 0);
    BothLinesFit();
    DrawNoticeLine(rgb, HEADLINE, HEADLINE_TOP, HEADLINE_SCALE, ORANGE);
    DrawNoticeLine(rgb, DETAIL, DETAIL_TOP, DETAIL_SCALE, GREY);
    assert forall px, py | 0 <= px < WIDTH && 0 <= py < HEIGHT :: PixelOf(rgb, px, py) == NoticePixel(px, py);
    ghost var picture := rgb[..];
    ghost var tally;
    r, tally := FrameFromTopDownRgbBytes(rgb[..], Bgr, BottomUp);
    forall px, py | 0 <= px < WIDTH && 0 <= py < HEIGHT
      ensures PixelOf(r.value, px, HEIGHT - 1 - py) == (NoticePixel(px, py).2, NoticePixel(px, py).1, NoticePixel(px, py).0)
    {
      assert PixelOf(rgb, px, py) == NoticePixel(px, py);
      PixelLands(picture, Bgr, BottomUp, px, py, 0);
      PixelLands(picture, Bgr, BottomUp, px, py, 1);
      PixelLands(picture, Bgr, BottomUp, px, py, 2);
    }
  }
}
