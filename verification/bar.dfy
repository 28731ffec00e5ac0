/** The `Bar` element: a border line drawn along selected sides of a
    rectangle. Rendering chooses one glyph and writes it, with an optional
    style, into the buffer cells of the selected edges. */
module Elements {
  import opened Wrappers
  import opened Geometry

  /** A terminal colour, by index. */
  type Color = nat

  /** A text modifier (bold, italic, ...), by index. */
  type Modifier = nat

  /** A style patch: colours to override and modifiers to add and remove. */
  datatype Style = Style(fg: Option<Color>, bg: Option<Color>, addModifier: set<Modifier>, subModifier: set<Modifier>)

  /** A buffer cell: its symbol, its colours and its active modifiers. */
  datatype Cell = Cell(symbol: string, fg: Color, bg: Color, modifier: set<Modifier>)

  /** `Cell::set_style`: the colours the patch names replace the cell's, then
      its added modifiers are switched on and its removed ones off. */
  function SetStyle(c: Cell, s: Style): (r: Cell)
    ensures r.symbol == c.symbol
    ensures s.fg.Some? ==> r.fg == s.fg.value
    ensures s.fg.None? ==> r.fg == c.fg
    ensures s.bg.Some? ==> r.bg == s.bg.value
    ensures s.bg.None? ==> r.bg == c.bg
    ensures r.modifier !! s.subModifier
    ensures s.addModifier - s.subModifier <= r.modifier
    ensures c.modifier - s.subModifier <= r.modifier
    ensures r.modifier <= c.modifier + s.addModifier
  {
    Cell(c.symbol,
         if s.fg.Some? then s.fg.value else c.fg,
         if s.bg.Some? then s.bg.value else c.bg,
         (c.modifier + s.addModifier) - s.subModifier)
  }

  /** What painting one cell does: the glyph replaces the symbol, and the
      style, when there is one, is patched in. */
  function Paint(c: Cell, glyph: string, style: Option<Style>): (r: Cell)
    ensures r.symbol == glyph
    ensures style.None? ==> r == c.(symbol := glyph)
    ensures style.Some? ==> r == SetStyle(c.(symbol := glyph), style.value)
  {
    var cell := c.(symbol := glyph);
    if style.Some? then SetStyle(cell, style.value) else cell
  }

  /** The widget: where to draw, along which sides, with which symbol and style. */
  datatype Bar = Bar(area: Rect, direction: set<Side>, symbol: string, style: Option<Style>)

  /** The Lua constructor `ui.Bar(area, direction)`: the direction byte is
      truncated to the known sides; symbol and style start out unset. */
  function New(area: Rect, direction: U8): (b: Bar)
    ensures b.area == area
    ensures forall s :: s in b.direction <==> HasBit(direction, Bit(s))
    ensures b.symbol == "" && b.style == None
  {
    Bar(area, FromBitsTruncate(direction), "", None)
  }

  const Horizontal: string := "─"
  const Vertical: string := "│"
  const Blank: string := " "

  /** The glyph to draw: the user's symbol if set, else a horizontal line if a
      horizontal side is selected, else a vertical line if a vertical side is
      selected, else a blank. */
  function Glyph(symbol: string, direction: set<Side>): (g: string)
    ensures symbol != "" ==> g == symbol
    ensures symbol == "" ==> (g == Horizontal <==> Top in direction || Bottom in direction)
    ensures symbol == "" ==> (g == Vertical <==>
                                Top !in direction && Bottom !in direction && (Left in direction || Right in direction))
    ensures symbol == "" && direction == {} ==> g == Blank
  {
    if symbol != "" then symbol
    else if Top in direction || Bottom in direction then Horizontal
    else if Left in direction || Right in direction then Vertical
    else Blank
  }

  /** The cells `(x, y)` for `top <= y < bottom`. */
  function Column(x: int, top: int, bottom: int): set<Pos> {
    set y: int | top <= y < bottom :: Pos(x, y)
  }

  /** The cells `(x, y)` for `left <= x < right`. */
  function Row(y: int, left: int, right: int): set<Pos> {
    set x: int | left <= x < right :: Pos(x, y)
  }

  /** The left column, `(left, y)` for `top <= y < bottom`. */
  function LeftColumn(r: Rect): set<Pos> {
    Column(r.Left(), r.Top(), r.Bottom())
  }

  /** The top row, `(x, top)` for `left <= x < right`. */
  function TopRow(r: Rect): set<Pos> {
    Row(r.Top(), r.Left(), r.Right())
  }

  /** The right column, `(right - 1, y)` for `top <= y < bottom`. */
  function RightColumn(r: Rect): set<Pos>
    requires r.Area() != 0
  {
    Column(r.Right() - 1, r.Top(), r.Bottom())
  }

  /** The bottom row, `(x, bottom - 1)` for `left <= x < right`. */
  function BottomRow(r: Rect): set<Pos>
    requires r.Area() != 0
  {
    Row(r.Bottom() - 1, r.Left(), r.Right())
  }

  /** The cells `render` writes: nothing for an empty rectangle, otherwise the
      union of the edges whose side is selected. */
  function Painted(b: Bar): set<Pos> {
    if b.area.Area() == 0 then {} else NearEdges(b) + FarEdges(b)
  }

  /** The selected edges among the left column and the top row. */
  function NearEdges(b: Bar): set<Pos> {
    (if Left in b.direction then LeftColumn(b.area) else {})
    + (if Top in b.direction then TopRow(b.area) else {})
  }

  /** The selected edges among the right column and the bottom row. */
  function FarEdges(b: Bar): set<Pos>
    requires b.area.Area() != 0
  {
    (if Right in b.direction then RightColumn(b.area) else {})
    + (if Bottom in b.direction then BottomRow(b.area) else {})
  }

  /** `out` is `buf` with exactly the cells of `done` painted. */
  predicate PaintedExactly(buf: map<Pos, Cell>, out: map<Pos, Cell>, done: set<Pos>, glyph: string, style: Option<Style>) {
    && out.Keys == buf.Keys
    && forall p :: p in buf ==> out[p] == if p in done then Paint(buf[p], glyph, style) else buf[p]
  }

  /** Applying a style patch a second time changes nothing. */
  lemma SetStyleIdempotent(c: Cell, s: Style)
    ensures SetStyle(SetStyle(c, s), s) == SetStyle(c, s)
  {
  }

  /** Painting a cell twice is painting it once, so cells shared by two edges
      (the corners) end up as if painted once. */
  lemma PaintIdempotent(c: Cell, glyph: string, style: Option<Style>)
    ensures Paint(Paint(c, glyph, style), glyph, style) == Paint(c, glyph, style)
  {
  }

  /** Paints one more cell: the invariant moves from `done` to `done + {p}`. */
  method PaintCell(buf: map<Pos, Cell>, out: map<Pos, Cell>, ghost done: set<Pos>, p: Pos, glyph: string, style: Option<Style>)
    returns (next: map<Pos, Cell>)
    requires p in buf
    requires PaintedExactly(buf, out, done, glyph, style)
    ensures PaintedExactly(buf, next, done + {p}, glyph, style)
    ensures next == out[p := Paint(out[p], glyph, style)]
  {
    next := out[p := Paint(out[p], glyph, style)];
    PaintIdempotent(buf[p], glyph, style);
  }

  /** The loop `for y in top..bottom` painting column `x`. */
  method PaintColumn(buf: map<Pos, Cell>, out: map<Pos, Cell>, ghost done: set<Pos>,
                     x: int, top: int, bottom: int, glyph: string, style: Option<Style>)
    returns (next: map<Pos, Cell>)
    requires top <= bottom
    requires Column(x, top, bottom) <= buf.Keys
    requires PaintedExactly(buf, out, done, glyph, style)
    ensures PaintedExactly(buf, next, done + Column(x, top, bottom), glyph, style)
  {
    next := out;
    var y := top;
    while y < bottom
      invariant top <= y <= bottom
      invariant PaintedExactly(buf, next, done + Column(x, top, y), glyph, style)
    {
      next := PaintCell(buf, next, done + Column(x, top, y), Pos(x, y), glyph, style);
      assert Column(x, top, y + 1) == Column(x, top, y) + {Pos(x, y)};
      y := y + 1;
    }
  }

  /** The loop `for x in left..right` painting row `y`. */
  method PaintRow(buf: map<Pos, Cell>, out: map<Pos, Cell>, ghost done: set<Pos>,
                  y: int, left: int, right: int, glyph: string, style: Option<Style>)
    returns (next: map<Pos, Cell>)
    requires left <= right
    requires Row(y, left, right) <= buf.Keys
    requires PaintedExactly(buf, out, done, glyph, style)
    ensures PaintedExactly(buf, next, done + Row(y, left, right), glyph, style)
  {
    next := out;
    var x := left;
    while x < right
      invariant left <= x <= right
      invariant PaintedExactly(buf, next, done + Row(y, left, x), glyph, style)
    {
      next := PaintCell(buf, next, done + Row(y, left, x), Pos(x, y), glyph, style);
      assert Row(y, left, x + 1) == Row(y, left, x) + {Pos(x, y)};
      x := x + 1;
    }
  }

  /** A rectangle whose far edges are representable paints only its own
      cells, so a buffer covering the rectangle covers every painted cell. */
  lemma EdgesInside(b: Bar, buf: map<Pos, Cell>)
    requires b.area.Fits()
    requires forall p :: b.area.Contains(p) ==> p in buf
    ensures Painted(b) <= buf.Keys
  {
  }

  /** `Bar::render`: does nothing for an empty rectangle; otherwise writes the
      glyph (and the style, if set) to the left column, the top row, the right
      column and the bottom row, in that order, for each selected side. Every
      cell it writes must exist in the buffer, as indexing out of it panics. */
  method Render(b: Bar, buf: map<Pos, Cell>) returns (out: map<Pos, Cell>)
    requires Painted(b) <= buf.Keys
    ensures out.Keys == buf.Keys
    ensures forall p :: p in Painted(b) ==>
              out[p] == Paint(buf[p], Glyph(b.symbol, b.direction), b.style)
    ensures forall p :: p in buf && p !in Painted(b) ==> out[p] == buf[p]
  {
    if b.area.Area() == 0 {
      return buf;
    }
    var glyph := Glyph(b.symbol, b.direction);
    out := PaintEdges(b, buf, glyph);
  }

  /** The four edge loops of `render`, for a non-empty rectangle. */
  method PaintEdges(b: Bar, buf: map<Pos, Cell>, glyph: string) returns (out: map<Pos, Cell>)
    requires b.area.Area() != 0
    requires NearEdges(b) <= buf.Keys && FarEdges(b) <= buf.Keys
    ensures PaintedExactly(buf, out, Painted(b), glyph, b.style)
  {
    out := PaintNearEdges(b, buf, glyph);
    out := PaintFarEdges(b, buf, out, NearEdges(b), glyph);
  }

  /** The loops over the left column and the top row. */
  method PaintNearEdges(b: Bar, buf: map<Pos, Cell>, glyph: string) returns (out: map<Pos, Cell>)
    requires NearEdges(b) <= buf.Keys
    ensures PaintedExactly(buf, out, NearEdges(b), glyph, b.style)
  {
    var r := b.area;
    out := buf;
    ghost var done: set<Pos> := {};
    if Left in b.direction {
      out := PaintColumn(buf, out, done, r.Left(), r.Top(), r.Bottom(), glyph, b.style);
      done := done + LeftColumn(r);
    }
    if Top in b.direction {
      out := PaintRow(buf, out, done, r.Top(), r.Left(), r.Right(), glyph, b.style);
      done := done + TopRow(r);
    }
  }

  /** The loops over the right column and the bottom row, after `done`. */
  method PaintFarEdges(b: Bar, buf: map<Pos, Cell>, out: map<Pos, Cell>, ghost done: set<Pos>, glyph: string)
    returns (next: map<Pos, Cell>)
    requires b.area.Area() != 0
    requires FarEdges(b) <= buf.Keys
    requires PaintedExactly(buf, out, done, glyph, b.style)
    ensures PaintedExactly(buf, next, done + FarEdges(b), glyph, b.style)
  {
    var r := b.area;
    next := out;
    ghost var painted := done;
    if Right in b.direction {
      var x: U16 := r.Right() - 1;
      next := PaintColumn(buf, next, painted, x, r.Top(), r.Bottom(), glyph, b.style);
      painted := painted + RightColumn(r);
    }
    if Bottom in b.direction {
      var y: U16 := r.Bottom() - 1;
      next := PaintRow(buf, next, painted, y, r.Left(), r.Right(), glyph, b.style);
      painted := painted + BottomRow(r);
    }
  }
}
