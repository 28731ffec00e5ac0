/** What `Bar` promises: the border byte keeps exactly its four known bits,
    the glyph choice, and which cells a render paints — characterised by an
    independent arithmetic description of a rectangle's edges. */
module BarProperties {
  import opened Wrappers
  import opened Geometry
  import opened Elements

  // ---------------------------------------------------------------------------
  // The border byte

  /** Encoding a border set and decoding it again gives the same set. */
  lemma BitsRoundTrip(d: set<Side>)
    ensures FromBitsTruncate(Bits(d)) == d
  {
  }

  /** The bits of a byte below 16 are the four low bits. */
  lemma LowNibble(bits: U8)
    ensures bits % 16 == bits % 2 + 2 * ((bits / 2) % 2) + 4 * ((bits / 4) % 2) + 8 * ((bits / 8) % 2)
  {
    var q1, q2, q3 := bits / 2, bits / 4, bits / 8;
    assert bits == 2 * q1 + bits % 2;
    assert q1 == 2 * (q1 / 2) + q1 % 2;
    assert q1 / 2 == q2;
    assert q2 == 2 * (q2 / 2) + q2 % 2;
    assert q2 / 2 == q3;
    assert bits == 16 * (q3 / 2) + 8 * (q3 % 2) + 4 * (q2 % 2) + 2 * (q1 % 2) + bits % 2;
  }

  /** Truncation keeps exactly the known bits: decoding and re-encoding a byte
      clears every bit above the fourth and leaves the four below untouched. */
  lemma TruncateKeepsKnownBits(bits: U8)
    ensures Bits(FromBitsTruncate(bits)) == bits % 16
  {
    var d := FromBitsTruncate(bits);
    LowNibble(bits);
    BitsOfDigits(bits % 2, (bits / 2) % 2, (bits / 4) % 2, (bits / 8) % 2);
    assert Top in d <==> bits % 2 == 1;
    assert Right in d <==> (bits / 2) % 2 == 1;
    assert Bottom in d <==> (bits / 4) % 2 == 1;
    assert Left in d <==> (bits / 8) % 2 == 1;
  }

  /** Bits above the fourth never select a side. */
  lemma UnknownBitsAreDropped(bits: U8)
    ensures FromBitsTruncate(bits) == FromBitsTruncate(bits % 16)
  {
    TruncateKeepsKnownBits(bits);
    TruncateKeepsKnownBits(bits % 16);
    BitsRoundTrip(FromBitsTruncate(bits));
    BitsRoundTrip(FromBitsTruncate(bits % 16));
  }

  /** The named constants exported to Lua decode to the sides they name. */
  lemma NamedDirections()
    ensures FromBitsTruncate(NONE) == {}
    ensures FromBitsTruncate(TOP) == {Top}
    ensures FromBitsTruncate(RIGHT) == {Right}
    ensures FromBitsTruncate(BOTTOM) == {Bottom}
    ensures FromBitsTruncate(LEFT) == {Left}
    ensures FromBitsTruncate(ALL) == AllSides
  {
  }

  // ---------------------------------------------------------------------------
  // The glyph

  /** With no user symbol, the blank glyph is chosen exactly when no side is selected. */
  lemma BlankIffNoSide(direction: set<Side>)
    ensures Glyph("", direction) == Blank <==> direction == {}
  {
    if Glyph("", direction) == Blank {
      forall s | s in direction ensures false {
        match s
        case Top =>
        case Right =>
        case Bottom =>
        case Left =>
      }
    }
  }

  /** The blank glyph is never painted: when it is chosen no side is
      selected, so no cell is written. */
  lemma BlankGlyphNeverPainted(b: Bar)
    requires b.symbol == ""
    requires Glyph(b.symbol, b.direction) == Blank
    ensures Painted(b) == {}
  {
  }

  // ---------------------------------------------------------------------------
  // The painted cells

  /** `p` lies on a selected edge of `r`, in plain arithmetic. */
  predicate OnSelectedEdge(r: Rect, direction: set<Side>, p: Pos) {
    || (Left in direction && p.x == r.x)
    || (Top in direction && p.y == r.y)
    || (Right in direction && p.x == r.x + r.width - 1)
    || (Bottom in direction && p.y == r.y + r.height - 1)
  }

  /** Where neither addition saturates, the right column and bottom row are the
      last column and row of the rectangle, and computing them does not underflow. */
  lemma FarEdgesInside(r: Rect)
    requires r.Fits() && r.Area() != 0
    ensures r.Left() <= r.Right() - 1 && r.Top() <= r.Bottom() - 1
    ensures r.Right() - 1 == r.x + r.width - 1 && r.Bottom() - 1 == r.y + r.height - 1
  {
  }

  /** A render paints exactly the cells of the rectangle that lie on a
      selected edge, and only if the rectangle is not empty. */
  lemma PaintedCharacterised(b: Bar, p: Pos)
    requires b.area.Fits()
    ensures p in Painted(b) <==>
              b.area.Area() != 0 && b.area.Contains(p) && OnSelectedEdge(b.area, b.direction, p)
  {
  }

  /** With every side selected, the painted cells are the rectangle's perimeter. */
  lemma AllPaintsPerimeter(b: Bar, p: Pos)
    requires b.area.Fits()
    requires b.direction == FromBitsTruncate(ALL)
    ensures p in Painted(b) <==>
              b.area.Contains(p) &&
              (p.x == b.area.x || p.x == b.area.x + b.area.width - 1 ||
               p.y == b.area.y || p.y == b.area.y + b.area.height - 1)
  {
  }

  /** The emptiness guard is needed: a zero-height rectangle with the top side
      selected would otherwise have its top row written, a cell outside it. */
  lemma EmptyGuardIsNeeded()
    ensures var r := Rect(0, 0, 1, 0);
            Pos(0, 0) in TopRow(r) && !r.Contains(Pos(0, 0))
            && Painted(Bar(r, {Top}, "", None)) == {}
  {
  }

  /** Where the rectangle does not fit, the saturating right edge moves the
      right column: at the last representable column a width of one gives a
      right column one cell left of the rectangle. */
  lemma SaturationMovesRightColumn()
    ensures var r := Rect(U16Max, 0, 1, 1);
            r.Area() != 0 && r.Right() - 1 < r.Left()
            && Pos(U16Max - 1, 0) in RightColumn(r) && !r.Contains(Pos(U16Max - 1, 0))
  {
  }

  /** A freshly constructed bar (no symbol, no style) draws the line glyph its
      direction calls for and changes only the symbols of the painted cells. */
  lemma NewBarPaintsLines(area: Rect, direction: U8, c: Cell)
    ensures var b := New(area, direction);
            Paint(c, Glyph(b.symbol, b.direction), b.style) == c.(symbol := Glyph("", b.direction))
            && Glyph(b.symbol, b.direction) in {Horizontal, Vertical, Blank}
  {
  }
}
