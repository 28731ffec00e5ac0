/** The terminal geometry a widget paints on: unsigned 16-bit rectangles with
    saturating edges, cell positions, and the four border sides with their
    bit encoding (a border set travels from Lua as one unsigned byte). */
module Geometry {

  /** An unsigned 8-bit integer. */
  type U8 = x: int | 0 <= x < 0x100

  /** An unsigned 16-bit integer. */
  type U16 = x: int | 0 <= x < 0x1_0000

  const U16Max: U16 := 0xFFFF

  /** `a.saturating_add(b)` on 16-bit operands: the sum, clamped at the maximum. */
  function SaturatingAdd(a: U16, b: U16): (r: U16)
    ensures a + b <= U16Max ==> r == a + b
    ensures a + b > U16Max ==> r == U16Max
  {
    if a + b <= U16Max then a + b else U16Max
  }

  /** A cell of the terminal, column `x`, row `y`. */
  datatype Pos = Pos(x: int, y: int)

  /** A rectangle of cells: origin `(x, y)`, `width` columns, `height` rows. */
  datatype Rect = Rect(x: U16, y: U16, width: U16, height: U16)
  {
    function Left(): U16 { x }
    function Top(): U16 { y }

    /** One past the last column; the addition saturates. */
    function Right(): (r: U16)
      ensures r >= Left()
    {
      SaturatingAdd(x, width)
    }

    /** One past the last row; the addition saturates. */
    function Bottom(): (r: U16)
      ensures r >= Top()
    {
      SaturatingAdd(y, height)
    }

    /** The number of cells covered. */
    function Area(): (a: nat)
      ensures a == 0 <==> width == 0 || height == 0
    {
      width * height
    }

    /** The rectangle's far edges are representable, so neither addition saturates. */
    predicate Fits() {
      x + width <= U16Max && y + height <= U16Max
    }

    /** `p` is one of the rectangle's cells. */
    predicate Contains(p: Pos) {
      x <= p.x < x + width && y <= p.y < y + height
    }
  }

  /** A side of a rectangle, as a border to draw. */
  datatype Side = Top | Right | Bottom | Left

  const AllSides: set<Side> := {Top, Right, Bottom, Left}

  /** The bit that encodes a side. */
  function Bit(s: Side): (b: nat)
    ensures b in {1, 2, 4, 8}
  {
    match s
    case Top => 1
    case Right => 2
    case Bottom => 4
    case Left => 8
  }

  /** The encodings of the named border sets. */
  const NONE: U8 := 0
  const TOP: U8 := 1
  const RIGHT: U8 := 2
  const BOTTOM: U8 := 4
  const LEFT: U8 := 8
  const ALL: U8 := 15

  /** Bit `bit` (a power of two) is set in `n`. */
  predicate HasBit(n: nat, bit: nat)
    requires bit > 0
  {
    (n / bit) % 2 == 1
  }

  /** `Borders::from_bits_truncate`: decodes a byte, keeping the four known
      bits and silently dropping the rest. */
  function FromBitsTruncate(bits: U8): (d: set<Side>)
    ensures forall s :: s in d <==> HasBit(bits, Bit(s))
  {
    (if bits % 2 == 1 then {Top} else {})
    + (if (bits / 2) % 2 == 1 then {Right} else {})
    + (if (bits / 4) % 2 == 1 then {Bottom} else {})
    + (if (bits / 8) % 2 == 1 then {Left} else {})
  }

  /** 1 if side `s` is in `d`, else 0. */
  function Digit(d: set<Side>, s: Side): nat {
    if s in d then 1 else 0
  }

  /** `Borders::bits`: encodes a border set as a byte. */
  function Bits(d: set<Side>): (b: U8)
    ensures b < 16
    ensures forall s :: s in d <==> HasBit(b, Bit(s))
  {
    BitsDecode(d);
    Digit(d, Top) + 2 * Digit(d, Right) + 4 * Digit(d, Bottom) + 8 * Digit(d, Left)
  }

  /** Each side's bit of the encoding is set exactly when the side is in the set. */
  lemma BitsDecode(d: set<Side>)
    ensures forall s :: s in d <==>
              HasBit(Digit(d, Top) + 2 * Digit(d, Right) + 4 * Digit(d, Bottom) + 8 * Digit(d, Left), Bit(s))
  {
  }

  /** The binary digits of a four-bit number are the digits it was built from. */
  lemma BitsOfDigits(t: nat, r: nat, o: nat, l: nat)
    requires t < 2 && r < 2 && o < 2 && l < 2
    ensures var n := t + 2 * r + 4 * o + 8 * l;
            n % 2 == t && (n / 2) % 2 == r && (n / 4) % 2 == o && (n / 8) % 2 == l
  {
  }
}
