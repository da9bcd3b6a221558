/** A corner piece named by its three colours. Two corner pieces are equal
    when they carry the same colours, whatever the order: equality compares
    the set of colours, packed as a bit mask. */
module CornerPieces {
  import opened Outcomes
  import opened FaceColor

  datatype CornerPiece = CornerPiece(color1: Color, color2: Color, color3: Color)

  /** The record's compact constructor: each colour is checked in turn. */
  function NewCornerPiece(color1: int, color2: int, color3: int): (r: Result<CornerPiece>)
    ensures r.Ok? <==> 0 <= color1 < 6 && 0 <= color2 < 6 && 0 <= color3 < 6
    ensures r.Ok? ==> r.value == CornerPiece(color1, color2, color3)
    ensures r.Err? ==> r.error.IllegalArgument?
  {
    var _ :- RequireValid(color1);
    var _ :- RequireValid(color2);
    var _ :- RequireValid(color3);
    Ok(CornerPiece(color1, color2, color3))
  }

  /** `1 << c` for each colour. */
  const COLOR_BITS: seq<bv8> := [1, 2, 4, 8, 16, 32]

  function Bit(c: Color): bv8
  {
    COLOR_BITS[c]
  }

  /** The mask `equals` compares. */
  function Mask(p: CornerPiece): bv8
  {
    Bit(p.color1) | Bit(p.color2) | Bit(p.color3)
  }

  /** `equals`. */
  predicate Equals(p: CornerPiece, q: CornerPiece)
  {
    Mask(p) == Mask(q)
  }

  /** The colours of a piece, as a set: repeated colours collapse. */
  function Colors(p: CornerPiece): set<Color>
  {
    {p.color1, p.color2, p.color3}
  }

  /** Bit `k` of the mask is set exactly when `k` is one of the piece's colours. */
  lemma MaskBit(p: CornerPiece, k: Color)
    ensures Mask(p) & Bit(k) != 0 <==> k in Colors(p)
  {
  }

  /** The mask only uses the six colour bits. */
  lemma MaskHighBitsClear(p: CornerPiece)
    ensures Mask(p) & 0xC0 == 0
  {
  }

  lemma MaskFromBits(m: bv8, n: bv8)
    requires m & 0xC0 == 0 && n & 0xC0 == 0
    requires forall k: Color :: (m & Bit(k) != 0) == (n & Bit(k) != 0)
    ensures m == n
  {
    assert (m & Bit(0) != 0) == (n & Bit(0) != 0) && (m & Bit(1) != 0) == (n & Bit(1) != 0);
    assert (m & Bit(2) != 0) == (n & Bit(2) != 0) && (m & Bit(3) != 0) == (n & Bit(3) != 0);
    assert (m & Bit(4) != 0) == (n & Bit(4) != 0) && (m & Bit(5) != 0) == (n & Bit(5) != 0);
  }

  /** Pieces with the same colours have the same mask. */
  lemma SameColorsEqual(p: CornerPiece, q: CornerPiece)
    requires Colors(p) == Colors(q)
    ensures Equals(p, q)
  {
    forall k: Color ensures (Mask(p) & Bit(k) != 0) == (Mask(q) & Bit(k) != 0) {
      MaskBit(p, k);
      MaskBit(q, k);
    }
    MaskHighBitsClear(p);
    MaskHighBitsClear(q);
    MaskFromBits(Mask(p), Mask(q));
  }

  /** Two pieces are equal exactly when they carry the same set of colours. */
  lemma {:induction false} EqualsIffSameColors(p: CornerPiece, q: CornerPiece)
    ensures Equals(p, q) <==> Colors(p) == Colors(q)
  {
    if Colors(p) == Colors(q) {
      SameColorsEqual(p, q);
    } else {
      var k :| k in Colors(p) - Colors(q) || k in Colors(q) - Colors(p);
      MaskBit(p, k);
      MaskBit(q, k);
    }
  }

  /** Equality ignores the order of the colours. */
  lemma {:induction false} EqualsUnderReordering(a: Color, b: Color, c: Color)
    ensures Equals(CornerPiece(a, b, c), CornerPiece(b, c, a))
    ensures Equals(CornerPiece(a, b, c), CornerPiece(b, a, c))
    ensures Equals(CornerPiece(a, b, c), CornerPiece(a, c, b))
    ensures Equals(CornerPiece(a, b, c), CornerPiece(c, b, a))
  {
    EqualsIffSameColors(CornerPiece(a, b, c), CornerPiece(b, c, a));
    EqualsIffSameColors(CornerPiece(a, b, c), CornerPiece(b, a, c));
    EqualsIffSameColors(CornerPiece(a, b, c), CornerPiece(a, c, b));
    EqualsIffSameColors(CornerPiece(a, b, c), CornerPiece(c, b, a));
  }

  /** Equality is an equivalence relation. */
  lemma EqualsIsEquivalence(p: CornerPiece, q: CornerPiece, s: CornerPiece)
    ensures Equals(p, p)
    ensures Equals(p, q) ==> Equals(q, p)
    ensures Equals(p, q) && Equals(q, s) ==> Equals(p, s)
  {
  }

  /** CornerPieceTest: WHITE RED GREEN equals RED GREEN WHITE but not WHITE ORANGE GREEN. */
  lemma SampleEquality()
    ensures Equals(CornerPiece(WHITE, RED, GREEN), CornerPiece(RED, GREEN, WHITE))
    ensures !Equals(CornerPiece(WHITE, RED, GREEN), CornerPiece(WHITE, ORANGE, GREEN))
  {
    EqualsUnderReordering(WHITE, RED, GREEN);
    EqualsIffSameColors(CornerPiece(WHITE, RED, GREEN), CornerPiece(WHITE, ORANGE, GREEN));
    assert RED !in Colors(CornerPiece(WHITE, ORANGE, GREEN));
  }
}
