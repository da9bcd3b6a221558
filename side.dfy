/** One side's eight non-centre facelets. The ring runs clockwise from the
    top-left corner (0 1 2 / 7 . 3 / 6 5 4). Packed, facelet 0 is the most
    significant byte of a 64-bit word, so a quarter turn is a 16-bit rotate. */
module Sides {
  import opened Outcomes
  import opened FaceColor

  /** Eight colours around a side's ring. */
  type Face = f: seq<Color> | |f| == 8 witness [WHITE, WHITE, WHITE, WHITE, WHITE, WHITE, WHITE, WHITE]

  datatype Side = Side(colors: Face)

  /** The constructor from colours: anything but exactly eight is rejected. */
  function NewSide(colors: seq<Color>): (r: Result<Side>)
    ensures r.Ok? <==> |colors| == 8
    ensures r.Ok? ==> r.value.colors == colors
    ensures r.Err? ==> r.error.IllegalArgument?
  {
    if |colors| != 8 then Err(IllegalArgument("side must comprise exactly 8 colors"))
    else Ok(Side(colors))
  }

  /** `all(c)`: every facelet `c`. */
  function All(c: Color): (r: Side)
    ensures forall i :: 0 <= i < 8 ==> r.colors[i] == c
  {
    Side([c, c, c, c, c, c, c, c])
  }

  /** `checker(a, b)`: `a` on the even slots (corners), `b` on the odd slots (edges). */
  function Checker(a: Color, b: Color): (r: Side)
    ensures forall i :: 0 <= i < 8 ==> r.colors[i] == if i % 2 == 0 then a else b
  {
    Side([a, b, a, b, a, b, a, b])
  }

  /** A clockwise quarter turn of the ring (see `RingTurnShifts`). */
  function RingClockwise(f: Face): Face
  {
    [f[6], f[7], f[0], f[1], f[2], f[3], f[4], f[5]]
  }

  /** A counter-clockwise quarter turn of the ring (see `RingTurnShifts`). */
  function RingCounterClockwise(f: Face): Face
  {
    [f[2], f[3], f[4], f[5], f[6], f[7], f[0], f[1]]
  }

  /** A clockwise turn moves the facelet at `i` to `i + 2` (0 to 2, 7 to 1),
      a counter-clockwise turn moves it to `i - 2`. */
  lemma RingTurnShifts(f: Face)
    ensures forall i :: 0 <= i < 8 ==> RingClockwise(f)[(i + 2) % 8] == f[i]
    ensures forall i :: 0 <= i < 8 ==> RingCounterClockwise(f)[(i + 6) % 8] == f[i]
  {
  }

  /** The two ring turns undo each other, and four clockwise turns are the identity. */
  lemma RingTurnLaws(f: Face)
    ensures RingCounterClockwise(RingClockwise(f)) == f
    ensures RingClockwise(RingCounterClockwise(f)) == f
    ensures RingClockwise(RingClockwise(RingClockwise(RingClockwise(f)))) == f
  {
  }

  // ---- hashing ----

  /** Two's-complement truncation to a Java `int`: the representative of `x`
      modulo 2^32 in [-2^31, 2^31). */
  function ToInt32(x: int): (r: int)
    ensures -0x8000_0000 <= r < 0x8000_0000
    ensures (x - r) % 0x1_0000_0000 == 0
  {
    var m := x % 0x1_0000_0000;
    if m >= 0x8000_0000 then m - 0x1_0000_0000 else m
  }

  /** `Arrays.hashCode(int[])`: 1 for the empty array, then `31 * h + e` per
      element, wrapping at 32 bits. */
  function ArraysHash(s: seq<int>): (h: int)
    ensures -0x8000_0000 <= h < 0x8000_0000 || s == []
  {
    if s == [] then 1 else ToInt32(31 * ArraysHash(s[..|s| - 1]) + s[|s| - 1])
  }

  /** `hashCode`. Being a function of the colours alone, equal sides hash equally. */
  function HashCode(side: Side): (h: int)
    ensures -0x8000_0000 <= h < 0x8000_0000
  {
    ArraysHash(side.colors)
  }

  /** Two ints closer than 2^32 truncate to the same Java `int` only when equal. */
  lemma ToInt32Injective(x: int, y: int)
    requires -0x1_0000_0000 < x - y < 0x1_0000_0000
    ensures ToInt32(x) == ToInt32(y) ==> x == y
  {
    var k := x / 0x1_0000_0000 - y / 0x1_0000_0000;
    assert x % 0x1_0000_0000 - y % 0x1_0000_0000 == x - y - 0x1_0000_0000 * k;
  }

  /** Arrays that differ only in the last element hash differently. */
  lemma {:induction false} HashSeesLastElement(a: seq<int>, b: seq<int>)
    requires |a| == |b| > 0 && a[..|a| - 1] == b[..|b| - 1]
    requires a[|a| - 1] != b[|b| - 1]
    requires -0x1_0000_0000 < a[|a| - 1] - b[|b| - 1] < 0x1_0000_0000
    ensures ArraysHash(a) != ArraysHash(b)
  {
    ToInt32Injective(31 * ArraysHash(a[..|a| - 1]) + a[|a| - 1], 31 * ArraysHash(b[..|b| - 1]) + b[|b| - 1]);
  }

  /** SideTest's word one past 0x0001020304050001 is the sample side with its
      last facelet ORANGE instead of RED; the two hash differently. */
  lemma SampleHashes()
    ensures HashCode(Side([WHITE, RED, ORANGE, YELLOW, GREEN, BLUE, WHITE, ORANGE]))
         != HashCode(Side([WHITE, RED, ORANGE, YELLOW, GREEN, BLUE, WHITE, RED]))
  {
    var a: seq<int> := [WHITE, RED, ORANGE, YELLOW, GREEN, BLUE, WHITE, ORANGE];
    var b: seq<int> := [WHITE, RED, ORANGE, YELLOW, GREEN, BLUE, WHITE, RED];
    assert a[..7] == b[..7];
    HashSeesLastElement(a, b);
  }
}
