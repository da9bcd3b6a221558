/** The second phase: the four WHITE corners, one between each pair of
    neighbouring side faces in WHITE's ring. A corner is found on the WHITE
    or the YELLOW layer, brought above its place on YELLOW and twisted in. */
module WhiteCornersPhase {
  import opened Outcomes
  import opened FaceColor
  import opened CornerPieces
  import opened CubeTopology
  import opened Cubes
  import ArrayUtil
  import opened SolveSteps

  /** `WHITE_CORNER_COLORS`: for each side face, the WHITE facelet of the
      corner at that side's bottom right; -1 for WHITE and YELLOW. */
  const WHITE_CORNER_COLORS: seq<int> := [-1, TOP_LEFT as int, BOTTOM_RIGHT as int, -1, TOP_RIGHT as int, BOTTOM_LEFT as int]

  /** `YELLOW_CORNER_COLORS`: for each side face, the YELLOW facelet of the
      corner at that side's top right; -1 for WHITE and YELLOW. */
  const YELLOW_CORNER_COLORS: seq<int> := [-1, BOTTOM_LEFT as int, TOP_RIGHT as int, -1, BOTTOM_RIGHT as int, TOP_LEFT as int]

  /** The two ways `getSideOfCorner` is called: WHITE with the WHITE table,
      YELLOW with the YELLOW table. */
  predicate IsLookup(baseSide: Color, lookup: seq<int>)
  {
    (baseSide == WHITE && lookup == WHITE_CORNER_COLORS) || (baseSide == YELLOW && lookup == YELLOW_CORNER_COLORS)
  }

  /** Both tables name a corner facelet for every side face. */
  lemma LookupIsCorner(lookup: seq<int>, c: Color)
    requires lookup == WHITE_CORNER_COLORS || lookup == YELLOW_CORNER_COLORS
    requires IsSideFace(c)
    ensures 0 <= lookup[c] < 8 && lookup[c] % 2 == 0
  {
  }

  /** Whether the corner `lookup` names for side face `c` on `baseSide` is
      the piece with colours WHITE, `left` and `right`, in any order: the
      test `equals` makes (see `EqualsIffSameColors`). */
  predicate HoldsCorner(s: CubeState, baseSide: Color, lookup: seq<int>, left: Color, right: Color, c: Color)
    requires IsLookup(baseSide, lookup) && IsSideFace(c)
  {
    LookupIsCorner(lookup, c);
    Colors(CornerAt(s, baseSide, lookup[c]).value) == {WHITE, left, right}
  }

  /** For each entry of `baseSide`'s list, in order, whether its corner
      holds the piece WHITE, `left`, `right`. */
  function CornerMatches(s: CubeState, baseSide: Color, lookup: seq<int>, left: Color, right: Color): (m: seq<bool>)
    requires IsLookup(baseSide, lookup)
    ensures |m| == 4
  {
    PoleRings(0);
    seq(4, k requires 0 <= k < 4 => HoldsCorner(s, baseSide, lookup, left, right, Connections(baseSide)[k].side))
  }

  /** `getSideOfCorner(baseSide, left, right, lookup)`'s answer: the side
      of the first entry whose corner holds the piece, or -1. */
  function CornerSide(s: CubeState, baseSide: Color, lookup: seq<int>, left: Color, right: Color): (r: int)
    requires IsLookup(baseSide, lookup)
    ensures r == -1 || IsSideFace(r)
  {
    PoleRings(0);
    var k := FirstIndex(CornerMatches(s, baseSide, lookup, left, right), 0);
    if k == -1 then -1 else Connections(baseSide)[k].side
  }

  /** `isCornerSolved`: the bottom right of `left` and the bottom left of
      `right` show their own sides' colours. */
  predicate IsCornerSolved(s: CubeState, left: Color, right: Color)
  {
    s[left][BOTTOM_RIGHT] == left && s[right][BOTTOM_LEFT] == right
  }

  /** On the solved cube the corner of WHITE or YELLOW between entries `e`
      and `e + 1` shows that side's colour and the colours of the two
      entries. */
  lemma SolvedPoleCorner(side: Color, e: int)
    requires side == WHITE || side == YELLOW
    requires 0 <= e < 4
    ensures var c := Connections(side);
      CornerAt(Solved(), side, 2 * e) == Ok(CornerPiece(side, c[e].side, c[(e + 1) % 4].side))
  {
    assert CornerEntry(side, 2 * e) == e;
    assert CornerAt(Solved(), side, 2 * e).Ok?;
  }

  /** Going round WHITE's list, the WHITE table names the corners in ring
      order and the YELLOW table names YELLOW's corners in reverse ring
      order, each between the same two side faces. */
  lemma TablesAlongRing(j: int)
    requires 0 <= j < 4
    ensures var c, y := Connections(WHITE), Connections(YELLOW);
      && WHITE_CORNER_COLORS[c[j].side] == 2 * j
      && YELLOW_CORNER_COLORS[c[j].side] == 2 * (3 - j)
      && y[3 - j].side == c[(j + 1) % 4].side && y[(4 - j) % 4].side == c[j].side
  {
    var c, y := Connections(WHITE), Connections(YELLOW);
    assert c[0].side == RED && c[1].side == GREEN && c[2].side == ORANGE && c[3].side == BLUE;
    assert y[0].side == RED && y[1].side == BLUE && y[2].side == ORANGE && y[3].side == GREEN;
  }

  /** On the solved cube every corner of the pass is solved, and the two
      tables name the corner between each side face and the next one in
      WHITE's ring: on WHITE it holds WHITE, and on YELLOW the same two side
      colours with YELLOW. */
  lemma SolvedCornersMatchTables(j: int)
    requires 0 <= j < 4
    ensures var left, right := Connections(WHITE)[j].side, Connections(WHITE)[(j + 1) % 4].side;
      && IsCornerSolved(Solved(), left, right)
      && CornerAt(Solved(), WHITE, WHITE_CORNER_COLORS[left]) == Ok(CornerPiece(WHITE, left, right))
      && CornerAt(Solved(), YELLOW, YELLOW_CORNER_COLORS[left]).Ok?
      && Equals(CornerAt(Solved(), YELLOW, YELLOW_CORNER_COLORS[left]).value, CornerPiece(YELLOW, left, right))
  {
    TablesAlongRing(j);
    var left, right := Connections(WHITE)[j].side, Connections(WHITE)[(j + 1) % 4].side;
    assert Solved()[left][BOTTOM_RIGHT] == left && Solved()[right][BOTTOM_LEFT] == right;
    SolvedPoleCorner(WHITE, j);
    SolvedPoleCorner(YELLOW, 3 - j);
  }

  /** The calls `findAndAlignCornerAbove` makes once the corner is known to
      be at `origin`'s corner of the WHITE layer (`fromWhite`) or of the
      YELLOW layer: lift it (WHITE layer only), turn YELLOW to bring it
      above `left`, then turn `origin` back, first moving the corner off
      `origin` with YELLOW when it would be carried back down. */
  function AlignCalls(origin: Color, left: Color, fromWhite: bool): (calls: seq<Rotation>)
    requires IsSideFace(origin) && IsSideFace(left)
  {
    var d := DistanceAroundYellow(origin, left).value;
    if !fromWhite then [Rotation(YELLOW, d)]
    else
      [Rotation(origin, -1), Rotation(YELLOW, d)]
      + (if d == 1 then [Rotation(YELLOW, 1), Rotation(origin, 1), Rotation(YELLOW, -1)]
         else if d == 0 then [Rotation(YELLOW, 1), Rotation(origin, 1)]
         else [Rotation(origin, 1)])
  }

  /** Lifting a corner out of the WHITE layer is always undone: `origin`
      turns back as far as it turned. At most five quarter turns are made. */
  lemma AlignRestoresOrigin(origin: Color, left: Color, fromWhite: bool)
    requires IsSideFace(origin) && IsSideFace(left)
    ensures NetQuarters(AlignCalls(origin, left, fromWhite), origin) == 0
    ensures Quarters(AlignCalls(origin, left, fromWhite)) <= 5
  {
    var d := DistanceAroundYellow(origin, left).value;
    var lift, turn, back := Rotation(origin, -1), Rotation(YELLOW, d), Rotation(origin, 1);
    var on, off := Rotation(YELLOW, 1), Rotation(YELLOW, -1);
    NetQuartersOne(lift, origin);
    QuartersOne(lift);
    NetQuartersOne(turn, origin);
    QuartersOne(turn);
    NetQuartersOne(back, origin);
    QuartersOne(back);
    NetQuartersOne(on, origin);
    QuartersOne(on);
    NetQuartersOne(off, origin);
    QuartersOne(off);
    if !fromWhite {
      assert AlignCalls(origin, left, fromWhite) == [turn];
    } else if d == 1 {
      assert AlignCalls(origin, left, fromWhite) == [lift, turn] + [on, back, off];
      CountsThree(on, back, off, origin);
      assert [lift, turn] == [lift] + [turn];
      NetQuartersAppend([lift] + [turn], [on, back, off], origin);
      NetQuartersAppend([lift], [turn], origin);
      QuartersAppend([lift] + [turn], [on, back, off]);
      QuartersAppend([lift], [turn]);
    } else if d == 0 {
      assert AlignCalls(origin, left, fromWhite) == [lift, turn, on] + [back];
      CountsThree(lift, turn, on, origin);
      NetQuartersAppend([lift, turn, on], [back], origin);
      QuartersAppend([lift, turn, on], [back]);
    } else {
      assert AlignCalls(origin, left, fromWhite) == [lift, turn, back];
      CountsThree(lift, turn, back, origin);
    }
  }

  /** The outcome and calls of `findAndAlignCornerAbove` after `calls`,
      where `w` and `y` are the answers of `getSideOfCorner` on the WHITE
      and the YELLOW layer: the WHITE layer is preferred, and a corner on
      neither is an error. */
  predicate AlignedAbove(w: int, y: int, left: Color, calls: seq<Rotation>, r: Outcome, calls': seq<Rotation>)
    requires (w == -1 || IsSideFace(w)) && (y == -1 || IsSideFace(y)) && IsSideFace(left)
  {
    if w != -1 then r.Ok? && calls' == calls + AlignCalls(w, left, true)
    else if y != -1 then r.Ok? && calls' == calls + AlignCalls(y, left, false)
    else r == Err(IllegalState("couldn't find white corner")) && calls' == calls
  }

  /** `AlignedAbove` with the answers `getSideOfCorner` gives on `s`. */
  predicate AlignedFrom(s: CubeState, left: Color, right: Color, calls: seq<Rotation>, r: Outcome, calls': seq<Rotation>)
    requires IsSideFace(left)
  {
    AlignedAbove(CornerSide(s, WHITE, WHITE_CORNER_COLORS, left, right), CornerSide(s, YELLOW, YELLOW_CORNER_COLORS, left, right),
                 left, calls, r, calls')
  }

  /** `counterClockwise(side)`, `counterClockwise(YELLOW)`, `clockwise(side)`:
      one attempt at inserting the corner below the YELLOW layer. */
  function Twist(side: Color): seq<Rotation>
  {
    [Rotation(side, -1), Rotation(YELLOW, -1), Rotation(side, 1)]
  }

  /** What a failed attempt adds after its twist: the twist again and a
      clockwise turn of YELLOW. */
  function Untwist(side: Color): seq<Rotation>
  {
    Twist(side) + [Rotation(YELLOW, 1)]
  }

  /** The calls of `k` failed insertion attempts. */
  function FailedInsertions(side: Color, k: nat): seq<Rotation>
  {
    if k == 0 then [] else FailedInsertions(side, k - 1) + Twist(side) + Untwist(side)
  }

  /** One more failed attempt after `k`, made after `calls`. */
  lemma FailedInsertionsNext(calls: seq<Rotation>, side: Color, k: nat)
    ensures calls + FailedInsertions(side, k) + Twist(side) + Untwist(side) == calls + FailedInsertions(side, k + 1)
  {
    assert FailedInsertions(side, k + 1) == FailedInsertions(side, k) + Twist(side) + Untwist(side);
  }

  /** Each failed attempt is seven quarter turns, so an insertion that
      succeeds on attempt `k` (from 0) makes `7k + 3`, and three failures
      make 21. */
  lemma {:induction false} InsertionQuarters(side: Color, k: nat)
    ensures Quarters(FailedInsertions(side, k)) == 7 * k
    ensures Quarters(FailedInsertions(side, k) + Twist(side)) == 7 * k + 3
  {
    var t := Twist(side);
    CountsThree(Rotation(side, -1), Rotation(YELLOW, -1), Rotation(side, 1), side);
    QuartersOne(Rotation(side, -1));
    QuartersOne(Rotation(YELLOW, -1));
    QuartersOne(Rotation(side, 1));
    QuartersOne(Rotation(YELLOW, 1));
    QuartersAppend(t, [Rotation(YELLOW, 1)]);
    if k > 0 {
      InsertionQuarters(side, k - 1);
      var f := FailedInsertions(side, k - 1);
      QuartersAppend(f, t);
      QuartersAppend(f + t, Untwist(side));
    }
    QuartersAppend(FailedInsertions(side, k), t);
  }

  /** `getSideOfCorner(baseSide, left, right, lookup)` on the faces
      `sides`: the loop over `baseSide`'s list that returns the first side
      whose corner holds the piece, or -1. */
  method GetSideOfCorner(sides: CubeState, baseSide: Color, left: Color, right: Color, cornerLookup: seq<int>)
    returns (side: int)
    requires IsLookup(baseSide, cornerLookup)
    ensures side == -1 || IsSideFace(side)
    ensures side == CornerSide(sides, baseSide, cornerLookup, left, right)
  {
    PoleRings(0);
    var target := NewCornerPiece(WHITE, left, right).value;
    var connections := Connections(baseSide);
    ghost var matches := CornerMatches(sides, baseSide, cornerLookup, left, right);
    for k := 0 to 4
      invariant FirstIndex(matches, 0) == FirstIndex(matches, k)
    {
      var connection := connections[k];
      LookupIsCorner(cornerLookup, connection.side);
      var corner := CornerAt(sides, baseSide, cornerLookup[connection.side]).value;
      EqualsIffSameColors(corner, target);
      if Equals(corner, target) {
        return connection.side;
      }
    }
    return -1;
  }

  /** `WhiteCornersStep`. */
  class WhiteCorners {
    const base: SolveStep

    ghost predicate Valid()
      reads this, base, base.cube, base.cube.faces
    {
      base.Valid()
    }

    constructor(cube: Cube)
      requires cube.Valid()
      ensures Valid() && fresh(base)
      ensures base.cube == cube && base.calls == [] && base.markers == map[] && base.start == cube.State()
    {
      base := new SolveStep(cube);
    }

    /** `solve`: each corner between neighbouring side faces of WHITE's ring,
        in ring order, is left alone when solved and otherwise aligned above
        its place and inserted. */
    method Solve() returns (r: Outcome)
      requires Valid()
      modifies base, base.cube.faces
      ensures Valid() && base.start == old(base.start) && base.markers == old(base.markers)
      ensures r.Err? ==>
        r == Err(IllegalState("couldn't find white corner")) || r == Err(IllegalState("couldn't rotate corner in under 3 moves"))
    {
      for iConn := 0 to 4
        invariant Valid() && base.start == old(base.start) && base.markers == old(base.markers)
      {
        ghost var aligned;
        r, aligned := SolveCorner(iConn);
        if r.Err? {
          return;
        }
      }
      r := Pass;
    }

    /** One corner of `solve`: the one between entry `j` of WHITE's list
        and the next entry, taken circularly. A solved corner gets no
        moves; otherwise the corner is aligned (the calls `aligned`) and
        then inserted (see `Inserted`). */
    method SolveCorner(j: int) returns (r: Outcome, ghost aligned: seq<Rotation>)
      requires Valid() && 0 <= j < 4
      modifies base, base.cube.faces
      ensures Valid() && base.start == old(base.start) && base.markers == old(base.markers)
      ensures var left := Connections(WHITE)[j].side;
        var right := Connections(WHITE)[(j + 1) % 4].side;
        if IsCornerSolved(old(base.cube.State()), left, right) then
          r.Ok? && base.calls == old(base.calls)
        else
          exists ra: Outcome ::
            && AlignedFrom(old(base.cube.State()), left, right, old(base.calls), ra, aligned)
            && (ra.Err? ==> r == ra && base.calls == aligned)
            && (ra.Ok? ==> Inserted(base.start, left, aligned, r, base.calls))
    {
      PoleRings(0);
      var connections := Connections(WHITE);
      var leftSideOfCorner := connections[j].side;
      var rightSideOfCorner := ArrayUtil.LoopedIndex(connections, j + 1).value.side;
      aligned := base.calls;
      if IsCornerSolved(base.cube.State(), leftSideOfCorner, rightSideOfCorner) {
        return Pass, aligned;
      }
      var ra := FindAndAlignCornerAbove(leftSideOfCorner, rightSideOfCorner);
      aligned := base.calls;
      if ra.Err? {
        return ra, aligned;
      }
      r := InsertCornerWithCorrectRotation(leftSideOfCorner);
    }

    /** `findAndAlignCornerAbove`: see `AlignedAbove`. */
    method FindAndAlignCornerAbove(left: Color, right: Color) returns (r: Outcome)
      requires Valid() && IsSideFace(left)
      modifies base, base.cube.faces
      ensures Valid() && base.start == old(base.start) && base.markers == old(base.markers)
      ensures AlignedFrom(old(base.cube.State()), left, right, old(base.calls), r, base.calls)
    {
      var originSide := GetSideOfCorner(base.cube.State(), WHITE, left, right, WHITE_CORNER_COLORS);
      var needsRestore := false;
      if originSide != -1 {
        needsRestore := true;
      } else {
        originSide := GetSideOfCorner(base.cube.State(), YELLOW, left, right, YELLOW_CORNER_COLORS);
        if originSide == -1 {
          return Err(IllegalState("couldn't find white corner"));
        }
      }
      AlignFrom(originSide, left, needsRestore);
      r := Pass;
    }

    /** The turns of `findAndAlignCornerAbove` once the corner's side is known. */
    method AlignFrom(originSide: Color, left: Color, needsRestore: bool)
      requires Valid() && IsSideFace(originSide) && IsSideFace(left)
      modifies base, base.cube.faces
      ensures Valid() && base.start == old(base.start) && base.markers == old(base.markers)
      ensures base.calls == old(base.calls) + AlignCalls(originSide, left, needsRestore)
    {
      if needsRestore {
        base.CounterClockwise(originSide);
      }
      var distance := DistanceAroundYellow(originSide, left).value;
      base.Rotate(YELLOW, distance);
      if needsRestore {
        if distance == 1 {
          base.Clockwise(YELLOW);
          base.Clockwise(originSide);
          base.CounterClockwise(YELLOW);
        } else {
          if distance == 0 {
            base.Clockwise(YELLOW);
          }
          base.Clockwise(originSide);
        }
      }
    }

    /** `insertCornerWithCorrectRotation(left)`: up to three attempts, each
        the twist followed by a look at the corner's WHITE facelet. */
    method InsertCornerWithCorrectRotation(left: Color) returns (r: Outcome)
      requires Valid() && IsSideFace(left)
      modifies base, base.cube.faces
      ensures Valid() && base.start == old(base.start) && base.markers == old(base.markers)
      ensures Inserted(base.start, left, old(base.calls), r, base.calls)
    {
      ghost var calls := base.calls;
      ghost var seated := Seatings(base.start, calls, left);
      for i := 0 to 3
        invariant Valid() && base.start == old(base.start) && base.markers == old(base.markers)
        invariant base.calls == calls + FailedInsertions(left, i)
        invariant FirstIndex(seated, i) == FirstIndex(seated, 0)
      {
        var correctRotation := AttemptInsertion(left, calls, i);
        if correctRotation {
          InsertedAt(base.start, left, calls, i);
          return Pass;
        }
      }
      InsertedAt(base.start, left, calls, 3);
      return Err(IllegalState("couldn't rotate corner in under 3 moves"));
    }

    /** One attempt of `insertCornerWithCorrectRotation(left)`, the `i`-th
        after `calls`: the twist, the look at the corner's WHITE facelet,
        and the closing turns when it is not WHITE. */
    method AttemptInsertion(left: Color, ghost calls: seq<Rotation>, i: nat) returns (seated: bool)
      requires Valid() && IsSideFace(left) && i < 3
      requires base.calls == calls + FailedInsertions(left, i)
      modifies base, base.cube.faces
      ensures Valid() && base.start == old(base.start) && base.markers == old(base.markers)
      ensures seated == Seatings(base.start, calls, left)[i]
      ensures seated ==> base.calls == calls + FailedInsertions(left, i) + Twist(left)
      ensures !seated ==> base.calls == calls + FailedInsertions(left, i + 1)
    {
      var cornerIndex := WHITE_CORNER_COLORS[left];
      assert 0 <= cornerIndex < 8;
      TwistDown(left);
      base.Reaches();
      var whiteFaces := base.cube.State()[WHITE];
      seated := whiteFaces[cornerIndex] == WHITE;
      SeatedNow(base.start, calls, left, i, base.cube.State());
      if !seated {
        UndoTwist(left);
        FailedInsertionsNext(calls, left, i);
      }
    }

    /** The three turns of one insertion attempt. */
    method TwistDown(side: Color)
      requires Valid()
      modifies base, base.cube.faces
      ensures Valid() && base.start == old(base.start) && base.markers == old(base.markers)
      ensures base.calls == old(base.calls) + Twist(side)
    {
      base.CounterClockwise(side);
      base.CounterClockwise(YELLOW);
      base.Clockwise(side);
    }

    /** The four turns that close a failed attempt. */
    method UndoTwist(side: Color)
      requires Valid()
      modifies base, base.cube.faces
      ensures Valid() && base.start == old(base.start) && base.markers == old(base.markers)
      ensures base.calls == old(base.calls) + Untwist(side)
    {
      TwistDown(side);
      base.Clockwise(YELLOW);
    }
  }

  /** Whether attempt `k` (from 0) of `insertCornerWithCorrectRotation(left)`
      seats the corner, on the cube `start` after `calls`: after `k` failed
      attempts and one more twist, the corner's WHITE facelet shows WHITE. */
  predicate Seats(start: CubeState, calls: seq<Rotation>, left: Color, k: nat)
    requires IsSideFace(left)
  {
    After(start, calls + FailedInsertions(left, k) + Twist(left))[WHITE][WHITE_CORNER_COLORS[left]] == WHITE
  }

  /** For each of the three attempts, in order, whether it seats the corner. */
  function Seatings(start: CubeState, calls: seq<Rotation>, left: Color): (m: seq<bool>)
    requires IsSideFace(left)
    ensures |m| == 3
  {
    seq(3, k requires 0 <= k < 3 => Seats(start, calls, left, k))
  }

  /** The failed attempts `insertCornerWithCorrectRotation(left)` makes before
      one seats the corner, or 3 when none does. */
  function Tries(start: CubeState, calls: seq<Rotation>, left: Color): (t: nat)
    requires IsSideFace(left)
    ensures t <= 3
  {
    var k := FirstIndex(Seatings(start, calls, left), 0);
    if k == -1 then 3 else k
  }

  /** The insertion stops at the first attempt that seats the corner: every
      earlier attempt fails, and all three fail when it gives up. */
  lemma TriesMeaning(start: CubeState, calls: seq<Rotation>, left: Color)
    requires IsSideFace(left)
    ensures var t := Tries(start, calls, left);
      && (t < 3 ==> Seats(start, calls, left, t))
      && forall i :: 0 <= i < t ==> !Seats(start, calls, left, i)
  {
    var m := Seatings(start, calls, left);
    FirstIndexFirst(m, 0);
    assert forall i :: 0 <= i < 3 ==> m[i] == Seats(start, calls, left, i);
  }

  /** The insertion loop's exits: attempt `i` seats the corner after `i`
      failed ones, or all three (`i == 3`) failed. */
  lemma InsertedAt(start: CubeState, left: Color, calls: seq<Rotation>, i: nat)
    requires IsSideFace(left) && i <= 3
    requires var m := Seatings(start, calls, left);
      FirstIndex(m, i) == FirstIndex(m, 0) && (i < 3 ==> m[i])
    ensures i < 3 ==> Inserted(start, left, calls, Pass, calls + FailedInsertions(left, i) + Twist(left))
    ensures i == 3 ==> Inserted(start, left, calls, Err(IllegalState("couldn't rotate corner in under 3 moves")),
                                calls + FailedInsertions(left, 3))
  {
  }

  /** Attempt `i` seats the corner exactly when, on the cube `now` it
      leaves, the corner's WHITE facelet shows WHITE. */
  lemma SeatedNow(start: CubeState, calls: seq<Rotation>, left: Color, i: nat, now: CubeState)
    requires IsSideFace(left) && i < 3
    requires Reached(now, start, calls + FailedInsertions(left, i) + Twist(left))
    ensures Seatings(start, calls, left)[i] <==> now[WHITE][WHITE_CORNER_COLORS[left]] == WHITE
  {
    assert Ask(0);
  }

  /** What `insertCornerWithCorrectRotation(left)` does on the cube `start`
      after `calls`: it stops at the first of three attempts that seats the
      corner (see `TriesMeaning`), and throws when none does. */
  predicate Inserted(start: CubeState, left: Color, calls: seq<Rotation>, r: Outcome, calls': seq<Rotation>)
    requires IsSideFace(left)
  {
    var tries := Tries(start, calls, left);
    if tries < 3 then
      r.Ok? && calls' == calls + FailedInsertions(left, tries) + Twist(left)
    else
      && r == Err(IllegalState("couldn't rotate corner in under 3 moves"))
      && calls' == calls + FailedInsertions(left, 3)
  }
}
