/** The sixth phase: each YELLOW corner is brought to its place between the
    two side faces whose colours it carries, twist aside. A corner is in
    place when its three colours are YELLOW and the two sides it sits
    between; an eight-turn cycle moves the three corners other than the one
    at a chosen entry. */
module PositionYellowCornersPhase {
  import opened Outcomes
  import opened FaceColor
  import opened CornerPieces
  import opened CubeTopology
  import opened Cubes
  import ArrayUtil
  import opened SolveSteps

  /** `YELLOW_CONNECTION_CORNER_INDICES`: for each side face, the YELLOW
      facelet of the corner it shares with the side before it on YELLOW's
      list; -1 for WHITE and YELLOW. */
  const YELLOW_CONNECTION_CORNER_INDICES: seq<int> := [-1, 6, 2, -1, 4, 0]

  /** A position round YELLOW's list. */
  type Entry = k: int | 0 <= k < 4

  /** The entry before `k` round YELLOW's list. */
  function Prev(k: int): int
  {
    if k == 0 then 3 else k - 1
  }

  /** The entry after `k` round YELLOW's list. */
  function Next(k: int): int
  {
    if k == 3 then 0 else k + 1
  }

  /** The corner YELLOW's entry `k` shares with the entry before it: its
      YELLOW facelet, the top left of the side before and the top right of
      the entry's own side. */
  function YellowCorner(s: CubeState, k: int): CornerPiece
    requires 0 <= k < 4
  {
    var yellowFaceIndex := [6, 0, 2, 4][k];
    CornerPiece(s[YELLOW][yellowFaceIndex], s[YELLOW_RING[Prev(k)]][TOP_LEFT], s[YELLOW_RING[k]][TOP_RIGHT])
  }

  /** The table names, for entry `k`'s side, the corner YELLOW shares with
      that side and the one before it, and `getCornerPiece` reads it as
      `YellowCorner`. */
  lemma YellowCornerAt(s: CubeState, k: int)
    requires 0 <= k < 4
    ensures var yellowFaceIndex := YELLOW_CONNECTION_CORNER_INDICES[YELLOW_RING[k]];
      CornerAt(s, YELLOW, yellowFaceIndex) == Ok(YellowCorner(s, k))
  {
    if k == 0 {
      assert CornerEntry(YELLOW, 6) == 3;
    } else if k == 1 {
      assert CornerEntry(YELLOW, 0) == 0;
    } else if k == 2 {
      assert CornerEntry(YELLOW, 2) == 1;
    } else {
      assert CornerEntry(YELLOW, 4) == 2;
    }
  }

  /** `yellowConnectionMatchesExpectedCorner(k)`: the corner equals, in the
      sense of `equals`, the piece YELLOW, entry `k`'s side and the side
      before it. */
  predicate CornerPlaced(s: CubeState, k: int)
    requires 0 <= k < 4
  {
    Equals(YellowCorner(s, k), CornerPiece(YELLOW, YELLOW_RING[k], YELLOW_RING[Prev(k)]))
  }

  /** A corner is in place exactly when its colours are YELLOW and the two
      sides it sits between, whatever its twist. */
  lemma CornerPlacedMeaning(s: CubeState, k: int)
    requires 0 <= k < 4
    ensures CornerPlaced(s, k) <==> Colors(YellowCorner(s, k)) == {YELLOW, YELLOW_RING[k], YELLOW_RING[Prev(k)]}
  {
    EqualsIffSameColors(YellowCorner(s, k), CornerPiece(YELLOW, YELLOW_RING[k], YELLOW_RING[Prev(k)]));
  }

  /** For each entry, whether its corner is in place. */
  function Placed(s: CubeState): (m: seq<bool>)
    ensures |m| == 4 && forall k :: 0 <= k < 4 ==> (m[k] <==> CornerPlaced(s, k))
  {
    seq(4, k requires 0 <= k < 4 => CornerPlaced(s, k))
  }

  /** The number of the first `n` entries whose corner is not in place. */
  function Unplaced(s: CubeState, n: int): (u: nat)
    requires 0 <= n <= 4
    ensures u <= n
  {
    if n == 0 then 0 else Unplaced(s, n - 1) + (if CornerPlaced(s, n - 1) then 0 else 1)
  }

  /** No corner among the first `n` is out of place exactly when all are
      in place, and all `n` are out of place exactly when none is in
      place. */
  lemma {:induction false} UnplacedMeaning(s: CubeState, n: int)
    requires 0 <= n <= 4
    ensures Unplaced(s, n) == 0 <==> forall k :: 0 <= k < n ==> CornerPlaced(s, k)
    ensures Unplaced(s, n) == n <==> forall k :: 0 <= k < n ==> !CornerPlaced(s, k)
  {
    if n > 0 {
      UnplacedMeaning(s, n - 1);
    }
  }

  /** Every corner of the solved cube is in place. */
  lemma SolvedCornersPlaced()
    ensures Unplaced(Solved(), 4) == 0
  {
    forall k | 0 <= k < 4
      ensures CornerPlaced(Solved(), k)
    {
      CornerPlacedMeaning(Solved(), k);
    }
    UnplacedMeaning(Solved(), 4);
  }

  /** `findConnectedSideOfSolvedCorner`: the first entry whose corner is in
      place, or "no corners are solved". */
  function SolvedCornerEntry(s: CubeState): (r: Result<Entry>)
    ensures r.Err? <==> forall k :: 0 <= k < 4 ==> !CornerPlaced(s, k)
    ensures r.Err? ==> r.error == IllegalState("no corners are solved")
    ensures r.Ok? ==>
      && 0 <= r.value < 4 && CornerPlaced(s, r.value)
      && forall k :: 0 <= k < r.value ==> !CornerPlaced(s, k)
  {
    FirstIndexFirst(Placed(s), 0);
    var k := FirstIndex(Placed(s), 0);
    if k == -1 then Err(IllegalState("no corners are solved")) else Ok(k)
  }

  /** The eight quarter turns of `repositionAround(k)`: `left` is the entry
      after `k` and `right` the entry before it. */
  function RepositionCalls(k: Entry): seq<Rotation>
  {
    var left, right := YELLOW_RING[Next(k)], YELLOW_RING[Prev(k)];
    [Rotation(YELLOW, 1), Rotation(right, 1), Rotation(YELLOW, -1), Rotation(left, -1),
     Rotation(YELLOW, 1), Rotation(right, -1), Rotation(YELLOW, -1), Rotation(left, 1)]
  }

  /** The cycle turns the two sides beside entry `k`, never the entry's own
      side, and turns each face back as far as it turned it forward. */
  lemma RepositionBalanced(k: Entry, side: Color)
    ensures Quarters(RepositionCalls(k)) == 8
    ensures NetQuarters(RepositionCalls(k), side) == 0
    ensures forall i :: 0 <= i < 8 ==> RepositionCalls(k)[i].side != YELLOW_RING[k]
  {
    var c := RepositionCalls(k);
    UnitQuarters(c);
    assert c == [c[0], c[1], c[2]] + [c[3], c[4], c[5]] + [c[6], c[7]];
    assert [c[6], c[7]] == [c[6]] + [c[7]];
    NetQuartersAppend([c[0], c[1], c[2]] + [c[3], c[4], c[5]], [c[6]] + [c[7]], side);
    NetQuartersAppend([c[0], c[1], c[2]], [c[3], c[4], c[5]], side);
    NetQuartersAppend([c[6]], [c[7]], side);
    CountsThree(c[0], c[1], c[2], side);
    CountsThree(c[3], c[4], c[5], side);
    NetQuartersOne(c[0], side);
    NetQuartersOne(c[1], side);
    NetQuartersOne(c[2], side);
    NetQuartersOne(c[3], side);
    NetQuartersOne(c[4], side);
    NetQuartersOne(c[5], side);
    NetQuartersOne(c[6], side);
    NetQuartersOne(c[7], side);
  }

  /** Half the cycle: YELLOW forward, `right` one way, YELLOW back, `left`
      the other way; the second half turns the sides the opposite ways. */
  function HalfCycleCalls(right: Color, left: Color, forward: bool): seq<Rotation>
  {
    var q := if forward then 1 else -1;
    [Rotation(YELLOW, 1), Rotation(right, q), Rotation(YELLOW, -1), Rotation(left, -q)]
  }


  /** The calls of the cycles round the entries `around`, one after the
      other. */
  function RepositionsCalls(around: seq<Entry>): seq<Rotation>
  {
    if around == [] then [] else RepositionsCalls(around[..|around| - 1]) + RepositionCalls(around[|around| - 1])
  }

  /** `k` cycles make `8k` quarter turns. */
  lemma {:induction false} RepositionsQuarters(around: seq<Entry>)
    ensures Quarters(RepositionsCalls(around)) == 8 * |around|
  {
    if around != [] {
      var k := around[|around| - 1];
      RepositionsQuarters(around[..|around| - 1]);
      RepositionBalanced(k, YELLOW);
      QuartersAppend(RepositionsCalls(around[..|around| - 1]), RepositionCalls(k));
    }
  }

  /** The calls of two runs of cycles, one after the other. */
  lemma {:induction false} RepositionsAppend(a: seq<Entry>, b: seq<Entry>)
    ensures RepositionsCalls(a + b) == RepositionsCalls(a) + RepositionsCalls(b)
    decreases |b|
  {
    if b == [] {
      assert a + b == a;
    } else {
      var init := b[..|b| - 1];
      assert (a + b)[..|a + b| - 1] == a + init;
      RepositionsAppend(a, init);
    }
  }

  /** Two runs of cycles made one after the other. */
  lemma RepositionsThen(calls: seq<Rotation>, a: seq<Entry>, b: seq<Entry>)
    ensures calls + RepositionsCalls(a) + RepositionsCalls(b) == calls + RepositionsCalls(a + b)
  {
    RepositionsAppend(a, b);
    var x, y := RepositionsCalls(a), RepositionsCalls(b);
    assert calls + x + y == calls + (x + y);
  }

  /** One more cycle after those made. */
  lemma RepositionsSnoc(around: seq<Entry>, k: Entry)
    ensures RepositionsCalls(around + [k]) == RepositionsCalls(around) + RepositionCalls(k)
  {
    assert (around + [k])[..|around|] == around;
  }

  /** The cycles of `solve`'s loop round `e`, from the cube `s`: one, and
      a second unless every corner is in place after the first. */
  function RoundsFor(s: CubeState, e: Entry): (more: seq<Entry>)
    ensures 1 <= |more| <= 2 && forall i :: 0 <= i < |more| ==> more[i] == e
  {
    if Unplaced(After(s, RepositionCalls(e)), 4) == 0 then [e] else [e, e]
  }

  /** The cycles `solve` makes from the cube `s` once its first check is
      past: those of the loop round the first entry whose corner is in
      place, and none when no corner is. */
  function FromSolved(s: CubeState): (more: seq<Entry>)
    ensures |more| <= 2
  {
    match SolvedCornerEntry(s)
    case Err(_) => []
    case Ok(e) => RoundsFor(s, e)
  }

  /** The cycles `solve` makes from the cube `s`: none when every corner is
      in place; otherwise one round entry 0 when no corner is, then those
      of `FromSolved` on the cube that leaves. */
  function CornerCycles(s: CubeState): (around: seq<Entry>)
    ensures |around| <= 3
  {
    var unsolved := Unplaced(s, 4);
    if unsolved == 0 then []
    else if unsolved == 4 then [0] + FromSolved(After(s, RepositionCalls(0)))
    else FromSolved(s)
  }

  /** With no corner in place, `solve` cycles round entry 0 and then round
      the first entry placed after that cycle, stopping there when there is
      none. */
  lemma CornerCyclesNonePlaced(s: CubeState)
    ensures Unplaced(s, 4) == 4 ==>
      var around, e := CornerCycles(s), SolvedCornerEntry(After(s, RepositionCalls(0)));
      && around != [] && around[0] == 0
      && (e.Err? ==> around == [0])
      && (e.Ok? ==> |around| >= 2 && forall i :: 1 <= i < |around| ==> around[i] == e.value)
  {
    if Unplaced(s, 4) == 4 {
      assert CornerCycles(s) == [0] + FromSolved(After(s, RepositionCalls(0)));
    }
  }

  /** With some but not all corners in place, `solve` cycles only round
      the first entry in place. */
  lemma CornerCyclesSomePlaced(s: CubeState)
    ensures 0 < Unplaced(s, 4) < 4 ==>
      var around := CornerCycles(s);
      around != [] && forall i :: 0 <= i < |around| ==> Ok(around[i]) == SolvedCornerEntry(s)
  {
    var u := Unplaced(s, 4);
    if 0 < u < 4 {
      SomePlacedFound(s);
      var e := SolvedCornerEntry(s).value;
      assert CornerCycles(s) == FromSolved(s) == RoundsFor(s, e);
    }
  }

  /** With fewer than four corners out of place, one is found in place. */
  lemma SomePlacedFound(s: CubeState)
    requires Unplaced(s, 4) < 4
    ensures SolvedCornerEntry(s).Ok?
  {
    UnplacedMeaning(s, 4);
  }

  /** `more` are the cycles of `solve`'s loop round `e` from the cube `s`,
      guarded by `Ask` like `Reached`, so that a method passing the fact
      along does not unfold the cycle. */
  ghost predicate LoopCycles(more: seq<Entry>, s: CubeState, e: Entry)
  {
    forall k :: Ask(k) ==> more == RoundsFor(s, e)
  }

  /** The loop stops after one cycle that puts every corner in place, and
      cycles twice when the first cycle leaves a corner out. */
  lemma RoundsAfterFirst(s0: CubeState, s1: CubeState, e: Entry)
    requires Reached(s1, s0, RepositionCalls(e))
    ensures Unplaced(s1, 4) == 0 ==> LoopCycles([e], s0, e)
    ensures Unplaced(s1, 4) != 0 ==> LoopCycles([e, e], s0, e)
  {
    assert Ask(0);
  }

  /** The first check's cycle followed by the rest are `CornerCycles`. */
  lemma CornerCyclesOf(s0: CubeState, s1: CubeState, first: seq<Entry>, more: seq<Entry>)
    requires Unplaced(s0, 4) != 0 && first == (if Unplaced(s0, 4) == 4 then [0] else [])
    requires Reached(s1, s0, RepositionsCalls(first)) && more == FromSolved(s1)
    ensures first + more == CornerCycles(s0)
  {
    assert Ask(0);
    if first == [] {
      assert RepositionsCalls(first) == [];
      assert s1 == After(s0, []) == s0;
    } else {
      assert first[..0] == [];
      assert RepositionsCalls(first) == RepositionCalls(0);
    }
  }

  /** `yellowConnectionMatchesExpectedCorner`. */
  method YellowConnectionMatchesExpectedCorner(sides: CubeState, connectionIndex: int) returns (matches: bool)
    requires 0 <= connectionIndex < 4
    ensures matches == CornerPlaced(sides, connectionIndex)
  {
    var connections := Connections(YELLOW);
    var connection := connections[connectionIndex];
    var prevConnection := ArrayUtil.LoopedIndex(connections, connectionIndex - 1).value;
    YellowRing(connectionIndex);
    YellowRing(Prev(connectionIndex));
    assert (connectionIndex - 1) % 4 == Prev(connectionIndex);
    var yellowFaceIndex := YELLOW_CONNECTION_CORNER_INDICES[connection.side];
    YellowCornerAt(sides, connectionIndex);
    var corner := CornerAt(sides, YELLOW, yellowFaceIndex).value;
    var expected := CornerPiece(YELLOW, connection.side, prevConnection.side);
    matches := Equals(corner, expected);
  }

  /** `numUnsolvedCorners`. */
  method NumUnsolvedCorners(sides: CubeState) returns (unsolved: int)
    ensures unsolved == Unplaced(sides, 4)
  {
    unsolved := 0;
    for iConn := 0 to 4
      invariant unsolved == Unplaced(sides, iConn)
    {
      var matches := YellowConnectionMatchesExpectedCorner(sides, iConn);
      if !matches {
        unsolved := unsolved + 1;
      }
    }
  }

  /** The loop of `findConnectedSideOfSolvedCorner`. */
  method FindConnectedSideOfSolvedCorner(sides: CubeState) returns (r: Result<Entry>)
    ensures r == SolvedCornerEntry(sides)
  {
    FirstIndexFirst(Placed(sides), 0);
    for iConn := 0 to 4
      invariant forall k :: 0 <= k < iConn ==> !CornerPlaced(sides, k)
    {
      var matches := YellowConnectionMatchesExpectedCorner(sides, iConn);
      if matches {
        return Ok(iConn);
      }
    }
    return Err(IllegalState("no corners are solved"));
  }

  /** The check after `solve`'s loop: failure unless every corner is in
      place. */
  method CheckPlaced(sides: CubeState) returns (r: Outcome)
    ensures r.Ok? <==> Unplaced(sides, 4) == 0
    ensures r.Err? ==> r == Err(IllegalState("couldn't reposition yellow corners"))
  {
    var unsolved := NumUnsolvedCorners(sides);
    if unsolved != 0 {
      return Err(IllegalState("couldn't reposition yellow corners"));
    }
    return Pass;
  }

  /** `PositionYellowCornersStep`: the step's moves and cube. */
  class PositionYellowCorners {
    const base: SolveStep

    ghost predicate Valid()
      reads this, base, base.cube, base.cube.faces
    {
      base.Valid()
    }

    constructor(cube: Cube)
      requires cube.Valid()
      ensures Valid() && fresh(base)
      ensures base.cube == cube && base.calls == [] && base.markers == map[] && base.start == cube.State()
    {
      base := new SolveStep(cube);
    }

    /** `solve`: nothing when every corner is in place; otherwise one cycle
        round entry 0 when no corner is, then up to two cycles round the
        first entry whose corner is in place, stopping once all are. The
        cycles made are round the entries `around`, each chosen on the cube
        the earlier ones leave (`CornerCycles`), at most three of them (24
        quarter turns), and the step fails unless every corner ends in
        place. */
    method Solve() returns (r: Outcome, ghost around: seq<Entry>)
      requires Valid()
      modifies base, base.cube.faces
      ensures Valid() && base.start == old(base.start) && base.markers == old(base.markers)
      ensures around == CornerCycles(old(base.cube.State()))
      ensures |around| <= 3 && base.calls == old(base.calls) + RepositionsCalls(around)
      ensures Quarters(base.calls) == Quarters(old(base.calls)) + 8 * |around|
      ensures r.Ok? <==> Unplaced(base.cube.State(), 4) == 0
      ensures r.Err? ==> r == Err(IllegalState("no corners are solved")) || r == Err(IllegalState("couldn't reposition yellow corners"))
      ensures Unplaced(old(base.cube.State()), 4) == 0 ==> around == []
      ensures Unplaced(old(base.cube.State()), 4) == 4 ==> around != [] && around[0] == 0
      ensures 0 < Unplaced(old(base.cube.State()), 4) < 4 ==>
        around != [] && forall i :: 0 <= i < |around| ==> Ok(around[i]) == SolvedCornerEntry(old(base.cube.State()))
    {
      CornerCyclesNonePlaced(base.cube.State());
      CornerCyclesSomePlaced(base.cube.State());
      var unsolved := NumUnsolvedCorners(base.cube.State());
      if unsolved == 0 {
        return Pass, [];
      }
      ghost var s0 := base.cube.State();
      ghost var first := RepositionIfNone(unsolved);
      ghost var s1 := base.cube.State();
      ghost var more;
      r, more := RepositionFromSolved();
      around := first + more;
      CornerCyclesOf(s0, s1, first, more);
      RepositionsThen(old(base.calls), first, more);
      RepositionsQuarters(around);
      QuartersAppend(old(base.calls), RepositionsCalls(around));
    }

    /** The first check of `solve`, past the all-in-place return: one cycle
        round entry 0 when no corner is in place. */
    method RepositionIfNone(unsolved: int) returns (ghost first: seq<Entry>)
      requires Valid() && unsolved == Unplaced(base.cube.State(), 4)
      modifies base, base.cube.faces
      ensures Valid() && base.start == old(base.start) && base.markers == old(base.markers)
      ensures first == if unsolved == 4 then [0] else []
      ensures base.calls == old(base.calls) + RepositionsCalls(first)
      ensures Reached(base.cube.State(), old(base.cube.State()), RepositionsCalls(first))
    {
      first := [];
      if unsolved == 4 {
        RepositionAround(0);
        first := [0];
        assert first[..0] == [];
        assert RepositionsCalls(first) == RepositionCalls(0);
      } else {
        ghost var calls := base.calls;
        assert calls + RepositionsCalls(first) == calls;
        base.Reaches();
        ReachedAfter(base.start, calls, [], base.cube.State(), base.cube.State());
      }
    }

    /** The rest of `solve`: find the first entry whose corner is in place,
        failing when there is none, then cycle round it. */
    method RepositionFromSolved() returns (r: Outcome, ghost more: seq<Entry>)
      requires Valid()
      modifies base, base.cube.faces
      ensures Valid() && base.start == old(base.start) && base.markers == old(base.markers)
      ensures more == FromSolved(old(base.cube.State()))
      ensures base.calls == old(base.calls) + RepositionsCalls(more)
      ensures r.Ok? <==> Unplaced(base.cube.State(), 4) == 0
      ensures r.Err? ==> r == Err(IllegalState("no corners are solved")) || r == Err(IllegalState("couldn't reposition yellow corners"))
      ensures SolvedCornerEntry(old(base.cube.State())).Err? ==> r == Err(IllegalState("no corners are solved"))
    {
      var found := FindConnectedSideOfSolvedCorner(base.cube.State());
      if found.Err? {
        UnplacedMeaning(base.cube.State(), 4);
        assert old(base.calls) + RepositionsCalls([]) == old(base.calls);
        return Err(found.error), [];
      }
      r, more := RepositionRounds(found.value);
      assert Ask(0);
    }

    /** The loop of `solve` and the check after it: up to two cycles round
        `solvedSide`, stopping once every corner is in place, then failure
        unless they all are. The cycles made are `more`. */
    method RepositionRounds(solvedSide: Entry) returns (r: Outcome, ghost more: seq<Entry>)
      requires Valid()
      modifies base, base.cube.faces
      ensures Valid() && base.start == old(base.start) && base.markers == old(base.markers)
      ensures LoopCycles(more, old(base.cube.State()), solvedSide)
      ensures base.calls == old(base.calls) + RepositionsCalls(more)
      ensures r.Ok? <==> Unplaced(base.cube.State(), 4) == 0
      ensures r.Err? ==> r == Err(IllegalState("couldn't reposition yellow corners"))
    {
      ghost var s0 := base.cube.State();
      more := [];
      for limit := 0 to 2
        invariant Valid() && base.start == old(base.start) && base.markers == old(base.markers)
        invariant more == if limit == 0 then [] else if limit == 1 then [solvedSide] else [solvedSide, solvedSide]
        invariant base.calls == old(base.calls) + RepositionsCalls(more)
        invariant limit == 0 ==> s0 == base.cube.State()
        invariant limit > 0 ==> LoopCycles([solvedSide, solvedSide], s0, solvedSide)
      {
        var unsolved := CycleAndCount(solvedSide, old(base.calls), s0, limit);
        more := if limit == 0 then [solvedSide] else [solvedSide, solvedSide];
        if unsolved == 0 {
          r := Pass;
          return;
        }
      }
      r := CheckPlaced(base.cube.State());
    }

    /** Turn `n` of `solve`'s loop: cycle round `solvedSide` and count the
        corners out of place; after the first turn, the count says whether
        the loop makes one cycle or two. */
    method CycleAndCount(solvedSide: Entry, ghost calls: seq<Rotation>, ghost s0: CubeState, n: nat) returns (unsolved: int)
      requires Valid() && n < 2 && base.calls == calls + RepositionsCalls([solvedSide, solvedSide][..n])
      requires n == 0 ==> s0 == base.cube.State()
      modifies base, base.cube.faces
      ensures Valid() && base.start == old(base.start) && base.markers == old(base.markers)
      ensures base.calls == calls + RepositionsCalls([solvedSide, solvedSide][..n + 1])
      ensures unsolved == Unplaced(base.cube.State(), 4)
      ensures n == 0 ==> LoopCycles(if unsolved == 0 then [solvedSide] else [solvedSide, solvedSide], s0, solvedSide)
    {
      ghost var more := [solvedSide, solvedSide][..n];
      RepositionAround(solvedSide);
      RepositionsSnoc(more, solvedSide);
      assert calls + RepositionsCalls(more) + RepositionCalls(solvedSide) == calls + (RepositionsCalls(more) + RepositionCalls(solvedSide));
      assert more + [solvedSide] == [solvedSide, solvedSide][..n + 1];
      unsolved := NumUnsolvedCorners(base.cube.State());
      if n == 0 {
        RoundsAfterFirst(s0, base.cube.State(), solvedSide);
      }
    }

    /** `repositionAround(connectedSideIndex)`. */
    method RepositionAround(connectedSideIndex: Entry)
      requires Valid()
      modifies base, base.cube.faces
      ensures Valid() && base.start == old(base.start) && base.markers == old(base.markers)
      ensures base.calls == old(base.calls) + RepositionCalls(connectedSideIndex)
      ensures Reached(base.cube.State(), old(base.cube.State()), RepositionCalls(connectedSideIndex))
    {
      ghost var calls, before := base.calls, base.cube.State();
      base.Reaches();
      var connections := Connections(YELLOW);
      YellowRing(Next(connectedSideIndex));
      YellowRing(Prev(connectedSideIndex));
      assert (connectedSideIndex + 1) % 4 == Next(connectedSideIndex);
      assert (connectedSideIndex - 1) % 4 == Prev(connectedSideIndex);
      var left := ArrayUtil.LoopedIndex(connections, connectedSideIndex + 1).value.side;
      var right := ArrayUtil.LoopedIndex(connections, connectedSideIndex - 1).value.side;
      assert RepositionCalls(connectedSideIndex) == HalfCycleCalls(right, left, true) + HalfCycleCalls(right, left, false);
      HalfCycle(right, left, true);
      HalfCycle(right, left, false);
      assert base.calls == calls + RepositionCalls(connectedSideIndex);
      base.Reaches();
      ReachedAfter(base.start, calls, RepositionCalls(connectedSideIndex), before, base.cube.State());
    }

    /** One half of `repositionAround`. */
    method HalfCycle(right: Color, left: Color, forward: bool)
      requires Valid()
      modifies base, base.cube.faces
      ensures Valid() && base.start == old(base.start) && base.markers == old(base.markers)
      ensures base.calls == old(base.calls) + HalfCycleCalls(right, left, forward)
    {
      base.Clockwise(YELLOW);
      if forward {
        base.Clockwise(right);
      } else {
        base.CounterClockwise(right);
      }
      base.CounterClockwise(YELLOW);
      if forward {
        base.CounterClockwise(left);
      } else {
        base.Clockwise(left);
      }
    }
  }
}
