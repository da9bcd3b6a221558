/** The fourth phase: a cross of YELLOW edges on the YELLOW face. The
    YELLOW facelets of the four edges form a pattern read round YELLOW's list
    of neighbours; the empty pattern, an L and a line are each taken one step
    on by the same six-turn permutation. */
module YellowCrossPhase {
  import opened Outcomes
  import opened FaceColor
  import opened CubeTopology
  import opened Cubes
  import ArrayUtil
  import opened SolveSteps

  /** `NO_YELLOW`, `YELLOW_L`, `YELLOW_LINE` and `YELLOW_SOLVED`. */
  const NO_YELLOW: seq<bool> := [false, false, false, false]
  const YELLOW_L: seq<bool> := [true, true, false, false]
  const YELLOW_LINE: seq<bool> := [true, false, true, false]
  const YELLOW_SOLVED: seq<bool> := [true, true, true, true]

  /** YELLOW's edge facelets, in the order of YELLOW's list: the one it
      shares with RED, BLUE, ORANGE and GREEN. */
  const YELLOW_EDGE_FACELETS: seq<RingIndex> := [7, 1, 3, 5]

  /** For each entry of YELLOW's list, whether the edge YELLOW shares with
      that side shows YELLOW on the YELLOW face. */
  function YellowEdges(s: CubeState): (m: seq<bool>)
    ensures |m| == 4
  {
    seq(4, k requires 0 <= k < 4 => s[YELLOW][YELLOW_EDGE_FACELETS[k]] == YELLOW)
  }

  /** `getColorOfEdgePiece(YELLOW, side)` for entry `k`'s side reads the
      facelet `YellowEdges` reads. */
  lemma YellowEdgeColor(s: CubeState, k: int)
    requires 0 <= k < 4
    ensures EdgeColor(s, YELLOW, Connections(YELLOW)[k].side) == Ok(s[YELLOW][YELLOW_EDGE_FACELETS[k]])
  {
    if k == 0 {
      assert Connections(YELLOW)[0].side == RED;
    } else if k == 1 {
      assert Connections(YELLOW)[1].side == BLUE;
    } else if k == 2 {
      assert Connections(YELLOW)[2].side == ORANGE;
    } else {
      assert Connections(YELLOW)[3].side == GREEN;
    }
  }

  /** The four edges read round the list starting at entry `i`. */
  function Window(edges: seq<bool>, i: int): (w: seq<bool>)
    requires |edges| == 4 && 0 <= i < 4
    ensures |w| == 4
    ensures forall e :: 0 <= e < 4 ==> w[e] == edges[if i + e < 4 then i + e else i + e - 4]
  {
    edges[i..] + edges[..i]
  }

  /** `findYellowPattern` on the edges: the first start whose window is
      `pattern`, or -1. */
  function FindPattern(edges: seq<bool>, pattern: seq<bool>): int
    requires |edges| == 4
  {
    FirstIndex(Matches(edges, pattern), 0)
  }

  /** For each start, whether the window from there is `pattern`. */
  function Matches(edges: seq<bool>, pattern: seq<bool>): (m: seq<bool>)
    requires |edges| == 4
    ensures |m| == 4 && forall i :: 0 <= i < 4 ==> (m[i] <==> Window(edges, i) == pattern)
  {
    seq(4, i requires 0 <= i < 4 => Window(edges, i) == pattern)
  }

  /** -1 exactly when no window is `pattern`; otherwise the smallest start
      whose window is. */
  lemma FindPatternFirst(edges: seq<bool>, pattern: seq<bool>)
    requires |edges| == 4
    ensures var r := FindPattern(edges, pattern);
      && (r == -1 <==> forall i :: 0 <= i < 4 ==> Window(edges, i) != pattern)
      && (r != -1 ==> 0 <= r < 4 && Window(edges, r) == pattern
                      && forall i :: 0 <= i < r ==> Window(edges, i) != pattern)
  {
    FirstIndexFirst(Matches(edges, pattern), 0);
  }

  /** A pattern of four equal flags is found at start 0 or not at all: it
      is found exactly when every edge has that flag. */
  lemma UniformPattern(edges: seq<bool>, b: bool)
    requires |edges| == 4
    ensures FindPattern(edges, [b, b, b, b]) == if edges == [b, b, b, b] then 0 else -1
  {
    FindPatternFirst(edges, [b, b, b, b]);
    if edges == [b, b, b, b] {
      assert Window(edges, 0) == edges;
    } else {
      forall i | 0 <= i < 4
        ensures Window(edges, i) == [b, b, b, b] ==> edges == [b, b, b, b]
      {
        WindowUniform(edges, i, b);
      }
    }
  }

  /** A window of four equal flags is read only from four equal edges. */
  lemma WindowUniform(edges: seq<bool>, i: int, b: bool)
    requires |edges| == 4 && 0 <= i < 4
    ensures Window(edges, i) == [b, b, b, b] ==> edges == [b, b, b, b]
  {
    var w := Window(edges, i);
    forall j | 0 <= j < 4
      ensures edges[j] == w[if j >= i then j - i else j - i + 4]
    {
    }
    if w == [b, b, b, b] {
      assert edges == [b, b, b, b];
    }
  }

  /** Entry `e` of the window from `i` is the edge of the side `loopedIndex`
      finds `i + e` places round YELLOW's list. */
  lemma WindowReadsRing(s: CubeState, i: int, e: int)
    requires 0 <= i < 4 && 0 <= e < 4
    ensures ArrayUtil.LoopedIndex(Connections(YELLOW), i + e).Ok?
    ensures (EdgeColor(s, YELLOW, ArrayUtil.LoopedIndex(Connections(YELLOW), i + e).value.side) == Ok(YELLOW))
      == Window(YellowEdges(s), i)[e]
  {
    var k := if i + e < 4 then i + e else i + e - 4;
    assert (i + e) % 4 == k;
    YellowEdgeColor(s, k);
  }

  /** `findYellowPattern`: for each start in YELLOW's list, compare the
      four edges from there round the list with the pattern, and give the
      first start where all four agree. */
  method FindYellowPattern(sides: CubeState, pattern: seq<bool>) returns (index: int)
    requires |pattern| == 4
    ensures index == FindPattern(YellowEdges(sides), pattern)
  {
    for iConn := 0 to 4
      invariant FindPattern(YellowEdges(sides), pattern) == FirstIndex(Matches(YellowEdges(sides), pattern), iConn)
    {
      var matches := MatchesFrom(sides, pattern, iConn);
      if !matches {
        continue;
      }
      return iConn;
    }
    return -1;
  }

  /** The inner loop of `findYellowPattern`: the four edges from entry
      `iConn` round YELLOW's list are compared with the pattern in turn, and
      the first disagreement moves on to the next start. */
  method MatchesFrom(sides: CubeState, pattern: seq<bool>, iConn: int) returns (matches: bool)
    requires |pattern| == 4 && 0 <= iConn < 4
    ensures matches <==> Window(YellowEdges(sides), iConn) == pattern
  {
    var connections := Connections(YELLOW);
    ghost var window := Window(YellowEdges(sides), iConn);
    for iExpected := 0 to 4
      invariant forall e :: 0 <= e < iExpected ==> window[e] == pattern[e]
    {
      var side := ArrayUtil.LoopedIndex(connections, iConn + iExpected).value.side;
      var isYellow := EdgeColor(sides, YELLOW, side) == Ok(YELLOW);
      WindowReadsRing(sides, iConn, iExpected);
      if isYellow != pattern[iExpected] {
        return false;
      }
    }
    assert window == pattern;
    return true;
  }

  /** `permute(r)`'s six calls: with `right` the side at entry `r` of
      YELLOW's list and `left` the one after it, L R Y R' Y' L'. */
  function PermuteCalls(rightSideConnectionIndex: nat): seq<Rotation>
  {
    PoleRings(0);
    var left := Connections(YELLOW)[(rightSideConnectionIndex + 1) % 4].side;
    var right := Connections(YELLOW)[rightSideConnectionIndex % 4].side;
    [Rotation(left, 1), Rotation(right, 1), Rotation(YELLOW, 1),
     Rotation(right, -1), Rotation(YELLOW, -1), Rotation(left, -1)]
  }

  /** The calls of the permutations at `used`, one after the other. */
  function PermutesCalls(used: seq<nat>): seq<Rotation>
  {
    if used == [] then [] else PermutesCalls(used[..|used| - 1]) + PermuteCalls(used[|used| - 1])
  }

  /** The calls of two runs of permutations, one after the other. */
  lemma {:induction false} PermutesCallsAppend(a: seq<nat>, b: seq<nat>)
    ensures PermutesCalls(a + b) == PermutesCalls(a) + PermutesCalls(b)
    decreases |b|
  {
    if b == [] {
      assert a + b == a;
    } else {
      var init := b[..|b| - 1];
      assert (a + b)[..|a + b| - 1] == a + init;
      PermutesCallsAppend(a, init);
    }
  }

  /** Three runs of permutations made after `calls`, one after the other. */
  lemma PermutesCallsThree(calls: seq<Rotation>, a: seq<nat>, b: seq<nat>, c: seq<nat>)
    ensures calls + PermutesCalls(a) + PermutesCalls(b) + PermutesCalls(c) == calls + PermutesCalls(a + b + c)
  {
    var x, y, z := PermutesCalls(a), PermutesCalls(b), PermutesCalls(c);
    assert calls + x + y + z == calls + (x + y + z);
    PermutesCallsAppend(a, b);
    PermutesCallsAppend(a + b, c);
  }

  /** The permutation one `if` of `solve` makes on the cube `s`: at the
      rotation where `pattern` is first found, plus `shift`, or none when
      it is not found. */
  function PermutedFor(s: CubeState, pattern: seq<bool>, shift: nat): (used: seq<nat>)
    requires |pattern| == 4
    ensures |used| <= 1
  {
    var found := FindPattern(YellowEdges(s), pattern);
    if found == -1 then [] else [found + shift]
  }

  /** The permutations `solve` makes from the cube `s`: one for the empty
      pattern, then one for an L on the cube that leaves, then one for a
      line on the cube after that. */
  function CrossPermutations(s: CubeState): (used: seq<nat>)
    ensures |used| <= 3
  {
    var none := PermutedFor(s, NO_YELLOW, 0);
    var s1 := After(s, PermutesCalls(none));
    var l := PermutedFor(s1, YELLOW_L, 2);
    var s2 := After(s1, PermutesCalls(l));
    none + l + PermutedFor(s2, YELLOW_LINE, 0)
  }

  /** The first permutation is at rotation 0 whenever no edge shows
      YELLOW, and a face whose cross is already complete gets none. */
  lemma CrossPermutationsFacts(s: CubeState)
    ensures FindPattern(YellowEdges(s), NO_YELLOW) != -1 ==> |CrossPermutations(s)| > 0 && CrossPermutations(s)[0] == 0
    ensures YellowEdges(s) == YELLOW_SOLVED ==> CrossPermutations(s) == []
  {
    UniformPattern(YellowEdges(s), false);
    CrossHasNoOtherPattern();
  }

  /** Permutations chosen one after the other as `solve` chooses them, each
      on the cube the earlier ones leave, are `CrossPermutations`. */
  lemma CrossPermutationsOf(s0: CubeState, s1: CubeState, s2: CubeState, none: seq<nat>, l: seq<nat>, line: seq<nat>)
    requires none == PermutedFor(s0, NO_YELLOW, 0) && Reached(s1, s0, PermutesCalls(none))
    requires l == PermutedFor(s1, YELLOW_L, 2) && Reached(s2, s1, PermutesCalls(l))
    requires line == PermutedFor(s2, YELLOW_LINE, 0)
    ensures none + l + line == CrossPermutations(s0)
  {
    assert Ask(0);
  }

  /** With all four edges showing YELLOW, no other pattern is found. */
  lemma CrossHasNoOtherPattern()
    ensures FindPattern(YELLOW_SOLVED, NO_YELLOW) == -1
    ensures FindPattern(YELLOW_SOLVED, YELLOW_L) == -1
    ensures FindPattern(YELLOW_SOLVED, YELLOW_LINE) == -1
  {
    UniformPattern(YELLOW_SOLVED, false);
    FindPatternFirst(YELLOW_SOLVED, YELLOW_L);
    FindPatternFirst(YELLOW_SOLVED, YELLOW_LINE);
    forall i | 0 <= i < 4
      ensures Window(YELLOW_SOLVED, i)[2] && Window(YELLOW_SOLVED, i)[3]
    {
    }
  }

  /** A permutation makes six quarter turns, and turns each face back as
      far as it turned it forward; `k` permutations make `6k`. */
  lemma {:induction false} PermutesQuarters(used: seq<nat>)
    ensures Quarters(PermutesCalls(used)) == 6 * |used|
    ensures forall side: Color :: NetQuarters(PermutesCalls(used), side) == 0
  {
    if used != [] {
      var r := used[|used| - 1];
      PermutesQuarters(used[..|used| - 1]);
      UnitQuarters(PermuteCalls(r));
      QuartersAppend(PermutesCalls(used[..|used| - 1]), PermuteCalls(r));
      forall side: Color
        ensures NetQuarters(PermutesCalls(used), side) == 0
      {
        PermuteBalanced(r, side);
        NetQuartersAppend(PermutesCalls(used[..|used| - 1]), PermuteCalls(r), side);
      }
    }
  }

  /** Each face's net quarter turns over a permutation are zero. */
  lemma PermuteBalanced(r: nat, side: Color)
    ensures NetQuarters(PermuteCalls(r), side) == 0
  {
    var c := PermuteCalls(r);
    assert c == [c[0], c[1], c[2]] + [c[3], c[4], c[5]];
    NetQuartersAppend([c[0], c[1], c[2]], [c[3], c[4], c[5]], side);
    CountsThree(c[0], c[1], c[2], side);
    CountsThree(c[3], c[4], c[5], side);
    NetQuartersOne(c[0], side);
    NetQuartersOne(c[1], side);
    NetQuartersOne(c[2], side);
    NetQuartersOne(c[3], side);
    NetQuartersOne(c[4], side);
    NetQuartersOne(c[5], side);
  }

  /** `YellowCrossStep`: the step's moves and cube. */
  class YellowCross {
    const base: SolveStep

    ghost predicate Valid()
      reads this, base, base.cube, base.cube.faces
    {
      base.Valid()
    }

    constructor(cube: Cube)
      requires cube.Valid()
      ensures Valid() && fresh(base)
      ensures base.cube == cube && base.calls == [] && base.markers == map[] && base.start == cube.State()
    {
      base := new SolveStep(cube);
    }

    /** `solve`: permute once when no edge shows YELLOW, then once more from
        an L and once more from a line; the permutations made are `used`,
        each at the rotation its pattern is found on the cube the earlier
        ones leave (`CrossPermutations`). The step fails unless all four
        edges show YELLOW at the end. A face whose cross is already
        complete gets no moves. */
    method Solve() returns (r: Outcome, ghost used: seq<nat>)
      requires Valid()
      modifies base, base.cube.faces
      ensures Valid() && base.start == old(base.start) && base.markers == old(base.markers)
      ensures used == CrossPermutations(old(base.cube.State()))
      ensures |used| <= 3 && base.calls == old(base.calls) + PermutesCalls(used)
      ensures Quarters(base.calls) == Quarters(old(base.calls)) + 6 * |used|
      ensures FindPattern(YellowEdges(old(base.cube.State())), NO_YELLOW) != -1 ==> |used| > 0 && used[0] == 0
      ensures YellowEdges(old(base.cube.State())) == YELLOW_SOLVED ==> used == [] && r.Ok?
      ensures r.Ok? <==> YellowEdges(base.cube.State()) == YELLOW_SOLVED
      ensures r.Err? ==> r == Err(IllegalState("couldn't solve yellow cross"))
    {
      CrossPermutationsFacts(base.cube.State());
      used := PermuteAll();
      PermutesQuarters(used);
      QuartersAppend(old(base.calls), PermutesCalls(used));
      var solved := FindYellowPattern(base.cube.State(), YELLOW_SOLVED);
      UniformPattern(YellowEdges(base.cube.State()), true);
      if solved == -1 {
        r := Err(IllegalState("couldn't solve yellow cross"));
        return;
      }
      r := Pass;
    }

    /** The three `if`s of `solve` that permute: for the empty pattern, an
        L and a line, each looked for on the cube the earlier ones leave. */
    method PermuteAll() returns (ghost used: seq<nat>)
      requires Valid()
      modifies base, base.cube.faces
      ensures Valid() && base.start == old(base.start) && base.markers == old(base.markers)
      ensures used == CrossPermutations(old(base.cube.State()))
      ensures base.calls == old(base.calls) + PermutesCalls(used)
      ensures used == [] ==> base.cube.State() == old(base.cube.State())
    {
      ghost var s0 := base.cube.State();
      var none := PermuteOn(NO_YELLOW, 0);
      ghost var s1 := base.cube.State();
      var l := PermuteOn(YELLOW_L, 2);
      ghost var s2 := base.cube.State();
      var line := PermuteOn(YELLOW_LINE, 0);
      used := none + l + line;
      CrossPermutationsOf(s0, s1, s2, none, l, line);
      PermutesCallsThree(old(base.calls), none, l, line);
    }

    /** One `if` of `solve`: find the pattern and, when it is found at
        start `i`, permute at `i + shift` (`used` is then `[i + shift]`,
        see `PermutedFor`). The empty pattern is found only at start 0, so
        for it this is `permute(0)`. A pattern not found leaves the cube
        alone. */
    method PermuteOn(pattern: seq<bool>, shift: nat) returns (ghost used: seq<nat>)
      requires Valid() && |pattern| == 4
      modifies base, base.cube.faces
      ensures Valid() && base.start == old(base.start) && base.markers == old(base.markers)
      ensures used == PermutedFor(old(base.cube.State()), pattern, shift)
      ensures base.calls == old(base.calls) + PermutesCalls(used)
      ensures Reached(base.cube.State(), old(base.cube.State()), PermutesCalls(used))
      ensures used == [] ==> base.cube.State() == old(base.cube.State())
    {
      ghost var calls, before := base.calls, base.cube.State();
      base.Reaches();
      var connection := FindYellowPattern(base.cube.State(), pattern);
      if connection == -1 {
        used := [];
        assert base.calls == calls + PermutesCalls(used);
      } else {
        FindPatternFirst(YellowEdges(base.cube.State()), pattern);
        Permute(connection + shift);
        used := [connection + shift];
        assert used[..0] == [];
        assert PermutesCalls(used) == PermuteCalls(connection + shift);
      }
      assert base.calls == calls + PermutesCalls(used);
      base.Reaches();
      ReachedAfter(base.start, calls, PermutesCalls(used), before, base.cube.State());
    }

    /** `permute(rightSideConnectionIndex)`. */
    method Permute(rightSideConnectionIndex: nat)
      requires Valid()
      modifies base, base.cube.faces
      ensures Valid() && base.start == old(base.start) && base.markers == old(base.markers)
      ensures base.calls == old(base.calls) + PermuteCalls(rightSideConnectionIndex)
    {
      var yellowConnections := Connections(YELLOW);
      var leftSide := ArrayUtil.LoopedIndex(yellowConnections, rightSideConnectionIndex + 1).value.side;
      var rightSide := ArrayUtil.LoopedIndex(yellowConnections, rightSideConnectionIndex).value.side;
      base.Clockwise(leftSide);
      base.Clockwise(rightSide);
      base.Clockwise(YELLOW);
      base.CounterClockwise(rightSide);
      base.CounterClockwise(YELLOW);
      base.CounterClockwise(leftSide);
    }
  }
}
