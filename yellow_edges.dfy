/** The fifth phase: the four YELLOW edges, already showing YELLOW on the
    YELLOW face, are brought over their own sides. Each edge is measured by
    the distance round YELLOW from its side to the colour of its side
    facelet; YELLOW turns by the distance most edges vote for, and a
    nine-turn swap exchanges a solved edge's neighbour into place. */
module YellowEdgesPhase {
  import opened Outcomes
  import opened FaceColor
  import opened CubeTopology
  import opened Cubes
  import ArrayUtil
  import opened SolveSteps

  /** `distanceFromSideToYellowEdge(connections[k])`: the distance round
      YELLOW from entry `k`'s side to the colour of its facelet on the edge
      it shares with YELLOW. */
  function EdgeDistance(s: CubeState, k: int): (r: Result<int>)
    requires 0 <= k < 4
    ensures r.Ok? ==> -1 <= r.value <= 2
    ensures r.Err? ==> r.error == NO_DISTANCE
  {
    DistanceAroundYellow(YELLOW_RING[k], s[YELLOW_RING[k]][TOP_MIDDLE])
  }

  /** The distance fails exactly when the edge's side facelet is WHITE or
      YELLOW, and it is 0 exactly when that facelet shows its own side. */
  lemma EdgeDistanceMeaning(s: CubeState, k: int)
    requires 0 <= k < 4
    ensures var side := YELLOW_RING[k];
      && (EdgeDistance(s, k).Err? <==> s[side][TOP_MIDDLE] == WHITE || s[side][TOP_MIDDLE] == YELLOW)
      && (EdgeDistance(s, k) == Ok(0) <==> s[side][TOP_MIDDLE] == side)
  {
    var side := YELLOW_RING[k];
    var colour := s[side][TOP_MIDDLE];
    if IsSideFace(colour) {
      DistanceLaws(side, side);
      DistanceReaches(side, colour);
    }
  }

  /** Every edge of YELLOW sits over its own side. */
  predicate EdgesAligned(s: CubeState)
  {
    forall k :: 0 <= k < 4 ==> EdgeDistance(s, k) == Ok(0)
  }

  /** The distances of the first `n` entries of YELLOW's list, or the
      failure of the first that has none. */
  function Distances(s: CubeState, n: int): (r: Result<seq<int>>)
    requires 0 <= n <= 4
    ensures r.Ok? ==> |r.value| == n && forall i :: 0 <= i < n ==> -1 <= r.value[i] <= 2
    ensures r.Err? ==> r.error == NO_DISTANCE
  {
    if n == 0 then Ok([])
    else
      var earlier :- Distances(s, n - 1);
      var d :- EdgeDistance(s, n - 1);
      Ok(earlier + [d])
  }

  /** The distances of `k + 1` entries are those of `k` with entry `k`'s
      distance after them, or that distance's failure. */
  lemma DistancesStep(s: CubeState, k: int)
    requires 0 <= k < 4 && Distances(s, k).Ok?
    ensures var d := EdgeDistance(s, k);
      Distances(s, k + 1) == if d.Err? then Err(d.error) else Ok(Distances(s, k).value + [d.value])
  {
  }

  /** When every edge is over its side, every distance is 0. */
  lemma {:induction false} AlignedDistances(s: CubeState, n: int)
    requires 0 <= n <= 4 && EdgesAligned(s)
    ensures Distances(s, n) == Ok(seq(n, _ => 0))
  {
    if n == 0 {
      assert seq(n, _ => 0) == [];
    } else {
      AlignedDistances(s, n - 1);
      assert seq(n, _ => 0) == seq(n - 1, _ => 0) + [0];
    }
  }

  /** Once a distance fails, the whole vote fails with it. */
  lemma {:induction false} DistancesFailureSticks(s: CubeState, n: int)
    requires 0 <= n <= 4 && Distances(s, n).Err?
    ensures Distances(s, 4) == Distances(s, n)
    decreases 4 - n
  {
    if n < 4 {
      DistancesFailureSticks(s, n + 1);
    }
  }

  /** Four votes always elect a distance: some slot of the tally is
      positive, so `indexOfHighest` finds one. */
  lemma FourVotesElect(votes: seq<int>)
    requires |votes| == 4 && forall i :: 0 <= i < 4 ==> -1 <= votes[i] <= 2
    ensures 0 <= ArrayUtil.HighestIndex(Tally(votes)) < 4
  {
    TallyCountsEveryVote(votes);
    var t := Tally(votes);
    assert t[0] > 0 || t[1] > 0 || t[2] > 0 || t[3] > 0;
  }

  /** The outcome and calls `rotateYellowBest` leaves from the cube `s` and
      the calls `calls` before it: the failure of the first distance that
      has none, or one turn of YELLOW by the distance with the most votes
      (the smallest on a tie). */
  predicate TurnedYellowBest(s: CubeState, calls: seq<Rotation>, r: Outcome, calls': seq<Rotation>)
  {
    var ds := Distances(s, 4);
    if ds.Err? then r == Err(ds.error) && calls' == calls
    else
      var best := ArrayUtil.HighestIndex(Tally(ds.value));
      r.Ok? && calls' == calls + (if best == -1 then [] else [Rotation(YELLOW, best - 1)])
  }

  /** `rotateYellowBest` always turns once when it succeeds, by at most two
      quarter turns, and not at all on aligned edges. */
  lemma TurnedYellowBestMoves(s: CubeState, calls: seq<Rotation>, r: Outcome, calls': seq<Rotation>)
    requires TurnedYellowBest(s, calls, r, calls')
    ensures Extends(calls, calls') && Quarters(calls') <= Quarters(calls) + 2
    ensures r.Ok? ==> |calls'| == |calls| + 1 && calls'[|calls|].side == YELLOW
    ensures r.Err? ==> r.error == NO_DISTANCE
  {
    var ds := Distances(s, 4);
    if ds.Ok? {
      FourVotesElect(ds.value);
      var best := ArrayUtil.HighestIndex(Tally(ds.value));
      assert calls'[..|calls|] == calls;
      QuartersAppend(calls, [Rotation(YELLOW, best - 1)]);
      QuartersOne(Rotation(YELLOW, best - 1));
    }
  }

  /** On edges all over their sides, every vote is for 0 and YELLOW turns
      by nothing. */
  lemma AlignedTurnsNothing(s: CubeState, calls: seq<Rotation>, r: Outcome, calls': seq<Rotation>)
    requires TurnedYellowBest(s, calls, r, calls') && EdgesAligned(s)
    ensures r.Ok? && calls' == calls + [Rotation(YELLOW, 0)]
  {
    AlignedDistances(s, 4);
    assert seq(4, _ => 0) == [0, 0, 0, 0];
    UnanimousNoTurn();
  }

  /** The entry two places on round YELLOW's list. */
  function Across(k: int): int
  {
    if k < 2 then k + 2 else k - 2
  }

  /** The entry after `k` round YELLOW's list. */
  function Next(k: int): int
  {
    if k == 3 then 0 else k + 1
  }

  /** `oppositeSidesMismatched` from entry `j` on: the first entry whose
      edge is not over its side decides, by whether the edge across from it
      is not either; no such entry gives false. */
  function OppositeFrom(s: CubeState, j: int): (r: Result<bool>)
    requires 0 <= j <= 4
    ensures r.Err? ==> r.error == NO_DISTANCE
    decreases 4 - j
  {
    if j == 4 then Ok(false)
    else
      var d :- EdgeDistance(s, j);
      if d != 0 then
        var o :- EdgeDistance(s, Across(j));
        Ok(o != 0)
      else OppositeFrom(s, j + 1)
  }

  /** For each entry, whether its edge is away from its side. */
  function Mismatched(s: CubeState): (m: seq<bool>)
    ensures |m| == 4 && forall i :: 0 <= i < 4 ==> (m[i] <==> EdgeDistance(s, i) != Ok(0))
  {
    seq(4, i requires 0 <= i < 4 => EdgeDistance(s, i) != Ok(0))
  }

  /** When every distance exists, `oppositeSidesMismatched` tells whether
      the first edge away from its side has the edge across from it away
      too; with every edge over its side it is false. */
  lemma {:induction false} OppositeMeaning(s: CubeState, j: int)
    requires 0 <= j <= 4 && forall k :: 0 <= k < 4 ==> EdgeDistance(s, k).Ok?
    ensures var k := FirstIndex(Mismatched(s), j);
      OppositeFrom(s, j) == Ok(k != -1 && EdgeDistance(s, Across(k)) != Ok(0))
    ensures EdgesAligned(s) ==> OppositeFrom(s, j) == Ok(false)
    decreases 4 - j
  {
    if j < 4 {
      OppositeMeaning(s, j + 1);
    }
  }

  /** `swapEdges`' search from entry `j` on: the side of the first entry
      whose edge is over its side while the next entry's is not, or -1. */
  function SwapSideFrom(s: CubeState, j: int): (r: Result<int>)
    requires 0 <= j <= 4
    ensures r.Err? ==> r.error == NO_DISTANCE
    ensures r.Ok? ==> r.value == -1 || IsSideFace(r.value)
    decreases 4 - j
  {
    if j == 4 then Ok(-1)
    else
      var d :- EdgeDistance(s, j);
      if d == 0 then
        var n :- EdgeDistance(s, Next(j));
        if n != 0 then Ok(YELLOW_RING[j]) else SwapSideFrom(s, j + 1)
      else SwapSideFrom(s, j + 1)
  }

  /** For each entry, whether its edge is over its side and the next
      entry's is not. */
  function SolvedBeforeUnsolved(s: CubeState): (m: seq<bool>)
    ensures |m| == 4 && forall i :: 0 <= i < 4 ==>
      (m[i] <==> EdgeDistance(s, i) == Ok(0) && EdgeDistance(s, Next(i)) != Ok(0))
  {
    seq(4, i requires 0 <= i < 4 => EdgeDistance(s, i) == Ok(0) && EdgeDistance(s, Next(i)) != Ok(0))
  }

  /** When every distance exists, the search finds the first solved edge
      followed by an unsolved one, and nothing when there is none; with
      every edge over its side it finds nothing. */
  lemma {:induction false} SwapSideMeaning(s: CubeState, j: int)
    requires 0 <= j <= 4 && forall k :: 0 <= k < 4 ==> EdgeDistance(s, k).Ok?
    ensures var k := FirstIndex(SolvedBeforeUnsolved(s), j);
      SwapSideFrom(s, j) == Ok(if k == -1 then -1 else YELLOW_RING[k])
    ensures EdgesAligned(s) ==> SwapSideFrom(s, j) == Ok(-1)
    decreases 4 - j
  {
    if j < 4 {
      SwapSideMeaning(s, j + 1);
    }
  }

  /** The nine quarter turns `swapEdges` makes around `rightSolvedSide`. */
  function SwapCalls(rightSolvedSide: Color): seq<Rotation>
  {
    [Rotation(rightSolvedSide, 1), Rotation(YELLOW, 1), Rotation(rightSolvedSide, -1), Rotation(YELLOW, 1),
     Rotation(rightSolvedSide, 1), Rotation(YELLOW, 2), Rotation(rightSolvedSide, -1), Rotation(YELLOW, 1)]
  }

  /** The swap makes nine quarter turns: YELLOW turns five times forward,
      one whole turn and one more, and the side turns back as far as it
      turned forward. */
  lemma SwapQuarters(side: Color)
    requires IsSideFace(side)
    ensures Quarters(SwapCalls(side)) == 9
    ensures NetQuarters(SwapCalls(side), side) == 0 && NetQuarters(SwapCalls(side), YELLOW) == 5
  {
    var c := SwapCalls(side);
    assert c == [c[0], c[1], c[2]] + [c[3], c[4], c[5]] + [c[6], c[7]];
    assert [c[6], c[7]] == [c[6]] + [c[7]];
    CountsThree(c[0], c[1], c[2], side);
    CountsThree(c[3], c[4], c[5], side);
    CountsThree(c[0], c[1], c[2], YELLOW);
    CountsThree(c[3], c[4], c[5], YELLOW);
    QuartersAppend([c[0], c[1], c[2]] + [c[3], c[4], c[5]], [c[6]] + [c[7]]);
    QuartersAppend([c[0], c[1], c[2]], [c[3], c[4], c[5]]);
    QuartersAppend([c[6]], [c[7]]);
    NetQuartersAppend([c[0], c[1], c[2]] + [c[3], c[4], c[5]], [c[6]] + [c[7]], side);
    NetQuartersAppend([c[0], c[1], c[2]], [c[3], c[4], c[5]], side);
    NetQuartersAppend([c[6]], [c[7]], side);
    NetQuartersAppend([c[0], c[1], c[2]] + [c[3], c[4], c[5]], [c[6]] + [c[7]], YELLOW);
    NetQuartersAppend([c[0], c[1], c[2]], [c[3], c[4], c[5]], YELLOW);
    NetQuartersAppend([c[6]], [c[7]], YELLOW);
    QuartersOne(c[0]);
    QuartersOne(c[1]);
    QuartersOne(c[2]);
    QuartersOne(c[3]);
    QuartersOne(c[4]);
    QuartersOne(c[5]);
    QuartersOne(c[6]);
    QuartersOne(c[7]);
    NetQuartersOne(c[0], side);
    NetQuartersOne(c[1], side);
    NetQuartersOne(c[2], side);
    NetQuartersOne(c[3], side);
    NetQuartersOne(c[4], side);
    NetQuartersOne(c[5], side);
    NetQuartersOne(c[6], side);
    NetQuartersOne(c[7], side);
    NetQuartersOne(c[0], YELLOW);
    NetQuartersOne(c[1], YELLOW);
    NetQuartersOne(c[2], YELLOW);
    NetQuartersOne(c[3], YELLOW);
    NetQuartersOne(c[4], YELLOW);
    NetQuartersOne(c[5], YELLOW);
    NetQuartersOne(c[6], YELLOW);
    NetQuartersOne(c[7], YELLOW);
  }

  /** The outcome and calls `swapEdges` leaves from the cube `s` and the
      calls `calls` before it: the failure of a distance its search needed,
      nothing when it found no side, or the swap round the side found. */
  predicate Swapped(s: CubeState, calls: seq<Rotation>, r: Outcome, calls': seq<Rotation>)
  {
    var f := SwapSideFrom(s, 0);
    if f.Err? then r == Err(f.error) && calls' == calls
    else if f.value == -1 then r.Ok? && calls' == calls
    else r.Ok? && calls' == calls + SwapCalls(f.value)
  }

  /** A swap adds nothing or nine quarter turns after the calls before it,
      and nothing at all when every edge is over its side. */
  lemma {:induction false} SwappedMoves(s: CubeState, calls: seq<Rotation>, r: Outcome, calls': seq<Rotation>)
    requires Swapped(s, calls, r, calls')
    ensures Extends(calls, calls') && Quarters(calls') <= Quarters(calls) + 9
    ensures r.Err? ==> r.error == NO_DISTANCE
    ensures EdgesAligned(s) ==> r.Ok? && calls' == calls
  {
    var f := SwapSideFrom(s, 0);
    if f.Ok? && f.value != -1 {
      assert calls'[..|calls|] == calls;
      SwapQuarters(f.value);
      QuartersAppend(calls, SwapCalls(f.value));
    }
    if EdgesAligned(s) {
      SwapSideMeaning(s, 0);
    }
  }

  /** The final check of `solve` from entry `j` on: the failure of a
      distance, or "couldn't align yellow edges" at the first edge away
      from its side. */
  function CheckFrom(s: CubeState, j: int): (r: Outcome)
    requires 0 <= j <= 4
    ensures r.Err? ==> r.error == NO_DISTANCE || r.error == IllegalState("couldn't align yellow edges")
    decreases 4 - j
  {
    if j == 4 then Pass
    else
      var d :- EdgeDistance(s, j);
      if d != 0 then Err(IllegalState("couldn't align yellow edges"))
      else CheckFrom(s, j + 1)
  }

  /** The check passes exactly when every edge from `j` on is over its
      side. */
  lemma {:induction false} CheckMeaning(s: CubeState, j: int)
    requires 0 <= j <= 4
    ensures CheckFrom(s, j).Ok? <==> forall k :: j <= k < 4 ==> EdgeDistance(s, k) == Ok(0)
    decreases 4 - j
  {
    if j < 4 {
      CheckMeaning(s, j + 1);
    }
  }

  /** The vote loop of `rotateYellowBest`: `distanceVote[d + 1]` counts the
      edges at distance `d`. */
  method TallyYellowVotes(sides: CubeState) returns (distanceVote: array<int>, r: Outcome)
    ensures fresh(distanceVote) && distanceVote.Length == 4
    ensures var votes := Distances(sides, 4);
      if votes.Err? then r == Err(votes.error) else r.Ok? && distanceVote[..] == Tally(votes.value)
  {
    distanceVote := new int[4](_ => 0);
    assert Tally([]) == [0, 0, 0, 0];
    for k := 0 to 4
      invariant Distances(sides, k).Ok? && distanceVote[..] == Tally(Distances(sides, k).value)
    {
      r := CastYellowVote(sides, k, distanceVote);
      if r.Err? {
        DistancesFailureSticks(sides, k + 1);
        return;
      }
    }
    r := Pass;
  }

  /** One pass of the vote loop: entry `k`'s distance is counted into
      `distanceVote`, or the distance throws. */
  method CastYellowVote(sides: CubeState, k: int, distanceVote: array<int>) returns (r: Outcome)
    requires 0 <= k < 4 && distanceVote.Length == 4
    requires Distances(sides, k).Ok? && distanceVote[..] == Tally(Distances(sides, k).value)
    modifies distanceVote
    ensures var votes := Distances(sides, k + 1);
      if votes.Err? then r == Err(votes.error) else r.Ok? && distanceVote[..] == Tally(votes.value)
  {
    DistancesStep(sides, k);
    var distance := EdgeDistance(sides, k);
    if distance.Err? {
      return Err(distance.error);
    }
    CountVote(distanceVote, Distances(sides, k).value, distance.value);
    r := Pass;
  }

  /** `oppositeSidesMismatched`. */
  method OppositeSidesMismatched(sides: CubeState) returns (r: Result<bool>)
    ensures r == OppositeFrom(sides, 0)
  {
    for iConn := 0 to 4
      invariant OppositeFrom(sides, 0) == OppositeFrom(sides, iConn)
    {
      var distance :- EdgeDistance(sides, iConn);
      if distance != 0 {
        assert (iConn + 2) % 4 == Across(iConn);
        var opposite :- EdgeDistance(sides, ArrayUtil.LoopedIndex([0, 1, 2, 3], iConn + 2).value);
        return Ok(opposite != 0);
      }
    }
    return Ok(false);
  }

  /** The search loop of `swapEdges`: the side of the first solved edge
      whose next edge is unsolved, or -1. */
  method FindRightSolvedSide(sides: CubeState) returns (r: Result<int>)
    ensures r == SwapSideFrom(sides, 0)
  {
    var rightSolvedSide: int := -1;
    for iConn := 0 to 4
      invariant SwapSideFrom(sides, 0) == SwapSideFrom(sides, iConn)
    {
      var distance :- EdgeDistance(sides, iConn);
      if distance == 0 {
        assert (iConn + 1) % 4 == Next(iConn);
        var toLeft :- EdgeDistance(sides, ArrayUtil.LoopedIndex([0, 1, 2, 3], iConn + 1).value);
        if toLeft != 0 {
          rightSolvedSide := YELLOW_RING[iConn];
          return Ok(rightSolvedSide);
        }
      }
    }
    return Ok(rightSolvedSide);
  }

  /** The final loop of `solve`. */
  method CheckEdges(sides: CubeState) returns (r: Outcome)
    ensures r == CheckFrom(sides, 0)
  {
    for iConn := 0 to 4
      invariant CheckFrom(sides, 0) == CheckFrom(sides, iConn)
    {
      var distance :- EdgeDistance(sides, iConn);
      if distance != 0 {
        return Err(IllegalState("couldn't align yellow edges"));
      }
    }
    return Pass;
  }

  /** `YellowEdgesStep`: the step's moves and cube. */
  class YellowEdges {
    const base: SolveStep

    ghost predicate Valid()
      reads this, base, base.cube, base.cube.faces
    {
      base.Valid()
    }

    constructor(cube: Cube)
      requires cube.Valid()
      ensures Valid() && fresh(base)
      ensures base.cube == cube && base.calls == [] && base.markers == map[] && base.start == cube.State()
    {
      base := new SolveStep(cube);
    }

    /** `solve`: turn YELLOW by the best vote; when the first unsolved edge
        has its opposite unsolved too, swap and vote again; swap; then fail
        unless every edge is over its side. Success leaves every edge over
        its side, the whole step makes at most 22 quarter turns, and edges
        already over their sides get no turns at all. */
    method Solve() returns (r: Outcome)
      requires Valid()
      modifies base, base.cube.faces
      ensures Valid() && base.start == old(base.start) && base.markers == old(base.markers)
      ensures Extends(old(base.calls), base.calls) && Quarters(base.calls) <= Quarters(old(base.calls)) + 22
      ensures r.Ok? ==> EdgesAligned(base.cube.State())
      ensures r.Err? ==> r.error == NO_DISTANCE || r.error == IllegalState("couldn't align yellow edges")
      ensures EdgesAligned(old(base.cube.State())) ==>
        r.Ok? && Quarters(base.calls) == Quarters(old(base.calls)) && base.cube.State() == old(base.cube.State())
    {
      ghost var s0, c0 := base.cube.State(), base.calls;
      ghost var aligned := EdgesAligned(s0);
      r := RotateYellowBest();
      TurnedYellowBestMoves(s0, c0, r, base.calls);
      if aligned {
        AlignedTurnsNothing(s0, c0, r, base.calls);
        ZeroRotation(c0, YELLOW);
      }
      if r.Err? {
        return;
      }
      ghost var s1, c1 := base.cube.State(), base.calls;
      var mismatched := OppositeSidesMismatched(base.cube.State());
      if mismatched.Err? {
        return Err(mismatched.error);
      }
      if aligned {
        OppositeMeaning(s1, 0);
      }
      if mismatched.value {
        ghost var rs, swapped, mid;
        r, rs, swapped, mid := SwapThenTurn();
        ExtendsTransitive(c0, c1, base.calls);
        if r.Err? {
          return;
        }
      }
      ghost var s3, c3 := base.cube.State(), base.calls;
      r := SwapEdges();
      SwappedMoves(s3, c3, r, base.calls);
      ExtendsTransitive(c0, c3, base.calls);
      if r.Err? {
        return;
      }
      r := CheckEdges(base.cube.State());
      CheckMeaning(base.cube.State(), 0);
    }

    /** The branch of `solve` for mismatched opposite sides: swap, then
        turn YELLOW by the best vote again. The swap ends with `rs` after
        the calls `swapped`, leaving the cube `mid`. */
    method SwapThenTurn() returns (r: Outcome, ghost rs: Outcome, ghost swapped: seq<Rotation>, ghost mid: CubeState)
      requires Valid()
      modifies base, base.cube.faces
      ensures Valid() && base.start == old(base.start) && base.markers == old(base.markers)
      ensures Swapped(old(base.cube.State()), old(base.calls), rs, swapped)
      ensures rs.Err? ==> r == rs && base.calls == swapped
      ensures rs.Ok? ==> Reached(mid, base.start, swapped) && TurnedYellowBest(mid, swapped, r, base.calls)
      ensures Extends(old(base.calls), base.calls) && Quarters(base.calls) <= Quarters(old(base.calls)) + 11
      ensures r.Err? ==> r.error == NO_DISTANCE
    {
      ghost var s0, c0 := base.cube.State(), base.calls;
      r := SwapEdges();
      rs, swapped, mid := r, base.calls, base.cube.State();
      SwappedMoves(s0, c0, r, base.calls);
      if r.Err? {
        return;
      }
      base.Reaches();
      r := RotateYellowBest();
      TurnedYellowBestMoves(mid, swapped, r, base.calls);
      ExtendsTransitive(c0, swapped, base.calls);
    }

    /** `rotateYellowBest`. A turn by zero leaves the cube as it was. */
    method RotateYellowBest() returns (r: Outcome)
      requires Valid()
      modifies base, base.cube.faces
      ensures Valid() && base.start == old(base.start) && base.markers == old(base.markers)
      ensures TurnedYellowBest(old(base.cube.State()), old(base.calls), r, base.calls)
      ensures base.calls == old(base.calls) + [Rotation(YELLOW, 0)] ==> base.cube.State() == old(base.cube.State())
    {
      var distanceVote;
      distanceVote, r := TallyYellowVotes(base.cube.State());
      if r.Err? {
        return;
      }
      var bestMove := ArrayUtil.IndexOfHighest(distanceVote);
      if bestMove != -1 {
        base.Rotate(YELLOW, bestMove - 1);
        assert base.calls[|old(base.calls)|].quarters == bestMove - 1;
      }
    }

    /** `swapEdges`. */
    method SwapEdges() returns (r: Outcome)
      requires Valid()
      modifies base, base.cube.faces
      ensures Valid() && base.start == old(base.start) && base.markers == old(base.markers)
      ensures Swapped(old(base.cube.State()), old(base.calls), r, base.calls)
      ensures base.calls == old(base.calls) ==> base.cube.State() == old(base.cube.State())
    {
      var found := FindRightSolvedSide(base.cube.State());
      if found.Err? {
        return Err(found.error);
      }
      var rightSolvedSide := found.value;
      if rightSolvedSide == -1 {
        return Pass;
      }
      Exchange(rightSolvedSide);
      r := Pass;
    }

    /** The turns of `swapEdges` round `rightSolvedSide`. */
    method Exchange(rightSolvedSide: Color)
      requires Valid()
      modifies base, base.cube.faces
      ensures Valid() && base.start == old(base.start) && base.markers == old(base.markers)
      ensures base.calls == old(base.calls) + SwapCalls(rightSolvedSide)
    {
      base.Clockwise(rightSolvedSide);
      base.Clockwise(YELLOW);
      base.CounterClockwise(rightSolvedSide);
      base.Clockwise(YELLOW);
      base.Clockwise(rightSolvedSide);
      base.Rotate(YELLOW, 2);
      base.CounterClockwise(rightSolvedSide);
      base.Clockwise(YELLOW);
    }
  }
}
