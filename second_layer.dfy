/** The third phase: the four edges of the middle layer. An edge on the
    YELLOW layer with no YELLOW facelet is turned round YELLOW until its side
    facelet sits on its own face, then inserted to the left or right with
    eight turns. */
module SecondLayerPhase {
  import opened Outcomes
  import opened FaceColor
  import opened CubeTopology
  import opened Cubes
  import opened SolveSteps

  /** `PreparedEdge`: an edge aligned above the side `connectedSide`, which
      belongs between that side and the neighbour `otherSideRelative` places
      round YELLOW's list from it. */
  datatype PreparedEdge = PreparedEdge(connectedSide: Color, otherSideRelative: int)

  /** What `findAndAlignEdgeOnYellow` hands on: a side face and one step. */
  predicate Prepared(e: PreparedEdge)
  {
    IsSideFace(e.connectedSide) && (e.otherSideRelative == 1 || e.otherSideRelative == -1)
  }

  /** For each entry of YELLOW's list: neither facelet of the edge YELLOW
      shares with that side shows YELLOW, so the edge belongs to the middle
      layer. */
  function Candidates(s: CubeState): (m: seq<bool>)
    ensures |m| == 4
  {
    PoleRings(0);
    StripsOfThree(YELLOW);
    seq(4, k requires 0 <= k < 4 =>
      var c := Connections(YELLOW)[k];
      EdgeColor(s, YELLOW, c.side).value != YELLOW && s[c.side][c.faces[1]] != YELLOW)
  }

  /** The turn that carries the edge from above `connected` towards the side
      `onYellow`: 1 when that side is the next one round YELLOW's list, -1
      when it is the previous one, and otherwise a failure. */
  function Direction(connected: Color, onYellow: Color): Result<int>
    requires IsSideFace(connected)
  {
    PoleRings(connected);
    if AdjacentWithOffset(YELLOW, connected, 1).value.side == onYellow then Ok(1)
    else if AdjacentWithOffset(YELLOW, connected, -1).value.side == onYellow then Ok(-1)
    else Err(IllegalState("couldn't determine rotation direction"))
  }

  /** A direction exists exactly when the two colours of the edge are two
      neighbouring side faces, and it names the neighbour. */
  lemma DirectionOfNeighbours(connected: Color, onYellow: Color)
    requires IsSideFace(connected)
    ensures Direction(connected, onYellow).Ok? <==>
      IsSideFace(onYellow) && onYellow != connected && onYellow != Opposite(connected)
    ensures Direction(connected, onYellow).Ok? ==>
      var d := Direction(connected, onYellow).value;
      (d == 1 || d == -1) && AdjacentWithOffset(YELLOW, connected, d).value.side == onYellow
  {
    PoleRings(connected);
    assert Connections(YELLOW)[0].side == RED && Connections(YELLOW)[1].side == BLUE;
    assert Connections(YELLOW)[2].side == ORANGE && Connections(YELLOW)[3].side == GREEN;
  }

  /** What `findAndAlignEdgeOnYellow` does from the cube `s` after the calls
      `calls`: nothing and no edge when no entry of YELLOW's list is a
      candidate; otherwise, for the first candidate, YELLOW turns by the
      distance from its side to the colour of its side facelet (a failure,
      before any turn, when that colour is WHITE) and the edge is prepared
      towards the colour of its YELLOW facelet, or the direction fails. */
  predicate AlignedEdge(s: CubeState, calls: seq<Rotation>, r: Result<Option<PreparedEdge>>, calls': seq<Rotation>)
  {
    var k := FirstIndex(Candidates(s), 0);
    if k == -1 then r == Ok(None) && calls' == calls
    else
      (PoleRings(0);
       StripsOfThree(YELLOW);
       var c := Connections(YELLOW)[k];
       var onYellow := EdgeColor(s, YELLOW, c.side).value;
       var onConnected := s[c.side][c.faces[1]];
       var d := DistanceAroundYellow(c.side, onConnected);
       if d.Err? then r == Err(d.error) && calls' == calls
       else
         && calls' == calls + [Rotation(YELLOW, d.value)]
         && var dir := Direction(onConnected, onYellow);
         r == if dir.Err? then Err(dir.error) else Ok(Some(PreparedEdge(onConnected, dir.value))))
  }

  /** The edge chosen: no edge exactly when every edge round YELLOW shows
      YELLOW on a facelet; otherwise one that shows none, with every earlier
      entry of YELLOW's list showing YELLOW. */
  lemma ChosenEdge(s: CubeState)
    ensures var k := FirstIndex(Candidates(s), 0);
      && (k == -1 <==> forall i :: 0 <= i < 4 ==> !Candidates(s)[i])
      && (k != -1 ==> Candidates(s)[k] && forall i :: 0 <= i < k ==> !Candidates(s)[i])
    ensures forall i :: 0 <= i < 4 ==>
      (Candidates(s)[i] <==>
         var c := Connections(YELLOW)[i];
         EdgeColor(s, YELLOW, c.side) != Ok(YELLOW) && s[c.side][TOP_MIDDLE] != YELLOW)
  {
    FirstIndexFirst(Candidates(s), 0);
    PoleRings(0);
    assert forall i :: 0 <= i < 4 ==> Connections(YELLOW)[i].faces[1] == TOP_MIDDLE;
  }

  /** An alignment keeps the calls before it and adds at most one turn of
      YELLOW, of at most two quarter turns; a prepared edge is one step from
      its side. */
  lemma AlignedEdgeMoves(s: CubeState, calls: seq<Rotation>, r: Result<Option<PreparedEdge>>, calls': seq<Rotation>)
    requires AlignedEdge(s, calls, r, calls')
    ensures calls' == calls || (|calls'| == |calls| + 1 && calls'[..|calls|] == calls)
    ensures calls' != calls ==> calls'[|calls|].side == YELLOW && -1 <= calls'[|calls|].quarters <= 2
    ensures Quarters(calls') <= Quarters(calls) + 2
    ensures r.Ok? && r.value.None? ==> calls' == calls
    ensures r.Ok? && r.value.Some? ==> Prepared(r.value.value) && calls' != calls
    ensures r.Err? ==> r.error.IndexOutOfBounds? || r.error == IllegalState("couldn't determine rotation direction")
  {
    var k := FirstIndex(Candidates(s), 0);
    if k != -1 {
      PoleRings(0);
      StripsOfThree(YELLOW);
      var c := Connections(YELLOW)[k];
      var onYellow := EdgeColor(s, YELLOW, c.side).value;
      var onConnected := s[c.side][c.faces[1]];
      var d := DistanceAroundYellow(c.side, onConnected);
      if d.Ok? {
        assert calls'[..|calls|] == calls;
        QuartersAppend(calls, [Rotation(YELLOW, d.value)]);
        QuartersOne(Rotation(YELLOW, d.value));
        DirectionOfNeighbours(onConnected, onYellow);
      }
    }
  }

  /** `insertEdge`'s eight calls for a prepared edge: YELLOW and the
      neighbour `o` the edge goes next to turn away and back, then YELLOW and
      the edge's own side `i` do the same in the other sense. */
  function InsertCalls(e: PreparedEdge): seq<Rotation>
    requires Prepared(e)
  {
    PoleRings(e.connectedSide);
    var rel := e.otherSideRelative;
    var o := AdjacentWithOffset(YELLOW, e.connectedSide, rel).value.side;
    var i := e.connectedSide;
    [Rotation(YELLOW, -rel), Rotation(o, -rel), Rotation(YELLOW, rel), Rotation(o, rel),
     Rotation(YELLOW, rel), Rotation(i, rel), Rotation(YELLOW, -rel), Rotation(i, -rel)]
  }

  /** Inserting an edge makes eight quarter turns, one per call. */
  lemma InsertQuarters(e: PreparedEdge)
    requires Prepared(e)
    ensures Quarters(InsertCalls(e)) == 8
  {
    UnitQuarters(InsertCalls(e));
  }

  /** The net quarter turns of four calls in a row. */
  lemma NetQuartersFour(w: Rotation, x: Rotation, y: Rotation, z: Rotation, side: Color)
    ensures NetQuarters([w, x, y, z], side)
      == NetQuarters([w], side) + NetQuarters([x], side) + NetQuarters([y], side) + NetQuarters([z], side)
  {
    assert [w, x, y, z] == [w] + [x] + [y] + [z];
    NetQuartersAppend([w] + [x] + [y], [z], side);
    NetQuartersAppend([w] + [x], [y], side);
    NetQuartersAppend([w], [x], side);
  }

  /** Inserting an edge leaves every face turned as far back as it was
      turned forward: each face's net quarter turns over the eight calls are
      zero. */
  lemma InsertBalanced(e: PreparedEdge, side: Color)
    requires Prepared(e)
    ensures NetQuarters(InsertCalls(e), side) == 0
  {
    var calls := InsertCalls(e);
    var rel := e.otherSideRelative;
    assert calls == calls[..4] + calls[4..];
    NetQuartersAppend(calls[..4], calls[4..], side);
    assert calls[..4] == [calls[0], calls[1], calls[2], calls[3]];
    assert calls[4..] == [calls[4], calls[5], calls[6], calls[7]];
    NetQuartersFour(calls[0], calls[1], calls[2], calls[3], side);
    NetQuartersFour(calls[4], calls[5], calls[6], calls[7], side);
    NetQuartersOne(calls[0], side);
    NetQuartersOne(calls[1], side);
    NetQuartersOne(calls[2], side);
    NetQuartersOne(calls[3], side);
    NetQuartersOne(calls[4], side);
    NetQuartersOne(calls[5], side);
    NetQuartersOne(calls[6], side);
    NetQuartersOne(calls[7], side);
  }

  /** An iteration that finds an edge makes `|distance| + 8` quarter turns:
      the alignment's turn of YELLOW, then the insertion. */
  lemma IterationQuarters(s: CubeState, calls: seq<Rotation>, e: PreparedEdge, aligned: seq<Rotation>)
    requires AlignedEdge(s, calls, Ok(Some(e)), aligned)
    ensures Prepared(e) && |aligned| == |calls| + 1
    ensures var q := aligned[|calls|].quarters;
      Quarters(aligned + InsertCalls(e)) == Quarters(calls) + (if q < 0 then -q else q) + 8
  {
    AlignedEdgeMoves(s, calls, Ok(Some(e)), aligned);
    assert aligned == calls + [aligned[|calls|]];
    QuartersAppend(calls, [aligned[|calls|]]);
    QuartersOne(aligned[|calls|]);
    QuartersAppend(aligned, InsertCalls(e));
    InsertQuarters(e);
  }

  /** The scan of `findAndAlignEdgeOnYellow`: the first entry of YELLOW's
      list whose edge shows no YELLOW, or -1. */
  method FirstCandidate(sides: CubeState) returns (k: int)
    ensures k == FirstIndex(Candidates(sides), 0)
  {
    PoleRings(0);
    StripsOfThree(YELLOW);
    var connections := Connections(YELLOW);
    for j := 0 to 4
      invariant FirstIndex(Candidates(sides), 0) == FirstIndex(Candidates(sides), j)
    {
      var connection := connections[j];
      var colorOnYellow := EdgeColor(sides, YELLOW, connection.side).value;
      var colorOnConnected := sides[connection.side][connection.faces[1]];
      if colorOnYellow == YELLOW || colorOnConnected == YELLOW {
        continue;
      }
      return j;
    }
    return -1;
  }

  /** `SecondLayerStep`: the step's moves and cube. */
  class SecondLayer {
    const base: SolveStep

    ghost predicate Valid()
      reads this, base, base.cube, base.cube.faces
    {
      base.Valid()
    }

    constructor(cube: Cube)
      requires cube.Valid()
      ensures Valid() && fresh(base)
      ensures base.cube == cube && base.calls == [] && base.markers == map[] && base.start == cube.State()
    {
      base := new SolveStep(cube);
    }

    /** `solve`: four rounds, each aligning an edge from YELLOW and inserting
        it, or doing nothing when YELLOW holds no middle-layer edge. No check
        follows: the step ends after four rounds whatever the cube holds. The
        calls made before are kept, and each round makes at most ten quarter
        turns. */
    method Solve() returns (r: Outcome)
      requires Valid()
      modifies base, base.cube.faces
      ensures Valid() && base.start == old(base.start) && base.markers == old(base.markers)
      ensures |old(base.calls)| <= |base.calls| && base.calls[..|old(base.calls)|] == old(base.calls)
      ensures Quarters(base.calls) <= Quarters(old(base.calls)) + 40
      ensures r.Err? ==>
        r.error.IndexOutOfBounds? || r.error == IllegalState("couldn't determine rotation direction")
    {
      for limit := 0 to 4
        invariant Valid() && base.start == old(base.start) && base.markers == old(base.markers)
        invariant |old(base.calls)| <= |base.calls| && base.calls[..|old(base.calls)|] == old(base.calls)
        invariant Quarters(base.calls) <= Quarters(old(base.calls)) + 10 * limit
      {
        ghost var before := base.calls;
        var edge, aligned := SolveRound();
        if edge.Err? {
          return Err(edge.error);
        }
        assert before[..|old(base.calls)|] == old(base.calls);
      }
      r := Pass;
    }

    /** One round of `solve`: align (the calls `aligned`), then insert the
        edge found, if any. */
    method SolveRound() returns (r: Result<Option<PreparedEdge>>, ghost aligned: seq<Rotation>)
      requires Valid()
      modifies base, base.cube.faces
      ensures Valid() && base.start == old(base.start) && base.markers == old(base.markers)
      ensures AlignedEdge(old(base.cube.State()), old(base.calls), r, aligned)
      ensures base.calls == if r.Ok? && r.value.Some? then aligned + InsertCalls(r.value.value) else aligned
      ensures |old(base.calls)| <= |base.calls| && base.calls[..|old(base.calls)|] == old(base.calls)
      ensures Quarters(base.calls) <= Quarters(old(base.calls)) + 10
      ensures r.Err? ==>
        r.error.IndexOutOfBounds? || r.error == IllegalState("couldn't determine rotation direction")
    {
      r := FindAndAlignEdgeOnYellow();
      aligned := base.calls;
      AlignedEdgeMoves(old(base.cube.State()), old(base.calls), r, aligned);
      if r.Ok? && r.value.Some? {
        InsertEdge(r.value.value);
        IterationQuarters(old(base.cube.State()), old(base.calls), r.value.value, aligned);
        assert base.calls[..|old(base.calls)|] == old(base.calls);
      }
    }

    /** `findAndAlignEdgeOnYellow`. */
    method FindAndAlignEdgeOnYellow() returns (r: Result<Option<PreparedEdge>>)
      requires Valid()
      modifies base, base.cube.faces
      ensures Valid() && base.start == old(base.start) && base.markers == old(base.markers)
      ensures AlignedEdge(old(base.cube.State()), old(base.calls), r, base.calls)
    {
      var sides := base.cube.State();
      var k := FirstCandidate(sides);
      if k == -1 {
        return Ok(None);
      }
      PoleRings(0);
      StripsOfThree(YELLOW);
      var connection := Connections(YELLOW)[k];
      var colorOnYellow := EdgeColor(sides, YELLOW, connection.side).value;
      var colorOnConnected := sides[connection.side][connection.faces[1]];
      var distance :- DistanceAroundYellow(connection.side, colorOnConnected);
      base.Rotate(YELLOW, distance);
      var otherSideRelative :- Direction(colorOnConnected, colorOnYellow);
      r := Ok(Some(PreparedEdge(colorOnConnected, otherSideRelative)));
    }

    /** `insertEdge`. */
    method InsertEdge(edge: PreparedEdge)
      requires Valid() && Prepared(edge)
      modifies base, base.cube.faces
      ensures Valid() && base.start == old(base.start) && base.markers == old(base.markers)
      ensures base.calls == old(base.calls) + InsertCalls(edge)
    {
      PoleRings(edge.connectedSide);
      var initialConnectedSide := edge.connectedSide;
      var otherConnectedSide := AdjacentWithOffset(YELLOW, edge.connectedSide, edge.otherSideRelative).value.side;
      ghost var before := base.calls;
      Swing(otherConnectedSide, edge.otherSideRelative);
      Swing(initialConnectedSide, -edge.otherSideRelative);
      assert base.calls == before + InsertCalls(edge);
    }

    /** Half of `insertEdge`: YELLOW and `side` turn by `-rel`, then back. */
    method Swing(side: Color, rel: int)
      requires Valid()
      modifies base, base.cube.faces
      ensures Valid() && base.start == old(base.start) && base.markers == old(base.markers)
      ensures base.calls == old(base.calls) + [Rotation(YELLOW, -rel), Rotation(side, -rel), Rotation(YELLOW, rel), Rotation(side, rel)]
    {
      base.Rotate(YELLOW, -rel);
      base.Rotate(side, -rel);
      base.Rotate(YELLOW, rel);
      base.Rotate(side, rel);
    }
  }
}
