/** The first phase: bring the four edges that belong around WHITE into the
    WHITE layer, each next to the side of its other colour. `inWhiteCross`
    flags the side faces whose edge has been placed. */
module WhiteCrossPhase {
  import opened Outcomes
  import opened FaceColor
  import opened CubeTopology
  import opened Cubes
  import ArrayUtil
  import opened SolveSteps

  /** Flags only ever go from false to true. */
  predicate Monotone(before: seq<bool>, after: seq<bool>)
  {
    |before| == |after| && forall i :: 0 <= i < |before| && before[i] ==> after[i]
  }

  /** The votes the first `n` entries of WHITE's connection list cast: an
      entry votes when its edge's WHITE facelet is WHITE, for the distance
      from its side to the colour of the edge's other facelet. A vote with no
      distance throws. */
  function WhiteVotes(s: CubeState, n: int): (r: Result<seq<int>>)
    requires 0 <= n <= 4
    ensures r.Ok? ==> |r.value| <= n && forall i :: 0 <= i < |r.value| ==> -1 <= r.value[i] <= 2
  {
    if n == 0 then Ok([])
    else
      var earlier :- WhiteVotes(s, n - 1);
      ConnectionsWellFormed(WHITE);
      var touch := Connections(WHITE)[n - 1];
      if EdgeColor(s, WHITE, touch.side) != Ok(WHITE) then Ok(earlier)
      else
        var distance :- DistanceAroundWhite(touch.side, s[touch.side][touch.faces[1]]);
        Ok(earlier + [distance])
  }

  /** Entry `k` adds its vote, if it casts one, to those of the entries
      before it. */
  lemma WhiteVotesStep(s: CubeState, k: int)
    requires 0 <= k < 4 && WhiteVotes(s, k).Ok?
    ensures (ConnectionsWellFormed(WHITE); var touch := Connections(WHITE)[k];
      WhiteVotes(s, k + 1) ==
        if EdgeColor(s, WHITE, touch.side) != Ok(WHITE) then WhiteVotes(s, k)
        else
          var d := DistanceAroundWhite(touch.side, s[touch.side][touch.faces[1]]);
          if d.Err? then Err(d.error) else Ok(WhiteVotes(s, k).value + [d.value]))
  {
  }

  /** Once a vote throws, the whole vote throws the same exception. */
  lemma {:induction false} WhiteVotesFailureSticks(s: CubeState, n: int)
    requires 0 <= n <= 4 && WhiteVotes(s, n).Err?
    ensures WhiteVotes(s, 4) == WhiteVotes(s, n)
    decreases 4 - n
  {
    if n < 4 {
      WhiteVotesFailureSticks(s, n + 1);
    }
  }

  /** On a solved cube every WHITE-layer edge shows WHITE on WHITE and sits
      on its own side, so each of the first `n` votes is for no turn. */
  lemma {:induction false} SolvedVotes(n: int)
    requires 0 <= n <= 4
    ensures WhiteVotes(Solved(), n) == Ok(seq(n, _ => 0))
  {
    if n > 0 {
      SolvedVotes(n - 1);
      var s := Solved();
      ConnectionsWellFormed(WHITE);
      PoleRings(0);
      var touch := Connections(WHITE)[n - 1];
      assert s[WHITE][EdgeFacelet(false, WHITE, touch.side)] == WHITE;
      DistanceLaws(touch.side, touch.side);
      assert seq(n, _ => 0) == seq(n - 1, _ => 0) + [0];
    } else {
      assert seq(n, _ => 0) == [];
    }
  }

  /** So on a solved cube `rotateWhiteSideBest` turns nothing. */
  lemma SolvedCrossVotesForNoTurn()
    ensures WhiteVotes(Solved(), 4) == Ok([0, 0, 0, 0])
    ensures VotedOffset(Tally(WhiteVotes(Solved(), 4).value)) == 0
  {
    SolvedVotes(4);
    assert seq(4, _ => 0) == [0, 0, 0, 0];
    UnanimousNoTurn();
  }

  /** Where a piece of the phase leaves the step: its outcome, every call
      made on the step so far, and the `inWhiteCross` flags. */
  datatype Effect = Effect(r: Outcome, calls: seq<Rotation>, placed: seq<bool>)

  /** A method ended with outcome `r`, calls `calls` and flags `placed`,
      which is where `e` says it ends. */
  predicate Did(e: Effect, r: Outcome, calls: seq<Rotation>, placed: seq<bool>)
  {
    r == e.r && calls == e.calls && placed == e.placed
  }

  /** Calls are only ever added, and flags only ever set. */
  predicate Grows(calls: seq<Rotation>, placed: seq<bool>, e: Effect)
  {
    Extends(calls, e.calls) && Monotone(placed, e.placed)
  }

  /** `rotateWhiteSideBest` on `s` after `calls`: the error of the first vote
      that fails, or one turn of WHITE by the offset with the most votes. */
  function BestTurn(s: CubeState, calls: seq<Rotation>, placed: seq<bool>): (e: Effect)
    ensures Grows(calls, placed, e)
  {
    var votes := WhiteVotes(s, 4);
    if votes.Err? then Effect(Err(votes.error), calls, placed)
    else Effect(Pass, calls + [Rotation(WHITE, VotedOffset(Tally(votes.value)))], placed)
  }

  /** One connection of `ensureWhiteEdgesCorrect` on `s` after `calls`. An
      edge whose WHITE facelet is not WHITE is skipped; one already next to
      its own side is flagged; any other is taken up to YELLOW, carried
      round to its side and brought down, and that side is flagged. */
  function EnsureStep(s: CubeState, calls: seq<Rotation>, placed: seq<bool>, connection: Connection): (e: Effect)
    requires |placed| == 6 && IsSideFace(connection.side) && |connection.faces| == 3
    ensures Grows(calls, placed, e)
  {
    var side := connection.side;
    var edge := s[side][connection.faces[1]];
    var d := DistanceAroundWhite(side, edge);
    if EdgeColor(s, WHITE, side) != Ok(WHITE) then Effect(Pass, calls, placed)
    else if d.Err? then Effect(Err(d.error), calls, placed)
    else if d.value == 0 then Effect(Pass, calls, placed[side := true])
    else
      Effect(Pass, calls + [Rotation(side, 2), Rotation(YELLOW, -d.value), Rotation(edge, 2)], placed[edge := true])
  }

  /** `TurnDown` after `calls`: turn `connected` by `direction` and `target`
      back, turn `connected` back again if its own edge was placed, and flag
      `target`. */
  function TurnedDown(calls: seq<Rotation>, placed: seq<bool>, connected: Color, target: Color, direction: int): (e: Effect)
    requires |placed| == 6
    ensures e.r.Ok? && Grows(calls, placed, e)
  {
    Effect(Pass,
           calls + [Rotation(connected, direction), Rotation(target, -direction)]
           + (if placed[connected] then [Rotation(connected, -direction)] else []),
           placed[target := true])
  }

  /** One connection of `rotateSideTopWhiteEdges` on `s` after `calls`: a
      WHITE facelet at the top middle of `side` is turned down into the WHITE
      layer at the side named by the edge's YELLOW facelet. When that side is
      `side` itself or across from it, YELLOW first turns once and the
      neighbour it brought the edge to is used instead. */
  function TopStep(s: CubeState, calls: seq<Rotation>, placed: seq<bool>, side: Color): (e: Effect)
    requires |placed| == 6 && IsSideFace(side)
    ensures Grows(calls, placed, e)
  {
    if s[side][TOP_MIDDLE] != WHITE then Effect(Pass, calls, placed)
    else
      var target := EdgeColor(s, YELLOW, side).value;
      var d := DistanceAroundWhite(target, side);
      if d.Err? then Effect(Err(d.error), calls, placed)
      else if d.value == 0 || d.value == 2 then
        PoleRings(side);
        var connected := AdjacentWithOffset(YELLOW, side, 1).value.side;
        var e := TurnedDown(calls + [Rotation(YELLOW, 1)], placed, connected, target, if d.value - 1 < 0 then 1 else -1);
        ExtendsTransitive(calls, calls + [Rotation(YELLOW, 1)], e.calls);
        e
      else
        TurnedDown(calls, placed, side, target, if d.value < 0 then 1 else -1)
  }

  /** `CarrySideEdge` after `calls`: `connected` lifts the edge to YELLOW,
      YELLOW carries it to `edge`'s side (`connected` is turned back if its
      own edge was placed) and a half turn brings it down. */
  function CarriedSideEdge(calls: seq<Rotation>, placed: seq<bool>, connected: Color, edge: Color, rotation: int): (e: Effect)
    requires |placed| == 6
    ensures Grows(calls, placed, e)
  {
    var lift := calls + [Rotation(connected, -rotation)];
    var d := DistanceAroundWhite(edge, connected);
    if d.Err? then Effect(Err(d.error), lift, placed)
    else
      var more := [Rotation(YELLOW, d.value)] + (if placed[connected] then [Rotation(connected, rotation)] else [])
                  + [Rotation(edge, 2)];
      assert calls + [Rotation(connected, -rotation)] + more == lift + more;
      Effect(Pass, lift + more, placed[edge := true])
  }

  /** Step `i` of `rotateSideSideWhiteEdges` on `s` after `calls`:
      direction `i % 2` of WHITE's connection `i / 2`. A WHITE facelet on the
      left (direction 0, ring place 7) or right (direction 1, ring place 3)
      edge of the connection's side belongs to the neighbour it touches. If
      that neighbour's facelet on the edge shows the neighbour's own colour,
      turning the neighbour drops the edge into place; otherwise
      `CarriedSideEdge` takes it round. */
  function SideStep(s: CubeState, calls: seq<Rotation>, placed: seq<bool>, i: int): (e: Effect)
    requires |placed| == 6 && 0 <= i < 8
    ensures Grows(calls, placed, e)
  {
    ConnectionsWellFormed(WHITE);
    var side, direction := Connections(WHITE)[i / 2].side, i % 2;
    var place, oppositePlace := [7, 3][direction], [7, 3][(direction + 1) % 2];
    var rotation := [1, -1][direction];
    if s[side][place] != WHITE then Effect(Pass, calls, placed)
    else
      PoleRings(side);
      var connected := AdjacentWithOffset(YELLOW, side, rotation).value.side;
      var edge := s[connected][oppositePlace];
      if connected == edge then Effect(Pass, calls + [Rotation(connected, rotation)], placed[edge := true])
      else CarriedSideEdge(calls, placed, connected, edge, rotation)
  }

  /** `CarryBottomEdge` after `calls`: lift the edge to YELLOW through the
      left neighbour, turn YELLOW to its side (turning the neighbour back if
      its own edge was placed) and bring it down with a half turn. */
  function CarriedBottomEdge(calls: seq<Rotation>, placed: seq<bool>, side: Color, target: Color, toLeft: Color): (e: Effect)
    requires |placed| == 6
    ensures Grows(calls, placed, e)
  {
    var lift := calls + [Rotation(side, 1), Rotation(toLeft, -1)];
    var d := DistanceAroundWhite(target, toLeft);
    if d.Err? then Effect(Err(d.error), lift, placed)
    else
      var more := [Rotation(YELLOW, d.value)] + (if placed[toLeft] then [Rotation(toLeft, 1)] else [])
                  + [Rotation(target, 2)];
      assert calls + [Rotation(side, 1), Rotation(toLeft, -1)] + more == lift + more;
      Effect(Pass, lift + more, placed[target := true])
  }

  /** One connection of `rotateSideBottomWhiteEdges` on `s` after `calls`: a
      WHITE facelet at the bottom middle of `side`. When the edge belongs to
      the neighbour on its left or right, two turns place it there;
      otherwise `CarriedBottomEdge` takes it round. */
  function BottomStep(s: CubeState, calls: seq<Rotation>, placed: seq<bool>, side: Color): (e: Effect)
    requires |placed| == 6 && IsSideFace(side)
    ensures Grows(calls, placed, e)
  {
    if s[side][5] != WHITE then Effect(Pass, calls, placed)
    else
      PoleRings(side);
      PlacedBottomEdge(calls, placed, side, EdgeColor(s, WHITE, side).value,
                       AdjacentWithOffset(YELLOW, side, 1).value.side, AdjacentWithOffset(YELLOW, side, -1).value.side)
  }

  /** `PlaceBottomEdge` after `calls`: an edge that belongs to the neighbour
      on the left or the right of `side` is placed with two turns; any other
      is carried round by `CarriedBottomEdge`. */
  function PlacedBottomEdge(calls: seq<Rotation>, placed: seq<bool>, side: Color, target: Color, toLeft: Color, toRight: Color): (e: Effect)
    requires |placed| == 6
    ensures Grows(calls, placed, e)
  {
    if target == toLeft then
      Effect(Pass, calls + [Rotation(side, 1), Rotation(toLeft, -1)], placed[target := true])
    else if target == toRight then
      Effect(Pass, calls + [Rotation(side, -1), Rotation(toRight, 1)], placed[target := true])
    else
      CarriedBottomEdge(calls, placed, side, target, toLeft)
  }

  /** One connection of `rotateWhiteEdgesOnYellow` on `s` after `calls`: a
      WHITE facelet on YELLOW at its edge with `side` is carried round YELLOW
      to the side of the edge's other colour and brought down with a half
      turn. */
  function YellowStep(s: CubeState, calls: seq<Rotation>, placed: seq<bool>, side: Color): (e: Effect)
    requires |placed| == 6 && IsSideFace(side)
    ensures Grows(calls, placed, e)
  {
    var target := s[side][TOP_MIDDLE];
    var d := DistanceAroundWhite(target, side);
    if EdgeColor(s, YELLOW, side) != Ok(WHITE) then Effect(Pass, calls, placed)
    else if d.Err? then Effect(Err(d.error), calls, placed)
    else Effect(Pass, calls + [Rotation(YELLOW, d.value), Rotation(target, 2)], placed[target := true])
  }

  /** The passes over WHITE's connections: `ensureWhiteEdgesCorrect` and the
      four placement passes of a round. */
  datatype PassKind = EnsureCorrect | SideTop | SideSide | SideBottom | OnYellow

  /** The steps of a pass: one per connection, and two (left, then right)
      per connection in the side-side pass. */
  function Steps(kind: PassKind): nat
  {
    if kind == SideSide then 8 else 4
  }

  /** Step `i` of pass `kind` on `s` after `calls`. */
  function StepOf(kind: PassKind, s: CubeState, calls: seq<Rotation>, placed: seq<bool>, i: int): (e: Effect)
    requires |placed| == 6 && 0 <= i < Steps(kind)
    ensures Grows(calls, placed, e)
  {
    ConnectionsWellFormed(WHITE);
    PoleRings(0);
    match kind
    case EnsureCorrect => EnsureStep(s, calls, placed, Connections(WHITE)[i])
    case SideTop => TopStep(s, calls, placed, Connections(WHITE)[i].side)
    case SideSide => SideStep(s, calls, placed, i)
    case SideBottom => BottomStep(s, calls, placed, Connections(WHITE)[i].side)
    case OnYellow => YellowStep(s, calls, placed, Connections(WHITE)[i].side)
  }

  /** Pass `kind` from its step `i` on, the cube being `start` after `calls`:
      each step works on the cube the steps before it left, and the first
      step that throws ends the pass. */
  function PassFrom(kind: PassKind, start: CubeState, calls: seq<Rotation>, placed: seq<bool>, i: int): (e: Effect)
    requires |placed| == 6 && 0 <= i <= Steps(kind)
    ensures Grows(calls, placed, e)
    decreases Steps(kind) - i
  {
    if i == Steps(kind) then Effect(Pass, calls, placed)
    else
      var step := StepOf(kind, After(start, calls), calls, placed, i);
      if step.r.Err? then step
      else
        var rest := PassFrom(kind, start, step.calls, step.placed, i + 1);
        ExtendsTransitive(calls, step.calls, rest.calls);
        rest
  }

  /** A pass at its step `i`: the step's effect when the step throws, and
      otherwise the rest of the pass from the state the step left. */
  lemma PassFromNext(kind: PassKind, start: CubeState, calls: seq<Rotation>, placed: seq<bool>, i: int, step: Effect)
    requires |placed| == 6 && 0 <= i < Steps(kind)
    requires step == StepOf(kind, After(start, calls), calls, placed, i)
    ensures PassFrom(kind, start, calls, placed, i)
      == if step.r.Err? then step else PassFrom(kind, start, step.calls, step.placed, i + 1)
  {
  }

  /** Pass `kind` from its step `i` on, the cube being `start` after
      `calls`, ends as `whole` says. The equation is guarded by `Ask`, so that
      the solver unfolds the pass only in a proof that mentions `Ask`. */
  ghost predicate PassLeads(kind: PassKind, start: CubeState, calls: seq<Rotation>, placed: seq<bool>, i: int, whole: Effect)
  {
    forall k :: Ask(k) ==> |placed| == 6 && 0 <= i <= Steps(kind) && PassFrom(kind, start, calls, placed, i) == whole
  }

  /** A whole pass leads to its own effect. */
  lemma PassLeadsFrom(kind: PassKind, start: CubeState, calls: seq<Rotation>, placed: seq<bool>, whole: Effect)
    requires |placed| == 6 && PassFrom(kind, start, calls, placed, 0) == whole
    ensures PassLeads(kind, start, calls, placed, 0, whole)
  {
  }

  /** A step of a pass that leads to `whole`: when it throws, its effect is
      `whole`; otherwise the rest of the pass still leads to `whole`. */
  lemma PassLeadsNext(kind: PassKind, start: CubeState, calls: seq<Rotation>, placed: seq<bool>, i: int, whole: Effect,
                      s: CubeState, step: Effect)
    requires PassLeads(kind, start, calls, placed, i, whole) && i < Steps(kind)
    requires Reached(s, start, calls)
    requires |placed| == 6 && 0 <= i && step == StepOf(kind, s, calls, placed, i)
    ensures step.r.Err? ==> whole == step
    ensures step.r.Ok? ==> PassLeads(kind, start, step.calls, step.placed, i + 1, whole)
  {
    assert Ask(0);
    PassFromNext(kind, start, calls, placed, i, step);
  }

  /** `PassLeadsNext` for a step of the side-side pass. */
  lemma SideSideLeadsNext(start: CubeState, calls: seq<Rotation>, placed: seq<bool>, i: int, whole: Effect, s: CubeState)
    requires PassLeads(SideSide, start, calls, placed, i, whole) && |placed| == 6 && 0 <= i < 8
    requires Reached(s, start, calls)
    ensures var step := SideStep(s, calls, placed, i);
      && (step.r.Err? ==> whole == step)
      && (step.r.Ok? ==> PassLeads(SideSide, start, step.calls, step.placed, i + 1, whole))
  {
    PassLeadsNext(SideSide, start, calls, placed, i, whole, s, SideStep(s, calls, placed, i));
  }

  /** A pass that has run all its steps without throwing passes. */
  lemma PassLeadsDone(kind: PassKind, start: CubeState, calls: seq<Rotation>, placed: seq<bool>, whole: Effect)
    requires PassLeads(kind, start, calls, placed, Steps(kind), whole)
    ensures whole == Effect(Pass, calls, placed)
  {
    assert Ask(0);
  }

  /** The placement passes of a round of `solve`'s loop, in order. */
  const PLACEMENT: seq<PassKind> := [SideTop, SideSide, SideBottom, OnYellow]

  /** `whiteCrossComplete`: RED, ORANGE, GREEN and BLUE are all flagged. */
  predicate CrossComplete(placed: seq<bool>)
    requires |placed| == 6
  {
    placed[RED] && placed[ORANGE] && placed[GREEN] && placed[BLUE]
  }

  /** `solve`'s loop from pass `j` of its round `i` on, the cube being
      `start` after `calls`. Each round starts by stopping if the cross is
      complete; then the passes of `PLACEMENT` run in order, and a pass that
      throws ends the loop; the fifth round ends by throwing. */
  function LoopFrom(start: CubeState, calls: seq<Rotation>, placed: seq<bool>, i: int, j: int): (e: Effect)
    requires |placed| == 6 && 0 <= i <= 4 && 0 <= j <= |PLACEMENT|
    ensures Grows(calls, placed, e)
    ensures e.r.Ok? ==> CrossComplete(e.placed)
    decreases 4 - i, |PLACEMENT| - j
  {
    if j == 0 && CrossComplete(placed) then Effect(Pass, calls, placed)
    else if j == |PLACEMENT| then
      if i == 4 then Effect(Err(IllegalState("couldn't form white cross")), calls, placed)
      else LoopFrom(start, calls, placed, i + 1, 0)
    else
      var pass := PassFrom(PLACEMENT[j], start, calls, placed, 0);
      if pass.r.Err? then pass
      else
        var rest := LoopFrom(start, pass.calls, pass.placed, i, j + 1);
        ExtendsTransitive(calls, pass.calls, rest.calls);
        rest
  }

  /** The loop at a pass of an unfinished round: the pass's effect when it
      throws, and otherwise the loop from the next pass. */
  lemma LoopFromNext(start: CubeState, calls: seq<Rotation>, placed: seq<bool>, i: int, j: int, pass: Effect)
    requires |placed| == 6 && 0 <= i <= 4 && 0 <= j < |PLACEMENT|
    requires j == 0 ==> !CrossComplete(placed)
    requires pass == PassFrom(PLACEMENT[j], start, calls, placed, 0)
    ensures LoopFrom(start, calls, placed, i, j)
      == if pass.r.Err? then pass else LoopFrom(start, pass.calls, pass.placed, i, j + 1)
  {
  }

  /** The loop at the end of round `i`: it throws after the fifth round, and
      otherwise goes on with the next. */
  lemma LoopFromRoundEnd(start: CubeState, calls: seq<Rotation>, placed: seq<bool>, i: int)
    requires |placed| == 6 && 0 <= i <= 4
    ensures LoopFrom(start, calls, placed, i, |PLACEMENT|)
      == if i == 4 then Effect(Err(IllegalState("couldn't form white cross")), calls, placed)
         else LoopFrom(start, calls, placed, i + 1, 0)
  {
  }

  /** `solve`'s loop from pass `j` of its round `i` on, the cube being
      `start` after `calls`, ends as `whole` says. The equation is guarded by
      `Ask`, so that the solver unfolds the loop only in a proof that
      mentions `Ask`. */
  ghost predicate Leads(start: CubeState, calls: seq<Rotation>, placed: seq<bool>, i: int, j: int, whole: Effect)
  {
    forall k :: Ask(k) ==>
      |placed| == 6 && 0 <= i <= 4 && 0 <= j <= |PLACEMENT| && LoopFrom(start, calls, placed, i, j) == whole
  }

  /** `Leads` from the equation it guards. */
  lemma LeadsFrom(start: CubeState, calls: seq<Rotation>, placed: seq<bool>, i: int, j: int, whole: Effect)
    requires |placed| == 6 && 0 <= i <= 4 && 0 <= j <= |PLACEMENT| && LoopFrom(start, calls, placed, i, j) == whole
    ensures Leads(start, calls, placed, i, j, whole)
  {
  }

  /** A pass of a loop that leads to `whole`: when the pass throws, its
      effect is `whole`; otherwise the loop from the next pass still leads
      to `whole`. */
  lemma LeadsNext(start: CubeState, calls: seq<Rotation>, placed: seq<bool>, i: int, j: int, whole: Effect, pass: Effect)
    requires Leads(start, calls, placed, i, j, whole) && |placed| == 6 && 0 <= j < |PLACEMENT|
    requires j == 0 ==> !CrossComplete(placed)
    requires pass == PassFrom(PLACEMENT[j], start, calls, placed, 0)
    ensures pass.r.Err? ==> whole == pass
    ensures pass.r.Ok? ==> Leads(start, pass.calls, pass.placed, i, j + 1, whole)
  {
    assert Ask(0);
    LoopFromNext(start, calls, placed, i, j, pass);
  }

  /** The end of round `i` of a loop that leads to `whole`: after the fifth
      round `whole` is the throw, and otherwise the next round leads to
      `whole`. */
  lemma LeadsRoundEnd(start: CubeState, calls: seq<Rotation>, placed: seq<bool>, i: int, whole: Effect)
    requires Leads(start, calls, placed, i, |PLACEMENT|, whole)
    ensures i == 4 ==> whole == Effect(Err(IllegalState("couldn't form white cross")), calls, placed)
    ensures i != 4 ==> Leads(start, calls, placed, i + 1, 0, whole)
  {
    assert Ask(0);
    LoopFromRoundEnd(start, calls, placed, i);
  }

  /** A round of a loop that leads to `whole` that starts with the cross
      complete: `whole` is the pass it stops with. */
  lemma LeadsDone(start: CubeState, calls: seq<Rotation>, placed: seq<bool>, i: int, whole: Effect)
    requires Leads(start, calls, placed, i, 0, whole) && |placed| == 6 && CrossComplete(placed)
    ensures whole == Effect(Pass, calls, placed)
  {
    assert Ask(0);
    LoopFromDone(start, calls, placed, i);
  }

  /** Once the cross is complete, `solve`'s loop stops at once. */
  lemma LoopFromDone(start: CubeState, calls: seq<Rotation>, placed: seq<bool>, i: int)
    requires |placed| == 6 && 0 <= i <= 4 && CrossComplete(placed)
    ensures LoopFrom(start, calls, placed, i, 0) == Effect(Pass, calls, placed)
  {
  }

  /** `solve`, the cube being `start` after `calls`: the best WHITE turn,
      the pass that corrects the WHITE layer, then the rounds. */
  function SolveOf(start: CubeState, calls: seq<Rotation>, placed: seq<bool>): (e: Effect)
    requires |placed| == 6
    ensures Grows(calls, placed, e)
    ensures e.r.Ok? ==> CrossComplete(e.placed)
  {
    var best := BestTurn(After(start, calls), calls, placed);
    if best.r.Err? then best
    else
      var ensured := PassFrom(EnsureCorrect, start, best.calls, best.placed, 0);
      ExtendsTransitive(calls, best.calls, ensured.calls);
      if ensured.r.Err? then ensured
      else
        var rounds := LoopFrom(start, ensured.calls, ensured.placed, 0, 0);
        ExtendsTransitive(calls, ensured.calls, rounds.calls);
        rounds
  }

  /** `solve` in the order its parts run: the best turn's error, or the
      error of the correcting pass after it, or else the rounds after both. */
  lemma SolveOfSteps(start: CubeState, calls: seq<Rotation>, placed: seq<bool>, best: Effect, ensured: Effect)
    requires |placed| == 6 && best == BestTurn(After(start, calls), calls, placed)
    requires best.r.Ok? ==> ensured == PassFrom(EnsureCorrect, start, best.calls, best.placed, 0)
    ensures SolveOf(start, calls, placed)
      == if best.r.Err? then best
         else if ensured.r.Err? then ensured
         else LoopFrom(start, ensured.calls, ensured.placed, 0, 0)
  {
  }

  /** The vote loop of `rotateWhiteSideBest`: `distanceVote[d + 1]` counts
      the votes for distance `d`. */
  method TallyWhiteVotes(sides: CubeState) returns (distanceVote: array<int>, r: Outcome)
    ensures fresh(distanceVote) && distanceVote.Length == 4
    ensures var votes := WhiteVotes(sides, 4);
      if votes.Err? then r == Err(votes.error) else r.Ok? && distanceVote[..] == Tally(votes.value)
  {
    distanceVote := new int[4](_ => 0);
    var k := 0;
    while k < 4
      invariant 0 <= k <= 4
      invariant WhiteVotes(sides, k).Ok? && distanceVote[..] == Tally(WhiteVotes(sides, k).value)
    {
      r, k := CastWhiteVote(sides, k, distanceVote);
      if r.Err? {
        WhiteVotesFailureSticks(sides, k);
        return;
      }
    }
    r := Pass;
  }

  /** One pass of the vote loop: entry `k` casts its vote, if any, into
      `distanceVote`, or the distance throws; `next` is the entry after it. */
  method CastWhiteVote(sides: CubeState, k: int, distanceVote: array<int>) returns (r: Outcome, next: int)
    requires 0 <= k < 4 && distanceVote.Length == 4
    requires WhiteVotes(sides, k).Ok? && distanceVote[..] == Tally(WhiteVotes(sides, k).value)
    modifies distanceVote
    ensures next == k + 1
    ensures var votes := WhiteVotes(sides, next);
      if votes.Err? then r == Err(votes.error) else r.Ok? && distanceVote[..] == Tally(votes.value)
  {
    next := k + 1;
    ConnectionsWellFormed(WHITE);
    PoleRings(0);
    WhiteVotesStep(sides, k);
    var touch := Connections(WHITE)[k];
    var whiteSideEdge := EdgeColor(sides, WHITE, touch.side).value;
    if whiteSideEdge != WHITE {
      return Pass, next;
    }
    var touchingEdgeColor := sides[touch.side][touch.faces[1]];
    var distance := DistanceAroundWhite(touch.side, touchingEdgeColor);
    if distance.Err? {
      return Err(distance.error), next;
    }
    CountVote(distanceVote, WhiteVotes(sides, k).value, distance.value);
    r := Pass;
  }

  /** The best-move loop of `rotateWhiteSideBest`: the first offset with
      strictly the most votes, or none. */
  method BestOffset(distanceVote: array<int>) returns (bestMove: int)
    requires distanceVote.Length == 4
    ensures bestMove == VotedOffset(distanceVote[..])
  {
    var highestVotes := 0;
    bestMove := 0;
    for iDist := 0 to 4
      invariant var k := ArrayUtil.HighestIndex(distanceVote[..iDist]);
        && bestMove == (if k == -1 then 0 else k - 1)
        && highestVotes == (if k == -1 then 0 else distanceVote[k])
    {
      assert distanceVote[..iDist + 1][..iDist] == distanceVote[..iDist];
      var numVotes := distanceVote[iDist];
      if numVotes > highestVotes {
        highestVotes := numVotes;
        bestMove := iDist - 1;
      }
    }
    assert distanceVote[..4] == distanceVote[..];
  }

  /** `WhiteCrossStep`. */
  class WhiteCross {
    const base: SolveStep
    const inWhiteCross: array<bool>

    ghost predicate Valid()
      reads this, base, base.cube, base.cube.faces
    {
      base.Valid() && inWhiteCross.Length == 6
    }

    constructor(cube: Cube)
      requires cube.Valid()
      ensures Valid() && fresh(base) && fresh(inWhiteCross)
      ensures base.cube == cube && base.calls == [] && base.markers == map[] && base.start == cube.State()
      ensures forall i :: 0 <= i < 6 ==> !inWhiteCross[i]
    {
      base := new SolveStep(cube);
      inWhiteCross := new bool[6](_ => false);
    }

    /** `solve`: turn WHITE to the best offset, fix misplaced WHITE-layer
        edges, then run the four placement passes until all four side
        faces are flagged. A fifth round throws. `rounds` counts the rounds
        completed. */
    method Solve() returns (r: Outcome, ghost rounds: nat)
      requires Valid()
      modifies base, base.cube.faces, inWhiteCross
      ensures Valid() && base.start == old(base.start) && base.markers == old(base.markers)
      ensures Did(SolveOf(base.start, old(base.calls), old(inWhiteCross[..])), r, base.calls, inWhiteCross[..])
      ensures Monotone(old(inWhiteCross[..]), inWhiteCross[..])
      ensures rounds <= 5
      ensures r.Ok? ==> rounds <= 4
      ensures r.Ok? ==> inWhiteCross[RED] && inWhiteCross[ORANGE] && inWhiteCross[GREEN] && inWhiteCross[BLUE]
      ensures rounds == 5 ==> r.Err?
    {
      rounds := 0;
      ghost var calls, placed := base.calls, inWhiteCross[..];
      base.MadeCalls();
      r := RotateWhiteSideBest();
      ghost var best := Effect(r, base.calls, inWhiteCross[..]);
      if r.Err? {
        SolveOfSteps(base.start, calls, placed, best, best);
        return;
      }
      r := EnsureWhiteEdgesCorrect();
      ghost var ensured := Effect(r, base.calls, inWhiteCross[..]);
      if r.Ok? {
        r, rounds := PlaceUntilComplete();
      }
      SolveOfSteps(base.start, calls, placed, best, ensured);
    }

    /** `solve`'s loop: rounds of the four placement passes, in the order
        `PLACEMENT` lists them, until the cross is complete; the fifth round
        ends by throwing. `rounds` counts the rounds started. */
    method PlaceUntilComplete() returns (r: Outcome, ghost rounds: nat)
      requires Valid()
      modifies base, base.cube.faces, inWhiteCross
      ensures Valid() && base.start == old(base.start) && base.markers == old(base.markers)
      ensures Did(LoopFrom(base.start, old(base.calls), old(inWhiteCross[..]), 0, 0), r, base.calls, inWhiteCross[..])
      ensures rounds <= 5
      ensures r.Ok? ==> rounds <= 4
      ensures rounds == 5 ==> r.Err?
    {
      rounds := 0;
      ghost var whole := LoopFrom(base.start, base.calls, inWhiteCross[..], 0, 0);
      LeadsFrom(base.start, base.calls, inWhiteCross[..], 0, 0, whole);
      var i := 0;
      while true
        invariant Valid() && base.start == old(base.start) && base.markers == old(base.markers)
        invariant 0 <= i <= 4 && rounds == i
        invariant Leads(base.start, base.calls, inWhiteCross[..], i, 0, whole)
        decreases 5 - i
      {
        var complete := WhiteCrossComplete();
        if complete {
          LeadsDone(base.start, base.calls, inWhiteCross[..], i, whole);
          return Pass, rounds;
        }
        r, i := PlaceRound(i, whole);
        rounds := rounds + 1;
        if r.Err? {
          return;
        }
      }
    }

    /** One round of `solve`'s loop, its `i`-th, in a loop that leads to
        `whole`: the placement passes, then the round counter `i++ == 4`,
        which throws after the fifth round; `next` is the counter after it. */
    method PlaceRound(i: int, ghost whole: Effect) returns (r: Outcome, next: int)
      requires Valid() && 0 <= i <= 4 && !CrossComplete(inWhiteCross[..])
      requires Leads(base.start, base.calls, inWhiteCross[..], i, 0, whole)
      modifies base, base.cube.faces, inWhiteCross
      ensures Valid() && base.start == old(base.start) && base.markers == old(base.markers)
      ensures r.Err? ==> Did(whole, r, base.calls, inWhiteCross[..])
      ensures i == 4 ==> r.Err?
      ensures next == i + 1
      ensures r.Ok? ==> next <= 4 && Leads(base.start, base.calls, inWhiteCross[..], next, 0, whole)
    {
      next := i + 1;
      r := PlaceEdges(i, whole);
      if r.Err? {
        return;
      }
      LeadsRoundEnd(base.start, base.calls, inWhiteCross[..], i, whole);
      if i == 4 {
        return Err(IllegalState("couldn't form white cross")), next;
      }
    }

    /** The body of `solve`'s loop in its round `i`, in a loop that leads to
        `whole`: the placement passes in the order `PLACEMENT` lists them; a
        pass that throws ends the loop. */
    method PlaceEdges(ghost i: int, ghost whole: Effect) returns (r: Outcome)
      requires Valid() && !CrossComplete(inWhiteCross[..])
      requires Leads(base.start, base.calls, inWhiteCross[..], i, 0, whole)
      modifies base, base.cube.faces, inWhiteCross
      ensures Valid() && base.start == old(base.start) && base.markers == old(base.markers)
      ensures r.Err? ==> Did(whole, r, base.calls, inWhiteCross[..])
      ensures r.Ok? ==> Leads(base.start, base.calls, inWhiteCross[..], i, |PLACEMENT|, whole)
    {
      var j := 0;
      while j < |PLACEMENT|
        invariant Valid() && base.start == old(base.start) && base.markers == old(base.markers)
        invariant 0 <= j <= |PLACEMENT|
        invariant j == 0 ==> !CrossComplete(inWhiteCross[..])
        invariant Leads(base.start, base.calls, inWhiteCross[..], i, j, whole)
      {
        r, j := PlacePass(i, j, whole);
        if r.Err? {
          return;
        }
      }
      r := Pass;
    }

    /** Pass `j` of `PLACEMENT` in round `i` of a loop that leads to
        `whole`; `next` is the index of the pass after it. */
    method PlacePass(ghost i: int, j: int, ghost whole: Effect) returns (r: Outcome, next: int)
      requires Valid() && 0 <= j < |PLACEMENT| && (j == 0 ==> !CrossComplete(inWhiteCross[..]))
      requires Leads(base.start, base.calls, inWhiteCross[..], i, j, whole)
      modifies base, base.cube.faces, inWhiteCross
      ensures Valid() && base.start == old(base.start) && base.markers == old(base.markers)
      ensures r.Err? ==> Did(whole, r, base.calls, inWhiteCross[..])
      ensures next == j + 1
      ensures r.Ok? ==> Leads(base.start, base.calls, inWhiteCross[..], i, next, whole)
    {
      next := j + 1;
      LeadsNext(base.start, base.calls, inWhiteCross[..], i, j, whole,
        PassFrom(PLACEMENT[j], base.start, base.calls, inWhiteCross[..], 0));
      r := RunPass(PLACEMENT[j]);
    }

    /** The pass `kind` names. */
    method RunPass(kind: PassKind) returns (r: Outcome)
      requires Valid()
      modifies base, base.cube.faces, inWhiteCross
      ensures Valid() && base.start == old(base.start) && base.markers == old(base.markers)
      ensures Did(PassFrom(kind, base.start, old(base.calls), old(inWhiteCross[..]), 0), r, base.calls, inWhiteCross[..])
    {
      match kind
      case EnsureCorrect => r := EnsureWhiteEdgesCorrect();
      case SideTop => r := RotateSideTopWhiteEdges();
      case SideSide => r := RotateSideSideWhiteEdges();
      case SideBottom => r := RotateSideBottomWhiteEdges();
      case OnYellow => r := RotateWhiteEdgesOnYellow();
    }

    /** `rotateWhiteSideBest`: tally the votes of the WHITE-layer edges and
        turn WHITE by the offset that won. */
    method RotateWhiteSideBest() returns (r: Outcome)
      requires Valid()
      modifies base, base.cube.faces
      ensures Valid() && base.start == old(base.start) && base.markers == old(base.markers)
      ensures Did(BestTurn(old(base.cube.State()), old(base.calls), inWhiteCross[..]), r, base.calls, inWhiteCross[..])
    {
      var distanceVote;
      distanceVote, r := TallyWhiteVotes(base.cube.State());
      if r.Err? {
        return;
      }
      var bestMove := BestOffset(distanceVote);
      base.Rotate(WHITE, bestMove);
      r := Pass;
    }

    /** `ensureWhiteEdgesCorrect`: `EnsureWhiteEdgeCorrect` for each of
        WHITE's connections in turn. */
    method EnsureWhiteEdgesCorrect() returns (r: Outcome)
      requires Valid()
      modifies base, base.cube.faces, inWhiteCross
      ensures Valid() && base.start == old(base.start) && base.markers == old(base.markers)
      ensures Did(PassFrom(EnsureCorrect, base.start, old(base.calls), old(inWhiteCross[..]), 0), r, base.calls, inWhiteCross[..])
    {
      ConnectionsWellFormed(WHITE);
      PoleRings(0);
      ghost var pass := PassFrom(EnsureCorrect, base.start, base.calls, inWhiteCross[..], 0);
      PassLeadsFrom(EnsureCorrect, base.start, base.calls, inWhiteCross[..], pass);
      for k := 0 to 4
        invariant Valid() && base.start == old(base.start) && base.markers == old(base.markers)
        invariant PassLeads(EnsureCorrect, base.start, base.calls, inWhiteCross[..], k, pass)
      {
        base.Reaches();
        PassLeadsNext(EnsureCorrect, base.start, base.calls, inWhiteCross[..], k, pass, base.cube.State(),
          EnsureStep(base.cube.State(), base.calls, inWhiteCross[..], Connections(WHITE)[k]));
        r := EnsureWhiteEdgeCorrect(Connections(WHITE)[k]);
        if r.Err? {
          return;
        }
      }
      PassLeadsDone(EnsureCorrect, base.start, base.calls, inWhiteCross[..], pass);
      r := Pass;
    }

    /** One connection of `ensureWhiteEdgesCorrect`. */
    method EnsureWhiteEdgeCorrect(connection: Connection) returns (r: Outcome)
      requires Valid() && IsSideFace(connection.side) && |connection.faces| == 3
      modifies base, base.cube.faces, inWhiteCross
      ensures Valid() && base.start == old(base.start) && base.markers == old(base.markers)
      ensures Did(EnsureStep(old(base.cube.State()), old(base.calls), old(inWhiteCross[..]), connection),
                  r, base.calls, inWhiteCross[..])
    {
      var sides := base.cube.State();
      var whiteSideEdge := EdgeColor(sides, WHITE, connection.side);
      if whiteSideEdge != Ok(WHITE) {
        return Pass;
      }
      var connectedEdge := sides[connection.side][connection.faces[1]];
      var distance :- DistanceAroundWhite(connection.side, connectedEdge);
      if distance == 0 {
        inWhiteCross[connection.side] := true;
        return Pass;
      }
      base.Rotate(connection.side, 2);
      base.Rotate(YELLOW, -distance);
      base.Rotate(connectedEdge, 2);
      inWhiteCross[connectedEdge] := true;
      r := Pass;
    }

    /** `rotateSideTopWhiteEdges`: `SideTopWhiteEdge` for each of WHITE's
        connections in turn. */
    method RotateSideTopWhiteEdges() returns (r: Outcome)
      requires Valid()
      modifies base, base.cube.faces, inWhiteCross
      ensures Valid() && base.start == old(base.start) && base.markers == old(base.markers)
      ensures Did(PassFrom(SideTop, base.start, old(base.calls), old(inWhiteCross[..]), 0), r, base.calls, inWhiteCross[..])
    {
      ConnectionsWellFormed(WHITE);
      PoleRings(0);
      ghost var pass := PassFrom(SideTop, base.start, base.calls, inWhiteCross[..], 0);
      PassLeadsFrom(SideTop, base.start, base.calls, inWhiteCross[..], pass);
      for k := 0 to 4
        invariant Valid() && base.start == old(base.start) && base.markers == old(base.markers)
        invariant PassLeads(SideTop, base.start, base.calls, inWhiteCross[..], k, pass)
      {
        base.Reaches();
        PassLeadsNext(SideTop, base.start, base.calls, inWhiteCross[..], k, pass, base.cube.State(),
          TopStep(base.cube.State(), base.calls, inWhiteCross[..], Connections(WHITE)[k].side));
        r := SideTopWhiteEdge(Connections(WHITE)[k].side);
        if r.Err? {
          return;
        }
      }
      PassLeadsDone(SideTop, base.start, base.calls, inWhiteCross[..], pass);
      r := Pass;
    }

    /** One connection of `rotateSideTopWhiteEdges`. */
    method SideTopWhiteEdge(side: Color) returns (r: Outcome)
      requires Valid() && IsSideFace(side)
      modifies base, base.cube.faces, inWhiteCross
      ensures Valid() && base.start == old(base.start) && base.markers == old(base.markers)
      ensures Did(TopStep(old(base.cube.State()), old(base.calls), old(inWhiteCross[..]), side), r, base.calls, inWhiteCross[..])
    {
      var sides := base.cube.State();
      var centerTop := sides[side][TOP_MIDDLE];
      if centerTop != WHITE {
        return Pass;
      }
      var targetSide := EdgeColor(sides, YELLOW, side).value;
      var distance :- DistanceAroundWhite(targetSide, side);
      var connectedSide := side;
      if distance == 0 || distance == 2 {
        PoleRings(side);
        base.Rotate(YELLOW, 1);
        distance := distance - 1;
        connectedSide := AdjacentWithOffset(YELLOW, connectedSide, 1).value.side;
      }
      var rotationDirection := if distance < 0 then 1 else -1;
      TurnDown(connectedSide, targetSide, rotationDirection);
      r := Pass;
    }

    /** The rest of `SideTopWhiteEdge`: `TurnedDown`. */
    method TurnDown(connected: Color, target: Color, direction: int)
      requires Valid()
      modifies base, base.cube.faces, inWhiteCross
      ensures Valid() && base.start == old(base.start) && base.markers == old(base.markers)
      ensures Did(TurnedDown(old(base.calls), old(inWhiteCross[..]), connected, target, direction), Pass, base.calls, inWhiteCross[..])
    {
      base.Rotate(connected, direction);
      base.Rotate(target, -direction);
      if inWhiteCross[connected] {
        base.Rotate(connected, -direction);
      }
      inWhiteCross[target] := true;
    }

    /** `rotateSideSideWhiteEdges`: `SideSideWhiteEdge` for each connection,
        left facelet first, then right. */
    method RotateSideSideWhiteEdges() returns (r: Outcome)
      requires Valid()
      modifies base, base.cube.faces, inWhiteCross
      ensures Valid() && base.start == old(base.start) && base.markers == old(base.markers)
      ensures Did(PassFrom(SideSide, base.start, old(base.calls), old(inWhiteCross[..]), 0), r, base.calls, inWhiteCross[..])
    {
      ghost var pass := PassFrom(SideSide, base.start, base.calls, inWhiteCross[..], 0);
      PassLeadsFrom(SideSide, base.start, base.calls, inWhiteCross[..], pass);
      ghost var i := 0;
      for k := 0 to 4
        invariant Valid() && base.start == old(base.start) && base.markers == old(base.markers)
        invariant i == 2 * k
        invariant PassLeads(SideSide, base.start, base.calls, inWhiteCross[..], i, pass)
      {
        for direction := 0 to 2
          invariant Valid() && base.start == old(base.start) && base.markers == old(base.markers)
          invariant i == 2 * k + direction
          invariant PassLeads(SideSide, base.start, base.calls, inWhiteCross[..], i, pass)
        {
          r := SideSideStep(k, direction, pass);
          if r.Err? {
            return;
          }
          i := i + 1;
        }
      }
      PassLeadsDone(SideSide, base.start, base.calls, inWhiteCross[..], pass);
      r := Pass;
    }

    /** `SideSideWhiteEdge` at direction `direction` of connection `k`, as
        step `2 * k + direction` of a side-side pass that leads to `pass`. */
    method SideSideStep(k: int, direction: int, ghost pass: Effect) returns (r: Outcome)
      requires Valid() && 0 <= k < 4 && 0 <= direction < 2
      requires PassLeads(SideSide, base.start, base.calls, inWhiteCross[..], 2 * k + direction, pass)
      modifies base, base.cube.faces, inWhiteCross
      ensures Valid() && base.start == old(base.start) && base.markers == old(base.markers)
      ensures r.Err? ==> Did(pass, r, base.calls, inWhiteCross[..])
      ensures r.Ok? ==> PassLeads(SideSide, base.start, base.calls, inWhiteCross[..], 2 * k + direction + 1, pass)
    {
      base.Reaches();
      SideSideLeadsNext(base.start, base.calls, inWhiteCross[..], 2 * k + direction, pass, base.cube.State());
      r := SideSideWhiteEdge(k, direction);
    }

    /** Direction `direction` of WHITE's connection `k` in
        `rotateSideSideWhiteEdges`. */
    method SideSideWhiteEdge(k: int, direction: int) returns (r: Outcome)
      requires Valid() && 0 <= k < 4 && 0 <= direction < 2
      modifies base, base.cube.faces, inWhiteCross
      ensures Valid() && base.start == old(base.start) && base.markers == old(base.markers)
      ensures Did(SideStep(old(base.cube.State()), old(base.calls), old(inWhiteCross[..]), 2 * k + direction),
                  r, base.calls, inWhiteCross[..])
    {
      ConnectionsWellFormed(WHITE);
      assert (2 * k + direction) / 2 == k && (2 * k + direction) % 2 == direction;
      var side := Connections(WHITE)[k].side;
      var SIDES := [7, 3];
      var ROTATE := [1, -1];
      var sides := base.cube.State();
      var colors := sides[side];
      var place := SIDES[direction];
      var oppositePlace := SIDES[(direction + 1) % 2];
      var rotation := ROTATE[direction];
      var oppositeRotation := ROTATE[(direction + 1) % 2];
      if colors[place] != WHITE {
        return Pass;
      }
      PoleRings(side);
      var connectedSideColor := AdjacentWithOffset(YELLOW, side, rotation).value.side;
      var edgeColor := sides[connectedSideColor][oppositePlace];
      if connectedSideColor == edgeColor {
        base.Rotate(connectedSideColor, rotation);
        inWhiteCross[edgeColor] := true;
        return Pass;
      }
      r := CarrySideEdge(connectedSideColor, edgeColor, rotation);
    }

    /** The rest of `SideSideWhiteEdge` for an edge that belongs elsewhere:
        `CarriedSideEdge`. */
    method CarrySideEdge(connected: Color, edge: Color, rotation: int) returns (r: Outcome)
      requires Valid()
      modifies base, base.cube.faces, inWhiteCross
      ensures Valid() && base.start == old(base.start) && base.markers == old(base.markers)
      ensures Did(CarriedSideEdge(old(base.calls), old(inWhiteCross[..]), connected, edge, rotation), r, base.calls, inWhiteCross[..])
    {
      base.Rotate(connected, -rotation);
      var distance :- DistanceAroundWhite(edge, connected);
      base.Rotate(YELLOW, distance);
      if inWhiteCross[connected] {
        base.Rotate(connected, rotation);
      }
      base.Rotate(edge, 2);
      inWhiteCross[edge] := true;
      r := Pass;
    }

    /** `rotateSideBottomWhiteEdges`: `SideBottomWhiteEdge` for each of
        WHITE's connections in turn. */
    method RotateSideBottomWhiteEdges() returns (r: Outcome)
      requires Valid()
      modifies base, base.cube.faces, inWhiteCross
      ensures Valid() && base.start == old(base.start) && base.markers == old(base.markers)
      ensures Did(PassFrom(SideBottom, base.start, old(base.calls), old(inWhiteCross[..]), 0), r, base.calls, inWhiteCross[..])
    {
      ConnectionsWellFormed(WHITE);
      PoleRings(0);
      ghost var pass := PassFrom(SideBottom, base.start, base.calls, inWhiteCross[..], 0);
      PassLeadsFrom(SideBottom, base.start, base.calls, inWhiteCross[..], pass);
      for k := 0 to 4
        invariant Valid() && base.start == old(base.start) && base.markers == old(base.markers)
        invariant PassLeads(SideBottom, base.start, base.calls, inWhiteCross[..], k, pass)
      {
        base.Reaches();
        PassLeadsNext(SideBottom, base.start, base.calls, inWhiteCross[..], k, pass, base.cube.State(),
          BottomStep(base.cube.State(), base.calls, inWhiteCross[..], Connections(WHITE)[k].side));
        r := SideBottomWhiteEdge(Connections(WHITE)[k].side);
        if r.Err? {
          return;
        }
      }
      PassLeadsDone(SideBottom, base.start, base.calls, inWhiteCross[..], pass);
      r := Pass;
    }

    /** One connection of `rotateSideBottomWhiteEdges`. */
    method SideBottomWhiteEdge(side: Color) returns (r: Outcome)
      requires Valid() && IsSideFace(side)
      modifies base, base.cube.faces, inWhiteCross
      ensures Valid() && base.start == old(base.start) && base.markers == old(base.markers)
      ensures Did(BottomStep(old(base.cube.State()), old(base.calls), old(inWhiteCross[..]), side), r, base.calls, inWhiteCross[..])
    {
      var sides := base.cube.State();
      var centerBottom := sides[side][5];
      if centerBottom != WHITE {
        return Pass;
      }
      PoleRings(side);
      var targetColor := EdgeColor(sides, WHITE, side).value;
      var sideToLeft := AdjacentWithOffset(YELLOW, side, 1).value.side;
      var sideToRight := AdjacentWithOffset(YELLOW, side, -1).value.side;
      r := PlaceBottomEdge(side, targetColor, sideToLeft, sideToRight);
    }

    /** The rest of `SideBottomWhiteEdge`, once the edge's target side and
        the neighbours of `side` are known. */
    method PlaceBottomEdge(side: Color, target: Color, toLeft: Color, toRight: Color) returns (r: Outcome)
      requires Valid()
      modifies base, base.cube.faces, inWhiteCross
      ensures Valid() && base.start == old(base.start) && base.markers == old(base.markers)
      ensures Did(PlacedBottomEdge(old(base.calls), old(inWhiteCross[..]), side, target, toLeft, toRight),
                  r, base.calls, inWhiteCross[..])
    {
      if target == toLeft {
        base.Clockwise(side);
        base.CounterClockwise(toLeft);
        inWhiteCross[target] := true;
        return Pass;
      } else if target == toRight {
        base.CounterClockwise(side);
        base.Clockwise(toRight);
        inWhiteCross[target] := true;
        return Pass;
      }
      r := CarryBottomEdge(side, target, toLeft);
    }

    /** The rest of `SideBottomWhiteEdge` for an edge that belongs to neither
        neighbour: `CarriedBottomEdge`. */
    method CarryBottomEdge(side: Color, target: Color, toLeft: Color) returns (r: Outcome)
      requires Valid()
      modifies base, base.cube.faces, inWhiteCross
      ensures Valid() && base.start == old(base.start) && base.markers == old(base.markers)
      ensures Did(CarriedBottomEdge(old(base.calls), old(inWhiteCross[..]), side, target, toLeft), r, base.calls, inWhiteCross[..])
    {
      base.Clockwise(side);
      base.CounterClockwise(toLeft);
      var distance :- DistanceAroundWhite(target, toLeft);
      base.Rotate(YELLOW, distance);
      if inWhiteCross[toLeft] {
        base.Clockwise(toLeft);
      }
      base.Rotate(target, 2);
      inWhiteCross[target] := true;
      r := Pass;
    }

    /** `rotateWhiteEdgesOnYellow`: `WhiteEdgeOnYellow` for each of WHITE's
        connections in turn. */
    method RotateWhiteEdgesOnYellow() returns (r: Outcome)
      requires Valid()
      modifies base, base.cube.faces, inWhiteCross
      ensures Valid() && base.start == old(base.start) && base.markers == old(base.markers)
      ensures Did(PassFrom(OnYellow, base.start, old(base.calls), old(inWhiteCross[..]), 0), r, base.calls, inWhiteCross[..])
    {
      ConnectionsWellFormed(WHITE);
      PoleRings(0);
      ghost var pass := PassFrom(OnYellow, base.start, base.calls, inWhiteCross[..], 0);
      PassLeadsFrom(OnYellow, base.start, base.calls, inWhiteCross[..], pass);
      for k := 0 to 4
        invariant Valid() && base.start == old(base.start) && base.markers == old(base.markers)
        invariant PassLeads(OnYellow, base.start, base.calls, inWhiteCross[..], k, pass)
      {
        base.Reaches();
        PassLeadsNext(OnYellow, base.start, base.calls, inWhiteCross[..], k, pass, base.cube.State(),
          YellowStep(base.cube.State(), base.calls, inWhiteCross[..], Connections(WHITE)[k].side));
        r := WhiteEdgeOnYellow(Connections(WHITE)[k].side);
        if r.Err? {
          return;
        }
      }
      PassLeadsDone(OnYellow, base.start, base.calls, inWhiteCross[..], pass);
      r := Pass;
    }

    /** One connection of `rotateWhiteEdgesOnYellow`. */
    method WhiteEdgeOnYellow(side: Color) returns (r: Outcome)
      requires Valid() && IsSideFace(side)
      modifies base, base.cube.faces, inWhiteCross
      ensures Valid() && base.start == old(base.start) && base.markers == old(base.markers)
      ensures Did(YellowStep(old(base.cube.State()), old(base.calls), old(inWhiteCross[..]), side), r, base.calls, inWhiteCross[..])
    {
      var sides := base.cube.State();
      var connectingYellow := EdgeColor(sides, YELLOW, side);
      if connectingYellow != Ok(WHITE) {
        return Pass;
      }
      var targetColor := sides[side][TOP_MIDDLE];
      var distance :- DistanceAroundWhite(targetColor, side);
      base.Rotate(YELLOW, distance);
      base.Rotate(targetColor, 2);
      inWhiteCross[targetColor] := true;
      r := Pass;
    }

    /** `whiteCrossComplete`: RED, ORANGE, GREEN and BLUE are all flagged. */
    method WhiteCrossComplete() returns (complete: bool)
      requires Valid()
      ensures complete <==> CrossComplete(inWhiteCross[..])
    {
      var sides := [RED, ORANGE, GREEN, BLUE];
      for k := 0 to 4
        invariant forall i :: 0 <= i < k ==> inWhiteCross[sides[i]]
      {
        if !inWhiteCross[sides[k]] {
          return false;
        }
      }
      assert inWhiteCross[sides[0]] && inWhiteCross[sides[1]] && inWhiteCross[sides[2]] && inWhiteCross[sides[3]];
      return true;
    }
  }
}
