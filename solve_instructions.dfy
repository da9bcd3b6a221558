/** The aggregate a solve builds: one move list shared by the phases, run in
    order on one cube, and the position in that list where each phase's
    moves begin. */
module Instructions {
  import opened Outcomes
  import opened Moves
  import opened Cubes
  import opened SolveSteps
  import WhiteCrossPhase
  import WhiteCornersPhase
  import SecondLayerPhase
  import YellowCrossPhase
  import YellowEdgesPhase
  import PositionYellowCornersPhase
  import OrientYellowCornersPhase

  /** The seven phases of the beginner method. */
  datatype Stage =
    | WhiteCrossStage
    | WhiteCornersStage
    | SecondLayerStage
    | YellowCrossStage
    | YellowEdgesStage
    | PositionYellowCornersStage
    | OrientYellowCornersStage

  /** The phases in the order a solve runs them. */
  const STAGES: seq<Stage> := [
    WhiteCrossStage, WhiteCornersStage, SecondLayerStage, YellowCrossStage,
    YellowEdgesStage, PositionYellowCornersStage, OrientYellowCornersStage
  ]

  /** `stepId`: the key a phase's start is recorded under, the phase's name
      as a lower-camel-case identifier (`yellowCross`). */
  function StepId(stage: Stage): (id: string)
    ensures |id| > 0 && 'a' <= id[0] <= 'z'
  {
    match stage
    case WhiteCrossStage => "whiteCross"
    case WhiteCornersStage => "whiteCorners"
    case SecondLayerStage => "secondLayer"
    case YellowCrossStage => "yellowCross"
    case YellowEdgesStage => "yellowEdges"
    case PositionYellowCornersStage => "positionYellowCorners"
    case OrientYellowCornersStage => "orientYellowCorners"
  }

  /** The phase a key belongs to: the inverse of `StepId`. */
  function StageOfId(id: string): (r: Option<Stage>)
    ensures r.Some? ==> StepId(r.value) == id
    ensures forall stage :: StepId(stage) == id ==> r == Some(stage)
  {
    if id == "whiteCross" then Some(WhiteCrossStage)
    else if id == "whiteCorners" then Some(WhiteCornersStage)
    else if id == "secondLayer" then Some(SecondLayerStage)
    else if id == "yellowCross" then Some(YellowCrossStage)
    else if id == "yellowEdges" then Some(YellowEdgesStage)
    else if id == "positionYellowCorners" then Some(PositionYellowCornersStage)
    else if id == "orientYellowCorners" then Some(OrientYellowCornersStage)
    else None
  }

  /** Different phases are recorded under different keys, so no phase of a
      solve overwrites another's start. */
  lemma {:induction false} StepIdsDistinct(a: Stage, b: Stage)
    ensures StepId(a) == StepId(b) <==> a == b
  {
    if StepId(a) == StepId(b) {
      assert StageOfId(StepId(a)) == Some(a) && StageOfId(StepId(b)) == Some(b);
    }
  }

  /** Every phase appears once in a solve, and every position names a
      different key. */
  lemma {:induction false} StagesDistinct(i: int, j: int)
    requires 0 <= i < |STAGES| && 0 <= j < |STAGES|
    ensures StepId(STAGES[i]) == StepId(STAGES[j]) <==> i == j
  {
    StepIdsDistinct(STAGES[i], STAGES[j]);
  }

  /** `SolveInstructions`: the moves of a solve and the start of each phase
      in them. Markers of the phases are not carried over. */
  class SolveInstructions {
    var moves: seq<Move>
    var stageIndices: map<string, int>

    /** Every recorded start lies within the moves. */
    predicate IndicesInRange()
      reads this
    {
      forall id :: id in stageIndices ==> 0 <= stageIndices[id] <= |moves|
    }

    constructor()
      ensures moves == [] && stageIndices == map[]
      ensures IndicesInRange()
    {
      moves := [];
      stageIndices := map[];
    }

    /** `runStep`: record under the phase's key where its moves will begin,
        replacing any earlier entry for that key; run the phase on `cube`;
        then append its moves. A phase that fails leaves its start recorded,
        adds no moves and may have turned the cube. The moves a phase
        appends are `added`, one per quarter turn in `turns`, and `cube`
        is its old state with `turns` applied. */
    method RunStep(stage: Stage, cube: Cube) returns (r: Outcome, ghost added: seq<Move>, ghost turns: seq<QuarterTurn>)
      requires cube.Valid()
      modifies this, cube.faces
      ensures cube.Valid()
      ensures stageIndices == old(stageIndices)[StepId(stage) := |old(moves)|]
      ensures moves == old(moves) + (if r.Ok? then added else [])
      ensures r.Ok? ==> Records(added, turns) && Replays(cube.State(), old(cube.State()), turns)
      ensures old(IndicesInRange()) ==> IndicesInRange()
    {
      stageIndices := stageIndices[StepId(stage) := |moves|];
      var base;
      r, base := Run(stage, cube);
      added, turns := base.moves, base.turns;
      if r.Err? {
        return;
      }
      moves := moves + base.moves;
    }

    /** The seven phases in order on one cube, through `runStep`, stopping
        at the first that fails. Each phase's start is recorded, the starts
        follow the order of the phases, the moves only grow, and the moves
        appended record `turns`; after a full solve the cube is its old state
        with `turns` applied. */
    method Unscramble(cube: Cube) returns (r: Outcome, ghost turns: seq<QuarterTurn>)
      requires cube.Valid()
      modifies this, cube.faces
      ensures cube.Valid()
      ensures |old(moves)| <= |moves| && moves[..|old(moves)|] == old(moves)
      ensures Records(moves[|old(moves)|..], turns)
      ensures r.Ok? ==> Replays(cube.State(), old(cube.State()), turns)
      ensures r.Ok? ==> forall i :: 0 <= i < |STAGES| ==> StepId(STAGES[i]) in stageIndices
      ensures r.Ok? ==> forall i, j :: 0 <= i <= j < |STAGES| ==>
        |old(moves)| <= stageIndices[StepId(STAGES[i])] <= stageIndices[StepId(STAGES[j])] <= |moves|
      ensures old(IndicesInRange()) ==> IndicesInRange()
    {
      turns := [];
      assert moves[|moves|..] == [];
      for k := 0 to |STAGES|
        invariant cube.Valid()
        invariant |old(moves)| <= |moves| && moves[..|old(moves)|] == old(moves)
        invariant Records(moves[|old(moves)|..], turns)
        invariant Replays(cube.State(), old(cube.State()), turns)
        invariant forall i :: 0 <= i < k ==> StepId(STAGES[i]) in stageIndices
        invariant forall i, j :: 0 <= i <= j < k ==>
          |old(moves)| <= stageIndices[StepId(STAGES[i])] <= stageIndices[StepId(STAGES[j])] <= |moves|
        invariant old(IndicesInRange()) ==> IndicesInRange()
      {
        ghost var before, state := moves, cube.State();
        ghost var added, more;
        r, added, more := RunStep(STAGES[k], cube);
        if r.Err? {
          return;
        }
        forall i | 0 <= i < k
          ensures StepId(STAGES[i]) != StepId(STAGES[k])
        {
          StagesDistinct(i, k);
        }
        assert moves[..|old(moves)|] == before[..|old(moves)|];
        assert moves[|old(moves)|..] == before[|old(moves)|..] + added;
        RecordsConcat(before[|old(moves)|..], added, turns, more);
        ReplaysConcat(cube.State(), state, old(cube.State()), turns, more);
        turns := turns + more;
      }
      r := Pass;
    }
  }

  /** `step.solve()` on a new step of phase `stage` over `cube`: the step
      ends valid, over `cube`, started from the cube as it was. */
  method Run(stage: Stage, cube: Cube) returns (r: Outcome, base: SolveStep)
    requires cube.Valid()
    modifies cube.faces
    ensures fresh(base) && base.cube == cube && base.Valid() && base.start == old(cube.State())
  {
    match stage {
      case WhiteCrossStage =>
        var step := new WhiteCrossPhase.WhiteCross(cube);
        ghost var count;
        r, count := step.Solve();
        base := step.base;
      case WhiteCornersStage =>
        var step := new WhiteCornersPhase.WhiteCorners(cube);
        r := step.Solve();
        base := step.base;
      case SecondLayerStage =>
        var step := new SecondLayerPhase.SecondLayer(cube);
        r := step.Solve();
        base := step.base;
      case YellowCrossStage =>
        var step := new YellowCrossPhase.YellowCross(cube);
        ghost var count;
        r, count := step.Solve();
        base := step.base;
      case YellowEdgesStage =>
        var step := new YellowEdgesPhase.YellowEdges(cube);
        r := step.Solve();
        base := step.base;
      case PositionYellowCornersStage =>
        var step := new PositionYellowCornersPhase.PositionYellowCorners(cube);
        ghost var count;
        r, count := step.Solve();
        base := step.base;
      case OrientYellowCornersStage =>
        var step := new OrientYellowCornersPhase.OrientYellowCorners(cube);
        ghost var count;
        r, count := step.Solve();
        base := step.base;
    }
  }
}
