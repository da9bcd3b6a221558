/** What every solving phase shares: the side-distance table, and a step
    object that records each quarter turn it makes on the shared cube as a
    move, in order, together with named checkpoints ("markers"). */
module SolveSteps {
  import opened Outcomes
  import opened FaceColor
  import opened Moves
  import opened CubeTopology
  import opened Cubes
  import ArrayUtil

  // ---- distances around WHITE and YELLOW ----

  /** The four sides that touch both WHITE and YELLOW. */
  predicate IsSideFace(c: int)
  {
    c == RED || c == ORANGE || c == GREEN || c == BLUE
  }

  /** `SIDE_DISTANCES`: row `from`, column `to`; 99 marks a pair with no distance. */
  const SIDE_DISTANCES: seq<seq<int>> := [
    [99, 99, 99, 99, 99, 99],
    [99,  0,  2, 99,  1, -1],
    [99,  2,  0, 99, -1,  1],
    [99, 99, 99, 99, 99, 99],
    [99, -1,  1, 99,  0,  2],
    [99,  1, -1, 99,  2,  0]
  ]

  /** The failure of a distance between faces that are not both side
      faces, for colours in range. */
  const NO_DISTANCE := IndexOutOfBounds("can't find distance between sides")

  /** `distanceAroundWhite(from, to)` (and WhiteCrossStep's `sideDistance`,
      which holds the same table): the table entry, or an index error for a
      pair outside the four side faces. */
  function DistanceAroundWhite(fromSide: int, toSide: int): (r: Result<int>)
    ensures r.Ok? <==> IsSideFace(fromSide) && IsSideFace(toSide)
    ensures r.Ok? ==> -1 <= r.value <= 2
    ensures r.Err? ==> r.error.IndexOutOfBounds?
  {
    if !(0 <= fromSide < 6 && 0 <= toSide < 6) then Err(IndexOutOfBounds("index out of bounds for length 6"))
    else
      var distance := SIDE_DISTANCES[fromSide][toSide];
      if distance == 99 then Err(IndexOutOfBounds("can't find distance between sides"))
      else Ok(distance)
  }

  /** `distanceAroundYellow(from, to)`: the WHITE table read backwards. */
  function DistanceAroundYellow(fromSide: int, toSide: int): (r: Result<int>)
    ensures r == DistanceAroundWhite(toSide, fromSide)
    ensures r.Ok? <==> IsSideFace(fromSide) && IsSideFace(toSide)
  {
    DistanceAroundWhite(toSide, fromSide)
  }

  /** The four sides around WHITE, and around YELLOW, are the side faces,
      and every side face appears in both lists. */
  lemma PoleRings(c: int)
    ensures forall j :: 0 <= j < 4 ==> IsSideFace(Connections(WHITE)[j].side)
    ensures forall j :: 0 <= j < 4 ==> IsSideFace(Connections(YELLOW)[j].side)
    ensures IsSideFace(c) ==> EntryIndex(WHITE, c) >= 0 && EntryIndex(YELLOW, c) >= 0
  {
  }

  /** The sides round YELLOW, in the order of YELLOW's list. */
  const YELLOW_RING: seq<Color> := [RED, BLUE, ORANGE, GREEN]

  /** `YELLOW_RING` is YELLOW's list of neighbours, each touching YELLOW
      with its top row, so with its `TOP_MIDDLE` edge facelet. */
  lemma YellowRing(k: int)
    requires 0 <= k < 4
    ensures Connections(YELLOW)[k] == TopOf(YELLOW_RING[k]) && IsSideFace(YELLOW_RING[k])
    ensures |Connections(YELLOW)[k].faces| == 3 && Connections(YELLOW)[k].faces[1] == TOP_MIDDLE
  {
  }

  /** A number of quarter turns, in -1..2, that has the same effect as `k`. */
  function Wrap(k: int): (d: int)
    ensures -1 <= d <= 2 && (k - d) % 4 == 0
  {
    var m := k % 4;
    if m == 3 then -1 else m
  }

  /** The table is the signed number of places from `from` to `to` in WHITE's
      ring of neighbours, reduced to -1..2. */
  lemma DistanceIsRingOffset(a: Color, b: Color)
    requires IsSideFace(a) && IsSideFace(b)
    ensures DistanceAroundWhite(a, b) == Ok(Wrap(EntryIndex(WHITE, b) - EntryIndex(WHITE, a)))
  {
  }

  /** Stepping `distanceAroundWhite(a, b)` places on from `a` in WHITE's ring
      reaches `b`; likewise in YELLOW's ring for `distanceAroundYellow`. */
  lemma {:induction false} DistanceReaches(a: Color, b: Color)
    requires IsSideFace(a) && IsSideFace(b)
    ensures Connections(WHITE)[(EntryIndex(WHITE, a) + DistanceAroundWhite(a, b).value) % 4].side == b
    ensures Connections(YELLOW)[(EntryIndex(YELLOW, a) + DistanceAroundYellow(a, b).value) % 4].side == b
  {
    DistanceIsRingOffset(a, b);
    DistanceIsRingOffset(b, a);
  }

  /** Each side is 0 from itself, opposite sides are 2 apart, and going
      there and back is a whole number of revolutions. */
  lemma DistanceLaws(a: Color, b: Color)
    requires IsSideFace(a) && IsSideFace(b)
    ensures DistanceAroundWhite(a, a) == Ok(0)
    ensures b == Opposite(a) <==> DistanceAroundWhite(a, b) == Ok(2)
    ensures (DistanceAroundWhite(a, b).value + DistanceAroundWhite(b, a).value) % 4 == 0
  {
  }

  // ---- offset votes ----

  /** How many of `ds` equal `v`. */
  function Count(ds: seq<int>, v: int): (n: nat)
    ensures n <= |ds|
  {
    if ds == [] then 0 else Count(ds[..|ds| - 1], v) + (if ds[|ds| - 1] == v then 1 else 0)
  }

  /** `distanceVote`: the votes cast for each distance -1..2, stored at the
      distance plus one. */
  function Tally(ds: seq<int>): (t: seq<int>)
    ensures |t| == 4
  {
    [Count(ds, -1), Count(ds, 0), Count(ds, 1), Count(ds, 2)]
  }

  /** Casting one more vote adds one to its own slot and nothing else. */
  lemma TallyAppend(ds: seq<int>, d: int)
    requires -1 <= d <= 2
    ensures Tally(ds + [d]) == Tally(ds)[d + 1 := Tally(ds)[d + 1] + 1]
  {
    assert (ds + [d])[..|ds|] == ds;
  }

  /** `distanceVote[d + 1]++`: the array holding the tally of `ds` comes to
      hold the tally of `ds` with one more vote for `d`. */
  method CountVote(distanceVote: array<int>, ghost ds: seq<int>, d: int)
    requires distanceVote.Length == 4 && -1 <= d <= 2 && distanceVote[..] == Tally(ds)
    modifies distanceVote
    ensures distanceVote[..] == Tally(ds + [d])
  {
    TallyAppend(ds, d);
    distanceVote[d + 1] := distanceVote[d + 1] + 1;
  }

  /** Every distance in -1..2 is counted once: the slots add up to the
      number of votes. */
  lemma {:induction false} TallyCountsEveryVote(ds: seq<int>)
    requires forall i :: 0 <= i < |ds| ==> -1 <= ds[i] <= 2
    ensures Tally(ds)[0] + Tally(ds)[1] + Tally(ds)[2] + Tally(ds)[3] == |ds|
  {
    if ds != [] {
      TallyCountsEveryVote(ds[..|ds| - 1]);
    }
  }

  /** The number of turns a vote settles on: no turn when no distance got a
      vote, otherwise a distance with the most votes and strictly more than
      every smaller distance (the smallest such on a tie). */
  function VotedOffset(votes: seq<int>): (d: int)
    ensures (forall i :: 0 <= i < |votes| ==> votes[i] <= 0) ==> d == 0
    ensures (exists i :: 0 <= i < |votes| && votes[i] > 0) ==>
      && 0 <= d + 1 < |votes| && votes[d + 1] > 0
      && (forall i :: 0 <= i < |votes| ==> votes[i] <= votes[d + 1])
      && (forall i :: 0 <= i < d + 1 ==> votes[i] < votes[d + 1])
  {
    var k := ArrayUtil.HighestIndex(votes);
    if k == -1 then 0 else k - 1
  }

  /** Four votes for distance 0 settle on no turn. */
  lemma UnanimousNoTurn()
    ensures ArrayUtil.HighestIndex(Tally([0, 0, 0, 0])) == 1
    ensures VotedOffset(Tally([0, 0, 0, 0])) == 0
  {
    assert Tally([0, 0, 0, 0]) == [0, 4, 0, 0] by {
      assert [0, 0, 0, 0][..3] == [0, 0, 0];
      assert [0, 0, 0][..2] == [0, 0];
      assert [0, 0][..1] == [0];
    }
    var t := [0, 4, 0, 0];
    assert t[..3][..2][..1] == [0];
    assert ArrayUtil.HighestIndex(t[..3][..2]) == 1;
    assert ArrayUtil.HighestIndex(t) == 1;
  }

  // ---- recorded moves ----

  /** The moves recording the turns `ts`, one for one. */
  function MovesOf(ts: seq<QuarterTurn>): (ms: seq<Move>)
    ensures |ms| == |ts|
  {
    if ts == [] then []
    else
      var last := ts[|ts| - 1];
      MovesOf(ts[..|ts| - 1]) + [MoveOf(last.side, last.clockwise)]
  }

  /** Recording two sequences of turns one after the other. */
  lemma {:induction false} MovesOfConcat(a: seq<QuarterTurn>, b: seq<QuarterTurn>)
    ensures MovesOf(a + b) == MovesOf(a) + MovesOf(b)
  {
    if b == [] {
      assert a + b == a;
    } else {
      var init, last := b[..|b| - 1], b[|b| - 1];
      assert a + b == (a + init) + [last];
      assert (a + b)[..|a + b| - 1] == a + init;
      MovesOfConcat(a, init);
    }
  }

  /** The turns a list of moves replays, or `None` when a move names no side. */
  function TurnsOf(ms: seq<Move>): (r: Option<seq<QuarterTurn>>)
    ensures r.Some? ==> |r.value| == |ms|
  {
    if ms == [] then Some([])
    else
      var last := ms[|ms| - 1];
      match (TurnsOf(ms[..|ms| - 1]), SideColor(last))
      case (Some(init), Some(side)) => Some(init + [QuarterTurn(side, last.clockwise)])
      case _ => None
  }

  /** Each move records the turn at its position. */
  lemma {:induction false} MovesOfRecordsEachTurn(ts: seq<QuarterTurn>, i: int)
    requires 0 <= i < |ts|
    ensures MovesOf(ts)[i] == MoveOf(ts[i].side, ts[i].clockwise)
  {
    if i < |ts| - 1 {
      MovesOfRecordsEachTurn(ts[..|ts| - 1], i);
    }
  }

  /** The recorded moves replay exactly the turns made. */
  lemma {:induction false} TurnsOfMovesOf(ts: seq<QuarterTurn>)
    ensures TurnsOf(MovesOf(ts)) == Some(ts)
  {
    if ts != [] {
      var init, last := ts[..|ts| - 1], ts[|ts| - 1];
      var ms, m := MovesOf(ts), MoveOf(last.side, last.clockwise);
      TurnsOfMovesOf(init);
      assert ms == MovesOf(init) + [m];
      assert ms[..|ms| - 1] == MovesOf(init) && ms[|ms| - 1] == m;
      SideColorOfMove(last.side, last.clockwise);
      assert m.clockwise == last.clockwise;
      assert init + [QuarterTurn(last.side, last.clockwise)] == ts;
    }
  }

  /** The turns `rotate(color, n)` makes: `|n|` quarter turns of `color`,
      clockwise unless `n` is negative. */
  function Repeat(color: Color, n: int): (r: seq<QuarterTurn>)
    ensures |r| == if n < 0 then -n else n
    decreases if n < 0 then -n else n
  {
    if n == 0 then []
    else if n > 0 then Repeat(color, n - 1) + [QuarterTurn(color, true)]
    else Repeat(color, n + 1) + [QuarterTurn(color, false)]
  }

  /** Every turn of `Repeat(color, n)` is a quarter turn of `color`, clockwise
      unless `n` is negative. */
  lemma {:induction false} RepeatAt(color: Color, n: int)
    ensures forall i :: 0 <= i < |Repeat(color, n)| ==> Repeat(color, n)[i] == QuarterTurn(color, n >= 0)
    decreases if n < 0 then -n else n
  {
    if n > 0 {
      RepeatAt(color, n - 1);
    } else if n < 0 {
      RepeatAt(color, n + 1);
    }
  }

  /** Rotating by `-n` is the inverse sequence of rotating by `n`, so it
      undoes it. */
  lemma RepeatUndoes(s: CubeState, color: Color, n: int)
    ensures Inverse(Repeat(color, n)) == Repeat(color, -n)
    ensures ApplyAll(ApplyAll(s, Repeat(color, n)), Repeat(color, -n)) == s
  {
    var r := Repeat(color, n);
    assert Inverse(r) == Repeat(color, -n) by {
      assert |Inverse(r)| == |Repeat(color, -n)|;
      RepeatAt(color, n);
      RepeatAt(color, -n);
      forall i | 0 <= i < |r| ensures Inverse(r)[i] == Repeat(color, -n)[i] {
      }
    }
    InverseUndoes(s, r);
  }

  /** A checkpoint attached to a position in a step's move list: an id and
      lower-case colour names. */
  datatype MoveMarker = MoveMarker(id: string, faceColors: seq<string>)

  /** The lower-case name `addMarker` stores for a valid colour. */
  function MarkerName(c: Color): (r: string)
    ensures r == ["white", "red", "orange", "yellow", "green", "blue"][c]
  {
    LowerCase(Name(c))
  }

  /** Marker names tell colours apart. */
  lemma MarkerNamesDistinct(a: Color, b: Color)
    ensures MarkerName(a) == MarkerName(b) <==> a == b
  {
  }

  /** `Ask(0)` holds. `Replays`, `Records`, `Expands` and `Reached` state
      their equations under `forall k :: Ask(k) ==> …`: since `Ask` is true
      only of 0 the predicate means the equation, but the verifier unfolds it
      only in a proof that says `assert Ask(0)`, so a method that merely
      passes the state along never expands the replay. */
  predicate Ask(k: int)
  {
    k == 0
  }

  /** `now` is `start` with `turns` applied in order. The `Ask` guard makes
      this the equation itself, unfolded only where a proof asks for it. */
  ghost predicate Replays(now: CubeState, start: CubeState, turns: seq<QuarterTurn>)
  {
    forall k :: Ask(k) ==> now == ApplyAll(start, turns)
  }

  /** One more turn extends the replay. */
  lemma ReplaysTurn(now: CubeState, start: CubeState, turns: seq<QuarterTurn>, t: QuarterTurn)
    requires Replays(now, start, turns)
    ensures Replays(Turn(now, t.side, t.clockwise), start, turns + [t])
  {
    forall k | Ask(k)
      ensures Turn(now, t.side, t.clockwise) == ApplyAll(start, turns + [t])
    {
      ApplyAllAppend(start, turns, t);
    }
  }

  /** `moves` record `turns`, one for one. The `Ask` guard, as in
      `Replays`, leaves the equation folded until a proof asks for it. */
  ghost predicate Records(moves: seq<Move>, turns: seq<QuarterTurn>)
  {
    forall k :: Ask(k) ==> moves == MovesOf(turns)
  }

  /** Recording one more turn extends the record. */
  lemma RecordsTurn(moves: seq<Move>, turns: seq<QuarterTurn>, t: QuarterTurn)
    requires Records(moves, turns)
    ensures Records(moves + [MoveOf(t.side, t.clockwise)], turns + [t])
  {
    forall k | Ask(k)
      ensures moves + [MoveOf(t.side, t.clockwise)] == MovesOf(turns + [t])
    {
      assert (turns + [t])[..|turns|] == turns;
    }
  }

  /** Replays chain: turns from `start` to `mid`, then from `mid` to `now`. */
  lemma ReplaysConcat(now: CubeState, mid: CubeState, start: CubeState, a: seq<QuarterTurn>, b: seq<QuarterTurn>)
    requires Replays(mid, start, a) && Replays(now, mid, b)
    ensures Replays(now, start, a + b)
  {
    forall k | Ask(k)
      ensures now == ApplyAll(start, a + b)
    {
      assert Ask(0);
      ApplyAllConcat(start, a, b);
    }
  }

  /** Records chain the same way. */
  lemma RecordsConcat(ma: seq<Move>, mb: seq<Move>, a: seq<QuarterTurn>, b: seq<QuarterTurn>)
    requires Records(ma, a) && Records(mb, b)
    ensures Records(ma + mb, a + b)
  {
    forall k | Ask(k)
      ensures ma + mb == MovesOf(a + b)
    {
      assert Ask(0);
      MovesOfConcat(a, b);
    }
  }

  /** One call a phase makes on its step: `quarters` quarter turns of `side`,
      clockwise when positive. `clockwise(c)` is `Rotation(c, 1)`,
      `counterClockwise(c)` is `Rotation(c, -1)`, `rotate(c, n)` is
      `Rotation(c, n)`. */
  datatype Rotation = Rotation(side: Color, quarters: int)

  /** The quarter turns a list of calls makes, in order. */
  function TurnsOfCalls(calls: seq<Rotation>): (ts: seq<QuarterTurn>)
  {
    if calls == [] then []
    else
      var last := calls[|calls| - 1];
      TurnsOfCalls(calls[..|calls| - 1]) + Repeat(last.side, last.quarters)
  }

  /** The turns of two lists of calls made one after the other. */
  lemma {:induction false} TurnsOfCallsAppend(a: seq<Rotation>, b: seq<Rotation>)
    ensures TurnsOfCalls(a + b) == TurnsOfCalls(a) + TurnsOfCalls(b)
    decreases |b|
  {
    if b != [] {
      var init := b[..|b| - 1];
      assert (a + b)[..|a + b| - 1] == a + init;
      TurnsOfCallsAppend(a, init);
    } else {
      assert a + b == a;
    }
  }

  /** How many quarter turns a list of calls makes: `|n|` for each `rotate(c, n)`. */
  function Quarters(calls: seq<Rotation>): (n: nat)
  {
    if calls == [] then 0
    else
      var q := calls[|calls| - 1].quarters;
      Quarters(calls[..|calls| - 1]) + (if q < 0 then -q else q)
  }

  /** The calls make `Quarters(calls)` quarter turns. */
  lemma {:induction false} QuartersCount(calls: seq<Rotation>)
    ensures |TurnsOfCalls(calls)| == Quarters(calls)
  {
    if calls != [] {
      QuartersCount(calls[..|calls| - 1]);
    }
  }

  /** One call makes `|n|` quarter turns. */
  lemma QuartersOne(c: Rotation)
    ensures Quarters([c]) == if c.quarters < 0 then -c.quarters else c.quarters
  {
    assert [c][..0] == [];
  }

  /** Quarter turns add up over calls made one after the other. */
  lemma {:induction false} QuartersAppend(a: seq<Rotation>, b: seq<Rotation>)
    ensures Quarters(a + b) == Quarters(a) + Quarters(b)
    decreases |b|
  {
    if b != [] {
      var init := b[..|b| - 1];
      assert (a + b)[..|a + b| - 1] == a + init;
      QuartersAppend(a, init);
    } else {
      assert a + b == a;
    }
  }

  /** Calls of one quarter turn each make as many quarter turns as there are calls. */
  lemma {:induction false} UnitQuarters(calls: seq<Rotation>)
    requires forall i :: 0 <= i < |calls| ==> calls[i].quarters == 1 || calls[i].quarters == -1
    ensures Quarters(calls) == |calls|
  {
    if calls != [] {
      UnitQuarters(calls[..|calls| - 1]);
    }
  }

  /** The quarter turns `calls` make of `side`, counted clockwise. */
  function NetQuarters(calls: seq<Rotation>, side: Color): int
  {
    if calls == [] then 0
    else
      var last := calls[|calls| - 1];
      NetQuarters(calls[..|calls| - 1], side) + (if last.side == side then last.quarters else 0)
  }

  /** Net turns add up over calls made one after the other. */
  lemma {:induction false} NetQuartersAppend(a: seq<Rotation>, b: seq<Rotation>, side: Color)
    ensures NetQuarters(a + b, side) == NetQuarters(a, side) + NetQuarters(b, side)
    decreases |b|
  {
    if b != [] {
      var init := b[..|b| - 1];
      assert (a + b)[..|a + b| - 1] == a + init;
      NetQuartersAppend(a, init, side);
    } else {
      assert a + b == a;
    }
  }

  /** The net turns of a single call. */
  lemma NetQuartersOne(c: Rotation, side: Color)
    ensures NetQuarters([c], side) == if c.side == side then c.quarters else 0
  {
    assert [c][..0] == [];
  }

  /** Both counts for three calls in a row. */
  lemma CountsThree(x: Rotation, y: Rotation, z: Rotation, side: Color)
    ensures NetQuarters([x, y, z], side) == NetQuarters([x], side) + NetQuarters([y], side) + NetQuarters([z], side)
    ensures Quarters([x, y, z]) == Quarters([x]) + Quarters([y]) + Quarters([z])
  {
    assert [x, y, z] == [x] + [y] + [z];
    NetQuartersAppend([x] + [y], [z], side);
    NetQuartersAppend([x], [y], side);
    QuartersAppend([x] + [y], [z]);
    QuartersAppend([x], [y]);
  }

  /** The first position from `j` on where `bs` holds, or -1. */
  function FirstIndex(bs: seq<bool>, j: int): (r: int)
    requires 0 <= j <= |bs|
    ensures r == -1 || j <= r < |bs|
    decreases |bs| - j
  {
    if j == |bs| then -1
    else if bs[j] then j
    else FirstIndex(bs, j + 1)
  }

  /** -1 exactly when nothing from `j` on holds; otherwise a position that
      holds with none before it. */
  lemma {:induction false} FirstIndexFirst(bs: seq<bool>, j: int)
    requires 0 <= j <= |bs|
    ensures var r := FirstIndex(bs, j);
      && (r == -1 <==> forall i :: j <= i < |bs| ==> !bs[i])
      && (r != -1 ==> bs[r] && forall i :: j <= i < r ==> !bs[i])
    decreases |bs| - j
  {
    if j < |bs| {
      FirstIndexFirst(bs, j + 1);
    }
  }

  /** `calls'` keeps `calls` and adds to them. */
  predicate Extends(calls: seq<Rotation>, calls': seq<Rotation>)
  {
    |calls| <= |calls'| && calls'[..|calls|] == calls
  }

  /** Extending is transitive. */
  lemma ExtendsTransitive(a: seq<Rotation>, b: seq<Rotation>, c: seq<Rotation>)
    requires Extends(a, b) && Extends(b, c)
    ensures Extends(a, c)
  {
    assert c[..|a|] == c[..|b|][..|a|];
  }

  /** A call that turns by zero makes no turns. */
  lemma ZeroRotation(calls: seq<Rotation>, c: Color)
    ensures TurnsOfCalls(calls + [Rotation(c, 0)]) == TurnsOfCalls(calls)
    ensures Quarters(calls + [Rotation(c, 0)]) == Quarters(calls)
  {
    assert (calls + [Rotation(c, 0)])[..|calls|] == calls;
  }

  /** `turns` are the quarter turns `calls` make. The `Ask` guard, as in
      `Replays`, leaves the equation folded until a proof asks for it. */
  ghost predicate Expands(turns: seq<QuarterTurn>, calls: seq<Rotation>)
  {
    forall k :: Ask(k) ==> turns == TurnsOfCalls(calls)
  }

  /** One more call extends the expansion by its quarter turns. */
  lemma ExpandsCall(turns: seq<QuarterTurn>, calls: seq<Rotation>, c: Rotation)
    requires Expands(turns, calls)
    ensures Expands(turns + Repeat(c.side, c.quarters), calls + [c])
  {
    forall k | Ask(k)
      ensures turns + Repeat(c.side, c.quarters) == TurnsOfCalls(calls + [c])
    {
      assert (calls + [c])[..|calls|] == calls;
    }
  }

  /** The cube `s` after the quarter turns `calls` make. */
  function After(s: CubeState, calls: seq<Rotation>): CubeState
  {
    ApplyAll(s, TurnsOfCalls(calls))
  }

  /** `now` is `start` after `calls`. The equation is guarded by `Ask`, so
      that a proof that only passes the state along does not unfold it. */
  ghost predicate Reached(now: CubeState, start: CubeState, calls: seq<Rotation>)
  {
    forall k :: Ask(k) ==> now == After(start, calls)
  }

  /** Calls made one list after the other act in turn. */
  lemma AfterAppend(s: CubeState, a: seq<Rotation>, b: seq<Rotation>)
    ensures After(s, a + b) == After(After(s, a), b)
  {
    TurnsOfCallsAppend(a, b);
    ApplyAllConcat(s, TurnsOfCalls(a), TurnsOfCalls(b));
  }

  /** The cube `now`, reached from `start` by `calls` and then `more`, is
      the cube `before` reached by `calls`, after `more`. */
  lemma ReachedAfter(start: CubeState, calls: seq<Rotation>, more: seq<Rotation>, before: CubeState, now: CubeState)
    requires Reached(before, start, calls) && Reached(now, start, calls + more)
    ensures Reached(now, before, more)
  {
    assert Ask(0);
    AfterAppend(start, calls, more);
  }

  // ---- the step object ----

  /** `AbstractSolveStep`: the shared cube, the moves this step made, and its
      markers keyed by move position. The ghost `calls` are the rotations
      asked of the step so far, `turns` the quarter turns they made and
      `start` the cube before them. */
  class SolveStep {
    const cube: Cube
    var moves: seq<Move>
    var markers: map<int, MoveMarker>
    ghost var start: CubeState
    ghost var turns: seq<QuarterTurn>
    ghost var calls: seq<Rotation>

    /** The moves record the turns made, and the cube is the starting cube
        with those turns applied. */
    ghost predicate Tracks()
      reads this, cube, cube.faces
    {
      && cube.Valid()
      && Records(moves, turns)
      && Replays(cube.State(), start, turns)
    }

    /** `Tracks`, and the turns made are those of the calls made. */
    ghost predicate Valid()
      reads this, cube, cube.faces
    {
      Tracks() && Expands(turns, calls)
    }

    constructor(cube: Cube)
      requires cube.Valid()
      ensures Valid() && this.cube == cube
      ensures moves == [] && markers == map[] && turns == [] && calls == [] && start == cube.State()
    {
      this.cube := cube;
      moves := [];
      markers := map[];
      start := cube.State();
      turns := [];
      calls := [];
    }

    /** What a valid step has done: its moves record, one move per quarter
        turn, the turns its calls make, and the cube is the starting cube
        with those turns applied. */
    lemma MadeCalls()
      requires Valid()
      ensures moves == MovesOf(TurnsOfCalls(calls)) && |moves| == Quarters(calls)
      ensures cube.State() == ApplyAll(start, TurnsOfCalls(calls))
    {
      assert Ask(0);
      QuartersCount(calls);
    }

    /** `MadeCalls`' equation for the cube, in the guarded form of `Reached`. */
    lemma Reaches()
      requires Valid()
      ensures Reached(cube.State(), start, calls)
    {
      MadeCalls();
    }

    /** The body `clockwise` and `counterClockwise` share: record the move,
        then turn the side. */
    method Record(color: Color, clockwise: bool)
      requires Tracks()
      modifies this, cube.faces
      ensures Tracks() && start == old(start) && markers == old(markers) && calls == old(calls)
      ensures turns == old(turns) + [QuarterTurn(color, clockwise)]
      ensures moves == old(moves) + [MoveOf(color, clockwise)]
    {
      ReplaysTurn(cube.State(), start, turns, QuarterTurn(color, clockwise));
      RecordsTurn(moves, turns, QuarterTurn(color, clockwise));
      moves := moves + [FromColor(color, clockwise).value];
      turns := turns + [QuarterTurn(color, clockwise)];
      if clockwise {
        cube.RotateClockwise(color);
      } else {
        cube.RotateCounterClockwise(color);
      }
      assert turns[..|turns| - 1] == old(turns);
    }

    /** `clockwise(color)`. */
    method Clockwise(color: Color)
      requires Valid()
      modifies this, cube.faces
      ensures Valid() && start == old(start) && markers == old(markers)
      ensures calls == old(calls) + [Rotation(color, 1)]
    {
      ExpandsCall(turns, calls, Rotation(color, 1));
      Record(color, true);
      calls := calls + [Rotation(color, 1)];
    }

    /** `counterClockwise(color)`. */
    method CounterClockwise(color: Color)
      requires Valid()
      modifies this, cube.faces
      ensures Valid() && start == old(start) && markers == old(markers)
      ensures calls == old(calls) + [Rotation(color, -1)]
    {
      ExpandsCall(turns, calls, Rotation(color, -1));
      Record(color, false);
      calls := calls + [Rotation(color, -1)];
    }

    /** `rotate(color, n)`: `|n|` single turns, counter-clockwise when `n` is
        negative. */
    method Rotate(color: Color, n: int)
      requires Valid()
      modifies this, cube.faces
      ensures Valid() && start == old(start) && markers == old(markers)
      ensures calls == old(calls) + [Rotation(color, n)]
      ensures n == 0 ==> cube.State() == old(cube.State())
    {
      var count := if n < 0 then -n else n;
      for turn := 0 to count
        invariant Tracks() && start == old(start) && markers == old(markers) && calls == old(calls)
        invariant turns == old(turns) + Repeat(color, if n < 0 then -turn else turn)
        invariant turn == 0 ==> cube.faces[..] == old(cube.faces[..])
      {
        Record(color, n >= 0);
      }
      ExpandsCall(old(turns), calls, Rotation(color, n));
      calls := calls + [Rotation(color, n)];
    }

    /** `addMarker(id, colors...)`: the colours' lower-case names, keyed by
        the number of moves made so far (replacing a marker already there).
        An invalid colour throws before anything is stored. */
    method AddMarker(id: string, faceColors: seq<int>) returns (r: Outcome)
      requires Valid()
      modifies this
      ensures Valid() && start == old(start) && calls == old(calls) && turns == old(turns) && moves == old(moves)
      ensures r.Ok? <==> forall i :: 0 <= i < |faceColors| ==> 0 <= faceColors[i] < 6
      ensures r.Ok? ==> markers == old(markers)[|moves| := MoveMarker(id,
                          seq(|faceColors|, i requires 0 <= i < |faceColors| => MarkerName(faceColors[i])))]
      ensures r.Err? ==> markers == old(markers)
    {
      var strColors := new string[|faceColors|];
      for iColor := 0 to |faceColors|
        modifies strColors
        invariant forall i :: 0 <= i < iColor ==> 0 <= faceColors[i] < 6
        invariant forall i :: 0 <= i < iColor ==> strColors[i] == MarkerName(faceColors[i])
      {
        var name :- ToString(faceColors[iColor]);
        strColors[iColor] := LowerCase(name);
      }
      assert strColors[..] == seq(|faceColors|, i requires 0 <= i < |faceColors| => MarkerName(faceColors[i]));
      markers := markers[|moves| := MoveMarker(id, strColors[..])];
      return Pass;
    }
  }
}
