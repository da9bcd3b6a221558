/** The seventh phase: each YELLOW corner, already in place, is twisted
    until its side facelets match the edges beside them, then YELLOW turns
    so that the edge above RED is RED. A side face's top left matching its
    top middle is the mark of a corner turned the right way. */
module OrientYellowCornersPhase {
  import opened Outcomes
  import opened FaceColor
  import opened CubeTopology
  import opened Cubes
  import ArrayUtil
  import opened SolveSteps

  /** A position round YELLOW's list. */
  type Entry = k: int | 0 <= k < 4

  /** The entry after `k` round YELLOW's list. */
  function Next(k: Entry): Entry
  {
    if k == 3 then 0 else k + 1
  }

  /** Entry `k`'s side shows its top middle colour at its top left. */
  predicate LeftMatches(s: CubeState, k: Entry)
  {
    s[YELLOW_RING[k]][TOP_LEFT] == s[YELLOW_RING[k]][TOP_MIDDLE]
  }

  /** Entry `k`'s side shows its top middle colour at its top right. */
  predicate RightMatches(s: CubeState, k: Entry)
  {
    s[YELLOW_RING[k]][TOP_RIGHT] == s[YELLOW_RING[k]][TOP_MIDDLE]
  }

  /** For each entry, whether its top left is off. */
  function Unsolved(s: CubeState): (m: seq<bool>)
    ensures |m| == 4 && forall k :: 0 <= k < 4 ==> (m[k] <==> !LeftMatches(s, k))
  {
    seq(4, k requires 0 <= k < 4 => !LeftMatches(s, k))
  }

  /** For each entry, whether its top left is off while the next entry's is
      not. */
  function Leading(s: CubeState): (m: seq<bool>)
    ensures |m| == 4 && forall k :: 0 <= k < 4 ==> (m[k] <==> !LeftMatches(s, k) && LeftMatches(s, Next(k)))
  {
    seq(4, k requires 0 <= k < 4 => !LeftMatches(s, k) && LeftMatches(s, Next(k)))
  }

  /** `findLeadingUnsolvedCorner`: the first entry whose top left is off
      while the next entry's is not; else 0 when some top left is off; else
      -1. */
  function LeadingUnsolved(s: CubeState): (r: int)
    ensures -1 <= r < 4
  {
    FirstIndexFirst(Leading(s), 0);
    var k := FirstIndex(Leading(s), 0);
    if k != -1 then k
    else if FirstIndex(Unsolved(s), 0) != -1 then 0
    else -1
  }

  /** The scan answers -1 exactly when every top left matches; when the
      top lefts are neither all on nor all off it answers an entry whose top
      left is off and whose next entry's is on, the first such; when every
      top left is off it answers 0. */
  lemma LeadingUnsolvedMeaning(s: CubeState)
    ensures LeadingUnsolved(s) == -1 <==> forall k :: 0 <= k < 4 ==> LeftMatches(s, k)
    ensures (exists k :: 0 <= k < 4 && LeftMatches(s, k)) && LeadingUnsolved(s) != -1 ==>
      && !LeftMatches(s, LeadingUnsolved(s)) && LeftMatches(s, Next(LeadingUnsolved(s)))
      && forall k :: 0 <= k < LeadingUnsolved(s) ==> !(!LeftMatches(s, k) && LeftMatches(s, Next(k)))
    ensures (forall k :: 0 <= k < 4 ==> !LeftMatches(s, k)) ==> LeadingUnsolved(s) == 0
  {
    FirstIndexFirst(Leading(s), 0);
    FirstIndexFirst(Unsolved(s), 0);
  }

  /** The four quarter turns of one twist in `orient`: `side` back, WHITE
      forward, `side` forward, WHITE back. */
  function TwistCalls(side: Color): seq<Rotation>
  {
    [Rotation(side, -1), Rotation(WHITE, 1), Rotation(side, 1), Rotation(WHITE, -1)]
  }

  /** `n` twists of `side`. */
  function Twists(side: Color, n: nat): seq<Rotation>
  {
    if n == 0 then [] else Twists(side, n - 1) + TwistCalls(side)
  }

  /** `n` twists make `4n` quarter turns and turn each face back as far as
      they turn it forward. */
  lemma {:induction false} TwistsQuarters(side: Color, n: nat, face: Color)
    ensures Quarters(Twists(side, n)) == 4 * n
    ensures NetQuarters(Twists(side, n), face) == 0
  {
    if n > 0 {
      TwistsQuarters(side, n - 1, face);
      var c := TwistCalls(side);
      UnitQuarters(c);
      QuartersAppend(Twists(side, n - 1), c);
      NetQuartersAppend(Twists(side, n - 1), c, face);
      assert c == [c[0], c[1], c[2]] + [c[3]];
      NetQuartersAppend([c[0], c[1], c[2]], [c[3]], face);
      CountsThree(c[0], c[1], c[2], face);
      NetQuartersOne(c[0], face);
      NetQuartersOne(c[1], face);
      NetQuartersOne(c[2], face);
      NetQuartersOne(c[3], face);
    }
  }

  /** What `orient` waits for: entry `k`'s top left and the next entry's
      top right both match their top middles. */
  predicate Oriented(s: CubeState, k: Entry)
  {
    LeftMatches(s, k) && RightMatches(s, Next(k))
  }

  /** One more twist after `n`, made after `calls`. */
  lemma TwistsNext(calls: seq<Rotation>, side: Color, n: nat)
    ensures calls + Twists(side, n) + TwistCalls(side) == calls + Twists(side, n + 1)
  {
    assert Twists(side, n + 1) == Twists(side, n) + TwistCalls(side);
  }

  /** `seen[i]` is the cube `start` after `calls` and `i + 1` twists at
      entry `k`, and no cube but the last has the corner oriented. */
  ghost predicate TwistedCubes(seen: seq<CubeState>, start: CubeState, calls: seq<Rotation>, k: Entry)
  {
    && (forall i :: 0 <= i < |seen| ==> Reached(seen[i], start, calls + Twists(YELLOW_RING[k], i + 1)))
    && (forall i :: 0 <= i < |seen| - 1 ==> !Oriented(seen[i], k))
  }

  /** One more twist extends the cubes seen, when the last one seen so far
      was not oriented. */
  lemma TwistedCubesNext(seen: seq<CubeState>, now: CubeState, start: CubeState, calls: seq<Rotation>, k: Entry)
    requires TwistedCubes(seen, start, calls, k) && (|seen| > 0 ==> !Oriented(seen[|seen| - 1], k))
    requires Reached(now, start, calls + Twists(YELLOW_RING[k], |seen| + 1))
    ensures TwistedCubes(seen + [now], start, calls, k)
  {
    ReachedCubesNext(seen, now, start, calls, k);
    UnorientedNext(seen, now, k);
  }

  /** The cube after one more twist follows those reached so far. */
  lemma ReachedCubesNext(seen: seq<CubeState>, now: CubeState, start: CubeState, calls: seq<Rotation>, k: Entry)
    requires forall i :: 0 <= i < |seen| ==> Reached(seen[i], start, calls + Twists(YELLOW_RING[k], i + 1))
    requires Reached(now, start, calls + Twists(YELLOW_RING[k], |seen| + 1))
    ensures var more := seen + [now];
      forall i :: 0 <= i < |more| ==> Reached(more[i], start, calls + Twists(YELLOW_RING[k], i + 1))
  {
    var more := seen + [now];
    forall i | 0 <= i < |more|
      ensures Reached(more[i], start, calls + Twists(YELLOW_RING[k], i + 1))
    {
      if i < |seen| {
        assert more[i] == seen[i];
      }
    }
  }

  /** A cube seen unoriented stays unoriented when one more is seen. */
  lemma UnorientedNext(seen: seq<CubeState>, now: CubeState, k: Entry)
    requires forall i :: 0 <= i < |seen| - 1 ==> !Oriented(seen[i], k)
    requires |seen| > 0 ==> !Oriented(seen[|seen| - 1], k)
    ensures var more := seen + [now];
      forall i :: 0 <= i < |more| - 1 ==> !Oriented(more[i], k)
  {
    var more := seen + [now];
    forall i | 0 <= i < |more| - 1
      ensures !Oriented(more[i], k)
    {
      assert more[i] == seen[i];
    }
  }

  /** The YELLOW turn of `solve` after orienting the corner at
      `startingConnection`, when the cube `s` has a leading corner left:
      the distance round YELLOW from that corner's side to the starting
      side. */
  function NextTurn(s: CubeState, startingConnection: Entry): (d: int)
    requires LeadingUnsolved(s) != -1
    ensures -1 <= d <= 2
  {
    YellowRing(LeadingUnsolved(s));
    YellowRing(startingConnection);
    DistanceAroundYellow(YELLOW_RING[LeadingUnsolved(s)], YELLOW_RING[startingConnection]).value
  }

  /** The loop of `findLeadingUnsolvedCorner`. */
  method FindLeadingUnsolvedCorner(sides: CubeState) returns (r: int)
    ensures r == LeadingUnsolved(sides)
  {
    FirstIndexFirst(Leading(sides), 0);
    FirstIndexFirst(Unsolved(sides), 0);
    var connections := Connections(YELLOW);
    var foundUnsolved := false;
    for iConn := 0 to 4
      invariant foundUnsolved <==> exists k :: 0 <= k < iConn && !LeftMatches(sides, k)
      invariant forall k :: 0 <= k < iConn ==> !Leading(sides)[k]
    {
      YellowRing(iConn);
      var side := sides[connections[iConn].side];
      if side[TOP_LEFT] != side[TOP_MIDDLE] {
        assert !LeftMatches(sides, iConn);
        foundUnsolved := true;
        YellowRing(Next(iConn));
        assert (iConn + 1) % 4 == Next(iConn);
        var nextSide := sides[ArrayUtil.LoopedIndex(connections, iConn + 1).value.side];
        if nextSide[TOP_LEFT] == nextSide[TOP_MIDDLE] {
          return iConn;
        }
      } else {
        assert LeftMatches(sides, iConn);
      }
    }
    if foundUnsolved {
      return 0;
    } else {
      return -1;
    }
  }

  /** `OrientYellowCornersStep`: the step's moves and cube. */
  class OrientYellowCorners {
    const base: SolveStep

    ghost predicate Valid()
      reads this, base, base.cube, base.cube.faces
    {
      base.Valid()
    }

    constructor(cube: Cube)
      requires cube.Valid()
      ensures Valid() && fresh(base)
      ensures base.cube == cube && base.calls == [] && base.markers == map[] && base.start == cube.State()
    {
      base := new SolveStep(cube);
    }

    /** `solve`: when some corner needs turning, up to four rounds of
        orienting the leading corner, each but the last followed by turning
        YELLOW to bring the next leading corner to its place; then the final
        YELLOW turn. `orient` runs `orients` times, at most four; the step
        makes at most 74 quarter turns. */
    method Solve() returns (r: Outcome, ghost orients: nat)
      requires Valid()
      modifies base, base.cube.faces
      ensures Valid() && base.start == old(base.start) && base.markers == old(base.markers)
      ensures orients <= 4 && (LeadingUnsolved(old(base.cube.State())) == -1 ==> orients == 0)
      ensures Extends(old(base.calls), base.calls) && Quarters(base.calls) <= Quarters(old(base.calls)) + 74
      ensures r.Err? ==> r == Err(IllegalState("couldn't orient corner")) || r == Err(NO_DISTANCE)
      ensures LeadingUnsolved(old(base.cube.State())) == -1 ==> var s := old(base.cube.State());
        TurnedToRed(s, old(base.calls), r, base.calls)
    {
      orients := 0;
      var startingConnection := FindLeadingUnsolvedCorner(base.cube.State());
      if startingConnection != -1 {
        for limit := 0 to 4
          invariant Valid() && base.start == old(base.start) && base.markers == old(base.markers)
          invariant orients == limit
          invariant Extends(old(base.calls), base.calls) && Quarters(base.calls) <= Quarters(old(base.calls)) + 18 * limit
        {
          ghost var before := base.calls;
          var done;
          ghost var twists, seen;
          r, done, twists, seen := OrientRound(startingConnection);
          orients := orients + 1;
          ExtendsTransitive(old(base.calls), before, base.calls);
          if r.Err? {
            return;
          }
          if done {
            break;
          }
        }
      }
      ghost var before, last := base.calls, base.cube.State();
      r := FinalYellowRotation();
      TurnedToRedMoves(last, before, r, base.calls);
      ExtendsTransitive(old(base.calls), before, base.calls);
    }

    /** One round of the loop in `solve`: orient the corner at
        `startingConnection` (`twists` twists, leaving the cubes `seen`),
        find the next leading corner and, unless there is none (`done`),
        turn YELLOW by the distance from its side to the starting side. */
    method OrientRound(startingConnection: Entry) returns (r: Outcome, done: bool, ghost twists: nat, ghost seen: seq<CubeState>)
      requires Valid()
      modifies base, base.cube.faces
      ensures Valid() && base.start == old(base.start) && base.markers == old(base.markers)
      ensures Extends(old(base.calls), base.calls) && Quarters(base.calls) <= Quarters(old(base.calls)) + 18
      ensures 1 <= twists <= 4 && |seen| == twists
      ensures TwistedCubes(seen, base.start, old(base.calls), startingConnection)
      ensures r.Ok? <==> Oriented(seen[twists - 1], startingConnection)
      ensures r.Err? ==> && done && twists == 4 && r == Err(IllegalState("couldn't orient corner"))
                         && base.calls == old(base.calls) + Twists(YELLOW_RING[startingConnection], 4)
      ensures r.Ok? ==> var twisted := seen[twists - 1];
        && (done <==> LeadingUnsolved(twisted) == -1)
        && base.calls == old(base.calls) + Twists(YELLOW_RING[startingConnection], twists)
                         + (if done then [] else [Rotation(YELLOW, NextTurn(twisted, startingConnection))])
    {
      r, twists, seen := Orient(startingConnection);
      TwistsQuarters(YELLOW_RING[startingConnection], twists, YELLOW);
      QuartersAppend(old(base.calls), Twists(YELLOW_RING[startingConnection], twists));
      assert base.calls[..|old(base.calls)|] == old(base.calls);
      if r.Err? {
        return r, true, twists, seen;
      }
      ghost var before := base.calls;
      done := TurnToNext(startingConnection);
      ExtendsTransitive(old(base.calls), before, base.calls);
      r := Pass;
    }

    /** The rest of a round: find the next leading corner and, unless there
        is none (`done`), turn YELLOW by the distance from its side to the
        side of `startingConnection`, at most two quarter turns. */
    method TurnToNext(startingConnection: Entry) returns (done: bool)
      requires Valid()
      modifies base, base.cube.faces
      ensures Valid() && base.start == old(base.start) && base.markers == old(base.markers)
      ensures Extends(old(base.calls), base.calls) && Quarters(base.calls) <= Quarters(old(base.calls)) + 2
      ensures done ==> base.calls == old(base.calls) && base.cube.State() == old(base.cube.State())
      ensures done <==> LeadingUnsolved(old(base.cube.State())) == -1
      ensures !done ==> base.calls == old(base.calls) + [Rotation(YELLOW, NextTurn(old(base.cube.State()), startingConnection))]
    {
      var connections := Connections(YELLOW);
      var nextUnsolvedConnection := FindLeadingUnsolvedCorner(base.cube.State());
      if nextUnsolvedConnection == -1 {
        return true;
      }
      YellowRing(nextUnsolvedConnection);
      YellowRing(startingConnection);
      var distance := DistanceAroundYellow(connections[nextUnsolvedConnection].side, connections[startingConnection].side).value;
      base.Rotate(YELLOW, distance);
      QuartersAppend(old(base.calls), [Rotation(YELLOW, distance)]);
      QuartersOne(Rotation(YELLOW, distance));
      assert base.calls[..|old(base.calls)|] == old(base.calls);
      done := false;
    }

    /** `orient(connectedSideIndex)`: twist until the corner at the entry
        and the next one match, at most four times. The cubes after each
        twist are `seen`; it returns after `twists` twists, the first time
        both match, and fails when the fourth twist still leaves them off. */
    method Orient(connectedSideIndex: Entry) returns (r: Outcome, ghost twists: nat, ghost seen: seq<CubeState>)
      requires Valid()
      modifies base, base.cube.faces
      ensures Valid() && base.start == old(base.start) && base.markers == old(base.markers)
      ensures 1 <= twists <= 4 && |seen| == twists && base.cube.State() == seen[twists - 1]
      ensures base.calls == old(base.calls) + Twists(YELLOW_RING[connectedSideIndex], twists)
      ensures TwistedCubes(seen, base.start, old(base.calls), connectedSideIndex)
      ensures r.Ok? <==> Oriented(base.cube.State(), connectedSideIndex)
      ensures r.Err? ==> twists == 4 && r == Err(IllegalState("couldn't orient corner"))
    {
      ghost var calls := base.calls;
      twists, seen := 0, [];
      for limit := 0 to 4
        invariant Valid() && base.start == old(base.start) && base.markers == old(base.markers)
        invariant twists == limit && |seen| == limit && base.calls == calls + Twists(YELLOW_RING[connectedSideIndex], twists)
        invariant limit > 0 ==> base.cube.State() == seen[limit - 1] && !Oriented(base.cube.State(), connectedSideIndex)
        invariant TwistedCubes(seen, base.start, calls, connectedSideIndex)
      {
        var matched := TwistAndLook(connectedSideIndex, calls, twists);
        TwistedCubesNext(seen, base.cube.State(), base.start, calls, connectedSideIndex);
        twists, seen := twists + 1, seen + [base.cube.State()];
        if matched {
          return Pass, twists, seen;
        }
      }
      r := Err(IllegalState("couldn't orient corner"));
    }

    /** One pass of `orient`'s loop, the twist after `n` made after
        `calls`: twist, then report whether the corner at the entry and the
        next one match. */
    method TwistAndLook(connectedSideIndex: Entry, ghost calls: seq<Rotation>, ghost n: nat) returns (matched: bool)
      requires Valid() && base.calls == calls + Twists(YELLOW_RING[connectedSideIndex], n)
      modifies base, base.cube.faces
      ensures Valid() && base.start == old(base.start) && base.markers == old(base.markers)
      ensures base.calls == calls + Twists(YELLOW_RING[connectedSideIndex], n + 1)
      ensures Reached(base.cube.State(), base.start, calls + Twists(YELLOW_RING[connectedSideIndex], n + 1))
      ensures matched <==> Oriented(base.cube.State(), connectedSideIndex)
    {
      var connections := Connections(YELLOW);
      YellowRing(connectedSideIndex);
      var side := connections[connectedSideIndex].side;
      Twist(side);
      TwistsNext(calls, side, n);
      base.Reaches();
      var colors := base.cube.State()[side];
      var thisCornerMatch := colors[TOP_LEFT] == colors[TOP_MIDDLE];
      YellowRing(Next(connectedSideIndex));
      assert (connectedSideIndex + 1) % 4 == Next(connectedSideIndex);
      var nextColors := base.cube.State()[ArrayUtil.LoopedIndex(connections, connectedSideIndex + 1).value.side];
      var nextCornerMatch := nextColors[TOP_RIGHT] == nextColors[TOP_MIDDLE];
      matched := thisCornerMatch && nextCornerMatch;
    }

    /** One twist of `orient`. */
    method Twist(side: Color)
      requires Valid()
      modifies base, base.cube.faces
      ensures Valid() && base.start == old(base.start) && base.markers == old(base.markers)
      ensures base.calls == old(base.calls) + TwistCalls(side)
    {
      base.CounterClockwise(side);
      base.Clockwise(WHITE);
      base.Clockwise(side);
      base.CounterClockwise(WHITE);
    }

    /** `finalYellowRotation`. */
    method FinalYellowRotation() returns (r: Outcome)
      requires Valid()
      modifies base, base.cube.faces
      ensures Valid() && base.start == old(base.start) && base.markers == old(base.markers)
      ensures TurnedToRed(old(base.cube.State()), old(base.calls), r, base.calls)
    {
      var edge := base.cube.State()[RED][TOP_MIDDLE];
      var distance := DistanceAroundYellow(RED, edge);
      if distance.Err? {
        return Err(distance.error);
      }
      base.Rotate(YELLOW, distance.value);
      r := Pass;
    }
  }

  /** The outcome and calls `finalYellowRotation` leaves from the cube `s`
      and the calls `calls` before it: YELLOW turned by the distance from
      RED to the colour of RED's top middle, or failure when that colour is
      WHITE or YELLOW. */
  predicate TurnedToRed(s: CubeState, calls: seq<Rotation>, r: Outcome, calls': seq<Rotation>)
  {
    var d := DistanceAroundYellow(RED, s[RED][TOP_MIDDLE]);
    if d.Err? then r == Err(d.error) && calls' == calls
    else r.Ok? && calls' == calls + [Rotation(YELLOW, d.value)]
  }

  /** The final turn is at most two quarter turns, and it fails exactly
      when RED's top middle is WHITE or YELLOW. */
  lemma TurnedToRedMoves(s: CubeState, calls: seq<Rotation>, r: Outcome, calls': seq<Rotation>)
    requires TurnedToRed(s, calls, r, calls')
    ensures Extends(calls, calls') && Quarters(calls') <= Quarters(calls) + 2
    ensures r.Err? <==> s[RED][TOP_MIDDLE] == WHITE || s[RED][TOP_MIDDLE] == YELLOW
    ensures r.Err? ==> r == Err(NO_DISTANCE)
  {
    var d := DistanceAroundYellow(RED, s[RED][TOP_MIDDLE]);
    if d.Ok? {
      assert calls'[..|calls|] == calls;
      QuartersAppend(calls, [Rotation(YELLOW, d.value)]);
      QuartersOne(Rotation(YELLOW, d.value));
    }
  }
}
