/** The cube: six sides of eight facelets (centres are implied by the side's
    index). A quarter turn of a side shifts that side's ring by two places and
    carries the four three-facelet strips named by its connection entries one
    entry onwards. */
module Cubes {
  import opened Outcomes
  import opened FaceColor
  import opened Sides
  import opened CornerPieces
  import opened CubeTopology
  import ArrayUtil

  /** Faces in colour order: WHITE, RED, ORANGE, YELLOW, GREEN, BLUE. */
  type CubeState = s: seq<Face> | |s| == 6 witness [All(0).colors, All(1).colors, All(2).colors, All(3).colors, All(4).colors, All(5).colors]

  /** A facelet: a side and a ring position on it. */
  datatype Facelet = Facelet(side: Color, index: RingIndex)

  /** The solved cube: every facelet shows its side's colour. */
  function Solved(): (s: CubeState)
    ensures forall f: Color, i: RingIndex :: s[f][i] == f
  {
    [All(WHITE).colors, All(RED).colors, All(ORANGE).colors, All(YELLOW).colors, All(GREEN).colors, All(BLUE).colors]
  }

  /** The entry a turn takes strip facelets from: the previous entry for a
      clockwise turn, the next one for a counter-clockwise turn, around four. */
  function FromEntry(j: int, clockwise: bool): (r: int)
    requires 0 <= j < 4
    ensures 0 <= r < 4
    ensures r == if clockwise then (j + 3) % 4 else (j + 1) % 4
  {
    if clockwise then (if j == 0 then 3 else j - 1)
    else (if j == 3 then 0 else j + 1)
  }

  /** The ring position a turn takes the turned side's facelet `i` from: two
      places back for a clockwise turn, two places on for a counter-clockwise one. */
  function FromRing(i: RingIndex, clockwise: bool): (r: RingIndex)
    ensures r == if clockwise then (i + 6) % 8 else (i + 2) % 8
  {
    if clockwise then (if i < 2 then i + 6 else i - 2)
    else (if i < 6 then i + 2 else i - 6)
  }

  /** Whether `p` lies in one of the strips of connection list `c`. */
  predicate InStripOf(c: seq<Connection>, p: Facelet)
    requires |c| == 4 && forall j :: 0 <= j < 4 ==> |c[j].faces| == 3
  {
    var j := EntryIn(c, p.side);
    j >= 0 && SlotIndex(c[j].faces, p.index) >= 0
  }

  /** Where the facelet that a quarter turn of `side`, whose connection list
      is `c`, brings to `p` comes from. */
  function SourceIn(c: seq<Connection>, side: Color, clockwise: bool, p: Facelet): (q: Facelet)
    requires WellFormed(side, c)
    ensures p.side == side ==> q.side == side
    ensures p.side != side && !InStripOf(c, p) ==> q == p
  {
    if p.side == side then
      Facelet(side, FromRing(p.index, clockwise))
    else
      var j := EntryIn(c, p.side);
      if j < 0 then p
      else
        var k := SlotIndex(c[j].faces, p.index);
        if k < 0 then p
        else
          var from := c[FromEntry(j, clockwise)];
          Facelet(from.side, from.faces[k])
  }

  predicate InStrip(side: Color, p: Facelet)
  {
    InStripOf(Connections(side), p)
  }

  function Source(side: Color, clockwise: bool, p: Facelet): Facelet
  {
    ConnectionsWellFormed(side);
    SourceIn(Connections(side), side, clockwise, p)
  }

  function At(s: CubeState, p: Facelet): Color
  {
    s[p.side][p.index]
  }

  /** The state after a quarter turn of `side`. */
  function Turn(s: CubeState, side: Color, clockwise: bool): (r: CubeState)
  {
    seq(6, f requires 0 <= f < 6 => seq(8, i requires 0 <= i < 8 => At(s, Source(side, clockwise, Facelet(f, i)))))
  }

  lemma FaceletsEqual(s: CubeState, t: CubeState)
    requires forall f: Color, i: RingIndex :: s[f][i] == t[f][i]
    ensures s == t
  {
    forall f: Color ensures s[f] == t[f] {
      assert forall i :: 0 <= i < 8 ==> s[f][i] == t[f][i];
    }
  }

  /** Undoing a turn's facelet move with the opposite direction restores the
      facelet, for any well-formed connection list. */
  lemma SourceRoundTrip(c: seq<Connection>, side: Color, clockwise: bool, p: Facelet)
    requires WellFormed(side, c)
    ensures SourceIn(c, side, clockwise, SourceIn(c, side, !clockwise, p)) == p
  {
    if p.side != side {
      var j := EntryIn(c, p.side);
      if j >= 0 {
        var k := SlotIndex(c[j].faces, p.index);
        if k >= 0 {
          var j' := FromEntry(j, !clockwise);
          var q := SourceIn(c, side, !clockwise, p);
          assert EntryIn(c, q.side) == j';
          assert SlotIndex(c[j'].faces, q.index) == k;
        }
      }
    }
  }

  /** A counter-clockwise turn undoes a clockwise turn of the same side, and
      the other way round. */
  lemma {:induction false} TurnInverse(s: CubeState, side: Color, clockwise: bool)
    ensures Turn(Turn(s, side, clockwise), side, !clockwise) == s
  {
    var t := Turn(Turn(s, side, clockwise), side, !clockwise);
    forall f: Color, i: RingIndex ensures t[f][i] == s[f][i] {
      ConnectionsWellFormed(side);
      SourceRoundTrip(Connections(side), side, clockwise, Facelet(f, i));
    }
    FaceletsEqual(t, s);
  }

  /** A turn fills slot `k` of entry `j` from the same slot of entry
      `FromEntry(j, clockwise)`. */
  lemma StripStep(c: seq<Connection>, side: Color, clockwise: bool, j: int, k: int)
    requires WellFormed(side, c) && 0 <= j < 4 && 0 <= k < 3
    ensures var from := c[FromEntry(j, clockwise)];
      SourceIn(c, side, clockwise, Facelet(c[j].side, c[j].faces[k])) == Facelet(from.side, from.faces[k])
  {
    assert EntryIn(c, c[j].side) == j;
    assert SlotIndex(c[j].faces, c[j].faces[k]) == k;
  }

  /** Four quarter-turn moves of one facelet bring it back, for any
      well-formed connection list. */
  lemma SourceFourTimes(c: seq<Connection>, side: Color, clockwise: bool, p: Facelet)
    requires WellFormed(side, c)
    ensures var p1 := SourceIn(c, side, clockwise, p);
      var p2 := SourceIn(c, side, clockwise, p1);
      var p3 := SourceIn(c, side, clockwise, p2);
      SourceIn(c, side, clockwise, p3) == p
  {
    if p.side != side {
      var j := EntryIn(c, p.side);
      if j >= 0 {
        var k := SlotIndex(c[j].faces, p.index);
        if k >= 0 {
          var j1 := FromEntry(j, clockwise);
          var j2 := FromEntry(j1, clockwise);
          var j3 := FromEntry(j2, clockwise);
          StripStep(c, side, clockwise, j, k);
          StripStep(c, side, clockwise, j1, k);
          StripStep(c, side, clockwise, j2, k);
          StripStep(c, side, clockwise, j3, k);
          assert FromEntry(j3, clockwise) == j;
        }
      }
    }
  }

  /** Four quarter turns of one side in one direction restore the cube. */
  lemma {:induction false} TurnFourTimes(s: CubeState, side: Color, clockwise: bool)
    ensures Turn(Turn(Turn(Turn(s, side, clockwise), side, clockwise), side, clockwise), side, clockwise) == s
  {
    var s1 := Turn(s, side, clockwise);
    var s2 := Turn(s1, side, clockwise);
    var s3 := Turn(s2, side, clockwise);
    var t := Turn(s3, side, clockwise);
    forall f: Color, i: RingIndex ensures t[f][i] == s[f][i] {
      var p := Facelet(f, i);
      var p1 := Source(side, clockwise, p);
      var p2 := Source(side, clockwise, p1);
      var p3 := Source(side, clockwise, p2);
      ConnectionsWellFormed(side);
      SourceFourTimes(Connections(side), side, clockwise, p);
      TurnAt(s3, side, clockwise, p);
      TurnAt(s2, side, clockwise, p1);
      TurnAt(s1, side, clockwise, p2);
      TurnAt(s, side, clockwise, p3);
    }
    FaceletsEqual(t, s);
  }

  lemma TurnAt(s: CubeState, side: Color, clockwise: bool, p: Facelet)
    ensures At(Turn(s, side, clockwise), p) == At(s, Source(side, clockwise, p))
  {
  }

  lemma FacesEqual(a: Face, b: Face)
    requires a[0] == b[0] && a[1] == b[1] && a[2] == b[2] && a[3] == b[3]
    requires a[4] == b[4] && a[5] == b[5] && a[6] == b[6] && a[7] == b[7]
    ensures a == b
  {
  }

  /** The turned side's ring shifts by two places: clockwise, facelet `i` goes
      to `i + 2` (0 to 2, 7 to 1); counter-clockwise, to `i - 2`. */
  lemma {:induction false} TurnShiftsOwnRing(s: CubeState, side: Color)
    ensures Turn(s, side, true)[side] == RingClockwise(s[side])
    ensures Turn(s, side, false)[side] == RingCounterClockwise(s[side])
  {
    var cw, ccw := Turn(s, side, true)[side], Turn(s, side, false)[side];
    FacesEqual(cw, RingClockwise(s[side]));
    FacesEqual(ccw, RingCounterClockwise(s[side]));
  }

  /** A turn moves only the turned side and the strips its connection entries
      name: every other facelet keeps its colour. In particular the opposite
      side does not change. */
  lemma TurnFrame(s: CubeState, side: Color, clockwise: bool, p: Facelet)
    requires p.side != side && !InStrip(side, p)
    ensures At(Turn(s, side, clockwise), p) == At(s, p)
  {
  }

  lemma TurnLeavesOppositeSide(s: CubeState, side: Color, clockwise: bool)
    ensures Turn(s, side, clockwise)[Opposite(side)] == s[Opposite(side)]
  {
    var o := Opposite(side);
    forall i: RingIndex ensures Turn(s, side, clockwise)[o][i] == s[o][i] {
      assert EntryIndex(side, o) < 0;
    }
    assert forall i :: 0 <= i < 8 ==> Turn(s, side, clockwise)[o][i] == s[o][i];
  }

  /** A strip facelet receives the facelet in the same slot of the previous
      entry (clockwise) or the next entry (counter-clockwise). */
  lemma TurnCarriesStrips(s: CubeState, side: Color, clockwise: bool, j: int, k: int)
    requires 0 <= j < 4 && 0 <= k < 3
    ensures (ConnectionsWellFormed(side);
      var c := Connections(side);
      var from := c[if clockwise then (j + 3) % 4 else (j + 1) % 4];
      Turn(s, side, clockwise)[c[j].side][c[j].faces[k]] == s[from.side][from.faces[k]])
  {
    ConnectionsWellFormed(side);
    StripStep(Connections(side), side, clockwise, j, k);
  }

  // ---- the turn as strip writes ----

  /** The colours of a strip, in slot order. */
  function Strip(s: CubeState, e: Connection): (v: seq<Color>)
    requires |e.faces| == 3
    ensures |v| == 3
  {
    [s[e.side][e.faces[0]], s[e.side][e.faces[1]], s[e.side][e.faces[2]]]
  }

  /** `s` with the strip `e` overwritten by `v`. */
  function WriteStrip(s: CubeState, e: Connection, v: seq<Color>): CubeState
    requires |e.faces| == 3 && |v| == 3
  {
    s[e.side := s[e.side][e.faces[0] := v[0]][e.faces[1] := v[1]][e.faces[2] := v[2]]]
  }

  /** Writing a strip changes exactly its three facelets, slot by slot. */
  lemma WriteStripCell(s: CubeState, e: Connection, v: seq<Color>, p: Facelet)
    requires DistinctTriple(e.faces) && |v| == 3
    ensures At(WriteStrip(s, e, v), p)
         == if p.side == e.side && p.index in e.faces then v[SlotIndex(e.faces, p.index)] else At(s, p)
  {
  }

  /** `s` with the turned side's ring shifted and nothing else moved. This
      is all that Cube.java's `rotateClockwise` and `rotateCounterClockwise`
      do (a 16-bit rotation of that side's packed `long`); the quarter turn
      below also carries the four strips around the side. */
  function TurnRing(s: CubeState, side: Color, clockwise: bool): CubeState
  {
    s[side := if clockwise then RingClockwise(s[side]) else RingCounterClockwise(s[side])]
  }

  /** `TurnRing` shifts the turned side's ring and leaves the other five
      sides as they were. */
  lemma TurnRingMovesOwnRingOnly(s: CubeState, side: Color, clockwise: bool)
    ensures TurnRing(s, side, clockwise)[side] == (if clockwise then RingClockwise(s[side]) else RingCounterClockwise(s[side]))
    ensures forall f :: 0 <= f < 6 && f != side ==> TurnRing(s, side, clockwise)[f] == s[f]
  {
  }

  /** `r` with the first `n` strips of `c` overwritten by the strips of `s`
      they receive. */
  function WriteStrips(c: seq<Connection>, side: Color, clockwise: bool, s: CubeState, r: CubeState, n: int): (t: CubeState)
    requires WellFormed(side, c) && 0 <= n <= 4
  {
    if n == 0 then r
    else
      WriteStrip(WriteStrips(c, side, clockwise, s, r, n - 1), c[n - 1], Strip(s, c[FromEntry(n - 1, clockwise)]))
  }

  /** In a well-formed list, the entry naming entry `j`'s side is `j`. */
  lemma EntryOfSide(c: seq<Connection>, side: Color, j: int)
    requires WellFormed(side, c) && 0 <= j < 4
    ensures EntryIn(c, c[j].side) == j
  {
  }

  /** After `n` strip writes, the written strips hold what a turn brings
      them and everything else is as in `r`. */
  lemma {:induction false} WriteStripsCell(c: seq<Connection>, side: Color, clockwise: bool, s: CubeState, r: CubeState, n: int, p: Facelet)
    requires WellFormed(side, c) && 0 <= n <= 4
    ensures var j := EntryIn(c, p.side);
      At(WriteStrips(c, side, clockwise, s, r, n), p) ==
        if 0 <= j < n && p.index in c[j].faces then At(s, SourceIn(c, side, clockwise, p)) else At(r, p)
  {
    if n > 0 {
      var from := c[FromEntry(n - 1, clockwise)];
      WriteStripsCell(c, side, clockwise, s, r, n - 1, p);
      WriteStripCell(WriteStrips(c, side, clockwise, s, r, n - 1), c[n - 1], Strip(s, from), p);
      if p.side == c[n - 1].side {
        EntryOfSide(c, side, n - 1);
        if p.index in c[n - 1].faces {
          var k := SlotIndex(c[n - 1].faces, p.index);
          assert SourceIn(c, side, clockwise, p) == Facelet(from.side, from.faces[k]);
        }
      }
    }
  }

  /** A quarter turn done the way a program does it: shift the side's own
      ring, then write each of the four strips with the colours its
      predecessor (clockwise) or successor (counter-clockwise) held. */
  function Rotated(s: CubeState, side: Color, clockwise: bool): CubeState
  {
    ConnectionsWellFormed(side);
    var c := Connections(side);
    var r0 := TurnRing(s, side, clockwise);
    var r1 := WriteStrip(r0, c[0], Strip(s, c[FromEntry(0, clockwise)]));
    var r2 := WriteStrip(r1, c[1], Strip(s, c[FromEntry(1, clockwise)]));
    var r3 := WriteStrip(r2, c[2], Strip(s, c[FromEntry(2, clockwise)]));
    WriteStrip(r3, c[3], Strip(s, c[FromEntry(3, clockwise)]))
  }

  lemma RotatedWritesStrips(s: CubeState, side: Color, clockwise: bool)
    ensures (ConnectionsWellFormed(side);
      Rotated(s, side, clockwise) == WriteStrips(Connections(side), side, clockwise, s, TurnRing(s, side, clockwise), 4))
  {
    ConnectionsWellFormed(side);
    var c, r0 := Connections(side), TurnRing(s, side, clockwise);
    var r1 := WriteStrip(r0, c[0], Strip(s, c[FromEntry(0, clockwise)]));
    var r2 := WriteStrip(r1, c[1], Strip(s, c[FromEntry(1, clockwise)]));
    var r3 := WriteStrip(r2, c[2], Strip(s, c[FromEntry(2, clockwise)]));
    assert WriteStrips(c, side, clockwise, s, r0, 1) == r1;
    assert WriteStrips(c, side, clockwise, s, r0, 2) == r2;
    assert WriteStrips(c, side, clockwise, s, r0, 3) == r3;
  }

  /** Each facelet of `Rotated` holds the colour `Source` names. */
  lemma RotatedCell(s: CubeState, side: Color, clockwise: bool, p: Facelet)
    ensures At(Rotated(s, side, clockwise), p) == At(s, Source(side, clockwise, p))
  {
    ConnectionsWellFormed(side);
    var c, r0 := Connections(side), TurnRing(s, side, clockwise);
    RotatedWritesStrips(s, side, clockwise);
    WriteStripsCell(c, side, clockwise, s, r0, 4, p);
    if p.side == side {
      RingFrom(s[side], clockwise, p.index);
    }
  }

  /** Facelet `i` of a turned ring comes from ring position `FromRing(i, clockwise)`. */
  lemma RingFrom(f: Face, clockwise: bool, i: RingIndex)
    ensures (if clockwise then RingClockwise(f) else RingCounterClockwise(f))[i] == f[FromRing(i, clockwise)]
  {
    var k: int := FromRing(i, clockwise);
    if clockwise {
      assert (k + 2) % 8 == i;
    } else {
      assert (k + 6) % 8 == i;
    }
  }

  /** Writing the strips gives exactly the facelet permutation of `Turn`. */
  lemma RotatedIsTurn(s: CubeState, side: Color, clockwise: bool)
    ensures Rotated(s, side, clockwise) == Turn(s, side, clockwise)
  {
    var r, t := Rotated(s, side, clockwise), Turn(s, side, clockwise);
    forall f: Color, i: RingIndex ensures r[f][i] == t[f][i] {
      RotatedCell(s, side, clockwise, Facelet(f, i));
    }
    FaceletsEqual(r, t);
  }

  // ---- sequences of turns ----

  /** One quarter turn: a side and a direction. */
  datatype QuarterTurn = QuarterTurn(side: Color, clockwise: bool)

  /** The state after the turns of `ts`, first to last. */
  function ApplyAll(s: CubeState, ts: seq<QuarterTurn>): (r: CubeState)
    ensures ts == [] ==> r == s
  {
    if ts == [] then s
    else
      var last := ts[|ts| - 1];
      Turn(ApplyAll(s, ts[..|ts| - 1]), last.side, last.clockwise)
  }

  /** The turns that undo `ts`: the same sides in reverse order, each turned
      the other way. */
  function Inverse(ts: seq<QuarterTurn>): (r: seq<QuarterTurn>)
    ensures |r| == |ts|
    ensures forall i :: 0 <= i < |ts| ==>
      r[i] == QuarterTurn(ts[|ts| - 1 - i].side, !ts[|ts| - 1 - i].clockwise)
  {
    if ts == [] then []
    else
      var last := ts[|ts| - 1];
      [QuarterTurn(last.side, !last.clockwise)] + Inverse(ts[..|ts| - 1])
  }

  /** Applying a turn and then a sequence is applying the longer sequence. */
  lemma {:induction false} ApplyAllPrepend(s: CubeState, t: QuarterTurn, ts: seq<QuarterTurn>)
    ensures ApplyAll(s, [t] + ts) == ApplyAll(Turn(s, t.side, t.clockwise), ts)
  {
    if ts == [] {
      assert ([t] + ts)[..0] == [];
    } else {
      assert ([t] + ts)[..|ts|] == [t] + ts[..|ts| - 1];
      ApplyAllPrepend(s, t, ts[..|ts| - 1]);
    }
  }

  /** Applying a sequence and then one more turn. */
  lemma ApplyAllAppend(s: CubeState, ts: seq<QuarterTurn>, t: QuarterTurn)
    ensures ApplyAll(s, ts + [t]) == Turn(ApplyAll(s, ts), t.side, t.clockwise)
  {
    assert (ts + [t])[..|ts|] == ts;
  }

  /** Applying one sequence and then another is applying their
      concatenation. */
  lemma {:induction false} ApplyAllConcat(s: CubeState, a: seq<QuarterTurn>, b: seq<QuarterTurn>)
    ensures ApplyAll(s, a + b) == ApplyAll(ApplyAll(s, a), b)
  {
    if b == [] {
      assert a + b == a;
    } else {
      var init, last := b[..|b| - 1], b[|b| - 1];
      assert a + b == (a + init) + [last];
      assert b == init + [last];
      ApplyAllAppend(s, a + init, last);
      ApplyAllConcat(s, a, init);
      ApplyAllAppend(ApplyAll(s, a), init, last);
    }
  }

  /** The inverse sequence undoes any sequence of turns. */
  lemma {:induction false} InverseUndoes(s: CubeState, ts: seq<QuarterTurn>)
    ensures ApplyAll(ApplyAll(s, ts), Inverse(ts)) == s
  {
    if ts != [] {
      var init, last := ts[..|ts| - 1], ts[|ts| - 1];
      var u := QuarterTurn(last.side, !last.clockwise);
      ApplyAllPrepend(ApplyAll(s, ts), u, Inverse(init));
      TurnInverse(ApplyAll(s, init), last.side, last.clockwise);
      assert !u.clockwise == last.clockwise;
      InverseUndoes(s, init);
    }
  }

  // ---- the CubeTest scenarios ----

  lemma StatesEqual(a: CubeState, b: CubeState)
    requires a[0] == b[0] && a[1] == b[1] && a[2] == b[2]
    requires a[3] == b[3] && a[4] == b[4] && a[5] == b[5]
    ensures a == b
  {
  }

  /** A side face whose bottom row (facelets 4, 5, 6) shows `bottom`. */
  function WithBottom(side: Color, bottom: Color): Face
  {
    [side, side, side, side, bottom, bottom, bottom, side]
  }

  /** WHITE and YELLOW in contrasting checkers, every side face plain. */
  function CheckeredPoles(): CubeState
  {
    [[WHITE, YELLOW, WHITE, YELLOW, WHITE, YELLOW, WHITE, YELLOW],
     [RED, RED, RED, RED, RED, RED, RED, RED],
     [ORANGE, ORANGE, ORANGE, ORANGE, ORANGE, ORANGE, ORANGE, ORANGE],
     [YELLOW, WHITE, YELLOW, WHITE, YELLOW, WHITE, YELLOW, WHITE],
     [GREEN, GREEN, GREEN, GREEN, GREEN, GREEN, GREEN, GREEN],
     [BLUE, BLUE, BLUE, BLUE, BLUE, BLUE, BLUE, BLUE]]
  }

  /** `CheckeredPoles` is CubeTest's starting cube. */
  lemma CheckeredPolesSides()
    ensures CheckeredPoles() == [Checker(WHITE, YELLOW).colors, All(RED).colors, All(ORANGE).colors,
                                 Checker(YELLOW, WHITE).colors, All(GREEN).colors, All(BLUE).colors]
  {
  }

  /** What CubeTest expects after turning WHITE of `CheckeredPoles`: the
      poles unchanged, and each side face's bottom row taken from the side
      before it around WHITE (clockwise) or after it (counter-clockwise). */
  function AfterWhiteTurn(clockwise: bool): CubeState
  {
    if clockwise then
      [[WHITE, YELLOW, WHITE, YELLOW, WHITE, YELLOW, WHITE, YELLOW],
       [RED, RED, RED, RED, BLUE, BLUE, BLUE, RED],
       [ORANGE, ORANGE, ORANGE, ORANGE, GREEN, GREEN, GREEN, ORANGE],
       [YELLOW, WHITE, YELLOW, WHITE, YELLOW, WHITE, YELLOW, WHITE],
       [GREEN, GREEN, GREEN, GREEN, RED, RED, RED, GREEN],
       [BLUE, BLUE, BLUE, BLUE, ORANGE, ORANGE, ORANGE, BLUE]]
    else
      [[WHITE, YELLOW, WHITE, YELLOW, WHITE, YELLOW, WHITE, YELLOW],
       [RED, RED, RED, RED, GREEN, GREEN, GREEN, RED],
       [ORANGE, ORANGE, ORANGE, ORANGE, BLUE, BLUE, BLUE, ORANGE],
       [YELLOW, WHITE, YELLOW, WHITE, YELLOW, WHITE, YELLOW, WHITE],
       [GREEN, GREEN, GREEN, GREEN, ORANGE, ORANGE, ORANGE, GREEN],
       [BLUE, BLUE, BLUE, BLUE, RED, RED, RED, BLUE]]
  }

  /** The expected states are CubeTest's: the poles as they were and each
      side face with its bottom row recoloured. */
  lemma AfterWhiteTurnSides(clockwise: bool)
    ensures AfterWhiteTurn(clockwise)
         == [CheckeredPoles()[WHITE],
             WithBottom(RED, if clockwise then BLUE else GREEN),
             WithBottom(ORANGE, if clockwise then GREEN else BLUE),
             CheckeredPoles()[YELLOW],
             WithBottom(GREEN, if clockwise then RED else ORANGE),
             WithBottom(BLUE, if clockwise then ORANGE else RED)]
  {
  }

  /** Turning WHITE clockwise carries the bottom rows RED to GREEN to ORANGE
      to BLUE to RED, counter-clockwise the other way; WHITE's checker ring
      looks the same after the shift and YELLOW is untouched. */
  lemma WhiteTurnScenario(clockwise: bool)
    ensures Turn(CheckeredPoles(), WHITE, clockwise) == AfterWhiteTurn(clockwise)
  {
    RotatedIsTurn(CheckeredPoles(), WHITE, clockwise);
    if clockwise {
      WhiteClockwiseRotated();
    } else {
      WhiteCounterClockwiseRotated();
    }
  }

  lemma WhiteClockwiseRotated()
    ensures Rotated(CheckeredPoles(), WHITE, true) == AfterWhiteTurn(true)
  {
    var t, e := Rotated(CheckeredPoles(), WHITE, true), AfterWhiteTurn(true);
    FacesEqual(t[0], e[0]); FacesEqual(t[1], e[1]); FacesEqual(t[2], e[2]);
    FacesEqual(t[3], e[3]); FacesEqual(t[4], e[4]); FacesEqual(t[5], e[5]);
    StatesEqual(t, e);
  }

  lemma WhiteCounterClockwiseRotated()
    ensures Rotated(CheckeredPoles(), WHITE, false) == AfterWhiteTurn(false)
  {
    var t, e := Rotated(CheckeredPoles(), WHITE, false), AfterWhiteTurn(false);
    FacesEqual(t[0], e[0]); FacesEqual(t[1], e[1]); FacesEqual(t[2], e[2]);
    FacesEqual(t[3], e[3]); FacesEqual(t[4], e[4]); FacesEqual(t[5], e[5]);
    StatesEqual(t, e);
  }

  /** Turning only the own ring, as Cube.java writes the rotations, fails
      CubeTest's scenario: RED's bottom row stays RED, where the test expects
      BLUE (clockwise) or GREEN (counter-clockwise) carried in from beside. */
  lemma RingOnlyTurnMissesScenario(clockwise: bool)
    ensures TurnRing(CheckeredPoles(), WHITE, clockwise)[RED][4] == RED
    ensures Turn(CheckeredPoles(), WHITE, clockwise)[RED][4] == (if clockwise then BLUE else GREEN)
    ensures TurnRing(CheckeredPoles(), WHITE, clockwise) != AfterWhiteTurn(clockwise)
  {
    WhiteTurnScenario(clockwise);
  }

  /** The eight turns of CubeTest's scramble, in order. */
  function Scramble(): (ts: seq<QuarterTurn>)
    ensures |ts| == 8
  {
    [QuarterTurn(WHITE, true), QuarterTurn(ORANGE, false), QuarterTurn(BLUE, true), QuarterTurn(RED, true), QuarterTurn(BLUE, false), QuarterTurn(WHITE, true), QuarterTurn(YELLOW, false), QuarterTurn(GREEN, false)]
  }

  /** The cube after the first `k` turns of the scramble: the solved cube
      for 0 and the state CubeTest expects for 8. */
  function ScrambleState(k: int): CubeState
    requires 0 <= k <= 8
  {
    match k
    case 0 =>
      [[WHITE, WHITE, WHITE, WHITE, WHITE, WHITE, WHITE, WHITE],
       [RED, RED, RED, RED, RED, RED, RED, RED],
       [ORANGE, ORANGE, ORANGE, ORANGE, ORANGE, ORANGE, ORANGE, ORANGE],
       [YELLOW, YELLOW, YELLOW, YELLOW, YELLOW, YELLOW, YELLOW, YELLOW],
       [GREEN, GREEN, GREEN, GREEN, GREEN, GREEN, GREEN, GREEN],
       [BLUE, BLUE, BLUE, BLUE, BLUE, BLUE, BLUE, BLUE]]
    case 1 =>
      [[WHITE, WHITE, WHITE, WHITE, WHITE, WHITE, WHITE, WHITE],
       [RED, RED, RED, RED, BLUE, BLUE, BLUE, RED],
       [ORANGE, ORANGE, ORANGE, ORANGE, GREEN, GREEN, GREEN, ORANGE],
       [YELLOW, YELLOW, YELLOW, YELLOW, YELLOW, YELLOW, YELLOW, YELLOW],
       [GREEN, GREEN, GREEN, GREEN, RED, RED, RED, GREEN],
       [BLUE, BLUE, BLUE, BLUE, ORANGE, ORANGE, ORANGE, BLUE]]
    case 2 =>
      [[WHITE, WHITE, GREEN, GREEN, RED, WHITE, WHITE, WHITE],
       [RED, RED, RED, RED, BLUE, BLUE, BLUE, RED],
       [ORANGE, ORANGE, GREEN, GREEN, GREEN, ORANGE, ORANGE, ORANGE],
       [YELLOW, YELLOW, ORANGE, BLUE, BLUE, YELLOW, YELLOW, YELLOW],
       [GREEN, GREEN, YELLOW, YELLOW, YELLOW, RED, RED, GREEN],
       [WHITE, BLUE, BLUE, BLUE, ORANGE, ORANGE, WHITE, WHITE]]
    case 3 =>
      [[WHITE, WHITE, GREEN, GREEN, BLUE, RED, RED, WHITE],
       [ORANGE, RED, RED, RED, BLUE, BLUE, YELLOW, YELLOW],
       [ORANGE, ORANGE, RED, WHITE, WHITE, ORANGE, ORANGE, ORANGE],
       [GREEN, GREEN, GREEN, BLUE, BLUE, YELLOW, YELLOW, YELLOW],
       [GREEN, GREEN, YELLOW, YELLOW, YELLOW, RED, RED, GREEN],
       [WHITE, WHITE, WHITE, BLUE, BLUE, BLUE, ORANGE, ORANGE]]
    case 4 =>
      [[GREEN, WHITE, GREEN, GREEN, BLUE, RED, RED, GREEN],
       [YELLOW, YELLOW, ORANGE, RED, RED, RED, BLUE, BLUE],
       [ORANGE, ORANGE, RED, WHITE, WHITE, ORANGE, ORANGE, ORANGE],
       [BLUE, GREEN, GREEN, BLUE, BLUE, YELLOW, WHITE, BLUE],
       [GREEN, GREEN, YELLOW, YELLOW, YELLOW, RED, YELLOW, YELLOW],
       [WHITE, WHITE, RED, WHITE, WHITE, BLUE, ORANGE, ORANGE]]
    case 5 =>
      [[GREEN, WHITE, GREEN, GREEN, RED, WHITE, WHITE, GREEN],
       [RED, YELLOW, ORANGE, RED, RED, RED, BLUE, RED],
       [ORANGE, ORANGE, BLUE, GREEN, GREEN, ORANGE, ORANGE, ORANGE],
       [BLUE, BLUE, YELLOW, BLUE, BLUE, YELLOW, WHITE, BLUE],
       [GREEN, GREEN, YELLOW, YELLOW, YELLOW, RED, YELLOW, YELLOW],
       [RED, WHITE, WHITE, BLUE, ORANGE, ORANGE, WHITE, WHITE]]
    case 6 =>
      [[WHITE, GREEN, GREEN, WHITE, GREEN, GREEN, RED, WHITE],
       [RED, YELLOW, ORANGE, RED, ORANGE, ORANGE, WHITE, RED],
       [ORANGE, ORANGE, BLUE, GREEN, YELLOW, RED, YELLOW, ORANGE],
       [BLUE, BLUE, YELLOW, BLUE, BLUE, YELLOW, WHITE, BLUE],
       [GREEN, GREEN, YELLOW, YELLOW, RED, RED, BLUE, YELLOW],
       [RED, WHITE, WHITE, BLUE, GREEN, ORANGE, ORANGE, WHITE]]
    case 7 =>
      [[WHITE, GREEN, GREEN, WHITE, GREEN, GREEN, RED, WHITE],
       [RED, WHITE, WHITE, RED, ORANGE, ORANGE, WHITE, RED],
       [GREEN, GREEN, YELLOW, GREEN, YELLOW, RED, YELLOW, ORANGE],
       [YELLOW, BLUE, BLUE, YELLOW, WHITE, BLUE, BLUE, BLUE],
       [RED, YELLOW, ORANGE, YELLOW, RED, RED, BLUE, YELLOW],
       [ORANGE, ORANGE, BLUE, BLUE, GREEN, ORANGE, ORANGE, WHITE]]
    case 8 =>
      [[WHITE, RED, ORANGE, WHITE, GREEN, GREEN, RED, WHITE],
       [RED, WHITE, WHITE, BLUE, BLUE, ORANGE, WHITE, RED],
       [GREEN, GREEN, YELLOW, GREEN, YELLOW, RED, WHITE, GREEN],
       [YELLOW, BLUE, BLUE, YELLOW, YELLOW, ORANGE, GREEN, BLUE],
       [ORANGE, YELLOW, RED, RED, BLUE, YELLOW, RED, YELLOW],
       [ORANGE, ORANGE, BLUE, BLUE, GREEN, ORANGE, ORANGE, WHITE]]
  }

  lemma ScrambleTurn1()
    ensures Rotated(ScrambleState(0), WHITE, true) == ScrambleState(1)
  {
    var t, e := Rotated(ScrambleState(0), WHITE, true), ScrambleState(1);
    FacesEqual(t[0], e[0]); FacesEqual(t[1], e[1]); FacesEqual(t[2], e[2]);
    FacesEqual(t[3], e[3]); FacesEqual(t[4], e[4]); FacesEqual(t[5], e[5]);
    StatesEqual(t, e);
  }

  lemma ScrambleTurn2()
    ensures Rotated(ScrambleState(1), ORANGE, false) == ScrambleState(2)
  {
    var t, e := Rotated(ScrambleState(1), ORANGE, false), ScrambleState(2);
    FacesEqual(t[0], e[0]); FacesEqual(t[1], e[1]); FacesEqual(t[2], e[2]);
    FacesEqual(t[3], e[3]); FacesEqual(t[4], e[4]); FacesEqual(t[5], e[5]);
    StatesEqual(t, e);
  }

  lemma ScrambleTurn3()
    ensures Rotated(ScrambleState(2), BLUE, true) == ScrambleState(3)
  {
    var t, e := Rotated(ScrambleState(2), BLUE, true), ScrambleState(3);
    FacesEqual(t[0], e[0]); FacesEqual(t[1], e[1]); FacesEqual(t[2], e[2]);
    FacesEqual(t[3], e[3]); FacesEqual(t[4], e[4]); FacesEqual(t[5], e[5]);
    StatesEqual(t, e);
  }

  lemma ScrambleTurn4()
    ensures Rotated(ScrambleState(3), RED, true) == ScrambleState(4)
  {
    var t, e := Rotated(ScrambleState(3), RED, true), ScrambleState(4);
    FacesEqual(t[0], e[0]); FacesEqual(t[1], e[1]); FacesEqual(t[2], e[2]);
    FacesEqual(t[3], e[3]); FacesEqual(t[4], e[4]); FacesEqual(t[5], e[5]);
    StatesEqual(t, e);
  }

  lemma ScrambleTurn5()
    ensures Rotated(ScrambleState(4), BLUE, false) == ScrambleState(5)
  {
    var t, e := Rotated(ScrambleState(4), BLUE, false), ScrambleState(5);
    FacesEqual(t[0], e[0]); FacesEqual(t[1], e[1]); FacesEqual(t[2], e[2]);
    FacesEqual(t[3], e[3]); FacesEqual(t[4], e[4]); FacesEqual(t[5], e[5]);
    StatesEqual(t, e);
  }

  lemma ScrambleTurn6()
    ensures Rotated(ScrambleState(5), WHITE, true) == ScrambleState(6)
  {
    var t, e := Rotated(ScrambleState(5), WHITE, true), ScrambleState(6);
    FacesEqual(t[0], e[0]); FacesEqual(t[1], e[1]); FacesEqual(t[2], e[2]);
    FacesEqual(t[3], e[3]); FacesEqual(t[4], e[4]); FacesEqual(t[5], e[5]);
    StatesEqual(t, e);
  }

  lemma ScrambleTurn7()
    ensures Rotated(ScrambleState(6), YELLOW, false) == ScrambleState(7)
  {
    var t, e := Rotated(ScrambleState(6), YELLOW, false), ScrambleState(7);
    FacesEqual(t[0], e[0]); FacesEqual(t[1], e[1]); FacesEqual(t[2], e[2]);
    FacesEqual(t[3], e[3]); FacesEqual(t[4], e[4]); FacesEqual(t[5], e[5]);
    StatesEqual(t, e);
  }

  lemma ScrambleTurn8()
    ensures Rotated(ScrambleState(7), GREEN, false) == ScrambleState(8)
  {
    var t, e := Rotated(ScrambleState(7), GREEN, false), ScrambleState(8);
    FacesEqual(t[0], e[0]); FacesEqual(t[1], e[1]); FacesEqual(t[2], e[2]);
    FacesEqual(t[3], e[3]); FacesEqual(t[4], e[4]); FacesEqual(t[5], e[5]);
    StatesEqual(t, e);
  }

  /** Each turn of the scramble takes one recorded state to the next. */
  lemma ScrambleStep(k: int)
    requires 0 <= k < 8
    ensures Turn(ScrambleState(k), Scramble()[k].side, Scramble()[k].clockwise) == ScrambleState(k + 1)
  {
    match k
    case 0 => ScrambleTurn1(); RotatedIsTurn(ScrambleState(0), WHITE, true);
    case 1 => ScrambleTurn2(); RotatedIsTurn(ScrambleState(1), ORANGE, false);
    case 2 => ScrambleTurn3(); RotatedIsTurn(ScrambleState(2), BLUE, true);
    case 3 => ScrambleTurn4(); RotatedIsTurn(ScrambleState(3), RED, true);
    case 4 => ScrambleTurn5(); RotatedIsTurn(ScrambleState(4), BLUE, false);
    case 5 => ScrambleTurn6(); RotatedIsTurn(ScrambleState(5), WHITE, true);
    case 6 => ScrambleTurn7(); RotatedIsTurn(ScrambleState(6), YELLOW, false);
    case 7 => ScrambleTurn8(); RotatedIsTurn(ScrambleState(7), GREEN, false);
  }

  /** The first `k` scramble turns lead from the solved cube to `ScrambleState(k)`. */
  lemma {:induction false} ScramblePrefix(k: int)
    requires 0 <= k <= 8
    ensures ApplyAll(Solved(), Scramble()[..k]) == ScrambleState(k)
  {
    if k > 0 {
      ScramblePrefix(k - 1);
      assert Scramble()[..k] == Scramble()[..k - 1] + [Scramble()[k - 1]];
      ApplyAllAppend(Solved(), Scramble()[..k - 1], Scramble()[k - 1]);
      ScrambleStep(k - 1);
    }
  }

  /** CubeTest's scramble and unscramble: the eight turns give the recorded
      state, and the second list of eight turns, which is the scramble undone
      in reverse, returns the solved cube. */
  lemma ScrambleScenario()
    ensures ApplyAll(Solved(), Scramble()) == ScrambleState(8)
    ensures ApplyAll(ScrambleState(8),
      [QuarterTurn(GREEN, true), QuarterTurn(YELLOW, true), QuarterTurn(WHITE, false), QuarterTurn(BLUE, true),
       QuarterTurn(RED, false), QuarterTurn(BLUE, false), QuarterTurn(ORANGE, true), QuarterTurn(WHITE, false)])
      == Solved()
  {
    ScramblePrefix(8);
    assert Scramble()[..8] == Scramble();
    InverseUndoes(Solved(), Scramble());
    assert Inverse(Scramble()) ==
      [QuarterTurn(GREEN, true), QuarterTurn(YELLOW, true), QuarterTurn(WHITE, false), QuarterTurn(BLUE, true),
       QuarterTurn(RED, false), QuarterTurn(BLUE, false), QuarterTurn(ORANGE, true), QuarterTurn(WHITE, false)];
  }

  // ---- queries ----

  /** `getColorOfEdgePiece(a, b)`: the colour of `a`'s facelet on the edge it
      shares with `b`. Sides that do not touch share no edge. */
  function EdgeColor(s: CubeState, a: Color, b: Color): (r: Result<Color>)
    ensures r.Ok? <==> b != a && b != Opposite(a)
    ensures r.Ok? ==> r.value == s[a][EdgeFacelet(false, a, b)]
  {
    Adjacency(a, b);
    var j := EntryIndex(b, a);
    if j < 0 then Err(IllegalArgument("sides do not touch"))
    else Ok(s[a][Connections(b)[j].faces[1]])
  }

  /** `getAdjacentSideFromConnectedSideWithOffset(base, side, k)`: the entry
      `k` places after `side`'s in `base`'s list, counted around the list. */
  function AdjacentWithOffset(base: Color, side: Color, offset: int): (r: Result<Connection>)
    ensures EntryIndex(base, side) >= 0 && offset >= -4 ==> r.Ok?
    ensures r.Ok? ==>
      EntryIndex(base, side) >= 0 && r.value == Connections(base)[(EntryIndex(base, side) + offset) % 4]
  {
    var j := EntryIndex(base, side);
    if j < 0 then Err(IllegalArgument("side is not connected"))
    else ArrayUtil.LoopedIndex(Connections(base), j + offset)
  }

  /** The first of `side`'s edge facelets in connection order: 7 on WHITE
      and YELLOW, 1 on the side faces. */
  function FirstEdge(side: Color): (e: RingIndex)
    ensures e % 2 == 1
  {
    if side == WHITE || side == YELLOW then 7 else 1
  }

  lemma FirstEdgeIsEdge(side: Color)
    ensures FirstEdge(side) == EdgeFacelets(false, side)[0]
  {
    EdgesFollowTheRing(side);
    match side
    case 0 => assert EdgeFacelet(false, 0, RED) == 7;
    case 1 => assert EdgeFacelet(false, 1, YELLOW) == 1;
    case 2 => assert EdgeFacelet(false, 2, YELLOW) == 1;
    case 3 => assert EdgeFacelet(false, 3, RED) == 7;
    case 4 => assert EdgeFacelet(false, 4, YELLOW) == 1;
    case 5 => assert EdgeFacelet(false, 5, YELLOW) == 1;
  }

  /** The ring index of `side` at the corner between entries `j` and `j + 1`,
      one place after the edge entry `j` names: `2j` on WHITE and YELLOW,
      whose first edge is 7, and `2j + 2` around eight on the side faces. */
  function CornerIndex(side: Color, j: int): (i: RingIndex)
    requires 0 <= j < 4
    ensures i % 2 == 0
  {
    if FirstEdge(side) == 7 then 2 * j
    else if j == 3 then 0 else 2 * j + 2
  }

  /** The entry `j` whose corner with entry `j + 1` is at `index`. */
  function CornerEntry(side: Color, index: RingIndex): (j: int)
    requires index % 2 == 0
    ensures 0 <= j < 4 && CornerIndex(side, j) == index
  {
    var k := if index == 0 then 0 else if index == 2 then 1 else if index == 4 then 2 else 3;
    if side == WHITE || side == YELLOW then k
    else if k == 0 then 3 else k - 1
  }

  /** Each corner index belongs to one entry only. */
  lemma CornerEntryOfIndex(side: Color, j: int)
    requires 0 <= j < 4
    ensures CornerEntry(side, CornerIndex(side, j)) == j
  {
  }

  /** `getCornerPiece(side, index)`: the piece at corner `index` of `side`
      (0, 2, 4 or 6): the facelet there, then the last facelet of the strip
      of the entry before the corner and the first facelet of the strip of
      the entry after it. Other indices are not corners. */
  function CornerAt(s: CubeState, side: Color, index: int): (r: Result<CornerPiece>)
    ensures r.Ok? <==> 0 <= index < 8 && index % 2 == 0
    ensures r.Ok? ==> (StripsOfThree(side); var c, j := Connections(side), CornerEntry(side, index);
      var a, b := c[j], c[FromEntry(j, false)];
      r.value == CornerPiece(s[side][index], s[a.side][a.faces[2]], s[b.side][b.faces[0]]))
  {
    if !(0 <= index < 8 && index % 2 == 0) then Err(IllegalArgument("not a corner index"))
    else
      StripsOfThree(side);
      var c := Connections(side);
      var j := CornerEntry(side, index);
      var a := c[j];
      var b := c[FromEntry(j, false)];
      Ok(CornerPiece(s[side][index], s[a.side][a.faces[2]], s[b.side][b.faces[0]]))
  }

  lemma CornerYellowTopLeft()
    ensures CornerAt(ScrambleState(8), YELLOW, TOP_LEFT).Ok?
    ensures Equals(CornerAt(ScrambleState(8), YELLOW, TOP_LEFT).value, CornerPiece(YELLOW, BLUE, RED))
  {
    assert CornerAt(ScrambleState(8), YELLOW, TOP_LEFT) == Ok(CornerPiece(YELLOW, RED, BLUE));
    assert Equals(CornerPiece(YELLOW, RED, BLUE), CornerPiece(YELLOW, BLUE, RED));
  }

  lemma CornerYellowTopRight()
    ensures CornerAt(ScrambleState(8), YELLOW, TOP_RIGHT).Ok?
    ensures Equals(CornerAt(ScrambleState(8), YELLOW, TOP_RIGHT).value, CornerPiece(BLUE, ORANGE, YELLOW))
  {
    assert CornerAt(ScrambleState(8), YELLOW, TOP_RIGHT) == Ok(CornerPiece(BLUE, ORANGE, YELLOW));
    assert Equals(CornerPiece(BLUE, ORANGE, YELLOW), CornerPiece(BLUE, ORANGE, YELLOW));
  }

  lemma CornerOrangeBottomLeft()
    ensures CornerAt(ScrambleState(8), ORANGE, BOTTOM_LEFT).Ok?
    ensures Equals(CornerAt(ScrambleState(8), ORANGE, BOTTOM_LEFT).value, CornerPiece(WHITE, ORANGE, BLUE))
  {
    assert CornerAt(ScrambleState(8), ORANGE, BOTTOM_LEFT) == Ok(CornerPiece(WHITE, ORANGE, BLUE));
    assert Equals(CornerPiece(WHITE, ORANGE, BLUE), CornerPiece(WHITE, ORANGE, BLUE));
  }

  lemma CornerWhiteBottomRight()
    ensures CornerAt(ScrambleState(8), WHITE, BOTTOM_RIGHT).Ok?
    ensures Equals(CornerAt(ScrambleState(8), WHITE, BOTTOM_RIGHT).value, CornerPiece(GREEN, ORANGE, YELLOW))
  {
    assert CornerAt(ScrambleState(8), WHITE, BOTTOM_RIGHT) == Ok(CornerPiece(GREEN, YELLOW, ORANGE));
    assert Equals(CornerPiece(GREEN, YELLOW, ORANGE), CornerPiece(GREEN, ORANGE, YELLOW));
  }

  /** CubeTest's corner queries on the scrambled state: each returns a piece
      with the expected colours, in whatever order. */
  lemma CornerScenario()
    ensures var s := ScrambleState(8);
      && CornerAt(s, YELLOW, TOP_LEFT).Ok?
      && Equals(CornerAt(s, YELLOW, TOP_LEFT).value, CornerPiece(YELLOW, BLUE, RED))
      && CornerAt(s, YELLOW, TOP_RIGHT).Ok?
      && Equals(CornerAt(s, YELLOW, TOP_RIGHT).value, CornerPiece(BLUE, ORANGE, YELLOW))
      && CornerAt(s, ORANGE, BOTTOM_LEFT).Ok?
      && Equals(CornerAt(s, ORANGE, BOTTOM_LEFT).value, CornerPiece(WHITE, ORANGE, BLUE))
      && CornerAt(s, WHITE, BOTTOM_RIGHT).Ok?
      && Equals(CornerAt(s, WHITE, BOTTOM_RIGHT).value, CornerPiece(GREEN, ORANGE, YELLOW))
  {
    CornerYellowTopLeft();
    CornerYellowTopRight();
    CornerOrangeBottomLeft();
    CornerWhiteBottomRight();
  }

  // ---- the cube object ----

  /** The cube the solving steps share: six faces in colour order, turned in
      place. */
  class Cube {
    const faces: array<Face>

    ghost predicate Valid()
      reads this
    {
      faces.Length == 6
    }

    /** The current facelets. */
    function State(): CubeState
      reads this, faces
      requires Valid()
    {
      faces[..]
    }

    /** A cube holding the given sides, in colour order. */
    constructor(sides: seq<Side>)
      requires |sides| == 6
      ensures Valid() && fresh(faces)
      ensures GetSides() == sides
    {
      faces := new Face[6](i requires 0 <= i < 6 => sides[i].colors);
    }

    /** `getSides`: the six sides, in colour order. */
    function GetSides(): (r: seq<Side>)
      reads this, faces
      requires Valid()
      ensures |r| == 6 && forall i :: 0 <= i < 6 ==> r[i].colors == State()[i]
    {
      [Side(faces[0]), Side(faces[1]), Side(faces[2]), Side(faces[3]), Side(faces[4]), Side(faces[5])]
    }

    /** `rotateClockwise`. */
    method RotateClockwise(side: Color)
      requires Valid()
      modifies faces
      ensures Valid() && State() == Turn(old(State()), side, true)
    {
      Rotate(side, true);
    }

    /** `rotateCounterClockwise`. */
    method RotateCounterClockwise(side: Color)
      requires Valid()
      modifies faces
      ensures Valid() && State() == Turn(old(State()), side, false)
    {
      Rotate(side, false);
    }

    /** A quarter turn: read the four strips around `side`, shift `side`'s
        own ring, then write each strip with the colours the previous
        (clockwise) or next (counter-clockwise) strip held. */
    method Rotate(side: Color, clockwise: bool)
      requires Valid()
      modifies faces
      ensures Valid() && State() == Turn(old(State()), side, clockwise)
    {
      ConnectionsWellFormed(side);
      var c := Connections(side);
      var s := faces[..];
      var strips := [Strip(s, c[0]), Strip(s, c[1]), Strip(s, c[2]), Strip(s, c[3])];
      faces[side] := if clockwise then RingClockwise(faces[side]) else RingCounterClockwise(faces[side]);
      for j := 0 to 4
        invariant faces[..] == WriteStrips(c, side, clockwise, s, TurnRing(s, side, clockwise), j)
      {
        PutStrip(c[j], strips[FromEntry(j, clockwise)]);
      }
      RotatedWritesStrips(s, side, clockwise);
      RotatedIsTurn(s, side, clockwise);
    }

    /** One strip write of a turn: the three facelets of `e` take `v`. */
    method PutStrip(e: Connection, v: seq<Color>)
      requires Valid() && |e.faces| == 3 && |v| == 3
      modifies faces
      ensures Valid() && faces[..] == WriteStrip(old(faces[..]), e, v)
    {
      ghost var before := faces[..];
      faces[e.side] := faces[e.side][e.faces[0] := v[0]][e.faces[1] := v[1]][e.faces[2] := v[2]];
      assert faces[..] == before[e.side := faces[e.side]];
    }
  }
}
