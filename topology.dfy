/** How the six sides touch. Each side lists its four bordering sides in
    clockwise order; each entry names the three facelets of the bordering
    side that touch this side, ordered so that a clockwise turn of this side
    carries entry `j`'s facelet `k` onto entry `j + 1`'s facelet `k`. The
    middle facelet of an entry is an edge, the outer two are corners. */
module CubeTopology {
  import opened FaceColor

  /** A position on a side's ring of eight facelets. */
  type RingIndex = i: int | 0 <= i < 8

  const TOP_LEFT: RingIndex := 0
  const TOP_MIDDLE: RingIndex := 1
  const TOP_RIGHT: RingIndex := 2
  const BOTTOM_RIGHT: RingIndex := 4
  const BOTTOM_LEFT: RingIndex := 6

  datatype Connection = Connection(side: Color, faces: seq<RingIndex>)

  function BottomOf(side: Color): Connection { Connection(side, [6, 5, 4]) }
  function LeftOf(side: Color): Connection { Connection(side, [0, 7, 6]) }
  function TopOf(side: Color): Connection { Connection(side, [2, 1, 0]) }
  function RightOf(side: Color): Connection { Connection(side, [4, 3, 2]) }

  /** The side across the cube. */
  function Opposite(c: Color): (r: Color)
    ensures r != c
  {
    match c
    case 0 => YELLOW
    case 1 => ORANGE
    case 2 => RED
    case 3 => WHITE
    case 4 => BLUE
    case 5 => GREEN
  }

  predicate DistinctTriple(t: seq<RingIndex>)
  {
    |t| == 3 && t[0] != t[1] && t[0] != t[2] && t[1] != t[2]
  }

  /** A side face's four neighbours: the strip it shares with YELLOW, the side
      on its right, the strip it shares with WHITE, the side on its left. */
  function SideFaceConnections(onYellow: Connection, onWhite: Connection, left: Color, right: Color): seq<Connection>
  {
    [onYellow, LeftOf(right), onWhite, RightOf(left)]
  }

  /** A side's connection list is well formed when it has four entries naming
      four different sides other than the side itself, each entry a strip of
      three different facelets. */
  predicate WellFormed(side: Color, c: seq<Connection>)
  {
    && |c| == 4
    && (forall j :: 0 <= j < 4 ==> DistinctTriple(c[j].faces) && c[j].side != side)
    && (forall j, k :: 0 <= j < k < 4 ==> c[j].side != c[k].side)
  }

  /** `getConnections`: the connection table, with the strips each side face
      shares with YELLOW and WHITE worked out from the orientation the
      source's comment fixes. */
  function Connections(side: Color): (r: seq<Connection>)
    ensures |r| == 4
  {
    match side
    case 0 => [BottomOf(RED), BottomOf(GREEN), BottomOf(ORANGE), BottomOf(BLUE)]
    case 1 => SideFaceConnections(LeftOf(YELLOW), LeftOf(WHITE), BLUE, GREEN)
    case 2 => SideFaceConnections(RightOf(YELLOW), RightOf(WHITE), GREEN, BLUE)
    case 3 => [TopOf(RED), TopOf(BLUE), TopOf(ORANGE), TopOf(GREEN)]
    case 4 => SideFaceConnections(BottomOf(YELLOW), TopOf(WHITE), RED, ORANGE)
    case 5 => SideFaceConnections(TopOf(YELLOW), BottomOf(WHITE), ORANGE, RED)
  }

  /** Each side's list names four different sides, never the side itself or
      the side across from it, each with a strip of three different facelets. */
  lemma ConnectionsWellFormed(side: Color)
    ensures WellFormed(side, Connections(side))
    ensures forall j :: 0 <= j < 4 ==> Connections(side)[j].side != Opposite(side)
  {
    StripsDistinct();
    WellFormedByEntries(side, Connections(side));
  }

  /** Every strip has three facelets. */
  lemma StripsOfThree(side: Color)
    ensures forall j :: 0 <= j < 4 ==> |Connections(side)[j].faces| == 3
  {
  }

  lemma StripsDistinct()
    ensures DistinctTriple(BottomOf(0).faces) && DistinctTriple(LeftOf(0).faces)
    ensures DistinctTriple(TopOf(0).faces) && DistinctTriple(RightOf(0).faces)
  {
  }

  lemma WellFormedByEntries(side: Color, c: seq<Connection>)
    requires |c| == 4
    requires DistinctTriple(c[0].faces) && DistinctTriple(c[1].faces)
    requires DistinctTriple(c[2].faces) && DistinctTriple(c[3].faces)
    requires c[0].side != side && c[1].side != side && c[2].side != side && c[3].side != side
    requires c[0].side != c[1].side && c[0].side != c[2].side && c[0].side != c[3].side
    requires c[1].side != c[2].side && c[1].side != c[3].side && c[2].side != c[3].side
    ensures WellFormed(side, c)
  {
  }

  /** The table exactly as `createSideFaceSideConnections` builds it: every
      side face shares YELLOW's facelets 6, 5, 4 and WHITE's facelets 2, 1, 0.
      It agrees with `Connections` on the poles and on the side faces'
      left and right neighbours, and differs only in those pole strips. */
  function WrittenConnections(side: Color): (r: seq<Connection>)
    ensures |r| == 4
    ensures side == WHITE || side == YELLOW ==> r == Connections(side)
    ensures side != WHITE && side != YELLOW ==>
      && r[0] == BottomOf(YELLOW) && r[2] == TopOf(WHITE)
      && r[1] == Connections(side)[1] && r[3] == Connections(side)[3]
      && r[0].side == Connections(side)[0].side && r[2].side == Connections(side)[2].side
  {
    match side
    case 0 => [BottomOf(RED), BottomOf(GREEN), BottomOf(ORANGE), BottomOf(BLUE)]
    case 1 => SideFaceConnections(BottomOf(YELLOW), TopOf(WHITE), BLUE, GREEN)
    case 2 => SideFaceConnections(BottomOf(YELLOW), TopOf(WHITE), GREEN, BLUE)
    case 3 => [TopOf(RED), TopOf(BLUE), TopOf(ORANGE), TopOf(GREEN)]
    case 4 => SideFaceConnections(BottomOf(YELLOW), TopOf(WHITE), RED, ORANGE)
    case 5 => SideFaceConnections(BottomOf(YELLOW), TopOf(WHITE), ORANGE, RED)
  }

  /** The position of `n` in a connection list, or -1. */
  function EntryIn(c: seq<Connection>, n: Color): (j: int)
    requires |c| == 4
    ensures -1 <= j < 4
    ensures j >= 0 ==> c[j].side == n
  {
    if c[0].side == n then 0
    else if c[1].side == n then 1
    else if c[2].side == n then 2
    else if c[3].side == n then 3
    else -1
  }

  /** The position of `n` in `side`'s connection list, or -1. */
  function EntryIndex(side: Color, n: Color): (j: int)
    ensures -1 <= j < 4
    ensures j >= 0 ==> Connections(side)[j].side == n
  {
    EntryIn(Connections(side), n)
  }

  /** The position of `i` in a strip, or -1. */
  function SlotIndex(t: seq<RingIndex>, i: RingIndex): (k: int)
    requires |t| == 3
    ensures -1 <= k < 3
    ensures k >= 0 ==> t[k] == i
    ensures k < 0 <==> i !in t
  {
    if t[0] == i then 0 else if t[1] == i then 1 else if t[2] == i then 2 else -1
  }

  /** Opposite sides pair up. */
  lemma OppositeIsInvolution(c: Color)
    ensures Opposite(Opposite(c)) == c
  {
  }

  /** Two sides touch exactly when neither is the other or its opposite, and
      touching is symmetric. */
  lemma {:induction false} Adjacency(a: Color, b: Color)
    ensures EntryIndex(a, b) >= 0 <==> b != a && b != Opposite(a)
    ensures EntryIndex(a, b) >= 0 <==> EntryIndex(b, a) >= 0
  {
    match a
    case 0 => {}
    case 1 => {}
    case 2 => {}
    case 3 => {}
    case 4 => {}
    case 5 => {}
  }

  /** YELLOW's neighbours run RED, BLUE, ORANGE, GREEN: WHITE's order reversed. */
  lemma YellowReversesWhite()
    ensures forall j :: 0 <= j < 4 ==> Connections(YELLOW)[j].side == Connections(WHITE)[(4 - j) % 4].side
  {
  }

  /** The facelet of `a` that `getColorOfEdgePiece(a, b)` reads under the
      worked-out table (`written` false) or the table as written (`written`
      true): the middle of `b`'s entry for `a`, or -1 when `b` lists no `a`. */
  function EdgeFacelet(written: bool, a: Color, b: Color): int
  {
    var c := if written then WrittenConnections(b) else Connections(b);
    if c[0].side == a then c[0].faces[1]
    else if c[1].side == a then c[1].faces[1]
    else if c[2].side == a then c[2].faces[1]
    else if c[3].side == a then c[3].faces[1]
    else -1
  }

  /** In the table as written, RED and ORANGE both name YELLOW's facelet 5 as
      the edge they share with YELLOW (and both name WHITE's facelet 1), so
      two different edges of YELLOW read as one. */
  lemma WrittenTableAliasesEdges()
    ensures EdgeFacelet(true, YELLOW, RED) == 5 && EdgeFacelet(true, YELLOW, ORANGE) == 5
    ensures EdgeFacelet(true, WHITE, RED) == 1 && EdgeFacelet(true, WHITE, ORANGE) == 1
  {
  }

  /** The edge facelets of `a` that its four neighbours, in order, name. */
  function EdgeFacelets(written: bool, a: Color): seq<int>
  {
    var c := Connections(a);
    [EdgeFacelet(written, a, c[0].side), EdgeFacelet(written, a, c[1].side),
     EdgeFacelet(written, a, c[2].side), EdgeFacelet(written, a, c[3].side)]
  }

  /** With the worked-out table, the edges the four neighbours of `a` name on
      `a` are its four edge facelets, each two ring places after the previous:
      they move in step with `a`'s own ring when `a` turns. */
  lemma {:induction false} EdgesFollowTheRing(a: Color)
    ensures var e := EdgeFacelets(false, a);
      e[0] % 2 == 1 && e == [e[0], (e[0] + 2) % 8, (e[0] + 4) % 8, (e[0] + 6) % 8]
  {
    match a
    case 0 =>
      var c := Connections(0);
      assert EdgeFacelet(false, 0, c[0].side) == 7 && EdgeFacelet(false, 0, c[1].side) == 1;
      assert EdgeFacelet(false, 0, c[2].side) == 3 && EdgeFacelet(false, 0, c[3].side) == 5;
    case 1 =>
      var c := Connections(1);
      assert EdgeFacelet(false, 1, c[0].side) == 1 && EdgeFacelet(false, 1, c[1].side) == 3;
      assert EdgeFacelet(false, 1, c[2].side) == 5 && EdgeFacelet(false, 1, c[3].side) == 7;
    case 2 =>
      var c := Connections(2);
      assert EdgeFacelet(false, 2, c[0].side) == 1 && EdgeFacelet(false, 2, c[1].side) == 3;
      assert EdgeFacelet(false, 2, c[2].side) == 5 && EdgeFacelet(false, 2, c[3].side) == 7;
    case 3 =>
      var c := Connections(3);
      assert EdgeFacelet(false, 3, c[0].side) == 7 && EdgeFacelet(false, 3, c[1].side) == 1;
      assert EdgeFacelet(false, 3, c[2].side) == 3 && EdgeFacelet(false, 3, c[3].side) == 5;
    case 4 =>
      var c := Connections(4);
      assert EdgeFacelet(false, 4, c[0].side) == 1 && EdgeFacelet(false, 4, c[1].side) == 3;
      assert EdgeFacelet(false, 4, c[2].side) == 5 && EdgeFacelet(false, 4, c[3].side) == 7;
    case 5 =>
      var c := Connections(5);
      assert EdgeFacelet(false, 5, c[0].side) == 1 && EdgeFacelet(false, 5, c[1].side) == 3;
      assert EdgeFacelet(false, 5, c[2].side) == 5 && EdgeFacelet(false, 5, c[3].side) == 7;
  }

  /** The table as written breaks this: around YELLOW every neighbour names facelet 5. */
  lemma WrittenEdgesDoNotFollowTheRing()
    ensures EdgeFacelets(true, YELLOW) == [5, 5, 5, 5]
    ensures EdgeFacelets(true, YELLOW)[1] != (EdgeFacelets(true, YELLOW)[0] + 2) % 8
  {
  }
}
