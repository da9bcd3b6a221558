# dCubed solver core in Dafny

dCubed scans the six sides of a physical 3x3 Rubik's cube and computes a
sequence of moves that solves it with the layer-by-layer beginner method. This
project models the solver's core and proves properties of that model:

- the colours (`FaceColor`), moves (`Move`), sides (`Side`), corner pieces
  (`CornerPiece`) and their equality and hashing rules;
- the cube (`Cube`): six sides of eight facelets in a ring around a fixed
  centre, the table that says which strip of which neighbour each side
  touches, the in-place quarter turns, and the queries the solver makes of it
  (edge colours, corner pieces, neighbours at an offset);
- the packed 64-bit form of a side that `Cube` stores and `SideTest` exercises;
- the solve steps (`AbstractSolveStep` and its seven phases: white cross,
  white corners, second layer, yellow cross, yellow edges, positioning and
  orienting the yellow corners), each a class that turns the shared cube and
  records one move per quarter turn;
- `SolveInstructions`, which runs the phases in order and records where each
  one starts, and the small session types around a scan (`ScannedSide`,
  `SolveSession`, `ScanResult`).

The layout is one Dafny module per source type:

| module | file | models |
|---|---|---|
| `Outcomes` | outcomes.dfy | Java exceptions as `Result` values |
| `ArrayUtil` | array_util.dfy | `ArrayUtil` |
| `FaceColor` | face_color.dfy | `FaceColor` |
| `Moves` | move.dfy | `Move` |
| `Sides` | side.dfy | `Side`, the ring turns of one side, `Arrays.hashCode` |
| `SidePacking` | packing.dfy | the packed `long` form of a side |
| `CornerPieces` | corner_piece.dfy | `CornerPiece` |
| `CubeTopology` | topology.dfy | the side-connection table of `Cube` |
| `Cubes` | cube.dfy | `Cube`: quarter turns, queries, the test scenarios |
| `SolveSteps` | solve_step.dfy | `AbstractSolveStep`: distances, recording, markers |
| `WhiteCrossPhase` … `OrientYellowCornersPhase` | white_cross.dfy … orient_yellow_corners.dfy | the seven phases |
| `Instructions` | solve_instructions.dfy | `SolveInstructions` and a full solve |
| `ScannedSides`, `Sessions`, `ScanResults` | scanned_side.dfy, solve_session.dfy, scan_result.dfy | the scan session types |

How the model is stated:

- A cube state is six rings of eight colours (`CubeState`). `Turn(s, side,
  clockwise)` is the declarative quarter turn: each facelet takes the colour of
  its source facelet. The `Cube` class keeps its faces in an array. Its
  quarter turn shifts the turned side's own ring, as Cube.java's
  `rotateClockwise` and `rotateCounterClockwise` do, and also carries the four
  strips around that side, reading them first and writing them shifted
  afterwards. The strip moves are what CubeTest.java:25-71 expects of a turn;
  Cube.java itself does not make them (see Findings). `RotatedIsTurn` proves
  that this is `Turn`.
- Every phase is a class over a shared `SolveStep`. The step keeps, as ghost
  state, the rotation calls made so far (`Rotation(side, quarters)`) and the
  quarter turns they expand to. Its invariant says that the recorded moves are
  those quarter turns and that the cube is its start state with them applied.
  Each phase method states the exact calls it appends, as a specification
  function of the cube state it starts from; the few that only bound their
  calls are named under Left out. Lemmas then give their
  length in quarter turns, their net turn per side and what they leave
  unchanged.
- Read-only scans of the cube (vote tallies, pattern searches, corner checks)
  are methods with loops, proved equal to a specification function of the cube
  state. The lemmas about that function state what the scan means.
- Exceptions become `Result` values with the source's message, and `throw`
  paths are modelled as error results.

## Model

| member | source | states |
|---|---|---|
| `ArrayUtil.JavaRem` | src/main/java/sh/grover/dcubed/util/ArrayUtil.java:6 | the remainder of Java's `%`: it is the mathematical remainder for a non-negative dividend and always lies strictly between `-b` and `b` |
| `ArrayUtil.LoopedRemainder` | src/main/java/sh/grover/dcubed/util/ArrayUtil.java:6 | `(length + index) % length` is non-negative exactly when `index >= -length` or `index` is a multiple of `length`, and then equals `index` modulo `length` |
| `ArrayUtil.LoopedIndex` | src/main/java/sh/grover/dcubed/util/ArrayUtil.java:5-8 | `loopedIndex` succeeds exactly when the array is non-empty and the normalised index is not negative; it then returns the element at `index` modulo the length, so -1 names the last element and the length names the first |
| `ArrayUtil.HighestIndex` | src/main/java/sh/grover/dcubed/util/ArrayUtil.java:10-21 | `indexOfHighest` answers -1 when no element is positive, and otherwise the lowest index holding the maximum, which is positive |
| `ArrayUtil.IndexOfHighest` | src/main/java/sh/grover/dcubed/util/ArrayUtil.java:10-21 | the scanning loop returns exactly `HighestIndex` of the array's contents |
| `FaceColor.RequireValid` | src/main/java/sh/grover/dcubed/model/FaceColor.java:12-16 | succeeds exactly for colours 0 to 5 and fails with an illegal-argument error otherwise |
| `FaceColor.Values` | src/main/java/sh/grover/dcubed/model/FaceColor.java:18-20 | the six colours in order, colour `i` at position `i` |
| `FaceColor.ToString` | src/main/java/sh/grover/dcubed/model/FaceColor.java:22-32 | a name exists exactly for colours 0 to 5; any other number is an illegal argument |
| `FaceColor.ColorOfName` | src/main/java/sh/grover/dcubed/model/FaceColor.java:22-32 | the inverse of `toString`: a name maps back to the one colour whose name it is |
| `FaceColor.NamesDistinct` | src/main/java/sh/grover/dcubed/model/FaceColor.java:23-29 | two colours have the same name exactly when they are the same colour |
| `FaceColor.LowerCase` | src/main/java/sh/grover/dcubed/controller/solve/AbstractSolveStep.java:78 | `toLowerCase` on the colour names: same length, no upper-case letter left, each upper-case letter replaced by the lower-case letter at the same place in the alphabet, every other character kept |
| `FaceColor.LowerCaseIdempotent` | src/main/java/sh/grover/dcubed/controller/solve/AbstractSolveStep.java:78 | lowering an already lowered string changes nothing |
| `Moves.FromColor` | src/main/java/sh/grover/dcubed/model/Move.java:5-7 | the converting constructor succeeds exactly for colours 0 to 5, naming the side by `toString` and keeping the direction |
| `Moves.MoveOfInjective` | src/main/java/sh/grover/dcubed/model/Move.java:3-7 | two recorded moves are equal exactly when they turn the same side in the same direction |
| `Moves.SideColor` | src/main/java/sh/grover/dcubed/model/Move.java:3-7 | the side's colour can be read back from a move's name |
| `Moves.SideColorOfMove` | src/main/java/sh/grover/dcubed/model/Move.java:5-7 | reading back the colour of a move made from a colour gives that colour |
| `Sides.NewSide` | src/main/java/sh/grover/dcubed/model/Side.java:9-15 | a side is built exactly when it is given 8 colours, and then holds them; otherwise an illegal-argument error |
| `Sides.All` | src/test/java/sh/grover/dcubed/model/SideTest.java:28-35 | all eight facelets show the one colour |
| `Sides.Checker` | src/test/java/sh/grover/dcubed/model/SideTest.java:37-46 | corners show the first colour and edges the second |
| `Sides.RingTurnShifts` | src/main/java/sh/grover/dcubed/model/Cube.java:71-78 | a clockwise turn of a side's own ring moves facelet `i` to `i + 2` (mod 8); a counterclockwise turn moves it to `i + 6` |
| `Sides.RingTurnLaws` | src/main/java/sh/grover/dcubed/model/Cube.java:71-78 | the two ring turns undo each other and four clockwise turns restore the ring |
| `Sides.ToInt32` | src/main/java/sh/grover/dcubed/model/Side.java:25-28 | Java's 32-bit `int` arithmetic: the result is in the `int` range and congruent to the exact value modulo 2^32 |
| `Sides.ArraysHash` | src/main/java/sh/grover/dcubed/model/Side.java:25-28 | `Arrays.hashCode` (`31 * h + e` from 1, wrapping) of a non-empty array lies in the `int` range |
| `Sides.HashCode` | src/main/java/sh/grover/dcubed/model/Side.java:25-28 | a side's hash code is a 32-bit `int` |
| `Sides.HashSeesLastElement` | src/test/java/sh/grover/dcubed/model/SideTest.java:54-58 | two colour arrays that differ only in their last element hash differently |
| `Sides.SampleHashes` | src/test/java/sh/grover/dcubed/model/SideTest.java:54-58 | the test's two sides, which differ in their last facelet, have different hash codes |
| `SidePacking.RotateLaws` | src/main/java/sh/grover/dcubed/model/Cube.java:71-78 | rotating a packed side right by 16 bits and left by 16 bits undo each other, and four right rotations are the identity |
| `SidePacking.PackRotateRight` | src/main/java/sh/grover/dcubed/model/Cube.java:71-74 | `Long.rotateRight(face, 16)` on the packed side moves byte `i` to byte `i + 2` (mod 8) |
| `SidePacking.PackRotateLeft` | src/main/java/sh/grover/dcubed/model/Cube.java:76-78 | `Long.rotateLeft(face, 16)` moves byte `i` to byte `i + 6` (mod 8) |
| `SidePacking.UnpackPack` | src/test/java/sh/grover/dcubed/model/SideTest.java:22-26 | unpacking the bytes of a packed word gives back the bytes |
| `SidePacking.UnpackIsPack` | src/test/java/sh/grover/dcubed/model/SideTest.java:22-26 | every 64-bit word is the packing of its eight bytes |
| `SidePacking.Decode` | src/test/java/sh/grover/dcubed/model/SideTest.java:22-26 | `toColors` succeeds exactly when every byte is a colour, and encoding the result gives the word back |
| `SidePacking.EqualIffSameEncoding` | src/test/java/sh/grover/dcubed/model/SideTest.java:48-52 | two sides are equal exactly when their packed words are equal |
| `SidePacking.EncodeBytes` | src/test/java/sh/grover/dcubed/model/SideTest.java:16-20 | facelet `i` becomes byte `i` of the word, facelet 0 the most significant |
| `SidePacking.DecodeEncode` | src/test/java/sh/grover/dcubed/model/SideTest.java:16-26 | decoding the encoding of a side gives the side back |
| `SidePacking.EncodeClockwise` | src/main/java/sh/grover/dcubed/model/Cube.java:71-74 | the packed form of a clockwise-turned ring is the packed ring rotated right by 16 bits, which ties the ring model to the packed faces |
| `SidePacking.EncodeCounterClockwise` | src/main/java/sh/grover/dcubed/model/Cube.java:76-78 | the same for counterclockwise and a left rotation by 16 bits |
| `SidePacking.SampleEncoding` | src/test/java/sh/grover/dcubed/model/SideTest.java:9-20 | the test's colour array encodes to `0x0001020304050001`, and that word and the word after it decode to the test's two sides |
| `SidePacking.AllAndChecker` | src/test/java/sh/grover/dcubed/model/SideTest.java:28-46 | `all(a)` packs to `a` in all eight bytes and `checker(a, b)` to `a` in the even bytes and `b` in the odd ones; both words decode back to the side |
| `CornerPieces.NewCornerPiece` | src/main/java/sh/grover/dcubed/model/CornerPiece.java:5-9 | a piece is built exactly when its three colours are valid, and then holds them in order |
| `CornerPieces.MaskBit` | src/main/java/sh/grover/dcubed/model/CornerPiece.java:17-19 | bit `k` of the colour mask is set exactly when colour `k` is one of the piece's colours |
| `CornerPieces.EqualsIffSameColors` | src/main/java/sh/grover/dcubed/model/CornerPiece.java:11-20 | `equals` holds exactly when the two pieces show the same set of colours |
| `CornerPieces.EqualsUnderReordering` | src/test/java/sh/grover/dcubed/model/CornerPieceTest.java:9-17 | equality is unchanged when the three colours are rotated or swapped |
| `CornerPieces.EqualsIsEquivalence` | src/main/java/sh/grover/dcubed/model/CornerPiece.java:11-20 | `equals` is reflexive, symmetric and transitive |
| `CornerPieces.SampleEquality` | src/test/java/sh/grover/dcubed/model/CornerPieceTest.java:9-17 | the test's pieces: the same colours in another order are equal, a different colour is not |
| `CubeTopology.Connections` | src/main/java/sh/grover/dcubed/model/Cube.java:43-66 | `getConnections`: four entries for every side; `ConnectionsWellFormed` below states what they are |
| `CubeTopology.ConnectionsWellFormed` | src/main/java/sh/grover/dcubed/model/Cube.java:43-66 | each side's four entries name four different neighbours, never the side itself or its opposite, each with three different facelets |
| `CubeTopology.Adjacency` | src/main/java/sh/grover/dcubed/model/Cube.java:43-66 | a side is a neighbour of another exactly when they are neither equal nor opposite, and the relation is symmetric |
| `CubeTopology.YellowReversesWhite` | src/main/java/sh/grover/dcubed/model/Cube.java:45-61 | YELLOW meets the four side faces in the reverse order of WHITE |
| `CubeTopology.WrittenConnections` | src/main/java/sh/grover/dcubed/model/Cube.java:103-110 | the table as the source writes it agrees with the worked-out `Connections` on both poles and on each side face's left and right neighbours and neighbour sides; on side faces it always names YELLOW's facelets 6, 5, 4 and WHITE's 2, 1, 0 |
| `CubeTopology.WrittenTableAliasesEdges` | src/main/java/sh/grover/dcubed/model/Cube.java:103-110 | the table as written has RED and ORANGE both read YELLOW facelet 5 and WHITE facelet 1 |
| `CubeTopology.WrittenEdgesDoNotFollowTheRing` | src/main/java/sh/grover/dcubed/model/Cube.java:103-110 | as written, the four side faces point at YELLOW facelets 5, 5, 5 and 5, which do not go around YELLOW's ring |
| `CubeTopology.EdgesFollowTheRing` | src/main/java/sh/grover/dcubed/model/Cube.java:18-26 | in the worked-out table, the edge facelets that a side's four neighbours point at are one odd facelet and the next three edges around the side's ring, in order |
| `Cubes.Solved` | src/test/java/sh/grover/dcubed/controller/solve/SolveTest.java:62-66 | a solved cube shows each side's own colour on all of its facelets |
| `Cubes.FromEntry` | src/main/java/sh/grover/dcubed/model/Cube.java:80-101 | in a turn, neighbour entry `j` receives the strip of entry `j - 1` (clockwise) or `j + 1` (counterclockwise) |
| `Cubes.FromRing` | src/main/java/sh/grover/dcubed/model/Cube.java:71-78 | in a turn, own ring slot `i` receives slot `i - 2` (clockwise) or `i + 2` (counterclockwise) |
| `Cubes.SourceIn` | src/main/java/sh/grover/dcubed/model/Cube.java:71-101 | a turned facelet comes from the same side or from the strip of a neighbour; a facelet outside the side and its strips is its own source |
| `Cubes.SourceRoundTrip` | src/main/java/sh/grover/dcubed/model/Cube.java:71-101 | the counterclockwise source map inverts the clockwise one |
| `Cubes.TurnInverse` | src/main/java/sh/grover/dcubed/model/Cube.java:71-78 | a counterclockwise turn of a side undoes a clockwise turn of it, and the other way round |
| `Cubes.StripStep` | src/main/java/sh/grover/dcubed/model/Cube.java:80-101 | a turn carries facelet `k` of neighbour entry `j` from facelet `k` of the previous (clockwise) or next entry |
| `Cubes.SourceFourTimes` | src/main/java/sh/grover/dcubed/model/Cube.java:71-74 | four applications of the source map of a turn give back every facelet |
| `Cubes.TurnFourTimes` | src/main/java/sh/grover/dcubed/model/Cube.java:71-74 | four clockwise turns of a side restore the cube |
| `Cubes.TurnAt` | src/main/java/sh/grover/dcubed/model/Cube.java:71-101 | after a turn every facelet shows the old colour of its source facelet |
| `Cubes.TurnShiftsOwnRing` | src/main/java/sh/grover/dcubed/model/Cube.java:71-78 | the turned side's own ring after the turn is its ring turned clockwise or counterclockwise |
| `Cubes.TurnFrame` | src/main/java/sh/grover/dcubed/model/Cube.java:71-101 | a turn leaves every facelet that is neither on the turned side nor in one of its four strips unchanged |
| `Cubes.TurnLeavesOppositeSide` | src/main/java/sh/grover/dcubed/model/Cube.java:43-66 | a turn leaves the opposite side unchanged |
| `Cubes.TurnCarriesStrips` | src/main/java/sh/grover/dcubed/model/Cube.java:80-101 | a turn moves each neighbour's strip, facelet by facelet, to the next neighbour in the turn's direction |
| `Cubes.TurnRingMovesOwnRingOnly` | src/main/java/sh/grover/dcubed/model/Cube.java:71-78 | the rotations as Cube.java writes them: the turned side's ring shifts clockwise or counterclockwise and every other side is unchanged |
| `Cubes.RingOnlyTurnMissesScenario` | src/test/java/sh/grover/dcubed/model/CubeTest.java:25-71 | turning only WHITE's ring leaves RED's bottom row RED, where the test and `Turn` give BLUE (clockwise) or GREEN (counterclockwise) |
| `Cubes.RotatedIsTurn` | src/main/java/sh/grover/dcubed/model/Cube.java:71-101 | reading all four strips first and then writing them shifted, as the rotation does, gives exactly `Turn` |
| `Cubes.Inverse` | src/test/java/sh/grover/dcubed/model/CubeTest.java:104-113 | the undoing sequence: the turns reversed, each in the other direction |
| `Cubes.ApplyAllConcat` | src/test/java/sh/grover/dcubed/model/CubeTest.java:73-114 | applying two turn sequences one after the other is applying their concatenation |
| `Cubes.InverseUndoes` | src/test/java/sh/grover/dcubed/model/CubeTest.java:104-113 | applying a turn sequence and then its inverse restores every cube |
| `Cubes.CheckeredPolesSides` | src/test/java/sh/grover/dcubed/model/CubeTest.java:25-35 | the test's starting cube: `checker(WHITE, YELLOW)`, one-coloured side faces, `checker(YELLOW, WHITE)` |
| `Cubes.AfterWhiteTurnSides` | src/test/java/sh/grover/dcubed/model/CubeTest.java:37-46 | the sides the test expects after a WHITE turn |
| `Cubes.WhiteTurnScenario` | src/test/java/sh/grover/dcubed/model/CubeTest.java:25-71 | a WHITE turn moves the side faces' bottom strips one neighbour on, in opposite directions for the two turns, and leaves WHITE and YELLOW as they were |
| `Cubes.WhiteClockwiseRotated` | src/test/java/sh/grover/dcubed/model/CubeTest.java:25-47 | the rotation's read-then-write order gives the sides the clockwise test expects |
| `Cubes.WhiteCounterClockwiseRotated` | src/test/java/sh/grover/dcubed/model/CubeTest.java:49-71 | the rotation's read-then-write order gives the sides the counterclockwise test expects |
| `Cubes.ScrambleTurn1` | src/test/java/sh/grover/dcubed/model/CubeTest.java:85 | the first scramble turn on the read-then-write rotation gives the next state |
| `Cubes.ScrambleTurn2` | src/test/java/sh/grover/dcubed/model/CubeTest.java:86 | the same for the second turn |
| `Cubes.ScrambleTurn3` | src/test/java/sh/grover/dcubed/model/CubeTest.java:87 | the same for the third turn |
| `Cubes.ScrambleTurn4` | src/test/java/sh/grover/dcubed/model/CubeTest.java:88 | the same for the fourth turn |
| `Cubes.ScrambleTurn5` | src/test/java/sh/grover/dcubed/model/CubeTest.java:89 | the same for the fifth turn |
| `Cubes.ScrambleTurn6` | src/test/java/sh/grover/dcubed/model/CubeTest.java:90 | the same for the sixth turn |
| `Cubes.ScrambleTurn7` | src/test/java/sh/grover/dcubed/model/CubeTest.java:91 | the same for the seventh turn |
| `Cubes.ScrambleTurn8` | src/test/java/sh/grover/dcubed/model/CubeTest.java:92 | the same for the eighth turn |
| `Cubes.ScrambleStep` | src/test/java/sh/grover/dcubed/model/CubeTest.java:85-92 | the `k`-th scramble turn takes state `k` to state `k + 1` |
| `Cubes.ScramblePrefix` | src/test/java/sh/grover/dcubed/model/CubeTest.java:85-92 | the first `k` scramble turns from a solved cube give state `k` |
| `Cubes.ScrambleScenario` | src/test/java/sh/grover/dcubed/model/CubeTest.java:73-114 | the eight scramble turns take a solved cube to the test's expected state, and the eight undoing turns bring it back to solved |
| `Cubes.EdgeColor` | src/main/java/sh/grover/dcubed/controller/solve/WhiteCrossStep.java:60-66 | `getColorOfEdgePiece(a, b)` succeeds exactly when `b` is a neighbour of `a`, and gives the colour of `a`'s edge facelet that faces `b` |
| `Cubes.AdjacentWithOffset` | src/main/java/sh/grover/dcubed/controller/solve/WhiteCrossStep.java:120-123 | `getAdjacentSideFromConnectedSideWithOffset` succeeds whenever `side` is a neighbour and the offset is at least -4, and gives the entry that many places after `side` around `base` |
| `Cubes.CornerAt` | src/test/java/sh/grover/dcubed/model/CubeTest.java:123-153 | `getCornerPiece` succeeds exactly for the corner indices 0, 2, 4 and 6, and gives the corner facelet with the two adjoining strip ends of the neighbours that meet there |
| `Cubes.CornerYellowTopLeft` | src/test/java/sh/grover/dcubed/model/CubeTest.java:134-137 | the scrambled cube's YELLOW top-left corner is the test's piece |
| `Cubes.CornerYellowTopRight` | src/test/java/sh/grover/dcubed/model/CubeTest.java:139-142 | the scrambled cube's YELLOW top-right corner is the test's piece |
| `Cubes.CornerOrangeBottomLeft` | src/test/java/sh/grover/dcubed/model/CubeTest.java:144-147 | the scrambled cube's ORANGE bottom-left corner is the test's piece |
| `Cubes.CornerWhiteBottomRight` | src/test/java/sh/grover/dcubed/model/CubeTest.java:149-152 | the scrambled cube's WHITE bottom-right corner is the test's piece |
| `Cubes.CornerScenario` | src/test/java/sh/grover/dcubed/model/CubeTest.java:123-153 | all four corner lookups of the test on the scrambled cube |
| `Cubes.Cube.constructor` | src/test/java/sh/grover/dcubed/model/CubeTest.java:11-23 | a cube built from six sides gives back those sides |
| `Cubes.Cube.GetSides` | src/test/java/sh/grover/dcubed/model/CubeTest.java:11-23 | six sides, side `i` holding the ring of side `i` |
| `Cubes.Cube.RotateClockwise` | src/main/java/sh/grover/dcubed/model/Cube.java:71-74 | the new state is the old one with `Turn(side, clockwise)` applied, strips included, as CubeTest expects; Cube.java turns only the own ring (see Findings) |
| `Cubes.Cube.RotateCounterClockwise` | src/main/java/sh/grover/dcubed/model/Cube.java:76-78 | the new state is the old one with `Turn(side, counterclockwise)` applied, strips included, as CubeTest expects; Cube.java turns only the own ring (see Findings) |
| `Cubes.Cube.Rotate` | src/main/java/sh/grover/dcubed/model/Cube.java:71-78 | the shared in-place rotation on the faces array: the new state is `Turn` of the old |
| `Cubes.Cube.PutStrip` | src/main/java/sh/grover/dcubed/model/Cube.java:80-101 | writing one strip changes exactly its three facelets |
| `SolveSteps.DistanceAroundWhite` | src/main/java/sh/grover/dcubed/controller/solve/AbstractSolveStep.java:17-32 | `distanceAroundWhite` succeeds exactly for two side faces, gives a distance in -1..2, and fails with an index-out-of-bounds error otherwise |
| `SolveSteps.DistanceAroundYellow` | src/main/java/sh/grover/dcubed/controller/solve/AbstractSolveStep.java:34-36 | the distance around YELLOW is the distance around WHITE with the arguments swapped |
| `SolveSteps.PoleRings` | src/main/java/sh/grover/dcubed/model/Cube.java:45-61 | WHITE's and YELLOW's neighbours are exactly the four side faces |
| `SolveSteps.YellowRing` | src/main/java/sh/grover/dcubed/model/Cube.java:56-61 | YELLOW's entry `k` is the top strip of the `k`-th side face of `YELLOW_RING` |
| `SolveSteps.DistanceIsRingOffset` | src/main/java/sh/grover/dcubed/controller/solve/AbstractSolveStep.java:17-24 | the distance table gives the offset from one side face to another around WHITE, wrapped into -1..2 |
| `SolveSteps.DistanceReaches` | src/main/java/sh/grover/dcubed/controller/solve/AbstractSolveStep.java:17-36 | turning WHITE by the distance carries one side face's position onto the other's |
| `SolveSteps.DistanceLaws` | src/main/java/sh/grover/dcubed/controller/solve/AbstractSolveStep.java:17-24 | the distance from a face to itself is 0; it is 2 exactly for opposite faces; the two directions add up to 0 modulo 4 |
| `SolveSteps.TallyAppend` | src/main/java/sh/grover/dcubed/controller/solve/WhiteCrossStep.java:69 | a vote adds one to the slot of its offset and changes no other slot |
| `SolveSteps.CountVote` | src/main/java/sh/grover/dcubed/controller/solve/WhiteCrossStep.java:69 | one more vote for distance `d` turns the array holding the tally of `ds` into the tally of `ds + [d]` |
| `SolveSteps.TallyCountsEveryVote` | src/main/java/sh/grover/dcubed/controller/solve/WhiteCrossStep.java:59-70 | the four tally slots add up to the number of votes |
| `SolveSteps.VotedOffset` | src/main/java/sh/grover/dcubed/controller/solve/WhiteCrossStep.java:72-80 | the elected offset has a positive count, no offset has more votes, and earlier offsets with the same count lose |
| `SolveSteps.UnanimousNoTurn` | src/main/java/sh/grover/dcubed/controller/solve/YellowEdgesStep.java:42-45 | four votes for offset 0 elect no turn |
| `SolveSteps.MovesOfRecordsEachTurn` | src/main/java/sh/grover/dcubed/controller/solve/AbstractSolveStep.java:50-58 | each quarter turn is recorded as one move naming its side and direction |
| `SolveSteps.TurnsOfMovesOf` | src/main/java/sh/grover/dcubed/controller/solve/AbstractSolveStep.java:50-58 | the recorded moves determine the quarter turns they record |
| `SolveSteps.RepeatAt` | src/main/java/sh/grover/dcubed/controller/solve/AbstractSolveStep.java:65-73 | `rotate(color, n)` makes `|n|` quarter turns, clockwise for positive `n` and counterclockwise for negative `n` |
| `SolveSteps.RepeatUndoes` | src/main/java/sh/grover/dcubed/controller/solve/AbstractSolveStep.java:65-73 | `rotate(color, -n)` undoes `rotate(color, n)` on every cube |
| `SolveSteps.MarkerName` | src/main/java/sh/grover/dcubed/controller/solve/AbstractSolveStep.java:75-82 | the names a marker stores are "white", "red", "orange", "yellow", "green" and "blue", colour by colour |
| `SolveSteps.MarkerNamesDistinct` | src/main/java/sh/grover/dcubed/controller/solve/AbstractSolveStep.java:75-82 | markers made from different colours carry different lower-case names |
| `SolveSteps.SolveStep.constructor` | src/main/java/sh/grover/dcubed/controller/solve/AbstractSolveStep.java:42-44 | a new step is over the given cube, with no moves and no markers |
| `SolveSteps.SolveStep.MadeCalls` | src/main/java/sh/grover/dcubed/controller/solve/AbstractSolveStep.java:38-58 | the moves recorded so far are exactly the quarter turns of the calls made, and the cube is its start state with those turns applied |
| `SolveSteps.SolveStep.Record` | src/main/java/sh/grover/dcubed/controller/solve/AbstractSolveStep.java:50-58 | one quarter turn is applied to the cube and recorded as one move |
| `SolveSteps.SolveStep.Clockwise` | src/main/java/sh/grover/dcubed/controller/solve/AbstractSolveStep.java:50-53 | `clockwise` turns the side once clockwise and records it |
| `SolveSteps.SolveStep.CounterClockwise` | src/main/java/sh/grover/dcubed/controller/solve/AbstractSolveStep.java:55-58 | `counterClockwise` turns the side once counterclockwise and records it |
| `SolveSteps.SolveStep.Rotate` | src/main/java/sh/grover/dcubed/controller/solve/AbstractSolveStep.java:65-73 | `rotate(color, n)` adds one call of `n` quarter turns; for `n == 0` the cube is unchanged |
| `SolveSteps.SolveStep.AddMarker` | src/main/java/sh/grover/dcubed/controller/solve/AbstractSolveStep.java:75-82 | `addMarker` succeeds exactly when every colour is valid, and then sets the marker at the current move count to the id and the lower-case colour names; on failure the markers are unchanged |
| `WhiteCrossPhase.WhiteVotes` | src/main/java/sh/grover/dcubed/controller/solve/WhiteCrossStep.java:59-70 | the offset votes of the side faces among the first `n` whose WHITE edge is white, at most one each and each in -1..2, or the first lookup error |
| `WhiteCrossPhase.WhiteVotesStep` | src/main/java/sh/grover/dcubed/controller/solve/WhiteCrossStep.java:59-70 | the votes over `k + 1` side faces are the votes over `k`, plus the distance vote of face `k` when its WHITE edge is white, or that distance's error |
| `WhiteCrossPhase.WhiteVotesFailureSticks` | src/main/java/sh/grover/dcubed/controller/solve/WhiteCrossStep.java:68 | once a lookup fails, every longer run of votes fails with the same error |
| `WhiteCrossPhase.SolvedVotes` | src/main/java/sh/grover/dcubed/controller/solve/WhiteCrossStep.java:54-70 | on a solved cube each of the first `n` side faces votes 0 |
| `WhiteCrossPhase.SolvedCrossVotesForNoTurn` | src/main/java/sh/grover/dcubed/controller/solve/WhiteCrossStep.java:54-83 | on a solved cube the four votes are 0 and elect no turn of WHITE |
| `WhiteCrossPhase.TallyWhiteVotes` | src/main/java/sh/grover/dcubed/controller/solve/WhiteCrossStep.java:57-70 | the loop's `distanceVote` array is the tally of `WhiteVotes`, or the loop fails with its error |
| `WhiteCrossPhase.CastWhiteVote` | src/main/java/sh/grover/dcubed/controller/solve/WhiteCrossStep.java:60-69 | one iteration turns the tally of `k` votes into the tally of `k + 1`, or fails with the lookup's error |
| `WhiteCrossPhase.BestOffset` | src/main/java/sh/grover/dcubed/controller/solve/WhiteCrossStep.java:72-80 | the loop elects `VotedOffset` of the tally |
| `WhiteCrossPhase.WhiteCross.constructor` | src/main/java/sh/grover/dcubed/controller/solve/WhiteCrossStep.java:32-34 | a new phase over the cube, with every in-cross flag clear |
| `WhiteCrossPhase.BestTurn` | src/main/java/sh/grover/dcubed/controller/solve/WhiteCrossStep.java:54-83 | `rotateWhiteSideBest` as a function of the cube: the calls only grow and no flag is cleared; it fails with the first vote's error, or adds one turn of WHITE by the elected offset |
| `WhiteCrossPhase.EnsureStep` | src/main/java/sh/grover/dcubed/controller/solve/WhiteCrossStep.java:86-105 | one connection of `ensureWhiteEdgesCorrect`: the calls only grow and flags are only set |
| `WhiteCrossPhase.TurnedDown` | src/main/java/sh/grover/dcubed/controller/solve/WhiteCrossStep.java:125-132 | the turn-down of a top edge always succeeds, and only adds calls and sets flags |
| `WhiteCrossPhase.TopStep` | src/main/java/sh/grover/dcubed/controller/solve/WhiteCrossStep.java:109-133 | one side face of `rotateSideTopWhiteEdges`: the calls only grow and flags are only set |
| `WhiteCrossPhase.CarriedSideEdge` | src/main/java/sh/grover/dcubed/controller/solve/WhiteCrossStep.java:162-173 | the carry of a side edge only adds calls and sets flags |
| `WhiteCrossPhase.SideStep` | src/main/java/sh/grover/dcubed/controller/solve/WhiteCrossStep.java:141-174 | step `i` of `rotateSideSideWhiteEdges`, direction `i % 2` of WHITE's connection `i / 2`: the calls only grow and flags are only set |
| `WhiteCrossPhase.CarriedBottomEdge` | src/main/java/sh/grover/dcubed/controller/solve/WhiteCrossStep.java:206-214 | the carry of a bottom edge only adds calls and sets flags |
| `WhiteCrossPhase.BottomStep` | src/main/java/sh/grover/dcubed/controller/solve/WhiteCrossStep.java:179-215 | one side face of `rotateSideBottomWhiteEdges`: the calls only grow and flags are only set |
| `WhiteCrossPhase.PlacedBottomEdge` | src/main/java/sh/grover/dcubed/controller/solve/WhiteCrossStep.java:186-214 | a bottom edge placed from the face it sits on only adds calls and sets flags |
| `WhiteCrossPhase.YellowStep` | src/main/java/sh/grover/dcubed/controller/solve/WhiteCrossStep.java:219-233 | one YELLOW edge of `rotateWhiteEdgesOnYellow`: the calls only grow and flags are only set |
| `WhiteCrossPhase.StepOf` | src/main/java/sh/grover/dcubed/controller/solve/WhiteCrossStep.java:85-234 | step `i` of any of the five passes: the calls only grow and flags are only set |
| `WhiteCrossPhase.PassFrom` | src/main/java/sh/grover/dcubed/controller/solve/WhiteCrossStep.java:85-234 | a pass from step `i` on, each step on the cube the earlier steps left and the first throwing step ending it: the calls only grow and flags are only set |
| `WhiteCrossPhase.PassFromNext` | src/main/java/sh/grover/dcubed/controller/solve/WhiteCrossStep.java:85-234 | a pass at step `i` is that step's effect if the step throws, and otherwise the pass from step `i + 1` on the cube after the step's calls |
| `WhiteCrossPhase.PassLeadsNext` | src/main/java/sh/grover/dcubed/controller/solve/WhiteCrossStep.java:85-234 | the loop invariant of a pass method survives one step, or the step's error is the whole pass's result |
| `WhiteCrossPhase.SideSideLeadsNext` | src/main/java/sh/grover/dcubed/controller/solve/WhiteCrossStep.java:137-175 | the same for one step of the side-side pass |
| `WhiteCrossPhase.PassLeadsDone` | src/main/java/sh/grover/dcubed/controller/solve/WhiteCrossStep.java:85-234 | a pass whose every step succeeded ends with `Pass`, with the calls and flags as they then are |
| `WhiteCrossPhase.LoopFrom` | src/main/java/sh/grover/dcubed/controller/solve/WhiteCrossStep.java:41-51 | `solve`'s loop from pass `j` of round `i`: the calls only grow, flags are only set, and success means all four side faces are flagged |
| `WhiteCrossPhase.LoopFromNext` | src/main/java/sh/grover/dcubed/controller/solve/WhiteCrossStep.java:43-46 | the loop at a pass is that pass's error, or the loop from the next pass after it |
| `WhiteCrossPhase.LoopFromRoundEnd` | src/main/java/sh/grover/dcubed/controller/solve/WhiteCrossStep.java:48-50 | after the four passes of a round the loop goes on with the next round, and the fifth round throws "couldn't form white cross" |
| `WhiteCrossPhase.LoopFromDone` | src/main/java/sh/grover/dcubed/controller/solve/WhiteCrossStep.java:42 | a round that starts with the cross complete ends the loop with `Pass` and no further calls |
| `WhiteCrossPhase.LeadsNext` | src/main/java/sh/grover/dcubed/controller/solve/WhiteCrossStep.java:43-46 | the loop invariant of `PlaceEdges` survives one pass, or the pass's error is the loop's result |
| `WhiteCrossPhase.LeadsRoundEnd` | src/main/java/sh/grover/dcubed/controller/solve/WhiteCrossStep.java:48-50 | the loop invariant moves on to the next round, or after the fifth round the loop's result is the "couldn't form white cross" error |
| `WhiteCrossPhase.LeadsDone` | src/main/java/sh/grover/dcubed/controller/solve/WhiteCrossStep.java:42 | the loop invariant at a completed cross says the loop ends with `Pass` |
| `WhiteCrossPhase.SolveOf` | src/main/java/sh/grover/dcubed/controller/solve/WhiteCrossStep.java:37-52 | `solve` as a function of the cube: the calls only grow, flags are only set, and success means RED, ORANGE, GREEN and BLUE are all flagged |
| `WhiteCrossPhase.WhiteCross.Solve` | src/main/java/sh/grover/dcubed/controller/solve/WhiteCrossStep.java:37-52 | makes exactly the calls and flag changes of `SolveOf`, so success leaves all four side faces flagged; at most 5 rounds, at most 4 on success, and a fifth round ends in the "couldn't form white cross" error |
| `WhiteCrossPhase.WhiteCross.PlaceUntilComplete` | src/main/java/sh/grover/dcubed/controller/solve/WhiteCrossStep.java:41-51 | the `while` loop makes exactly the calls of `LoopFrom` from round 0; it runs at most 5 rounds and the fifth throws |
| `WhiteCrossPhase.WhiteCross.PlaceRound` | src/main/java/sh/grover/dcubed/controller/solve/WhiteCrossStep.java:43-50 | one round of the loop keeps the loop invariant or ends with the loop's error, and the fifth round (counter 4) always throws |
| `WhiteCrossPhase.WhiteCross.PlaceEdges` | src/main/java/sh/grover/dcubed/controller/solve/WhiteCrossStep.java:43-46 | the four passes of a round keep the loop invariant, or the first error is the loop's result |
| `WhiteCrossPhase.WhiteCross.PlacePass` | src/main/java/sh/grover/dcubed/controller/solve/WhiteCrossStep.java:43-46 | one pass of a round keeps the loop invariant, or its error is the loop's result |
| `WhiteCrossPhase.WhiteCross.RunPass` | src/main/java/sh/grover/dcubed/controller/solve/WhiteCrossStep.java:43-46 | runs the pass method of the given kind: exactly the calls and flag changes of `PassFrom` for that pass |
| `WhiteCrossPhase.WhiteCross.RotateWhiteSideBest` | src/main/java/sh/grover/dcubed/controller/solve/WhiteCrossStep.java:54-83 | makes exactly the call of `BestTurn` on the current cube: WHITE turned by the elected offset, or the vote's error |
| `WhiteCrossPhase.WhiteCross.EnsureWhiteEdgesCorrect` | src/main/java/sh/grover/dcubed/controller/solve/WhiteCrossStep.java:85-106 | the loop over WHITE's four connections makes exactly the calls and flag changes of the `EnsureCorrect` pass |
| `WhiteCrossPhase.WhiteCross.EnsureWhiteEdgeCorrect` | src/main/java/sh/grover/dcubed/controller/solve/WhiteCrossStep.java:86-105 | exactly `EnsureStep`: no turn when WHITE's edge towards the face is not white; a distance error is returned; distance 0 flags the face with no turn; otherwise the face twice, YELLOW by minus the distance and the edge's face twice, flagging that face |
| `WhiteCrossPhase.WhiteCross.RotateSideTopWhiteEdges` | src/main/java/sh/grover/dcubed/controller/solve/WhiteCrossStep.java:108-134 | the loop makes exactly the calls and flag changes of the `SideTop` pass |
| `WhiteCrossPhase.WhiteCross.SideTopWhiteEdge` | src/main/java/sh/grover/dcubed/controller/solve/WhiteCrossStep.java:109-133 | exactly `TopStep`: nothing when the face's top edge is not white; otherwise, by the distance of its YELLOW edge, a YELLOW turn first or not, then the turn down |
| `WhiteCrossPhase.WhiteCross.TurnDown` | src/main/java/sh/grover/dcubed/controller/solve/WhiteCrossStep.java:125-132 | exactly `TurnedDown`: the connected face is turned by the direction and the target face against it, the connected face is turned back only when its own edge is already in the cross, and the target is flagged |
| `WhiteCrossPhase.WhiteCross.RotateSideSideWhiteEdges` | src/main/java/sh/grover/dcubed/controller/solve/WhiteCrossStep.java:136-176 | the nested loop makes exactly the calls and flag changes of the `SideSide` pass |
| `WhiteCrossPhase.WhiteCross.SideSideStep` | src/main/java/sh/grover/dcubed/controller/solve/WhiteCrossStep.java:137-175 | one iteration of the nested loop keeps the pass invariant, or its error is the pass's result |
| `WhiteCrossPhase.WhiteCross.SideSideWhiteEdge` | src/main/java/sh/grover/dcubed/controller/solve/WhiteCrossStep.java:141-174 | exactly `SideStep`: nothing when that edge is not white; one turn of the neighbour when the edge already faces its own side; otherwise the carry |
| `WhiteCrossPhase.WhiteCross.CarrySideEdge` | src/main/java/sh/grover/dcubed/controller/solve/WhiteCrossStep.java:162-173 | exactly `CarriedSideEdge`: the turns of the source's else branch, flagging the edge's side |
| `WhiteCrossPhase.WhiteCross.RotateSideBottomWhiteEdges` | src/main/java/sh/grover/dcubed/controller/solve/WhiteCrossStep.java:178-216 | the loop makes exactly the calls and flag changes of the `SideBottom` pass |
| `WhiteCrossPhase.WhiteCross.SideBottomWhiteEdge` | src/main/java/sh/grover/dcubed/controller/solve/WhiteCrossStep.java:179-215 | exactly `BottomStep`: nothing when the bottom edge is not white; two turns when the edge belongs to the left or right neighbour; otherwise the carry |
| `WhiteCrossPhase.WhiteCross.PlaceBottomEdge` | src/main/java/sh/grover/dcubed/controller/solve/WhiteCrossStep.java:185-215 | exactly `PlacedBottomEdge`: the branches on which face the bottom edge belongs to |
| `WhiteCrossPhase.WhiteCross.CarryBottomEdge` | src/main/java/sh/grover/dcubed/controller/solve/WhiteCrossStep.java:206-214 | exactly `CarriedBottomEdge`: the turns that carry a bottom edge to WHITE |
| `WhiteCrossPhase.WhiteCross.RotateWhiteEdgesOnYellow` | src/main/java/sh/grover/dcubed/controller/solve/WhiteCrossStep.java:218-234 | the loop makes exactly the calls and flag changes of the `OnYellow` pass |
| `WhiteCrossPhase.WhiteCross.WhiteEdgeOnYellow` | src/main/java/sh/grover/dcubed/controller/solve/WhiteCrossStep.java:219-233 | exactly `YellowStep`: nothing when the YELLOW edge is not white; a distance error is returned; otherwise YELLOW by the distance and the target face twice, flagging the target |
| `WhiteCrossPhase.WhiteCross.WhiteCrossComplete` | src/main/java/sh/grover/dcubed/controller/solve/WhiteCrossStep.java:236-244 | true exactly when all four side faces are flagged |
| `WhiteCornersPhase.LookupIsCorner` | src/main/java/sh/grover/dcubed/controller/solve/WhiteCornersStep.java:49-69 | for every side face both tables name a corner index: even and in 0..6 |
| `WhiteCornersPhase.TablesAlongRing` | src/main/java/sh/grover/dcubed/controller/solve/WhiteCornersStep.java:49-69 | each table entry is the corner shared by a side face and the next face around the pole |
| `WhiteCornersPhase.SolvedCornersMatchTables` | src/main/java/sh/grover/dcubed/controller/solve/WhiteCornersStep.java:44-69 | on a solved cube each corner between two WHITE neighbours is solved, and the corners the tables name hold the pole's colour and the two faces' colours |
| `WhiteCornersPhase.AlignRestoresOrigin` | src/main/java/sh/grover/dcubed/controller/solve/WhiteCornersStep.java:104-117 | the alignment leaves the origin face's net turn at 0 and takes at most 5 quarter turns |
| `WhiteCornersPhase.InsertionQuarters` | src/main/java/sh/grover/dcubed/controller/solve/WhiteCornersStep.java:120-139 | `k` failed insertions take `7k` quarter turns; a successful one adds 3 more |
| `WhiteCornersPhase.GetSideOfCorner` | src/main/java/sh/grover/dcubed/controller/solve/WhiteCornersStep.java:141-151 | the loop answers `CornerSide`: the side face whose table corner holds both colours, or -1 |
| `WhiteCornersPhase.WhiteCorners.constructor` | src/main/java/sh/grover/dcubed/controller/solve/WhiteCornersStep.java:71-73 | a new phase over the cube |
| `WhiteCornersPhase.WhiteCorners.Solve` | src/main/java/sh/grover/dcubed/controller/solve/WhiteCornersStep.java:76-89 | every error is "couldn't find white corner" or "couldn't rotate corner in under 3 moves" |
| `WhiteCornersPhase.WhiteCorners.SolveCorner` | src/main/java/sh/grover/dcubed/controller/solve/WhiteCornersStep.java:78-88 | a solved corner costs no turns; otherwise the corner is aligned, an alignment error ends it, and the insertion follows, stopping at the first attempt that seats the corner (`Inserted`) |
| `WhiteCornersPhase.WhiteCorners.FindAndAlignCornerAbove` | src/main/java/sh/grover/dcubed/controller/solve/WhiteCornersStep.java:91-118 | the corner is looked up on WHITE, then on YELLOW, and aligned from where it was found, or the "couldn't find white corner" error |
| `WhiteCornersPhase.WhiteCorners.AlignFrom` | src/main/java/sh/grover/dcubed/controller/solve/WhiteCornersStep.java:104-117 | the alignment turns, with the origin face restored when the corner came from WHITE |
| `WhiteCornersPhase.WhiteCorners.InsertCornerWithCorrectRotation` | src/main/java/sh/grover/dcubed/controller/solve/WhiteCornersStep.java:120-139 | exactly `Inserted`: the attempts up to the first that leaves the corner's WHITE facelet WHITE, then success; when none of the three does, three failed attempts and the error |
| `WhiteCornersPhase.WhiteCorners.AttemptInsertion` | src/main/java/sh/grover/dcubed/controller/solve/WhiteCornersStep.java:122-135 | one attempt: the twist, then the closing turns exactly when the attempt does not seat the corner, reporting whether it did |
| `WhiteCornersPhase.TriesMeaning` | src/main/java/sh/grover/dcubed/controller/solve/WhiteCornersStep.java:121-138 | the number of failed attempts is the first attempt that seats the corner, or 3: every earlier attempt fails |
| `WhiteCornersPhase.InsertedAt` | src/main/java/sh/grover/dcubed/controller/solve/WhiteCornersStep.java:121-139 | the loop's two exits: a seating attempt after only failed ones is success, and three failures are the error |
| `WhiteCornersPhase.WhiteCorners.TwistDown` | src/main/java/sh/grover/dcubed/controller/solve/WhiteCornersStep.java:122-124 | the three turns that bring the corner down |
| `WhiteCornersPhase.WhiteCorners.UndoTwist` | src/main/java/sh/grover/dcubed/controller/solve/WhiteCornersStep.java:132-135 | the four turns that lift it back out |
| `SecondLayerPhase.DirectionOfNeighbours` | src/main/java/sh/grover/dcubed/controller/solve/SecondLayerStep.java:44-53 | the direction exists exactly when the edge's other colour is a neighbour of its face; it is then 1 or -1, the offset around YELLOW that reaches that neighbour |
| `SecondLayerPhase.ChosenEdge` | src/main/java/sh/grover/dcubed/controller/solve/SecondLayerStep.java:29-40 | a YELLOW edge is a candidate exactly when neither of its facelets is yellow; the search picks the first candidate, and -1 exactly when there is none |
| `SecondLayerPhase.AlignedEdgeMoves` | src/main/java/sh/grover/dcubed/controller/solve/SecondLayerStep.java:29-59 | aligning adds at most one YELLOW turn of -1..2 quarters; no turn when no edge is found; a found edge is prepared; errors are index-out-of-bounds or "couldn't determine rotation direction" |
| `SecondLayerPhase.InsertQuarters` | src/main/java/sh/grover/dcubed/controller/solve/SecondLayerStep.java:61-75 | one insertion is 8 quarter turns |
| `SecondLayerPhase.InsertBalanced` | src/main/java/sh/grover/dcubed/controller/solve/SecondLayerStep.java:61-75 | an insertion leaves every side's net turn at zero |
| `SecondLayerPhase.IterationQuarters` | src/main/java/sh/grover/dcubed/controller/solve/SecondLayerStep.java:41-75 | one round costs the alignment's quarter turns plus 8 |
| `SecondLayerPhase.FirstCandidate` | src/main/java/sh/grover/dcubed/controller/solve/SecondLayerStep.java:30-40 | the loop answers the first candidate, or -1 |
| `SecondLayerPhase.SecondLayer.constructor` | src/main/java/sh/grover/dcubed/controller/solve/SecondLayerStep.java:11-13 | a new phase over the cube |
| `SecondLayerPhase.SecondLayer.Solve` | src/main/java/sh/grover/dcubed/controller/solve/SecondLayerStep.java:16-27 | the calls only grow, by at most 40 quarter turns; errors are index-out-of-bounds or "couldn't determine rotation direction" |
| `SecondLayerPhase.SecondLayer.SolveRound` | src/main/java/sh/grover/dcubed/controller/solve/SecondLayerStep.java:18-24 | one round: the alignment, then the insertion when an edge was found; at most 10 quarter turns |
| `SecondLayerPhase.SecondLayer.FindAndAlignEdgeOnYellow` | src/main/java/sh/grover/dcubed/controller/solve/SecondLayerStep.java:29-59 | the turns and outcome described by `AlignedEdge` |
| `SecondLayerPhase.SecondLayer.InsertEdge` | src/main/java/sh/grover/dcubed/controller/solve/SecondLayerStep.java:61-75 | the eight turns of the insertion, in the prepared direction |
| `SecondLayerPhase.SecondLayer.Swing` | src/main/java/sh/grover/dcubed/controller/solve/SecondLayerStep.java:67-70 | four of the insertion's turns: YELLOW and the face, away and back |
| `YellowCrossPhase.YellowEdgeColor` | src/main/java/sh/grover/dcubed/controller/solve/YellowCrossStep.java:49 | the model's read of YELLOW's edge `k` is `getColorOfEdgePiece(YELLOW, k-th neighbour)` |
| `YellowCrossPhase.Window` | src/main/java/sh/grover/dcubed/controller/solve/YellowCrossStep.java:47-53 | window `i` holds the four flags from `i` around the ring |
| `YellowCrossPhase.Matches` | src/main/java/sh/grover/dcubed/controller/solve/YellowCrossStep.java:46-53 | a window matches a pattern exactly when every flag agrees |
| `YellowCrossPhase.FindPatternFirst` | src/main/java/sh/grover/dcubed/controller/solve/YellowCrossStep.java:44-58 | the search answers the first rotation that matches, or -1 exactly when none does |
| `YellowCrossPhase.UniformPattern` | src/main/java/sh/grover/dcubed/controller/solve/YellowCrossStep.java:44-58 | a pattern with all flags equal matches at rotation 0 or nowhere |
| `YellowCrossPhase.WindowReadsRing` | src/main/java/sh/grover/dcubed/controller/solve/YellowCrossStep.java:47-49 | the source's `loopedIndex` read of the neighbours gives the window's flag |
| `YellowCrossPhase.FindYellowPattern` | src/main/java/sh/grover/dcubed/controller/solve/YellowCrossStep.java:44-58 | the loop answers `FindPatternFirst` |
| `YellowCrossPhase.MatchesFrom` | src/main/java/sh/grover/dcubed/controller/solve/YellowCrossStep.java:47-53 | the inner loop's answer for one rotation |
| `YellowCrossPhase.CrossHasNoOtherPattern` | src/main/java/sh/grover/dcubed/controller/solve/YellowCrossStep.java:9-12 | a full cross matches none of the other three patterns |
| `YellowCrossPhase.CrossPermutationsFacts` | src/main/java/sh/grover/dcubed/controller/solve/YellowCrossStep.java:20-32 | the first permutation is at rotation 0 whenever no edge is yellow, and a complete cross gets no permutation at all |
| `YellowCrossPhase.CrossPermutationsOf` | src/main/java/sh/grover/dcubed/controller/solve/YellowCrossStep.java:20-32 | permutations chosen in turn for the three patterns, each on the cube the earlier ones leave, are `CrossPermutations` |
| `YellowCrossPhase.PermutesCallsThree` | src/main/java/sh/grover/dcubed/controller/solve/YellowCrossStep.java:20-32 | the calls of three runs of permutations made in turn are the calls of the three runs joined |
| `YellowCrossPhase.PermutesQuarters` | src/main/java/sh/grover/dcubed/controller/solve/YellowCrossStep.java:19-32 | `n` permutations take `6n` quarter turns with net zero on every side |
| `YellowCrossPhase.PermuteBalanced` | src/main/java/sh/grover/dcubed/controller/solve/YellowCrossStep.java:60-71 | one permutation leaves every side's net turn at zero |
| `YellowCrossPhase.YellowCross.constructor` | src/main/java/sh/grover/dcubed/controller/solve/YellowCrossStep.java:14-16 | a new phase over the cube |
| `YellowCrossPhase.YellowCross.Solve` | src/main/java/sh/grover/dcubed/controller/solve/YellowCrossStep.java:19-37 | exactly the permutations `CrossPermutations` of the starting cube: the no-yellow pattern permuted at its rotation, then an L at its rotation plus 2 on the cube that leaves, then a line at its rotation on the cube after that; 6 quarter turns each; the first at 0 when no edge is yellow and none when the cross is already there; success exactly when the cross is complete at the end, otherwise "couldn't solve yellow cross" |
| `YellowCrossPhase.YellowCross.PermuteOn` | src/main/java/sh/grover/dcubed/controller/solve/YellowCrossStep.java:20-32 | `used` is `PermutedFor` on the cube it starts from: one permutation at the first rotation the pattern matches plus the shift, or none when it matches nowhere; the calls are that permutation's and the cube it leaves is the starting cube after them; nothing changes when the pattern is not found |
| `YellowCrossPhase.YellowCross.PermuteAll` | src/main/java/sh/grover/dcubed/controller/solve/YellowCrossStep.java:20-32 | the three `if`s of `solve` make exactly `CrossPermutations` of the starting cube, and their calls |
| `YellowCrossPhase.YellowCross.Permute` | src/main/java/sh/grover/dcubed/controller/solve/YellowCrossStep.java:60-71 | the six turns of a permutation |
| `YellowEdgesPhase.EdgeDistance` | src/main/java/sh/grover/dcubed/controller/solve/YellowEdgesStep.java:87-91 | `distanceFromSideToYellowEdge` lies in -1..2, or fails with the distance error |
| `YellowEdgesPhase.EdgeDistanceMeaning` | src/main/java/sh/grover/dcubed/controller/solve/YellowEdgesStep.java:87-91 | the distance fails exactly when the facing edge is white or yellow, and is 0 exactly when it shows the face's colour |
| `YellowEdgesPhase.Distances` | src/main/java/sh/grover/dcubed/controller/solve/YellowEdgesStep.java:37-40 | one distance per side face, each in -1..2, or the distance error |
| `YellowEdgesPhase.AlignedDistances` | src/main/java/sh/grover/dcubed/controller/solve/YellowEdgesStep.java:37-40 | when every edge is aligned, every distance is 0 |
| `YellowEdgesPhase.DistancesStep` | src/main/java/sh/grover/dcubed/controller/solve/YellowEdgesStep.java:37-40 | the run of distances over `k + 1` sides is the run over `k` sides extended by the next distance, or that distance's error |
| `YellowEdgesPhase.DistancesFailureSticks` | src/main/java/sh/grover/dcubed/controller/solve/YellowEdgesStep.java:37-40 | once a lookup fails, the whole run fails with it |
| `YellowEdgesPhase.FourVotesElect` | src/main/java/sh/grover/dcubed/controller/solve/YellowEdgesStep.java:42-45 | four votes in -1..2 always elect an offset |
| `YellowEdgesPhase.TurnedYellowBestMoves` | src/main/java/sh/grover/dcubed/controller/solve/YellowEdgesStep.java:34-46 | the calls grow by one YELLOW turn of at most 2 quarters; errors are the distance error |
| `YellowEdgesPhase.AlignedTurnsNothing` | src/main/java/sh/grover/dcubed/controller/solve/YellowEdgesStep.java:34-46 | when the edges are aligned YELLOW is turned by 0 |
| `YellowEdgesPhase.Mismatched` | src/main/java/sh/grover/dcubed/controller/solve/YellowEdgesStep.java:51 | a face counts as mismatched exactly when its distance is not 0 |
| `YellowEdgesPhase.OppositeMeaning` | src/main/java/sh/grover/dcubed/controller/solve/YellowEdgesStep.java:48-58 | the check answers whether the first mismatched face's opposite face is mismatched too; false when everything is aligned |
| `YellowEdgesPhase.SolvedBeforeUnsolved` | src/main/java/sh/grover/dcubed/controller/solve/YellowEdgesStep.java:63-66 | a face qualifies exactly when it matches and the next face does not |
| `YellowEdgesPhase.SwapSideMeaning` | src/main/java/sh/grover/dcubed/controller/solve/YellowEdgesStep.java:60-75 | the search answers the first qualifying face, or -1 when none qualifies, which is the case when everything is aligned |
| `YellowEdgesPhase.SwapQuarters` | src/main/java/sh/grover/dcubed/controller/solve/YellowEdgesStep.java:77-84 | a swap is 9 quarter turns: net 0 on the face and 5 on YELLOW |
| `YellowEdgesPhase.SwappedMoves` | src/main/java/sh/grover/dcubed/controller/solve/YellowEdgesStep.java:60-85 | a swap adds at most 9 quarter turns; errors are the distance error; an aligned cube gets no swap |
| `YellowEdgesPhase.CheckMeaning` | src/main/java/sh/grover/dcubed/controller/solve/YellowEdgesStep.java:27-31 | the final check passes exactly when every remaining distance is 0 |
| `YellowEdgesPhase.TallyYellowVotes` | src/main/java/sh/grover/dcubed/controller/solve/YellowEdgesStep.java:35-40 | the loop's tally is the tally of `Distances` |
| `YellowEdgesPhase.CastYellowVote` | src/main/java/sh/grover/dcubed/controller/solve/YellowEdgesStep.java:38-39 | one iteration turns the tally of the first `k` distances into the tally of the first `k + 1`, or fails with the lookup's error |
| `YellowEdgesPhase.OppositeSidesMismatched` | src/main/java/sh/grover/dcubed/controller/solve/YellowEdgesStep.java:48-58 | the loop answers `OppositeFrom` |
| `YellowEdgesPhase.FindRightSolvedSide` | src/main/java/sh/grover/dcubed/controller/solve/YellowEdgesStep.java:60-71 | the loop answers `SwapSideFrom` |
| `YellowEdgesPhase.CheckEdges` | src/main/java/sh/grover/dcubed/controller/solve/YellowEdgesStep.java:27-31 | the loop answers `CheckFrom` |
| `YellowEdgesPhase.YellowEdges.constructor` | src/main/java/sh/grover/dcubed/controller/solve/YellowEdgesStep.java:12-14 | a new phase over the cube |
| `YellowEdgesPhase.YellowEdges.Solve` | src/main/java/sh/grover/dcubed/controller/solve/YellowEdgesStep.java:17-32 | the calls only grow, by at most 22 quarter turns; success leaves every edge aligned; the errors are the phase's own; an aligned start leaves the cube as it was |
| `YellowEdgesPhase.YellowEdges.SwapThenTurn` | src/main/java/sh/grover/dcubed/controller/solve/YellowEdgesStep.java:20-23 | exactly `Swapped` on the cube it starts from; a swap error ends it there; otherwise exactly `TurnedYellowBest` on the cube the swap leaves; at most 11 quarter turns |
| `YellowEdgesPhase.YellowEdges.RotateYellowBest` | src/main/java/sh/grover/dcubed/controller/solve/YellowEdgesStep.java:34-46 | YELLOW is turned by the elected offset; a turn by 0 leaves the cube unchanged |
| `YellowEdgesPhase.YellowEdges.SwapEdges` | src/main/java/sh/grover/dcubed/controller/solve/YellowEdgesStep.java:60-85 | the swap described by `Swapped`; no calls leave the cube unchanged |
| `YellowEdgesPhase.YellowEdges.Exchange` | src/main/java/sh/grover/dcubed/controller/solve/YellowEdgesStep.java:77-84 | the nine turns of the swap |
| `PositionYellowCornersPhase.YellowCornerAt` | src/main/java/sh/grover/dcubed/controller/solve/PositionYellowCornersStep.java:86-92 | the corner the model reads at entry `k` is `getCornerPiece(YELLOW, YELLOW_CONNECTION_CORNER_INDICES[k-th face])` |
| `PositionYellowCornersPhase.CornerPlacedMeaning` | src/main/java/sh/grover/dcubed/controller/solve/PositionYellowCornersStep.java:86-95 | a corner is placed exactly when its colours are YELLOW and the two faces it sits between |
| `PositionYellowCornersPhase.Placed` | src/main/java/sh/grover/dcubed/controller/solve/PositionYellowCornersStep.java:86-95 | one flag per YELLOW corner, set exactly when the corner is placed |
| `PositionYellowCornersPhase.Unplaced` | src/main/java/sh/grover/dcubed/controller/solve/PositionYellowCornersStep.java:51-59 | the number of unplaced corners among the first `n` is at most `n` |
| `PositionYellowCornersPhase.UnplacedMeaning` | src/main/java/sh/grover/dcubed/controller/solve/PositionYellowCornersStep.java:51-59 | 0 exactly when every corner is placed, and `n` exactly when none is |
| `PositionYellowCornersPhase.SolvedCornersPlaced` | src/main/java/sh/grover/dcubed/controller/solve/PositionYellowCornersStep.java:27-31 | a solved cube has no unplaced corner |
| `PositionYellowCornersPhase.SolvedCornerEntry` | src/main/java/sh/grover/dcubed/controller/solve/PositionYellowCornersStep.java:61-69 | the first placed corner, or the "no corners are solved" error exactly when none is placed |
| `PositionYellowCornersPhase.RepositionBalanced` | src/main/java/sh/grover/dcubed/controller/solve/PositionYellowCornersStep.java:71-84 | a reposition is 8 quarter turns, leaves every side's net turn at zero and never turns the pivot face |
| `PositionYellowCornersPhase.RepositionsQuarters` | src/main/java/sh/grover/dcubed/controller/solve/PositionYellowCornersStep.java:33-44 | `n` repositions take `8n` quarter turns |
| `PositionYellowCornersPhase.YellowConnectionMatchesExpectedCorner` | src/main/java/sh/grover/dcubed/controller/solve/PositionYellowCornersStep.java:86-95 | the check answers `CornerPlaced` |
| `PositionYellowCornersPhase.NumUnsolvedCorners` | src/main/java/sh/grover/dcubed/controller/solve/PositionYellowCornersStep.java:51-59 | the loop counts `Unplaced` |
| `PositionYellowCornersPhase.FindConnectedSideOfSolvedCorner` | src/main/java/sh/grover/dcubed/controller/solve/PositionYellowCornersStep.java:61-69 | the loop answers `SolvedCornerEntry` |
| `PositionYellowCornersPhase.RoundsFor` | src/main/java/sh/grover/dcubed/controller/solve/PositionYellowCornersStep.java:38-44 | one or two cycles, all round the given entry |
| `PositionYellowCornersPhase.CornerCyclesNonePlaced` | src/main/java/sh/grover/dcubed/controller/solve/PositionYellowCornersStep.java:33-44 | with no corner placed, the first cycle is round entry 0, then every later cycle is round the first corner placed after it (at least one); there is none when no corner is placed then |
| `PositionYellowCornersPhase.CornerCyclesSomePlaced` | src/main/java/sh/grover/dcubed/controller/solve/PositionYellowCornersStep.java:37-44 | with some but not all corners placed, at least one cycle, every one round the first placed corner |
| `PositionYellowCornersPhase.SomePlacedFound` | src/main/java/sh/grover/dcubed/controller/solve/PositionYellowCornersStep.java:61-69 | with fewer than four corners unplaced, the search finds a placed one |
| `PositionYellowCornersPhase.RoundsAfterFirst` | src/main/java/sh/grover/dcubed/controller/solve/PositionYellowCornersStep.java:38-44 | the loop makes one cycle when the first places every corner, and two otherwise |
| `PositionYellowCornersPhase.CornerCyclesOf` | src/main/java/sh/grover/dcubed/controller/solve/PositionYellowCornersStep.java:27-44 | the first check's cycle followed by the rest, each chosen on the cube the earlier ones leave, are `CornerCycles` |
| `PositionYellowCornersPhase.PositionYellowCorners.constructor` | src/main/java/sh/grover/dcubed/controller/solve/PositionYellowCornersStep.java:22-24 | a new phase over the cube |
| `PositionYellowCornersPhase.PositionYellowCorners.Solve` | src/main/java/sh/grover/dcubed/controller/solve/PositionYellowCornersStep.java:27-49 | exactly the cycles `CornerCycles` of the starting cube, each chosen on the cube the earlier ones leave; at most 3, 8 quarter turns each; success exactly when nothing is unplaced at the end; the errors are the phase's own; no turns when nothing is unplaced; the first cycle round entry 0 when all four are unplaced; otherwise every cycle round the first placed corner |
| `PositionYellowCornersPhase.PositionYellowCorners.RepositionFromSolved` | src/main/java/sh/grover/dcubed/controller/solve/PositionYellowCornersStep.java:37-48 | exactly `FromSolved` of the cube it starts from: one or two cycles round the first placed corner, or no cycle and the "no corners are solved" error when none is placed |
| `PositionYellowCornersPhase.PositionYellowCorners.RepositionRounds` | src/main/java/sh/grover/dcubed/controller/solve/PositionYellowCornersStep.java:38-48 | exactly `RoundsFor` on the cube it starts from (`LoopCycles`): a second cycle only when the first leaves a corner unplaced; success exactly when nothing is unplaced; otherwise "couldn't reposition yellow corners" |
| `PositionYellowCornersPhase.PositionYellowCorners.CycleAndCount` | src/main/java/sh/grover/dcubed/controller/solve/PositionYellowCornersStep.java:39-41 | one cycle and the number of unplaced corners on the cube it leaves; after the first turn of the loop, whether the loop makes one cycle or two |
| `PositionYellowCornersPhase.PositionYellowCorners.RepositionIfNone` | src/main/java/sh/grover/dcubed/controller/solve/PositionYellowCornersStep.java:33-35 | one cycle round entry 0 exactly when all four corners are unplaced, and the cube it leaves |
| `PositionYellowCornersPhase.CheckPlaced` | src/main/java/sh/grover/dcubed/controller/solve/PositionYellowCornersStep.java:46-48 | success exactly when no corner is unplaced; otherwise "couldn't reposition yellow corners" |
| `PositionYellowCornersPhase.PositionYellowCorners.RepositionAround` | src/main/java/sh/grover/dcubed/controller/solve/PositionYellowCornersStep.java:71-84 | the eight turns of a cycle, and the cube it leaves is the starting cube after them |
| `PositionYellowCornersPhase.PositionYellowCorners.HalfCycle` | src/main/java/sh/grover/dcubed/controller/solve/PositionYellowCornersStep.java:76-83 | one half of the reposition |
| `OrientYellowCornersPhase.Unsolved` | src/main/java/sh/grover/dcubed/controller/solve/OrientYellowCornersStep.java:41-44 | a corner counts as unsolved exactly when its top left differs from its top middle |
| `OrientYellowCornersPhase.Leading` | src/main/java/sh/grover/dcubed/controller/solve/OrientYellowCornersStep.java:41-49 | a corner leads exactly when it is unsolved and the next one is solved |
| `OrientYellowCornersPhase.LeadingUnsolvedMeaning` | src/main/java/sh/grover/dcubed/controller/solve/OrientYellowCornersStep.java:37-57 | -1 exactly when every corner is solved; otherwise the first leading corner, or 0 when every corner is unsolved |
| `OrientYellowCornersPhase.TwistsQuarters` | src/main/java/sh/grover/dcubed/controller/solve/OrientYellowCornersStep.java:63-66 | `n` twists take `4n` quarter turns and leave every side's net turn at zero |
| `OrientYellowCornersPhase.FindLeadingUnsolvedCorner` | src/main/java/sh/grover/dcubed/controller/solve/OrientYellowCornersStep.java:37-57 | the loop answers `LeadingUnsolved` |
| `OrientYellowCornersPhase.OrientYellowCorners.constructor` | src/main/java/sh/grover/dcubed/controller/solve/OrientYellowCornersStep.java:12-14 | a new phase over the cube |
| `OrientYellowCornersPhase.OrientYellowCorners.Solve` | src/main/java/sh/grover/dcubed/controller/solve/OrientYellowCornersStep.java:17-35 | at most 4 orientations, none when every corner is solved, then only the final turn; at most 74 quarter turns; errors are "couldn't orient corner" or the distance error |
| `OrientYellowCornersPhase.OrientYellowCorners.OrientRound` | src/main/java/sh/grover/dcubed/controller/solve/OrientYellowCornersStep.java:21-32 | exactly `orient`'s twists, up to the first that orients the corner (`TwistedCubes`); then, when a leading corner is left on the twisted cube, one YELLOW turn by `NextTurn`, and `done` exactly when none is left; "couldn't orient corner" after four twists with no further turn; at most 18 quarter turns |
| `OrientYellowCornersPhase.OrientYellowCorners.TurnToNext` | src/main/java/sh/grover/dcubed/controller/solve/OrientYellowCornersStep.java:24-30 | nothing happens exactly when no corner is left unsolved; otherwise exactly one YELLOW call by `NextTurn`, the distance from the next leading corner's side to the starting side, at most 2 quarters |
| `OrientYellowCornersPhase.OrientYellowCorners.Orient` | src/main/java/sh/grover/dcubed/controller/solve/OrientYellowCornersStep.java:59-78 | between 1 and 4 twists, each leaving a cube in `seen`; every cube but the last is not oriented (`TwistedCubes`), so it stops at the first twist that orients the corner; success exactly when the last is oriented; the error only after 4 twists |
| `OrientYellowCornersPhase.OrientYellowCorners.TwistAndLook` | src/main/java/sh/grover/dcubed/controller/solve/OrientYellowCornersStep.java:62-73 | one twist, reporting exactly whether the corner at the entry and the next one match on the cube it leaves |
| `OrientYellowCornersPhase.NextTurn` | src/main/java/sh/grover/dcubed/controller/solve/OrientYellowCornersStep.java:29 | the YELLOW turn to the next leading corner is within -1..2 |
| `OrientYellowCornersPhase.OrientYellowCorners.Twist` | src/main/java/sh/grover/dcubed/controller/solve/OrientYellowCornersStep.java:63-66 | the four turns of one twist |
| `OrientYellowCornersPhase.OrientYellowCorners.FinalYellowRotation` | src/main/java/sh/grover/dcubed/controller/solve/OrientYellowCornersStep.java:80-84 | YELLOW is turned so that RED's edge is back over RED |
| `OrientYellowCornersPhase.TurnedToRedMoves` | src/main/java/sh/grover/dcubed/controller/solve/OrientYellowCornersStep.java:80-84 | the final turn adds at most 2 quarter turns and fails, with the distance error, exactly when RED's top edge is white or yellow |
| `Instructions.StepId` | src/main/java/sh/grover/dcubed/controller/solve/YellowCrossStep.java:40-42 | a phase's key is non-empty and starts with a lower-case letter, in the lower camel case of `yellowCross`; `StepIdsDistinct` shows the keys are distinct |
| `Instructions.StageOfId` | src/main/java/sh/grover/dcubed/controller/solve/YellowCrossStep.java:40-42 | the inverse of `stepId`: a key maps back to the one phase it belongs to |
| `Instructions.StepIdsDistinct` | src/main/java/sh/grover/dcubed/controller/solve/YellowCrossStep.java:40-42 | two phases have the same key exactly when they are the same phase |
| `Instructions.StagesDistinct` | src/test/java/sh/grover/dcubed/controller/solve/SolveTest.java:52-58 | the seven phases of a solve have seven different keys |
| `Instructions.SolveInstructions.constructor` | src/main/java/sh/grover/dcubed/model/SolveInstructions.java:14-16 | no moves and no recorded starts |
| `Instructions.SolveInstructions.RunStep` | src/main/java/sh/grover/dcubed/model/SolveInstructions.java:18-22 | the phase's start is recorded at the current move count, and on success its moves are appended and record the turns applied to the cube |
| `Instructions.SolveInstructions.Unscramble` | src/test/java/sh/grover/dcubed/controller/solve/SolveTest.java:50-60 | the seven phases in order: moves only grow, every phase's start is recorded in order, and the moves record the turns applied to the cube |
| `Instructions.Run` | src/test/java/sh/grover/dcubed/controller/solve/SolveTest.java:52-58 | a phase run on a new step ends valid, over the cube, from the cube's state before |
| `ScannedSides.RequireAllValid` | src/main/java/sh/grover/dcubed/controller/vision/ScannedSide.java:9-11 | succeeds exactly when every face colour is valid |
| `ScannedSides.NewScannedSide` | src/main/java/sh/grover/dcubed/controller/vision/ScannedSide.java:5-12 | built exactly when the side colour and every face colour are valid, and then holds them |
| `Sessions.SolveSession.constructor` | src/main/java/sh/grover/dcubed/controller/SolveSession.java:9 | no side has been scanned |
| `Sessions.SolveSession.AddSide` | src/main/java/sh/grover/dcubed/controller/SolveSession.java:11-13 | the scanned faces are stored under the side's colour, and no other slot changes |
| `Sessions.SolveSession.Sides` | src/main/java/sh/grover/dcubed/controller/SolveSession.java:15-27 | a fresh table with fresh rows holding the same contents |
| `Sessions.CopyOf` | src/main/java/sh/grover/dcubed/controller/SolveSession.java:22-24 | a fresh array with the same contents |
| `ScanResults.FaceNames` | src/main/java/sh/grover/dcubed/model/ScanResult.java:22-24 | the names of a side's faces, or an error when one is not a colour |
| `ScanResults.ToMap` | src/main/java/sh/grover/dcubed/model/ScanResult.java:17-26 | succeeds exactly when every scanned face is a colour |
| `ScanResults.ToMapMeaning` | src/main/java/sh/grover/dcubed/model/ScanResult.java:17-26 | the keys are the names of the scanned sides, exactly, and each maps to its faces' names |
| `ScanResults.NewScanResult` | src/main/java/sh/grover/dcubed/model/ScanResult.java:13-15 | the result keeps the session id and holds `toMap` of the sides |

## Left out

- The vision pipeline (image capture, colour classification), the HTTP and UI layers and the session registry are not part of this model. They are I/O, concurrency and image processing. Session ids are an opaque parameter (`SessionId`), so UUID generation is left out.
- `AbstractHumanAlgorithm`, `LayeredHumanAlgorithm` and `ISolvingAlgorithm` are an older solver interface. Nothing in the modelled core uses them.
- `Side.toString` is left out. It only produces debugging text.
- Side.java stores its facelets as `FaceColor[]`, which no longer matches `FaceColor`, a class of `int` constants. The model uses the `int` colours that `SideTest` and `Cube` use.
- `Cubes.Cube.RotateClockwise`, `Cubes.Cube.RotateCounterClockwise` and `Cubes.Cube.Rotate` also move the four strips around the turned side, as CubeTest.java:25-71 expects. Cube.java:71-78 rotates only the side's own ring (`Cubes.TurnRing`, see Findings), and the model does not keep that behaviour.
- `SidePacking.Decode`: `new Side(long)` and `toColors` appear only in SideTest, which does not show what happens to a byte that is not a colour. The rejection and its message ("invalid color byte") are this model's choice, so that a decoded side always holds colours.
- `Cube` keeps each side as a packed `long`. The model keeps each side as a ring of eight colours. `SidePacking` proves that the packed rotations (`Long.rotateRight`/`rotateLeft` by 16 bits) are exactly the ring turns.
- Cube.java defines only the layout, the connection table and the two rotations, which turn only the side's own packed ring. The queries the solver calls (`getConnections`, `getColorOfEdgePiece`, `getCornerPiece`, `getAdjacentSideFromConnectedSideWithOffset`, `getSides`, `side`) are defined from how the phases and the tests use them.
- The phases disagree on their constructors. AbstractSolveStep.java takes only the cube, while most steps and `SolveTest` pass a shared move list. The model follows AbstractSolveStep.java: each step keeps its own moves, and `SolveInstructions.runStep` appends them to the shared list, as in the code.
- Only `YellowCrossStep` defines `stepId` ("yellowCross"). The other phases' keys are chosen here in the same style.
- Error messages keep the source's wording but drop any numbers the source appends to them.
- `SecondLayerStep` has a "find on side" TODO. When no edge qualifies on YELLOW, its round does nothing, and the model keeps that.
- The model does not prove that a full solve leaves the cube solved, which `SolveTest` checks on 100 random scrambles. What is proved about a phase is the calls it makes, their quarter-turn counts and net turns, and the property each phase checks at its end.
- `SecondLayerPhase.SecondLayer.InsertEdge` requires a prepared edge, which is the only kind `findAndAlignEdgeOnYellow` returns.
- The passes, permutations, cycles and cubes a phase goes through (`used`, `around`, `seen`, `twists`, `aligned`) are ghost out-parameters in the model. The source's methods return nothing; the model needs these values to state which calls were made and on which cube each choice was taken.
- `SecondLayerPhase.SecondLayer.Solve`, `YellowEdgesPhase.YellowEdges.Solve` and `OrientYellowCornersPhase.OrientYellowCorners.Solve` bound their work in quarter turns (40, 22, 74) rather than naming the exact calls.
- `WhiteCornersPhase.WhiteCorners.Solve` states only its error messages; the per-corner behaviour is stated by `SolveCorner`.
- `Sessions.SolveSession.Sides` copies rows with `CopyOf`, as `System.arraycopy` does. Java's `Arrays.stream(...).toArray` is written out as a loop.

## Findings

| source | as written | input that shows it | evidently intended | confidence | as-written member | corrected member |
|---|---|---|---|---|---|---|
| src/main/java/sh/grover/dcubed/model/Cube.java:71-78 | `rotateClockwise` and `rotateCounterClockwise` only rotate the turned side's packed `long` by 16 bits; the four strips around the side stay where they are | CubeTest's checkered cube with WHITE turned clockwise: RED's bottom row stays RED, where CubeTest.java:25-47 expects BLUE | a quarter turn also carries the four neighbouring strips, as both rotation tests and every solve phase assume | high; not executed | `Cubes.TurnRing`, `Cubes.TurnRingMovesOwnRingOnly`, `Cubes.RingOnlyTurnMissesScenario` | `Cubes.Cube.Rotate`, `Cubes.WhiteTurnScenario` |
| src/main/java/sh/grover/dcubed/model/Cube.java:103-110 | every side face is given the same strips on the poles: YELLOW facelets (6, 5, 4) and WHITE facelets (2, 1, 0) | RED and ORANGE both claim YELLOW facelet 5 and WHITE facelet 1, so the four side faces name the same YELLOW edge | each side face touches the pole strip that faces it: RED YELLOW(0, 7, 6) and WHITE(0, 7, 6); ORANGE YELLOW(4, 3, 2) and WHITE(4, 3, 2); GREEN YELLOW(6, 5, 4) and WHITE(2, 1, 0); BLUE YELLOW(2, 1, 0) and WHITE(6, 5, 4). The poles' own entries at lines 45-61 agree with this | high for the aliasing; not executed | `CubeTopology.WrittenTableAliasesEdges`, `CubeTopology.WrittenEdgesDoNotFollowTheRing` | `CubeTopology.EdgesFollowTheRing` |
