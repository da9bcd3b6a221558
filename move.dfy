/** A recorded move: the turned side's name and its direction. */
module Moves {
  import opened Outcomes
  import opened FaceColor

  datatype Move = Move(side: string, clockwise: bool)

  /** The converting constructor: the side's colour becomes its name, and an
      invalid colour is rejected the way `toString` rejects it. */
  function FromColor(sideColor: int, clockwise: bool): (r: Result<Move>)
    ensures r.Ok? <==> 0 <= sideColor < 6
    ensures r.Ok? ==> ToString(sideColor) == Ok(r.value.side) && r.value.clockwise == clockwise
    ensures r.Err? ==> r.error.IllegalArgument?
  {
    var name :- ToString(sideColor);
    Ok(Move(name, clockwise))
  }

  /** The move of turning a valid colour. */
  function MoveOf(side: Color, clockwise: bool): Move
  {
    FromColor(side, clockwise).value
  }

  /** Different turns record different moves: colour and direction can be read back. */
  lemma {:induction false} MoveOfInjective(a: Color, x: bool, b: Color, y: bool)
    ensures MoveOf(a, x) == MoveOf(b, y) <==> a == b && x == y
  {
    NamesDistinct(a, b);
  }

  /** Reading a move back: the colour of the turned side. */
  function SideColor(m: Move): (r: Option<Color>)
    ensures r.Some? ==> MoveOf(r.value, m.clockwise) == m
  {
    ColorOfName(m.side)
  }

  lemma SideColorOfMove(c: Color, clockwise: bool)
    ensures SideColor(MoveOf(c, clockwise)) == Some(c)
  {
  }
}
