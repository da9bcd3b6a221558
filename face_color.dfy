/** The six colours. A colour names both a side (by its centre) and a
    facelet; colours are the ints 0..5 and every other int is rejected. */
module FaceColor {
  import opened Outcomes

  type Color = c: int | 0 <= c < 6

  const WHITE: Color := 0
  const RED: Color := 1
  const ORANGE: Color := 2
  const YELLOW: Color := 3
  const GREEN: Color := 4
  const BLUE: Color := 5

  /** `requireValid`: passes exactly on WHITE..BLUE. */
  function RequireValid(color: int): (r: Outcome)
    ensures r.Ok? <==> 0 <= color < 6
    ensures r.Err? ==> r.error.IllegalArgument?
  {
    if color < WHITE || color > BLUE then Err(IllegalArgument("invalid color")) else Pass
  }

  /** `values`: every colour, in ascending order. */
  function Values(): (r: seq<Color>)
    ensures |r| == 6
    ensures forall i :: 0 <= i < 6 ==> r[i] == i
  {
    [WHITE, RED, ORANGE, YELLOW, GREEN, BLUE]
  }

  /** `toString`: the upper-case name of a colour; any other int throws. */
  function ToString(color: int): (r: Result<string>)
    ensures r.Ok? <==> 0 <= color < 6
    ensures r.Err? ==> r.error.IllegalArgument?
  {
    match color
    case 0 => Ok("WHITE")
    case 1 => Ok("RED")
    case 2 => Ok("ORANGE")
    case 3 => Ok("YELLOW")
    case 4 => Ok("GREEN")
    case 5 => Ok("BLUE")
    case _ => Err(IllegalArgument("can't be converted to string"))
  }

  /** The name of a colour known to be valid. */
  function Name(color: Color): string
  {
    ToString(color).value
  }

  /** The colour a name stands for: the inverse of `ToString`. Recorded
      moves carry a side's name, and replaying them needs the colour back. */
  function ColorOfName(name: string): (r: Option<Color>)
    ensures r.Some? ==> ToString(r.value) == Ok(name)
    ensures forall c: Color :: ToString(c) == Ok(name) ==> r == Some(c)
  {
    if name == "WHITE" then Some(WHITE)
    else if name == "RED" then Some(RED)
    else if name == "ORANGE" then Some(ORANGE)
    else if name == "YELLOW" then Some(YELLOW)
    else if name == "GREEN" then Some(GREEN)
    else if name == "BLUE" then Some(BLUE)
    else None
  }

  /** `toString` is injective on valid colours. */
  lemma {:induction false} NamesDistinct(a: Color, b: Color)
    ensures Name(a) == Name(b) <==> a == b
  {
    if Name(a) == Name(b) {
      assert ColorOfName(Name(a)) == Some(a) && ColorOfName(Name(b)) == Some(b);
    }
  }

  /** `String.toLowerCase` on the ASCII names used here: no upper-case letter
      is left, each one becomes the lower-case letter at the same place in the
      alphabet, and every other character stays as it is. */
  function LowerCase(s: string): (r: string)
    ensures |r| == |s|
    ensures forall i :: 0 <= i < |r| ==> !('A' <= r[i] <= 'Z')
    ensures forall i :: 0 <= i < |s| && 'A' <= s[i] <= 'Z' ==>
      'a' <= r[i] <= 'z' && r[i] as int - 'a' as int == s[i] as int - 'A' as int
    ensures forall i :: 0 <= i < |s| && !('A' <= s[i] <= 'Z') ==> r[i] == s[i]
  {
    seq(|s|, i requires 0 <= i < |s| => if 'A' <= s[i] <= 'Z' then (s[i] as int + 32) as char else s[i])
  }

  /** Lowering twice is lowering once. */
  lemma LowerCaseIdempotent(s: string)
    ensures LowerCase(LowerCase(s)) == LowerCase(s)
  {
  }
}
