/** A side as the colour identifier reports it: the colour of its centre and
    the colours of its facelets, validated when built. */
module ScannedSides {
  import opened Outcomes
  import opened FaceColor

  /** `ScannedSide`: the record keeps the facelet array it was given, not a
      copy, so its holder and the record share one array. */
  datatype ScannedSide = ScannedSide(sideColor: Color, faces: array<int>)

  /** Every colour of `colors` passes `requireValid`, checked in order; the
      first invalid one throws. */
  function RequireAllValid(colors: seq<int>): (r: Outcome)
    ensures r.Ok? <==> forall i :: 0 <= i < |colors| ==> 0 <= colors[i] < 6
    ensures r.Err? ==> r == Err(IllegalArgument("invalid color"))
  {
    if colors == [] then Pass
    else
      var _ :- RequireValid(colors[0]);
      RequireAllValid(colors[1..])
  }

  /** The validating constructor: the side colour first, then each facelet.
      The number of facelets is not checked, and an accepted side keeps
      exactly the values given. */
  function NewScannedSide(sideColor: int, faces: array<int>): (r: Result<ScannedSide>)
    reads faces
    ensures r.Ok? <==> 0 <= sideColor < 6 && forall i :: 0 <= i < faces.Length ==> 0 <= faces[i] < 6
    ensures r.Ok? ==> r.value.sideColor == sideColor && r.value.faces == faces
    ensures r.Err? ==> r == Err(IllegalArgument("invalid color"))
  {
    var _ :- RequireValid(sideColor);
    var _ :- RequireAllValid(faces[..]);
    Ok(ScannedSide(sideColor, faces))
  }
}
