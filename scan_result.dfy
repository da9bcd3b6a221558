/** What a scan reports back: the session's id and, for each side scanned
    so far, its facelet colours by name. */
module ScanResults {
  import opened Outcomes
  import opened FaceColor

  /** A session id; only passed along, never inspected. */
  datatype SessionId = SessionId(mostSignificant: int, leastSignificant: int)

  /** `ScanResult`: the id and the sides, keyed by colour name. */
  datatype ScanResult = ScanResult(sessionId: SessionId, sides: map<string, seq<string>>)

  /** The facelet colours of one side by name, in order; the first invalid
      colour throws. */
  function FaceNames(faces: seq<int>): (r: Result<seq<string>>)
    ensures r.Ok? <==> forall i :: 0 <= i < |faces| ==> 0 <= faces[i] < 6
    ensures r.Ok? ==> |r.value| == |faces| && forall i :: 0 <= i < |faces| ==> ToString(faces[i]) == Ok(r.value[i])
    ensures r.Err? ==> r == Err(IllegalArgument("can't be converted to string"))
  {
    if faces == [] then Ok([])
    else
      var first :- ToString(faces[0]);
      var rest :- FaceNames(faces[1..]);
      Ok([first] + rest)
  }

  /** Every occupied slot of `sides` is a colour and holds only colours. */
  predicate Convertible(sides: seq<Option<seq<int>>>)
  {
    forall i :: 0 <= i < |sides| && sides[i].Some? ==>
      i < 6 && forall j :: 0 <= j < |sides[i].value| ==> 0 <= sides[i].value[j] < 6
  }

  /** `toMap`: the occupied slots, in index order, each under its colour's
      name with its facelets by name; an occupied slot past BLUE or an
      invalid facelet throws. */
  function ToMap(sides: seq<Option<seq<int>>>): (r: Result<map<string, seq<string>>>)
    ensures r.Ok? <==> Convertible(sides)
    ensures r.Err? ==> r == Err(IllegalArgument("can't be converted to string"))
  {
    if sides == [] then Ok(map[])
    else
      var last := |sides| - 1;
      var m :- ToMap(sides[..last]);
      match sides[last]
      case None => Ok(m)
      case Some(faces) =>
        var key :- ToString(last);
        var value :- FaceNames(faces);
        Ok(m[key := value])
  }

  /** The keys of the map are the names of exactly the occupied slots, and
      each holds its slot's facelets by name, element by element. */
  lemma {:induction false} ToMapMeaning(sides: seq<Option<seq<int>>>)
    requires Convertible(sides)
    ensures forall key :: key in ToMap(sides).value ==> ColorOfName(key).Some?
    ensures forall c: Color :: Name(c) in ToMap(sides).value <==> c < |sides| && sides[c].Some?
    ensures forall c: Color :: c < |sides| && sides[c].Some? ==>
      ToMap(sides).value[Name(c)] == FaceNames(sides[c].value).value
  {
    if sides != [] {
      var last := |sides| - 1;
      assert Convertible(sides[..last]);
      ToMapMeaning(sides[..last]);
      if sides[last].Some? {
        forall c: Color
          ensures Name(c) == Name(last) <==> c == last
        {
          NamesDistinct(c, last);
        }
      }
    }
  }

  /** The record's second constructor: the id as given, the table through
      `toMap`. */
  function NewScanResult(sessionId: SessionId, sides: seq<Option<seq<int>>>): (r: Result<ScanResult>)
    ensures r.Ok? <==> Convertible(sides)
    ensures r.Ok? ==> r.value.sessionId == sessionId && Ok(r.value.sides) == ToMap(sides)
  {
    var m :- ToMap(sides);
    Ok(ScanResult(sessionId, m))
  }
}
