/** A scanning session: the latest facelets reported for each of the six
    sides. */
module Sessions {
  import opened Outcomes
  import opened FaceColor
  import opened ScannedSides

  /** What a table of facelet arrays holds: per slot, nothing or the colours
      in the slot's array. */
  ghost function Contents(table: array<array?<int>>): (c: seq<Option<seq<int>>>)
    reads table, set i | 0 <= i < table.Length && table[i] != null :: table[i]
    ensures |c| == table.Length
    ensures forall i :: 0 <= i < table.Length ==> (c[i].Some? <==> table[i] != null)
  {
    seq(table.Length, i requires 0 <= i < table.Length
      reads table, set j | 0 <= j < table.Length && table[j] != null :: table[j] =>
      if table[i] == null then None else Some(table[i][..]))
  }

  /** `SolveSession`: six slots, one per colour, each empty or holding the
      facelet array of the last side added for that colour. */
  class SolveSession {
    const sides: array<array?<int>>

    ghost predicate Valid()
      reads this
    {
      sides.Length == 6
    }

    constructor()
      ensures Valid() && fresh(sides)
      ensures forall i :: 0 <= i < 6 ==> sides[i] == null
    {
      sides := new array?<int>[6](i => null);
    }

    /** `addSide`: the slot of the side's colour now holds its facelet
        array, the very array the scanned side holds, replacing whatever was
        there; every other slot is unchanged. */
    method AddSide(side: ScannedSide)
      requires Valid()
      modifies sides
      ensures sides[side.sideColor] == side.faces
      ensures forall i :: 0 <= i < 6 && i != side.sideColor ==> sides[i] == old(sides[i])
      ensures Contents(sides) == old(Contents(sides))[side.sideColor := Some(side.faces[..])]
    {
      sides[side.sideColor] := side.faces;
    }

    /** `sides()`: six entries, empty where no side was added, else a new
        array with the slot's colours. Every array returned is new, so
        changing it leaves the session as it was. */
    method Sides() returns (copy: array<array?<int>>)
      requires Valid()
      ensures fresh(copy) && copy.Length == 6
      ensures forall i :: 0 <= i < 6 && copy[i] != null ==> fresh(copy[i])
      ensures Contents(copy) == Contents(sides)
    {
      copy := new array?<int>[6](i => null);
      for i := 0 to 6
        invariant fresh(copy)
        invariant forall j :: 0 <= j < 6 && copy[j] != null ==> fresh(copy[j])
        invariant forall j :: 0 <= j < i ==> (copy[j] == null <==> sides[j] == null)
        invariant forall j :: 0 <= j < i && copy[j] != null ==> copy[j][..] == sides[j][..]
        invariant forall j :: i <= j < 6 ==> copy[j] == null
      {
        var faces := sides[i];
        if faces != null {
          var facesCopy := CopyOf(faces);
          copy[i] := facesCopy;
        }
      }
    }
  }

  /** `System.arraycopy` of a whole array into a new one. */
  method CopyOf(faces: array<int>) returns (copy: array<int>)
    ensures fresh(copy) && copy[..] == faces[..]
  {
    copy := new int[faces.Length];
    for i := 0 to faces.Length
      invariant copy[..i] == faces[..i]
    {
      copy[i] := faces[i];
    }
  }
}
