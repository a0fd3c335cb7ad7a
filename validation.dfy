/** Validation of a state handed to the `faces` setter: 54 entries, every field
    present and in its domain, no colour more than nine times, no position twice.
    The first offending entry decides the error; on success the entries become the
    new facelets with the moving flag cleared. */
module Validation {
  import opened Wrappers
  import opened Facelets

  /** A facelet as the caller hands it in: each field may be missing. */
  datatype RawFace = RawFace(side: Option<string>, vPos: Option<string>, hPos: Option<string>, color: Option<string>)

  /** Why the setter refuses a state. */
  datatype FaceError =
    | WrongLength
    | MissingField
    | InvalidSide(sideName: string)
    | InvalidVPos(vPosName: string)
    | InvalidHPos(hPosName: string)
    | InvalidColor(colorName: string)
    | TooManyOf(color: Color)
    | DuplicateFace(position: Position)

  /** The domain lists: a value is accepted exactly when it is one of these names. */
  function SideName(s: Side): string {
    match s
    case U => "U" case D => "D" case R => "R" case L => "L" case F => "F" case B => "B"
  }

  function VPosName(v: VPos): string {
    match v
    case Top => "top" case Middle => "middle" case Bottom => "bottom"
  }

  function HPosName(h: HPos): string {
    match h
    case Left => "left" case Center => "center" case Right => "right"
  }

  function ColorName(c: Color): string {
    match c
    case White => "white" case Yellow => "yellow" case Red => "red"
    case Orange => "orange" case Green => "green" case Blue => "blue"
  }

  function ParseSide(s: string): Option<Side> {
    if s == "U" then Some(U) else if s == "D" then Some(D) else if s == "R" then Some(R)
    else if s == "L" then Some(L) else if s == "F" then Some(F) else if s == "B" then Some(B)
    else None
  }

  function ParseVPos(s: string): Option<VPos> {
    if s == "top" then Some(Top) else if s == "middle" then Some(Middle)
    else if s == "bottom" then Some(Bottom) else None
  }

  function ParseHPos(s: string): Option<HPos> {
    if s == "left" then Some(Left) else if s == "center" then Some(Center)
    else if s == "right" then Some(Right) else None
  }

  function ParseColor(s: string): Option<Color> {
    if s == "white" then Some(White) else if s == "yellow" then Some(Yellow)
    else if s == "red" then Some(Red) else if s == "orange" then Some(Orange)
    else if s == "green" then Some(Green) else if s == "blue" then Some(Blue)
    else None
  }

  /** Names and values correspond one to one. */
  lemma ParseSideName(s: Side, t: string)
    ensures ParseSide(SideName(s)) == Some(s)
    ensures ParseSide(t) == Some(s) ==> t == SideName(s)
  {
  }

  lemma ParseVPosName(v: VPos, t: string)
    ensures ParseVPos(VPosName(v)) == Some(v)
    ensures ParseVPos(t) == Some(v) ==> t == VPosName(v)
  {
  }

  lemma ParseHPosName(h: HPos, t: string)
    ensures ParseHPos(HPosName(h)) == Some(h)
    ensures ParseHPos(t) == Some(h) ==> t == HPosName(h)
  {
  }

  lemma ParseColorName(c: Color, t: string)
    ensures ParseColor(ColorName(c)) == Some(c)
    ensures ParseColor(t) == Some(c) ==> t == ColorName(c)
  {
  }

  /** A field the setter accepts as present: given and not the empty string. */
  predicate Present(field: Option<string>) {
    field.Some? && field.value != ""
  }

  /** Every field present and in its domain. */
  predicate WellFormed(f: RawFace) {
    Present(f.side) && Present(f.vPos) && Present(f.hPos) && Present(f.color) &&
    ParseSide(f.side.value).Some? && ParseVPos(f.vPos.value).Some? &&
    ParseHPos(f.hPos.value).Some? && ParseColor(f.color.value).Some?
  }

  /** The facelet a well-formed entry stands for, not moving. */
  function Parsed(f: RawFace): (g: Facelet)
    requires WellFormed(f)
    ensures !g.moving
  {
    Facelet(ParseSide(f.side.value).value, ParseVPos(f.vPos.value).value,
            ParseHPos(f.hPos.value).value, ParseColor(f.color.value).value, false)
  }

  function ParseAll(input: seq<RawFace>): (faces: seq<Facelet>)
    requires forall i :: 0 <= i < |input| ==> WellFormed(input[i])
    ensures |faces| == |input|
  {
    seq(|input|, i requires 0 <= i < |input| => Parsed(input[i]))
  }

  predicate AllWellFormed(input: seq<RawFace>) {
    forall i :: 0 <= i < |input| ==> WellFormed(input[i])
  }

  /** No two facelets at the same position. */
  ghost predicate DistinctPositions(faces: seq<Facelet>) {
    forall i, j :: 0 <= i < j < |faces| ==> faces[i].Pos() != faces[j].Pos()
  }

  /** The positions the facelets occupy. */
  function PositionsOf(faces: seq<Facelet>): (r: set<Position>)
    ensures forall p :: p in r <==> exists i :: 0 <= i < |faces| && faces[i].Pos() == p
  {
    if |faces| == 0 then {}
    else PositionsOf(faces[..|faces| - 1]) + {faces[|faces| - 1].Pos()}
  }

  /** No colour occurs more than nine times. */
  ghost predicate AtMostNineEach(faces: seq<Facelet>) {
    forall c :: ColorCount(faces, c) <= 9
  }

  /** What the setter accepts, stated outright. */
  ghost predicate Acceptable(input: seq<RawFace>) {
    |input| == 54 && AllWellFormed(input) && DistinctPositions(ParseAll(input)) &&
    AtMostNineEach(ParseAll(input))
  }

  /** The setter's working state after some entries: the facelets built so far, the
      count of each colour by its index in the colour list, and the positions seen. */
  datatype Tally = Tally(faces: seq<Facelet>, colorCheck: seq<nat>, check: set<Position>)

  const EmptyTally := Tally([], [0, 0, 0, 0, 0, 0], {})

  /** One entry, checked in the source's order: fields, side, vPos, hPos, colour,
      colour count, duplicate position. */
  function CheckFace(acc: Tally, f: RawFace): (r: Result<Tally, FaceError>)
    requires |acc.colorCheck| == 6
    ensures r.Ok? ==> |r.value.colorCheck| == 6
    ensures r.Ok? <==> WellFormed(f) && acc.colorCheck[ColorIndex(Parsed(f).color)] < 9 &&
                       Parsed(f).Pos() !in acc.check
  {
    if !Present(f.side) || !Present(f.vPos) || !Present(f.hPos) || !Present(f.color) then Err(MissingField)
    else if ParseSide(f.side.value).None? then Err(InvalidSide(f.side.value))
    else if ParseVPos(f.vPos.value).None? then Err(InvalidVPos(f.vPos.value))
    else if ParseHPos(f.hPos.value).None? then Err(InvalidHPos(f.hPos.value))
    else if ParseColor(f.color.value).None? then Err(InvalidColor(f.color.value))
    else
      var g := Parsed(f);
      var ci := ColorIndex(g.color);
      if acc.colorCheck[ci] >= 9 then Err(TooManyOf(g.color))
      else if g.Pos() in acc.check then Err(DuplicateFace(g.Pos()))
      else Ok(Tally(acc.faces + [g], acc.colorCheck[ci := acc.colorCheck[ci] + 1], acc.check + {g.Pos()}))
  }

  /** The entries in order; the first error stops the run. */
  function Run(input: seq<RawFace>): (r: Result<Tally, FaceError>)
    ensures r.Ok? ==> |r.value.colorCheck| == 6
  {
    if |input| == 0 then Ok(EmptyTally)
    else match Run(input[..|input| - 1])
      case Err(e) => Err(e)
      case Ok(acc) => CheckFace(acc, input[|input| - 1])
  }

  /** The setter's verdict: the new facelets, or the error it throws. */
  function Validate(input: seq<RawFace>): Result<seq<Facelet>, FaceError> {
    if |input| != 54 then Err(WrongLength)
    else match Run(input)
      case Err(e) => Err(e)
      case Ok(acc) => Ok(acc.faces)
  }

  /** The conditions a prefix of the input must meet for the run to get through it. */
  ghost predicate PassesChecks(input: seq<RawFace>) {
    AllWellFormed(input) && DistinctPositions(ParseAll(input)) &&
    AtMostNineEach(ParseAll(input))
  }

  lemma WellFormedSplit(input: seq<RawFace>)
    requires |input| > 0
    ensures AllWellFormed(input) <==> AllWellFormed(input[..|input| - 1]) && WellFormed(input[|input| - 1])
    ensures AllWellFormed(input) ==>
      ParseAll(input) == ParseAll(input[..|input| - 1]) + [Parsed(input[|input| - 1])]
  {
    var n := |input| - 1;
    if AllWellFormed(input[..n]) && WellFormed(input[n]) {
      forall i | 0 <= i < |input|
        ensures WellFormed(input[i])
      {
        if i < n {
          assert input[i] == input[..n][i];
        }
      }
    }
  }

  lemma DistinctSplit(faces: seq<Facelet>, g: Facelet)
    ensures DistinctPositions(faces + [g]) <==> DistinctPositions(faces) && g.Pos() !in PositionsOf(faces)
  {
    var s := faces + [g];
    if DistinctPositions(s) {
      assert forall i, j :: 0 <= i < j < |faces| ==> faces[i] == s[i] && faces[j] == s[j];
      assert forall i :: 0 <= i < |faces| ==> faces[i] == s[i] && g == s[|faces|];
    }
  }

  lemma CountSplit(faces: seq<Facelet>, g: Facelet, c: Color)
    ensures ColorCount(faces + [g], c) == ColorCount(faces, c) + (if g.color == c then 1 else 0)
  {
    assert (faces + [g])[..|faces|] == faces;
  }

  /** No colour beyond nine after one more facelet exactly when none was before and the
      new facelet's colour was below nine. */
  lemma CountsSplit(faces: seq<Facelet>, g: Facelet)
    ensures AtMostNineEach(faces + [g]) <==> AtMostNineEach(faces) && ColorCount(faces, g.color) < 9
  {
    forall c
      ensures ColorCount(faces + [g], c) == ColorCount(faces, c) + (if g.color == c then 1 else 0)
    {
      CountSplit(faces, g, c);
    }
    if AtMostNineEach(faces + [g]) {
      assert ColorCount(faces + [g], g.color) <= 9;
    } else {
      var c :| ColorCount(faces + [g], c) > 9;
      assert ColorCount(faces, c) > 9 || ColorCount(faces, g.color) >= 9;
    }
  }

  /** The checks pass on a longer input exactly when they pass on the prefix and the
      last entry is well formed, of a colour seen fewer than nine times so far and at
      a position not seen so far. */
  lemma ChecksSplit(input: seq<RawFace>)
    requires |input| > 0
    ensures PassesChecks(input) <==>
      PassesChecks(input[..|input| - 1]) && WellFormed(input[|input| - 1]) &&
      ColorCount(ParseAll(input[..|input| - 1]), Parsed(input[|input| - 1]).color) < 9 &&
      Parsed(input[|input| - 1]).Pos() !in PositionsOf(ParseAll(input[..|input| - 1]))
  {
    var n := |input| - 1;
    WellFormedSplit(input);
    if AllWellFormed(input) {
      var faces := ParseAll(input[..n]);
      var g := Parsed(input[n]);
      assert ParseAll(input) == faces + [g];
      DistinctSplit(faces, g);
      CountsSplit(faces, g);
    }
  }

  /** A tally that records `faces` exactly. */
  ghost predicate Records(acc: Tally, faces: seq<Facelet>) {
    |acc.colorCheck| == 6 && acc.faces == faces &&
    (forall c :: acc.colorCheck[ColorIndex(c)] == ColorCount(faces, c)) &&
    acc.check == PositionsOf(faces)
  }

  /** One entry passes exactly when it is well formed, of a colour seen fewer than
      nine times so far and at a new position; the tally then records it too. */
  lemma CheckFaceMeaning(acc: Tally, faces: seq<Facelet>, f: RawFace)
    requires Records(acc, faces)
    ensures CheckFace(acc, f).Ok? <==>
      WellFormed(f) && ColorCount(faces, Parsed(f).color) < 9 && Parsed(f).Pos() !in PositionsOf(faces)
    ensures CheckFace(acc, f).Ok? ==> Records(CheckFace(acc, f).value, faces + [Parsed(f)])
  {
    if CheckFace(acc, f).Ok? {
      var g := Parsed(f);
      assert (faces + [g])[..|faces|] == faces;
      forall c
        ensures CheckFace(acc, f).value.colorCheck[ColorIndex(c)] == ColorCount(faces + [g], c)
      {
        CountSplit(faces, g, c);
      }
    }
  }

  /** The run gets through the input exactly when every entry is well formed, no
      position repeats and no colour occurs more than nine times; its tally then
      records the parsed facelets. */
  lemma {:induction false} RunMeaning(input: seq<RawFace>)
    ensures Run(input).Ok? <==> PassesChecks(input)
    ensures Run(input).Ok? ==> Records(Run(input).value, ParseAll(input))
  {
    if |input| == 0 {
      assert Records(EmptyTally, []);
    } else {
      var n := |input| - 1;
      RunMeaning(input[..n]);
      ChecksSplit(input);
      WellFormedSplit(input);
      if Run(input[..n]).Ok? {
        CheckFaceMeaning(Run(input[..n]).value, ParseAll(input[..n]), input[n]);
      }
    }
  }

  /** The setter accepts exactly the acceptable inputs; what it then installs is the
      input's facelets, not moving, covering every position once, nine of each colour. */
  lemma ValidateMeaning(input: seq<RawFace>)
    ensures Validate(input).Ok? <==> Acceptable(input)
    ensures |input| != 54 ==> Validate(input) == Err(WrongLength)
    ensures Validate(input).Ok? ==>
      Validate(input).value == ParseAll(input) &&
      IsCover(Validate(input).value) &&
      (forall i :: 0 <= i < 54 ==> !Validate(input).value[i].moving) &&
      (forall c :: ColorCount(Validate(input).value, c) == 9)
  {
    RunMeaning(input);
    if Validate(input).Ok? {
      NineOfEach(ParseAll(input));
    }
  }

  /** A state as the getter hands it out: every field given by its name. */
  function Export(faces: seq<Facelet>): (input: seq<RawFace>)
    ensures |input| == |faces|
  {
    seq(|faces|, i requires 0 <= i < |faces| =>
      RawFace(Some(SideName(faces[i].side)), Some(VPosName(faces[i].vPos)),
              Some(HPosName(faces[i].hPos)), Some(ColorName(faces[i].color))))
  }

  /** The facelets with the moving flag cleared. */
  function Settled(faces: seq<Facelet>): (r: seq<Facelet>)
    ensures |r| == |faces|
  {
    seq(|faces|, i requires 0 <= i < |faces| => faces[i].(moving := false))
  }

  /** Handing the getter's copy of a valid state back to the setter installs the same
      state, with no facelet flagged as moving. */
  lemma ExportRoundTrip(faces: seq<Facelet>)
    requires IsCover(faces)
    requires forall c :: ColorCount(faces, c) == 9
    ensures Validate(Export(faces)) == Ok(Settled(faces))
  {
    var input := Export(faces);
    forall i | 0 <= i < |input|
      ensures WellFormed(input[i]) && Parsed(input[i]) == faces[i].(moving := false)
    {
      var f := faces[i];
      ParseSideName(f.side, SideName(f.side));
      ParseVPosName(f.vPos, VPosName(f.vPos));
      ParseHPosName(f.hPos, HPosName(f.hPos));
      ParseColorName(f.color, ColorName(f.color));
    }
    assert ParseAll(input) == Settled(faces);
    forall c
      ensures ColorCount(ParseAll(input), c) <= 9
    {
      SameColorsSameCounts(ParseAll(input), faces, c);
    }
    ValidateMeaning(input);
  }

  /** The first error ends the run: later entries are never looked at. */
  lemma {:induction false} FirstErrorStands(input: seq<RawFace>, k: nat)
    requires k <= |input| && Run(input[..k]).Err?
    ensures Run(input) == Run(input[..k])
    decreases |input| - k
  {
    if k < |input| {
      assert input[..k + 1][..k] == input[..k];
      FirstErrorStands(input, k + 1);
    } else {
      assert input[..k] == input;
    }
  }

  /** Once the entries before `k` pass, an entry `k` that fails decides the error the
      setter throws. */
  lemma ErrorAtEntry(input: seq<RawFace>, k: nat)
    requires |input| == 54 && k < 54 && Run(input[..k]).Ok?
    requires CheckFace(Run(input[..k]).value, input[k]).Err?
    ensures Validate(input) == Err(CheckFace(Run(input[..k]).value, input[k]).error)
  {
    assert input[..k + 1][..k] == input[..k];
    FirstErrorStands(input, k + 1);
  }

  /** A first entry with a missing field or a value outside its domain: the setter
      throws for the first field that fails, in the order side, vPos, hPos, colour. */
  lemma MalformedEntryError(input: seq<RawFace>, k: nat)
    requires |input| == 54 && k < 54 && PassesChecks(input[..k])
    ensures var f := input[k];
      !Present(f.side) || !Present(f.vPos) || !Present(f.hPos) || !Present(f.color) ==>
        Validate(input) == Err(MissingField)
    ensures var f := input[k];
      Present(f.side) && Present(f.vPos) && Present(f.hPos) && Present(f.color) &&
      ParseSide(f.side.value).None? ==>
        Validate(input) == Err(InvalidSide(f.side.value))
    ensures var f := input[k];
      Present(f.side) && Present(f.vPos) && Present(f.hPos) && Present(f.color) &&
      ParseSide(f.side.value).Some? && ParseVPos(f.vPos.value).None? ==>
        Validate(input) == Err(InvalidVPos(f.vPos.value))
    ensures var f := input[k];
      Present(f.side) && Present(f.vPos) && Present(f.hPos) && Present(f.color) &&
      ParseSide(f.side.value).Some? && ParseVPos(f.vPos.value).Some? && ParseHPos(f.hPos.value).None? ==>
        Validate(input) == Err(InvalidHPos(f.hPos.value))
    ensures var f := input[k];
      Present(f.side) && Present(f.vPos) && Present(f.hPos) && Present(f.color) &&
      ParseSide(f.side.value).Some? && ParseVPos(f.vPos.value).Some? && ParseHPos(f.hPos.value).Some? &&
      ParseColor(f.color.value).None? ==>
        Validate(input) == Err(InvalidColor(f.color.value))
  {
    RunMeaning(input[..k]);
    if !WellFormed(input[k]) {
      ErrorAtEntry(input, k);
    }
  }

  /** A first well-formed entry that the setter refuses: a colour already seen nine
      times raises the over-use error, and otherwise a position already taken raises
      the duplicate error. */
  lemma RejectedEntryError(input: seq<RawFace>, k: nat)
    requires |input| == 54 && k < 54 && PassesChecks(input[..k]) && WellFormed(input[k])
    ensures ColorCount(ParseAll(input[..k]), Parsed(input[k]).color) >= 9 ==>
      Validate(input) == Err(TooManyOf(Parsed(input[k]).color))
    ensures (ColorCount(ParseAll(input[..k]), Parsed(input[k]).color) < 9 &&
             Parsed(input[k]).Pos() in PositionsOf(ParseAll(input[..k]))) ==>
      Validate(input) == Err(DuplicateFace(Parsed(input[k]).Pos()))
  {
    RunMeaning(input[..k]);
    var acc := Run(input[..k]).value;
    CheckFaceMeaning(acc, ParseAll(input[..k]), input[k]);
    if CheckFace(acc, input[k]).Err? {
      assert acc.colorCheck[ColorIndex(Parsed(input[k]).color)] == ColorCount(ParseAll(input[..k]), Parsed(input[k]).color);
      ErrorAtEntry(input, k);
    }
  }

  /** The setter's loop as the source runs it: a running count per colour index, a
      record of the positions seen, the facelets built so far, and an early exit at
      the first offending entry. */
  method ValidateFaces(input: seq<RawFace>) returns (r: Result<seq<Facelet>, FaceError>)
    ensures r == Validate(input)
  {
    if |input| != 54 {
      return Err(WrongLength);
    }
    var faces: seq<Facelet> := [];
    var check: set<Position> := {};
    var colorCheck := new nat[6](_ => 0);
    assert colorCheck[..] == EmptyTally.colorCheck;
    for i := 0 to |input|
      invariant Run(input[..i]) == Ok(Tally(faces, colorCheck[..], check))
    {
      assert input[..i + 1][..i] == input[..i];
      ghost var step := CheckFace(Tally(faces, colorCheck[..], check), input[i]);
      assert Run(input[..i + 1]) == step;
      var outcome := CheckEntry(input[i], faces, colorCheck, check);
      if outcome.Err? {
        FirstErrorStands(input, i + 1);
        return Err(outcome.error);
      }
      check := check + {outcome.value.Pos()};
      faces := faces + [outcome.value];
    }
    assert input[..|input|] == input;
    return Ok(faces);
  }

  /** One pass of the setter's loop body over `face`: the checks in the source's order,
      the count of the entry's colour raised before the duplicate check. */
  method CheckEntry(face: RawFace, ghost faces: seq<Facelet>, colorCheck: array<nat>, check: set<Position>)
    returns (outcome: Result<Facelet, FaceError>)
    requires colorCheck.Length == 6
    modifies colorCheck
    ensures CheckFace(Tally(faces, old(colorCheck[..]), check), face) ==
      match outcome
      case Err(e) => Err(e)
      case Ok(g) => Ok(Tally(faces + [g], colorCheck[..], check + {g.Pos()}))
  {
    if !Present(face.side) || !Present(face.vPos) || !Present(face.hPos) || !Present(face.color) {
      return Err(MissingField);
    }
    if ParseSide(face.side.value).None? {
      return Err(InvalidSide(face.side.value));
    }
    if ParseVPos(face.vPos.value).None? {
      return Err(InvalidVPos(face.vPos.value));
    }
    if ParseHPos(face.hPos.value).None? {
      return Err(InvalidHPos(face.hPos.value));
    }
    var color := ParseColor(face.color.value);
    if color.None? {
      return Err(InvalidColor(face.color.value));
    }
    var colorIndex := ColorIndex(color.value);
    if colorCheck[colorIndex] >= 9 {
      return Err(TooManyOf(color.value));
    }
    colorCheck[colorIndex] := colorCheck[colorIndex] + 1;
    var p := Position(ParseSide(face.side.value).value, ParseVPos(face.vPos.value).value,
                      ParseHPos(face.hPos.value).value);
    if p in check {
      return Err(DuplicateFace(p));
    }
    return Ok(Facelet(p.side, p.vPos, p.hPos, color.value, false));
  }
}
