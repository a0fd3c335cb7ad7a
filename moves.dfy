/** What a token does to the facelets. Every step list a token expands to turns some
    layers of one axis by some number of quarter turns, so tokens repeat, cancel and
    keep the cube a cube just as turns of a physical cube do. */
module Moves {
  import opened Wrappers
  import opened Facelets
  import opened Geometry
  import opened Notation
  import opened Expansion
  import opened Applier
  import opened TableTurns

  lemma AllPrimitivePrefix(steps: seq<char>, n: nat)
    requires AllPrimitive(steps) && n <= |steps|
    ensures AllPrimitive(steps[..n])
  {
    forall i | 0 <= i < n
      ensures IsPrimitive(steps[..n][i])
    {
      assert steps[..n][i] == steps[i];
    }
  }

  lemma AllPrimitiveConcat(s1: seq<char>, s2: seq<char>)
    requires AllPrimitive(s1) && AllPrimitive(s2)
    ensures AllPrimitive(s1 + s2)
  {
    var s := s1 + s2;
    forall i | 0 <= i < |s|
      ensures IsPrimitive(s[i])
    {
      if i < |s1| {
        assert s[i] == s1[i];
      } else {
        assert s[i] == s2[i - |s1|];
      }
    }
  }

  /** Applying `s1 + s2` is applying `s1`, then `s2`. */
  lemma {:induction false} PositionAfterConcat(s1: seq<char>, s2: seq<char>, q: Position)
    requires AllPrimitive(s1) && AllPrimitive(s2)
    ensures AllPrimitive(s1 + s2)
    ensures PositionAfter(s1 + s2, q) == PositionAfter(s2, PositionAfter(s1, q))
  {
    AllPrimitiveConcat(s1, s2);
    var s := s1 + s2;
    if |s2| == 0 {
      assert s == s1;
    } else {
      var n := |s2| - 1;
      var front := s2[..n];
      AllPrimitivePrefix(s2, n);
      PositionAfterConcat(s1, front, q);
      assert s[..|s| - 1] == s1 + front;
      assert s[|s| - 1] == s2[n];
      assert s2[..|s2| - 1] == front;
    }
  }

  /** A facelet no step touches stays where it is. */
  lemma {:induction false} UntouchedStays(steps: seq<char>, q: Position)
    requires AllPrimitive(steps)
    requires !TouchedAlong(steps, q)
    ensures PositionAfter(steps, q) == q
  {
    if |steps| > 0 {
      var n := |steps| - 1;
      AllPrimitivePrefix(steps, n);
      UntouchedStays(steps[..n], q);
      ScanUntouched(RulesOf(steps[n]), q);
    }
  }

  /** Distinct facelets never land on the same position: every step list is one-to-one. */
  lemma {:induction false} PositionAfterInjective(steps: seq<char>, p: Position, q: Position)
    requires AllPrimitive(steps)
    requires PositionAfter(steps, p) == PositionAfter(steps, q)
    ensures p == q
  {
    if |steps| > 0 {
      var n := |steps| - 1;
      var c := steps[n];
      AllPrimitivePrefix(steps, n);
      var p' := PositionAfter(steps[..n], p);
      var q' := PositionAfter(steps[..n], q);
      PrimitiveIsQuarterTurn(c);
      var t := QuarterOf(c);
      assert QuarterMove(t, p') == QuarterMove(t, q');
      TurnInjective(t.axis, {t.layer}, t.quarters, p', q');
      PositionAfterInjective(steps[..n], p, q);
    }
  }

  /** Applying primitive steps to a cover yields a cover. */
  lemma ApplyKeepsCover(faces: seq<Facelet>, steps: seq<char>)
    requires AllPrimitive(steps)
    requires IsCover(faces)
    ensures IsCover(Apply(faces, steps))
  {
    var r := Apply(faces, steps);
    forall i, j | 0 <= i < j < |r|
      ensures r[i].Pos() != r[j].Pos()
    {
      if r[i].Pos() == r[j].Pos() {
        PositionAfterInjective(steps, faces[i].Pos(), faces[j].Pos());
      }
    }
  }

  /** A move never recolours: every colour occurs as often after it as before. */
  lemma ApplyKeepsColorCounts(faces: seq<Facelet>, steps: seq<char>, c: Color)
    requires AllPrimitive(steps)
    ensures ColorCount(Apply(faces, steps), c) == ColorCount(faces, c)
  {
    SameColorsSameCounts(Apply(faces, steps), faces, c);
  }

  /** The pre-move copy keeps every facelet in place, so it is a cover when the state was. */
  lemma StagedKeepsCover(faces: seq<Facelet>, steps: seq<char>)
    requires AllPrimitive(steps)
    requires IsCover(faces)
    ensures IsCover(Staged(faces, steps))
  {
    var r := Staged(faces, steps);
    assert forall i :: 0 <= i < |r| ==> r[i].Pos() == faces[i].Pos();
  }

  /** Flagging facelets as moving never recolours them either. */
  lemma StagedKeepsColorCounts(faces: seq<Facelet>, steps: seq<char>, c: Color)
    requires AllPrimitive(steps)
    ensures ColorCount(Staged(faces, steps), c) == ColorCount(faces, c)
  {
    SameColorsSameCounts(Staged(faces, steps), faces, c);
  }

  /** The quarter turns the steps name, in order. */
  function QuartersOf(steps: seq<char>): (r: seq<Quarter>)
    requires AllPrimitive(steps)
    ensures |r| == |steps|
  {
    seq(|steps|, i requires 0 <= i < |steps| => QuarterOf(steps[i]))
  }

  /** Where the quarter turns `qs`, applied in order, send a facelet at `q`. */
  function TurnAll(qs: seq<Quarter>, q: Position): Position {
    if |qs| == 0 then q
    else QuarterMove(qs[|qs| - 1], TurnAll(qs[..|qs| - 1], q))
  }

  /** Some quarter turn of `qs` turns the layer the facelet starting at `q` is in
      when that turn begins. */
  predicate TurnsAlong(qs: seq<Quarter>, q: Position) {
    |qs| > 0 &&
    (TurnsAlong(qs[..|qs| - 1], q) ||
     LayerOf(qs[|qs| - 1].axis, TurnAll(qs[..|qs| - 1], q)) == qs[|qs| - 1].layer)
  }

  /** Applying steps is applying the quarter turns they name: the tables and the
      geometry agree step by step. */
  lemma {:induction false} StepsAsQuarters(steps: seq<char>, q: Position)
    requires AllPrimitive(steps)
    ensures PositionAfter(steps, q) == TurnAll(QuartersOf(steps), q)
  {
    if |steps| > 0 {
      var n := |steps| - 1;
      var c := steps[n];
      AllPrimitivePrefix(steps, n);
      StepsAsQuarters(steps[..n], q);
      assert QuartersOf(steps)[..n] == QuartersOf(steps[..n]);
      PrimitiveIsQuarterTurn(c);
      var mid := PositionAfter(steps[..n], q);
      assert Scan(RulesOf(c), mid) == QuarterMove(QuarterOf(c), mid);
    }
  }

  /** And a step touches a facelet exactly when its quarter turn turns the facelet's layer. */
  lemma {:induction false} StepsTouchAsQuarters(steps: seq<char>, q: Position)
    requires AllPrimitive(steps)
    ensures TouchedAlong(steps, q) <==> TurnsAlong(QuartersOf(steps), q)
  {
    if |steps| > 0 {
      var n := |steps| - 1;
      var c := steps[n];
      AllPrimitivePrefix(steps, n);
      StepsTouchAsQuarters(steps[..n], q);
      StepsAsQuarters(steps[..n], q);
      assert QuartersOf(steps)[..n] == QuartersOf(steps[..n]);
      PrimitiveIsQuarterTurn(c);
      var mid := PositionAfter(steps[..n], q);
      assert Touches(RulesOf(c), mid) <==> LayerOf(QuarterOf(c).axis, mid) == QuarterOf(c).layer;
    }
  }

  lemma QuartersOfConcat(s1: seq<char>, s2: seq<char>)
    requires AllPrimitive(s1) && AllPrimitive(s2)
    ensures AllPrimitive(s1 + s2)
    ensures QuartersOf(s1 + s2) == QuartersOf(s1) + QuartersOf(s2)
  {
    var s := s1 + s2;
    forall i | 0 <= i < |s|
      ensures IsPrimitive(s[i])
    {
      if i < |s1| {
        assert s[i] == s1[i];
      } else {
        assert s[i] == s2[i - |s1|];
      }
    }
  }

  lemma {:induction false} QuartersOfRepeat(block: seq<char>, n: nat)
    requires AllPrimitive(block)
    ensures AllPrimitive(Repeat(block, n))
    ensures QuartersOf(Repeat(block, n)) == Repeat(QuartersOf(block), n)
  {
    if n > 0 {
      QuartersOfRepeat(block, n - 1);
      QuartersOfConcat(Repeat(block, n - 1), block);
    } else {
      assert Repeat(block, 0) == [];
    }
  }

  /** Every quarter turn is about axis `a`. */
  predicate OnAxis(qs: seq<Quarter>, a: Axis) {
    forall i :: 0 <= i < |qs| ==> qs[i].axis == a
  }

  /** The quarter turns layer `l` gets in total. */
  function QuartersOn(qs: seq<Quarter>, l: Coord): nat {
    if |qs| == 0 then 0
    else QuartersOn(qs[..|qs| - 1], l) + (if qs[|qs| - 1].layer == l then qs[|qs| - 1].quarters else 0)
  }

  /** The layers some quarter turn turns. */
  function LayersOf(qs: seq<Quarter>): set<Coord> {
    if |qs| == 0 then {} else LayersOf(qs[..|qs| - 1]) + {qs[|qs| - 1].layer}
  }

  /** Quarter turns about one axis turn each facelet's layer by the quarter turns that
      layer gets in total, and turn a facelet exactly when they turn its layer. */
  lemma {:induction false} AxisTurn(qs: seq<Quarter>, a: Axis, q: Position)
    requires OnAxis(qs, a)
    ensures TurnAll(qs, q) == Turn(a, {LayerOf(a, q)}, QuartersOn(qs, LayerOf(a, q)), q)
    ensures TurnsAlong(qs, q) <==> LayerOf(a, q) in LayersOf(qs)
  {
    var l := LayerOf(a, q);
    if |qs| == 0 {
      FromToSticker(q);
    } else {
      var n := |qs| - 1;
      var t := qs[n];
      assert OnAxis(qs[..n], a) by {
        forall i | 0 <= i < n
          ensures qs[..n][i].axis == a
        {
          assert qs[..n][i] == qs[i];
        }
      }
      AxisTurn(qs[..n], a, q);
      var N := QuartersOn(qs[..n], l);
      TurnKeepsLayer(a, {l}, N, q);
      if t.layer == l {
        TurnAdd(a, {l}, t.quarters, N, q);
      }
    }
  }

  lemma {:induction false} ConcatOnAxis(qs1: seq<Quarter>, qs2: seq<Quarter>, a: Axis, l: Coord)
    requires OnAxis(qs1, a) && OnAxis(qs2, a)
    ensures OnAxis(qs1 + qs2, a)
    ensures QuartersOn(qs1 + qs2, l) == QuartersOn(qs1, l) + QuartersOn(qs2, l)
    ensures LayersOf(qs1 + qs2) == LayersOf(qs1) + LayersOf(qs2)
  {
    var qs := qs1 + qs2;
    forall i | 0 <= i < |qs|
      ensures qs[i].axis == a
    {
      if i < |qs1| {
        assert qs[i] == qs1[i];
      } else {
        assert qs[i] == qs2[i - |qs1|];
      }
    }
    if |qs2| == 0 {
      assert qs == qs1;
    } else {
      var n := |qs2| - 1;
      assert qs[..|qs| - 1] == qs1 + qs2[..n];
      assert OnAxis(qs2[..n], a) by {
        forall i | 0 <= i < n
          ensures qs2[..n][i].axis == a
        {
          assert qs2[..n][i] == qs2[i];
        }
      }
      ConcatOnAxis(qs1, qs2[..n], a, l);
    }
  }

  /** Repeating quarter turns about one axis multiplies the quarter turns of every layer. */
  lemma {:induction false} RepeatOnAxis(qs: seq<Quarter>, n: nat, a: Axis, l: Coord)
    requires OnAxis(qs, a)
    ensures OnAxis(Repeat(qs, n), a)
    ensures QuartersOn(Repeat(qs, n), l) == n * QuartersOn(qs, l)
    ensures n > 0 ==> LayersOf(Repeat(qs, n)) == LayersOf(qs)
  {
    if n > 0 {
      RepeatOnAxis(qs, n - 1, a, l);
      ConcatOnAxis(Repeat(qs, n - 1), qs, a, l);
      if n == 1 {
        assert Repeat(qs, 0) == [];
      }
      assert n * QuartersOn(qs, l) == (n - 1) * QuartersOn(qs, l) + QuartersOn(qs, l);
    }
  }

  /** One more quarter turn adds its quarter turns to its layer. */
  lemma PrefixStep(qs: seq<Quarter>, k: nat)
    requires 0 < k <= |qs|
    ensures forall l :: (QuartersOn(qs[..k], l) == QuartersOn(qs[..k - 1], l) +
                         (if qs[k - 1].layer == l then qs[k - 1].quarters else 0))
    ensures LayersOf(qs[..k]) == LayersOf(qs[..k - 1]) + {qs[k - 1].layer}
  {
    assert qs[..k][..k - 1] == qs[..k - 1];
  }

  /** The layers a move name turns, about which axis, and by how many quarter turns
      clockwise as seen from the positive end of the axis. */
  datatype Motion = Motion(axis: Axis, layers: set<Coord>, quarters: nat)

  const AllLayers: set<Coord> := {Neg, Zero, Pos}

  /** The motion of each move name: a face or slice turn, two adjacent layers for the
      lower-case face moves, the whole cube for x, y and z. */
  function MotionOf(c: char): Motion
    requires c in PrimitiveNames || c in CompositeNames
  {
    match c
    case 'U' => Motion(YAxis, {Pos}, 1)
    case 'D' => Motion(YAxis, {Neg}, 3)
    case 'E' => Motion(YAxis, {Zero}, 3)
    case 'R' => Motion(XAxis, {Pos}, 1)
    case 'L' => Motion(XAxis, {Neg}, 3)
    case 'M' => Motion(XAxis, {Zero}, 3)
    case 'F' => Motion(ZAxis, {Pos}, 1)
    case 'B' => Motion(ZAxis, {Neg}, 3)
    case 'S' => Motion(ZAxis, {Zero}, 1)
    case 'u' => Motion(YAxis, {Pos, Zero}, 1)
    case 'd' => Motion(YAxis, {Neg, Zero}, 3)
    case 'r' => Motion(XAxis, {Pos, Zero}, 1)
    case 'l' => Motion(XAxis, {Neg, Zero}, 3)
    case 'f' => Motion(ZAxis, {Pos, Zero}, 1)
    case 'b' => Motion(ZAxis, {Neg, Zero}, 3)
    case 'x' => Motion(XAxis, AllLayers, 1)
    case 'y' => Motion(YAxis, AllLayers, 1)
    case 'z' => Motion(ZAxis, AllLayers, 1)
  }

  /** A quarter turn's motion is its table's quarter turn. */
  lemma PrimitiveMotion(c: char)
    requires IsPrimitive(c)
    ensures c in PrimitiveNames
    ensures MotionOf(c) == Motion(QuarterOf(c).axis, {QuarterOf(c).layer}, QuarterOf(c).quarters)
  {
    MoveTableKeys(c);
  }

  /** The steps of u, "UEEE", are quarter turns about the y axis. */
  lemma LowerUSteps()
    ensures AllPrimitive("UEEE")
    ensures OnAxis(QuartersOf("UEEE"), YAxis)
    ensures LayersOf(QuartersOf("UEEE")) == {Zero, Pos}
    ensures QuartersOn(QuartersOf("UEEE"), Neg) == 0
    ensures QuartersOn(QuartersOf("UEEE"), Zero) == 9
    ensures QuartersOn(QuartersOf("UEEE"), Pos) == 1
  {
    assert AllPrimitive("UEEE");
    var qs := QuartersOf("UEEE");
    assert qs == [Quarter(YAxis, Pos, 1), Quarter(YAxis, Zero, 3), Quarter(YAxis, Zero, 3), Quarter(YAxis, Zero, 3)];
    assert qs[..0] == [];
    PrefixStep(qs, 1);
    PrefixStep(qs, 2);
    PrefixStep(qs, 3);
    PrefixStep(qs, 4);
    assert qs[..4] == qs;
  }

  /** The steps of d, "DE", are quarter turns about the y axis. */
  lemma LowerDSteps()
    ensures AllPrimitive("DE")
    ensures OnAxis(QuartersOf("DE"), YAxis)
    ensures LayersOf(QuartersOf("DE")) == {Neg, Zero}
    ensures QuartersOn(QuartersOf("DE"), Neg) == 3
    ensures QuartersOn(QuartersOf("DE"), Zero) == 3
    ensures QuartersOn(QuartersOf("DE"), Pos) == 0
  {
    assert AllPrimitive("DE");
    var qs := QuartersOf("DE");
    assert qs == [Quarter(YAxis, Neg, 3), Quarter(YAxis, Zero, 3)];
    assert qs[..0] == [];
    PrefixStep(qs, 1);
    PrefixStep(qs, 2);
    assert qs[..2] == qs;
  }

  /** The steps of r, "RMMM", are quarter turns about the x axis. */
  lemma LowerRSteps()
    ensures AllPrimitive("RMMM")
    ensures OnAxis(QuartersOf("RMMM"), XAxis)
    ensures LayersOf(QuartersOf("RMMM")) == {Zero, Pos}
    ensures QuartersOn(QuartersOf("RMMM"), Neg) == 0
    ensures QuartersOn(QuartersOf("RMMM"), Zero) == 9
    ensures QuartersOn(QuartersOf("RMMM"), Pos) == 1
  {
    assert AllPrimitive("RMMM");
    var qs := QuartersOf("RMMM");
    assert qs == [Quarter(XAxis, Pos, 1), Quarter(XAxis, Zero, 3), Quarter(XAxis, Zero, 3), Quarter(XAxis, Zero, 3)];
    assert qs[..0] == [];
    PrefixStep(qs, 1);
    PrefixStep(qs, 2);
    PrefixStep(qs, 3);
    PrefixStep(qs, 4);
    assert qs[..4] == qs;
  }

  /** The steps of l, "LM", are quarter turns about the x axis. */
  lemma LowerLSteps()
    ensures AllPrimitive("LM")
    ensures OnAxis(QuartersOf("LM"), XAxis)
    ensures LayersOf(QuartersOf("LM")) == {Neg, Zero}
    ensures QuartersOn(QuartersOf("LM"), Neg) == 3
    ensures QuartersOn(QuartersOf("LM"), Zero) == 3
    ensures QuartersOn(QuartersOf("LM"), Pos) == 0
  {
    assert AllPrimitive("LM");
    var qs := QuartersOf("LM");
    assert qs == [Quarter(XAxis, Neg, 3), Quarter(XAxis, Zero, 3)];
    assert qs[..0] == [];
    PrefixStep(qs, 1);
    PrefixStep(qs, 2);
    assert qs[..2] == qs;
  }

  /** The steps of f, "FS", are quarter turns about the z axis. */
  lemma LowerFSteps()
    ensures AllPrimitive("FS")
    ensures OnAxis(QuartersOf("FS"), ZAxis)
    ensures LayersOf(QuartersOf("FS")) == {Zero, Pos}
    ensures QuartersOn(QuartersOf("FS"), Neg) == 0
    ensures QuartersOn(QuartersOf("FS"), Zero) == 1
    ensures QuartersOn(QuartersOf("FS"), Pos) == 1
  {
    assert AllPrimitive("FS");
    var qs := QuartersOf("FS");
    assert qs == [Quarter(ZAxis, Pos, 1), Quarter(ZAxis, Zero, 1)];
    assert qs[..0] == [];
    PrefixStep(qs, 1);
    PrefixStep(qs, 2);
    assert qs[..2] == qs;
  }

  /** The steps of b, "BSSS", are quarter turns about the z axis. */
  lemma LowerBSteps()
    ensures AllPrimitive("BSSS")
    ensures OnAxis(QuartersOf("BSSS"), ZAxis)
    ensures LayersOf(QuartersOf("BSSS")) == {Neg, Zero}
    ensures QuartersOn(QuartersOf("BSSS"), Neg) == 3
    ensures QuartersOn(QuartersOf("BSSS"), Zero) == 3
    ensures QuartersOn(QuartersOf("BSSS"), Pos) == 0
  {
    assert AllPrimitive("BSSS");
    var qs := QuartersOf("BSSS");
    assert qs == [Quarter(ZAxis, Neg, 3), Quarter(ZAxis, Zero, 1), Quarter(ZAxis, Zero, 1), Quarter(ZAxis, Zero, 1)];
    assert qs[..0] == [];
    PrefixStep(qs, 1);
    PrefixStep(qs, 2);
    PrefixStep(qs, 3);
    PrefixStep(qs, 4);
    assert qs[..4] == qs;
  }

  /** The steps of x, "RLLLMMM", are quarter turns about the x axis. */
  lemma CubeXSteps()
    ensures AllPrimitive("RLLLMMM")
    ensures OnAxis(QuartersOf("RLLLMMM"), XAxis)
    ensures LayersOf(QuartersOf("RLLLMMM")) == {Neg, Zero, Pos}
    ensures QuartersOn(QuartersOf("RLLLMMM"), Neg) == 9
    ensures QuartersOn(QuartersOf("RLLLMMM"), Zero) == 9
    ensures QuartersOn(QuartersOf("RLLLMMM"), Pos) == 1
  {
    assert AllPrimitive("RLLLMMM");
    var qs := QuartersOf("RLLLMMM");
    assert qs == [Quarter(XAxis, Pos, 1), Quarter(XAxis, Neg, 3), Quarter(XAxis, Neg, 3), Quarter(XAxis, Neg, 3), Quarter(XAxis, Zero, 3), Quarter(XAxis, Zero, 3), Quarter(XAxis, Zero, 3)];
    assert qs[..0] == [];
    PrefixStep(qs, 1);
    PrefixStep(qs, 2);
    PrefixStep(qs, 3);
    PrefixStep(qs, 4);
    PrefixStep(qs, 5);
    PrefixStep(qs, 6);
    PrefixStep(qs, 7);
    assert qs[..7] == qs;
  }

  /** The steps of y, "UDDDEEE", are quarter turns about the y axis. */
  lemma CubeYSteps()
    ensures AllPrimitive("UDDDEEE")
    ensures OnAxis(QuartersOf("UDDDEEE"), YAxis)
    ensures LayersOf(QuartersOf("UDDDEEE")) == {Neg, Zero, Pos}
    ensures QuartersOn(QuartersOf("UDDDEEE"), Neg) == 9
    ensures QuartersOn(QuartersOf("UDDDEEE"), Zero) == 9
    ensures QuartersOn(QuartersOf("UDDDEEE"), Pos) == 1
  {
    assert AllPrimitive("UDDDEEE");
    var qs := QuartersOf("UDDDEEE");
    assert qs == [Quarter(YAxis, Pos, 1), Quarter(YAxis, Neg, 3), Quarter(YAxis, Neg, 3), Quarter(YAxis, Neg, 3), Quarter(YAxis, Zero, 3), Quarter(YAxis, Zero, 3), Quarter(YAxis, Zero, 3)];
    assert qs[..0] == [];
    PrefixStep(qs, 1);
    PrefixStep(qs, 2);
    PrefixStep(qs, 3);
    PrefixStep(qs, 4);
    PrefixStep(qs, 5);
    PrefixStep(qs, 6);
    PrefixStep(qs, 7);
    assert qs[..7] == qs;
  }

  /** The steps of z, "FSBBB", are quarter turns about the z axis. */
  lemma CubeZSteps()
    ensures AllPrimitive("FSBBB")
    ensures OnAxis(QuartersOf("FSBBB"), ZAxis)
    ensures LayersOf(QuartersOf("FSBBB")) == {Neg, Zero, Pos}
    ensures QuartersOn(QuartersOf("FSBBB"), Neg) == 9
    ensures QuartersOn(QuartersOf("FSBBB"), Zero) == 1
    ensures QuartersOn(QuartersOf("FSBBB"), Pos) == 1
  {
    assert AllPrimitive("FSBBB");
    var qs := QuartersOf("FSBBB");
    assert qs == [Quarter(ZAxis, Pos, 1), Quarter(ZAxis, Zero, 1), Quarter(ZAxis, Neg, 3), Quarter(ZAxis, Neg, 3), Quarter(ZAxis, Neg, 3)];
    assert qs[..0] == [];
    PrefixStep(qs, 1);
    PrefixStep(qs, 2);
    PrefixStep(qs, 3);
    PrefixStep(qs, 4);
    PrefixStep(qs, 5);
    assert qs[..5] == qs;
  }
  /** The quarter turns `qs` are about the axis of motion `m`, turn exactly its layers
      and give layer `l` its quarter turns modulo four (none when `l` is not one of
      them). */
  predicate PerformsMotion(qs: seq<Quarter>, m: Motion, l: Coord) {
    OnAxis(qs, m.axis) && LayersOf(qs) == m.layers &&
    QuartersOn(qs, l) % 4 == if l in m.layers then m.quarters else 0
  }

  lemma PrimitiveBlockMotion(c: char, l: Coord)
    requires IsPrimitive(c)
    ensures c in PrimitiveNames
    ensures AllPrimitive(Block(c, AllMoves(c).value))
    ensures PerformsMotion(QuartersOf(Block(c, AllMoves(c).value)), MotionOf(c), l)
  {
    var qs := QuartersOf([c]);
    assert Block(c, AllMoves(c).value) == [c];
    assert qs == [QuarterOf(c)] && qs[..0] == [];
    PrimitiveMotion(c);
  }

  lemma LowerUMotion(l: Coord)
    ensures AllMoves('u').Some? && AllPrimitive(Block('u', AllMoves('u').value))
    ensures PerformsMotion(QuartersOf(Block('u', AllMoves('u').value)), MotionOf('u'), l)
  {
    LowerUSteps();
    assert Block('u', AllMoves('u').value) == "UEEE";
  }

  lemma LowerDMotion(l: Coord)
    ensures AllMoves('d').Some? && AllPrimitive(Block('d', AllMoves('d').value))
    ensures PerformsMotion(QuartersOf(Block('d', AllMoves('d').value)), MotionOf('d'), l)
  {
    LowerDSteps();
    assert Block('d', AllMoves('d').value) == "DE";
  }

  lemma LowerRMotion(l: Coord)
    ensures AllMoves('r').Some? && AllPrimitive(Block('r', AllMoves('r').value))
    ensures PerformsMotion(QuartersOf(Block('r', AllMoves('r').value)), MotionOf('r'), l)
  {
    LowerRSteps();
    assert Block('r', AllMoves('r').value) == "RMMM";
  }

  lemma LowerLMotion(l: Coord)
    ensures AllMoves('l').Some? && AllPrimitive(Block('l', AllMoves('l').value))
    ensures PerformsMotion(QuartersOf(Block('l', AllMoves('l').value)), MotionOf('l'), l)
  {
    LowerLSteps();
    assert Block('l', AllMoves('l').value) == "LM";
  }

  lemma LowerFMotion(l: Coord)
    ensures AllMoves('f').Some? && AllPrimitive(Block('f', AllMoves('f').value))
    ensures PerformsMotion(QuartersOf(Block('f', AllMoves('f').value)), MotionOf('f'), l)
  {
    LowerFSteps();
    assert Block('f', AllMoves('f').value) == "FS";
  }

  lemma LowerBMotion(l: Coord)
    ensures AllMoves('b').Some? && AllPrimitive(Block('b', AllMoves('b').value))
    ensures PerformsMotion(QuartersOf(Block('b', AllMoves('b').value)), MotionOf('b'), l)
  {
    LowerBSteps();
    assert Block('b', AllMoves('b').value) == "BSSS";
  }

  lemma CubeXMotion(l: Coord)
    ensures AllMoves('x').Some? && AllPrimitive(Block('x', AllMoves('x').value))
    ensures PerformsMotion(QuartersOf(Block('x', AllMoves('x').value)), MotionOf('x'), l)
  {
    CubeXSteps();
    assert Block('x', AllMoves('x').value) == "RLLLMMM";
  }

  lemma CubeYMotion(l: Coord)
    ensures AllMoves('y').Some? && AllPrimitive(Block('y', AllMoves('y').value))
    ensures PerformsMotion(QuartersOf(Block('y', AllMoves('y').value)), MotionOf('y'), l)
  {
    CubeYSteps();
    assert Block('y', AllMoves('y').value) == "UDDDEEE";
  }

  lemma CubeZMotion(l: Coord)
    ensures AllMoves('z').Some? && AllPrimitive(Block('z', AllMoves('z').value))
    ensures PerformsMotion(QuartersOf(Block('z', AllMoves('z').value)), MotionOf('z'), l)
  {
    CubeZSteps();
    assert Block('z', AllMoves('z').value) == "FSBBB";
  }

  /** One repetition of a move name's steps turns the layers of its motion and, modulo
      four quarter turns, leaves every other layer of the axis alone. */
  lemma BlockMotion(c: char, l: Coord)
    requires c in PrimitiveNames || c in CompositeNames
    ensures AllMoves(c).Some? && AllPrimitive(Block(c, AllMoves(c).value))
    ensures OnAxis(QuartersOf(Block(c, AllMoves(c).value)), MotionOf(c).axis)
    ensures LayersOf(QuartersOf(Block(c, AllMoves(c).value))) == MotionOf(c).layers
    ensures QuartersOn(QuartersOf(Block(c, AllMoves(c).value)), l) % 4 ==
      if l in MotionOf(c).layers then MotionOf(c).quarters else 0
  {
    MoveTableKeys(c);
    if c in PrimitiveNames {
      PrimitiveBlockMotion(c, l);
    } else if c == 'u' {
      LowerUMotion(l);
    } else if c == 'd' {
      LowerDMotion(l);
    } else if c == 'r' {
      LowerRMotion(l);
    } else if c == 'l' {
      LowerLMotion(l);
    } else if c == 'f' {
      LowerFMotion(l);
    } else if c == 'b' {
      LowerBMotion(l);
    } else if c == 'x' {
      CubeXMotion(l);
    } else if c == 'y' {
      CubeYMotion(l);
    } else {
      CubeZMotion(l);
    }
  }

  /** The motion of a token: its move name's motion, performed RepeatCount times. */
  function TokenMotion(t: string): Motion
    requires IsToken(t)
  {
    TokenShape(t);
    var m := MotionOf(t[0]);
    m.(quarters := Times(m.quarters, RepeatCount(t)))
  }

  /** `k` quarter turns performed `n` times. */
  function Times(k: nat, n: nat): nat {
    k * n
  }

  lemma MulMod(n: nat, k: nat)
    requires 1 <= n <= 3
    ensures (n * k) % 4 == (n * (k % 4)) % 4
  {
    var d, r := k / 4, k % 4;
    assert k == 4 * d + r;
    if n == 2 {
      ShiftMod(2 * d, 2 * r);
    } else if n == 3 {
      ShiftMod(3 * d, 3 * r);
    }
  }

  lemma ShiftMod(x: nat, y: nat)
    ensures (4 * x + y) % 4 == y % 4
  {
  }

  /** One to three repetitions of quarter turns about one axis that turn the layers
      `layers` by `j` quarter turns, modulo four, and leave the other layers alone. */
  lemma RepeatedAxisTurn(qs: seq<Quarter>, a: Axis, layers: set<Coord>, j: nat, n: nat, q: Position)
    requires OnAxis(qs, a)
    requires QuartersOn(qs, LayerOf(a, q)) % 4 == if LayerOf(a, q) in layers then j else 0
    requires 1 <= n <= 3
    ensures TurnAll(Repeat(qs, n), q) == Turn(a, layers, Times(j, n), q)
  {
    var l := LayerOf(a, q);
    var k := QuartersOn(qs, l);
    RepeatOnAxis(qs, n, a, l);
    AxisTurn(Repeat(qs, n), a, q);
    RepeatedQuarters(k, j, n, l in layers);
    TurnOwnLayer(a, layers, n * k, Times(j, n), q);
  }

  /** A layer's quarter turns, repeated, agree modulo four with the repeated motion. */
  lemma RepeatedQuarters(k: nat, j: nat, n: nat, turning: bool)
    requires k % 4 == if turning then j else 0
    requires 1 <= n <= 3
    ensures (n * k) % 4 == if turning then Times(j, n) % 4 else 0
  {
    MulMod(n, k);
    assert Times(j, n) == n * j;
  }

  /** Repetitions of quarter turns about one axis turn exactly the facelets of the
      layers they turn. */
  lemma RepeatedAxisTouches(qs: seq<Quarter>, a: Axis, n: nat, q: Position)
    requires OnAxis(qs, a)
    requires 1 <= n
    ensures TurnsAlong(Repeat(qs, n), q) <==> LayerOf(a, q) in LayersOf(qs)
  {
    RepeatOnAxis(qs, n, a, LayerOf(a, q));
    AxisTurn(Repeat(qs, n), a, q);
  }

  /** `n` repetitions of a move name's steps turn the layers of its motion `n` times
      its quarter turns. */
  lemma NameTurns(c: char, n: nat, q: Position)
    requires c in PrimitiveNames || c in CompositeNames
    requires 1 <= n <= 3
    ensures AllMoves(c).Some? && AllPrimitive(Repeat(Block(c, AllMoves(c).value), n))
    ensures PositionAfter(Repeat(Block(c, AllMoves(c).value), n), q) ==
      Turn(MotionOf(c).axis, MotionOf(c).layers, Times(MotionOf(c).quarters, n), q)
  {
    var m := MotionOf(c);
    BlockMotion(c, LayerOf(m.axis, q));
    var b := Block(c, AllMoves(c).value);
    QuartersOfRepeat(b, n);
    StepsAsQuarters(Repeat(b, n), q);
    RepeatedAxisTurn(QuartersOf(b), m.axis, m.layers, m.quarters, n, q);
  }

  /** Repetitions of a move name's steps touch exactly the facelets of the layers of
      its motion. */
  lemma NameTouches(c: char, n: nat, q: Position)
    requires c in PrimitiveNames || c in CompositeNames
    requires 1 <= n
    ensures AllMoves(c).Some? && AllPrimitive(Repeat(Block(c, AllMoves(c).value), n))
    ensures TouchedAlong(Repeat(Block(c, AllMoves(c).value), n), q) <==>
      LayerOf(MotionOf(c).axis, q) in MotionOf(c).layers
  {
    var m := MotionOf(c);
    BlockMotion(c, LayerOf(m.axis, q));
    var b := Block(c, AllMoves(c).value);
    QuartersOfRepeat(b, n);
    StepsTouchAsQuarters(Repeat(b, n), q);
    RepeatedAxisTouches(QuartersOf(b), m.axis, n, q);
  }

  /** What the applier does with an accepted token: it turns the layers of the token's
      motion by the token's quarter turns. */
  lemma TokenTurns(t: string, q: Position)
    requires IsToken(t)
    ensures Expand(t).Some? && AllPrimitive(Expand(t).value)
    ensures PositionAfter(Expand(t).value, q) ==
      Turn(TokenMotion(t).axis, TokenMotion(t).layers, TokenMotion(t).quarters, q)
  {
    TokenShape(t);
    NameTurns(t[0], RepeatCount(t), q);
  }

  /** The applier flags exactly the facelets of the layers the token turns as moving. */
  lemma TokenTouches(t: string, q: Position)
    requires IsToken(t)
    ensures Expand(t).Some? && AllPrimitive(Expand(t).value)
    ensures TouchedAlong(Expand(t).value, q) <==> LayerOf(TokenMotion(t).axis, q) in TokenMotion(t).layers
  {
    TokenShape(t);
    NameTouches(t[0], RepeatCount(t), q);
  }

  lemma MoveNameIsToken(c: char)
    requires c in PrimitiveNames || c in CompositeNames
    ensures IsToken([c]) && IsToken([c, '\'']) && IsToken([c, '2'])
    ensures TokenMotion([c]) == MotionOf(c)
    ensures TokenMotion([c, '\'']) == MotionOf(c).(quarters := 3 * MotionOf(c).quarters)
    ensures TokenMotion([c, '2']) == MotionOf(c).(quarters := 2 * MotionOf(c).quarters)
  {
    TokenShape([c]);
    TokenShape([c, '\'']);
    TokenShape([c, '2']);
  }

  /** The steps of a move name alone, primed and doubled: one, three and two
      repetitions of its block. */
  lemma ExpandName(c: char)
    requires c in PrimitiveNames || c in CompositeNames
    ensures AllMoves(c).Some?
    ensures Expand([c]) == Some(Repeat(Block(c, AllMoves(c).value), 1))
    ensures Expand([c, '\'']) == Some(Repeat(Block(c, AllMoves(c).value), 3))
    ensures Expand([c, '2']) == Some(Repeat(Block(c, AllMoves(c).value), 2))
  {
    MoveTableKeys(c);
  }

  /** Steps about one axis, performed four times, put every facelet back: every layer
      gets four times its quarter turns. */
  lemma {:induction false} FourOnAxis(steps: seq<char>, a: Axis, q: Position)
    requires AllPrimitive(steps) && OnAxis(QuartersOf(steps), a)
    ensures AllPrimitive(Repeat(steps, 4))
    ensures PositionAfter(Repeat(steps, 4), q) == q
  {
    QuartersOfRepeat(steps, 4);
    StepsAsQuarters(Repeat(steps, 4), q);
    FourQuartersBack(QuartersOf(steps), a, q);
  }

  /** Quarter turns about one axis, performed four times, put every facelet back. */
  lemma FourQuartersBack(qs: seq<Quarter>, a: Axis, q: Position)
    requires OnAxis(qs, a)
    ensures TurnAll(Repeat(qs, 4), q) == q
  {
    var l := LayerOf(a, q);
    RepeatOnAxis(qs, 4, a, l);
    var k := QuartersOn(qs, l);
    AxisTurn(Repeat(qs, 4), a, q);
    TurnMod(a, {l}, 4 * k, q);
    ShiftMod(k, 0);
    FromToSticker(q);
  }

  /** `n1` repetitions of a move name's steps followed by `n2` more put every facelet
      back when `n1 + n2` is four. */
  lemma NameCancels(c: char, n1: nat, n2: nat, q: Position)
    requires c in PrimitiveNames || c in CompositeNames
    requires n1 + n2 == 4
    ensures AllMoves(c).Some?
    ensures AllPrimitive(Repeat(Block(c, AllMoves(c).value), n1) + Repeat(Block(c, AllMoves(c).value), n2))
    ensures PositionAfter(Repeat(Block(c, AllMoves(c).value), n1) + Repeat(Block(c, AllMoves(c).value), n2), q) == q
  {
    BlockMotion(c, Zero);
    var b := Block(c, AllMoves(c).value);
    RepeatAdd(b, n1, n2);
    FourOnAxis(b, MotionOf(c).axis, q);
  }

  /** A move followed by its primed form, in either order, puts every facelet back. */
  lemma PrimeUndoes(c: char, q: Position)
    requires c in PrimitiveNames || c in CompositeNames
    ensures Expand([c]).Some? && Expand([c, '\'']).Some?
    ensures AllPrimitive(Expand([c]).value + Expand([c, '\'']).value)
    ensures PositionAfter(Expand([c]).value + Expand([c, '\'']).value, q) == q
    ensures AllPrimitive(Expand([c, '\'']).value + Expand([c]).value)
    ensures PositionAfter(Expand([c, '\'']).value + Expand([c]).value, q) == q
  {
    ExpandName(c);
    NameCancels(c, 1, 3, q);
    NameCancels(c, 3, 1, q);
  }

  /** A half turn performed twice puts every facelet back. */
  lemma HalfTurnTwice(c: char, q: Position)
    requires c in PrimitiveNames || c in CompositeNames
    ensures Expand([c, '2']).Some?
    ensures AllPrimitive(Expand([c, '2']).value + Expand([c, '2']).value)
    ensures PositionAfter(Expand([c, '2']).value + Expand([c, '2']).value, q) == q
  {
    ExpandName(c);
    NameCancels(c, 2, 2, q);
  }

  /** `X2` is `X` performed twice: its steps are those of `X` twice over, so every
      facelet ends where two successive `X` moves take it. */
  lemma HalfTurnIsTwoTurns(c: char, q: Position)
    requires c in PrimitiveNames || c in CompositeNames
    ensures Expand([c]).Some? && Expand([c, '2']).Some? && AllPrimitive(Expand([c]).value)
    ensures Expand([c, '2']).value == Expand([c]).value + Expand([c]).value
    ensures PositionAfter(Expand([c, '2']).value, q) ==
      PositionAfter(Expand([c]).value, PositionAfter(Expand([c]).value, q))
  {
    ExpandName(c);
    MoveNameIsToken(c);
    TokenTurns([c], q);
    RepeatAdd(Block(c, AllMoves(c).value), 1, 1);
    PositionAfterConcat(Expand([c]).value, Expand([c]).value, q);
  }

  /** Steps that bring a facelet onto another side, where a facelet of that other
      side's colour also ends up, leave the solved cube unsolved. */
  lemma SolvedBroken(steps: seq<char>, p: Position, r: Position)
    requires AllPrimitive(steps)
    requires p.side != r.side
    requires PositionAfter(steps, p).side == PositionAfter(steps, r).side
    ensures !PerSideUniform(Apply(SolvedCube(), steps))
  {
    var i, j := PositionIndex(p), PositionIndex(r);
    SolvedAt(p);
    SolvedAt(r);
    SideColorsDiffer(p.side, r.side);
    var after := Apply(SolvedCube(), steps);
    assert after[i].side == after[j].side && after[i].color != after[j].color;
  }

  /** A move that carries a facelet onto another side, where a facelet of that side
      stays, leaves the solved cube unsolved. */
  lemma NameUnsolves(c: char, p: Position, r: Position)
    requires c in PrimitiveNames || c in CompositeNames
    requires p.side != r.side
    requires Turn(MotionOf(c).axis, MotionOf(c).layers, MotionOf(c).quarters, p).side == r.side
    requires LayerOf(MotionOf(c).axis, r) !in MotionOf(c).layers
    ensures Expand([c]).Some? && AllPrimitive(Expand([c]).value)
    ensures !PerSideUniform(Apply(SolvedCube(), Expand([c]).value))
  {
    MoveNameIsToken(c);
    TokenTurns([c], p);
    TokenTurns([c], r);
    assert Times(MotionOf(c).quarters, 1) == MotionOf(c).quarters;
    SolvedBroken(Expand([c]).value, p, r);
  }

  /** Turns about the vertical axis: U, D, E, u and d. */
  lemma VerticalTurnUnsolves(c: char)
    requires c in "UDEud"
    ensures c in PrimitiveNames || c in CompositeNames
    ensures Expand([c]).Some? && AllPrimitive(Expand([c]).value)
    ensures !PerSideUniform(Apply(SolvedCube(), Expand([c]).value))
  {
    if c == 'U' {
      NameUnsolves('U', Position(R, Top, Left), Position(F, Middle, Left));
    } else if c == 'D' {
      NameUnsolves('D', Position(R, Bottom, Left), Position(B, Top, Left));
    } else if c == 'E' {
      NameUnsolves('E', Position(R, Middle, Left), Position(B, Top, Left));
    } else if c == 'u' {
      NameUnsolves('u', Position(R, Top, Left), Position(F, Bottom, Left));
    } else if c == 'd' {
      NameUnsolves('d', Position(R, Middle, Left), Position(B, Top, Left));
    }
  }

  /** Turns about the left-right axis: R, L, M, r and l. */
  lemma SideToSideTurnUnsolves(c: char)
    requires c in "RLMrl"
    ensures c in PrimitiveNames || c in CompositeNames
    ensures Expand([c]).Some? && AllPrimitive(Expand([c]).value)
    ensures !PerSideUniform(Apply(SolvedCube(), Expand([c]).value))
  {
    if c == 'R' {
      NameUnsolves('R', Position(U, Top, Right), Position(B, Top, Center));
    } else if c == 'L' {
      NameUnsolves('L', Position(U, Top, Left), Position(F, Top, Center));
    } else if c == 'M' {
      NameUnsolves('M', Position(U, Top, Center), Position(F, Top, Left));
    } else if c == 'r' {
      NameUnsolves('r', Position(U, Top, Center), Position(B, Top, Right));
    } else if c == 'l' {
      NameUnsolves('l', Position(U, Top, Left), Position(F, Top, Right));
    }
  }

  /** Turns about the front-back axis: F, B, S, f and b. */
  lemma FrontToBackTurnUnsolves(c: char)
    requires c in "FBSfb"
    ensures c in PrimitiveNames || c in CompositeNames
    ensures Expand([c]).Some? && AllPrimitive(Expand([c]).value)
    ensures !PerSideUniform(Apply(SolvedCube(), Expand([c]).value))
  {
    if c == 'F' {
      NameUnsolves('F', Position(U, Bottom, Left), Position(R, Top, Center));
    } else if c == 'B' {
      NameUnsolves('B', Position(U, Top, Left), Position(L, Top, Center));
    } else if c == 'S' {
      NameUnsolves('S', Position(U, Middle, Left), Position(R, Top, Left));
    } else if c == 'f' {
      NameUnsolves('f', Position(U, Middle, Left), Position(R, Top, Right));
    } else if c == 'b' {
      NameUnsolves('b', Position(U, Top, Left), Position(L, Top, Right));
    }
  }

  /** One turn of a face, a slice or two adjacent layers takes the solved cube out of
      the solved state. */
  lemma TurnUnsolves(c: char)
    requires c in PrimitiveNames || c in "udrlfb"
    ensures Expand([c]).Some? && AllPrimitive(Expand([c]).value)
    ensures !PerSideUniform(Apply(SolvedCube(), Expand([c]).value))
  {
    if c in "UDEud" {
      VerticalTurnUnsolves(c);
    } else if c in "RLMrl" {
      SideToSideTurnUnsolves(c);
    } else {
      FrontToBackTurnUnsolves(c);
    }
  }

  /** A token's steps are quarter turns about the axis of its motion. */
  lemma TokenOnAxis(t: string)
    requires IsToken(t)
    ensures Expand(t).Some? && AllPrimitive(Expand(t).value)
    ensures OnAxis(QuartersOf(Expand(t).value), TokenMotion(t).axis)
  {
    TokenShape(t);
    var c := t[0];
    BlockMotion(c, Zero);
    var b := Block(c, AllMoves(c).value);
    QuartersOfRepeat(b, RepeatCount(t));
    RepeatOnAxis(QuartersOf(b), RepeatCount(t), MotionOf(c).axis, Zero);
  }

  /** Any token performed four times puts every facelet back. */
  lemma FourTimesIsIdentity(t: string, q: Position)
    requires IsToken(t)
    ensures Expand(t).Some? && AllPrimitive(Repeat(Expand(t).value, 4))
    ensures PositionAfter(Repeat(Expand(t).value, 4), q) == q
  {
    TokenOnAxis(t);
    FourOnAxis(Expand(t).value, TokenMotion(t).axis, q);
  }

  lemma PrimitiveHint(t: string)
    requires IsToken(t) && t[0] in PrimitiveNames
    ensures TransitionClass(t).value.axis == TokenMotion(t).axis
    ensures TransitionClass(t).value.rotation == Cw <==> TokenMotion(t).quarters % 4 == 1
    ensures TransitionClass(t).value.rotation == Ccw <==> TokenMotion(t).quarters % 4 == 3
    ensures TransitionClass(t).value.rotation == Twice <==> TokenMotion(t).quarters % 4 == 2
    ensures TransitionClass(t).value.speed == Slow <==> TransitionClass(t).value.rotation == Twice
  {
    TokenShape(t);
  }

  lemma FaceLayersHint(t: string)
    requires IsToken(t) && t[0] in "udrlfb"
    ensures TransitionClass(t).value.axis == TokenMotion(t).axis
    ensures TransitionClass(t).value.rotation == Cw <==> TokenMotion(t).quarters % 4 == 1
    ensures TransitionClass(t).value.rotation == Ccw <==> TokenMotion(t).quarters % 4 == 3
    ensures TransitionClass(t).value.rotation == Twice <==> TokenMotion(t).quarters % 4 == 2
    ensures TransitionClass(t).value.speed == Slow <==> TransitionClass(t).value.rotation == Twice
  {
    TokenShape(t);
  }

  lemma CubeHint(t: string)
    requires IsToken(t) && t[0] in "xyz"
    ensures TransitionClass(t).value.axis == TokenMotion(t).axis
    ensures TransitionClass(t).value.rotation == Cw <==> TokenMotion(t).quarters % 4 == 1
    ensures TransitionClass(t).value.rotation == Ccw <==> TokenMotion(t).quarters % 4 == 3
    ensures TransitionClass(t).value.rotation == Twice <==> TokenMotion(t).quarters % 4 == 2
    ensures TransitionClass(t).value.speed == Slow <==> TransitionClass(t).value.rotation == Twice
  {
    TokenShape(t);
  }

  /** The animation class of every token agrees with what the token does: the same
      axis; `c` for one quarter turn clockwise seen from the positive end of the axis,
      `cc` for one the other way, `2` for a half turn; slow exactly for half turns. */
  lemma HintMatchesMotion(t: string)
    requires IsToken(t)
    ensures TransitionClass(t).value.axis == TokenMotion(t).axis
    ensures TransitionClass(t).value.rotation == Cw <==> TokenMotion(t).quarters % 4 == 1
    ensures TransitionClass(t).value.rotation == Ccw <==> TokenMotion(t).quarters % 4 == 3
    ensures TransitionClass(t).value.rotation == Twice <==> TokenMotion(t).quarters % 4 == 2
    ensures TransitionClass(t).value.speed == Slow <==> TransitionClass(t).value.rotation == Twice
  {
    TokenShape(t);
    if t[0] in PrimitiveNames {
      PrimitiveHint(t);
    } else if t[0] in "udrlfb" {
      FaceLayersHint(t);
    } else {
      CubeHint(t);
    }
  }
}
