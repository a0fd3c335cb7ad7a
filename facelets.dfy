/** The cube state: 54 facelets, each a coloured sticker at a (side, vPos, hPos)
    position, the canonical solved state and the solved check. */
module Facelets {

  datatype Side = U | D | R | L | F | B
  datatype VPos = Top | Middle | Bottom
  datatype HPos = Left | Center | Right
  datatype Color = White | Yellow | Red | Orange | Green | Blue

  /** The domains in the order in which the source lists them; the solved cube is
      built in this order and side `Sides[i]` gets colour `Colors[i]`. */
  const Sides: seq<Side> := [U, D, R, L, F, B]
  const VPositions: seq<VPos> := [Top, Middle, Bottom]
  const HPositions: seq<HPos> := [Left, Center, Right]
  const Colors: seq<Color> := [White, Yellow, Red, Orange, Green, Blue]

  datatype Position = Position(side: Side, vPos: VPos, hPos: HPos)

  /** One sticker. `moving` is the transient flag the presentation layer animates. */
  datatype Facelet = Facelet(side: Side, vPos: VPos, hPos: HPos, color: Color, moving: bool) {

    function Pos(): Position {
      Position(side, vPos, hPos)
    }

    /** The same sticker placed at `p`: colour and flag travel with it. */
    function MovedTo(p: Position): (g: Facelet)
      ensures g.Pos() == p && g.color == color && g.moving == moving
    {
      this.(side := p.side, vPos := p.vPos, hPos := p.hPos)
    }
  }

  function SideIndex(s: Side): (i: nat)
    ensures i < |Sides| && Sides[i] == s
  {
    match s
    case U => 0 case D => 1 case R => 2 case L => 3 case F => 4 case B => 5
  }

  function VIndex(v: VPos): (i: nat)
    ensures i < |VPositions| && VPositions[i] == v
  {
    match v
    case Top => 0 case Middle => 1 case Bottom => 2
  }

  function HIndex(h: HPos): (i: nat)
    ensures i < |HPositions| && HPositions[i] == h
  {
    match h
    case Left => 0 case Center => 1 case Right => 2
  }

  function ColorIndex(c: Color): (i: nat)
    ensures i < |Colors| && Colors[i] == c
  {
    match c
    case White => 0 case Yellow => 1 case Red => 2 case Orange => 3 case Green => 4 case Blue => 5
  }

  /** The colour of side `s` in the solved state. */
  function SideColor(s: Side): Color {
    Colors[SideIndex(s)]
  }

  /** The k-th position in the order the solved cube is built: side-major, then row, then column. */
  function PositionAt(k: nat): (p: Position)
    requires k < 54
    ensures PositionIndex(p) == k
  {
    var side, rest := k / 9, k % 9;
    assert k == 9 * side + 3 * (rest / 3) + rest % 3;
    assert SideIndex(Sides[side]) == side && VIndex(VPositions[rest / 3]) == rest / 3;
    Position(Sides[side], VPositions[rest / 3], HPositions[rest % 3])
  }

  function PositionIndex(p: Position): (k: nat)
    ensures k < 54
  {
    9 * SideIndex(p.side) + 3 * VIndex(p.vPos) + HIndex(p.hPos)
  }

  lemma PositionIndexInjective(p: Position, q: Position)
    requires PositionIndex(p) == PositionIndex(q)
    ensures p == q
  {
  }

  /** Exactly one facelet at each position: 54 facelets with pairwise distinct positions. */
  ghost predicate IsCover(faces: seq<Facelet>) {
    |faces| == 54 &&
    forall i, j :: 0 <= i < j < |faces| ==> faces[i].Pos() != faces[j].Pos()
  }

  /** The position index of every facelet, in order. */
  function Indices(faces: seq<Facelet>): (r: seq<nat>)
    ensures |r| == |faces|
    ensures forall i :: 0 <= i < |faces| ==> r[i] == PositionIndex(faces[i].Pos())
  {
    seq(|faces|, i requires 0 <= i < |faces| => PositionIndex(faces[i].Pos()))
  }

  /** The numbers occurring in `xs`. */
  function Occurring(xs: seq<nat>): (r: set<nat>)
    ensures forall k :: k in r <==> k in xs
  {
    if |xs| == 0 then {} else Occurring(xs[..|xs| - 1]) + {xs[|xs| - 1]}
  }

  /** Pairwise distinct numbers are as many as their set. */
  lemma {:induction false} DistinctOccurringSize(xs: seq<nat>)
    requires forall i, j :: 0 <= i < j < |xs| ==> xs[i] != xs[j]
    ensures |Occurring(xs)| == |xs|
  {
    if |xs| > 0 {
      var n := |xs| - 1;
      DistinctOccurringSize(xs[..n]);
      assert xs[n] !in xs[..n];
    }
  }

  /** The naturals below `n`. */
  function Below(n: nat): (r: set<nat>)
    ensures |r| == n
    ensures forall k: nat :: k in r <==> k < n
  {
    if n == 0 then {} else Below(n - 1) + {n - 1}
  }

  /** A cover occupies every one of the 54 positions. */
  lemma CoverHasEveryPosition(faces: seq<Facelet>, p: Position)
    requires IsCover(faces)
    ensures exists i :: 0 <= i < |faces| && faces[i].Pos() == p
  {
    var xs := Indices(faces);
    CoverIndicesFull(faces);
    assert PositionIndex(p) in xs;
    var i :| 0 <= i < |xs| && xs[i] == PositionIndex(p);
    PositionIndexInjective(faces[i].Pos(), p);
  }

  /** A cover's facelets occupy all 54 position indices. */
  lemma CoverIndicesFull(faces: seq<Facelet>)
    requires IsCover(faces)
    ensures Occurring(Indices(faces)) == Below(54)
  {
    CoverIndicesDistinct(faces);
    DistinctOccurringSize(Indices(faces));
    FullSubset(Occurring(Indices(faces)), 54);
  }

  lemma CoverIndicesDistinct(faces: seq<Facelet>)
    requires IsCover(faces)
    ensures forall i, j :: 0 <= i < j < |faces| ==> Indices(faces)[i] != Indices(faces)[j]
  {
    forall i, j | 0 <= i < j < |faces|
      ensures Indices(faces)[i] != Indices(faces)[j]
    {
      if PositionIndex(faces[i].Pos()) == PositionIndex(faces[j].Pos()) {
        PositionIndexInjective(faces[i].Pos(), faces[j].Pos());
      }
    }
  }

  /** A subset of the naturals below n with n elements is all of them. */
  lemma FullSubset(s: set<nat>, n: nat)
    requires forall k :: k in s ==> k < n
    requires |s| == n
    ensures s == Below(n)
  {
    var all := Below(n);
    assert s <= all;
    assert |all - s| == 0;
  }

  /** Number of facelets of colour `c`. */
  function ColorCount(faces: seq<Facelet>, c: Color): (n: nat)
    ensures n <= |faces|
  {
    if |faces| == 0 then 0
    else ColorCount(faces[..|faces| - 1], c) + (if faces[|faces| - 1].color == c then 1 else 0)
  }

  lemma {:induction false} ColorCountsAddUp(faces: seq<Facelet>)
    ensures ColorCount(faces, White) + ColorCount(faces, Yellow) + ColorCount(faces, Red)
          + ColorCount(faces, Orange) + ColorCount(faces, Green) + ColorCount(faces, Blue) == |faces|
  {
    if |faces| > 0 {
      ColorCountsAddUp(faces[..|faces| - 1]);
    }
  }

  /** Two facelet lists coloured alike, index by index, have the same colour counts. */
  lemma {:induction false} SameColorsSameCounts(f: seq<Facelet>, g: seq<Facelet>, c: Color)
    requires |f| == |g|
    requires forall i :: 0 <= i < |f| ==> f[i].color == g[i].color
    ensures ColorCount(f, c) == ColorCount(g, c)
  {
    if |f| > 0 {
      var n := |f| - 1;
      SameColorsSameCounts(f[..n], g[..n], c);
    }
  }

  /** 54 facelets with no colour more than 9 times have every colour exactly 9 times. */
  lemma NineOfEach(faces: seq<Facelet>)
    requires |faces| == 54
    requires forall c :: ColorCount(faces, c) <= 9
    ensures forall c :: ColorCount(faces, c) == 9
  {
    ColorCountsAddUp(faces);
    assert ColorCount(faces, White) <= 9 && ColorCount(faces, Yellow) <= 9 && ColorCount(faces, Red) <= 9;
    assert ColorCount(faces, Orange) <= 9 && ColorCount(faces, Green) <= 9 && ColorCount(faces, Blue) <= 9;
  }

  /** Every side is one colour (distinct sides may share a colour). */
  ghost predicate PerSideUniform(faces: seq<Facelet>) {
    forall i, j :: 0 <= i < |faces| && 0 <= j < |faces| && faces[i].side == faces[j].side ==>
      faces[i].color == faces[j].color
  }

  /** The canonical solved state, built side by side, row by row, column by column. */
  function SolvedCube(): (faces: seq<Facelet>)
    ensures IsCover(faces)
    ensures forall i :: 0 <= i < |faces| ==> faces[i].Pos() == PositionAt(i)
    ensures forall i :: 0 <= i < |faces| ==> faces[i].color == SideColor(faces[i].side) && !faces[i].moving
    ensures PerSideUniform(faces)
  {
    seq(54, k requires 0 <= k < 54 =>
      var p := PositionAt(k);
      Facelet(p.side, p.vPos, p.hPos, SideColor(p.side), false))
  }

  /** The facelet of the solved cube at the index of position `p`: at `p`, in the
      colour of its side, not moving. */
  lemma SolvedAt(p: Position)
    ensures PositionIndex(p) < |SolvedCube()|
    ensures SolvedCube()[PositionIndex(p)] == Facelet(p.side, p.vPos, p.hPos, SideColor(p.side), false)
  {
    PositionIndexInjective(PositionAt(PositionIndex(p)), p);
  }

  /** Distinct sides have distinct colours in the solved cube. */
  lemma SideColorsDiffer(s: Side, t: Side)
    requires s != t
    ensures SideColor(s) != SideColor(t)
  {
  }

  /** When exactly the facelets at lo .. lo + 8 have colour `c`, the first k facelets
      hold as many of `c` as that range has below k. */
  lemma {:induction false} BandCount(faces: seq<Facelet>, c: Color, lo: nat, k: nat)
    requires k <= |faces|
    requires forall i :: 0 <= i < |faces| ==> (faces[i].color == c <==> lo <= i < lo + 9)
    ensures ColorCount(faces[..k], c) == if k <= lo then 0 else if k >= lo + 9 then 9 else k - lo
  {
    if k > 0 {
      BandCount(faces, c, lo, k - 1);
      assert faces[..k][..k - 1] == faces[..k - 1];
    }
  }

  /** Facelet k of the solved state has the k / 9-th colour. */
  lemma SolvedColorAt(k: nat)
    requires k < 54
    ensures forall c :: SolvedCube()[k].color == c <==> 9 * ColorIndex(c) <= k < 9 * ColorIndex(c) + 9
  {
    var j := k / 9;
    assert SolvedCube()[k].side == Sides[j];
    assert SideIndex(Sides[j]) == j;
  }

  /** The solved state has every colour exactly nine times. */
  lemma SolvedNineOfEach()
    ensures forall c :: ColorCount(SolvedCube(), c) == 9
  {
    var s := SolvedCube();
    forall c ensures ColorCount(s, c) == 9 {
      forall k | 0 <= k < 54 ensures s[k].color == c <==> 9 * ColorIndex(c) <= k < 9 * ColorIndex(c) + 9 {
        SolvedColorAt(k);
      }
      BandCount(s, c, 9 * ColorIndex(c), 54);
      assert s[..54] == s;
    }
  }

  /** The solved check as the source runs it: remember the first colour seen on each
      side and fail at the first facelet of another colour on that side. */
  method CheckSolved(faces: seq<Facelet>) returns (solved: bool)
    ensures solved == PerSideUniform(faces)
  {
    var colorCheck: map<Side, Color> := map[];
    for f := 0 to |faces|
      invariant forall s :: s in colorCheck ==>
        exists k :: 0 <= k < f && faces[k].side == s && faces[k].color == colorCheck[s]
      invariant forall k :: 0 <= k < f ==> faces[k].side in colorCheck && colorCheck[faces[k].side] == faces[k].color
    {
      if faces[f].side !in colorCheck {
        colorCheck := colorCheck[faces[f].side := faces[f].color];
      }
      if colorCheck[faces[f].side] != faces[f].color {
        return false;
      }
    }
    return true;
  }
}
