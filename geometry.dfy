/** An independent geometric reading of the facelet positions: every position is a
    sticker of one of the 26 visible cubies of a 3x3x3 cube, given by the cubie's
    coordinates in {-1, 0, +1}^3 and the outward normal of the sticker. Axes: x runs
    from L to R, y from D to U, z from B to F. A layer turn rotates the cubies whose
    coordinate along an axis lies in a given set of layers. The move tables of the
    notation are proved equal to these turns. */
module Geometry {
  import opened Facelets

  datatype Coord = Neg | Zero | Pos
  datatype Vec = Vec(x: Coord, y: Coord, z: Coord)
  datatype Sticker = Sticker(cubie: Vec, normal: Vec)
  datatype Axis = XAxis | YAxis | ZAxis

  function Flip(c: Coord): Coord {
    match c
    case Neg => Pos
    case Zero => Zero
    case Pos => Neg
  }

  function HCoord(h: HPos): Coord {
    match h
    case Left => Neg
    case Center => Zero
    case Right => Pos
  }

  function VCoord(v: VPos): Coord {
    match v
    case Top => Neg
    case Middle => Zero
    case Bottom => Pos
  }

  function HOf(c: Coord): HPos {
    match c
    case Neg => Left
    case Zero => Center
    case Pos => Right
  }

  function VOf(c: Coord): VPos {
    match c
    case Neg => Top
    case Zero => Middle
    case Pos => Bottom
  }

  /** Where a position sits on the cube. Each side is seen from outside: "top" is
      towards U on the four lateral sides, towards B on U and towards F on D; "left"
      is towards L on U, D and F, towards R on B, towards F on R and towards B on L. */
  function ToSticker(p: Position): Sticker {
    var h := HCoord(p.hPos);
    var v := VCoord(p.vPos);
    match p.side
    case U => Sticker(Vec(h, Pos, v), Vec(Zero, Pos, Zero))
    case D => Sticker(Vec(h, Neg, Flip(v)), Vec(Zero, Neg, Zero))
    case F => Sticker(Vec(h, Flip(v), Pos), Vec(Zero, Zero, Pos))
    case B => Sticker(Vec(Flip(h), Flip(v), Neg), Vec(Zero, Zero, Neg))
    case R => Sticker(Vec(Pos, Flip(v), Flip(h)), Vec(Pos, Zero, Zero))
    case L => Sticker(Vec(Neg, Flip(v), h), Vec(Neg, Zero, Zero))
  }

  /** The position of a sticker, read off its normal. */
  function FromSticker(s: Sticker): Position {
    var c := s.cubie;
    match s.normal
    case Vec(Zero, Pos, Zero) => Position(U, VOf(c.z), HOf(c.x))
    case Vec(Zero, Neg, Zero) => Position(D, VOf(Flip(c.z)), HOf(c.x))
    case Vec(Zero, Zero, Pos) => Position(F, VOf(Flip(c.y)), HOf(c.x))
    case Vec(Zero, Zero, Neg) => Position(B, VOf(Flip(c.y)), HOf(Flip(c.x)))
    case Vec(Pos, Zero, Zero) => Position(R, VOf(Flip(c.y)), HOf(Flip(c.z)))
    case _ => Position(L, VOf(Flip(c.y)), HOf(c.z))
  }

  lemma FromToSticker(p: Position)
    ensures FromSticker(ToSticker(p)) == p
  {
  }

  /** A quarter turn about `a`, clockwise as seen from the positive end of the axis
      (the direction of R about x, of U about y and of F about z). */
  function Spin(a: Axis, v: Vec): Vec {
    match a
    case XAxis => Vec(v.x, v.z, Flip(v.y))
    case YAxis => Vec(Flip(v.z), v.y, v.x)
    case ZAxis => Vec(v.y, Flip(v.x), v.z)
  }

  function SpinSticker(a: Axis, s: Sticker): Sticker {
    Sticker(Spin(a, s.cubie), Spin(a, s.normal))
  }

  /** `n` successive quarter turns of a sticker. */
  function SpinBy(a: Axis, n: nat, s: Sticker): Sticker {
    if n == 0 then s else SpinSticker(a, SpinBy(a, n - 1, s))
  }

  function AxisCoord(a: Axis, v: Vec): Coord {
    match a
    case XAxis => v.x
    case YAxis => v.y
    case ZAxis => v.z
  }

  /** The layer of position `p` along axis `a`. */
  function LayerOf(a: Axis, p: Position): Coord {
    AxisCoord(a, ToSticker(p).cubie)
  }

  /** `n` quarter turns of the layers `layers` of axis `a`, applied to one position. */
  function Turn(a: Axis, layers: set<Coord>, n: nat, p: Position): Position {
    if LayerOf(a, p) in layers then FromSticker(SpinBy(a, n, ToSticker(p))) else p
  }

  /** A spun surface sticker is again a surface sticker, in the same layer. */
  lemma SpinStaysOnSurface(a: Axis, p: Position)
    ensures ToSticker(FromSticker(SpinSticker(a, ToSticker(p)))) == SpinSticker(a, ToSticker(p))
    ensures LayerOf(a, FromSticker(SpinSticker(a, ToSticker(p)))) == LayerOf(a, p)
  {
    match a
    case XAxis =>
      match p.side {
        case U => case D => case R => case L => case F => case B =>
      }
    case YAxis =>
      match p.side {
        case U => case D => case R => case L => case F => case B =>
      }
    case ZAxis =>
      match p.side {
        case U => case D => case R => case L => case F => case B =>
      }
  }

  lemma {:induction false} SpinByStaysOnSurface(a: Axis, n: nat, p: Position)
    ensures ToSticker(FromSticker(SpinBy(a, n, ToSticker(p)))) == SpinBy(a, n, ToSticker(p))
    ensures LayerOf(a, FromSticker(SpinBy(a, n, ToSticker(p)))) == LayerOf(a, p)
  {
    if n > 0 {
      SpinByStaysOnSurface(a, n - 1, p);
      var p' := FromSticker(SpinBy(a, n - 1, ToSticker(p)));
      SpinStaysOnSurface(a, p');
    }
  }

  lemma {:induction false} SpinByAdd(a: Axis, m: nat, n: nat, s: Sticker)
    ensures SpinBy(a, m, SpinBy(a, n, s)) == SpinBy(a, m + n, s)
  {
    if m > 0 {
      SpinByAdd(a, m - 1, n, s);
    }
  }

  lemma SpinFour(a: Axis, s: Sticker)
    ensures SpinBy(a, 4, s) == s
  {
    assert SpinBy(a, 1, s) == SpinSticker(a, SpinBy(a, 0, s));
    assert SpinBy(a, 2, s) == SpinSticker(a, SpinBy(a, 1, s));
    assert SpinBy(a, 3, s) == SpinSticker(a, SpinBy(a, 2, s));
    assert SpinBy(a, 4, s) == SpinSticker(a, SpinBy(a, 3, s));
    match a {
      case XAxis =>
      case YAxis =>
      case ZAxis =>
    }
  }

  lemma {:induction false} SpinByMod(a: Axis, n: nat, s: Sticker)
    ensures SpinBy(a, n, s) == SpinBy(a, n % 4, s)
  {
    if n >= 4 {
      SpinByMod(a, n - 4, s);
      SpinByAdd(a, n - 4, 4, s);
      SpinFour(a, s);
    }
  }

  /** A turn keeps every position in its layer along the turning axis. */
  lemma TurnKeepsLayer(a: Axis, layers: set<Coord>, n: nat, p: Position)
    ensures LayerOf(a, Turn(a, layers, n, p)) == LayerOf(a, p)
  {
    SpinByStaysOnSurface(a, n, p);
  }

  /** Turning the same layers m times and then n times is turning them m + n times. */
  lemma TurnAdd(a: Axis, layers: set<Coord>, m: nat, n: nat, p: Position)
    ensures Turn(a, layers, m, Turn(a, layers, n, p)) == Turn(a, layers, m + n, p)
  {
    SpinByStaysOnSurface(a, n, p);
    SpinByAdd(a, m, n, ToSticker(p));
  }

  /** Only the number of quarter turns modulo 4 matters. */
  lemma TurnMod(a: Axis, layers: set<Coord>, n: nat, p: Position)
    ensures Turn(a, layers, n, p) == Turn(a, layers, n % 4, p)
  {
    SpinByMod(a, n, ToSticker(p));
  }

  /** Four quarter turns of any layers bring every position back. */
  lemma TurnFour(a: Axis, layers: set<Coord>, p: Position)
    ensures Turn(a, layers, 4, p) == p
  {
    SpinFour(a, ToSticker(p));
    FromToSticker(p);
  }

  /** Turns that add up to a multiple of four cancel. */
  lemma TurnCancel(a: Axis, layers: set<Coord>, m: nat, n: nat, p: Position)
    requires (m + n) % 4 == 0
    ensures Turn(a, layers, m, Turn(a, layers, n, p)) == p
  {
    TurnAdd(a, layers, m, n, p);
    TurnMod(a, layers, m + n, p);
    FromToSticker(p);
  }

  /** A turn is one-to-one on positions. */
  lemma TurnInjective(a: Axis, layers: set<Coord>, n: nat, p: Position, q: Position)
    requires Turn(a, layers, n, p) == Turn(a, layers, n, q)
    ensures p == q
  {
    var back := 3 * n;
    TurnCancel(a, layers, back, n, p);
    TurnCancel(a, layers, back, n, q);
  }

  /** Turning two disjoint sets of layers of one axis by the same amount is turning their union. */
  lemma TurnUnion(a: Axis, l1: set<Coord>, l2: set<Coord>, n: nat, p: Position)
    requires l1 !! l2
    ensures Turn(a, l1, n, Turn(a, l2, n, p)) == Turn(a, l1 + l2, n, p)
  {
    TurnKeepsLayer(a, l2, n, p);
  }

  /** Turning a position's own layer by `k` is turning `layers` by `j` when, modulo
      four, `k` is `j` for a layer in `layers` and no turn at all for any other. */
  lemma TurnOwnLayer(a: Axis, layers: set<Coord>, k: nat, j: nat, p: Position)
    requires k % 4 == if LayerOf(a, p) in layers then j % 4 else 0
    ensures Turn(a, {LayerOf(a, p)}, k, p) == Turn(a, layers, j, p)
  {
    TurnMod(a, {LayerOf(a, p)}, k, p);
    TurnMod(a, layers, j, p);
    FromToSticker(p);
  }
}
