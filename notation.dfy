/** The move notation: the rule tables of the nine quarter turns, the nine
    composite moves built from them, the accepted tokens with their animation
    hints, and the expansion of a token into a list of quarter-turn steps. */
module Notation {
  import opened Wrappers
  import opened Facelets
  import opened Geometry

  /** A partial position. In a rule's source a missing field matches any value; in
      its destination a missing field keeps the facelet's own value. */
  datatype Pattern = Pattern(side: Option<Side>, vPos: Option<VPos>, hPos: Option<HPos>)

  /** A facelet at a position matching `source` moves to `destination`. */
  datatype Rule = Rule(source: Pattern, destination: Pattern)

  /** The kind of an entry of the move table: a quarter turn, whose rule list is
      given by RulesOf, or the names of the quarter turns a composite move is made of. */
  datatype MoveDef = Primitive | Composite(steps: seq<char>)

  predicate Matches(p: Pattern, q: Position) {
    (p.side.None? || p.side.value == q.side) &&
    (p.vPos.None? || p.vPos.value == q.vPos) &&
    (p.hPos.None? || p.hPos.value == q.hPos)
  }

  /** The position a destination pattern sends `q` to: its fields where present,
      the fields of `q` elsewhere. */
  function Relocate(d: Pattern, q: Position): (r: Position)
    ensures d.side.Some? ==> r.side == d.side.value
    ensures d.side.None? ==> r.side == q.side
    ensures d.vPos.Some? ==> r.vPos == d.vPos.value
    ensures d.vPos.None? ==> r.vPos == q.vPos
    ensures d.hPos.Some? ==> r.hPos == d.hPos.value
    ensures d.hPos.None? ==> r.hPos == q.hPos
  {
    Position(d.side.GetOr(q.side), d.vPos.GetOr(q.vPos), d.hPos.GetOr(q.hPos))
  }

  /** Two patterns no position can match at once: they name different values of some field. */
  predicate Disjoint(p: Pattern, q: Pattern) {
    (p.side.Some? && q.side.Some? && p.side.value != q.side.value) ||
    (p.vPos.Some? && q.vPos.Some? && p.vPos.value != q.vPos.value) ||
    (p.hPos.Some? && q.hPos.Some? && p.hPos.value != q.hPos.value)
  }

  lemma DisjointNoCommonMatch(p: Pattern, q: Pattern, x: Position)
    requires Disjoint(p, q)
    ensures !(Matches(p, x) && Matches(q, x))
  {
  }

  /** The sources of a rule list are pairwise disjoint. */
  ghost predicate SourcesDisjoint(rules: seq<Rule>) {
    forall i, j :: 0 <= i < j < |rules| ==> Disjoint(rules[i].source, rules[j].source)
  }

  /** The rules of the quarter turn U (scary-cube.js:13-27). */
  function URules(): seq<Rule> {
    [
      Rule(Pattern(Some(U), Some(Top), Some(Left)), Pattern(None, Some(Top), Some(Right))),
      Rule(Pattern(Some(U), Some(Top), Some(Center)), Pattern(None, Some(Middle), Some(Right))),
      Rule(Pattern(Some(U), Some(Top), Some(Right)), Pattern(None, Some(Bottom), Some(Right))),
      Rule(Pattern(Some(U), Some(Middle), Some(Right)), Pattern(None, Some(Bottom), Some(Center))),
      Rule(Pattern(Some(U), Some(Bottom), Some(Right)), Pattern(None, Some(Bottom), Some(Left))),
      Rule(Pattern(Some(U), Some(Bottom), Some(Center)), Pattern(None, Some(Middle), Some(Left))),
      Rule(Pattern(Some(U), Some(Bottom), Some(Left)), Pattern(None, Some(Top), Some(Left))),
      Rule(Pattern(Some(U), Some(Middle), Some(Left)), Pattern(None, Some(Top), Some(Center))),
      Rule(Pattern(Some(U), Some(Middle), Some(Center)), Pattern(None, None, None)),
      Rule(Pattern(Some(F), Some(Top), None), Pattern(Some(L), None, None)),
      Rule(Pattern(Some(L), Some(Top), None), Pattern(Some(B), None, None)),
      Rule(Pattern(Some(B), Some(Top), None), Pattern(Some(R), None, None)),
      Rule(Pattern(Some(R), Some(Top), None), Pattern(Some(F), None, None))
    ]
  }

  /** The rules of the quarter turn D (scary-cube.js:29-43). */
  function DRules(): seq<Rule> {
    [
      Rule(Pattern(Some(D), Some(Top), Some(Left)), Pattern(None, Some(Top), Some(Right))),
      Rule(Pattern(Some(D), Some(Top), Some(Center)), Pattern(None, Some(Middle), Some(Right))),
      Rule(Pattern(Some(D), Some(Top), Some(Right)), Pattern(None, Some(Bottom), Some(Right))),
      Rule(Pattern(Some(D), Some(Middle), Some(Right)), Pattern(None, Some(Bottom), Some(Center))),
      Rule(Pattern(Some(D), Some(Bottom), Some(Right)), Pattern(None, Some(Bottom), Some(Left))),
      Rule(Pattern(Some(D), Some(Bottom), Some(Center)), Pattern(None, Some(Middle), Some(Left))),
      Rule(Pattern(Some(D), Some(Bottom), Some(Left)), Pattern(None, Some(Top), Some(Left))),
      Rule(Pattern(Some(D), Some(Middle), Some(Left)), Pattern(None, Some(Top), Some(Center))),
      Rule(Pattern(Some(D), Some(Middle), Some(Center)), Pattern(None, None, None)),
      Rule(Pattern(Some(F), Some(Bottom), None), Pattern(Some(R), None, None)),
      Rule(Pattern(Some(L), Some(Bottom), None), Pattern(Some(F), None, None)),
      Rule(Pattern(Some(B), Some(Bottom), None), Pattern(Some(L), None, None)),
      Rule(Pattern(Some(R), Some(Bottom), None), Pattern(Some(B), None, None))
    ]
  }

  /** The rules of the quarter turn R (scary-cube.js:45-63). */
  function RRules(): seq<Rule> {
    [
      Rule(Pattern(Some(R), Some(Top), Some(Left)), Pattern(None, Some(Top), Some(Right))),
      Rule(Pattern(Some(R), Some(Top), Some(Center)), Pattern(None, Some(Middle), Some(Right))),
      Rule(Pattern(Some(R), Some(Top), Some(Right)), Pattern(None, Some(Bottom), Some(Right))),
      Rule(Pattern(Some(R), Some(Middle), Some(Right)), Pattern(None, Some(Bottom), Some(Center))),
      Rule(Pattern(Some(R), Some(Bottom), Some(Right)), Pattern(None, Some(Bottom), Some(Left))),
      Rule(Pattern(Some(R), Some(Bottom), Some(Center)), Pattern(None, Some(Middle), Some(Left))),
      Rule(Pattern(Some(R), Some(Bottom), Some(Left)), Pattern(None, Some(Top), Some(Left))),
      Rule(Pattern(Some(R), Some(Middle), Some(Left)), Pattern(None, Some(Top), Some(Center))),
      Rule(Pattern(Some(R), Some(Middle), Some(Center)), Pattern(None, None, None)),
      Rule(Pattern(Some(F), None, Some(Right)), Pattern(Some(U), None, None)),
      Rule(Pattern(Some(D), None, Some(Right)), Pattern(Some(F), None, None)),
      Rule(Pattern(Some(U), Some(Top), Some(Right)), Pattern(Some(B), Some(Bottom), Some(Left))),
      Rule(Pattern(Some(U), Some(Middle), Some(Right)), Pattern(Some(B), Some(Middle), Some(Left))),
      Rule(Pattern(Some(U), Some(Bottom), Some(Right)), Pattern(Some(B), Some(Top), Some(Left))),
      Rule(Pattern(Some(B), Some(Top), Some(Left)), Pattern(Some(D), Some(Bottom), Some(Right))),
      Rule(Pattern(Some(B), Some(Middle), Some(Left)), Pattern(Some(D), Some(Middle), Some(Right))),
      Rule(Pattern(Some(B), Some(Bottom), Some(Left)), Pattern(Some(D), Some(Top), Some(Right)))
    ]
  }

  /** The rules of the quarter turn L (scary-cube.js:65-83). */
  function LRules(): seq<Rule> {
    [
      Rule(Pattern(Some(L), Some(Top), Some(Left)), Pattern(None, Some(Top), Some(Right))),
      Rule(Pattern(Some(L), Some(Top), Some(Center)), Pattern(None, Some(Middle), Some(Right))),
      Rule(Pattern(Some(L), Some(Top), Some(Right)), Pattern(None, Some(Bottom), Some(Right))),
      Rule(Pattern(Some(L), Some(Middle), Some(Right)), Pattern(None, Some(Bottom), Some(Center))),
      Rule(Pattern(Some(L), Some(Bottom), Some(Right)), Pattern(None, Some(Bottom), Some(Left))),
      Rule(Pattern(Some(L), Some(Bottom), Some(Center)), Pattern(None, Some(Middle), Some(Left))),
      Rule(Pattern(Some(L), Some(Bottom), Some(Left)), Pattern(None, Some(Top), Some(Left))),
      Rule(Pattern(Some(L), Some(Middle), Some(Left)), Pattern(None, Some(Top), Some(Center))),
      Rule(Pattern(Some(L), Some(Middle), Some(Center)), Pattern(None, None, None)),
      Rule(Pattern(Some(F), None, Some(Left)), Pattern(Some(D), None, None)),
      Rule(Pattern(Some(U), None, Some(Left)), Pattern(Some(F), None, None)),
      Rule(Pattern(Some(D), Some(Top), Some(Left)), Pattern(Some(B), Some(Bottom), Some(Right))),
      Rule(Pattern(Some(D), Some(Middle), Some(Left)), Pattern(Some(B), Some(Middle), Some(Right))),
      Rule(Pattern(Some(D), Some(Bottom), Some(Left)), Pattern(Some(B), Some(Top), Some(Right))),
      Rule(Pattern(Some(B), Some(Top), Some(Right)), Pattern(Some(U), Some(Bottom), Some(Left))),
      Rule(Pattern(Some(B), Some(Middle), Some(Right)), Pattern(Some(U), Some(Middle), Some(Left))),
      Rule(Pattern(Some(B), Some(Bottom), Some(Right)), Pattern(Some(U), Some(Top), Some(Left)))
    ]
  }

  /** The rules of the quarter turn F (scary-cube.js:85-107). */
  function FRules(): seq<Rule> {
    [
      Rule(Pattern(Some(F), Some(Top), Some(Left)), Pattern(None, Some(Top), Some(Right))),
      Rule(Pattern(Some(F), Some(Top), Some(Center)), Pattern(None, Some(Middle), Some(Right))),
      Rule(Pattern(Some(F), Some(Top), Some(Right)), Pattern(None, Some(Bottom), Some(Right))),
      Rule(Pattern(Some(F), Some(Middle), Some(Right)), Pattern(None, Some(Bottom), Some(Center))),
      Rule(Pattern(Some(F), Some(Bottom), Some(Right)), Pattern(None, Some(Bottom), Some(Left))),
      Rule(Pattern(Some(F), Some(Bottom), Some(Center)), Pattern(None, Some(Middle), Some(Left))),
      Rule(Pattern(Some(F), Some(Bottom), Some(Left)), Pattern(None, Some(Top), Some(Left))),
      Rule(Pattern(Some(F), Some(Middle), Some(Left)), Pattern(None, Some(Top), Some(Center))),
      Rule(Pattern(Some(F), Some(Middle), Some(Center)), Pattern(None, None, None)),
      Rule(Pattern(Some(L), Some(Top), Some(Right)), Pattern(Some(U), Some(Bottom), Some(Right))),
      Rule(Pattern(Some(L), Some(Middle), Some(Right)), Pattern(Some(U), Some(Bottom), Some(Center))),
      Rule(Pattern(Some(L), Some(Bottom), Some(Right)), Pattern(Some(U), Some(Bottom), Some(Left))),
      Rule(Pattern(Some(U), Some(Bottom), Some(Left)), Pattern(Some(R), Some(Top), Some(Left))),
      Rule(Pattern(Some(U), Some(Bottom), Some(Center)), Pattern(Some(R), Some(Middle), Some(Left))),
      Rule(Pattern(Some(U), Some(Bottom), Some(Right)), Pattern(Some(R), Some(Bottom), Some(Left))),
      Rule(Pattern(Some(R), Some(Top), Some(Left)), Pattern(Some(D), Some(Top), Some(Right))),
      Rule(Pattern(Some(R), Some(Middle), Some(Left)), Pattern(Some(D), Some(Top), Some(Center))),
      Rule(Pattern(Some(R), Some(Bottom), Some(Left)), Pattern(Some(D), Some(Top), Some(Left))),
      Rule(Pattern(Some(D), Some(Top), Some(Left)), Pattern(Some(L), Some(Top), Some(Right))),
      Rule(Pattern(Some(D), Some(Top), Some(Center)), Pattern(Some(L), Some(Middle), Some(Right))),
      Rule(Pattern(Some(D), Some(Top), Some(Right)), Pattern(Some(L), Some(Bottom), Some(Right)))
    ]
  }

  /** The rules of the quarter turn B (scary-cube.js:109-131). */
  function BRules(): seq<Rule> {
    [
      Rule(Pattern(Some(B), Some(Top), Some(Left)), Pattern(None, Some(Top), Some(Right))),
      Rule(Pattern(Some(B), Some(Top), Some(Center)), Pattern(None, Some(Middle), Some(Right))),
      Rule(Pattern(Some(B), Some(Top), Some(Right)), Pattern(None, Some(Bottom), Some(Right))),
      Rule(Pattern(Some(B), Some(Middle), Some(Right)), Pattern(None, Some(Bottom), Some(Center))),
      Rule(Pattern(Some(B), Some(Bottom), Some(Right)), Pattern(None, Some(Bottom), Some(Left))),
      Rule(Pattern(Some(B), Some(Bottom), Some(Center)), Pattern(None, Some(Middle), Some(Left))),
      Rule(Pattern(Some(B), Some(Bottom), Some(Left)), Pattern(None, Some(Top), Some(Left))),
      Rule(Pattern(Some(B), Some(Middle), Some(Left)), Pattern(None, Some(Top), Some(Center))),
      Rule(Pattern(Some(B), Some(Middle), Some(Center)), Pattern(None, None, None)),
      Rule(Pattern(Some(R), Some(Top), Some(Right)), Pattern(Some(U), Some(Top), Some(Left))),
      Rule(Pattern(Some(R), Some(Middle), Some(Right)), Pattern(Some(U), Some(Top), Some(Center))),
      Rule(Pattern(Some(R), Some(Bottom), Some(Right)), Pattern(Some(U), Some(Top), Some(Right))),
      Rule(Pattern(Some(U), Some(Top), Some(Left)), Pattern(Some(L), Some(Bottom), Some(Left))),
      Rule(Pattern(Some(U), Some(Top), Some(Center)), Pattern(Some(L), Some(Middle), Some(Left))),
      Rule(Pattern(Some(U), Some(Top), Some(Right)), Pattern(Some(L), Some(Top), Some(Left))),
      Rule(Pattern(Some(L), Some(Top), Some(Left)), Pattern(Some(D), Some(Bottom), Some(Left))),
      Rule(Pattern(Some(L), Some(Middle), Some(Left)), Pattern(Some(D), Some(Bottom), Some(Center))),
      Rule(Pattern(Some(L), Some(Bottom), Some(Left)), Pattern(Some(D), Some(Bottom), Some(Right))),
      Rule(Pattern(Some(D), Some(Bottom), Some(Right)), Pattern(Some(R), Some(Top), Some(Right))),
      Rule(Pattern(Some(D), Some(Bottom), Some(Center)), Pattern(Some(R), Some(Middle), Some(Right))),
      Rule(Pattern(Some(D), Some(Bottom), Some(Left)), Pattern(Some(R), Some(Bottom), Some(Right)))
    ]
  }

  /** The rules of the quarter turn M (scary-cube.js:133-142). */
  function MRules(): seq<Rule> {
    [
      Rule(Pattern(Some(U), None, Some(Center)), Pattern(Some(F), None, None)),
      Rule(Pattern(Some(F), None, Some(Center)), Pattern(Some(D), None, None)),
      Rule(Pattern(Some(B), Some(Top), Some(Center)), Pattern(Some(U), Some(Bottom), None)),
      Rule(Pattern(Some(B), Some(Middle), Some(Center)), Pattern(Some(U), None, None)),
      Rule(Pattern(Some(B), Some(Bottom), Some(Center)), Pattern(Some(U), Some(Top), None)),
      Rule(Pattern(Some(D), Some(Top), Some(Center)), Pattern(Some(B), Some(Bottom), None)),
      Rule(Pattern(Some(D), Some(Middle), Some(Center)), Pattern(Some(B), None, None)),
      Rule(Pattern(Some(D), Some(Bottom), Some(Center)), Pattern(Some(B), Some(Top), None))
    ]
  }

  /** The rules of the quarter turn E (scary-cube.js:143-148). */
  function ERules(): seq<Rule> {
    [
      Rule(Pattern(Some(F), Some(Middle), None), Pattern(Some(R), None, None)),
      Rule(Pattern(Some(L), Some(Middle), None), Pattern(Some(F), None, None)),
      Rule(Pattern(Some(B), Some(Middle), None), Pattern(Some(L), None, None)),
      Rule(Pattern(Some(R), Some(Middle), None), Pattern(Some(B), None, None))
    ]
  }

  /** The rules of the quarter turn S (scary-cube.js:149-162). */
  function SRules(): seq<Rule> {
    [
      Rule(Pattern(Some(L), Some(Top), Some(Center)), Pattern(Some(U), Some(Middle), Some(Right))),
      Rule(Pattern(Some(L), Some(Middle), Some(Center)), Pattern(Some(U), Some(Middle), Some(Center))),
      Rule(Pattern(Some(L), Some(Bottom), Some(Center)), Pattern(Some(U), Some(Middle), Some(Left))),
      Rule(Pattern(Some(U), Some(Middle), Some(Left)), Pattern(Some(R), Some(Top), Some(Center))),
      Rule(Pattern(Some(U), Some(Middle), Some(Center)), Pattern(Some(R), Some(Middle), Some(Center))),
      Rule(Pattern(Some(U), Some(Middle), Some(Right)), Pattern(Some(R), Some(Bottom), Some(Center))),
      Rule(Pattern(Some(R), Some(Top), Some(Center)), Pattern(Some(D), Some(Middle), Some(Right))),
      Rule(Pattern(Some(R), Some(Middle), Some(Center)), Pattern(Some(D), Some(Middle), Some(Center))),
      Rule(Pattern(Some(R), Some(Bottom), Some(Center)), Pattern(Some(D), Some(Middle), Some(Left))),
      Rule(Pattern(Some(D), Some(Middle), Some(Left)), Pattern(Some(L), Some(Top), Some(Center))),
      Rule(Pattern(Some(D), Some(Middle), Some(Center)), Pattern(Some(L), Some(Middle), Some(Center))),
      Rule(Pattern(Some(D), Some(Middle), Some(Right)), Pattern(Some(L), Some(Bottom), Some(Center)))
    ]
  }

  /** The move table, indexed by the first character of a token (scary-cube.js:12-166). */
  function AllMoves(c: char): Option<MoveDef> {
    match c
    case 'U' => Some(Primitive)
    case 'u' => Some(Composite("UEEE"))
    case 'D' => Some(Primitive)
    case 'd' => Some(Composite("DE"))
    case 'R' => Some(Primitive)
    case 'r' => Some(Composite("RMMM"))
    case 'L' => Some(Primitive)
    case 'l' => Some(Composite("LM"))
    case 'F' => Some(Primitive)
    case 'f' => Some(Composite("FS"))
    case 'B' => Some(Primitive)
    case 'b' => Some(Composite("BSSS"))
    case 'M' => Some(Primitive)
    case 'E' => Some(Primitive)
    case 'S' => Some(Primitive)
    case 'x' => Some(Composite("RLLLMMM"))
    case 'y' => Some(Composite("UDDDEEE"))
    case 'z' => Some(Composite("FSBBB"))
    case _ => None
  }

  predicate IsPrimitive(c: char) {
    AllMoves(c).Some? && AllMoves(c).value.Primitive?
  }

  /** The rule list of a quarter turn's entry in the move table. */
  function RulesOf(c: char): seq<Rule>
    requires IsPrimitive(c)
  {
    match c
    case 'U' => URules()
    case 'D' => DRules()
    case 'R' => RRules()
    case 'L' => LRules()
    case 'F' => FRules()
    case 'B' => BRules()
    case 'M' => MRules()
    case 'E' => ERules()
    case 'S' => SRules()
  }

  /** The names of the nine quarter turns and of the nine composite moves. */
  const PrimitiveNames: seq<char> := "UDRLFBMES"
  const CompositeNames: seq<char> := "udrlfbxyz"

  /** The table has exactly the eighteen move names as keys, and the quarter turns
      are exactly the nine primitive names. */
  lemma MoveTableKeys(c: char)
    ensures AllMoves(c).Some? <==> c in PrimitiveNames || c in CompositeNames
    ensures IsPrimitive(c) <==> c in PrimitiveNames
  {
  }

  /** Every step of every composite move names a quarter turn, so the applier always
      finds a rule list for it. */
  lemma CompositeStepsArePrimitive(c: char)
    requires AllMoves(c).Some? && AllMoves(c).value.Composite?
    ensures forall s :: s in AllMoves(c).value.steps ==> IsPrimitive(s)
  {
    forall s | s in AllMoves(c).value.steps
      ensures IsPrimitive(s)
    {
      assert s in PrimitiveNames;
      MoveTableKeys(s);
    }
  }

  datatype Speed = Fast | Slow

  /** The rotation the animation class names: `c`, `cc` or `2` in the class name. */
  datatype Rotation = Cw | Ccw | Twice

  /** The animation class of a token: speed, axis and rotation. */
  datatype Hint = Hint(speed: Speed, axis: Axis, rotation: Rotation)

  /** The animation classes of one move name: plain, with `'` and with `2`. */
  function Entry(t: string, plain: Hint, prime: Hint, twice: Hint): Option<Hint> {
    if |t| == 1 then Some(plain)
    else if |t| == 2 && t[1] == '\'' then Some(prime)
    else if |t| == 2 && t[1] == '2' then Some(twice)
    else None
  }

  /** The accepted tokens and their animation classes (scary-cube.js:168-223): the
      table lists the 54 tokens, three per move name; any other string has no class. */
  function TransitionClass(t: string): Option<Hint> {
    if |t| == 0 then None
    else match t[0]
    case 'U' => Entry(t, Hint(Fast, YAxis, Cw), Hint(Fast, YAxis, Ccw), Hint(Slow, YAxis, Twice))
    case 'u' => Entry(t, Hint(Fast, YAxis, Cw), Hint(Fast, YAxis, Ccw), Hint(Slow, YAxis, Twice))
    case 'E' => Entry(t, Hint(Fast, YAxis, Ccw), Hint(Fast, YAxis, Cw), Hint(Slow, YAxis, Twice))
    case 'D' => Entry(t, Hint(Fast, YAxis, Ccw), Hint(Fast, YAxis, Cw), Hint(Slow, YAxis, Twice))
    case 'd' => Entry(t, Hint(Fast, YAxis, Ccw), Hint(Fast, YAxis, Cw), Hint(Slow, YAxis, Twice))
    case 'M' => Entry(t, Hint(Fast, XAxis, Ccw), Hint(Fast, XAxis, Cw), Hint(Slow, XAxis, Twice))
    case 'L' => Entry(t, Hint(Fast, XAxis, Ccw), Hint(Fast, XAxis, Cw), Hint(Slow, XAxis, Twice))
    case 'l' => Entry(t, Hint(Fast, XAxis, Ccw), Hint(Fast, XAxis, Cw), Hint(Slow, XAxis, Twice))
    case 'R' => Entry(t, Hint(Fast, XAxis, Cw), Hint(Fast, XAxis, Ccw), Hint(Slow, XAxis, Twice))
    case 'r' => Entry(t, Hint(Fast, XAxis, Cw), Hint(Fast, XAxis, Ccw), Hint(Slow, XAxis, Twice))
    case 'B' => Entry(t, Hint(Fast, ZAxis, Ccw), Hint(Fast, ZAxis, Cw), Hint(Slow, ZAxis, Twice))
    case 'b' => Entry(t, Hint(Fast, ZAxis, Ccw), Hint(Fast, ZAxis, Cw), Hint(Slow, ZAxis, Twice))
    case 'F' => Entry(t, Hint(Fast, ZAxis, Cw), Hint(Fast, ZAxis, Ccw), Hint(Slow, ZAxis, Twice))
    case 'f' => Entry(t, Hint(Fast, ZAxis, Cw), Hint(Fast, ZAxis, Ccw), Hint(Slow, ZAxis, Twice))
    case 'S' => Entry(t, Hint(Fast, ZAxis, Cw), Hint(Fast, ZAxis, Ccw), Hint(Slow, ZAxis, Twice))
    case 'x' => Entry(t, Hint(Fast, XAxis, Cw), Hint(Fast, XAxis, Ccw), Hint(Slow, XAxis, Twice))
    case 'z' => Entry(t, Hint(Fast, ZAxis, Cw), Hint(Fast, ZAxis, Ccw), Hint(Slow, ZAxis, Twice))
    case 'y' => Entry(t, Hint(Fast, YAxis, Cw), Hint(Fast, YAxis, Ccw), Hint(Slow, YAxis, Twice))
    case _ => None
  }

  predicate IsToken(t: string) {
    TransitionClass(t).Some?
  }

  /** A token is one of the eighteen move names, alone or followed by `'` or `2`. */
  lemma TokenShape(t: string)
    ensures IsToken(t) <==>
      1 <= |t| <= 2 && (t[0] in PrimitiveNames || t[0] in CompositeNames) &&
      (|t| == 2 ==> t[1] == '\'' || t[1] == '2')
  {
  }
}
