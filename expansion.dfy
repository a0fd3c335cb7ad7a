/** Expansion of a token into the list of quarter-turn steps the applier performs. */
module Expansion {
  import opened Wrappers
  import opened Notation

  /** How often a token's move is performed: three times when its second character
      is `'`, twice when it is `2`, once otherwise (including a one-character token). */
  function RepeatCount(t: string): nat {
    if |t| >= 2 && t[1] == '\'' then 3
    else if |t| >= 2 && t[1] == '2' then 2
    else 1
  }

  /** `n` copies of `block`, one after the other. */
  function Repeat<T>(block: seq<T>, n: nat): (r: seq<T>)
    ensures |r| == n * |block|
    ensures forall x :: x in r ==> x in block
  {
    if n == 0 then []
    else
      var r := Repeat(block, n - 1) + block;
      assert |r| == n * |block| by {
        assert n * |block| == (n - 1) * |block| + |block|;
      }
      r
  }

  /** What one repetition consists of: a composite move's steps, or the quarter turn
      itself. */
  function Block(c: char, def: MoveDef): seq<char> {
    match def
    case Composite(steps) => steps
    case Primitive => [c]
  }

  /** The steps of a token, or None when the applier skips the token: an empty token,
      or one whose first character is not in the move table. */
  function Expand(t: string): Option<seq<char>> {
    if |t| == 0 then None
    else match AllMoves(t[0])
      case None => None
      case Some(def) => Some(Repeat(Block(t[0], def), RepeatCount(t)))
  }

  /** Builds the step list as the source does, one block per round. */
  method ExpandSteps(slice: char, def: MoveDef, count: nat) returns (steps: seq<char>)
    ensures steps == Repeat(Block(slice, def), count)
  {
    steps := [];
    if def.Composite? {
      for c := 0 to count
        invariant steps == Repeat(def.steps, c)
      {
        steps := steps + def.steps;
      }
    } else {
      for c := 0 to count
        invariant steps == Repeat([slice], c)
      {
        steps := steps + [slice];
      }
    }
  }

  lemma {:induction false} RepeatAdd<T>(block: seq<T>, m: nat, n: nat)
    ensures Repeat(block, m + n) == Repeat(block, m) + Repeat(block, n)
  {
    if n > 0 {
      RepeatAdd(block, m, n - 1);
    }
  }

  /** A repetition also unrolls from the front. */
  lemma RepeatFront<T>(block: seq<T>, n: nat)
    requires n > 0
    ensures Repeat(block, n) == block + Repeat(block, n - 1)
  {
    RepeatAdd(block, 1, n - 1);
  }

  /** The repeat count is 3 for `'`, 2 for `2`, 1 otherwise; so a token's count is 1
      exactly when it is a bare move name. */
  lemma TokenRepeatCount(t: string)
    requires IsToken(t)
    ensures RepeatCount(t) == 1 <==> |t| == 1
    ensures RepeatCount(t) == 3 <==> |t| == 2 && t[1] == '\''
    ensures RepeatCount(t) == 2 <==> |t| == 2 && t[1] == '2'
  {
    TokenShape(t);
  }

  /** Every step of an expansion names a quarter turn, so the applier always finds
      a rule list for it. */
  lemma ExpandedStepsArePrimitive(t: string)
    requires Expand(t).Some?
    ensures forall s :: s in Expand(t).value ==> IsPrimitive(s)
  {
    var def := AllMoves(t[0]).value;
    forall s | s in Expand(t).value
      ensures IsPrimitive(s)
    {
      if def.Composite? {
        CompositeStepsArePrimitive(t[0]);
      } else {
        assert s == t[0];
      }
    }
  }

  /** Every accepted token expands. */
  lemma TokenExpands(t: string)
    requires IsToken(t)
    ensures Expand(t).Some?
  {
    TokenShape(t);
    ExpandDefined(t);
  }

  /** The applier skips exactly the empty tokens and those whose first character is
      not a move name. */
  lemma ExpandDefined(t: string)
    ensures Expand(t).Some? <==> |t| >= 1 && (t[0] in PrimitiveNames || t[0] in CompositeNames)
  {
    if |t| >= 1 {
      MoveTableKeys(t[0]);
    }
  }
}
