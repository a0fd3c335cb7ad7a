/** The permutation applier: each step scans its rule list against a snapshot of
    the facelets taken at the start of the step, rewrites the position of every
    matching facelet and flags it as moving in the pre-move copy. */
module Applier {
  import opened Facelets
  import opened Notation

  /** Where one pass over `rules` sends a facelet at `q`. Every matching rule
      overwrites the position, so the last matching rule decides; without a match
      the facelet stays. */
  function Scan(rules: seq<Rule>, q: Position): Position {
    if |rules| == 0 then q
    else if Matches(rules[|rules| - 1].source, q) then Relocate(rules[|rules| - 1].destination, q)
    else Scan(rules[..|rules| - 1], q)
  }

  /** Some rule of `rules` matches `q`. */
  predicate Touches(rules: seq<Rule>, q: Position) {
    exists k :: 0 <= k < |rules| && Matches(rules[k].source, q)
  }

  /** A facelet no rule matches keeps its position. */
  lemma {:induction false} ScanUntouched(rules: seq<Rule>, q: Position)
    requires !Touches(rules, q)
    ensures Scan(rules, q) == q
  {
    if |rules| > 0 {
      ScanUntouched(rules[..|rules| - 1], q);
    }
  }

  /** When the sources are pairwise disjoint, the one matching rule decides, so the
      order in which the rules are written does not matter. */
  lemma {:induction false} ScanUnique(rules: seq<Rule>, k: int, q: Position)
    requires SourcesDisjoint(rules)
    requires 0 <= k < |rules| && Matches(rules[k].source, q)
    ensures Scan(rules, q) == Relocate(rules[k].destination, q)
  {
    var n := |rules| - 1;
    if k < n {
      if Matches(rules[n].source, q) {
        DisjointNoCommonMatch(rules[k].source, rules[n].source, q);
      }
      assert SourcesDisjoint(rules[..n]) by {
        forall i, j | 0 <= i < j < n
          ensures Disjoint(rules[..n][i].source, rules[..n][j].source)
        {
          assert rules[..n][i] == rules[i] && rules[..n][j] == rules[j];
        }
      }
      ScanUnique(rules[..n], k, q);
    }
  }

  /** Every step names a quarter turn. */
  predicate AllPrimitive(steps: seq<char>) {
    forall i :: 0 <= i < |steps| ==> IsPrimitive(steps[i])
  }

  /** Where the steps, applied in order, send a facelet at `q`. */
  function PositionAfter(steps: seq<char>, q: Position): Position
    requires AllPrimitive(steps)
  {
    if |steps| == 0 then q
    else Scan(RulesOf(steps[|steps| - 1]), PositionAfter(steps[..|steps| - 1], q))
  }

  /** Some rule of some step matches the facelet that starts at `q`, at the
      position it has when that step begins. */
  predicate TouchedAlong(steps: seq<char>, q: Position)
    requires AllPrimitive(steps)
  {
    |steps| > 0 &&
    (TouchedAlong(steps[..|steps| - 1], q) ||
     Touches(RulesOf(steps[|steps| - 1]), PositionAfter(steps[..|steps| - 1], q)))
  }

  /** The facelets after the steps: each at its new position, colour and flag kept. */
  function Apply(faces: seq<Facelet>, steps: seq<char>): seq<Facelet>
    requires AllPrimitive(steps)
  {
    seq(|faces|, i requires 0 <= i < |faces| => faces[i].MovedTo(PositionAfter(steps, faces[i].Pos())))
  }

  /** The pre-move copy shown while the move is animated: positions kept, matched
      facelets flagged as moving. */
  function Staged(faces: seq<Facelet>, steps: seq<char>): seq<Facelet>
    requires AllPrimitive(steps)
  {
    seq(|faces|, i requires 0 <= i < |faces| =>
      faces[i].(moving := faces[i].moving || TouchedAlong(steps, faces[i].Pos())))
  }

  /** One step: every rule in turn, matched against the snapshot `oldFaces` taken
      before the step, overwrites the position fields of the matching facelets in
      `next` and flags them in `original`. */
  method ScanInto(next: array<Facelet>, original: array<Facelet>, rules: seq<Rule>)
    requires next != original && next.Length == original.Length
    modifies next, original
    ensures forall i :: 0 <= i < next.Length ==> next[i] == old(next[i]).MovedTo(Scan(rules, old(next[i]).Pos()))
    ensures forall i :: 0 <= i < next.Length ==>
      original[i] == old(original[i]).(moving := old(original[i]).moving || Touches(rules, old(next[i]).Pos()))
  {
    var oldFaces := next[..];
    var before := original[..];
    for r := 0 to |rules|
      invariant forall i :: 0 <= i < next.Length ==> next[i] == oldFaces[i].MovedTo(Scan(rules[..r], oldFaces[i].Pos()))
      invariant forall i :: 0 <= i < next.Length ==>
        original[i] == before[i].(moving := before[i].moving || Touches(rules[..r], oldFaces[i].Pos()))
    {
      assert rules[..r + 1][..r] == rules[..r];
      var rule := rules[r];
      for index := 0 to next.Length
        invariant forall i :: 0 <= i < index ==> next[i] == oldFaces[i].MovedTo(Scan(rules[..r + 1], oldFaces[i].Pos()))
        invariant forall i :: index <= i < next.Length ==> next[i] == oldFaces[i].MovedTo(Scan(rules[..r], oldFaces[i].Pos()))
        invariant forall i :: 0 <= i < index ==>
          original[i] == before[i].(moving := before[i].moving || Touches(rules[..r + 1], oldFaces[i].Pos()))
        invariant forall i :: index <= i < next.Length ==>
          original[i] == before[i].(moving := before[i].moving || Touches(rules[..r], oldFaces[i].Pos()))
      {
        var face := oldFaces[index];
        if Matches(rule.source, face.Pos()) {
          next[index] := next[index].(side := rule.destination.side.GetOr(face.side),
                                      vPos := rule.destination.vPos.GetOr(face.vPos),
                                      hPos := rule.destination.hPos.GetOr(face.hPos));
          original[index] := original[index].(moving := true);
        }
      }
    }
    assert rules[..|rules|] == rules;
  }

  /** Applies the steps as the source does: the working copy `next` and the pre-move
      copy `original` start as copies of `faces`, and every step scans its rules
      against a fresh snapshot. */
  method ApplySteps(faces: seq<Facelet>, steps: seq<char>) returns (newFaces: seq<Facelet>, originalFaces: seq<Facelet>)
    requires AllPrimitive(steps)
    ensures newFaces == Apply(faces, steps)
    ensures originalFaces == Staged(faces, steps)
  {
    var next := new Facelet[|faces|](i requires 0 <= i < |faces| => faces[i]);
    var original := new Facelet[|faces|](i requires 0 <= i < |faces| => faces[i]);
    for s := 0 to |steps|
      invariant forall i :: 0 <= i < |faces| ==> next[i] == faces[i].MovedTo(PositionAfter(steps[..s], faces[i].Pos()))
      invariant forall i :: 0 <= i < |faces| ==>
        original[i] == faces[i].(moving := faces[i].moving || TouchedAlong(steps[..s], faces[i].Pos()))
    {
      assert steps[..s + 1][..s] == steps[..s];
      ScanInto(next, original, RulesOf(steps[s]));
    }
    assert steps[..|steps|] == steps;
    newFaces := next[..];
    originalFaces := original[..];
  }
}
