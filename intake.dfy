/** Intake of moves: a space-separated string is split on single spaces, tokens that
    are not keys of the animation-class table are dropped, and the rest are queued in
    order, each tagged with the caller's `silent` flag. */
module Intake {
  import opened Wrappers
  import opened Notation
  import opened Expansion

  /** What `addMoves` is given: a string of moves, or a list of them. */
  datatype MovesInput = Text(text: string) | List(moves: seq<string>)

  /** A queue entry: the token and whether it is performed without animation. */
  datatype QueuedMove = QueuedMove(move: string, silent: bool)

  /** Splitting on every single space, as the string split of the source does: two
      spaces in a row give an empty piece, and a string without spaces is one piece. */
  function Split(s: string): (pieces: seq<string>)
    ensures |pieces| >= 1
    ensures forall i :: 0 <= i < |pieces| ==> ' ' !in pieces[i]
    decreases |s|
  {
    if ' ' !in s then [s]
    else
      var i := FirstSpace(s);
      [s[..i]] + Split(s[i + 1..])
  }

  function FirstSpace(s: string): (i: nat)
    requires ' ' in s
    ensures i < |s| && s[i] == ' ' && ' ' !in s[..i]
  {
    if s[0] == ' ' then 0
    else
      assert s == [s[0]] + s[1..];
      var k := FirstSpace(s[1..]);
      assert s[..k + 1] == [s[0]] + s[1..][..k];
      k + 1
  }

  /** The pieces put back together with single spaces. */
  function Join(pieces: seq<string>): string
    requires |pieces| >= 1
  {
    if |pieces| == 1 then pieces[0] else pieces[0] + " " + Join(pieces[1..])
  }

  /** Splitting loses nothing: joining the pieces gives the string back. */
  lemma {:induction false} JoinSplit(s: string)
    ensures Join(Split(s)) == s
    decreases |s|
  {
    if ' ' in s {
      var i := FirstSpace(s);
      var head, tail := s[..i], s[i + 1..];
      JoinSplit(tail);
      assert Split(s) == [head] + Split(tail);
      assert Join(Split(s)) == head + " " + Join(Split(tail));
      assert s == head + " " + tail;
    }
  }

  /** And splitting a join of space-free pieces gives the pieces back. */
  lemma {:induction false} SplitJoin(pieces: seq<string>)
    requires |pieces| >= 1
    requires forall i :: 0 <= i < |pieces| ==> ' ' !in pieces[i]
    ensures Split(Join(pieces)) == pieces
  {
    if |pieces| > 1 {
      var rest := pieces[1..];
      assert forall i :: 0 <= i < |rest| ==> rest[i] == pieces[i + 1];
      SplitJoin(rest);
      SplitFront(pieces[0], Join(rest));
      assert pieces == [pieces[0]] + rest;
    }
  }

  /** A space-free head, a space and a tail split into the head and the tail's pieces. */
  lemma SplitFront(head: string, tail: string)
    requires ' ' !in head
    ensures Split(head + " " + tail) == [head] + Split(tail)
  {
    var s := head + " " + tail;
    assert s[|head|] == ' ';
    var i := FirstSpace(s);
    assert s[..|head|] == head;
    assert i == |head|;
    assert s[i + 1..] == tail;
  }

  /** The tokens of the input before filtering. */
  function Candidates(input: MovesInput): seq<string> {
    match input
    case Text(s) => Split(s)
    case List(ms) => ms
  }

  /** The entries of `xs` that `accept` lets through, in order. */
  function Filter<T>(xs: seq<T>, accept: T -> bool): (kept: seq<T>)
    ensures forall x :: x in kept ==> x in xs && accept(x)
    ensures |kept| <= |xs|
  {
    if |xs| == 0 then []
    else Filter(xs[..|xs| - 1], accept) + (if accept(xs[|xs| - 1]) then [xs[|xs| - 1]] else [])
  }

  /** Every entry `accept` lets through is kept. */
  lemma {:induction false} FilterKeepsAccepted<T>(xs: seq<T>, accept: T -> bool, x: T)
    requires x in xs && accept(x)
    ensures x in Filter(xs, accept)
  {
    var n := |xs| - 1;
    if xs[n] != x {
      assert x in xs[..n] by {
        var i :| 0 <= i < |xs| && xs[i] == x;
        assert xs[..n][i] == x;
      }
      FilterKeepsAccepted(xs[..n], accept, x);
    }
  }

  /** Filtering works piece by piece, so it keeps the input order. */
  lemma {:induction false} FilterConcat<T>(a: seq<T>, b: seq<T>, accept: T -> bool)
    ensures Filter(a + b, accept) == Filter(a, accept) + Filter(b, accept)
  {
    if |b| > 0 {
      var n := |b| - 1;
      assert (a + b)[..|a + b| - 1] == a + b[..n];
      FilterConcat(a, b[..n], accept);
    } else {
      assert a + b == a;
    }
  }

  /** A list whose every entry is accepted passes unchanged, so filtering twice is
      filtering once. */
  lemma {:induction false} FilterAllAccepted<T>(xs: seq<T>, accept: T -> bool)
    requires forall i :: 0 <= i < |xs| ==> accept(xs[i])
    ensures Filter(xs, accept) == xs
  {
    if |xs| > 0 {
      var n := |xs| - 1;
      var front := xs[..n];
      assert forall i :: 0 <= i < |front| ==> front[i] == xs[i];
      FilterAllAccepted(front, accept);
      assert accept(xs[n]);
      assert front + [xs[n]] == xs;
    }
  }

  /** The tokens that are keys of the animation-class table, in input order. */
  function Keep(moves: seq<string>): (kept: seq<string>)
    ensures forall t :: t in kept ==> t in moves && IsToken(t)
  {
    Filter(moves, IsToken)
  }

  /** Exactly the accepted tokens of the input are kept, and kept tokens pass again.
      The filter works token by token: it keeps an accepted token once, drops any
      other, and keeps the order, since the kept tokens of a concatenation are the
      kept tokens of its parts, in turn. */
  lemma KeepMeaning(moves: seq<string>)
    ensures forall t :: t in Keep(moves) <==> t in moves && IsToken(t)
    ensures Keep(Keep(moves)) == Keep(moves)
    ensures forall t :: Keep([t]) == if IsToken(t) then [t] else []
    ensures forall a, b :: Keep(a + b) == Keep(a) + Keep(b)
  {
    forall a, b
      ensures Keep(a + b) == Keep(a) + Keep(b)
    {
      FilterConcat(a, b, IsToken);
    }
    forall t
      ensures Keep([t]) == if IsToken(t) then [t] else []
    {
      assert [t][..0] == [];
    }
    forall t | t in moves && IsToken(t)
      ensures t in Keep(moves)
    {
      FilterKeepsAccepted(moves, IsToken, t);
    }
    var kept := Keep(moves);
    assert forall i :: 0 <= i < |kept| ==> kept[i] in kept;
    FilterAllAccepted(kept, IsToken);
  }

  /** The queue entries for the kept tokens, each tagged with `silent`. */
  function Tagged(moves: seq<string>, silent: bool): (entries: seq<QueuedMove>)
    ensures |entries| == |moves|
    ensures forall i :: 0 <= i < |moves| ==> entries[i] == QueuedMove(moves[i], silent)
  {
    seq(|moves|, i requires 0 <= i < |moves| => QueuedMove(moves[i], silent))
  }

  /** The names Object.prototype gives every plain object. The source looks tokens up
      with `transitionClasses[move]`, and each of these names finds an inherited
      member there (a function, or the prototype itself for `__proto__`), which is a
      truthy value. */
  const PrototypeNames: seq<string> := [
    "constructor", "hasOwnProperty", "isPrototypeOf", "propertyIsEnumerable",
    "toString", "toLocaleString", "valueOf", "__proto__",
    "__defineGetter__", "__defineSetter__", "__lookupGetter__", "__lookupSetter__"]

  /** The filter of the source as written: a token passes when the lookup finds
      something truthy, whether an own key or an inherited member. */
  predicate AcceptedAsWritten(t: string) {
    IsToken(t) || t in PrototypeNames
  }

  /** The key test as written, in both the list filter and the single-move intake,
      lets `toString` through, although it is no move: it is queued, and the applier
      later finds no move-table entry for its first letter and skips it. */
  lemma AsWrittenAcceptsNonMove()
    ensures Filter(["toString"], AcceptedAsWritten) == ["toString"]
    ensures Keep(["toString"]) == []
    ensures Expand("toString") == None
  {
    assert ["toString"][..0] == [];
  }

  /** The single-move key test as written accepts `toString`, which is not a move. */
  lemma AsWrittenKeyTestAcceptsNonMove()
    ensures AcceptedAsWritten("toString") && !IsToken("toString")
  {
    AsWrittenAcceptsNonMove();
    assert "toString" in Filter(["toString"], AcceptedAsWritten);
    KeepMeaning(["toString"]);
  }

  /** The corrected filter, Keep, lets through exactly the accepted tokens: it agrees
      with the filter as written on every string that is not a prototype name. */
  lemma {:induction false} KeepIsCorrectedFilter(moves: seq<string>)
    requires forall i :: 0 <= i < |moves| ==> moves[i] !in PrototypeNames
    ensures Filter(moves, AcceptedAsWritten) == Keep(moves)
  {
    if |moves| > 0 {
      KeepIsCorrectedFilter(moves[..|moves| - 1]);
    }
  }
}
