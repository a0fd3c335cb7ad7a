# scary-cube: the cube engine, modelled in Dafny

`scary-cube` is a web component that shows a 3×3×3 cube. This project models its
logical engine: the facelet state, the move tables, move expansion, the applier, the
validating `faces` setter, the solved check and the move-queue state machine. It also
proves properties of that model.

- **State.** The state is a sequence of facelets. Each facelet has a side (U, D, R, L,
  F, B), a vertical position (top, middle, bottom), a horizontal position (left,
  center, right), a colour and a `moving` flag (`Facelets`). `SolvedCube` is the
  canonical state. `CheckSolved` is the per-side uniformity loop of `isSolved`.
- **Move tables** (`Notation`):
  - The nine primitive turns U, D, R, L, F, B, M, E and S are literal lists of
    source/destination rules. An absent pattern field means "any" in a source and
    "keep" in a destination.
  - The nine composite turns u, d, r, l, f, b, x, y and z are lists of primitive names.
  - The animation-class table becomes `TransitionClass`. It has the same 54 keys. Its
    values are abstracted to a `Hint` (speed, axis, rotation) in place of CSS class
    strings.
- **Table geometry** (`Geometry`, `TableTurns`):
  - Every primitive table has pairwise disjoint sources.
  - On every position, each primitive table agrees with a geometric quarter turn of one
    layer about one axis. `Geometry` gives each position sticker coordinates.
  - Turn periodicity, cancellation and bijectivity are proved once, in `Geometry`. They
    carry over to every table, every composite and every token.
- **Expansion** (`Expansion`):
  - The first character of a token selects the table entry.
  - The second character sets the repeat count: `'` gives 3, `2` gives 2, anything
    else 1.
  - A composite's step list is repeated as a block. A primitive is repeated as itself.
- **Applier** (`Applier`, `Moves`):
  - Each step takes a snapshot of the state. It runs the rules in the outer loop and the
    facelets in the inner loop, and writes the destination fields on every match. So a
    facelet matched by two rules would take the last one.
  - `ScanInto` keeps the two arrays and the two loops. Because the tables are disjoint,
    each facelet is moved by its one matching rule.
  - `Moves` proves the following:
    - Applying any token keeps a state a cover of the 54 positions and keeps every
      colour count.
    - A facelet is flagged `moving` exactly when its layer turns.
    - Four applications of a token are the identity. `X'` undoes `X`, `X2` is `X`
      twice, and `X2` twice is the identity.
    - One turn of any face, slice or pair of adjacent layers unsolves the solved cube.
- **Validation** (`Validation`):
  - The setter's checks run in the source's order: length, missing fields, side, vPos,
    hPos, colour, colour count, duplicate position.
  - The first error wins, and each cause raises its own error: missing field, the
    field outside its domain, colour over-use, or duplicate position.
  - A validated state is exactly one that covers every position once with nine
    stickers of each colour.
- **Intake** (`Intake`):
  - A string of moves is split on single spaces.
  - Tokens that are not keys of the animation-class table are dropped.
  - The rest are tagged with the caller's `silent` flag.
- **Session** (`Session.ScaryCube`):
  - A class with the element's fields: `faces`, `newFaces`, `queue`, `moving` and
    `moveClass`.
  - Its methods are `addMoves`, `addMove`, `reset`, the `faces` setter, `_performMove`
    and `_transitionHandler`.
  - Dispatched events and "run the move handler after the next render" requests are
    appended to a ghost event log. The environment may call `PerformMove` and
    `TransitionHandler` at any time; this stands for the render callback and the
    `transitionend` listener.
  - Every method keeps `Valid()`: the current state and any staged state are legal
    cubes, and an idle cube has an empty queue.

## Model

| member | source | states |
|---|---|---|
| Facelets.SolvedCube | scary-cube.js:291-308 | the canonical state covers every position once; facelet i sits at the i-th position in side, vPos, hPos order; it has its side's colour and is not moving; every side is uniform |
| Facelets.SolvedNineOfEach | scary-cube.js:291-308 | the canonical state holds exactly nine facelets of each colour |
| Facelets.CheckSolved | scary-cube.js:315-326 | the loop returns true exactly when all facelets on each side share one colour |
| Facelets.NineOfEach | scary-cube.js:342-368 | 54 facelets with at most nine of each of the six colours have exactly nine of each |
| Facelets.CoverHasEveryPosition | scary-cube.js:343-373 | 54 facelets at pairwise distinct positions occupy every one of the 54 positions |
| Notation.MoveTableKeys | scary-cube.js:12-166 | the move table has an entry exactly for the nine primitive and nine composite names; the primitives are U D R L F B M E S |
| Notation.CompositeStepsArePrimitive | scary-cube.js:28-165 | every name in a composite's step list is a primitive rule list |
| Notation.TokenShape | scary-cube.js:168-223 | a string is a key of the animation-class table exactly when it is one of the 18 move names, alone or followed by `'` or `2` |
| TableTurns.UIsQuarterTurn | scary-cube.js:13-27 | U's sources are pairwise disjoint; U moves the top layer one quarter turn about the vertical axis and leaves every other facelet in place |
| TableTurns.DIsQuarterTurn | scary-cube.js:29-43 | D's sources are pairwise disjoint; D is a quarter turn of the bottom layer, the reverse sense of U |
| TableTurns.RIsQuarterTurn | scary-cube.js:45-63 | R's sources are pairwise disjoint; R is a quarter turn of the right layer |
| TableTurns.LIsQuarterTurn | scary-cube.js:65-83 | L's sources are pairwise disjoint; L is a quarter turn of the left layer, the reverse sense of R |
| TableTurns.FIsQuarterTurn | scary-cube.js:85-107 | F's sources are pairwise disjoint; F is a quarter turn of the front layer |
| TableTurns.BIsQuarterTurn | scary-cube.js:109-131 | B's sources are pairwise disjoint; B is a quarter turn of the back layer, the reverse sense of F |
| TableTurns.MIsQuarterTurn | scary-cube.js:133-142 | M's sources are pairwise disjoint; M is a quarter turn of the middle x-layer in L's sense |
| TableTurns.EIsQuarterTurn | scary-cube.js:143-148 | E's sources are pairwise disjoint; E is a quarter turn of the middle y-layer in D's sense |
| TableTurns.SIsQuarterTurn | scary-cube.js:149-162 | S's sources are pairwise disjoint; S is a quarter turn of the middle z-layer in F's sense |
| TableTurns.PrimitiveIsQuarterTurn | scary-cube.js:13-162 | every primitive table has disjoint sources and is its quarter turn, so which matching rule writes last does not matter |
| Expansion.ExpandSteps | scary-cube.js:786-796 | the loop builds `count` copies of the composite's step list, or `count` copies of the primitive's own name |
| Expansion.TokenRepeatCount | scary-cube.js:773-780 | for an accepted token the count is 3 after `'`, 2 after `2`, and 1 for a bare name |
| Expansion.ExpandDefined | scary-cube.js:767-785 | a token expands exactly when it is non-empty and its first character is a move-table key |
| Expansion.TokenExpands | scary-cube.js:781-785 | every accepted token has a move-table entry, so the skip branch never fires for it |
| Expansion.ExpandedStepsArePrimitive | scary-cube.js:786-801 | every expanded step names a primitive rule list, so the applier's table lookup always succeeds |
| Applier.ScanUnique | scary-cube.js:802-815 | with disjoint sources, a facelet matched by rule k ends at rule k's destination, whatever the rule order |
| Applier.ScanUntouched | scary-cube.js:802-815 | a facelet matched by no rule keeps its position |
| Applier.ScanInto | scary-cube.js:801-816 | one step's nested loops: each facelet moves to where the rule scan sends its snapshot position, keeping its colour; its `originalFaces` twin gains the moving flag exactly when some rule matched |
| Applier.ApplySteps | scary-cube.js:798-817 | the copies and step loop return the applied state and the staged state with moving flags |
| Moves.ApplyKeepsCover | scary-cube.js:798-817 | applying expanded steps to a state covering every position once yields such a state |
| Moves.ApplyKeepsColorCounts | scary-cube.js:798-817 | applying steps keeps every colour count, since colour is never written |
| Moves.StagedKeepsCover | scary-cube.js:798-817 | the staged state keeps the pre-move positions, so it is a cover when the input is |
| Moves.StagedKeepsColorCounts | scary-cube.js:798-817 | the staged state keeps every colour count |
| Moves.UntouchedStays | scary-cube.js:798-817 | a facelet matched by no rule of any step keeps its position |
| Moves.PositionAfterInjective | scary-cube.js:798-817 | no two positions are sent to the same place by a run of steps |
| Moves.PositionAfterConcat | scary-cube.js:798-817 | running two step lists one after the other equals running their concatenation |
| Moves.BlockMotion | scary-cube.js:28-165 | each move name turns a fixed set of layers about one axis: a face, two adjacent layers (lower-case), or the whole cube (x, y, z) |
| Moves.TokenTurns | scary-cube.js:767-817 | an accepted token moves every position as the geometric turn of its layers by its count of quarter turns |
| Moves.TokenTouches | scary-cube.js:798-817 | a facelet is flagged moving by a token exactly when its layer turns, centres matched by empty destinations included |
| Moves.FourTimesIsIdentity | scary-cube.js:13-165 | four applications of any token's steps return every position to itself |
| Moves.PrimeUndoes | scary-cube.js:773-780 | `X` followed by `X'`, and `X'` followed by `X`, return every position to itself |
| Moves.HalfTurnTwice | scary-cube.js:778-780 | `X2` applied twice returns every position to itself |
| Moves.HalfTurnIsTwoTurns | scary-cube.js:778-796 | for every move name, the steps of `X2` are the steps of `X` twice over, so every facelet ends where `X` followed by `X` takes it |
| Moves.TurnUnsolves | scary-cube.js:12-166 | one turn of any face, slice or pair of adjacent layers (every move name but x, y and z) leaves the solved cube unsolved: some side then shows two colours |
| Moves.HintMatchesMotion | scary-cube.js:168-223 | each token's animation hint names the axis the token turns about; it is clockwise, counter-clockwise or a half turn as the token's quarter turns modulo 4 are 1, 3 or 2; it is slow exactly for half turns |
| Validation.ParseSideName | scary-cube.js:351-353 | a side name is accepted exactly when it is one of the six listed, and parsing is the inverse of naming |
| Validation.ParseVPosName | scary-cube.js:354-356 | the same for the three vPos names |
| Validation.ParseHPosName | scary-cube.js:357-359 | the same for the three hPos names |
| Validation.ParseColorName | scary-cube.js:361-364 | the same for the six colour names |
| Validation.CheckFaceMeaning | scary-cube.js:347-373 | one entry passes exactly when it is well formed, its colour has been seen fewer than nine times and its position not at all; the tallies then record it |
| Validation.RunMeaning | scary-cube.js:347-381 | the entries pass exactly when all are well formed, their positions are distinct and no colour exceeds nine |
| Validation.FirstErrorStands | scary-cube.js:347-381 | once an entry throws, later entries do not change the error |
| Validation.ErrorAtEntry | scary-cube.js:347-381 | when the entries before k pass and entry k fails its check, the setter throws entry k's error |
| Validation.MalformedEntryError | scary-cube.js:347-364 | for the first entry that fails, a missing or empty field throws the missing-field error; otherwise the first of side, vPos, hPos, colour outside its domain throws that field's error, naming the value |
| Validation.RejectedEntryError | scary-cube.js:365-373 | for the first well-formed entry that fails, a colour already seen nine times throws the over-use error for that colour; otherwise a position already taken throws the duplicate error for that position |
| Validation.ValidateMeaning | scary-cube.js:339-381 | a wrong length is refused first; a state is accepted exactly when it has 54 well-formed entries at distinct positions with nine of each colour; the result is the entries with `moving` false, covering every position once |
| Validation.ValidateFaces | scary-cube.js:339-381 | the setter's loop with its colour counts and seen-position set returns the verdict of the checks above |
| Validation.CheckEntry | scary-cube.js:347-373 | one iteration raises the colour count before the duplicate test, as the source does, and agrees with the one-entry check |
| Validation.ExportRoundTrip | scary-cube.js:335-390 | a legal state read through the getter and written back through the setter is accepted, unchanged except for cleared moving flags |
| Intake.JoinSplit | scary-cube.js:674-676 | splitting on single spaces loses nothing: joining the pieces gives back the string |
| Intake.SplitJoin | scary-cube.js:674-676 | splitting the join of space-free pieces gives back the pieces |
| Intake.KeepMeaning | scary-cube.js:678 | the filter keeps exactly the accepted tokens and is idempotent; it works token by token, keeping an accepted token once and dropping any other, and the kept tokens of a concatenation are those of its parts in turn, so input order and repetitions are kept |
| Intake.AsWrittenAcceptsNonMove | scary-cube.js:678 | the filter as written lets "toString" through; it is not a move and the applier skips it |
| Intake.AsWrittenKeyTestAcceptsNonMove | scary-cube.js:704 | the single-move key test as written accepts "toString", which is not an accepted token |
| Intake.KeepIsCorrectedFilter | scary-cube.js:678 | the corrected filter agrees with the filter as written on every input free of prototype member names |
| Session.MoveKeepsLegal | scary-cube.js:798-827 | a committed or staged move keeps a legal cube legal |
| Session.ScaryCube.constructor | scary-cube.js:392-408 | a new element holds the solved state, an empty queue, and is idle |
| Session.ScaryCube.GetFaces | scary-cube.js:335-337 | the getter returns a copy of the current facelets |
| Session.ScaryCube.IsSolved | scary-cube.js:315-326 | true exactly when every side is uniform |
| Session.ScaryCube.AddMoves | scary-cube.js:673-692 | the accepted tokens join the queue in input order, each tagged with `silent`; with none accepted nothing changes; the handler is scheduled only when the cube was idle |
| Session.ScaryCube.AddMove | scary-cube.js:700-713 | an accepted token joins the queue and the handler is scheduled only when the cube was idle; anything else changes nothing |
| Session.ScaryCube.Reset | scary-cube.js:729-736 | the solved state, an empty queue, no animation class and not moving; a later transition handler therefore does nothing |
| Session.ScaryCube.SetFaces | scary-cube.js:339-390 | an invalid state throws the first error and changes nothing; a valid one becomes the facelets, clears the animation class and cancels a running queue |
| Session.ScaryCube.PerformMove | scary-cube.js:750-828 | on an empty queue the cube goes idle and reports `cube-solved` exactly when solved; otherwise the head is taken off the queue; a silent or class-less move is committed and reported; any other move is staged with the applied state kept for the end of the animation |
| Session.ScaryCube.TransitionHandler | scary-cube.js:830-837 | only while moving: the staged state becomes current, the class is cleared, `move-finished` is reported and the handler is scheduled |

## Left out

- Rendering, the CSS text and the per-face class lists are presentation only (scary-cube.js:430-620).
- The resize and drag handlers and `setOrientation` are left out. They do floating-point view geometry and do not touch the facelets.
- Lifecycle callbacks and element registration are glue to the component framework.
- `afterNextRender` and the `transitionend` event are not modelled as timing or concurrency. Each request is a `Scheduled` entry in the event log, and the environment may call `PerformMove` and `TransitionHandler` at any time.
- `dispatchEvent` appends `MoveFinished` or `CubeSolved` to a ghost event log.
- The JSON deep copies are value copies of a sequence.
- The CSS class strings of the animation table are abstracted to a `Hint`. Only key membership drives the logic.
- Session.ScaryCube.TransitionHandler: when no animated move has run yet, `_newFaces` is undefined and the source would install `undefined` as the faces. The model keeps the current facelets in that case. The source reaches this only when the handler runs while moving before any animated move has been staged.
- The `!move` branch of `_performMove` is not modelled. It is unreachable: the queue holds only entry objects.
- Inputs that are neither strings nor arrays, non-string field values, and the truthiness of arbitrary `silent` values are not modelled. `silent` is a boolean and field values are optional strings.
- The duplicate check keys a dictionary by the string "side vPos hPos". The model keys a set by the parsed position, which is the same relation once all three fields are valid.
- Session.ScaryCube.AddMoves: uses the corrected intake filter `Keep` rather than the truthy lookup at scary-cube.js:678 (see Findings). The filter as written is modelled beside it as `AcceptedAsWritten`.
- Session.ScaryCube.AddMove: tests the move with the corrected key test `IsToken` rather than the truthy lookup at scary-cube.js:704 (see Findings), so a prototype member name such as `toString` is not queued.

## Findings

| source | as written | input that shows it | evidently intended | confidence | as-written member | corrected member |
|---|---|---|---|---|---|---|
| scary-cube.js:678 | the filter accepts any string for which the animation-class lookup is truthy, inherited object members included | `addMoves("toString")` queues `toString` and schedules the handler; `_performMove` then finds no move for `t` and skips it | only the 54 move tokens are queued | not executed | Intake.AsWrittenAcceptsNonMove | Intake.KeepIsCorrectedFilter |
| scary-cube.js:704 | the single-move intake accepts any string for which the animation-class lookup is truthy, inherited object members included | `addMove("toString")` queues `toString` and schedules the handler; `_performMove` then skips it | only the 54 move tokens are queued | not executed | Intake.AsWrittenKeyTestAcceptsNonMove | Session.ScaryCube.AddMove |
