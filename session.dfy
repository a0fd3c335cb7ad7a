/** The cube element: the current facelets, the queue of pending moves, the `moving`
    flag, the staged post-move state and the animation class, and the operations that
    change them. Events and render callbacks are recorded in a log. */
module Session {
  import opened Wrappers
  import opened Facelets
  import opened Notation
  import opened Expansion
  import opened Applier
  import opened Moves
  import opened Validation
  import opened Intake

  /** What the element asks its environment for: a dispatched `move-finished` or
      `cube-solved` event, or a run of the move handler after the next render. */
  datatype Event = MoveFinished | CubeSolved | Scheduled

  /** The facelets form a cover of the 54 positions with nine stickers of each colour. */
  ghost predicate Legal(faces: seq<Facelet>) {
    IsCover(faces) && forall c :: ColorCount(faces, c) == 9
  }

  /** The state left by a committed or staged move is legal when the state before was. */
  lemma MoveKeepsLegal(faces: seq<Facelet>, steps: seq<char>)
    requires AllPrimitive(steps)
    requires Legal(faces)
    ensures Legal(Apply(faces, steps)) && Legal(Staged(faces, steps))
  {
    ApplyKeepsCover(faces, steps);
    StagedKeepsCover(faces, steps);
    forall c ensures ColorCount(Apply(faces, steps), c) == 9 && ColorCount(Staged(faces, steps), c) == 9 {
      ApplyKeepsColorCounts(faces, steps, c);
      StagedKeepsColorCounts(faces, steps, c);
    }
  }

  class ScaryCube {
    var faces: seq<Facelet>
    /** The state a running animation ends in; None until the first animated move. */
    var newFaces: Option<seq<Facelet>>
    var queue: seq<QueuedMove>
    var moving: bool
    /** The animation hint of the running move; None stands for the empty class. */
    var moveClass: Option<Hint>
    ghost var events: seq<Event>

    /** The state is legal, any staged state is legal, and an idle cube has nothing queued. */
    ghost predicate Valid()
      reads this
    {
      Legal(faces) &&
      (newFaces.Some? ==> Legal(newFaces.value)) &&
      (!moving ==> queue == [])
    }

    /** Every queued entry is a key of the animation-class table. */
    ghost predicate QueueAccepted()
      reads this
    {
      forall i :: 0 <= i < |queue| ==> IsToken(queue[i].move)
    }

    constructor ()
      ensures Valid() && QueueAccepted()
      ensures faces == SolvedCube() && queue == [] && !moving
      ensures newFaces == None && moveClass == None && events == []
    {
      faces := SolvedCube();
      newFaces := None;
      queue := [];
      moving := false;
      moveClass := None;
      events := [];
      SolvedNineOfEach();
    }

    /** A copy of the current facelets. */
    method GetFaces() returns (copy: seq<Facelet>)
      ensures copy == faces
    {
      copy := faces;
    }

    /** Whether every side shows a single colour. */
    method IsSolved() returns (solved: bool)
      ensures solved == PerSideUniform(faces)
    {
      solved := CheckSolved(faces);
    }

    /** Queues the accepted tokens of `input` in order, each tagged with `silent`, and
        starts the move handler when the cube was idle. Nothing happens when no token
        is accepted. */
    method AddMoves(input: MovesInput, silent: bool)
      requires Valid()
      modifies this
      ensures Valid()
      ensures old(QueueAccepted()) ==> QueueAccepted()
      ensures faces == old(faces) && newFaces == old(newFaces) && moveClass == old(moveClass)
      ensures Keep(Candidates(input)) == [] ==>
        queue == old(queue) && moving == old(moving) && events == old(events)
      ensures Keep(Candidates(input)) != [] ==>
        queue == old(queue) + Tagged(Keep(Candidates(input)), silent) && moving &&
        events == old(events) + (if old(moving) then [] else [Scheduled])
    {
      var moves: seq<string>;
      match input {
        case Text(s) => moves := Split(s);
        case List(ms) => moves := ms;
      }
      moves := Keep(moves);
      if |moves| == 0 {
        return;
      }
      for i := 0 to |moves|
        invariant queue == old(queue) + Tagged(moves[..i], silent)
        invariant faces == old(faces) && newFaces == old(newFaces) && moveClass == old(moveClass)
        invariant moving == old(moving) && events == old(events)
      {
        assert moves[..i + 1] == moves[..i] + [moves[i]];
        queue := queue + [QueuedMove(moves[i], silent)];
      }
      assert moves[..|moves|] == moves;
      if !moving {
        moving := true;
        events := events + [Scheduled];
      }
    }

    /** Queues one token when it is accepted and starts the move handler when the cube
        was idle. */
    method AddMove(move: string, silent: bool)
      requires Valid()
      modifies this
      ensures Valid()
      ensures old(QueueAccepted()) ==> QueueAccepted()
      ensures faces == old(faces) && newFaces == old(newFaces) && moveClass == old(moveClass)
      ensures !IsToken(move) ==> queue == old(queue) && moving == old(moving) && events == old(events)
      ensures IsToken(move) ==>
        queue == old(queue) + [QueuedMove(move, silent)] && moving &&
        events == old(events) + (if old(moving) then [] else [Scheduled])
    {
      if TransitionClass(move).None? {
        return;
      }
      queue := queue + [QueuedMove(move, silent)];
      if !moving {
        moving := true;
        events := events + [Scheduled];
      }
    }

    /** Returns to the solved state, dropping pending moves and any running animation. */
    method Reset()
      requires Valid()
      modifies this
      ensures Valid() && QueueAccepted()
      ensures faces == SolvedCube() && moveClass == None && !moving && queue == []
      ensures newFaces == old(newFaces) && events == old(events)
    {
      if moving {
        moving := false;
        queue := [];
      }
      moveClass := None;
      faces := SolvedCube();
      SolvedNineOfEach();
    }

    /** Installs validated facelets. An invalid input is refused with the first error the
        source would throw, and nothing changes; a valid one cancels pending moves and any
        running animation. */
    method SetFaces(input: seq<RawFace>) returns (outcome: Result<(), FaceError>)
      requires Valid()
      modifies this
      ensures Valid()
      ensures outcome.Ok? <==> Acceptable(input)
      ensures outcome.Err? ==>
        Validate(input) == Err(outcome.error) &&
        faces == old(faces) && queue == old(queue) && moving == old(moving) &&
        moveClass == old(moveClass) && newFaces == old(newFaces) && events == old(events)
      ensures outcome.Ok? ==>
        faces == ParseAll(input) && queue == [] && !moving && moveClass == None &&
        newFaces == old(newFaces) && events == old(events)
    {
      var r := ValidateFaces(input);
      ValidateMeaning(input);
      if r.Err? {
        return Err(r.error);
      }
      if moving {
        moving := false;
        queue := [];
      }
      moveClass := None;
      faces := r.value;
      return Ok(());
    }

    /** Takes the next queued move. On an empty queue the cube goes idle and reports
        `cube-solved` when solved. A token without a move-table entry is skipped. A silent
        move, or one without an animation class, is committed at once; any other move is
        staged: the facelets it touches are flagged as moving, the post-move state is kept
        for the end of the animation, and the animation hint is set. */
    method PerformMove()
      requires Valid()
      modifies this
      ensures Valid()
      ensures old(QueueAccepted()) ==> QueueAccepted()
      ensures old(queue) == [] ==>
        !moving && queue == [] && faces == old(faces) && newFaces == old(newFaces) &&
        moveClass == old(moveClass) &&
        events == old(events) + (if PerSideUniform(old(faces)) then [CubeSolved] else [])
      ensures old(queue) != [] ==> moving && queue == old(queue)[1..]
      ensures old(queue) != [] && Expand(old(queue)[0].move).None? ==>
        faces == old(faces) && newFaces == old(newFaces) && moveClass == old(moveClass) &&
        events == old(events) + [Scheduled]
      ensures old(queue) != [] && Expand(old(queue)[0].move).Some? ==>
        var m := old(queue)[0];
        var steps := Expand(m.move).value;
        AllPrimitive(steps) &&
        if m.silent || TransitionClass(m.move).None? then
          faces == Apply(old(faces), steps) && newFaces == old(newFaces) &&
          moveClass == old(moveClass) && events == old(events) + [MoveFinished, Scheduled]
        else
          faces == Staged(old(faces), steps) && newFaces == Some(Apply(old(faces), steps)) &&
          moveClass == TransitionClass(m.move) && events == old(events)
    {
      if |queue| == 0 {
        moving := false;
        var solved := IsSolved();
        if solved {
          events := events + [CubeSolved];
        }
        return;
      }
      var move := queue[0];
      queue := queue[1..];
      moving := true;
      if |move.move| == 0 {
        events := events + [Scheduled];
        return;
      }
      var slice := move.move[0];
      var count := RepeatCount(move.move);
      var def := AllMoves(slice);
      if def.None? {
        events := events + [Scheduled];
        return;
      }
      var steps := ExpandSteps(slice, def.value, count);
      ExpandedStepsArePrimitive(move.move);
      assert AllPrimitive(steps) by {
        forall i | 0 <= i < |steps| ensures IsPrimitive(steps[i]) {
          assert steps[i] in steps;
        }
      }
      var next, original := ApplySteps(faces, steps);
      MoveKeepsLegal(faces, steps);
      var hint := TransitionClass(move.move);
      if move.silent || hint.None? {
        faces := next;
        events := events + [MoveFinished, Scheduled];
      } else {
        newFaces := Some(next);
        faces := original;
        moveClass := hint;
      }
    }

    /** The end of an animation: when a move is running, the staged post-move state
        becomes current, the animation class is cleared, `move-finished` is reported and
        the move handler is scheduled again. */
    method TransitionHandler()
      requires Valid()
      modifies this
      ensures Valid()
      ensures queue == old(queue) && moving == old(moving) && newFaces == old(newFaces)
      ensures !old(moving) ==> faces == old(faces) && moveClass == old(moveClass) && events == old(events)
      ensures old(moving) ==>
        faces == old(newFaces).GetOr(old(faces)) && moveClass == None &&
        events == old(events) + [MoveFinished, Scheduled]
    {
      if moving {
        if newFaces.Some? {
          faces := newFaces.value;
        }
        moveClass := None;
        events := events + [MoveFinished, Scheduled];
      }
    }
  }
}
