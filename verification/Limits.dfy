/** The limits of one push hold of everything the server ever stores and of every canvas drawn from it. */
module Limits {
  import opened Edits
  import opened Histories
  import opened BoardMachine
  import opened RoomMachine
  import opened Viewers
  import opened Canvases
  import opened EditManagers
  import opened ViewerCanvases
  import opened CanvasRuns

  /** No dimension above 10000 and no image url above 65534 bytes. */
  predicate Small(shape: Shape) {
    && shape.lineSize <= 10_000.0 && shape.height <= 10_000.0 && shape.width <= 10_000.0
    && shape.radiusX <= 10_000.0 && shape.radiusY <= 10_000.0
    && shape.scaleX <= 10_000.0 && shape.scaleY <= 10_000.0 && shape.urlLength <= 65_534
  }

  predicate SmallEdit(e: Edit) {
    (e.Add? ==> e.shape.Some?) && forall shape <- ShapesOf(e) :: Small(shape)
  }

  ghost predicate SmallHistory(h: History) {
    forall e <- Contents(h) :: SmallEdit(e)
  }

  lemma {:induction false} StepSmall(h: History, op: QueueOp)
    requires SmallHistory(h) && (op.Push? ==> ValidEdit(op.edit))
    ensures SmallHistory(Step(h, op))
  {
    StepConserves(h, op);
    if op.Push? {
      ValidEditIff(op.edit);
    }
    hide Step, Contents, ValidEdit, SmallEdit;
    forall e <- Contents(Step(h, op)) ensures SmallEdit(e) {
      assert (op.Push? && e == op.edit) || e in Contents(h);
    }
  }

  lemma {:induction false} CallSmall(p: Plain, call: Call)
    requires SmallHistory(p.h)
    ensures SmallHistory(PlainStep(p, call).0.h)
  {
    hide SmallHistory, Step, ValidEdit, PullAnswer;
    match call
    case PushEdit(now, edit) =>
      if ValidEdit(edit) {
        StepSmall(p.h, Push(now, edit));
      }
    case ExecUndo(now, id) => StepSmall(p.h, Undo(now, id));
    case ExecRedo(now, id) => StepSmall(p.h, Redo(now, id));
    case EmptyCurrent => FewerSmall(p.h, p.h.(current := []));
    case EmptyUndone => FewerSmall(p.h, p.h.(undone := []));
    case _ =>
  }

  lemma {:induction false} FewerSmall(h: History, h': History)
    requires SmallHistory(h) && (h' == h.(current := []) || h' == h.(undone := []))
    ensures SmallHistory(h')
  {
    forall e <- Contents(h') ensures SmallEdit(e) {
      assert e in Contents(h);
    }
  }

  lemma {:induction false} CallsSmall(p: Plain, calls: seq<Call>)
    requires SmallHistory(p.h)
    ensures SmallHistory(PlainRun(p, calls).h)
    decreases |calls|
  {
    hide SmallHistory, PlainStep;
    if calls != [] {
      CallSmall(p, calls[0]);
      CallsSmall(PlainStep(p, calls[0]).0, calls[1..]);
    }
  }

  lemma {:induction false} MessagesSmall(p: Plain, msgs: seq<UserMessage>)
    requires SmallHistory(p.h)
    ensures SmallHistory(PlainAfter(p, msgs).h)
  {
    hide SmallHistory, PlainRun, CallsOf;
    if msgs != [] {
      MessagesSmall(p, msgs[..|msgs| - 1]);
      CallsSmall(PlainAfter(p, msgs[..|msgs| - 1]), CallsOf(msgs[|msgs| - 1]));
    }
  }

  ghost predicate SmallCanvas(c: Canvas) {
    forall id <- c :: Small(c[id])
  }

  lemma {:induction false} PutSmall(c: Canvas, shapes: seq<Shape>)
    requires SmallCanvas(c) && forall shape <- shapes :: Small(shape)
    ensures SmallCanvas(Put(c, shapes))
  {
    hide Small;
    if shapes != [] {
      PutSmall(c, shapes[..|shapes| - 1]);
      assert shapes[|shapes| - 1] in shapes;
    }
  }

  lemma {:induction false} ApplySmall(c: Canvas, e: Edit)
    requires SmallCanvas(c) && SmallEdit(e)
    ensures SmallCanvas(Apply(c, e))
  {
    hide Small;
    match e
    case Add(_, shape) =>
      assert shape.value in ShapesOf(e);
      PutSmall(c, [shape.value]);
    case Remove(_, _) =>
    case Modify(_, current, _) =>
      assert forall shape <- current :: shape in ShapesOf(e);
      PutSmall(c, current);
  }

  lemma {:induction false} FoldSmall(edits: seq<Edit>)
    requires forall e <- edits :: SmallEdit(e)
    ensures SmallCanvas(Fold(edits))
  {
    hide SmallEdit, Apply;
    if edits != [] {
      FoldSmall(edits[..|edits| - 1]);
      assert edits[|edits| - 1] in edits;
      ApplySmall(Fold(edits[..|edits| - 1]), edits[|edits| - 1]);
    }
  }

  /**
   * The limits hold for ever. Over every run of a room, every edit of both lists the board stands for is within
   * the limits, and so is every shape of the picture its current edits fold to.
   */
  lemma {:induction false} ServerWithinLimits(
    config: Config, publicId: Uuid, states: seq<RoomState>, msgs: seq<UserMessage>, p: Plain)
    requires TaskRun(config, publicId, states, msgs) && MessagesOk(p, msgs) && config.queueSize >= 1
    requires Represents(config, publicId, states[0].board, p) && SmallHistory(p.h)
    ensures var h := Meaning(states[|msgs|].board, publicId);
            (forall e <- h.current + h.undone :: SmallEdit(e)) && SmallCanvas(Fold(h.current))
  {
    RoomRefines(config, publicId, states, msgs, p);
    MessagesSmall(p, msgs);
    var h := Meaning(states[|msgs|].board, publicId);
    assert h == PlainAfter(p, msgs).h;
    hide TaskRun, MessagesOk, Coherent, Meaning, Within, PlainAfter, SmallEdit;
    forall e | e in h.current + h.undone ensures SmallEdit(e) {
      assert e in Contents(h);
    }
    FoldSmall(h.current);
  }

  /** A viewer in step never has a shape on its canvas that the server would not take. */
  lemma {:induction false} ViewerWithinLimits(
    config: Config, publicId: Uuid, states: seq<RoomState>, msgs: seq<UserMessage>, p: Plain, user: UserId)
    requires TaskRun(config, publicId, states, msgs) && MessagesOk(p, msgs) && config.queueSize >= 1
    requires Represents(config, publicId, states[0].board, p) && Consistent(p.h) && SmallHistory(p.h)
    requires user !in states[0].users && DrawableRun(states, msgs, p, user)
    ensures var s := states[|msgs|];
            user in s.users && Drawn(s.users[user]).Some? ==>
              SmallCanvas(View(Drawn(s.users[user]).value.manager.layer))
  {
    hide TaskRun, MessagesOk, Represents, SmallHistory, SmallCanvas, DrawableRun, Consistent, Drawn, Replica, Meaning;
    ServerWithinLimits(config, publicId, states, msgs, p);
    ViewerDrawsServer(config, publicId, states, msgs, p, user);
  }
}
