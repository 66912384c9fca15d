/** One editor and any number of viewers: what the viewers draw is what the editor drew. */
module EditorRuns {
  import opened Wrappers
  import opened Edits
  import opened Histories
  import opened EditTables
  import opened WriteThrough
  import opened Transparency
  import opened BoardMachine
  import opened ClientHistory
  import opened RoomMachine
  import opened Viewers
  import opened Canvases
  import opened EditManagers
  import opened ViewerCanvases
  import opened CanvasRuns

  /** What the editor did when it sent the message. */
  function ActionOf(msg: UserMessage): Option<Action> {
    match msg
    case PushMsg(_, data, _) => if |data| == 1 then Some(NewEdit(data[0].edit)) else None
    case UndoRedo(_, _, action, _) => Some(if action.ActionUndo? then UndoLast else RedoLast)
    case EmptyMsg(_, _) => Some(Rebase)
    case _ => None
  }

  predicate LastCalled(s: seq<Edit>, id: Uuid) {
    s != [] && s[|s| - 1].id == id
  }

  /** Only the editor changes the lists: by what its manager may do now, with the id of the edit it did it to. */
  ghost predicate EditorMessage(m: Manager, msg: UserMessage, editor: UserId) {
    match msg
    case PushMsg(sender, data, silent) =>
      && sender == editor && !silent && |data| == 1 && ValidEdit(data[0].edit)
      && ActionOk(m, NewEdit(data[0].edit))
    case UndoRedo(sender, _, action, id) =>
      && sender == editor
      && LastCalled(if action.ActionUndo? then m.history.current else m.history.undone, id)
    case EmptyMsg(sender, status) => sender == editor && status.Undone?
    case _ => true
  }

  /** New edits have unused ids and times increase. */
  predicate Stamped(p: Plain, msg: UserMessage) {
    match msg
    case PushMsg(_, data, _) => forall item <- data :: item.stamp > p.clock && item.edit.id !in p.seen
    case UndoRedo(_, now, _, _) => now > p.clock
    case _ => true
  }

  function EditorStep(m: Manager, msg: UserMessage): Manager {
    var action := ActionOf(msg);
    if action.Some? then Act(m, action.value) else m
  }

  function EditorAfter(m: Manager, msgs: seq<UserMessage>): Manager {
    if msgs == [] then m else EditorStep(EditorAfter(m, msgs[..|msgs| - 1]), msgs[|msgs| - 1])
  }

  // One message of the editor

  lemma {:induction false} OneCallRun(p: Plain, call: Call)
    ensures PlainRun(p, [call]) == PlainStep(p, call).0
    ensures RunOk(p, [call]) <==> CallOk(p, call)
  {
    assert [call][1..] == [];
    assert PlainRun(PlainStep(p, call).0, []) == PlainStep(p, call).0;
  }

  lemma {:induction false} OnePush(item: EditAction)
    requires ValidEdit(item.edit)
    ensures ValidPrefix([item]) == [item] && AllValid([item]) && EditsOf([item]) == [item.edit]
    ensures PushCalls([item]) == [PushEdit(item.stamp, item.edit)]
  {
    AllValidPrefix([item]);
  }

  lemma {:induction false} LastMoves(h: History, stamp: nat, id: Uuid)
    ensures LastCalled(h.current, id) ==>
              LastIndex(h.current, id) == |h.current| - 1 && Step(h, Undo(stamp, id)) == UndoReducer(h, None)
    ensures LastCalled(h.undone, id) ==>
              LastIndex(h.undone, id) == |h.undone| - 1 && Step(h, Redo(stamp, id)) == RedoReducer(h, None)
  {
  }

  /** A push of one new valid edit is one call and appends it. */
  lemma {:induction false} PushRun(p: Plain, msg: UserMessage)
    requires msg.PushMsg? && |msg.data| == 1 && ValidEdit(msg.data[0].edit) && Stamped(p, msg)
    ensures RunOk(p, CallsOf(msg)) && EditsOf(msg.data) == [msg.data[0].edit]
    ensures PlainRun(p, CallsOf(msg)).h == p.h.(current := p.h.current + [msg.data[0].edit])
  {
    hide ValidEdit, ValidPrefix, PushCalls, EditsOf, PlainRun, RunOk, AllValid;
    var item := msg.data[0];
    assert msg.data == [item] && item in msg.data;
    OnePush(item);
    OneCallRun(p, PushEdit(item.stamp, item.edit));
  }

  /** A command on the last edit of a list is one call and moves that edit. */
  lemma {:induction false} CommandRun(p: Plain, msg: UserMessage)
    requires msg.UndoRedo? && Stamped(p, msg) && Distinct(p.h)
    requires LastCalled(if msg.action.ActionUndo? then p.h.current else p.h.undone, msg.actionId)
    ensures RunOk(p, CallsOf(msg))
    ensures PlainRun(p, CallsOf(msg)).h
            == if msg.action.ActionUndo? then UndoReducer(p.h, None) else RedoReducer(p.h, None)
  {
    var id := msg.actionId;
    LastMoves(p.h, msg.now, id);
    hide Step, UndoReducer, RedoReducer, PlainRun, RunOk, NoRepeat;
    if msg.action.ActionUndo? {
      OneCallRun(p, ExecUndo(msg.now, id));
      assert p.h.current[|p.h.current| - 1].id in Ids(p.h.current);
    } else {
      OneCallRun(p, ExecRedo(msg.now, id));
      assert p.h.undone[|p.h.undone| - 1].id in Ids(p.h.undone);
    }
  }

  lemma {:induction false} CommandDrawable(h: History, msg: UserMessage)
    requires Consistent(h) && msg.UndoRedo?
    requires LastCalled(if msg.action.ActionUndo? then h.current else h.undone, msg.actionId)
    ensures DrawableMessage(h, msg)
  {
    LastMoves(h, msg.now, msg.actionId);
    hide Consistent, Undoable;
    if msg.action.ActionUndo? {
      LastUndoable(h);
    }
  }

  lemma {:induction false} NewEditDrawable(h: History, e: Edit)
    requires Consistent(h) && Fits(Fold(h.current), e) && Spares(h.undone, e)
    ensures Drawable(h, PushData([e]))
  {
    ConsistentCurrent(h);
    hide Fits, AllFit, Fold, Spares, Consistent;
    AllFitAppend(h.current, e);
  }

  lemma {:induction false} PushFollows(m: Manager, p: Plain, msg: UserMessage, editor: UserId)
    requires Sound(m) && m.history == p.h && msg.PushMsg? && EditorMessage(m, msg, editor) && Stamped(p, msg)
    ensures RunOk(p, CallsOf(msg)) && DrawableMessage(p.h, msg)
    ensures Sound(EditorStep(m, msg)) && EditorStep(m, msg).history == PlainRun(p, CallsOf(msg)).h
  {
    hide Sound, Fits, Consistent, NewEditStep, View, CallsOf, EditsOf, PlainRun, RunOk, Stamped, Fold, ValidEdit;
    PushRun(p, msg);
    NewEditIff(m, msg.data[0].edit);
    SoundParts(m);
    NewEditDrawable(p.h, msg.data[0].edit);
  }

  lemma {:induction false} CommandFollows(m: Manager, p: Plain, msg: UserMessage, editor: UserId)
    requires Sound(m) && m.history == p.h && msg.UndoRedo? && EditorMessage(m, msg, editor) && Stamped(p, msg)
    requires Distinct(p.h)
    ensures RunOk(p, CallsOf(msg)) && DrawableMessage(p.h, msg)
    ensures Sound(EditorStep(m, msg)) && EditorStep(m, msg).history == PlainRun(p, CallsOf(msg)).h
  {
    hide Sound, Consistent, UndoStep, RedoStep, UndoReducer, RedoReducer, PlainRun, RunOk, CallsOf, LastCalled;
    hide DrawableMessage, Distinct, Fold, View;
    CommandRun(p, msg);
    SoundParts(m);
    CommandDrawable(p.h, msg);
    UndoLastSound(m);
    RedoLastSound(m);
  }

  /** What the editor sends does to the server's lists what the editor did to its own, and viewers can draw it. */
  lemma {:induction false} EditorFollows(m: Manager, p: Plain, msg: UserMessage, editor: UserId)
    requires Sound(m) && m.history == p.h && EditorMessage(m, msg, editor) && Stamped(p, msg) && Distinct(p.h)
    ensures RunOk(p, CallsOf(msg)) && DrawableMessage(p.h, msg)
    ensures Sound(EditorStep(m, msg)) && EditorStep(m, msg).history == PlainRun(p, CallsOf(msg)).h
  {
    hide Sound;
    match msg
    case PushMsg(_, _, _) => PushFollows(m, p, msg, editor);
    case UndoRedo(_, _, _, _) => CommandFollows(m, p, msg, editor);
    case EmptyMsg(_, _) =>
      OneCallRun(p, EmptyUndone);
      RebaseSound(m);
    case _ =>
      QuietRun(p, msg);
      QuietOk(p, msg);
  }

  lemma {:induction false} QuietOk(p: Plain, msg: UserMessage)
    requires !msg.UndoRedo? && !msg.EmptyMsg? && !msg.PushMsg?
    ensures RunOk(p, CallsOf(msg))
  {
    match msg
    case PullMsg(_, at, current, undone) => OneCallRun(p, Pull(at, current, undone));
    case TryExpireCache(at) => OneCallRun(p, ClearDbCache(at));
    case _ =>
  }

  lemma {:induction false} MeaningDistinct(config: Config, board: Uuid, s: BoardState, p: Plain)
    requires Represents(config, board, s, p)
    ensures Distinct(p.h)
  {
    var h := ReadBoard(s.rows, board);
    assert IsRead(s.rows, board, h);
    ReadKeys(s.rows, board, h);
    FreshWeaken(s.rows.Keys, Ids(h.current) + Ids(h.undone), s.queue);
    ReplayKeepsDistinct(h, s.queue);
  }

  // Runs

  /** Only the editor changes the lists, each time as its manager may. */
  ghost predicate EditedRun(msgs: seq<UserMessage>, m: Manager, p: Plain, editor: UserId) {
    forall k :: 0 <= k < |msgs| ==>
      EditorMessage(EditorAfter(m, msgs[..k]), msgs[k], editor) && Stamped(PlainAfter(p, msgs[..k]), msgs[k])
  }

  lemma {:induction false} EditedPrefix(msgs: seq<UserMessage>, m: Manager, p: Plain, editor: UserId)
    requires EditedRun(msgs, m, p, editor) && msgs != []
    ensures var last := |msgs| - 1;
            && EditedRun(msgs[..last], m, p, editor)
            && EditorMessage(EditorAfter(m, msgs[..last]), msgs[last], editor)
            && Stamped(PlainAfter(p, msgs[..last]), msgs[last])
  {
    assert forall k :: 0 <= k < |msgs| ==> msgs[..|msgs| - 1][..k] == msgs[..k];
  }

  lemma {:induction false} TaskPrefix(
    config: Config, publicId: Uuid, states: seq<RoomState>, msgs: seq<UserMessage>)
    requires TaskRun(config, publicId, states, msgs) && msgs != []
    ensures var last := |msgs| - 1;
            && TaskRun(config, publicId, states[..|msgs|], msgs[..last])
            && states[last].running && Next(config, publicId, states[last], msgs[last], states[|msgs|])
  {
  }

  /** Every message could be drawn when it came. */
  ghost predicate AllDrawable(msgs: seq<UserMessage>, p: Plain) {
    forall k :: 0 <= k < |msgs| ==> DrawableMessage(PlainAfter(p, msgs[..k]).h, msgs[k])
  }

  lemma {:induction false} OneMoreOk(msgs: seq<UserMessage>, p: Plain)
    requires msgs != [] && MessagesOk(p, msgs[..|msgs| - 1]) && AllDrawable(msgs[..|msgs| - 1], p)
    requires RunOk(PlainAfter(p, msgs[..|msgs| - 1]), CallsOf(msgs[|msgs| - 1]))
    requires DrawableMessage(PlainAfter(p, msgs[..|msgs| - 1]).h, msgs[|msgs| - 1])
    ensures MessagesOk(p, msgs) && AllDrawable(msgs, p)
  {
    hide RunOk, CallsOf, DrawableMessage, PlainAfter;
    var last := |msgs| - 1;
    forall k | 0 <= k < |msgs|
      ensures RunOk(PlainAfter(p, msgs[..k]), CallsOf(msgs[k]))
      ensures DrawableMessage(PlainAfter(p, msgs[..k]).h, msgs[k])
    {
      if k < last {
        assert msgs[..last][..k] == msgs[..k] && msgs[..last][k] == msgs[k];
      }
    }
  }

  /** Over every run the server's lists are the editor's, and everything it sends is in order and can be drawn. */
  lemma {:induction false} EditorRun(
    config: Config, publicId: Uuid, states: seq<RoomState>, msgs: seq<UserMessage>, p: Plain, m: Manager,
    editor: UserId)
    requires TaskRun(config, publicId, states, msgs) && config.queueSize >= 1
    requires Represents(config, publicId, states[0].board, p) && Sound(m) && m.history == p.h
    requires EditedRun(msgs, m, p, editor)
    ensures MessagesOk(p, msgs) && AllDrawable(msgs, p)
    ensures Represents(config, publicId, states[|msgs|].board, PlainAfter(p, msgs))
    ensures Sound(EditorAfter(m, msgs)) && EditorAfter(m, msgs).history == PlainAfter(p, msgs).h
    decreases |msgs|
  {
    hide Represents, Sound, Next, RunOk, DrawableMessage, EditorMessage, Stamped, Distinct, EditorStep, CallsOf;
    if msgs != [] {
      var last := |msgs| - 1;
      var q, before := PlainAfter(p, msgs[..last]), EditorAfter(m, msgs[..last]);
      EditedPrefix(msgs, m, p, editor);
      TaskPrefix(config, publicId, states, msgs);
      hide EditedRun, TaskRun;
      EditorRun(config, publicId, states[..|msgs|], msgs[..last], p, m, editor);
      MeaningDistinct(config, publicId, states[last].board, q);
      EditorFollows(before, q, msgs[last], editor);
      NextRepresents(config, publicId, states[last], q, msgs[last], states[|msgs|]);
      hide MessagesOk, AllDrawable;
      OneMoreOk(msgs, p);
    }
  }

  /**
   * From the editor to the viewers. One editor draws, undoes and redoes through its manager, which starts as sound
   * as the board and in step with it; a viewer joins and pulls. After every run the viewer has drawn the editor's
   * canvas, and both are the fold of the edits the server holds as current.
   */
  lemma {:induction false} ViewerDrawsEditor(
    config: Config, publicId: Uuid, states: seq<RoomState>, msgs: seq<UserMessage>, p: Plain, m: Manager,
    editor: UserId, user: UserId)
    requires TaskRun(config, publicId, states, msgs) && config.queueSize >= 1
    requires Represents(config, publicId, states[0].board, p) && Sound(m) && m.history == p.h
    requires EditedRun(msgs, m, p, editor) && user !in states[0].users
    requires forall k :: 0 <= k < |msgs| ==> ViewerMessage(states[k], msgs[k], user)
    ensures var s, e := states[|msgs|], EditorAfter(m, msgs);
            && e.history == Meaning(s.board, publicId)
            && View(e.layer) == Fold(Meaning(s.board, publicId).current)
            && (user in s.users && Replica(s.users[user]).Some? ==>
                  var drawn := Drawn(s.users[user]);
                  && drawn.Some? && !drawn.value.threw
                  && drawn.value.manager.history == e.history
                  && View(drawn.value.manager.layer) == View(e.layer))
  {
    var s, e, q := states[|msgs|], EditorAfter(m, msgs), PlainAfter(p, msgs);
    hide TaskRun, MessagesOk, EditedRun, ViewerMessage, AllDrawable, Represents, Drawn, Replica, PlainAfter, Sound;
    hide Meaning, EditorAfter, Fold, View, Consistent, DrawableRun;
    EditorRun(config, publicId, states, msgs, p, m, editor);
    SoundParts(m);
    SoundParts(e);
    RunDrawable(states, msgs, p, user);
    ViewerDrawsServer(config, publicId, states, msgs, p, user);
    MeaningIs(config, publicId, s.board, q);
  }

  lemma {:induction false} MeaningIs(config: Config, board: Uuid, s: BoardState, p: Plain)
    requires Represents(config, board, s, p)
    ensures Meaning(s, board) == p.h
  {
  }

  lemma {:induction false} RunDrawable(states: seq<RoomState>, msgs: seq<UserMessage>, p: Plain, user: UserId)
    requires |states| == |msgs| + 1 && AllDrawable(msgs, p)
    requires forall k :: 0 <= k < |msgs| ==> ViewerMessage(states[k], msgs[k], user)
    ensures DrawableRun(states, msgs, p, user)
  {
    hide ViewerMessage, DrawableMessage, PlainAfter;
  }
}
