/** What a viewer draws: the server's messages handled by the edit manager, and the fold of the server's edits. */
module ViewerCanvases {
  import opened Wrappers
  import opened Edits
  import opened Histories
  import opened Pulls
  import opened ClientHistory
  import opened RoomMachine
  import opened Viewers
  import opened Canvases
  import opened EditManagers

  /** The manager after a message, and whether drawing its edits stopped at one that could not be applied or found. */
  datatype Shown = Shown(manager: Manager, threw: bool)

  /** `handlePush`: each edit is recorded and then applied. */
  function ShowPushes(m: Manager, data: seq<Edit>): Shown {
    if data == [] then Shown(m, false)
    else
      var before := ShowPushes(m, data[..|data| - 1]);
      if before.threw then before
      else
        var e, h := data[|data| - 1], before.manager.history;
        var r := ApplyTo(before.manager.layer, e);
        Shown(Manager(r.layer, h.(current := h.current + [e])), r.threw)
  }

  /** The edit with the id is looked up, the reducer is called, and the edit is cancelled, or missing. */
  function ShowDelete(m: Manager, id: Uuid): Shown {
    var i, h := LastIndex(m.history.current, id), RemoveCurrentReducer(m.history, id);
    if i < 0 then Shown(m.(history := h), true)
    else
      var r := CancelOn(m.layer, m.history.current[i]);
      Shown(Manager(r.layer, h), r.threw)
  }

  function ShowDeletes(m: Manager, ids: seq<Uuid>): Shown {
    if ids == [] then Shown(m, false)
    else
      var before := ShowDeletes(m, ids[..|ids| - 1]);
      if before.threw then before else ShowDelete(before.manager, ids[|ids| - 1])
  }

  function RemoveUndones(h: History, ids: seq<Uuid>): History {
    if ids == [] then h else RemoveUndoneReducer(RemoveUndones(h, ids[..|ids| - 1]), ids[|ids| - 1])
  }

  function WithUndone(m: Manager, edits: seq<Edit>): Manager {
    m.(history := m.history.(undone := m.history.undone + edits))
  }

  /** `handlePull`: creations of both lists, then deletions of both. */
  function ShowPull(m: Manager, pull: PullData): Shown {
    var r := ShowPushes(m, pull.current.shouldBeCreatedEdits);
    if r.threw then r
    else
      var d := ShowDeletes(WithUndone(r.manager, pull.undone.shouldBeCreatedEdits), pull.current.shouldBeDeletedIds);
      if d.threw then d
      else d.(manager := d.manager.(history := RemoveUndones(d.manager.history, pull.undone.shouldBeDeletedIds)))
  }

  function Show(m: Manager, msg: ServerMessage): Shown {
    match msg
    case PushData(data) => ShowPushes(m, data)
    case PullReply(pull) => ShowPull(m, pull)
    case UndoRedoData(action, id) =>
      Shown(if action.ActionUndo? then UndoStep(m, Some(id)) else RedoStep(m, Some(id)), false)
    case EmptyData(status) => Shown(if status.Current? then EmptyCurrentStep(m) else RebaseStep(m), false)
    case _ => Shown(m, false)
  }

  /**
   * The message can be drawn: new edits fit where they come and change no shape that an undone edit concerns, an
   * undone edit is undoable, a redone one was undone last, a pull deletes nothing, and emptied current edits fold to
   * nothing.
   */
  ghost predicate Drawable(h: History, msg: ServerMessage) {
    match msg
    case PushData(data) => AllFit(h.current + data) && forall e <- data :: Spares(h.undone, e)
    case PullReply(pull) =>
      && pull.current.shouldBeDeletedIds == [] && pull.undone.shouldBeDeletedIds == []
      && Consistent(History(h.current + pull.current.shouldBeCreatedEdits, h.undone + pull.undone.shouldBeCreatedEdits))
    case UndoRedoData(action, id) =>
      if action.ActionUndo? then
        var i := LastIndex(h.current, id);
        i >= 0 ==> Undoable(h.current, i)
      else id !in Ids(h.undone) || h.undone[|h.undone| - 1].id == id
    case EmptyData(status) => status.Current? ==> Fold(h.current) == map[]
    case _ => true
  }

  lemma {:induction false} PushesShow(m: Manager, data: seq<Edit>)
    requires DistinctShapes(m.layer) && View(m.layer) == Fold(m.history.current)
    requires AllFit(m.history.current + data)
    ensures var r := ShowPushes(m, data);
            && !r.threw && DistinctShapes(r.manager.layer)
            && r.manager.history == m.history.(current := m.history.current + data)
            && View(r.manager.layer) == Fold(m.history.current + data)
  {
    hide Fits, AllFit, Fold, Apply, ApplyTo, DistinctShapes, View;
    var current := m.history.current;
    if data == [] {
      assert current + [] == current;
    } else {
      var rest, e := data[..|data| - 1], data[|data| - 1];
      assert (current + data)[..|current + rest|] == current + rest;
      assert current + data == current + rest + [e];
      AllFitPrefix(current + data, |current + rest|);
      PushesShow(m, rest);
      ApplyShows(ShowPushes(m, rest).manager.layer, e);
      FoldAppend(current + rest, e);
    }
  }

  lemma {:induction false} NewEditsFollow(m: Manager, create: seq<Edit>, undone: seq<Edit>)
    requires Sound(m) && Consistent(History(m.history.current + create, undone))
    ensures var r := ShowPushes(m, create);
            && !r.threw && r.manager.history == m.history.(current := m.history.current + create)
            && Sound(r.manager.(history := History(m.history.current + create, undone)))
  {
    ConsistentCurrent(History(m.history.current + create, undone));
    hide AllFit, Consistent, ShowPushes;
    PushesShow(m, create);
  }

  lemma {:induction false} PullKeeps(edits: seq<Edit>, data: EditData)
    requires data.shouldBeDeletedIds == []
    ensures ApplyEditData(edits, data) == edits + data.shouldBeCreatedEdits
  {
    EmptySet(data.shouldBeDeletedIds);
    KeepAll(edits);
  }

  lemma {:induction false} PullFollows(m: Manager, pull: PullData)
    requires Sound(m) && Drawable(m.history, PullReply(pull))
    ensures var r := ShowPull(m, pull);
            !r.threw && Sound(r.manager) && Receive(Some(m.history), PullReply(pull)) == Some(r.manager.history)
  {
    hide Sound, Consistent, ShowPushes;
    var h, create := m.history, pull.current.shouldBeCreatedEdits;
    NewEditsFollow(m, create, h.undone + pull.undone.shouldBeCreatedEdits);
    PullKeeps(h.current, pull.current);
    PullKeeps(h.undone, pull.undone);
  }

  lemma {:induction false} UndoRedoFollows(m: Manager, action: ActionType, id: Uuid)
    requires Sound(m) && Drawable(m.history, UndoRedoData(action, id))
    ensures var r := Show(m, UndoRedoData(action, id));
            Sound(r.manager) && Receive(Some(m.history), UndoRedoData(action, id)) == Some(r.manager.history)
  {
    hide Sound, UndoStep, RedoStep, Undoable;
    if action.ActionUndo? {
      UndoByIdSound(m, id);
    } else if id in Ids(m.history.undone) {
      RedoByLastId(m, id);
      RedoLastSound(m);
      LastIsChosen(m.history.undone, id);
    } else {
      RedoNothing(m, id);
    }
  }

  lemma {:induction false} LastIsChosen(s: seq<Edit>, id: Uuid)
    requires s != [] && s[|s| - 1].id == id
    ensures Chosen(s, Some(id)) == Chosen(s, None)
  {
  }

  lemma {:induction false} RedoNothing(m: Manager, id: Uuid)
    requires id !in Ids(m.history.undone)
    ensures RedoStep(m, Some(id)) == m && RedoReducer(m.history, Some(id)) == m.history
  {
  }

  /** One message: the manager's lists stay the replica and the canvas stays the fold of its current edits. */
  lemma {:induction false} ShowFollows(m: Manager, msg: ServerMessage)
    requires Sound(m) && Drawable(m.history, msg)
    ensures var r := Show(m, msg);
            !r.threw && Sound(r.manager) && Receive(Some(m.history), msg) == Some(r.manager.history)
  {
    SoundParts(m);
    hide Sound, Consistent, ShowPushes, Fold, AllFit, Spares, View;
    match msg
    case PushData(data) =>
      ConsistentWithAll(m.history, data);
      NewEditsFollow(m, data, m.history.undone);
    case PullReply(pull) => PullFollows(m, pull);
    case UndoRedoData(action, id) => UndoRedoFollows(m, action, id);
    case EmptyData(status) =>
      EmptyCurrentIff(m);
      RebaseSound(m);
    case _ =>
  }

  // Pushes that throw, pulls that delete

  /** The edit whose drawing throws is recorded already, and those after it are not. */
  lemma {:induction false} PushThrows(m: Manager, data: seq<Edit>) returns (k: nat)
    requires ShowPushes(m, data).threw
    ensures k < |data| && !ShowPushes(m, data[..k]).threw
    ensures var before, after := ShowPushes(m, data[..k]).manager, ShowPushes(m, data).manager;
            && ApplyTo(before.layer, data[k]) == Effect(after.layer, true)
            && after.history == m.history.(current := m.history.current + data[..k + 1])
  {
    var rest := data[..|data| - 1];
    if ShowPushes(m, rest).threw {
      k := PushThrows(m, rest);
      assert rest[..k] == data[..k] && rest[..k + 1] == data[..k + 1];
    } else {
      k := |data| - 1;
      PushesRecorded(m, rest);
      assert m.history.current + data == m.history.current + rest + [data[k]] && data[..k + 1] == data;
    }
  }

  lemma {:induction false} PushesRecorded(m: Manager, data: seq<Edit>)
    requires !ShowPushes(m, data).threw
    ensures ShowPushes(m, data).manager.history == m.history.(current := m.history.current + data)
  {
    if data == [] {
      assert m.history.current + [] == m.history.current;
    } else {
      var rest, e := data[..|data| - 1], data[|data| - 1];
      PushesRecorded(m, rest);
      assert m.history.current + data == m.history.current + rest + [e];
    }
  }

  /** A pull that only deletes. */
  function Deleting(current: seq<Uuid>, undone: seq<Uuid>): PullData {
    PullData(EditData([], current), EditData([], undone))
  }

  lemma {:induction false} DeletingOne(m: Manager, id: Uuid)
    ensures ShowPull(m, Deleting([id], [])) == ShowDelete(m, id)
    ensures ShowPull(m, Deleting([], [id])) == Shown(m.(history := RemoveUndoneReducer(m.history, id)), false)
  {
    assert m.history.undone + [] == m.history.undone;
    assert WithUndone(m, []) == m && ShowPushes(m, []) == Shown(m, false);
    assert [id][..0] == [];
    assert ShowDeletes(m, []) == Shown(m, false) && RemoveUndones(m.history, []) == m.history;
    assert ShowDeletes(m, [id]) == ShowDelete(m, id);
    assert RemoveUndones(m.history, [id]) == RemoveUndoneReducer(m.history, id);
    assert RemoveUndones(ShowDelete(m, id).manager.history, []) == ShowDelete(m, id).manager.history;
  }

  /**
   * A pull that deletes one current edit removes it from the list, and it alone, without an exception and with the
   * canvas the fold of the rest, exactly when the edit is not the first of the list and is retractable.
   */
  lemma {:induction false} PullDeletesIff(m: Manager, id: Uuid)
    requires Sound(m) && NoRepeat(m.history.current) && id in Ids(m.history.current)
    ensures var r, i := ShowPull(m, Deleting([id], [])), LastIndex(m.history.current, id);
            && !r.threw && r.manager.history == m.history.(current := Without(m.history.current, i))
            && DistinctShapes(r.manager.layer) && View(r.manager.layer) == Fold(r.manager.history.current)
            <==> i > 0 && Retractable(m.history.current, i)
  {
    DeletingOne(m, id);
    SoundParts(m);
    ConsistentParts(m.history);
    var i, edits := LastIndex(m.history.current, id), m.history.current;
    AllFitPrefix(edits, i);
    RemoveCurrentIff(m.history, id);
    CancelCleanIff(m.layer, Fold(edits[..i]), edits[i]);
    RetractableIff(edits, i);
    hide Fits, AllFit, Fold, Cancel, CancelOn, Retractable, Reachable, View, Consistent, ShowPull, Without;
  }

  /** A pull that deletes an edit the client does not have: another edit goes, and then the handler throws. */
  lemma {:induction false} PullDeletesMissing(m: Manager, id: Uuid)
    requires id !in Ids(m.history.current) && m.history.current != []
    ensures var r, last := ShowPull(m, Deleting([id], [])), |m.history.current| - 1;
            r == Shown(m.(history := m.history.(current := Without(m.history.current, last))), true)
  {
    DeletingOne(m, id);
  }

  // A viewer's channel, drawn

  /** What the messages of a channel draw; drawing starts with the first pull, on an empty layer. */
  function Drawn(channel: seq<ServerMessage>): Option<Shown> {
    if channel == [] then None
    else
      var before, msg := Drawn(channel[..|channel| - 1]), channel[|channel| - 1];
      if before.None? then
        if msg.PullReply? then Some(Show(Manager([], EMPTY), msg)) else None
      else if before.value.threw then before
      else Some(Show(before.value.manager, msg))
  }

  /** Whatever was drawn is the replica of the channel and its fold. */
  ghost predicate Tracks(channel: seq<ServerMessage>) {
    match Drawn(channel)
    case None => Replica(channel) == None
    case Some(r) => !r.threw && Sound(r.manager) && Replica(channel) == Some(r.manager.history)
  }

  lemma {:induction false} EmptySound()
    ensures Sound(Manager([], EMPTY))
  {
    assert [] + Reverse([]) == [];
  }

  lemma {:induction false} DrawnAppend(channel: seq<ServerMessage>, msg: ServerMessage)
    ensures Drawn(channel + [msg]) ==
            if Drawn(channel).None? then
              (if msg.PullReply? then Some(Show(Manager([], EMPTY), msg)) else None)
            else if Drawn(channel).value.threw then Drawn(channel)
            else Some(Show(Drawn(channel).value.manager, msg))
  {
    assert (channel + [msg])[..|channel|] == channel;
  }

  lemma {:induction false} TracksAppend(channel: seq<ServerMessage>, msg: ServerMessage)
    requires Tracks(channel)
    requires Replica(channel).Some? ==> Drawable(Replica(channel).value, msg)
    requires Replica(channel).None? && msg.PullReply? ==> Drawable(EMPTY, msg)
    ensures Tracks(channel + [msg])
  {
    DrawnAppend(channel, msg);
    ReplicaAppend(channel, msg);
    hide Drawn, Replica, Drawable, Sound, Show;
    if Drawn(channel).Some? {
      ShowFollows(Drawn(channel).value.manager, msg);
    } else if msg.PullReply? {
      EmptySound();
      ShowFollows(Manager([], EMPTY), msg);
    }
  }

  /** A message about title or size, or an error: nothing to draw. */
  lemma {:induction false} TracksQuiet(channel: seq<ServerMessage>, msg: ServerMessage)
    requires Tracks(channel) && (msg.SizeData? || msg.TitleData? || msg.Info?)
    ensures Tracks(channel + [msg])
  {
    hide Tracks;
    TracksAppend(channel, msg);
  }

  // The handlers

  lemma {:induction false} PushesStop(m: Manager, data: seq<Edit>, k: nat)
    requires k <= |data| && ShowPushes(m, data[..k]).threw
    ensures ShowPushes(m, data) == ShowPushes(m, data[..k])
    decreases |data|
  {
    if k < |data| {
      var rest := data[..|data| - 1];
      assert rest[..k] == data[..k];
      PushesStop(m, rest, k);
    } else {
      assert data[..k] == data;
    }
  }

  lemma {:induction false} PushesNext(m: Manager, data: seq<Edit>, k: nat)
    requires k < |data| && !ShowPushes(m, data[..k]).threw
    ensures var before := ShowPushes(m, data[..k]).manager;
            var r := ApplyTo(before.layer, data[k]);
            ShowPushes(m, data[..k + 1])
            == Shown(Manager(r.layer, before.history.(current := before.history.current + [data[k]])), r.threw)
  {
    assert data[..k + 1][..k] == data[..k];
  }

  lemma {:induction false} DeletesStop(m: Manager, ids: seq<Uuid>, k: nat)
    requires k <= |ids| && ShowDeletes(m, ids[..k]).threw
    ensures ShowDeletes(m, ids) == ShowDeletes(m, ids[..k])
    decreases |ids|
  {
    if k < |ids| {
      var rest := ids[..|ids| - 1];
      assert rest[..k] == ids[..k];
      DeletesStop(m, rest, k);
    } else {
      assert ids[..k] == ids;
    }
  }

  method HandlePush(editManager: EditManager, data: seq<Edit>) returns (threw: bool)
    modifies editManager`children, editManager.store
    ensures Shown(editManager.State(), threw) == ShowPushes(old(editManager.State()), data)
  {
    hide ShowPushes, ApplyTo;
    assert ShowPushes(editManager.State(), data[..0]) == Shown(editManager.State(), false) by {
      NothingPushed(editManager.State(), data[..0]);
    }
    for k := 0 to |data|
      invariant Shown(editManager.State(), false) == ShowPushes(old(editManager.State()), data[..k])
    {
      PushesNext(old(editManager.State()), data, k);
      editManager.store.AddCurrent(data[k]);
      threw := editManager.ApplyEdit(data[k]);
      if threw {
        PushesStop(old(editManager.State()), data, k + 1);
        return;
      }
    }
    assert data[..|data|] == data;
    return false;
  }

  lemma {:induction false} NothingPushed(m: Manager, data: seq<Edit>)
    requires data == []
    ensures ShowPushes(m, data) == Shown(m, false)
  {
  }

  method HandleDelete(editManager: EditManager, id: Uuid) returns (threw: bool)
    modifies editManager`children, editManager.store
    ensures Shown(editManager.State(), threw) == ShowDelete(old(editManager.State()), id)
  {
    hide CancelOn;
    var i := LastIndex(editManager.store.current, id);
    var found := if i < 0 then None else Some(editManager.store.current[i]);
    editManager.store.RemoveCurrent(id);
    if found.None? {
      return true;
    }
    threw := editManager.CancelEdit(found.value);
  }

  method HandleDeletes(editManager: EditManager, ids: seq<Uuid>) returns (threw: bool)
    modifies editManager`children, editManager.store
    ensures Shown(editManager.State(), threw) == ShowDeletes(old(editManager.State()), ids)
  {
    hide ShowDelete;
    for k := 0 to |ids|
      invariant Shown(editManager.State(), false) == ShowDeletes(old(editManager.State()), ids[..k])
    {
      assert ids[..k + 1][..k] == ids[..k];
      threw := HandleDelete(editManager, ids[k]);
      if threw {
        DeletesStop(old(editManager.State()), ids, k + 1);
        return;
      }
    }
    assert ids[..|ids|] == ids;
    return false;
  }

  method AddUndones(store: HistoryStore, data: seq<Edit>)
    modifies store
    ensures store.Lists() == old(store.Lists()).(undone := old(store.undone) + data)
  {
    for k := 0 to |data|
      invariant store.Lists() == old(store.Lists()).(undone := old(store.undone) + data[..k])
    {
      store.AddUndone(data[k]);
    }
    assert data[..|data|] == data;
  }

  method DeleteUndones(store: HistoryStore, ids: seq<Uuid>)
    modifies store
    ensures store.Lists() == RemoveUndones(old(store.Lists()), ids)
  {
    hide RemoveUndoneReducer;
    for k := 0 to |ids|
      invariant store.Lists() == RemoveUndones(old(store.Lists()), ids[..k])
    {
      assert ids[..k + 1][..k] == ids[..k];
      store.RemoveUndone(ids[k]);
    }
    assert ids[..|ids|] == ids;
  }

  method HandlePull(editManager: EditManager, pull: PullData) returns (threw: bool)
    modifies editManager`children, editManager.store
    ensures Shown(editManager.State(), threw) == ShowPull(old(editManager.State()), pull)
  {
    hide ShowPushes, ShowDeletes, RemoveUndones;
    threw := HandlePush(editManager, pull.current.shouldBeCreatedEdits);
    if !threw {
      AddUndones(editManager.store, pull.undone.shouldBeCreatedEdits);
      threw := HandleDeletes(editManager, pull.current.shouldBeDeletedIds);
      if !threw {
        DeleteUndones(editManager.store, pull.undone.shouldBeDeletedIds);
      }
    }
  }
}
