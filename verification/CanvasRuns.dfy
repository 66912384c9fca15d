/** Over every run of a room a viewer's canvas is the fold of the server's edits. */
module CanvasRuns {
  import opened Wrappers
  import opened Edits
  import opened Histories
  import opened Pulls
  import opened BoardMachine
  import opened ClientHistory
  import opened RoomMachine
  import opened Viewers
  import opened Canvases
  import opened EditManagers
  import opened ViewerCanvases

  // One message

  ghost predicate TracksUser(s: RoomState, user: UserId) {
    user in s.users ==> Tracks(s.users[user])
  }

  /** What the message is broadcast as can be drawn by viewers in step. */
  ghost predicate DrawableMessage(h: History, msg: UserMessage) {
    msg.UndoRedo? || msg.EmptyMsg? || msg.PushMsg? ==> Drawable(h, BroadcastOf(msg))
  }

  lemma {:induction false} RedoConsistent(h: History)
    requires Consistent(h) && h.undone != []
    ensures Consistent(RedoReducer(h, None))
  {
    var rest, e := h.undone[..|h.undone| - 1], h.undone[|h.undone| - 1];
    hide Fits, AllFit;
    assert Without(h.undone, |h.undone| - 1) == rest && h.undone == rest + [e];
    ReverseAppend(rest, e);
    assert h.current + [e] + Reverse(rest) == h.current + Reverse(h.undone);
  }

  /** A message that can be drawn leaves the server's history one that fits. */
  lemma {:induction false} ConsistentAfter(h: History, msg: ServerMessage)
    requires Consistent(h) && Drawable(h, msg) && (msg.PushData? || msg.UndoRedoData? || msg.EmptyData?)
    ensures Consistent(Receive(Some(h), msg).value)
  {
    hide Consistent, Fold, Undoable, AllFit, Spares;
    match msg
    case PushData(data) => ConsistentWithAll(h, data);
    case UndoRedoData(action, id) =>
      if action.ActionUndo? {
        if LastIndex(h.current, id) >= 0 {
          UndoInside(h, LastIndex(h.current, id));
        }
      } else if id in Ids(h.undone) {
        LastIsChosen(h.undone, id);
        RedoConsistent(h);
      }
    case EmptyData(status) =>
      ConsistentCurrent(h);
      if status.Current? {
        EmptyConsistent(h);
      }
  }

  lemma {:induction false} NextConsistent(p: Plain, msg: UserMessage)
    requires Consistent(p.h) && DrawableMessage(p.h, msg) && (msg.PushMsg? ==> AllValid(msg.data))
    ensures Consistent(PlainRun(p, CallsOf(msg)).h)
  {
    hide Consistent, Drawable, PlainRun, CallsOf, Receive;
    if msg.UndoRedo? || msg.EmptyMsg? || msg.PushMsg? {
      BroadcastSyncs(p, msg);
      ConsistentAfter(p.h, BroadcastOf(msg));
    } else {
      QuietRun(p, msg);
    }
  }

  lemma {:induction false} TracksBoth(size: ServerMessage, title: ServerMessage)
    requires size.SizeData? && title.TitleData?
    ensures Tracks([] + [size] + [title])
  {
    assert Tracks([]);
    TracksQuiet([], size);
    TracksQuiet([] + [size], title);
  }

  lemma {:induction false} OthersTrack(publicId: Uuid, moved: RoomState, h: History, msg: UserMessage, user: UserId)
    requires TracksUser(moved, user) && InSync(moved, user, h) && ViewerMessage(moved, msg, user)
    requires !msg.PullMsg? && DrawableMessage(h, msg)
    ensures TracksUser(Others(moved, publicId, msg), user)
  {
    hide Tracks, Drawable, Replica, Persist, UpdateRecord, Flush;
    if msg.Join? && msg.user == user {
      TracksBoth(SizeData(moved.size), TitleData(moved.title));
    } else if user in moved.users {
      var channel := moved.users[user];
      match msg
      case SetTitle(_, title) =>
        TracksQuiet(channel, TitleData(title));
        TracksQuiet(channel, Info("SetTitle"));
      case SetSize(_, size) =>
        if size.Some? {
          TracksQuiet(channel, SizeData(size.value));
        }
        TracksQuiet(channel, Info("SetSize"));
      case UndoRedo(_, _, _, _) => TracksAppend(channel, BroadcastOf(msg));
      case EmptyMsg(_, _) => TracksAppend(channel, BroadcastOf(msg));
      case PushMsg(_, _, _) =>
        AllValidPrefix(msg.data);
        TracksAppend(channel, BroadcastOf(msg));
      case _ =>
    }
  }

  /** The answer to a viewer in step asks it to delete nothing. */
  lemma {:induction false} HonestPullDrawable(replica: Option<History>, data: PullData, h: History)
    requires Consistent(h) && (replica == None || replica == Some(h))
    requires var held := if replica.Some? then h else EMPTY;
             IsPullOf(data, h, IdList(held.current), IdList(held.undone))
    ensures Drawable(if replica.Some? then h else EMPTY, PullReply(data))
  {
    hide Consistent, Missing, Extra, IdList, IsDiff, ToSet;
    if replica == None {
      FirstPullDrawable(data, h);
    } else {
      OwnDiff(data.current, h.current);
      OwnDiff(data.undone, h.undone);
      assert h.current + [] == h.current && h.undone + [] == h.undone;
    }
  }

  lemma {:induction false} FirstPullDrawable(data: PullData, h: History)
    requires Consistent(h) && IsPullOf(data, h, IdList([]), IdList([]))
    ensures Drawable(EMPTY, PullReply(data))
  {
    assert IdList([]) == [];
    hide Consistent, IsPullOf, IdList;
    FirstPull(data, h);
    assert [] + h.current == h.current && [] + h.undone == h.undone;
  }

  lemma {:induction false} OwnDiff(data: EditData, s: seq<Edit>)
    requires IsDiff(data, s, IdList(s))
    ensures data == EditData([], [])
  {
    IdListMembers(s);
    NothingMissing(s, IdList(s));
    EmptySet(data.shouldBeDeletedIds);
  }

  lemma {:induction false} PullTracks(
    moved: RoomState, h: History, msg: UserMessage, s': RoomState, user: UserId, data: PullData)
    requires TracksUser(moved, user) && InSync(moved, user, h) && ViewerMessage(moved, msg, user) && msg.PullMsg?
    requires Consistent(h) && IsPullOf(data, h, msg.current, msg.undone)
    requires s'.users == SendById(moved.users, msg.user, PullReply(data))
    ensures TracksUser(s', user)
  {
    hide Tracks, Drawable, Replica, Consistent, IsPullOf;
    if msg.user == user && user in moved.users {
      HonestPullDrawable(Replica(moved.users[user]), data, h);
      TracksAppend(moved.users[user], PullReply(data));
    }
  }

  lemma {:induction false} NextTracks(
    config: Config, publicId: Uuid, s: RoomState, p: Plain, msg: UserMessage, s': RoomState, user: UserId)
    requires s.running && Next(config, publicId, s, msg, s') && config.queueSize >= 1
    requires Represents(config, publicId, s.board, p) && RunOk(p, CallsOf(msg)) && Consistent(p.h)
    requires TracksUser(s, user) && InSync(s, user, p.h) && ViewerMessage(s, msg, user) && DrawableMessage(p.h, msg)
    ensures TracksUser(s', user)
  {
    var moved := s.(board := BoardRun(config, publicId, s.board, CallsOf(msg)));
    assert Meaning(moved.board, publicId) == PlainRun(p, CallsOf(msg)).h by {
      RunRefines(config, publicId, s.board, p, CallsOf(msg));
    }
    hide Represents, RunOk, BoardRun, Consistent, Tracks, Replica, IsPullOf, Drawable, Meaning, PlainRun;
    if msg.PullMsg? {
      QuietRun(p, msg);
      var data :| IsPullOf(data, Meaning(moved.board, publicId), msg.current, msg.undone)
                  && s' == moved.(users := SendById(s.users, msg.user, PullReply(data)));
      assert s'.users == SendById(moved.users, msg.user, PullReply(data));
      PullTracks(moved, p.h, msg, s', user, data);
    } else {
      OthersTrack(publicId, moved, p.h, msg, user);
    }
  }

  // Runs

  /** Every message can be drawn when it comes, and the viewer sends nothing but honest pulls. */
  ghost predicate DrawableRun(states: seq<RoomState>, msgs: seq<UserMessage>, p: Plain, user: UserId)
    requires |states| == |msgs| + 1
  {
    forall k :: 0 <= k < |msgs| ==>
      ViewerMessage(states[k], msgs[k], user) && DrawableMessage(PlainAfter(p, msgs[..k]).h, msgs[k])
  }

  lemma {:induction false} DrawablePrefix(states: seq<RoomState>, msgs: seq<UserMessage>, p: Plain, user: UserId)
    requires |states| == |msgs| + 1 && msgs != [] && DrawableRun(states, msgs, p, user)
    ensures var last := |msgs| - 1;
            && DrawableRun(states[..|msgs|], msgs[..last], p, user)
            && ViewerMessage(states[last], msgs[last], user)
            && DrawableMessage(PlainAfter(p, msgs[..last]).h, msgs[last])
  {
    assert forall k :: 0 <= k < |msgs| ==> msgs[..|msgs| - 1][..k] == msgs[..k];
  }

  lemma {:induction false} RunTracks(
    config: Config, publicId: Uuid, states: seq<RoomState>, msgs: seq<UserMessage>, p: Plain, user: UserId)
    requires TaskRun(config, publicId, states, msgs) && MessagesOk(p, msgs) && config.queueSize >= 1
    requires Represents(config, publicId, states[0].board, p) && Consistent(p.h)
    requires TracksUser(states[0], user) && InSync(states[0], user, p.h) && DrawableRun(states, msgs, p, user)
    ensures Represents(config, publicId, states[|msgs|].board, PlainAfter(p, msgs)) && Consistent(PlainAfter(p, msgs).h)
    ensures TracksUser(states[|msgs|], user) && InSync(states[|msgs|], user, PlainAfter(p, msgs).h)
    decreases |msgs|
  {
    hide Represents, Consistent, TracksUser, InSync, Next, RunOk, DrawableMessage, ViewerMessage, DrawableRun, CallsOf;
    if msgs != [] {
      var last := |msgs| - 1;
      var q, s := PlainAfter(p, msgs[..last]), states[last];
      RunPrefix(config, publicId, states, msgs, p);
      DrawablePrefix(states, msgs, p, user);
      assert PlainAfter(p, msgs) == PlainRun(q, CallsOf(msgs[last]));
      hide TaskRun, MessagesOk, PlainAfter, PlainRun;
      RunTracks(config, publicId, states[..|msgs|], msgs[..last], p, user);
      StepTracks(config, publicId, s, q, msgs[last], states[|msgs|], user);
    }
  }

  lemma {:induction false} StepTracks(
    config: Config, publicId: Uuid, s: RoomState, p: Plain, msg: UserMessage, s': RoomState, user: UserId)
    requires s.running && Next(config, publicId, s, msg, s') && config.queueSize >= 1
    requires Represents(config, publicId, s.board, p) && RunOk(p, CallsOf(msg)) && Consistent(p.h)
    requires TracksUser(s, user) && InSync(s, user, p.h) && ViewerMessage(s, msg, user) && DrawableMessage(p.h, msg)
    ensures Represents(config, publicId, s'.board, PlainRun(p, CallsOf(msg)))
    ensures Consistent(PlainRun(p, CallsOf(msg)).h)
    ensures TracksUser(s', user) && InSync(s', user, PlainRun(p, CallsOf(msg)).h)
  {
    hide Represents, Consistent, TracksUser, InSync, Next, RunOk, DrawableMessage, ViewerMessage, PlainRun, CallsOf;
    NextSyncs(config, publicId, s, p, msg, s', user);
    NextTracks(config, publicId, s, p, msg, s', user);
    PushesValid(s, msg, user);
    NextConsistent(p, msg);
  }

  lemma {:induction false} PushesValid(s: RoomState, msg: UserMessage, user: UserId)
    requires ViewerMessage(s, msg, user)
    ensures msg.PushMsg? ==> AllValid(msg.data)
  {
  }

  /**
   * From the server to the viewer's canvas. Over every run of a room in which a viewer joins, sends only honest
   * pulls, and is sent messages that can be drawn: once it has pulled, what it has drawn is the fold of the edits
   * the server holds as current, whatever was flushed, cached or expired on the way.
   */
  lemma {:induction false} ViewerDrawsServer(
    config: Config, publicId: Uuid, states: seq<RoomState>, msgs: seq<UserMessage>, p: Plain, user: UserId)
    requires TaskRun(config, publicId, states, msgs) && MessagesOk(p, msgs) && config.queueSize >= 1
    requires Represents(config, publicId, states[0].board, p) && Consistent(p.h)
    requires user !in states[0].users && DrawableRun(states, msgs, p, user)
    ensures var s := states[|msgs|];
            user in s.users ==>
              var drawn, server := Drawn(s.users[user]), Meaning(s.board, publicId);
              && (drawn.None? <==> Replica(s.users[user]).None?)
              && (drawn.Some? ==>
                    && !drawn.value.threw && drawn.value.manager.history == server
                    && View(drawn.value.manager.layer) == Fold(server.current))
  {
    RunTracks(config, publicId, states, msgs, p, user);
    hide TaskRun, MessagesOk, DrawableRun, Consistent, Drawn, Replica, Coherent, Meaning, PlainAfter, Within;
  }
}
