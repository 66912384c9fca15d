/** Over every run of a room, a viewer's replica is the server's two lists; unloading and reloading loses nothing. */
module Viewers {
  import opened Wrappers
  import opened Edits
  import opened Histories
  import opened EditTables
  import opened Pulls
  import opened BoardMachine
  import opened Boards
  import opened RoomMachine

  /** Once the user has pulled, its replica is `h`. */
  predicate InSync(s: RoomState, user: UserId, h: History) {
    user in s.users ==> Replica(s.users[user]) == None || Replica(s.users[user]) == Some(h)
  }

  /** The message gives the user a new channel, or takes the user's channel away. */
  predicate Reconnects(msg: UserMessage, user: UserId) {
    (msg.Join? || msg.Quit?) && msg.user == user
  }

  /** A connected user that pulls, or has pulled and stays connected, has a replica. */
  predicate KeepsReplica(s: RoomState, msg: UserMessage, s': RoomState, user: UserId) {
    (user in s.users && !Reconnects(msg, user) &&
     ((msg.PullMsg? && msg.user == user) || Replica(s.users[user]).Some?)) ==>
      user in s'.users && Replica(s'.users[user]).Some?
  }

  /** What a viewer may send: pulls that list what it holds. Pushes by others are not silent and fully valid. */
  predicate ViewerMessage(s: RoomState, msg: UserMessage, user: UserId) {
    match msg
    case UndoRedo(sender, _, _, _) => sender != user
    case EmptyMsg(sender, _) => sender != user
    case PushMsg(sender, data, silent) => sender != user && !silent && AllValid(data)
    case PullMsg(sender, _, current, undone) =>
      sender == user && user in s.users ==>
        var replica := Replica(s.users[user]);
        var h := if replica.Some? then replica.value else EMPTY;
        current == IdList(h.current) && undone == IdList(h.undone)
    case _ => true
  }

  lemma {:induction false} AllValidPrefix(data: seq<EditAction>)
    ensures AllValid(data) <==> |ValidPrefix(data)| == |data|
    ensures |ValidPrefix(data)| == |data| <==> ValidPrefix(data) == data
    ensures AllValid(ValidPrefix(data))
  {
    var n := ValidCount(data);
    if n == |data| {
      assert data[..n] == data;
    }
  }

  lemma {:induction false} PlainPushes(p: Plain, data: seq<EditAction>)
    requires AllValid(data)
    ensures PlainRun(p, PushCalls(data)).h == p.h.(current := p.h.current + EditsOf(data))
    decreases |data|
  {
    if data != [] {
      var item, rest := data[0], data[1..];
      var p' := PlainStep(p, PushEdit(item.stamp, item.edit)).0;
      assert PushCalls(data)[1..] == PushCalls(rest);
      PlainPushes(p', rest);
      assert p.h.current + EditsOf(data) == p.h.current + [item.edit] + EditsOf(rest);
    } else {
      assert EditsOf(data) == [];
    }
  }

  lemma {:induction false} KeepAll(edits: seq<Edit>)
    ensures KeptEdits(edits, {}) == edits
  {
    if edits != [] {
      KeepAll(edits[..|edits| - 1]);
    }
  }

  lemma {:induction false} HonestDiff(data: EditData, h: seq<Edit>)
    requires IsDiff(data, h, IdList(h))
    ensures ApplyEditData(h, data) == h
  {
    IdListMembers(h);
    NothingMissing(h, IdList(h));
    EmptySet(data.shouldBeDeletedIds);
    KeepAll(h);
  }

  lemma {:induction false} FirstSync(data: PullData, h: History)
    requires IsPullOf(data, h, IdList([]), IdList([]))
    ensures ApplyEditData([], data.current) == h.current && ApplyEditData([], data.undone) == h.undone
  {
    assert IdList([]) == [];
    FirstPull(data, h);
    hide IsPullOf, IdList;
    assert KeptEdits([], {}) == [] && ToSet([]) == {} && [] + h.current == h.current && [] + h.undone == h.undone;
  }

  /** A pull that lists the replica's ids brings the replica to the server's lists, or keeps it there. */
  lemma {:induction false} PullSyncs(replica: Option<History>, data: PullData, h: History)
    requires replica == None || replica == Some(h)
    requires var held := if replica.Some? then h else EMPTY;
             IsPullOf(data, h, IdList(held.current), IdList(held.undone))
    ensures Receive(replica, PullReply(data)) == Some(h)
  {
    hide IsDiff, IdList, ApplyEditData;
    if replica == None {
      FirstSync(data, h);
    } else {
      HonestDiff(data.current, h.current);
      HonestDiff(data.undone, h.undone);
    }
  }

  // One message

  lemma {:induction false} SendKeepsReplica(users: Channels, to: UserId, msg: ServerMessage, user: UserId)
    requires msg.SizeData? || msg.TitleData? || msg.Info?
    ensures user in users ==>
              user in SendById(users, to, msg) && Replica(SendById(users, to, msg)[user]) == Replica(users[user])
  {
    if user in users {
      ReplicaAppend(users[user], msg);
    }
  }

  /** What a message that changes the board in full is broadcast as. */
  function BroadcastOf(msg: UserMessage): ServerMessage
    requires msg.UndoRedo? || msg.EmptyMsg? || msg.PushMsg?
  {
    match msg
    case UndoRedo(_, _, action, id) => UndoRedoData(action, id)
    case EmptyMsg(_, status) => EmptyData(status)
    case PushMsg(_, data, _) => PushData(EditsOf(data))
  }

  /** Each broadcast does to a synchronised replica what its message did to the board. */
  lemma {:induction false} BroadcastSyncs(p: Plain, msg: UserMessage)
    requires msg.UndoRedo? || msg.EmptyMsg? || (msg.PushMsg? && AllValid(msg.data))
    ensures Receive(Some(p.h), BroadcastOf(msg)) == Some(PlainRun(p, CallsOf(msg)).h)
  {
    match msg
    case UndoRedo(_, now, action, id) =>
      assert CallsOf(msg)[1..] == [];
    case EmptyMsg(_, status) =>
      assert CallsOf(msg)[1..] == [];
    case PushMsg(_, data, _) =>
      AllValidPrefix(data);
      PlainPushes(p, data);
  }

  lemma {:induction false} ChangeSync(publicId: Uuid, moved: RoomState, p: Plain, msg: UserMessage, user: UserId)
    requires InSync(moved, user, p.h) && ViewerMessage(moved, msg, user)
    requires msg.UndoRedo? || msg.EmptyMsg? || msg.PushMsg?
    ensures InSync(Others(moved, publicId, msg), user, PlainRun(p, CallsOf(msg)).h)
    ensures KeepsReplica(moved, msg, Others(moved, publicId, msg), user)
  {
    if msg.PushMsg? {
      AllValidPrefix(msg.data);
    }
    assert Others(moved, publicId, msg).users == SendToEveryone(moved.users, msg.user, BroadcastOf(msg));
    if user in moved.users {
      ReplicaAppend(moved.users[user], BroadcastOf(msg));
      BroadcastSyncs(p, msg);
    }
  }

  lemma {:induction false} BroadcastKeepsReplica(users: Channels, except: UserId, msg: ServerMessage, user: UserId)
    requires msg.SizeData? || msg.TitleData?
    ensures user in users ==>
              && user in SendToEveryone(users, except, msg)
              && Replica(SendToEveryone(users, except, msg)[user]) == Replica(users[user])
  {
    if user in users {
      ReplicaAppend(users[user], msg);
    }
  }

  lemma {:induction false} JoinSync(publicId: Uuid, moved: RoomState, msg: UserMessage, user: UserId, h: History)
    requires InSync(moved, user, h) && msg.Join?
    ensures InSync(Others(moved, publicId, msg), user, h)
    ensures KeepsReplica(moved, msg, Others(moved, publicId, msg), user)
  {
    var joined := moved.users[msg.user := []];
    SendKeepsReplica(joined, msg.user, SizeData(moved.size), user);
    SendKeepsReplica(SendById(joined, msg.user, SizeData(moved.size)), msg.user, TitleData(moved.title), user);
  }

  /** The messages that leave the lists alone leave every replica alone. */
  lemma {:induction false} QuietSync(publicId: Uuid, moved: RoomState, msg: UserMessage, user: UserId, h: History)
    requires InSync(moved, user, h) && !msg.PullMsg? && !msg.UndoRedo? && !msg.EmptyMsg? && !msg.PushMsg?
    ensures InSync(Others(moved, publicId, msg), user, h)
    ensures KeepsReplica(moved, msg, Others(moved, publicId, msg), user)
  {
    match msg
    case Join(_) => JoinSync(publicId, moved, msg, user, h);
    case SetTitle(sender, title) =>
      BroadcastKeepsReplica(moved.users, sender, TitleData(title), user);
      SendKeepsReplica(moved.users, sender, Info("SetTitle"), user);
    case SetSize(sender, size) =>
      if size.Some? {
        BroadcastKeepsReplica(moved.users, sender, SizeData(size.value), user);
      }
      SendKeepsReplica(moved.users, sender, Info("SetSize"), user);
    case _ =>
  }

  lemma {:induction false} QuietRun(p: Plain, msg: UserMessage)
    requires !msg.UndoRedo? && !msg.EmptyMsg? && !msg.PushMsg?
    ensures PlainRun(p, CallsOf(msg)) == p
  {
    var calls := CallsOf(msg);
    if calls != [] {
      assert calls[1..] == [];
      assert PlainRun(p, calls) == PlainRun(PlainStep(p, calls[0]).0, []);
    }
  }

  lemma {:induction false} OthersSync(publicId: Uuid, moved: RoomState, p: Plain, msg: UserMessage, user: UserId)
    requires InSync(moved, user, p.h) && ViewerMessage(moved, msg, user) && !msg.PullMsg?
    ensures InSync(Others(moved, publicId, msg), user, PlainRun(p, CallsOf(msg)).h)
    ensures KeepsReplica(moved, msg, Others(moved, publicId, msg), user)
  {
    if msg.UndoRedo? || msg.EmptyMsg? || msg.PushMsg? {
      ChangeSync(publicId, moved, p, msg, user);
    } else {
      QuietRun(p, msg);
      QuietSync(publicId, moved, msg, user, p.h);
    }
  }

  lemma {:induction false} PullSync(
    config: Config, publicId: Uuid, moved: RoomState, p: Plain, msg: UserMessage, s': RoomState, user: UserId,
    data: PullData)
    requires InSync(moved, user, p.h) && ViewerMessage(moved, msg, user) && msg.PullMsg?
    requires IsPullOf(data, p.h, msg.current, msg.undone)
    requires s' == moved.(users := SendById(moved.users, msg.user, PullReply(data)))
    ensures InSync(s', user, p.h) && KeepsReplica(moved, msg, s', user)
  {
    if msg.user == user && user in moved.users {
      ReplicaAppend(moved.users[user], PullReply(data));
      PullSyncs(Replica(moved.users[user]), data, p.h);
    }
  }

  lemma {:induction false} NextRepresents(
    config: Config, publicId: Uuid, s: RoomState, p: Plain, msg: UserMessage, s': RoomState)
    requires s.running && Next(config, publicId, s, msg, s') && config.queueSize >= 1
    requires Represents(config, publicId, s.board, p) && RunOk(p, CallsOf(msg))
    ensures Represents(config, publicId, s'.board, PlainRun(p, CallsOf(msg)))
  {
    hide Represents, RunOk, BoardRun, PlainRun, CallsOf, Flush;
    RunRefines(config, publicId, s.board, p, CallsOf(msg));
    FlushRepresents(config, publicId, BoardRun(config, publicId, s.board, CallsOf(msg)), PlainRun(p, CallsOf(msg)));
  }

  lemma {:induction false} NextSyncsPull(
    config: Config, publicId: Uuid, s: RoomState, p: Plain, msg: UserMessage, s': RoomState, user: UserId)
    requires s.running && Next(config, publicId, s, msg, s') && msg.PullMsg? && config.queueSize >= 1
    requires Represents(config, publicId, s.board, p) && RunOk(p, CallsOf(msg))
    requires InSync(s, user, p.h) && ViewerMessage(s, msg, user)
    ensures InSync(s', user, PlainRun(p, CallsOf(msg)).h) && KeepsReplica(s, msg, s', user)
  {
    var moved := s.(board := BoardRun(config, publicId, s.board, CallsOf(msg)));
    assert Meaning(moved.board, publicId) == PlainRun(p, CallsOf(msg)).h by {
      RunRefines(config, publicId, s.board, p, CallsOf(msg));
    }
    QuietRun(p, msg);
    var data :| IsPullOf(data, Meaning(moved.board, publicId), msg.current, msg.undone)
                && s' == moved.(users := SendById(s.users, msg.user, PullReply(data)));
    PullSync(config, publicId, moved, p, msg, s', user, data);
  }

  lemma {:induction false} NextSyncsOthers(
    config: Config, publicId: Uuid, s: RoomState, p: Plain, msg: UserMessage, s': RoomState, user: UserId)
    requires s.running && Next(config, publicId, s, msg, s') && !msg.PullMsg?
    requires InSync(s, user, p.h) && ViewerMessage(s, msg, user)
    ensures InSync(s', user, PlainRun(p, CallsOf(msg)).h) && KeepsReplica(s, msg, s', user)
  {
    OthersSync(publicId, s.(board := BoardRun(config, publicId, s.board, CallsOf(msg))), p, msg, user);
  }

  /** One message keeps the board a picture of the plain history and every viewer's replica equal to it. */
  lemma {:induction false} NextSyncs(
    config: Config, publicId: Uuid, s: RoomState, p: Plain, msg: UserMessage, s': RoomState, user: UserId)
    requires s.running && Next(config, publicId, s, msg, s') && config.queueSize >= 1
    requires Represents(config, publicId, s.board, p) && RunOk(p, CallsOf(msg))
    requires InSync(s, user, p.h) && ViewerMessage(s, msg, user)
    ensures Represents(config, publicId, s'.board, PlainRun(p, CallsOf(msg)))
    ensures InSync(s', user, PlainRun(p, CallsOf(msg)).h) && KeepsReplica(s, msg, s', user)
  {
    NextRepresents(config, publicId, s, p, msg, s');
    if msg.PullMsg? {
      NextSyncsPull(config, publicId, s, p, msg, s', user);
    } else {
      NextSyncsOthers(config, publicId, s, p, msg, s', user);
    }
  }

  // Runs of one message loop

  /** The states of a message loop, from one message to the next. */
  ghost predicate TaskRun(config: Config, publicId: Uuid, states: seq<RoomState>, msgs: seq<UserMessage>) {
    && |states| == |msgs| + 1
    && forall k :: 0 <= k < |msgs| ==> states[k].running && Next(config, publicId, states[k], msgs[k], states[k + 1])
  }

  function PlainAfter(p: Plain, msgs: seq<UserMessage>): Plain {
    if msgs == [] then p
    else PlainRun(PlainAfter(p, msgs[..|msgs| - 1]), CallsOf(msgs[|msgs| - 1]))
  }

  /** Every message's edits are new, its times increase, its commands have something to do. */
  ghost predicate MessagesOk(p: Plain, msgs: seq<UserMessage>) {
    forall k :: 0 <= k < |msgs| ==> RunOk(PlainAfter(p, msgs[..k]), CallsOf(msgs[k]))
  }

  /** A run without its last message is a run. */
  lemma {:induction false} RunPrefix(
    config: Config, publicId: Uuid, states: seq<RoomState>, msgs: seq<UserMessage>, p: Plain)
    requires TaskRun(config, publicId, states, msgs) && MessagesOk(p, msgs) && msgs != []
    ensures var last := |msgs| - 1;
            && TaskRun(config, publicId, states[..|msgs|], msgs[..last]) && MessagesOk(p, msgs[..last])
            && RunOk(PlainAfter(p, msgs[..last]), CallsOf(msgs[last]))
            && states[last].running && Next(config, publicId, states[last], msgs[last], states[|msgs|])
  {
    hide RunOk, Next, CallsOf, PlainAfter;
    assert forall k :: 0 <= k < |msgs| ==> msgs[..|msgs| - 1][..k] == msgs[..k];
  }

  /** Every run of a room keeps its board standing for the plain history of its messages. */
  lemma {:induction false} RoomRefines(
    config: Config, publicId: Uuid, states: seq<RoomState>, msgs: seq<UserMessage>, p: Plain)
    requires TaskRun(config, publicId, states, msgs) && MessagesOk(p, msgs) && config.queueSize >= 1
    requires Represents(config, publicId, states[0].board, p)
    ensures Represents(config, publicId, states[|msgs|].board, PlainAfter(p, msgs))
    decreases |msgs|
  {
    if msgs != [] {
      var last := |msgs| - 1;
      RunPrefix(config, publicId, states, msgs, p);
      RoomRefines(config, publicId, states[..|msgs|], msgs[..last], p);
      NextRepresents(config, publicId, states[last], PlainAfter(p, msgs[..last]), msgs[last], states[|msgs|]);
    }
  }

  /**
   * Replica agreement. After every message of every run, whatever was flushed, expired or cleared on the way,
   * a viewer that has pulled holds exactly the two lists the board stands for.
   */
  lemma {:induction false} ViewerAgreement(
    config: Config, publicId: Uuid, states: seq<RoomState>, msgs: seq<UserMessage>, p: Plain, user: UserId)
    requires TaskRun(config, publicId, states, msgs) && MessagesOk(p, msgs) && config.queueSize >= 1
    requires Represents(config, publicId, states[0].board, p) && InSync(states[0], user, p.h)
    requires forall k :: 0 <= k < |msgs| ==> ViewerMessage(states[k], msgs[k], user)
    ensures InSync(states[|msgs|], user, Meaning(states[|msgs|].board, publicId))
    decreases |msgs|
  {
    if msgs != [] {
      var last := |msgs| - 1;
      RunPrefix(config, publicId, states, msgs, p);
      ViewerAgreement(config, publicId, states[..|msgs|], msgs[..last], p, user);
      RoomRefines(config, publicId, states[..|msgs|], msgs[..last], p);
      NextSyncs(config, publicId, states[last], PlainAfter(p, msgs[..last]), msgs[last], states[|msgs|], user);
    }
  }

  /** What a push message adds to the lists. */
  lemma {:induction false} PushMeaning(config: Config, publicId: Uuid, s: BoardState, p: Plain, msg: UserMessage)
    requires Represents(config, publicId, s, p) && msg.PushMsg? && RunOk(p, CallsOf(msg)) && config.queueSize >= 1
    ensures Meaning(BoardRun(config, publicId, s, CallsOf(msg)), publicId)
            == p.h.(current := p.h.current + EditsOf(ValidPrefix(msg.data)))
  {
    hide Coherent, Within, RunOk, BoardRun, PlainRun, ValidPrefix, Meaning;
    RunRefines(config, publicId, s, p, CallsOf(msg));
    AllValidPrefix(msg.data);
    PlainPushes(p, ValidPrefix(msg.data));
  }

  /**
   * The guard on pushes is exact: a push message keeps a synchronised viewer synchronised exactly when it is
   * broadcast in full, or changes nothing because its first edit is already invalid.
   */
  lemma {:induction false} PushSyncsIff(
    config: Config, publicId: Uuid, s: RoomState, p: Plain, msg: UserMessage, s': RoomState, user: UserId)
    requires s.running && Next(config, publicId, s, msg, s') && config.queueSize >= 1
    requires Represents(config, publicId, s.board, p) && msg.PushMsg? && RunOk(p, CallsOf(msg))
    requires user in s.users && user != msg.user && Replica(s.users[user]) == Some(p.h)
    ensures InSync(s', user, Meaning(s'.board, publicId))
            <==> (!msg.silent && AllValid(msg.data)) || ValidPrefix(msg.data) == []
  {
    hide Represents, RunOk, BoardRun, ValidPrefix, AllValid, Replica, Meaning;
    var prefix, h := ValidPrefix(msg.data), p.h;
    assert s'.board == BoardRun(config, publicId, s.board, CallsOf(msg));
    PushMeaning(config, publicId, s.board, p, msg);
    AllValidPrefix(msg.data);
    ReplicaAppend(s.users[user], PushData(EditsOf(msg.data)));
    assert h.current + EditsOf(prefix) == h.current <==> prefix == [] by {
      assert |h.current + EditsOf(prefix)| == |h.current| + |prefix|;
    }
  }

  // Unloading and reloading

  /** The size a room holds has passed `validate_size`. */
  lemma {:induction false} NextKeepsSize(config: Config, publicId: Uuid, s: RoomState, msg: UserMessage, s': RoomState)
    requires Next(config, publicId, s, msg, s') && ValidSize(s.size)
    ensures ValidSize(s'.size)
  {
  }

  lemma {:induction false} RunKeepsSize(config: Config, publicId: Uuid, states: seq<RoomState>, msgs: seq<UserMessage>)
    requires TaskRun(config, publicId, states, msgs) && ValidSize(states[0].size)
    ensures ValidSize(states[|msgs|].size)
    decreases |msgs|
  {
    if msgs != [] {
      var last := |msgs| - 1;
      RunKeepsSize(config, publicId, states[..|msgs|], msgs[..last]);
      NextKeepsSize(config, publicId, states[last], msgs[last], states[|msgs|]);
    }
  }

  /** A size survives the SMALLINT columns exactly when it fits them. */
  lemma {:induction false} SmallIntRoundTrip(record: BoardRecord, title: Title, size: BoardSize)
    requires LoadSize(record) != size
    ensures LoadSize(UpdateRecord(record, title, size)) == size <==> IsSmallInt(size.height) && IsSmallInt(size.width)
  {
  }

  /**
   * Unload and reload is the identity. At the end of any run of a room whose size was valid at the start, the
   * room spawned again from the tables has the same lists, title and size, and goes on standing for the same
   * plain history.
   */
  lemma {:induction false} UnloadReload(
    config: Config, publicId: Uuid, states: seq<RoomState>, msgs: seq<UserMessage>, p: Plain, now: nat)
    requires TaskRun(config, publicId, states, msgs) && MessagesOk(p, msgs) && config.queueSize >= 1
    requires Represents(config, publicId, states[0].board, p) && ValidSize(states[0].size)
    ensures var s := states[|msgs|];
            var again := Reload(Unload(s, publicId), now);
            && Meaning(again.board, publicId) == Meaning(s.board, publicId)
            && again.title == s.title && again.size == s.size && again.users == map[] && again.running
            && Represents(config, publicId, again.board, PlainAfter(p, msgs))
  {
    hide Represents, MessagesOk;
    var s := states[|msgs|];
    assert Represents(config, publicId, s.board, PlainAfter(p, msgs)) by {
      RoomRefines(config, publicId, states, msgs, p);
    }
    assert ValidSize(s.size) by {
      RunKeepsSize(config, publicId, states, msgs);
    }
    ReloadBoard(config, publicId, s.board, PlainAfter(p, msgs), now);
  }

  lemma {:induction false} ReloadBoard(config: Config, publicId: Uuid, s: BoardState, p: Plain, now: nat)
    requires Represents(config, publicId, s, p)
    ensures var again := BoardState(Flush(s, publicId).rows, None, now, []);
            Meaning(again, publicId) == Meaning(s, publicId) && Represents(config, publicId, again, p)
  {
    FlushRepresents(config, publicId, s, p);
    FlushMeaning(config, publicId, s);
  }
}
