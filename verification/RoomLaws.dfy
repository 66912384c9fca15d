/** What each message does to a room, in terms of its users, title, size, record and log, and what ends its loop. */
module RoomLaws {
  import opened Wrappers
  import opened Edits
  import opened EditTables
  import opened Pulls
  import opened BoardMachine
  import opened Boards
  import opened RoomMachine
  import opened Viewers

  /** The users in `to` were sent one more message; all other channels are as they were. */
  predicate Heard(users: Channels, users': Channels, to: set<UserId>, msg: ServerMessage) {
    && users'.Keys == users.Keys
    && forall user <- users :: users'[user] == if user in to then users[user] + [msg] else users[user]
  }

  /** Only board and channels may differ. */
  predicate SameSettings(s: RoomState, s': RoomState) {
    s'.title == s.title && s'.size == s.size && s'.record == s.record && s'.running == s.running
  }

  /** The loop ends at this message: the room expires, or is asked for users and has none. */
  predicate Ends(s: RoomState, msg: UserMessage) {
    msg.ExpireRoom? || (msg.HasUsers? && s.users == map[])
  }

  /** The loop goes on unless the room expires, or is asked for users and has none. */
  lemma {:induction false} EndsIff(config: Config, publicId: Uuid, s: RoomState, msg: UserMessage, s': RoomState)
    requires s.running && Next(config, publicId, s, msg, s')
    ensures s'.running <==> !Ends(s, msg)
  {
    hide IsPullOf, Meaning, BoardRun, Flush, Persist;
  }

  /** A run ends at its first message that ends the loop, and only there. */
  lemma {:induction false} RunEndsIff(
    config: Config, publicId: Uuid, states: seq<RoomState>, msgs: seq<UserMessage>)
    requires TaskRun(config, publicId, states, msgs) && states[0].running
    ensures states[|msgs|].running <==> forall k :: 0 <= k < |msgs| ==> !Ends(states[k], msgs[k])
    ensures forall k :: 0 <= k < |msgs| - 1 ==> !Ends(states[k], msgs[k])
  {
    hide Next, Ends;
    forall k | 0 <= k < |msgs| ensures states[k + 1].running <==> !Ends(states[k], msgs[k]) {
      EndsIff(config, publicId, states[k], msgs[k], states[k + 1]);
    }
    forall k | 0 <= k < |msgs| - 1 ensures !Ends(states[k], msgs[k]) {
      assert states[k + 1].running;
    }
    if msgs != [] {
      assert states[|msgs| - 1 + 1].running <==> !Ends(states[|msgs| - 1], msgs[|msgs| - 1]);
    }
  }

  /** Ending the loop writes title, size and log; the table then reads as the lists the board stood for. */
  lemma {:induction false} EndWrites(
    config: Config, publicId: Uuid, s: RoomState, p: Plain, msg: UserMessage, s': RoomState)
    requires s.running && Next(config, publicId, s, msg, s') && Ends(s, msg)
    requires Represents(config, publicId, s.board, p)
    ensures !s'.running && s'.users == s.users && s'.title == s.title && s'.size == s.size
    ensures s'.board.queue == [] && s'.board.cache == None
    ensures ReadBoard(s'.board.rows, publicId) == p.h
    ensures s.size.height <= 32_767 && s.size.width <= 32_767
            ==> s'.record == BoardRecord(s.title, s.size.height, s.size.width)
    ensures !(s.size.height <= 32_767 && s.size.width <= 32_767) ==> s'.record == s.record
  {
    hide Represents, Flush;
    assert BoardRun(config, publicId, s.board, []) == s.board;
    FlushWrites(config, publicId, s.board, p);
  }

  lemma {:induction false} FlushWrites(config: Config, board: Uuid, s: BoardState, p: Plain)
    requires Represents(config, board, s, p)
    ensures Flush(s, board).queue == [] && Flush(s, board).cache == None
    ensures ReadBoard(Flush(s, board).rows, board) == p.h
  {
    FlushMeaning(config, board, s);
  }

  /** Asked whether it has users, a room with users goes on as it is, and a room without any ends. */
  lemma {:induction false} HasUsersLaw(config: Config, publicId: Uuid, s: RoomState, s': RoomState)
    requires s.running && Next(config, publicId, s, HasUsers, s')
    ensures s'.running <==> s.users != map[]
    ensures s.users != map[] ==> s' == s
  {
    hide Flush, Persist;
    assert BoardRun(config, publicId, s.board, []) == s.board;
  }

  /** A user that joins has a new channel holding size and title; the other channels and the board stay. */
  lemma {:induction false} JoinLaw(config: Config, publicId: Uuid, s: RoomState, user: UserId, s': RoomState)
    requires s.running && Next(config, publicId, s, Join(user), s')
    ensures s'.users == s.users[user := [SizeData(s.size), TitleData(s.title)]]
    ensures s'.board == s.board && SameSettings(s, s')
  {
    assert [] + [SizeData(s.size)] + [TitleData(s.title)] == [SizeData(s.size), TitleData(s.title)];
    assert BoardRun(config, publicId, s.board, []) == s.board;
  }

  /** A user that quits is gone, and nobody else. */
  lemma {:induction false} QuitLaw(config: Config, publicId: Uuid, s: RoomState, user: UserId, s': RoomState)
    requires s.running && Next(config, publicId, s, Quit(user), s')
    ensures user !in s'.users
    ensures forall other :: other != user ==>
              (other in s'.users <==> other in s.users) && (other in s.users ==> s'.users[other] == s.users[other])
    ensures s'.board == s.board && SameSettings(s, s')
  {
    assert BoardRun(config, publicId, s.board, []) == s.board;
  }

  /** A title of at most 36 bytes is taken, recorded and sent to the others; a longer one changes nothing. */
  lemma {:induction false} TitleLaw(
    config: Config, publicId: Uuid, s: RoomState, user: UserId, title: Title, s': RoomState)
    requires s.running && Next(config, publicId, s, SetTitle(user, title), s')
    ensures s'.board == s.board && s'.size == s.size && s'.running
    ensures |title| <= 36 ==>
              && s'.title == title && Heard(s.users, s'.users, s.users.Keys - {user}, TitleData(title))
              && (IsSmallInt(s.size.height) && IsSmallInt(s.size.width) ==>
                  s'.record == BoardRecord(title, s.size.height, s.size.width))
    ensures |title| > 36 ==> SameSettings(s, s') && Heard(s.users, s'.users, {user}, Info("SetTitle"))
  {
    assert BoardRun(config, publicId, s.board, []) == s.board;
  }

  /** A size of at most 10000 by 10000 is taken and sent to the others, and is not yet in the record. */
  lemma {:induction false} SizeLaw(
    config: Config, publicId: Uuid, s: RoomState, user: UserId, size: Option<BoardSize>, s': RoomState)
    requires s.running && Next(config, publicId, s, SetSize(user, size), s')
    ensures s'.board == s.board && s'.title == s.title && s'.record == s.record && s'.running
    ensures if size.Some? && size.value.height <= 10_000 && size.value.width <= 10_000
            then s'.size == size.value && Heard(s.users, s'.users, s.users.Keys - {user}, SizeData(size.value))
            else s'.size == s.size && Heard(s.users, s'.users, {user}, Info("SetSize"))
  {
    assert BoardRun(config, publicId, s.board, []) == s.board;
  }

  /** Commands and emptied lists are sent on to everyone but their sender. */
  lemma {:induction false} BroadcastLaw(config: Config, publicId: Uuid, s: RoomState, msg: UserMessage, s': RoomState)
    requires s.running && Next(config, publicId, s, msg, s') && (msg.UndoRedo? || msg.EmptyMsg?)
    ensures SameSettings(s, s')
    ensures Heard(s.users, s'.users, s.users.Keys - {msg.user},
                  if msg.UndoRedo? then UndoRedoData(msg.action, msg.actionId) else EmptyData(msg.status))
  {
    hide BoardRun;
  }

  /** Pushes are sent on when all are valid and none is silent; after an invalid one only the sender is told. */
  lemma {:induction false} PushLaw(
    config: Config, publicId: Uuid, s: RoomState, user: UserId, data: seq<EditAction>, silent: bool, s': RoomState)
    requires s.running && Next(config, publicId, s, PushMsg(user, data, silent), s')
    ensures SameSettings(s, s')
    ensures var valid := forall i :: 0 <= i < |data| ==> ValidEdit(data[i].edit);
            && (!valid ==> Heard(s.users, s'.users, {user}, Info("Push")))
            && (valid && silent ==> s'.users == s.users)
            && (valid && !silent ==> Heard(s.users, s'.users, s.users.Keys - {user}, PushData(EditsOf(data))))
  {
    hide BoardRun, ValidEdit;
    AllValidPrefix(data);
  }

  /** A pull is answered to its sender alone, with the diff against the lists the board stands for. */
  lemma {:induction false} PullLaw(
    config: Config, publicId: Uuid, s: RoomState, p: Plain, msg: UserMessage, s': RoomState) returns (data: PullData)
    requires s.running && Next(config, publicId, s, msg, s') && msg.PullMsg?
    requires Represents(config, publicId, s.board, p)
    ensures IsPullOf(data, p.h, msg.current, msg.undone)
    ensures Heard(s.users, s'.users, {msg.user}, PullReply(data)) && SameSettings(s, s')
    ensures s'.board == BoardState(s.board.rows, Some(ReadBoard(s.board.rows, publicId)), msg.at, s.board.queue)
  {
    hide IsPullOf, Coherent, Meaning;
    var call := Pull(msg.at, msg.current, msg.undone);
    OneCall(config, publicId, s.board, call);
    PullFills(config, publicId, s.board, msg.at, msg.current, msg.undone);
    PullMeaning(config, publicId, s.board, msg.at);
    var moved := BoardStep(config, publicId, s.board, call).0;
    data :| IsPullOf(data, Meaning(moved, publicId), msg.current, msg.undone)
            && s' == s.(board := moved, users := SendById(s.users, msg.user, PullReply(data)));
  }

  /** The cache goes when it was last used over `cacheSeconds` whole seconds ago or in the future; all else stays. */
  lemma {:induction false} ExpireCacheLaw(config: Config, publicId: Uuid, s: RoomState, at: nat, s': RoomState)
    requires s.running && Next(config, publicId, s, TryExpireCache(at), s')
    ensures s'.users == s.users && SameSettings(s, s')
    ensures var used := s.board.cacheUsedAt;
            var expired := at < used || (at - used) / 1_000_000_000 > config.cacheSeconds;
            s'.board == s.board.(cache := if expired then None else s.board.cache)
  {
    OneCall(config, publicId, s.board, ClearDbCache(at));
  }

  /** The state in which a loop ends is the one its last message found, unloaded. */
  lemma {:induction false} EndsUnloaded(
    config: Config, publicId: Uuid, states: seq<RoomState>, msgs: seq<UserMessage>, p: Plain)
    requires TaskRun(config, publicId, states, msgs) && MessagesOk(p, msgs)
    requires states[0].running && !states[|msgs|].running
    ensures msgs != [] && states[|msgs|] == Unload(states[|msgs| - 1], publicId)
    ensures PlainAfter(p, msgs) == PlainAfter(p, msgs[..|msgs| - 1])
  {
    hide IsPullOf, Flush, Persist, RunOk;
    var last := |msgs| - 1;
    EndsIff(config, publicId, states[last], msgs[last], states[|msgs|]);
    assert CallsOf(msgs[last]) == [];
    assert BoardRun(config, publicId, states[last].board, []) == states[last].board;
    QuietRun(PlainAfter(p, msgs[..last]), msgs[last]);
  }

  /**
   * A room that ended comes back. However its loop ended, the room spawned from the two tables has no users, the
   * title and the size it ended with, and stands for the plain history of all its messages.
   */
  lemma {:induction false} EndReload(
    config: Config, publicId: Uuid, states: seq<RoomState>, msgs: seq<UserMessage>, p: Plain, now: nat)
    requires TaskRun(config, publicId, states, msgs) && MessagesOk(p, msgs) && config.queueSize >= 1
    requires Represents(config, publicId, states[0].board, p) && ValidSize(states[0].size)
    requires states[0].running && !states[|msgs|].running
    ensures var end, again := states[|msgs|], Reload(states[|msgs|], now);
            && again.users == map[] && again.running && again.title == end.title && again.size == end.size
            && Represents(config, publicId, again.board, PlainAfter(p, msgs))
  {
    hide Represents, RunOk, Next, Unload, CallsOf, PlainRun;
    EndsUnloaded(config, publicId, states, msgs, p);
    RunPrefix(config, publicId, states, msgs, p);
    UnloadReload(config, publicId, states[..|msgs|], msgs[..|msgs| - 1], p, now);
    UnloadKeeps(states[|msgs| - 1], publicId);
  }

  lemma {:induction false} UnloadKeeps(s: RoomState, publicId: Uuid)
    ensures Unload(s, publicId).title == s.title && Unload(s, publicId).size == s.size
  {
  }

  /** A negative column is read as the default, 900 high and 1720 wide. */
  lemma {:induction false} LoadDefaults(record: BoardRecord)
    ensures var size := LoadSize(record);
            && (record.height < 0 ==> size.height == 900) && (record.width < 0 ==> size.width == 1720)
            && (record.height >= 0 ==> size.height == record.height)
            && (record.width >= 0 ==> size.width == record.width)
  {
  }
}
