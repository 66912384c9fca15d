/** Title and size as a user sees them: the last ones received are the room's. */
module ViewerSettings {
  import opened Wrappers
  import opened Edits
  import opened Pulls
  import opened BoardMachine
  import opened Boards
  import opened RoomMachine
  import opened Viewers

  function LastSize(channel: seq<ServerMessage>): Option<BoardSize> {
    if channel == [] then None
    else
      var last := channel[|channel| - 1];
      if last.SizeData? then Some(last.size) else LastSize(channel[..|channel| - 1])
  }

  function LastTitle(channel: seq<ServerMessage>): Option<Title> {
    if channel == [] then None
    else
      var last := channel[|channel| - 1];
      if last.TitleData? then Some(last.title) else LastTitle(channel[..|channel| - 1])
  }

  lemma {:induction false} LastAppend(channel: seq<ServerMessage>, msg: ServerMessage)
    ensures LastSize(channel + [msg]) == if msg.SizeData? then Some(msg.size) else LastSize(channel)
    ensures LastTitle(channel + [msg]) == if msg.TitleData? then Some(msg.title) else LastTitle(channel)
  {
    assert (channel + [msg])[..|channel|] == channel;
  }

  /** The channel's last size and title are these. */
  predicate Tells(channel: seq<ServerMessage>, size: BoardSize, title: Title) {
    LastSize(channel) == Some(size) && LastTitle(channel) == Some(title)
  }

  /** A connected user was last sent the room's size and title. */
  predicate UpToDate(s: RoomState, user: UserId) {
    user in s.users ==> Tells(s.users[user], s.size, s.title)
  }

  /** The user changes the title or the size itself: it is not sent its own change. */
  predicate ChangesItself(s: RoomState, msg: UserMessage, user: UserId) {
    match msg
    case SetTitle(sender, title) => sender == user && ValidTitle(title) && title != s.title
    case SetSize(sender, size) => sender == user && size.Some? && ValidSize(size.value) && size.value != s.size
    case _ => false
  }

  lemma {:induction false} JoinTells(size: BoardSize, title: Title)
    ensures Tells([] + [SizeData(size)] + [TitleData(title)], size, title)
  {
    LastAppend([], SizeData(size));
    LastAppend([] + [SizeData(size)], TitleData(title));
  }

  lemma {:induction false} OthersTell(publicId: Uuid, moved: RoomState, msg: UserMessage, user: UserId)
    requires UpToDate(moved, user) && user in moved.users && !msg.PullMsg? && !(msg.Quit? && msg.user == user)
    ensures var s' := Others(moved, publicId, msg);
            user in s'.users && (UpToDate(s', user) <==> !ChangesItself(moved, msg, user))
  {
    hide Tells, Persist, UpdateRecord, Flush, ValidTitle, ValidSize;
    var channel, s' := moved.users[user], Others(moved, publicId, msg);
    match msg
    case Join(sender) => JoinTells(moved.size, moved.title);
    case SetTitle(sender, title) =>
      Told(channel, TitleData(title), moved.size, moved.title);
      Told(channel, Info("SetTitle"), moved.size, moved.title);
      TellsOne(channel, moved.size, moved.title, moved.size, title);
    case SetSize(sender, size) =>
      if size.Some? {
        Told(channel, SizeData(size.value), moved.size, moved.title);
        TellsOne(channel, moved.size, moved.title, size.value, moved.title);
      }
      Told(channel, Info("SetSize"), moved.size, moved.title);
    case UndoRedo(_, _, action, id) => Told(channel, UndoRedoData(action, id), moved.size, moved.title);
    case EmptyMsg(_, status) => Told(channel, EmptyData(status), moved.size, moved.title);
    case PushMsg(_, data, _) =>
      Told(channel, PushData(EditsOf(data)), moved.size, moved.title);
      Told(channel, Info("Push"), moved.size, moved.title);
    case _ =>
  }

  /** What a channel tells after one more message. */
  lemma {:induction false} Told(channel: seq<ServerMessage>, msg: ServerMessage, size: BoardSize, title: Title)
    requires Tells(channel, size, title)
    ensures Tells(channel + [msg],
                  if msg.SizeData? then msg.size else size, if msg.TitleData? then msg.title else title)
  {
    LastAppend(channel, msg);
  }

  lemma {:induction false} TellsOne(
    channel: seq<ServerMessage>, size: BoardSize, title: Title, size': BoardSize, title': Title)
    requires Tells(channel, size, title)
    ensures Tells(channel, size', title') <==> size == size' && title == title'
  {
  }

  /** One message keeps a connected user up to date exactly when it is not the user's own change. */
  lemma {:induction false} NextTellsIff(
    config: Config, publicId: Uuid, s: RoomState, msg: UserMessage, s': RoomState, user: UserId)
    requires s.running && Next(config, publicId, s, msg, s')
    requires UpToDate(s, user) && user in s.users && !(msg.Quit? && msg.user == user)
    ensures user in s'.users && (UpToDate(s', user) <==> !ChangesItself(s, msg, user))
  {
    hide Tells, BoardRun, IsPullOf;
    var moved := s.(board := BoardRun(config, publicId, s.board, CallsOf(msg)));
    if msg.PullMsg? {
      var data :| s' == moved.(users := SendById(s.users, msg.user, PullReply(data)));
      Told(s.users[user], PullReply(data), s.size, s.title);
      assert s'.users == SendById(s.users, msg.user, PullReply(data));
    } else {
      OthersTell(publicId, moved, msg, user);
      assert ChangesItself(moved, msg, user) <==> ChangesItself(s, msg, user);
    }
  }

  /** A user that was not connected is up to date from its first message on. */
  lemma {:induction false} NewUserTold(
    config: Config, publicId: Uuid, s: RoomState, msg: UserMessage, s': RoomState, user: UserId)
    requires s.running && Next(config, publicId, s, msg, s') && user !in s.users
    ensures UpToDate(s', user) && (user in s'.users <==> msg.Join? && msg.user == user)
  {
    hide Tells, BoardRun, IsPullOf;
    if msg.Join? {
      JoinTells(s.size, s.title);
    }
  }

  /** Over every run a user that changes neither title nor size was last sent the room's title and size. */
  lemma {:induction false} RunTells(
    config: Config, publicId: Uuid, states: seq<RoomState>, msgs: seq<UserMessage>, user: UserId)
    requires TaskRun(config, publicId, states, msgs) && UpToDate(states[0], user)
    requires forall k :: 0 <= k < |msgs| ==> !ChangesItself(states[k], msgs[k], user)
    ensures UpToDate(states[|msgs|], user)
    decreases |msgs|
  {
    hide UpToDate, Next, ChangesItself;
    if msgs != [] {
      var last := |msgs| - 1;
      RunTells(config, publicId, states[..|msgs|], msgs[..last], user);
      OneTells(config, publicId, states[last], msgs[last], states[|msgs|], user);
    }
  }

  lemma {:induction false} OneTells(
    config: Config, publicId: Uuid, s: RoomState, msg: UserMessage, s': RoomState, user: UserId)
    requires s.running && Next(config, publicId, s, msg, s')
    requires UpToDate(s, user) && !ChangesItself(s, msg, user)
    ensures UpToDate(s', user)
  {
    if user !in s.users {
      NewUserTold(config, publicId, s, msg, s', user);
    } else if msg.Quit? && msg.user == user {
      assert user !in s'.users;
    } else {
      NextTellsIff(config, publicId, s, msg, s', user);
    }
  }
}
