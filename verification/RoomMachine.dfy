/** The room's message loop as a state machine, and the replicas its viewers build from the broadcasts. */
module RoomMachine {
  import opened Wrappers
  import opened Edits
  import opened Histories
  import opened EditTables
  import opened Pulls
  import opened BoardMachine
  import opened Boards
  import opened ClientHistory

  type UserId = nat

  datatype ActionType = ActionUndo | ActionRedo

  datatype UserMessage =
    | Join(user: UserId)
    | Quit(user: UserId)
    | PullMsg(user: UserId, at: nat, current: seq<Uuid>, undone: seq<Uuid>)
    | SetTitle(user: UserId, title: Title)
    | UndoRedo(user: UserId, now: nat, action: ActionType, actionId: Uuid)
    | EmptyMsg(user: UserId, status: Status)
    | PushMsg(user: UserId, data: seq<EditAction>, silent: bool)
    | SetSize(user: UserId, size: Option<BoardSize>)
    | HasUsers
    | ExpireRoom
    | TryExpireCache(at: nat)

  datatype ServerMessage =
    | SizeData(size: BoardSize)
    | TitleData(title: Title)
    | PushData(data: seq<Edit>)
    | UndoRedoData(action: ActionType, actionId: Uuid)
    | EmptyData(status: Status)
    | PullReply(pull: PullData)
    | Info(about: string)

  /** A user's channel, as everything sent to it so far. */
  type Channels = map<UserId, seq<ServerMessage>>

  /** The row of the boards table; the columns are SMALLINT. */
  datatype BoardRecord = BoardRecord(title: Title, height: int, width: int)

  datatype RoomState = RoomState(
    board: BoardState,
    title: Title,
    size: BoardSize,
    users: Channels,
    record: BoardRecord,
    running: bool)

  // Sending

  function SendById(users: Channels, user: UserId, msg: ServerMessage): Channels {
    if user in users then users[user := users[user] + [msg]] else users
  }

  function SendToEveryone(users: Channels, except: UserId, msg: ServerMessage): Channels {
    map user <- users.Keys :: if user == except then users[user] else users[user] + [msg]
  }

  // The pushes of one message

  predicate AllValid(data: seq<EditAction>) {
    forall i :: 0 <= i < |data| ==> ValidEdit(data[i].edit)
  }

  /** How many edits come before the first invalid one. */
  function ValidCount(data: seq<EditAction>): (n: nat)
    ensures n <= |data| && forall i :: 0 <= i < n ==> ValidEdit(data[i].edit)
    ensures n < |data| ==> !ValidEdit(data[n].edit)
  {
    if data == [] then 0
    else
      var n := ValidCount(data[..|data| - 1]);
      if n == |data| - 1 && ValidEdit(data[n].edit) then n + 1 else n
  }

  /** The edits before the first invalid one: the loop stops there. */
  function ValidPrefix(data: seq<EditAction>): seq<EditAction> {
    data[..ValidCount(data)]
  }

  function PushCalls(data: seq<EditAction>): (calls: seq<Call>)
    ensures |calls| == |data| && forall i :: 0 <= i < |data| ==> calls[i] == PushEdit(data[i].stamp, data[i].edit)
  {
    if data == [] then []
    else PushCalls(data[..|data| - 1]) + [PushEdit(data[|data| - 1].stamp, data[|data| - 1].edit)]
  }

  function EditsOf(data: seq<EditAction>): (edits: seq<Edit>)
    ensures |edits| == |data| && forall i :: 0 <= i < |data| ==> edits[i] == data[i].edit
  {
    if data == [] then [] else EditsOf(data[..|data| - 1]) + [data[|data| - 1].edit]
  }

  /** The calls a message makes on the board. */
  function CallsOf(msg: UserMessage): seq<Call> {
    match msg
    case PullMsg(_, at, current, undone) => [Pull(at, current, undone)]
    case UndoRedo(_, now, action, id) => [if action.ActionUndo? then ExecUndo(now, id) else ExecRedo(now, id)]
    case EmptyMsg(_, status) => [if status.Current? then EmptyCurrent else EmptyUndone]
    case PushMsg(_, data, _) => PushCalls(ValidPrefix(data))
    case TryExpireCache(at) => [ClearDbCache(at)]
    case _ => []
  }

  // Persisting and reloading

  predicate IsSmallInt(x: int) {
    -32768 <= x <= 32767
  }

  /** `board::update`: a size that does not fit its column fails the statement. */
  function UpdateRecord(record: BoardRecord, title: Title, size: BoardSize): BoardRecord {
    if IsSmallInt(size.height) && IsSmallInt(size.width) then BoardRecord(title, size.height, size.width) else record
  }

  /** `board::get`: a negative column falls back to the default. */
  function LoadSize(record: BoardRecord): BoardSize {
    BoardSize(if record.height >= 0 then record.height else 900, if record.width >= 0 then record.width else 1720)
  }

  function Persist(s: RoomState): BoardRecord {
    UpdateRecord(s.record, s.title, s.size)
  }

  /** The message loop ends: title, size and log are written. */
  function Unload(s: RoomState, publicId: Uuid): RoomState {
    s.(board := Flush(s.board, publicId), record := Persist(s), running := false)
  }

  /** A new room is spawned from what the two tables hold. */
  function Reload(s: RoomState, now: nat): RoomState {
    RoomState(BoardState(s.board.rows, None, now, []), s.record.title, LoadSize(s.record), map[], s.record, true)
  }

  // The loop body

  function Others(s: RoomState, publicId: Uuid, msg: UserMessage): RoomState
    requires !msg.PullMsg?
  {
    match msg
    case Join(user) =>
      s.(users := SendById(SendById(s.users[user := []], user, SizeData(s.size)), user, TitleData(s.title)))
    case Quit(user) => s.(users := s.users - {user})
    case SetTitle(user, title) =>
      if ValidTitle(title) then
        var renamed := s.(title := title);
        renamed.(record := Persist(renamed), users := SendToEveryone(s.users, user, TitleData(title)))
      else s.(users := SendById(s.users, user, Info("SetTitle")))
    case UndoRedo(user, _, action, id) => s.(users := SendToEveryone(s.users, user, UndoRedoData(action, id)))
    case EmptyMsg(user, status) => s.(users := SendToEveryone(s.users, user, EmptyData(status)))
    case PushMsg(user, data, silent) =>
      if |ValidPrefix(data)| < |data| then s.(users := SendById(s.users, user, Info("Push")))
      else if silent then s
      else s.(users := SendToEveryone(s.users, user, PushData(EditsOf(data))))
    case SetSize(user, size) =>
      if size.None? || !ValidSize(size.value) then s.(users := SendById(s.users, user, Info("SetSize")))
      else s.(size := size.value, users := SendToEveryone(s.users, user, SizeData(size.value)))
    case HasUsers => if s.users == map[] then Unload(s, publicId) else s
    case ExpireRoom => Unload(s, publicId)
    case TryExpireCache(_) => s
  }

  /** One message. The order of the ids in a pull's answer is the hash set's. */
  ghost predicate Next(config: Config, publicId: Uuid, s: RoomState, msg: UserMessage, s': RoomState) {
    if !s.running then s' == s
    else
      var moved := s.(board := BoardRun(config, publicId, s.board, CallsOf(msg)));
      if msg.PullMsg? then
        exists data :: IsPullOf(data, Meaning(moved.board, publicId), msg.current, msg.undone)
                       && s' == moved.(users := SendById(s.users, msg.user, PullReply(data)))
      else s' == Others(moved, publicId, msg)
  }

  // What a viewer makes of its channel

  /** Removes the listed deletions and appends the listed creations. */
  function ApplyEditData(edits: seq<Edit>, data: EditData): seq<Edit> {
    KeptEdits(edits, ToSet(data.shouldBeDeletedIds)) + data.shouldBeCreatedEdits
  }

  function KeptEdits(edits: seq<Edit>, delete: set<Uuid>): seq<Edit> {
    if edits == [] then []
    else
      var rest, last := KeptEdits(edits[..|edits| - 1], delete), edits[|edits| - 1];
      if last.id in delete then rest else rest + [last]
  }

  /** The replica after one message; it starts with the first pull, over empty lists. */
  function Receive(replica: Option<History>, msg: ServerMessage): Option<History> {
    match msg
    case PullReply(pull) =>
      var h := if replica.Some? then replica.value else EMPTY;
      Some(History(ApplyEditData(h.current, pull.current), ApplyEditData(h.undone, pull.undone)))
    case PushData(data) =>
      if replica.None? then None else Some(replica.value.(current := replica.value.current + data))
    case UndoRedoData(action, id) =>
      if replica.None? then None
      else if action.ActionUndo? then Some(UndoReducer(replica.value, Some(id)))
      else Some(RedoReducer(replica.value, Some(id)))
    case EmptyData(status) =>
      if replica.None? then None
      else if status.Current? then Some(replica.value.(current := []))
      else Some(replica.value.(undone := []))
    case _ => replica
  }

  function Replica(channel: seq<ServerMessage>): Option<History> {
    if channel == [] then None
    else Receive(Replica(channel[..|channel| - 1]), channel[|channel| - 1])
  }

  lemma {:induction false} ReplicaAppend(channel: seq<ServerMessage>, msg: ServerMessage)
    ensures Replica(channel + [msg]) == Receive(Replica(channel), msg)
  {
    assert (channel + [msg])[..|channel|] == channel;
  }
}
