/** The room's message loop: one message at a time, applied to the board and sent on to the users. */
module Rooms {
  import opened Edits
  import opened Histories
  import opened EditTables
  import opened BoardMachine
  import opened Boards
  import opened RoomMachine
  import opened RoomLaws
  import opened Viewers

  lemma {:induction false} BoardRunAppend(config: Config, board: Uuid, s: BoardState, calls: seq<Call>, call: Call)
    ensures BoardRun(config, board, s, calls + [call])
            == BoardStep(config, board, BoardRun(config, board, s, calls), call).0
    decreases |calls|
  {
    if calls == [] {
      assert ([] + [call])[1..] == [];
    } else {
      assert (calls + [call])[1..] == calls[1..] + [call];
      BoardRunAppend(config, board, BoardStep(config, board, s, calls[0]).0, calls[1..], call);
    }
  }

  lemma {:induction false} RunOkPrefix(p: Plain, calls: seq<Call>, k: nat)
    requires RunOk(p, calls) && k < |calls|
    ensures RunOk(p, calls[..k]) && CallOk(PlainRun(p, calls[..k]), calls[k])
    decreases |calls|
  {
    if k > 0 {
      assert calls[..k][1..] == calls[1..][..k - 1];
      RunOkPrefix(PlainStep(p, calls[0]).0, calls[1..], k - 1);
    }
  }

  /** A call that continues the plain history may join the log. */
  lemma {:induction false} MayJoinFrom(config: Config, board: Uuid, s: BoardState, p: Plain, op: QueueOp)
    requires Represents(config, board, s, p)
    requires op.stamp > p.clock && (op.Push? ==> op.edit.id !in p.seen) && Admissible(p.h, op)
    ensures MayJoin(s, board, op)
  {
  }

  class BoardTable {
    var records: map<Uuid, BoardRecord>

    constructor ()
      ensures records == map[]
    {
      records := map[];
    }

    /** `board::update`: a missing row is not added. */
    method Update(publicId: Uuid, title: Title, size: BoardSize)
      modifies this
      ensures records == if publicId in old(records)
                         then old(records)[publicId := UpdateRecord(old(records)[publicId], title, size)]
                         else old(records)
    {
      if publicId in records {
        records := records[publicId := UpdateRecord(records[publicId], title, size)];
      }
    }
  }

  class Room {
    const board: Board
    const boards: BoardTable
    var users: Channels
    var running: bool

    ghost function State(): RoomState
      requires board.publicId in boards.records
      reads this, board, board.db.store, boards
    {
      RoomState(board.State(), board.title, board.size, users, boards.records[board.publicId], running)
    }

    ghost predicate Valid()
      reads this, board, board.db, board.db.store, boards
    {
      board.Valid() && board.publicId in boards.records
    }

    constructor (board: Board, boards: BoardTable)
      requires board.Valid() && board.publicId in boards.records
      ensures this.board == board && this.boards == boards && Valid()
      ensures State() == RoomState(board.State(), board.title, board.size, map[], boards.records[board.publicId], true)
    {
      this.board, this.boards := board, boards;
      users, running := map[], true;
    }

    method SendById(user: UserId, msg: ServerMessage)
      modifies this`users
      ensures users == RoomMachine.SendById(old(users), user, msg)
    {
      if user in users {
        users := users[user := users[user] + [msg]];
      }
    }

    method SendToEveryone(except: UserId, msg: ServerMessage)
      modifies this`users
      ensures users == RoomMachine.SendToEveryone(old(users), except, msg)
    {
      var rest := users.Keys;
      var sent: Channels := map[];
      while rest != {}
        invariant rest <= users.Keys && users == old(users)
        invariant sent.Keys == users.Keys - rest
        invariant forall user <- sent.Keys ::
          sent[user] == if user == except then users[user] else users[user] + [msg]
      {
        var user :| user in rest;
        sent := sent[user := if user == except then users[user] else users[user] + [msg]];
        rest := rest - {user};
      }
      users := sent;
    }

    /** The next push of a message, from the state `s` the message found. */
    method PushNext(data: seq<EditAction>, k: nat, ghost s: BoardState, ghost p: Plain)
      requires board.Valid() && Represents(board.config, board.publicId, s, p)
      requires RunOk(p, PushCalls(ValidPrefix(data))) && k < ValidCount(data)
      requires board.State() == AfterPushes(board.config, board.publicId, s, data, k)
      modifies board`queue, board`dbCache, board.db, board.db.store
      ensures board.Valid()
      ensures board.State() == AfterPushes(board.config, board.publicId, s, data, k + 1)
    {
      hide Represents, Coherent;
      PushFits(board.config, board.publicId, s, p, data, k);
      var r := board.PushEdit(data[k].edit, data[k].stamp);
    }

    /** The pushes of one message, up to the first invalid edit. */
    method PushAll(data: seq<EditAction>, ghost p: Plain) returns (ok: bool)
      requires board.Valid() && Represents(board.config, board.publicId, board.State(), p)
      requires RunOk(p, PushCalls(ValidPrefix(data)))
      modifies board`queue, board`dbCache, board.db, board.db.store
      ensures board.Valid()
      ensures ok <==> |ValidPrefix(data)| == |data|
      ensures board.State()
              == BoardRun(board.config, board.publicId, old(board.State()), PushCalls(ValidPrefix(data)))
    {
      hide Represents, Coherent;
      ghost var config, id, s := board.config, board.publicId, board.State();
      AfterNone(config, id, s, data);
      AfterAll(config, id, s, data);
      for k := 0 to |data|
        invariant board.Valid()
        invariant k <= ValidCount(data)
        invariant board.State() == AfterPushes(config, id, s, data, k)
      {
        if !ValidEdit(data[k].edit) {
          assert k == ValidCount(data);
          return false;
        }
        PushNext(data, k, s, p);
      }
      return true;
    }

    method HandlePush(user: UserId, data: seq<EditAction>, silent: bool, ghost p: Plain)
      requires MayHandle(PushMsg(user, data, silent), p)
      modifies this`users, board`queue, board`dbCache, board.db, board.db.store
      ensures Valid() && Next(board.config, board.publicId, old(State()), PushMsg(user, data, silent), State())
    {
      hide Represents, Coherent;
      ghost var s := State();
      var ok := PushAll(data, p);
      ghost var moved := s.(board := board.State());
      if !ok {
        SendById(user, Info("Push"));
      } else if !silent {
        SendToEveryone(user, PushData(EditsOf(data)));
      }
      assert State() == Others(moved, board.publicId, PushMsg(user, data, silent));
    }

    method HandleUndoRedo(user: UserId, now: nat, action: ActionType, actionId: Uuid, ghost p: Plain)
      requires MayHandle(UndoRedo(user, now, action, actionId), p)
      modifies this`users, board`queue, board`dbCache, board.db, board.db.store
      ensures Valid()
      ensures Next(board.config, board.publicId, old(State()), UndoRedo(user, now, action, actionId), State())
    {
      hide Represents, Coherent, BoardRun, Enqueue, Flush, MayJoin, RunOk, Meaning;
      ghost var s := State();
      var command := if action.ActionUndo? then Undo(now, actionId) else Redo(now, actionId);
      CommandFits(board.config, board.publicId, board.State(), p, UndoRedo(user, now, action, actionId), command);
      board.ExecCommand(command);
      ghost var moved := s.(board := board.State());
      SendToEveryone(user, UndoRedoData(action, actionId));
      assert State() == Others(moved, board.publicId, UndoRedo(user, now, action, actionId));
    }

    method HandleEmpty(user: UserId, status: Status, ghost p: Plain)
      requires MayHandle(EmptyMsg(user, status), p)
      modifies this`users, board`queue, board`dbCache, board.db, board.db.store
      ensures Valid() && Next(board.config, board.publicId, old(State()), EmptyMsg(user, status), State())
    {
      hide Represents, Coherent;
      OneCall(board.config, board.publicId, board.State(), CallsOf(EmptyMsg(user, status))[0]);
      board.Empty(status);
      SendToEveryone(user, EmptyData(status));
    }

    method HandlePull(user: UserId, at: nat, current: seq<Uuid>, undone: seq<Uuid>, ghost p: Plain)
      requires MayHandle(PullMsg(user, at, current, undone), p)
      modifies this`users, board`dbCache, board`dbCacheUsedAt
      ensures Valid() && Next(board.config, board.publicId, old(State()), PullMsg(user, at, current, undone), State())
    {
      hide Represents, Coherent;
      OneCall(board.config, board.publicId, board.State(), Pull(at, current, undone));
      var data := board.Pull(current, undone, at);
      SendById(user, PullReply(data));
    }

    method HandleSettings(msg: UserMessage)
      requires Valid() && running && (msg.Join? || msg.Quit? || msg.SetTitle? || msg.SetSize?)
      modifies this`users, board`title, board`size, boards
      ensures Valid() && Next(board.config, board.publicId, old(State()), msg, State())
    {
      hide Represents, Coherent;
      match msg {
        case Join(user) =>
          users := users[user := []];
          SendById(user, SizeData(board.size));
          SendById(user, TitleData(board.title));
        case Quit(user) =>
          users := users - {user};
        case SetTitle(user, title) =>
          var r := board.SetTitle(title);
          if r.Fail? {
            SendById(user, Info("SetTitle"));
          } else {
            boards.Update(board.publicId, board.title, board.size);
            SendToEveryone(user, TitleData(title));
          }
        case SetSize(user, size) =>
          match size {
            case None => SendById(user, Info("SetSize"));
            case Some(data) =>
              var r := board.SetSize(data.height, data.width);
              if r.Fail? {
                SendById(user, Info("SetSize"));
              } else {
                SendToEveryone(user, SizeData(data));
              }
          }
      }
    }

    /** Title and size go to the boards table, the log to the table of edits, and the loop ends. */
    method Stop()
      requires Valid() && running
      modifies this`running, board`queue, board`dbCache, board.db, board.db.store, boards
      ensures Valid() && State() == Unload(old(State()), board.publicId)
    {
      hide Represents, Coherent;
      boards.Update(board.publicId, board.title, board.size);
      board.Sync();
      running := false;
    }

    /** Tells whether the room has users; a room without any stops. */
    method HandleHasUsers() returns (has: bool)
      requires Valid() && running
      modifies this`running, board`queue, board`dbCache, board.db, board.db.store, boards
      ensures Valid() && Next(board.config, board.publicId, old(State()), HasUsers, State())
      ensures (has <==> old(users) != map[]) && (running <==> has) && (has ==> State() == old(State()))
    {
      hide Represents, Coherent;
      has := users != map[];
      if !has {
        Stop();
      }
    }

    method HandleExpireCache(at: nat)
      requires Valid() && running
      modifies board`dbCache
      ensures Valid() && Next(board.config, board.publicId, old(State()), TryExpireCache(at), State())
    {
      hide Represents, Coherent;
      OneCall(board.config, board.publicId, board.State(), ClearDbCache(at));
      board.ClearDbCache(at);
    }

    /** The message may be handled now: the board stands for `p`, and the message's calls continue it. */
    ghost predicate MayHandle(msg: UserMessage, p: Plain)
      reads this, board, board.db, board.db.store, boards
    {
      && Valid() && running
      && Represents(board.config, board.publicId, board.State(), p) && RunOk(p, CallsOf(msg))
    }

    /** The body of the message loop. */
    method Handle(msg: UserMessage, ghost p: Plain)
      requires MayHandle(msg, p)
      modifies this, board, board.db, board.db.store, boards
      ensures Valid() && Next(board.config, board.publicId, old(State()), msg, State())
      ensures Represents(board.config, board.publicId, board.State(), PlainRun(p, CallsOf(msg)))
      ensures running <==> !Ends(old(State()), msg)
    {
      hide Represents, Coherent;
      ghost var s := State();
      match msg {
        case PushMsg(user, data, silent) => HandlePush(user, data, silent, p);
        case UndoRedo(user, now, action, actionId) => HandleUndoRedo(user, now, action, actionId, p);
        case EmptyMsg(user, status) => HandleEmpty(user, status, p);
        case PullMsg(user, at, current, undone) => HandlePull(user, at, current, undone, p);
        case Join(_) => HandleSettings(msg);
        case Quit(_) => HandleSettings(msg);
        case SetTitle(_, _) => HandleSettings(msg);
        case SetSize(_, _) => HandleSettings(msg);
        case HasUsers => var _ := HandleHasUsers();
        case ExpireRoom => Stop();
        case TryExpireCache(at) => HandleExpireCache(at);
      }
      NextRepresents(board.config, board.publicId, s, p, msg, State());
      EndsIff(board.config, board.publicId, s, msg, State());
    }

    method HandleNext(
      inbox: seq<UserMessage>, handled: nat, ghost start: RoomState, ghost states: seq<RoomState>, ghost p: Plain)
      returns (ghost states': seq<RoomState>)
      requires Valid() && running && handled < |inbox| && MessagesOk(p, inbox)
      requires LedTo(board.config, board.publicId, start, inbox, handled, states, p, State())
      modifies this, board, board.db, board.db.store, boards
      ensures Valid()
      ensures LedTo(board.config, board.publicId, start, inbox, handled + 1, states', p, State())
    {
      hide Represents, Coherent;
      ghost var s := State();
      Handle(inbox[handled], PlainAfter(p, inbox[..handled]));
      LedOneMore(board.config, board.publicId, start, inbox, handled, states, p, s, State());
      states' := states + [State()];
    }

    /** The whole loop: messages in the order received, until one ends it. `states` are the states it went through. */
    method Task(inbox: seq<UserMessage>, ghost p: Plain) returns (ghost states: seq<RoomState>, handled: nat)
      requires Valid() && running && Represents(board.config, board.publicId, board.State(), p) && MessagesOk(p, inbox)
      modifies this, board, board.db, board.db.store, boards
      ensures Valid() && LedTo(board.config, board.publicId, old(State()), inbox, handled, states, p, State())
      ensures running ==> handled == |inbox|
      ensures running <==> forall k :: 0 <= k < handled ==> !Ends(states[k], inbox[k])
      ensures forall k :: 0 <= k < handled - 1 ==> !Ends(states[k], inbox[k])
    {
      hide Represents, Coherent;
      ghost var start := State();
      states := [start];
      handled := 0;
      while handled < |inbox| && running
        invariant Valid() && LedTo(board.config, board.publicId, start, inbox, handled, states, p, State())
        decreases |inbox| - handled
      {
        states := HandleNext(inbox, handled, start, states, p);
        handled := handled + 1;
      }
      RunEndsIff(board.config, board.publicId, states, inbox[..handled]);
    }
  }

  /** `s` is where a run over the first `handled` messages leads; the board stands for their plain history. */
  ghost predicate LedTo(
    config: Config, publicId: Uuid, start: RoomState, inbox: seq<UserMessage>, handled: nat, states: seq<RoomState>,
    p: Plain, s: RoomState)
  {
    && handled <= |inbox|
    && TaskRun(config, publicId, states, inbox[..handled])
    && states[0] == start && states[handled] == s
    && Represents(config, publicId, s.board, PlainAfter(p, inbox[..handled]))
  }

  lemma {:induction false} LedOneMore(
    config: Config, publicId: Uuid, start: RoomState, inbox: seq<UserMessage>, handled: nat, states: seq<RoomState>,
    p: Plain, s: RoomState, s': RoomState)
    requires LedTo(config, publicId, start, inbox, handled, states, p, s) && handled < |inbox| && s.running
    requires Next(config, publicId, s, inbox[handled], s')
    requires Represents(config, publicId, s'.board, PlainRun(PlainAfter(p, inbox[..handled]), CallsOf(inbox[handled])))
    ensures LedTo(config, publicId, start, inbox, handled + 1, states + [s'], p, s')
  {
    hide Represents, Next, PlainRun, CallsOf;
    assert inbox[..handled + 1] == inbox[..handled] + [inbox[handled]];
    PlainAfterAppend(p, inbox[..handled], inbox[handled]);
    TaskRunAppend(config, publicId, states, inbox[..handled], inbox[handled], s');
  }

  lemma {:induction false} PlainAfterAppend(p: Plain, msgs: seq<UserMessage>, msg: UserMessage)
    ensures PlainAfter(p, msgs + [msg]) == PlainRun(PlainAfter(p, msgs), CallsOf(msg))
  {
    assert (msgs + [msg])[..|msgs|] == msgs;
  }

  lemma {:induction false} TaskRunAppend(
    config: Config, publicId: Uuid, states: seq<RoomState>, msgs: seq<UserMessage>, msg: UserMessage, s': RoomState)
    requires TaskRun(config, publicId, states, msgs)
    requires states[|msgs|].running && Next(config, publicId, states[|msgs|], msg, s')
    ensures TaskRun(config, publicId, states + [s'], msgs + [msg])
  {
  }

  /** The board after the first `k` pushes of a message. */
  ghost function AfterPushes(config: Config, board: Uuid, s: BoardState, data: seq<EditAction>, k: nat): BoardState
    requires k <= ValidCount(data)
  {
    BoardRun(config, board, s, PushCalls(ValidPrefix(data))[..k])
  }

  lemma {:induction false} AfterNone(config: Config, board: Uuid, s: BoardState, data: seq<EditAction>)
    ensures AfterPushes(config, board, s, data, 0) == s
  {
  }

  lemma {:induction false} AfterAll(config: Config, board: Uuid, s: BoardState, data: seq<EditAction>)
    ensures AfterPushes(config, board, s, data, ValidCount(data))
            == BoardRun(config, board, s, PushCalls(ValidPrefix(data)))
  {
    var calls := PushCalls(ValidPrefix(data));
    assert calls[..|calls|] == calls;
  }

  lemma {:induction false} RepresentsAfter(
    config: Config, board: Uuid, s: BoardState, p: Plain, calls: seq<Call>, k: nat)
    requires Represents(config, board, s, p) && RunOk(p, calls) && k < |calls| && config.queueSize >= 1
    ensures Represents(config, board, BoardRun(config, board, s, calls[..k]), PlainRun(p, calls[..k]))
    ensures CallOk(PlainRun(p, calls[..k]), calls[k])
  {
    RunOkPrefix(p, calls, k);
    RunRefines(config, board, s, p, calls[..k]);
  }

  /** The command of a message may join the log, and executing it is the message's one call. */
  lemma {:induction false} CommandFits(
    config: Config, board: Uuid, s: BoardState, p: Plain, msg: UserMessage, command: QueueOp)
    requires Represents(config, board, s, p) && msg.UndoRedo? && RunOk(p, CallsOf(msg))
    requires command == if msg.action.ActionUndo? then Undo(msg.now, msg.actionId) else Redo(msg.now, msg.actionId)
    ensures MayJoin(s, board, command)
    ensures BoardRun(config, board, s, CallsOf(msg)) == Enqueue(s, board, config.queueSize, command)
  {
    MayJoinFrom(config, board, s, p, command);
    OneCall(config, board, s, CallsOf(msg)[0]);
  }

  /** The edit the loop has reached may join the log, and pushing it is the next call of the message. */
  lemma {:induction false} PushFits(config: Config, board: Uuid, s: BoardState, p: Plain, data: seq<EditAction>, k: nat)
    requires Represents(config, board, s, p) && RunOk(p, PushCalls(ValidPrefix(data))) && config.queueSize >= 1
    requires k < ValidCount(data)
    ensures var before := AfterPushes(config, board, s, data, k);
            && MayJoin(before, board, Push(data[k].stamp, data[k].edit))
            && AfterPushes(config, board, s, data, k + 1)
               == BoardStep(config, board, before, PushEdit(data[k].stamp, data[k].edit)).0
  {
    var calls := PushCalls(ValidPrefix(data));
    assert calls[k] == PushEdit(data[k].stamp, data[k].edit);
    assert calls[..k + 1] == calls[..k] + [calls[k]];
    BoardRunAppend(config, board, s, calls[..k], calls[k]);
    RepresentsAfter(config, board, s, p, calls, k);
    MayJoinFrom(config, board, BoardRun(config, board, s, calls[..k]), PlainRun(p, calls[..k]),
                Push(data[k].stamp, data[k].edit));
  }
}
