/** A board as a state machine over table, cache and log, and the plain two-list history it stands for. */
module BoardMachine {
  import opened Wrappers
  import opened Edits
  import opened Histories
  import opened EditTables
  import opened Compaction
  import opened Flushes
  import opened WriteThrough
  import opened Transparency
  import opened Pulls

  datatype BoardState = BoardState(rows: Table, cache: Option<History>, cacheUsedAt: nat, queue: seq<QueueOp>)

  /** The environment's limits. Times are nanoseconds. */
  datatype Config = Config(queueSize: nat, cacheSeconds: nat)

  const NANOS: nat := 1_000_000_000

  datatype Call =
    | PushEdit(now: nat, newEdit: Edit)
    | ExecUndo(now: nat, id: Uuid)
    | ExecRedo(now: nat, id: Uuid)
    | Pull(at: nat, userCurrent: seq<Uuid>, userUndone: seq<Uuid>)
    | EmptyCurrent
    | EmptyUndone
    | ClearDbCache(at: nat)

  /** What the caller can see. The order of the deleted ids of a pull is not fixed, so they are sets here. */
  datatype Answer =
    | Done
    | Rejected
    | Pulled(currentCreate: seq<Edit>, currentDelete: set<Uuid>, undoneCreate: seq<Edit>, undoneDelete: set<Uuid>)

  function PullAnswer(h: History, userCurrent: seq<Uuid>, userUndone: seq<Uuid>): Answer {
    Pulled(Missing(h.current, userCurrent), Extra(h.current, userCurrent),
           Missing(h.undone, userUndone), Extra(h.undone, userUndone))
  }

  // The machine

  function Flush(s: BoardState, board: Uuid): BoardState {
    s.(rows := Flushed(s.rows, board, Compact(s.queue)), cache := None, queue := [])
  }

  function Enqueue(s: BoardState, board: Uuid, queueSize: nat, op: QueueOp): BoardState {
    var room := if |s.queue| + 1 > queueSize then Flush(s, board) else s;
    room.(queue := room.queue + [op])
  }

  function Clear(s: BoardState, board: Uuid, status: Status): BoardState {
    var flushed := Flush(s, board);
    flushed.(rows := DeleteRows(flushed.rows, board, status))
  }

  /** `clear_db_cache`: the cache goes when it is old, or when the clock went backwards. */
  function Expire(s: BoardState, cacheSeconds: nat, at: nat): BoardState {
    if at < s.cacheUsedAt || (at - s.cacheUsedAt) / NANOS > cacheSeconds then s.(cache := None) else s
  }

  /** What a read goes through: the cache, or else the table. */
  ghost function Base(s: BoardState, board: Uuid): History {
    if s.cache.Some? then s.cache.value else ReadBoard(s.rows, board)
  }

  /** The lists the state stands for. */
  ghost function Meaning(s: BoardState, board: Uuid): History {
    Replay(ReadBoard(s.rows, board), s.queue)
  }

  ghost function BoardStep(config: Config, board: Uuid, s: BoardState, call: Call): (BoardState, Answer) {
    match call
    case PushEdit(now, edit) =>
      if ValidEdit(edit) then (Enqueue(s, board, config.queueSize, Push(now, edit)), Done) else (s, Rejected)
    case ExecUndo(now, id) => (Enqueue(s, board, config.queueSize, Undo(now, id)), Done)
    case ExecRedo(now, id) => (Enqueue(s, board, config.queueSize, Redo(now, id)), Done)
    case Pull(at, userCurrent, userUndone) =>
      var base := Base(s, board);
      (s.(cache := Some(base), cacheUsedAt := at), PullAnswer(Replay(base, s.queue), userCurrent, userUndone))
    case EmptyCurrent => (Clear(s, board, Current), Done)
    case EmptyUndone => (Clear(s, board, Undone), Done)
    case ClearDbCache(at) => (Expire(s, config.cacheSeconds, at), Done)
  }

  /** What every method of the board keeps. The cache is empty or what a read would return now. */
  ghost predicate Coherent(config: Config, board: Uuid, s: BoardState) {
    && |s.queue| <= config.queueSize
    && Readable(s.rows, board)
    && (s.cache.Some? ==> IsRead(s.rows, board, s.cache.value))
    && GuardedLog(s.rows, board, ReadBoard(s.rows, board), s.queue)
  }

  /** The operation may join the log: it is later than everything, a new edit, or a command with something to do. */
  ghost predicate MayJoin(s: BoardState, board: Uuid, op: QueueOp) {
    && OlderThan(s.rows, board, op.stamp)
    && (forall earlier <- s.queue :: earlier.stamp < op.stamp)
    && (op.Push? ==> op.edit.id !in s.rows && op.edit.id !in Targets(s.queue))
    && Admissible(Meaning(s, board), op)
  }

  lemma {:induction false} FlushedExecuted(t: Table, board: Uuid, h: History, queue: seq<QueueOp>)
    requires IsRead(t, board, h) && GuardedLog(t, board, h, queue)
    ensures Flushed(t, board, Compact(queue)) == ExecuteAll(t, board, queue)
  {
    GuardedOwn(t, board, h, queue);
    if queue != [] {
      OwnPrefix(queue);
    }
    FlushExecutes(t, board, queue);
  }

  lemma {:induction false} ExecutedRead(t: Table, board: Uuid, h: History, queue: seq<QueueOp>)
    requires Readable(t, board) && IsRead(t, board, h) && GuardedLog(t, board, h, queue)
    ensures Readable(ExecuteAll(t, board, queue), board)
    ensures ReadBoard(ExecuteAll(t, board, queue), board) == Replay(h, queue)
  {
    LogStamp(t, board, queue);
    ExecuteAllKeepsRead(t, board, h, queue);
  }

  lemma {:induction false} FlushMeaning(config: Config, board: Uuid, s: BoardState)
    requires Coherent(config, board, s)
    ensures Coherent(config, board, Flush(s, board))
    ensures Meaning(Flush(s, board), board) == Meaning(s, board)
    ensures ReadBoard(Flush(s, board).rows, board) == Meaning(s, board)
    ensures Flush(s, board).rows == ExecuteAll(s.rows, board, s.queue)
  {
    var h := ReadBoard(s.rows, board);
    assert IsRead(s.rows, board, h);
    FlushedExecuted(s.rows, board, h, s.queue);
    ExecutedRead(s.rows, board, h, s.queue);
    NewBoard(config, board, ExecuteAll(s.rows, board, s.queue), s.cacheUsedAt);
  }

  /** A board just loaded stands for what its rows read as. */
  lemma {:induction false} NewBoard(config: Config, board: Uuid, t: Table, now: nat)
    requires Readable(t, board)
    ensures var s := BoardState(t, None, now, []);
            Coherent(config, board, s) && Meaning(s, board) == ReadBoard(t, board)
  {
  }

  lemma {:induction false} OwnPrefix(queue: seq<QueueOp>)
    requires queue != [] && OwnCommandsEffective(queue)
    ensures OwnCommandsEffective(queue[..|queue| - 1])
  {
  }

  lemma {:induction false} FlushMayJoin(config: Config, board: Uuid, s: BoardState, op: QueueOp)
    requires Coherent(config, board, s) && MayJoin(s, board, op)
    ensures MayJoin(Flush(s, board), board, op)
  {
    FlushMeaning(config, board, s);
    ExecuteAllStamps(s.rows, board, s.queue, op.stamp);
    if op.Push? {
      ExecuteKeys(s.rows, board, s.queue);
      PushedAreTargets(s.queue);
    }
  }

  lemma {:induction false} PushedAreTargets(queue: seq<QueueOp>)
    ensures Ids(Pushed(queue)) <= Targets(queue)
  {
    PushedWasNamed(queue);
    forall id | id in Ids(Pushed(queue)) ensures id in Targets(queue) {
      var k :| 0 <= k < |queue| && queue[k].Push? && queue[k].edit.id == id;
      assert queue[k] in queue;
    }
  }

  lemma {:induction false} TimelyAppend(t: Table, board: Uuid, queue: seq<QueueOp>, op: QueueOp)
    requires Timely(t, board, queue) && OlderThan(t, board, op.stamp)
    requires forall earlier <- queue :: earlier.stamp < op.stamp
    ensures Timely(t, board, queue + [op])
  {
  }

  lemma {:induction false} FreshAppendAny(known: set<Uuid>, queue: seq<QueueOp>, op: QueueOp)
    requires FreshPushes(known, queue)
    requires op.Push? ==> op.edit.id !in known && op.edit.id !in Targets(queue)
    ensures FreshPushes(known, queue + [op])
  {
    forall k | 0 <= k < |queue| ensures queue[k].Target() in Targets(queue) {
      assert queue[k] in queue;
    }
  }

  lemma {:induction false} GuardedAppend(t: Table, board: Uuid, h: History, queue: seq<QueueOp>, op: QueueOp)
    requires GuardedLog(t, board, h, queue) && OlderThan(t, board, op.stamp)
    requires forall earlier <- queue :: earlier.stamp < op.stamp
    requires op.Push? ==> op.edit.id !in t && op.edit.id !in Targets(queue)
    requires Admissible(Replay(h, queue), op)
    ensures GuardedLog(t, board, h, queue + [op])
  {
    AllAdmissibleAppend(h, queue, op);
    TimelyAppend(t, board, queue, op);
    FreshAppendAny(t.Keys, queue, op);
  }

  lemma {:induction false} EnqueueMeaning(config: Config, board: Uuid, s: BoardState, op: QueueOp)
    requires Coherent(config, board, s) && MayJoin(s, board, op) && config.queueSize >= 1
    ensures var s' := Enqueue(s, board, config.queueSize, op);
            Coherent(config, board, s') && Meaning(s', board) == Step(Meaning(s, board), op)
  {
    var room := if |s.queue| + 1 > config.queueSize then Flush(s, board) else s;
    FlushMeaning(config, board, s);
    FlushMayJoin(config, board, s, op);
    GuardedAppend(room.rows, board, ReadBoard(room.rows, board), room.queue, op);
    ReplayAppend(ReadBoard(room.rows, board), room.queue, op);
  }

  lemma {:induction false} DeleteKeepsRead(t: Table, board: Uuid, status: Status, h: History)
    requires Readable(t, board) && IsRead(t, board, h)
    ensures var t' := DeleteRows(t, board, status);
            && Readable(t', board)
            && IsRead(t', board, if status.Current? then h.(current := []) else h.(undone := []))
  {
    ReadDistinct(t, board, h);
  }

  lemma {:induction false} ClearMeaning(config: Config, board: Uuid, s: BoardState, status: Status)
    requires Coherent(config, board, s)
    ensures var s', h := Clear(s, board, status), Meaning(s, board);
            && Coherent(config, board, s')
            && Meaning(s', board) == if status.Current? then h.(current := []) else h.(undone := [])
  {
    var rows, h := Flush(s, board).rows, Meaning(s, board);
    assert Readable(rows, board) && IsRead(rows, board, h) by {
      FlushMeaning(config, board, s);
    }
    DeleteKeepsRead(rows, board, status, h);
    NewBoard(config, board, DeleteRows(rows, board, status), s.cacheUsedAt);
  }

  lemma {:induction false} PullMeaning(config: Config, board: Uuid, s: BoardState, at: nat)
    requires Coherent(config, board, s)
    ensures Base(s, board) == ReadBoard(s.rows, board)
    ensures var s' := s.(cache := Some(Base(s, board)), cacheUsedAt := at);
            Coherent(config, board, s') && Meaning(s', board) == Meaning(s, board)
  {
    assert IsRead(s.rows, board, ReadBoard(s.rows, board));
  }

  // The plain history, and runs of both

  /** The plain history, with the ids and the last time any call has used so far. */
  datatype Plain = Plain(h: History, seen: set<Uuid>, clock: nat)

  function PlainStep(p: Plain, call: Call): (Plain, Answer) {
    match call
    case PushEdit(now, edit) =>
      if ValidEdit(edit) then (Plain(Step(p.h, Push(now, edit)), p.seen + {edit.id}, now), Done) else (p, Rejected)
    case ExecUndo(now, id) => (Plain(Step(p.h, Undo(now, id)), p.seen + {id}, now), Done)
    case ExecRedo(now, id) => (Plain(Step(p.h, Redo(now, id)), p.seen + {id}, now), Done)
    case Pull(_, userCurrent, userUndone) => (p, PullAnswer(p.h, userCurrent, userUndone))
    case EmptyCurrent => (p.(h := p.h.(current := [])), Done)
    case EmptyUndone => (p.(h := p.h.(undone := [])), Done)
    case ClearDbCache(_) => (p, Done)
  }

  /** New edits have unused ids, times increase, and commands have something to do. */
  predicate CallOk(p: Plain, call: Call) {
    match call
    case PushEdit(now, edit) => ValidEdit(edit) ==> now > p.clock && edit.id !in p.seen
    case ExecUndo(now, id) => now > p.clock && Admissible(p.h, Undo(now, id))
    case ExecRedo(now, id) => now > p.clock && Admissible(p.h, Redo(now, id))
    case _ => true
  }

  /** Every id the state uses has been seen and every time has passed. */
  ghost predicate Within(s: BoardState, board: Uuid, seen: set<Uuid>, clock: nat) {
    && s.rows.Keys + Targets(s.queue) <= seen
    && OlderThan(s.rows, board, clock + 1)
    && forall op <- s.queue :: op.stamp <= clock
  }

  /** The state stands for the plain history. */
  ghost predicate Represents(config: Config, board: Uuid, s: BoardState, p: Plain) {
    && Coherent(config, board, s)
    && Meaning(s, board) == p.h
    && Within(s, board, p.seen, p.clock)
  }

  lemma {:induction false} FlushRepresents(config: Config, board: Uuid, s: BoardState, p: Plain)
    requires Represents(config, board, s, p)
    ensures Represents(config, board, Flush(s, board), p)
  {
    FlushMeaning(config, board, s);
    ExecuteAllStamps(s.rows, board, s.queue, p.clock + 1);
    ExecuteKeys(s.rows, board, s.queue);
    PushedAreTargets(s.queue);
  }

  lemma {:induction false} AppendWithin(s: BoardState, board: Uuid, seen: set<Uuid>, clock: nat, op: QueueOp)
    requires Within(s, board, seen, clock) && op.stamp > clock
    ensures Within(s.(queue := s.queue + [op]), board, seen + {op.Target()}, op.stamp)
  {
    TargetsOfAppend(s.queue, op);
  }

  lemma {:induction false} EnqueueRepresents(config: Config, board: Uuid, s: BoardState, p: Plain, op: QueueOp)
    requires Represents(config, board, s, p) && config.queueSize >= 1
    requires op.stamp > p.clock && (op.Push? ==> op.edit.id !in p.seen) && Admissible(p.h, op)
    ensures Represents(config, board, Enqueue(s, board, config.queueSize, op),
                       Plain(Step(p.h, op), p.seen + {op.Target()}, op.stamp))
  {
    var room := if |s.queue| + 1 > config.queueSize then Flush(s, board) else s;
    assert Within(room, board, p.seen, p.clock) by {
      FlushRepresents(config, board, s, p);
    }
    AppendWithin(room, board, p.seen, p.clock, op);
    EnqueueMeaning(config, board, s, op);
  }

  lemma {:induction false} ClearRepresents(config: Config, board: Uuid, s: BoardState, p: Plain, status: Status)
    requires Represents(config, board, s, p)
    ensures Represents(config, board, Clear(s, board, status),
                       p.(h := if status.Current? then p.h.(current := []) else p.h.(undone := [])))
  {
    ClearMeaning(config, board, s, status);
    FlushRepresents(config, board, s, p);
  }

  /** One call: the board stays a picture of the plain history and answers as it does. */
  lemma {:induction false} StepRefines(config: Config, board: Uuid, s: BoardState, p: Plain, call: Call)
    requires Represents(config, board, s, p) && CallOk(p, call) && config.queueSize >= 1
    ensures Represents(config, board, BoardStep(config, board, s, call).0, PlainStep(p, call).0)
    ensures BoardStep(config, board, s, call).1 == PlainStep(p, call).1
  {
    match call
    case PushEdit(now, edit) =>
      if ValidEdit(edit) {
        EnqueueRepresents(config, board, s, p, Push(now, edit));
      }
    case ExecUndo(now, id) => EnqueueRepresents(config, board, s, p, Undo(now, id));
    case ExecRedo(now, id) => EnqueueRepresents(config, board, s, p, Redo(now, id));
    case Pull(at, _, _) => PullMeaning(config, board, s, at);
    case EmptyCurrent => ClearRepresents(config, board, s, p, Current);
    case EmptyUndone => ClearRepresents(config, board, s, p, Undone);
    case ClearDbCache(_) =>
  }

  predicate RunOk(p: Plain, calls: seq<Call>)
    decreases |calls|
  {
    calls == [] || (CallOk(p, calls[0]) && RunOk(PlainStep(p, calls[0]).0, calls[1..]))
  }

  function PlainAnswers(p: Plain, calls: seq<Call>): seq<Answer>
    decreases |calls|
  {
    if calls == [] then []
    else var (p', answer) := PlainStep(p, calls[0]); [answer] + PlainAnswers(p', calls[1..])
  }

  ghost function BoardAnswers(config: Config, board: Uuid, s: BoardState, calls: seq<Call>): seq<Answer>
    decreases |calls|
  {
    if calls == [] then []
    else
      var (s', answer) := BoardStep(config, board, s, calls[0]);
      [answer] + BoardAnswers(config, board, s', calls[1..])
  }

  ghost function BoardRun(config: Config, board: Uuid, s: BoardState, calls: seq<Call>): BoardState
    decreases |calls|
  {
    if calls == [] then s else BoardRun(config, board, BoardStep(config, board, s, calls[0]).0, calls[1..])
  }

  lemma {:induction false} OneCall(config: Config, board: Uuid, s: BoardState, call: Call)
    ensures BoardRun(config, board, s, [call]) == BoardStep(config, board, s, call).0
  {
    var next := BoardStep(config, board, s, call).0;
    assert [call][1..] == [];
    assert BoardRun(config, board, next, []) == next;
  }

  function PlainRun(p: Plain, calls: seq<Call>): Plain
    decreases |calls|
  {
    if calls == [] then p else PlainRun(PlainStep(p, calls[0]).0, calls[1..])
  }

  /**
   * Refinement over runs. Whatever was flushed, cached or expired on the way, the board ends standing for the
   * history a plain pair of lists would hold, every answer was the plain one, the cache is coherent and the
   * log within its size.
   */
  lemma {:induction false} RunRefines(config: Config, board: Uuid, s: BoardState, p: Plain, calls: seq<Call>)
    requires Represents(config, board, s, p) && RunOk(p, calls) && config.queueSize >= 1
    ensures Represents(config, board, BoardRun(config, board, s, calls), PlainRun(p, calls))
    ensures BoardAnswers(config, board, s, calls) == PlainAnswers(p, calls)
    decreases |calls|
  {
    if calls != [] {
      StepRefines(config, board, s, p, calls[0]);
      RunRefines(config, board, BoardStep(config, board, s, calls[0]).0, PlainStep(p, calls[0]).0, calls[1..]);
    }
  }

  /** A board just loaded stands for what its rows read as, with every stored id seen and every stored time passed. */
  lemma {:induction false} LoadedRepresents(config: Config, board: Uuid, t: Table, now: nat, clock: nat)
    requires Readable(t, board) && OlderThan(t, board, clock + 1)
    ensures Represents(config, board, BoardState(t, None, now, []), Plain(ReadBoard(t, board), t.Keys, clock))
  {
    NewBoard(config, board, t, now);
  }

  /** From an empty table on, every run of a board answers as the two lists that start empty. */
  lemma {:induction false} RunFromNothing(config: Config, board: Uuid, now: nat, calls: seq<Call>)
    requires RunOk(Plain(EMPTY, {}, 0), calls) && config.queueSize >= 1
    ensures BoardAnswers(config, board, BoardState(map[], None, now, []), calls)
            == PlainAnswers(Plain(EMPTY, {}, 0), calls)
  {
    var start := BoardState(map[], None, now, []);
    LoadedRepresents(config, board, map[], now, 0);
    assert IsRead(map[], board, EMPTY);
    assert Represents(config, board, start, Plain(EMPTY, {}, 0)) by {
      assert start.rows.Keys == {};
    }
    RunRefines(config, board, start, Plain(EMPTY, {}, 0), calls);
  }

  /** A pull answers with the diff of both lists: what the caller lacks, and what it has besides. */
  lemma {:induction false} PullAnswers(
    config: Config, board: Uuid, s: BoardState, at: nat, userCurrent: seq<Uuid>, userUndone: seq<Uuid>, data: PullData)
    requires Coherent(config, board, s) && IsPullOf(data, Meaning(s, board), userCurrent, userUndone)
    ensures BoardStep(config, board, s, Pull(at, userCurrent, userUndone)).1
            == Pulled(data.current.shouldBeCreatedEdits, ToSet(data.current.shouldBeDeletedIds),
                      data.undone.shouldBeCreatedEdits, ToSet(data.undone.shouldBeDeletedIds))
  {
    PullMeaning(config, board, s, at);
  }

  /** Asked with empty lists, the plain history answers with its two lists and deletes nothing. */
  lemma {:induction false} PlainFirstPull(p: Plain, at: nat)
    ensures PlainStep(p, Pull(at, [], [])).1 == Pulled(p.h.current, {}, p.h.undone, {})
  {
    MissingAll(p.h.current);
    MissingAll(p.h.undone);
  }

  /** A pull fills the cache with what the table reads as and notes the time; table and log stay. */
  lemma {:induction false} PullFills(
    config: Config, board: Uuid, s: BoardState, at: nat, userCurrent: seq<Uuid>, userUndone: seq<Uuid>)
    requires Coherent(config, board, s)
    ensures BoardStep(config, board, s, Pull(at, userCurrent, userUndone)).0
            == BoardState(s.rows, Some(ReadBoard(s.rows, board)), at, s.queue)
  {
    PullMeaning(config, board, s, at);
  }

  // Write-behind

  /** The operations that calls add to the log, in order. */
  function OpsOf(calls: seq<Call>): seq<QueueOp> {
    if calls == [] then []
    else
      var rest := OpsOf(calls[1..]);
      match calls[0]
      case PushEdit(now, edit) => if ValidEdit(edit) then [Push(now, edit)] + rest else rest
      case ExecUndo(now, id) => [Undo(now, id)] + rest
      case ExecRedo(now, id) => [Redo(now, id)] + rest
      case _ => rest
  }

  /**
   * As long as the log has room and no list is emptied, a run leaves the table as it was and the log holds the
   * operations of the run in order.
   */
  lemma {:induction false} WriteBehind(config: Config, board: Uuid, s: BoardState, calls: seq<Call>)
    requires |s.queue| + |OpsOf(calls)| <= config.queueSize
    requires forall call <- calls :: !call.EmptyCurrent? && !call.EmptyUndone?
    ensures var s' := BoardRun(config, board, s, calls); s'.rows == s.rows && s'.queue == s.queue + OpsOf(calls)
    decreases |calls|
  {
    hide ValidEdit, PullAnswer, Base, Flush;
    if calls == [] {
      assert s.queue + [] == s.queue;
    } else {
      var s1, rest := BoardStep(config, board, s, calls[0]).0, calls[1..];
      assert calls[0] in calls;
      WriteBehind(config, board, s1, rest);
      assert s.queue + OpsOf(calls) == s1.queue + OpsOf(rest);
    }
  }

  /** An operation that finds the log full: the log is executed on the table, and the operation starts a new one. */
  lemma {:induction false} Overflow(config: Config, board: Uuid, s: BoardState, op: QueueOp)
    requires Coherent(config, board, s) && |s.queue| == config.queueSize
    ensures Enqueue(s, board, config.queueSize, op)
            == BoardState(ExecuteAll(s.rows, board, s.queue), None, s.cacheUsedAt, [op])
  {
    FlushMeaning(config, board, s);
    assert [] + [op] == [op];
  }

  /** Boards that differ in queue size, cache lifetime, or how much of the same history is stored, answer alike. */
  lemma {:induction false} SizesDoNotShow(
    config: Config, config': Config, board: Uuid, s: BoardState, s': BoardState, p: Plain, calls: seq<Call>)
    requires Represents(config, board, s, p) && Represents(config', board, s', p)
    requires RunOk(p, calls) && config.queueSize >= 1 && config'.queueSize >= 1
    ensures BoardAnswers(config, board, s, calls) == BoardAnswers(config', board, s', calls)
    ensures Meaning(BoardRun(config, board, s, calls), board) == Meaning(BoardRun(config', board, s', calls), board)
  {
    RunRefines(config, board, s, p, calls);
    RunRefines(config', board, s', p, calls);
  }
}
