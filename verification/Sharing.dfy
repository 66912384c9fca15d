/** Boards that share one table and one database loop: each still answers as its own plain history. */
module Sharing {
  import opened Wrappers
  import opened Edits
  import opened Histories
  import opened EditTables
  import opened Batches
  import opened Compaction
  import opened Flushes
  import opened WriteThrough
  import opened BoardMachine

  /** The states differ at most in the rows of other boards. */
  ghost predicate SameView(board: Uuid, owner: Uuid -> Uuid, s: BoardState, s': BoardState) {
    && s'.cache == s.cache && s'.cacheUsedAt == s.cacheUsedAt && s'.queue == s.queue
    && KeysMatch(s'.rows) && OwnedTable(s'.rows, owner)
    && OwnRows(s'.rows, board) == OwnRows(s.rows, board)
  }

  /** The log names ids of its own board. */
  ghost predicate OwnTargets(queue: seq<QueueOp>, board: Uuid, owner: Uuid -> Uuid) {
    forall op <- queue :: owner(op.Target()) == board
  }

  lemma {:induction false} SameOwnRow(t: Table, t': Table, board: Uuid, id: Uuid)
    requires OwnRows(t, board) == OwnRows(t', board)
    ensures (id in t && t[id].board == board) <==> (id in t' && t'[id].board == board)
    ensures id in t && t[id].board == board ==> t'[id] == t[id]
  {
    assert id in OwnRows(t, board) <==> id in OwnRows(t', board);
    assert id in OwnRows(t, board) ==> OwnRows(t, board)[id] == OwnRows(t', board)[id];
  }

  lemma {:induction false} SameRead(t: Table, t': Table, board: Uuid)
    requires Readable(t, board) && KeysMatch(t') && OwnRows(t, board) == OwnRows(t', board)
    ensures Readable(t', board) && ReadBoard(t', board) == ReadBoard(t, board)
    ensures forall h :: IsRead(t', board, h) <==> IsRead(t, board, h)
    ensures forall stamp :: OlderThan(t', board, stamp) <==> OlderThan(t, board, stamp)
  {
    forall id
      ensures (id in t && t[id].board == board) <==> (id in t' && t'[id].board == board)
      ensures id in t && t[id].board == board ==> t'[id] == t[id]
    {
      SameOwnRow(t, t', board, id);
    }
    forall h ensures IsRead(t', board, h) <==> IsRead(t, board, h) {
      ReadSeesOwnRows(t, board, h);
      ReadSeesOwnRows(t', board, h);
    }
    hide IsRead;
    assert IsRead(t, board, ReadBoard(t, board));
  }

  lemma {:induction false} StillFresh(t: Table, t': Table, board: Uuid, owner: Uuid -> Uuid, queue: seq<QueueOp>)
    requires OwnedTable(t', owner) && OwnRows(t, board) == OwnRows(t', board)
    requires FreshPushes(t.Keys, queue) && OwnTargets(queue, board, owner)
    ensures FreshPushes(t'.Keys, queue)
  {
    forall k | 0 <= k < |queue| && queue[k].Push? ensures queue[k].edit.id !in t'.Keys {
      assert queue[k] in queue;
      SameOwnRow(t, t', board, queue[k].edit.id);
    }
  }

  /** What other boards write does not disturb what the state stands for. */
  lemma {:induction false} SharedRepresents(
    config: Config, board: Uuid, owner: Uuid -> Uuid, s: BoardState, s': BoardState, p: Plain)
    requires Represents(config, board, s, p) && OwnTargets(s.queue, board, owner) && SameView(board, owner, s, s')
    ensures Represents(config, board, s', p.(seen := p.seen + s'.rows.Keys))
  {
    SameRead(s.rows, s'.rows, board);
    StillFresh(s.rows, s'.rows, board, owner, s.queue);
    hide IsRead, Readable, OlderThan, FreshPushes, OwnRows, KeysMatch, OwnedTable, AllAdmissible, Increasing;
  }

  /** The ids a shared table adds to the seen ones are of other boards. */
  lemma {:induction false} SeenForeign(
    config: Config, board: Uuid, owner: Uuid -> Uuid, s: BoardState, s': BoardState, p: Plain)
    requires Represents(config, board, s, p) && SameView(board, owner, s, s')
    ensures forall id <- s'.rows.Keys :: id in p.seen || owner(id) != board
  {
    forall id | id in s'.rows && owner(id) == board ensures id in p.seen {
      SameOwnRow(s.rows, s'.rows, board, id);
    }
  }

  // Where such states come from

  lemma {:induction false} CreateKeepsKeys(t: Table, board: Uuid, status: Status, items: seq<EditAction>)
    requires KeysMatch(t)
    ensures KeysMatch(CreateRows(t, board, status, items))
  {
    if items != [] {
      CreateKeepsKeys(t, board, status, items[..|items| - 1]);
    }
  }

  lemma {:induction false} WritesKeepKeys(t: Table, batches: seq<Batch>)
    requires KeysMatch(t)
    ensures KeysMatch(ApplyAll(t, batches))
  {
    if batches != [] {
      var rest, last := batches[..|batches| - 1], batches[|batches| - 1];
      WritesKeepKeys(t, rest);
      var before := ApplyAll(t, rest);
      match last
      case Create(board, status, items) => CreateKeepsKeys(before, board, status, items);
      case SetStatus(status, updates) => SetKeepsBoards(before, status, updates);
      case Delete(_, _) =>
    }
  }

  lemma {:induction false} NoneSent(batches: seq<Batch>, senders: seq<Uuid>, board: Uuid)
    requires |batches| == |senders| && forall k :: 0 <= k < |senders| ==> senders[k] != board
    ensures SentBy(batches, senders, board) == []
  {
    if batches != [] {
      NoneSent(batches[..|batches| - 1], senders[..|batches| - 1], board);
    }
  }

  /** Batches of other boards, written between two calls, leave the board its view. */
  lemma {:induction false} OthersKeepView(
    s: BoardState, batches: seq<Batch>, senders: seq<Uuid>, board: Uuid, owner: Uuid -> Uuid)
    requires KeysMatch(s.rows) && OwnedTable(s.rows, owner) && OwnedBatches(batches, senders, owner)
    requires forall k :: 0 <= k < |senders| ==> senders[k] != board
    ensures SameView(board, owner, s, s.(rows := ApplyAll(s.rows, batches)))
  {
    NonInterference(s.rows, batches, senders, board, owner);
    NoneSent(batches, senders, board);
    WritesKeepKeys(s.rows, batches);
  }

  /** The batches of a log that names ids of its own board name no others. */
  lemma {:induction false} FourOwned(queue: seq<QueueOp>, d: SyncData, board: Uuid, owner: Uuid -> Uuid)
    requires IsSyncData(d, Compact(queue)) && OwnTargets(queue, board, owner)
    ensures forall batch <- Four(board, d) :: OwnedBatch(batch, board, owner)
  {
    CompactWellKeyed(queue);
    CompactTargets(queue);
    FourTouch(board, Compact(queue), d);
    hide Compact, IsSyncData, WellKeyed, Touched, KeysOf, NoRepeatInBatch;
    TargetsOwned(queue, board, owner);
    hide Targets, OwnTargets;
    forall i | 0 <= i < 4 ensures OwnedBatch(Four(board, d)[i], board, owner) {
      KeysTargeted(Compact(queue), queue, i);
    }
    hide OwnedBatch;
  }

  lemma {:induction false} TargetsOwned(queue: seq<QueueOp>, board: Uuid, owner: Uuid -> Uuid)
    requires OwnTargets(queue, board, owner)
    ensures forall id <- Targets(queue) :: owner(id) == board
  {
    forall id | id in Targets(queue) ensures owner(id) == board {
      var op :| op in queue && op.Target() == id;
    }
  }

  lemma {:induction false} KeysTargeted(p: Pending, queue: seq<QueueOp>, i: nat)
    requires p.Created() + p.Set() <= Targets(queue) && i < 4
    ensures KeysOf(p, i) <= Targets(queue)
  {
    KeysOfAll(p);
  }

  lemma {:induction false} SentByHas(batches: seq<Batch>, senders: seq<Uuid>, k: nat)
    requires |batches| == |senders| && k < |batches|
    ensures batches[k] in SentBy(batches, senders, senders[k])
  {
    var last := |batches| - 1;
    if k < last {
      SentByHas(batches[..last], senders[..last], k);
    }
  }

  /** Batches of other boards are theirs; a board's own are those of its flush. */
  lemma {:induction false} FlushOwned(
    queue: seq<QueueOp>, d: SyncData, batches: seq<Batch>, senders: seq<Uuid>, board: Uuid, owner: Uuid -> Uuid)
    requires |batches| == |senders| && IsSyncData(d, Compact(queue)) && OwnTargets(queue, board, owner)
    requires forall k :: 0 <= k < |batches| && senders[k] != board ==> OwnedBatch(batches[k], senders[k], owner)
    requires IsFlushOrder(SentBy(batches, senders, board), board, d)
    ensures OwnedBatches(batches, senders, owner)
  {
    FourOwned(queue, d, board, owner);
    OrderFacts(SentBy(batches, senders, board), board, d);
    hide Compact, IsSyncData, IsFlushOrder, OwnedBatch, OwnTargets;
    forall k | 0 <= k < |batches| ensures OwnedBatch(batches[k], senders[k], owner) {
      if senders[k] == board {
        SentByHas(batches, senders, k);
      }
    }
  }

  /** A flush whose batches are written among those of other boards leaves the board the view of its flush alone. */
  lemma {:induction false} SharedFlush(
    s: BoardState, d: SyncData, batches: seq<Batch>, senders: seq<Uuid>, board: Uuid, owner: Uuid -> Uuid)
    requires KeysMatch(s.rows) && OwnedTable(s.rows, owner) && |batches| == |senders|
    requires forall k :: 0 <= k < |batches| && senders[k] != board ==> OwnedBatch(batches[k], senders[k], owner)
    requires OwnTargets(s.queue, board, owner)
    requires FreshPushes(s.rows.Keys, s.queue) && OwnCommandsEffective(s.queue)
    requires IsSyncData(d, Compact(s.queue)) && IsFlushOrder(SentBy(batches, senders, board), board, d)
    ensures SameView(board, owner, Flush(s, board), BoardState(ApplyAll(s.rows, batches), None, s.cacheUsedAt, []))
  {
    hide FreshPushes, OwnCommandsEffective, IsSyncData, IsFlushOrder, Compact, ApplyAll, OwnRows, Flushed, SentBy;
    hide OwnedBatch, OwnTargets;
    var mine := SentBy(batches, senders, board);
    FlushOwned(s.queue, d, batches, senders, board, owner);
    NonInterference(s.rows, batches, senders, board, owner);
    SentByOwned(batches, senders, board, owner);
    RepeatOwned(mine, board, owner);
    NonInterference(s.rows, mine, Repeat(board, |mine|), board, owner);
    SentByAll(mine, board);
    WritesExecute(s.rows, board, s.queue, d, mine);
    FlushWrites(s, board);
    WritesKeepKeys(s.rows, batches);
  }

  lemma {:induction false} RepeatOwned(batches: seq<Batch>, board: Uuid, owner: Uuid -> Uuid)
    requires forall batch <- batches :: OwnedBatch(batch, board, owner)
    ensures OwnedBatches(batches, Repeat(board, |batches|), owner)
  {
  }

  lemma {:induction false} FlushWrites(s: BoardState, board: Uuid)
    requires FreshPushes(s.rows.Keys, s.queue) && OwnCommandsEffective(s.queue)
    ensures Flush(s, board).rows == ExecuteAll(s.rows, board, s.queue)
  {
    if s.queue != [] {
      OwnPrefix(s.queue);
    }
    FlushExecutes(s.rows, board, s.queue);
  }

  lemma {:induction false} DeleteOwn(t: Table, t': Table, board: Uuid, status: Status)
    requires OwnRows(t, board) == OwnRows(t', board)
    ensures OwnRows(DeleteRows(t, board, status), board) == DeleteRows(OwnRows(t', board), board, status)
  {
    var mine, theirs := OwnRows(DeleteRows(t, board, status), board), DeleteRows(OwnRows(t', board), board, status);
    forall id ensures SameAt(mine, theirs, id) {
      SameOwnRow(t, t', board, id);
    }
    SameEverywhere(mine, theirs);
  }

  /** The same for emptying a list: the delete, too, may be written among batches of other boards. */
  lemma {:induction false} SharedClear(
    s: BoardState, flushed: BoardState, status: Status, batches: seq<Batch>, senders: seq<Uuid>, board: Uuid,
    owner: Uuid -> Uuid)
    requires SameView(board, owner, Flush(s, board), flushed) && OwnedBatches(batches, senders, owner)
    requires SentBy(batches, senders, board) == [Delete(board, status)]
    ensures SameView(board, owner, Clear(s, board, status), flushed.(rows := ApplyAll(flushed.rows, batches)))
  {
    NonInterference(flushed.rows, batches, senders, board, owner);
    WritesKeepKeys(flushed.rows, batches);
    DeleteOwn(Flush(s, board).rows, flushed.rows, board, status);
    ApplyAllAppend(OwnRows(flushed.rows, board), [], Delete(board, status));
    assert [] + [Delete(board, status)] == [Delete(board, status)];
    assert ApplyAll(OwnRows(flushed.rows, board), []) == OwnRows(flushed.rows, board);
  }

  // Runs on a shared table

  /** The call names ids of the board only. */
  ghost predicate OwnCall(call: Call, board: Uuid, owner: Uuid -> Uuid) {
    match call
    case PushEdit(_, edit) => owner(edit.id) == board
    case ExecUndo(_, id) => owner(id) == board
    case ExecRedo(_, id) => owner(id) == board
    case _ => true
  }

  /** A run of calls in which other boards may write before, during and after every call. */
  ghost predicate SharedRun(
    config: Config, board: Uuid, owner: Uuid -> Uuid, states: seq<BoardState>, calls: seq<Call>, answers: seq<Answer>)
  {
    && |states| == |calls| + 1 && |answers| == |calls|
    && forall k :: 0 <= k < |calls| ==>
         && OwnCall(calls[k], board, owner)
         && SameView(board, owner, BoardStep(config, board, states[k], calls[k]).0, states[k + 1])
         && answers[k] == BoardStep(config, board, states[k], calls[k]).1
  }

  lemma {:induction false} StepKeepsTargets(config: Config, board: Uuid, owner: Uuid -> Uuid, s: BoardState, call: Call)
    requires OwnTargets(s.queue, board, owner) && OwnCall(call, board, owner)
    ensures OwnTargets(BoardStep(config, board, s, call).0.queue, board, owner)
  {
  }

  /** Both plain histories are the same but for seen ids of other boards. */
  ghost predicate SameButForeign(p: Plain, p': Plain, board: Uuid, owner: Uuid -> Uuid) {
    p'.h == p.h && p'.clock == p.clock && forall id <- p'.seen :: id in p.seen || owner(id) != board
  }

  lemma {:induction false} ForeignStep(p: Plain, p': Plain, call: Call, board: Uuid, owner: Uuid -> Uuid)
    requires SameButForeign(p, p', board, owner) && OwnCall(call, board, owner)
    ensures CallOk(p, call) ==> CallOk(p', call)
    ensures SameButForeign(PlainStep(p, call).0, PlainStep(p', call).0, board, owner)
    ensures PlainStep(p, call).1 == PlainStep(p', call).1
  {
  }

  /** The state stands for the plain history, whatever ids other boards have used. */
  ghost predicate StandsFor(config: Config, board: Uuid, owner: Uuid -> Uuid, s: BoardState, p: Plain) {
    && OwnTargets(s.queue, board, owner)
    && exists q :: SameButForeign(p, q, board, owner) && Represents(config, board, s, q)
  }

  lemma {:induction false} RepresentsStands(config: Config, board: Uuid, owner: Uuid -> Uuid, s: BoardState, p: Plain)
    requires Represents(config, board, s, p) && OwnTargets(s.queue, board, owner)
    ensures StandsFor(config, board, owner, s, p)
  {
    assert SameButForeign(p, p, board, owner);
  }

  lemma {:induction false} StandsMeaning(config: Config, board: Uuid, owner: Uuid -> Uuid, s: BoardState, p: Plain)
    requires StandsFor(config, board, owner, s, p)
    ensures Meaning(s, board) == p.h && Coherent(config, board, s)
  {
    hide Coherent, Meaning;
    var q :| SameButForeign(p, q, board, owner) && Represents(config, board, s, q);
  }

  /** Writes of other boards leave a board standing for its history. */
  lemma {:induction false} StillStands(
    config: Config, board: Uuid, owner: Uuid -> Uuid, s: BoardState, s': BoardState, p: Plain)
    requires StandsFor(config, board, owner, s, p) && SameView(board, owner, s, s')
    ensures StandsFor(config, board, owner, s', p)
  {
    hide Represents, KeysMatch, OwnedTable, OwnRows;
    var q :| SameButForeign(p, q, board, owner) && Represents(config, board, s, q);
    SharedRepresents(config, board, owner, s, s', q);
    SeenForeign(config, board, owner, s, s', q);
    assert SameButForeign(p, q.(seen := q.seen + s'.rows.Keys), board, owner);
  }

  /** A call answers as the plain history does and leaves the board standing for what the call makes of it. */
  lemma {:induction false} CallStands(
    config: Config, board: Uuid, owner: Uuid -> Uuid, s: BoardState, p: Plain, call: Call)
    requires StandsFor(config, board, owner, s, p) && config.queueSize >= 1
    requires OwnCall(call, board, owner) && CallOk(p, call)
    ensures StandsFor(config, board, owner, BoardStep(config, board, s, call).0, PlainStep(p, call).0)
    ensures BoardStep(config, board, s, call).1 == PlainStep(p, call).1
  {
    hide Represents, CallOk, OwnCall, PlainStep, BoardStep, SameButForeign, OwnTargets;
    var q :| SameButForeign(p, q, board, owner) && Represents(config, board, s, q);
    ForeignStep(p, q, call, board, owner);
    StepKeepsTargets(config, board, owner, s, call);
    StepRefines(config, board, s, q, call);
  }

  /**
   * Refinement on a shared table. Whatever other boards write before, during and after its calls, a board answers
   * every run as the plain history would, and ends standing for it.
   */
  lemma {:induction false} SharedRefines(
    config: Config, board: Uuid, owner: Uuid -> Uuid, states: seq<BoardState>, calls: seq<Call>, answers: seq<Answer>,
    p: Plain)
    requires SharedRun(config, board, owner, states, calls, answers) && config.queueSize >= 1
    requires StandsFor(config, board, owner, states[0], p) && RunOk(p, calls)
    ensures StandsFor(config, board, owner, states[|calls|], PlainRun(p, calls))
    ensures answers == PlainAnswers(p, calls)
    decreases |calls|
  {
    hide StandsFor, SameView, OwnCall, CallOk, BoardStep, PlainStep;
    if calls != [] {
      CallStands(config, board, owner, states[0], p, calls[0]);
      var between, p' := BoardStep(config, board, states[0], calls[0]).0, PlainStep(p, calls[0]).0;
      StillStands(config, board, owner, between, states[1], p');
      SharedRefines(config, board, owner, states[1..], calls[1..], answers[1..], p');
      assert answers == [answers[0]] + answers[1..];
    }
  }

  // Several boards on one table

  /** What a board keeps beside the table. */
  datatype Part = Part(cache: Option<History>, cacheUsedAt: nat, queue: seq<QueueOp>)

  datatype Joint = Joint(rows: Table, boards: map<Uuid, Part>)
  {
    function StateOf(board: Uuid): BoardState
      requires board in boards
    {
      BoardState(rows, boards[board].cache, boards[board].cacheUsedAt, boards[board].queue)
    }
  }

  datatype BoardCall = BoardCall(board: Uuid, call: Call)

  ghost function JointStep(config: Config, j: Joint, c: BoardCall): (Joint, Answer)
    requires c.board in j.boards
  {
    var (s, answer) := BoardStep(config, c.board, j.StateOf(c.board), c.call);
    (Joint(s.rows, j.boards[c.board := Part(s.cache, s.cacheUsedAt, s.queue)]), answer)
  }

  /** Every board stands for its own plain history. */
  ghost predicate JointStands(config: Config, owner: Uuid -> Uuid, j: Joint, ps: map<Uuid, Plain>) {
    && KeysMatch(j.rows) && OwnedTable(j.rows, owner) && j.boards.Keys == ps.Keys
    && forall board <- ps.Keys :: StandsFor(config, board, owner, j.StateOf(board), ps[board])
  }

  lemma {:induction false} ExecuteOwns(t: Table, board: Uuid, op: QueueOp, owner: Uuid -> Uuid)
    requires KeysMatch(t) && OwnedTable(t, owner) && owner(op.Target()) == board
    ensures var t' := Execute(t, board, op);
            && KeysMatch(t') && OwnedTable(t', owner)
            && forall other :: other != board ==> OwnRows(t', other) == OwnRows(t, other)
  {
    var t' := Execute(t, board, op);
    forall other | other != board ensures OwnRows(t', other) == OwnRows(t, other) {
      forall id ensures SameAt(OwnRows(t', other), OwnRows(t, other), id) {
        assert id != op.Target() ==> SameAt(t', t, id);
      }
      SameEverywhere(OwnRows(t', other), OwnRows(t, other));
    }
  }

  lemma {:induction false} ExecuteAllOwns(t: Table, board: Uuid, queue: seq<QueueOp>, owner: Uuid -> Uuid)
    requires KeysMatch(t) && OwnedTable(t, owner) && OwnTargets(queue, board, owner)
    ensures var t' := ExecuteAll(t, board, queue);
            && KeysMatch(t') && OwnedTable(t', owner)
            && forall other :: other != board ==> OwnRows(t', other) == OwnRows(t, other)
  {
    hide KeysMatch, OwnedTable, OwnRows;
    if queue != [] {
      var q, op := queue[..|queue| - 1], queue[|queue| - 1];
      ExecuteAllOwns(t, board, q, owner);
      ExecuteOwns(ExecuteAll(t, board, q), board, op, owner);
    }
  }

  lemma {:induction false} DeleteOwns(t: Table, board: Uuid, status: Status, owner: Uuid -> Uuid)
    requires KeysMatch(t) && OwnedTable(t, owner)
    ensures var t' := DeleteRows(t, board, status);
            && KeysMatch(t') && OwnedTable(t', owner)
            && forall other :: other != board ==> OwnRows(t', other) == OwnRows(t, other)
  {
  }

  /** A call changes no rows but the board's own. */
  lemma {:induction false} StepOwns(
    config: Config, board: Uuid, owner: Uuid -> Uuid, s: BoardState, p: Plain, call: Call)
    requires StandsFor(config, board, owner, s, p) && KeysMatch(s.rows) && OwnedTable(s.rows, owner)
    ensures var t' := BoardStep(config, board, s, call).0.rows;
            && KeysMatch(t') && OwnedTable(t', owner)
            && forall other :: other != board ==> OwnRows(t', other) == OwnRows(s.rows, other)
  {
    assert Flush(s, board).rows == ExecuteAll(s.rows, board, s.queue) by {
      StandsMeaning(config, board, owner, s, p);
      FlushMeaning(config, board, s);
    }
    assert OwnTargets(s.queue, board, owner);
    hide StandsFor, KeysMatch, OwnedTable, OwnRows, Flushed, DeleteRows;
    ExecuteAllOwns(s.rows, board, s.queue, owner);
    match call
    case EmptyCurrent => DeleteOwns(Flush(s, board).rows, board, Current, owner);
    case EmptyUndone => DeleteOwns(Flush(s, board).rows, board, Undone, owner);
    case _ =>
  }

  lemma {:induction false} JointStepStands(
    config: Config, owner: Uuid -> Uuid, j: Joint, ps: map<Uuid, Plain>, c: BoardCall)
    requires JointStands(config, owner, j, ps) && config.queueSize >= 1
    requires c.board in ps && OwnCall(c.call, c.board, owner) && CallOk(ps[c.board], c.call)
    ensures var (p', answer) := PlainStep(ps[c.board], c.call);
            && JointStands(config, owner, JointStep(config, j, c).0, ps[c.board := p'])
            && JointStep(config, j, c).1 == answer
  {
    hide StandsFor, OwnCall, CallOk, BoardStep, PlainStep, KeysMatch, OwnedTable, OwnRows;
    var j' := JointStep(config, j, c).0;
    CallStands(config, c.board, owner, j.StateOf(c.board), ps[c.board], c.call);
    StepOwns(config, c.board, owner, j.StateOf(c.board), ps[c.board], c.call);
    assert j'.StateOf(c.board) == BoardStep(config, c.board, j.StateOf(c.board), c.call).0;
    forall board | board in ps && board != c.board
      ensures StandsFor(config, board, owner, j'.StateOf(board), ps[board])
    {
      assert SameView(board, owner, j.StateOf(board), j'.StateOf(board));
      StillStands(config, board, owner, j.StateOf(board), j'.StateOf(board), ps[board]);
    }
  }

  ghost function JointAnswers(config: Config, j: Joint, calls: seq<BoardCall>): seq<Answer>
    requires forall c <- calls :: c.board in j.boards
    decreases |calls|
  {
    if calls == [] then []
    else
      var (j', answer) := JointStep(config, j, calls[0]);
      [answer] + JointAnswers(config, j', calls[1..])
  }

  ghost function JointRun(config: Config, j: Joint, calls: seq<BoardCall>): Joint
    requires forall c <- calls :: c.board in j.boards
    decreases |calls|
  {
    if calls == [] then j else JointRun(config, JointStep(config, j, calls[0]).0, calls[1..])
  }

  /** Every call is of a known board, names its ids, and continues its history. */
  ghost predicate JointOk(owner: Uuid -> Uuid, ps: map<Uuid, Plain>, calls: seq<BoardCall>)
    decreases |calls|
  {
    calls == [] ||
    (var c := calls[0];
     && c.board in ps && OwnCall(c.call, c.board, owner) && CallOk(ps[c.board], c.call)
     && JointOk(owner, ps[c.board := PlainStep(ps[c.board], c.call).0], calls[1..]))
  }

  /** Each board's plain history, on its own, answers its calls. */
  function PlainJoint(ps: map<Uuid, Plain>, calls: seq<BoardCall>): seq<Answer>
    requires forall c <- calls :: c.board in ps
    decreases |calls|
  {
    if calls == [] then []
    else
      var (p', answer) := PlainStep(ps[calls[0].board], calls[0].call);
      [answer] + PlainJoint(ps[calls[0].board := p'], calls[1..])
  }

  function PlainsAfter(ps: map<Uuid, Plain>, calls: seq<BoardCall>): map<Uuid, Plain>
    requires forall c <- calls :: c.board in ps
    decreases |calls|
  {
    if calls == [] then ps
    else PlainsAfter(ps[calls[0].board := PlainStep(ps[calls[0].board], calls[0].call).0], calls[1..])
  }

  /**
   * Many boards on one table: in every interleaving of their calls each board answers as its own two lists would,
   * as if the others were not there, and ends standing for them.
   */
  lemma {:induction false} JointRefines(
    config: Config, owner: Uuid -> Uuid, j: Joint, ps: map<Uuid, Plain>, calls: seq<BoardCall>)
    requires JointStands(config, owner, j, ps) && JointOk(owner, ps, calls) && config.queueSize >= 1
    requires forall c <- calls :: c.board in j.boards && c.board in ps
    ensures JointAnswers(config, j, calls) == PlainJoint(ps, calls)
    ensures JointStands(config, owner, JointRun(config, j, calls), PlainsAfter(ps, calls))
    decreases |calls|
  {
    if calls != [] {
      var c := calls[0];
      JointStepStands(config, owner, j, ps, c);
      hide StandsFor, OwnCall, CallOk, BoardStep, PlainStep, KeysMatch, OwnedTable;
      var ps' := ps[c.board := PlainStep(ps[c.board], c.call).0];
      JointRefines(config, owner, JointStep(config, j, c).0, ps', calls[1..]);
    }
  }
}
