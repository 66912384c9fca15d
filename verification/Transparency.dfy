/** What a flush lets a reader observe under the guards: nothing. */
module Transparency {
  import opened Edits
  import opened Histories
  import opened EditTables
  import opened Compaction
  import opened Flushes
  import opened WriteThrough

  /** The queue's times increase and are above those of the board's rows. */
  ghost predicate Timely(t: Table, board: Uuid, queue: seq<QueueOp>) {
    Increasing(queue) && forall op <- queue :: OlderThan(t, board, op.stamp)
  }

  /** A log as the room makes it: timely, with new edits only, and with commands that have something to do. */
  ghost predicate GuardedLog(t: Table, board: Uuid, h: History, queue: seq<QueueOp>) {
    Timely(t, board, queue) && FreshPushes(t.Keys, queue) && AllAdmissible(h, queue)
  }

  // One operation

  lemma {:induction false} ExecuteStamps(t: Table, board: Uuid, op: QueueOp)
    requires Readable(t, board) && OlderThan(t, board, op.stamp)
    ensures Readable(Execute(t, board, op), board)
    ensures forall stamp :: op.stamp < stamp ==> OlderThan(Execute(t, board, op), board, stamp)
  {
  }

  lemma {:induction false} MoveKeepsRead(
    t: Table, board: Uuid, source: Status, target: Status, xs: seq<Edit>, ys: seq<Edit>, stamp: nat, id: Uuid)
    requires KeysMatch(t) && OlderThan(t, board, stamp) && source != target
    requires IsListing(t, board, source, xs) && IsListing(t, board, target, ys)
    requires id !in Ids(ys)
    ensures var (xs', ys') := Move(xs, ys, id);
            var t' := SetRow(t, target, stamp, id);
            IsListing(t', board, source, xs') && IsListing(t', board, target, ys')
  {
    var i := LastIndex(xs, id);
    if i >= 0 {
      assert Holds(t, board, source, xs[i].id) && t[id].edit == xs[i];
      var row := t[id].(status := target, stamp := stamp);
      ListingMoveOut(t, board, source, xs, i, row);
      ListingMoveIn(t, board, target, ys, row);
    } else if id in t {
      var row := t[id].(status := target, stamp := stamp);
      assert !Holds(t, board, source, id) && !Holds(t, board, target, id);
      assert t[id].board != board;
      ListingSkip(t, board, source, xs, id, row);
      ListingSkip(t, board, target, ys, id, row);
    }
  }

  /** Executing an admissible operation on the table does to the board's read what a replay step does. */
  lemma {:induction false} ExecuteKeepsRead(t: Table, board: Uuid, h: History, op: QueueOp)
    requires KeysMatch(t) && IsRead(t, board, h) && OlderThan(t, board, op.stamp)
    requires op.Push? ==> op.edit.id !in t
    requires Admissible(h, op)
    ensures IsRead(Execute(t, board, op), board, Step(h, op))
  {
    match op
    case Push(stamp, edit) =>
      var row := Row(board, Current, stamp, edit);
      ReadDistinct(t, board, h);
      ListingMoveIn(t, board, Current, h.current, row);
      ListingSkip(t, board, Undone, h.undone, edit.id, row);
    case Undo(stamp, id) => MoveKeepsRead(t, board, Current, Undone, h.current, h.undone, stamp, id);
    case Redo(stamp, id) => MoveKeepsRead(t, board, Undone, Current, h.undone, h.current, stamp, id);
  }

  // A whole log

  lemma {:induction false} GuardedPrefix(t: Table, board: Uuid, h: History, queue: seq<QueueOp>)
    requires queue != [] && GuardedLog(t, board, h, queue)
    ensures GuardedLog(t, board, h, queue[..|queue| - 1])
    ensures Admissible(Replay(h, queue[..|queue| - 1]), queue[|queue| - 1])
  {
  }

  lemma {:induction false} ExecuteKeys(t: Table, board: Uuid, queue: seq<QueueOp>)
    ensures ExecuteAll(t, board, queue).Keys == t.Keys + Ids(Pushed(queue))
  {
    if queue != [] {
      var q, op := queue[..|queue| - 1], queue[|queue| - 1];
      ExecuteKeys(t, board, q);
      if op.Push? {
        IdsOfAppend(Pushed(q), op.edit);
      }
    }
  }

  lemma {:induction false} ExecuteAllStamps(t: Table, board: Uuid, queue: seq<QueueOp>, stamp: nat)
    requires Readable(t, board) && Timely(t, board, queue)
    requires OlderThan(t, board, stamp) && forall op <- queue :: op.stamp < stamp
    ensures Readable(ExecuteAll(t, board, queue), board)
    ensures OlderThan(ExecuteAll(t, board, queue), board, stamp)
  {
    if queue != [] {
      var q, op := queue[..|queue| - 1], queue[|queue| - 1];
      ExecuteAllStamps(t, board, q, op.stamp);
      ExecuteStamps(ExecuteAll(t, board, q), board, op);
    }
  }

  lemma {:induction false} PushIsNew(t: Table, board: Uuid, queue: seq<QueueOp>)
    requires queue != [] && FreshPushes(t.Keys, queue)
    ensures var q, op := queue[..|queue| - 1], queue[|queue| - 1];
            op.Push? ==> op.edit.id !in ExecuteAll(t, board, q)
  {
    var q := queue[..|queue| - 1];
    FreshTarget(t.Keys, queue);
    ExecuteKeys(t, board, q);
    PushedWasNamed(q);
    forall id | id in Ids(Pushed(q)) ensures id in Targets(q) {
      var k :| 0 <= k < |q| && q[k].Push? && q[k].edit.id == id;
      assert q[k] in q;
    }
  }

  lemma {:induction false} ExecuteAllKeepsRead(t: Table, board: Uuid, h: History, queue: seq<QueueOp>)
    requires Readable(t, board) && IsRead(t, board, h) && GuardedLog(t, board, h, queue)
    ensures IsRead(ExecuteAll(t, board, queue), board, Replay(h, queue))
  {
    if queue != [] {
      var q, op := queue[..|queue| - 1], queue[|queue| - 1];
      GuardedPrefix(t, board, h, queue);
      ExecuteAllKeepsRead(t, board, h, q);
      ExecuteAllStamps(t, board, q, op.stamp);
      PushIsNew(t, board, queue);
      ExecuteKeepsRead(ExecuteAll(t, board, q), board, Replay(h, q), op);
    }
  }

  lemma {:induction false} ReadKeys(t: Table, board: Uuid, h: History)
    requires IsRead(t, board, h)
    ensures Distinct(h) && Ids(h.current) + Ids(h.undone) <= t.Keys
  {
    ReadDistinct(t, board, h);
  }

  lemma {:induction false} GuardedOwn(t: Table, board: Uuid, h: History, queue: seq<QueueOp>)
    requires IsRead(t, board, h) && GuardedLog(t, board, h, queue)
    ensures OwnCommandsEffective(queue)
  {
    ReadKeys(t, board, h);
    FreshWeaken(t.Keys, Ids(h.current) + Ids(h.undone), queue);
    AdmissibleOwn(h, queue);
  }

  /**
   * Flush transparency. For every table and every guarded log, every order in which the hash maps list their
   * values and every order in which the batches are written: reading the table afterwards gives the two lists
   * that replaying the log over the old read gives.
   */
  lemma {:induction false} FlushTransparent(
    t: Table, board: Uuid, h: History, queue: seq<QueueOp>, d: SyncData, batches: seq<Batch>, h': History)
    requires Readable(t, board) && IsRead(t, board, h) && GuardedLog(t, board, h, queue)
    requires IsSyncData(d, Compact(queue)) && IsFlushOrder(batches, board, d)
    ensures IsRead(ApplyAll(t, batches), board, h') <==> h' == Replay(h, queue)
  {
    GuardedOwn(t, board, h, queue);
    WritesExecute(t, board, queue, d, batches);
    ExecuteAllKeepsRead(t, board, h, queue);
    LogStamp(t, board, queue);
    if IsRead(ApplyAll(t, batches), board, h') {
      ReadUnique(ApplyAll(t, batches), board, h', Replay(h, queue));
    }
  }

  lemma {:induction false} LogStamp(t: Table, board: Uuid, queue: seq<QueueOp>)
    requires Readable(t, board) && Timely(t, board, queue)
    ensures Readable(ExecuteAll(t, board, queue), board)
  {
    if queue != [] {
      var q, op := queue[..|queue| - 1], queue[|queue| - 1];
      ExecuteAllStamps(t, board, q, op.stamp);
      ExecuteStamps(ExecuteAll(t, board, q), board, op);
    }
  }
}
