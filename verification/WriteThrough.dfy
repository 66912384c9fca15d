/**
 * The reference for a flush: executing the log on the table one operation at a time. A flush agrees with it,
 * and reading the table after it agrees with replaying the log over the old read.
 */
module WriteThrough {
  import opened Wrappers
  import opened Edits
  import opened Histories
  import opened EditTables
  import opened Compaction
  import opened Flushes

  function Execute(t: Table, board: Uuid, op: QueueOp): Table {
    match op
    case Push(stamp, edit) => t[edit.id := Row(board, Current, stamp, edit)]
    case Undo(stamp, id) => SetRow(t, Undone, stamp, id)
    case Redo(stamp, id) => SetRow(t, Current, stamp, id)
  }

  function ExecuteAll(t: Table, board: Uuid, queue: seq<QueueOp>): Table {
    if queue == [] then t
    else Execute(ExecuteAll(t, board, queue[..|queue| - 1]), board, queue[|queue| - 1])
  }

  // The maps of the compaction are the log's own two lists

  function Targets(queue: seq<QueueOp>): set<Uuid> {
    set op <- queue :: op.Target()
  }

  ghost predicate Increasing(queue: seq<QueueOp>) {
    forall i, j :: 0 <= i < j < |queue| ==> queue[i].stamp < queue[j].stamp
  }

  lemma {:induction false} TargetsOfAppend(queue: seq<QueueOp>, op: QueueOp)
    ensures Targets(queue + [op]) == Targets(queue) + {op.Target()}
  {
    assert forall x :: x in queue + [op] <==> x in queue || x == op;
  }

  lemma {:induction false} StepTargets(p: Pending, op: QueueOp)
    ensures CompactStep(p, op).Created() + CompactStep(p, op).Set() <= p.Created() + p.Set() + {op.Target()}
  {
  }

  lemma {:induction false} CompactTargets(queue: seq<QueueOp>)
    ensures Compact(queue).Created() + Compact(queue).Set() <= Targets(queue)
  {
    if queue != [] {
      var q, op := queue[..|queue| - 1], queue[|queue| - 1];
      CompactTargets(q);
      StepTargets(Compact(q), op);
      assert queue == q + [op];
      TargetsOfAppend(q, op);
    }
  }

  lemma {:induction false} FreshTarget(known: set<Uuid>, queue: seq<QueueOp>)
    requires queue != [] && FreshPushes(known, queue)
    ensures var q, op := queue[..|queue| - 1], queue[|queue| - 1];
            && FreshPushes(known, q)
            && (op.Push? ==> op.edit.id !in known && op.edit.id !in Targets(q)
                             && op.edit.id !in Compact(q).Created() + Compact(q).Set())
  {
    var q, op := queue[..|queue| - 1], queue[|queue| - 1];
    CompactTargets(q);
    if op.Push? {
      forall x | x in q ensures x.Target() != op.edit.id {
        var k :| 0 <= k < |q| && q[k] == x;
        assert queue[k] == x;
      }
    }
  }

  lemma {:induction false} CompactDisjoint(known: set<Uuid>, queue: seq<QueueOp>)
    requires FreshPushes(known, queue)
    ensures Compact(queue).current.Keys !! Compact(queue).undone.Keys
  {
    if queue != [] {
      FreshTarget(known, queue);
      CompactDisjoint(known, queue[..|queue| - 1]);
    }
  }

  /** One operation keeps the created maps equal to the pushed part of a replay. */
  ghost predicate MirrorsReplay(p: Pending, h: History, pushed: set<Uuid>) {
    && p.current.Keys == Ids(h.current) * pushed
    && p.undone.Keys == Ids(h.undone) * pushed
  }

  lemma {:induction false} MirrorPush(p: Pending, h: History, pushed: set<Uuid>, stamp: nat, edit: Edit)
    requires MirrorsReplay(p, h, pushed)
    requires edit.id !in Ids(h.current) + Ids(h.undone)
    ensures MirrorsReplay(CompactStep(p, Push(stamp, edit)), Step(h, Push(stamp, edit)), pushed + {edit.id})
  {
    IdsOfAppend(h.current, edit);
    assert p.current[edit.id := EditAction(stamp, edit)].Keys == p.current.Keys + {edit.id};
  }

  lemma {:induction false} MirrorUndo(p: Pending, h: History, pushed: set<Uuid>, stamp: nat, id: Uuid)
    requires Distinct(h) && MirrorsReplay(p, h, pushed)
    ensures MirrorsReplay(CompactStep(p, Undo(stamp, id)), Step(h, Undo(stamp, id)), pushed)
  {
    hide Move, Ids, NoRepeat;
    MoveIds(h.current, h.undone, id);
    var p' := CompactStep(p, Undo(stamp, id));
    if id in p.current {
      assert p'.current.Keys == p.current.Keys - {id} && p'.undone.Keys == p.undone.Keys + {id};
    } else if id in Ids(h.current) {
      assert id !in pushed;
    }
  }

  lemma {:induction false} MirrorRedo(p: Pending, h: History, pushed: set<Uuid>, stamp: nat, id: Uuid)
    requires Distinct(h) && MirrorsReplay(p, h, pushed)
    ensures MirrorsReplay(CompactStep(p, Redo(stamp, id)), Step(h, Redo(stamp, id)), pushed)
  {
    hide Move, Ids, NoRepeat;
    MoveIds(h.undone, h.current, id);
    var p' := CompactStep(p, Redo(stamp, id));
    if id in p.undone {
      assert p'.undone.Keys == p.undone.Keys - {id} && p'.current.Keys == p.current.Keys + {id};
    } else if id in Ids(h.undone) {
      assert id !in pushed;
    }
  }

  /** Over any start, the two created maps hold exactly the pushed ids of the two replayed lists. */
  lemma {:induction false} CompactMirrorsReplay(h: History, queue: seq<QueueOp>)
    requires Distinct(h) && FreshPushes(Ids(h.current) + Ids(h.undone), queue)
    ensures MirrorsReplay(Compact(queue), Replay(h, queue), Ids(Pushed(queue)))
    ensures Compact(queue).Created() == Ids(Pushed(queue))
  {
    if queue != [] {
      var q, op := queue[..|queue| - 1], queue[|queue| - 1];
      CompactMirrorsReplay(h, q);
      ReplayKeepsDistinct(h, q);
      ReplayKeepsDistinct(h, queue);
      PushedWasNamed(q);
      match op
      case Push(stamp, edit) =>
        IdsOfAppend(Pushed(q), edit);
        MirrorPush(Compact(q), Replay(h, q), Ids(Pushed(q)), stamp, edit);
      case Undo(stamp, id) => MirrorUndo(Compact(q), Replay(h, q), Ids(Pushed(q)), stamp, id);
      case Redo(stamp, id) => MirrorRedo(Compact(q), Replay(h, q), Ids(Pushed(q)), stamp, id);
    }
  }

  // When create and status batches meet

  /** No command of the log names an id the log itself pushed and already put where the command would. */
  ghost predicate OwnCommandsEffective(queue: seq<QueueOp>) {
    AllAdmissible(EMPTY, queue)
  }

  /** How one operation changes the created and the updated ids. */
  lemma {:induction false} StepKeys(p: Pending, op: QueueOp)
    ensures var p' := CompactStep(p, op);
            match op
            case Push(_, edit) => p'.Created() == p.Created() + {edit.id} && p'.Set() == p.Set()
            case Undo(_, id) =>
              p'.Created() == p.Created() && p'.Set() == if id in p.current then p.Set() else p.Set() + {id}
            case Redo(_, id) =>
              p'.Created() == p.Created() && p'.Set() == if id in p.undone then p.Set() else p.Set() + {id}
  {
  }

  lemma {:induction false} ConflictStep(p: Pending, op: QueueOp)
    requires p.current.Keys !! p.undone.Keys
    requires op.Push? ==> op.edit.id !in p.Created() + p.Set()
    ensures NoConflict(CompactStep(p, op)) <==>
            NoConflict(p) && (op.Undo? ==> op.id !in p.undone) && (op.Redo? ==> op.id !in p.current)
  {
    StepKeys(p, op);
    Disjointness(p.Created(), p.Set(), op.Target());
    assert op.Target() in p.Created() <==> op.Target() in p.current || op.Target() in p.undone;
  }

  lemma {:induction false} Disjointness(a: set<Uuid>, b: set<Uuid>, id: Uuid)
    ensures a !! b + {id} <==> a !! b && id !in a
    ensures a + {id} !! b <==> a !! b && id !in b
  {
    assert a !! b + {id} ==> forall x :: x in b ==> x in b + {id};
    assert a + {id} !! b ==> forall x :: x in a ==> x in a + {id};
  }

  /** The four maps conflict exactly when the log repeats a command on an edit it pushed itself. */
  lemma {:induction false} NoConflictIff(queue: seq<QueueOp>)
    requires FreshPushes({}, queue)
    ensures NoConflict(Compact(queue)) <==> OwnCommandsEffective(queue)
  {
    if queue != [] {
      var q, op := queue[..|queue| - 1], queue[|queue| - 1];
      FreshTarget({}, queue);
      NoConflictIff(q);
      CompactDisjoint({}, q);
      ConflictStep(Compact(q), op);
      CompactMirrorsReplay(EMPTY, q);
      ReplayKeepsDistinct(EMPTY, q);
    }
  }

  lemma {:induction false} FreshWeaken(known: set<Uuid>, fewer: set<Uuid>, queue: seq<QueueOp>)
    requires FreshPushes(known, queue) && fewer <= known
    ensures FreshPushes(fewer, queue)
  {
  }

  /** Admissible commands over any start leave no conflict. */
  lemma {:induction false} AdmissibleOwn(h: History, queue: seq<QueueOp>)
    requires Distinct(h) && FreshPushes(Ids(h.current) + Ids(h.undone), queue) && AllAdmissible(h, queue)
    ensures OwnCommandsEffective(queue)
  {
    assert Distinct(EMPTY) && Ids(EMPTY.current) + Ids(EMPTY.undone) == {};
    hide Compact, Replay, NoRepeat, Ids;
    if queue != [] {
      var q, op := queue[..|queue| - 1], queue[|queue| - 1];
      AdmissibleOwn(h, q);
      CompactMirrorsReplay(h, q);
      FreshWeaken(Ids(h.current) + Ids(h.undone), {}, q);
      CompactMirrorsReplay(EMPTY, q);
      ReplayKeepsDistinct(EMPTY, q);
    }
  }

  // A flush is the execution of the log

  lemma {:induction false} FlushedStep(t: Table, board: Uuid, p: Pending, op: QueueOp)
    requires WellKeyed(p) && p.current.Keys !! p.undone.Keys && NoConflict(p)
    requires op.Push? ==> op.edit.id !in t && op.edit.id !in p.Created() + p.Set()
    ensures Flushed(t, board, CompactStep(p, op)) == Execute(Flushed(t, board, p), board, op)
  {
    hide FinalRow, CompactStep, WellKeyed;
    var flushed, executed := Flushed(t, board, CompactStep(p, op)), Execute(Flushed(t, board, p), board, op);
    forall id ensures SameAt(flushed, executed, id) {
      FlushedStepAt(t, board, p, op, id);
      FlushedHas(t, board, p, id);
      FlushedHas(t, board, CompactStep(p, op), id);
    }
    SameEverywhere(flushed, executed);
  }

  /** What `Execute` does to the row of one id. */
  function ExecuteRow(row: Option<Row>, board: Uuid, op: QueueOp, id: Uuid): Option<Row> {
    if id != op.Target() then row
    else
      match op
      case Push(stamp, edit) => Some(Row(board, Current, stamp, edit))
      case Undo(stamp, _) => if row.None? then None else Some(row.value.(status := Undone, stamp := stamp))
      case Redo(stamp, _) => if row.None? then None else Some(row.value.(status := Current, stamp := stamp))
  }

  lemma {:induction false} FlushedStepAt(t: Table, board: Uuid, p: Pending, op: QueueOp, id: Uuid)
    requires WellKeyed(p) && p.current.Keys !! p.undone.Keys && (id !in p.Created() || id !in p.Set())
    requires op.Push? ==> op.edit.id !in t && op.edit.id !in p.Created() + p.Set()
    ensures FinalRow(t, board, CompactStep(p, op), id) == ExecuteRow(FinalRow(t, board, p, id), board, op, id)
  {
    if id != op.Target() {
      OtherRow(t, board, p, op, id);
    } else if op.Push? {
    } else if op.Undo? {
    } else {
    }
  }

  /** One operation leaves the entries of other ids alone. */
  lemma {:induction false} StepElsewhere(p: Pending, op: QueueOp, id: Uuid)
    requires id != op.Target()
    ensures var p' := CompactStep(p, op);
            && SameAt(p.current, p'.current, id) && SameAt(p.undone, p'.undone, id)
            && SameAt(p.setCurrent, p'.setCurrent, id) && SameAt(p.setUndone, p'.setUndone, id)
  {
    match op
    case Push(_, _) =>
    case Undo(_, _) =>
    case Redo(_, _) =>
  }

  lemma {:induction false} OtherRow(t: Table, board: Uuid, p: Pending, op: QueueOp, id: Uuid)
    requires id != op.Target()
    ensures FinalRow(t, board, CompactStep(p, op), id) == FinalRow(t, board, p, id)
  {
    StepElsewhere(p, op, id);
    hide CompactStep;
  }

  /**
   * For fresh pushes the table after a flush is the table after executing the log operation by operation,
   * as long as the log repeats no command on an edit it pushed itself; the last operation may.
   */
  lemma {:induction false} FlushExecutes(t: Table, board: Uuid, queue: seq<QueueOp>)
    requires FreshPushes(t.Keys, queue)
    requires queue != [] ==> OwnCommandsEffective(queue[..|queue| - 1])
    ensures Flushed(t, board, Compact(queue)) == ExecuteAll(t, board, queue)
  {
    if queue != [] {
      var q, op := queue[..|queue| - 1], queue[|queue| - 1];
      FreshTarget(t.Keys, queue);
      FlushExecutes(t, board, q);
      CompactWellKeyed(q);
      CompactDisjoint(t.Keys, q);
      FreshWeaken(t.Keys, {}, q);
      NoConflictIff(q);
      FlushedStep(t, board, Compact(q), op);
    }
  }

  /** The same for the batches themselves, in every order in which they may be written. */
  lemma {:induction false} WritesExecute(t: Table, board: Uuid, queue: seq<QueueOp>, d: SyncData, batches: seq<Batch>)
    requires FreshPushes(t.Keys, queue) && OwnCommandsEffective(queue)
    requires IsSyncData(d, Compact(queue)) && IsFlushOrder(batches, board, d)
    ensures ApplyAll(t, batches) == ExecuteAll(t, board, queue)
  {
    CompactWellKeyed(queue);
    CompactDisjoint(t.Keys, queue);
    FreshWeaken(t.Keys, {}, queue);
    NoConflictIff(queue);
    FlushedByAnyOrder(t, batches, board, Compact(queue), d);
    FlushExecutes(t, board, queue);
  }
}
