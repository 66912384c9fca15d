/** Flush transparency of a whole log with no guard on its commands: the exact condition. */
module LogTransparency {
  import opened Wrappers
  import opened Edits
  import opened Histories
  import opened EditTables
  import opened Compaction
  import opened Flushes
  import opened WriteThrough
  import opened Transparency
  import opened Exactness

  /** The time the maps give an id: that of its status entry, or else of its create entry, or -1 without either. */
  function Key(p: Pending, id: Uuid): int {
    if id in p.Set() then SetStamp(p, id) else if id in p.Created() then CreatedStamp(p, id) else -1
  }

  /** The maps without the status entries of ids they also create: what is left when the creates are written last. */
  function Spared(p: Pending): Pending {
    p.(setCurrent := p.setCurrent - p.Created(), setUndone := p.setUndone - p.Created())
  }

  ghost predicate InOrder(p: Pending, xs: seq<Edit>) {
    forall i, j :: 0 <= i < j < |xs| ==> Key(p, xs[i].id) <= Key(p, xs[j].id)
  }

  /** An id that is both created and updated has the same status in both maps. */
  ghost predicate StatusesAgree(p: Pending) {
    forall id <- p.Created() * p.Set() :: id in p.current <==> id in p.setCurrent
  }

  /** Both lists of the replay are in the order of the times of the maps, whichever entry of an id counts. */
  ghost predicate Settled(h: History, queue: seq<QueueOp>) {
    var p, r := Compact(queue), Replay(h, queue);
    && StatusesAgree(p)
    && InOrder(p, r.current) && InOrder(p, r.undone)
    && InOrder(Spared(p), r.current) && InOrder(Spared(p), r.undone)
  }

  /** A log with new edits and increasing times over a table; its commands may be anything. */
  ghost predicate LogOver(t: Table, board: Uuid, h: History, queue: seq<QueueOp>) {
    Readable(t, board) && IsRead(t, board, h) && Timely(t, board, queue) && FreshPushes(t.Keys, queue)
  }

  /** The maps when the status batches count, or when the creates do. */
  ghost predicate Extreme(queue: seq<QueueOp>, q: Pending) {
    q == Compact(queue) || q == Spared(Compact(queue))
  }

  lemma {:induction false} SparedRow(t: Table, board: Uuid, p: Pending, id: Uuid)
    ensures FinalRow(t, board, Spared(p), id)
            == if id in p.Created() then CreatedRow(t, board, p, id) else FinalRow(t, board, p, id)
    ensures Spared(p).Created() == p.Created() && Spared(p).Set() == p.Set() - p.Created()
    ensures p.Created() + Spared(p).Set() == p.Created() + p.Set()
  {
  }

  // Boards and edits of the rows

  /** The rows are of the same board and hold the same edit, or are both missing. */
  ghost predicate SameData(row: Option<Row>, row': Option<Row>) {
    && (row.Some? <==> row'.Some?)
    && (row.Some? ==> row.value.board == row'.value.board && row.value.edit == row'.value.edit)
  }

  lemma {:induction false} DataStep(t: Table, board: Uuid, p: Pending, op: QueueOp, id: Uuid)
    requires p.current.Keys !! p.undone.Keys
    requires op.Push? ==> op.edit.id !in t && op.edit.id !in p.Created() + p.Set()
    ensures SameData(FinalRow(t, board, CompactStep(p, op), id), ExecuteRow(FinalRow(t, board, p, id), board, op, id))
  {
    if id != op.Target() {
      OtherRow(t, board, p, op, id);
    } else if op.Push? {
    } else if op.Undo? {
    } else {
    }
  }

  lemma {:induction false} ExecuteAt(t: Table, board: Uuid, op: QueueOp, id: Uuid)
    ensures RowAt(Execute(t, board, op), id) == ExecuteRow(RowAt(t, id), board, op, id)
  {
  }

  lemma {:induction false} ExecuteRowData(row: Option<Row>, row': Option<Row>, board: Uuid, op: QueueOp, id: Uuid)
    requires SameData(row, row')
    ensures SameData(ExecuteRow(row, board, op, id), ExecuteRow(row', board, op, id))
  {
  }

  /** Repeats never change which edit a row holds. */
  lemma {:induction false} FinalData(t: Table, board: Uuid, queue: seq<QueueOp>, id: Uuid)
    requires FreshPushes(t.Keys, queue)
    ensures SameData(FinalRow(t, board, Compact(queue), id), RowAt(ExecuteAll(t, board, queue), id))
  {
    if queue != [] {
      var q, op := queue[..|queue| - 1], queue[|queue| - 1];
      FreshTarget(t.Keys, queue);
      CompactDisjoint(t.Keys, q);
      FinalData(t, board, q, id);
      hide FinalRow, ExecuteRow, CompactStep, Execute, FreshPushes;
      DataStep(t, board, Compact(q), op, id);
      ExecuteAt(ExecuteAll(t, board, q), board, op, id);
      ExecuteRowData(FinalRow(t, board, Compact(q), id), RowAt(ExecuteAll(t, board, q), id), board, op, id);
    }
  }

  /** An id the log did not push has the row that executing the log leaves. */
  lemma {:induction false} StoredFinal(t: Table, board: Uuid, queue: seq<QueueOp>, id: Uuid)
    requires FreshPushes(t.Keys, queue) && id !in Compact(queue).Created()
    ensures RowAt(ExecuteAll(t, board, queue), id) == FinalRow(t, board, Compact(queue), id)
  {
    if queue != [] {
      var q, op := queue[..|queue| - 1], queue[|queue| - 1];
      FreshTarget(t.Keys, queue);
      CompactDisjoint(t.Keys, q);
      CompactWellKeyed(q);
      StepKeys(Compact(q), op);
      StoredFinal(t, board, q, id);
      hide FinalRow, ExecuteRow, CompactStep, Execute, FreshPushes, WellKeyed;
      FlushedStepAt(t, board, Compact(q), op, id);
      ExecuteAt(ExecuteAll(t, board, q), board, op, id);
    }
  }

  ghost predicate HoldsEdits(t: Table, xs: seq<Edit>) {
    forall i :: 0 <= i < |xs| ==> xs[i].id in t && t[xs[i].id].edit == xs[i]
  }

  lemma {:induction false} MoveHoldsEdits(t: Table, source: seq<Edit>, target: seq<Edit>, id: Uuid)
    requires HoldsEdits(t, source) && HoldsEdits(t, target)
    ensures var (s, t') := Move(source, target, id); HoldsEdits(t, s) && HoldsEdits(t, t')
  {
  }

  /** The lists of the replay hold the edits of the executed rows. */
  lemma {:induction false} ReplayHoldsEdits(t: Table, board: Uuid, h: History, queue: seq<QueueOp>)
    requires IsRead(t, board, h) && FreshPushes(t.Keys, queue)
    ensures var r, e := Replay(h, queue), ExecuteAll(t, board, queue);
            HoldsEdits(e, r.current) && HoldsEdits(e, r.undone)
  {
    if queue != [] {
      var q, op := queue[..|queue| - 1], queue[|queue| - 1];
      ReplayHoldsEdits(t, board, h, q);
      PushIsNew(t, board, queue);
      ExecuteHoldsEdits(ExecuteAll(t, board, q), board, op, Replay(h, q));
    }
  }

  lemma {:induction false} ExecuteHoldsEdits(t: Table, board: Uuid, op: QueueOp, h: History)
    requires HoldsEdits(t, h.current) && HoldsEdits(t, h.undone)
    requires op.Push? ==> op.edit.id !in t
    ensures HoldsEdits(Execute(t, board, op), Step(h, op).current)
    ensures HoldsEdits(Execute(t, board, op), Step(h, op).undone)
  {
    match op
    case Push(_, _) =>
    case Undo(_, id) => MoveHoldsEdits(t, h.current, h.undone, id);
    case Redo(_, id) => MoveHoldsEdits(t, h.undone, h.current, id);
  }

  // Statuses of the rows

  lemma {:induction false} ReadGuards(t: Table, board: Uuid, h: History, queue: seq<QueueOp>)
    requires IsRead(t, board, h) && FreshPushes(t.Keys, queue)
    ensures Distinct(h) && FreshPushes(Ids(h.current) + Ids(h.undone), queue) && SameStatuses(t, board, h)
  {
    ReadDistinct(t, board, h);
    ReadKeys(t, board, h);
    FreshWeaken(t.Keys, Ids(h.current) + Ids(h.undone), queue);
  }

  /** When the creates count, every id has the status of the replay. */
  lemma {:induction false} SparedStatuses(t: Table, board: Uuid, h: History, queue: seq<QueueOp>)
    requires IsRead(t, board, h) && FreshPushes(t.Keys, queue)
    ensures SameStatuses(Flushed(t, board, Spared(Compact(queue))), board, Replay(h, queue))
  {
    var p, r := Compact(queue), Replay(h, queue);
    ReadGuards(t, board, h, queue);
    CompactMirrorsReplay(h, queue);
    ReplayKeepsDistinct(h, queue);
    CompactDisjoint(t.Keys, queue);
    ExecuteAllKeepsStatuses(t, board, h, queue);
    forall id
      ensures id in Ids(r.current) <==> Holds(Flushed(t, board, Spared(p)), board, Current, id)
      ensures id in Ids(r.undone) <==> Holds(Flushed(t, board, Spared(p)), board, Undone, id)
    {
      SparedStatus(t, board, h, queue, id);
    }
  }

  lemma {:induction false} SparedStatus(t: Table, board: Uuid, h: History, queue: seq<QueueOp>, id: Uuid)
    requires FreshPushes(t.Keys, queue) && Compact(queue).current.Keys !! Compact(queue).undone.Keys
    requires MirrorsReplay(Compact(queue), Replay(h, queue), Compact(queue).Created())
    requires SameStatuses(ExecuteAll(t, board, queue), board, Replay(h, queue))
    ensures var r, f := Replay(h, queue), Flushed(t, board, Spared(Compact(queue)));
            && (id in Ids(r.current) <==> Holds(f, board, Current, id))
            && (id in Ids(r.undone) <==> Holds(f, board, Undone, id))
  {
    var p := Compact(queue);
    hide Compact, Replay, ExecuteAll, FreshPushes, Flushed;
    FlushedHas(t, board, Spared(p), id);
    SparedRow(t, board, p, id);
    if id !in p.Created() {
      StoredFinal(t, board, queue, id);
    }
  }

  ghost predicate SameStatusAt(t: Table, board: Uuid, p: Pending, id: Uuid) {
    forall status ::
      Holds(Flushed(t, board, p), board, status, id) <==> Holds(Flushed(t, board, Spared(p)), board, status, id)
  }

  lemma {:induction false} HoldsIff(t: Table, board: Uuid, status: Status, id: Uuid, row: Option<Row>)
    requires HasRow(t, id, row)
    ensures Holds(t, board, status, id) <==> row.Some? && row.value.board == board && row.value.status == status
  {
  }

  /** What the two extreme cases make of an id that is both created and updated. */
  lemma {:induction false} ClashRows(t: Table, board: Uuid, p: Pending, id: Uuid)
    requires WellKeyed(p) && p.current.Keys !! p.undone.Keys && id in p.Created() * p.Set()
    ensures var f, g := FinalRow(t, board, p, id), FinalRow(t, board, Spared(p), id);
            && f.Some? && f.value.board == board && f.value.status == (if id in p.setCurrent then Current else Undone)
            && g.Some? && g.value.board == board && g.value.status == (if id in p.current then Current else Undone)
  {
    SparedRow(t, board, p, id);
    hide Spared;
  }

  lemma {:induction false} StatusAt(t: Table, board: Uuid, p: Pending, id: Uuid)
    requires WellKeyed(p) && p.current.Keys !! p.undone.Keys
    ensures SameStatusAt(t, board, p, id) <==>
            id !in p.Created() * p.Set() || (id in p.current <==> id in p.setCurrent)
  {
    hide Flushed, Spared, FinalRow, HasRow, Holds, WellKeyed;
    var f, g := FinalRow(t, board, p, id), FinalRow(t, board, Spared(p), id);
    FlushedHas(t, board, p, id);
    FlushedHas(t, board, Spared(p), id);
    forall status
      ensures Holds(Flushed(t, board, p), board, status, id)
              <==> f.Some? && f.value.board == board && f.value.status == status
      ensures Holds(Flushed(t, board, Spared(p)), board, status, id)
              <==> g.Some? && g.value.board == board && g.value.status == status
    {
      HoldsIff(Flushed(t, board, p), board, status, id, f);
      HoldsIff(Flushed(t, board, Spared(p)), board, status, id, g);
    }
    if id in p.Created() * p.Set() {
      ClashRows(t, board, p, id);
      assert Holds(Flushed(t, board, p), board, f.value.status, id);
    } else {
      NoClashRow(t, board, p, id);
    }
  }

  lemma {:induction false} AgreeIff(t: Table, board: Uuid, p: Pending)
    requires WellKeyed(p) && p.current.Keys !! p.undone.Keys
    ensures (forall id :: SameStatusAt(t, board, p, id)) <==> StatusesAgree(p)
  {
    forall id
      ensures SameStatusAt(t, board, p, id) <==>
              id !in p.Created() * p.Set() || (id in p.current <==> id in p.setCurrent)
    {
      StatusAt(t, board, p, id);
    }
    hide SameStatusAt, WellKeyed;
  }

  lemma {:induction false} StatusesFollow(t: Table, board: Uuid, p: Pending, r: History)
    requires SameStatuses(Flushed(t, board, Spared(p)), board, r)
    ensures SameStatuses(Flushed(t, board, p), board, r) <==> forall id :: SameStatusAt(t, board, p, id)
  {
    hide Flushed, Spared;
    var f, g := Flushed(t, board, p), Flushed(t, board, Spared(p));
    if SameStatuses(f, board, r) {
      forall id ensures SameStatusAt(t, board, p, id) {
        assert Holds(f, board, Current, id) <==> Holds(g, board, Current, id);
        assert Holds(f, board, Undone, id) <==> Holds(g, board, Undone, id);
      }
    } else if forall id :: SameStatusAt(t, board, p, id) {
      forall id
        ensures Holds(f, board, Current, id) <==> Holds(g, board, Current, id)
        ensures Holds(f, board, Undone, id) <==> Holds(g, board, Undone, id)
      {
        assert SameStatusAt(t, board, p, id);
      }
    }
  }

  /** When the status batches count, statuses are those of the replay exactly when both entries of an id agree. */
  lemma {:induction false} StatusesIff(t: Table, board: Uuid, h: History, queue: seq<QueueOp>)
    requires IsRead(t, board, h) && FreshPushes(t.Keys, queue)
    ensures SameStatuses(Flushed(t, board, Compact(queue)), board, Replay(h, queue)) <==> StatusesAgree(Compact(queue))
  {
    SparedStatuses(t, board, h, queue);
    CompactWellKeyed(queue);
    CompactDisjoint(t.Keys, queue);
    hide *;
    StatusesFollow(t, board, Compact(queue), Replay(h, queue));
    AgreeIff(t, board, Compact(queue));
  }

  // Times of the rows

  /** Some operation of the log names the id at that time. */
  ghost predicate NamedAt(queue: seq<QueueOp>, id: Uuid, stamp: int) {
    exists k :: 0 <= k < |queue| && queue[k].Target() == id && queue[k].stamp == stamp
  }

  lemma {:induction false} NamedAtAppend(queue: seq<QueueOp>, op: QueueOp, id: Uuid, stamp: int)
    requires NamedAt(queue, id, stamp) || (op.Target() == id && op.stamp == stamp)
    ensures NamedAt(queue + [op], id, stamp)
  {
    if NamedAt(queue, id, stamp) {
      var k :| 0 <= k < |queue| && queue[k].Target() == id && queue[k].stamp == stamp;
      assert (queue + [op])[k] == queue[k];
    } else {
      assert (queue + [op])[|queue|] == op;
    }
  }

  /** The maps hold an id exactly when the log names it, at times at which the log names it. */
  lemma {:induction false} StampsNamed(queue: seq<QueueOp>, id: Uuid)
    requires FreshPushes({}, queue)
    ensures id in Compact(queue).Created() ==> NamedAt(queue, id, CreatedStamp(Compact(queue), id))
    ensures id in Compact(queue).Set() ==> NamedAt(queue, id, SetStamp(Compact(queue), id))
    ensures id in Compact(queue).Created() + Compact(queue).Set() <==> id in Targets(queue)
  {
    if queue != [] {
      var q, op := queue[..|queue| - 1], queue[|queue| - 1];
      var p, p' := Compact(q), Compact(queue);
      FreshTarget({}, queue);
      CompactDisjoint({}, q);
      StampsNamed(q, id);
      assert queue == q + [op];
      TargetsOfAppend(q, op);
      hide Compact, FreshPushes, CompactStep, NamedAt, Targets;
      assert p' == CompactStep(p, op) by { CompactAppend(q, op); }
      StepKeys(p, op);
      RestampsOne(p, op, id);
      if id in p'.Created() {
        NamedAtAppend(q, op, id, CreatedStamp(p', id));
      }
      if id in p'.Set() {
        NamedAtAppend(q, op, id, SetStamp(p', id));
      }
    }
  }

  lemma {:induction false} KeyNamed(queue: seq<QueueOp>, q: Pending, id: Uuid)
    requires FreshPushes({}, queue) && Extreme(queue, q)
    ensures if id in Targets(queue) then NamedAt(queue, id, Key(q, id)) else Key(q, id) == -1
  {
    StampsNamed(queue, id);
    hide Compact, FreshPushes, NamedAt, Targets;
  }

  /** Different ids never have the same time. */
  lemma {:induction false} NamedApart(queue: seq<QueueOp>, x: Uuid, y: Uuid, a: int, b: int)
    requires Increasing(queue) && x != y && NamedAt(queue, x, a) && NamedAt(queue, y, b)
    ensures a != b
  {
  }

  lemma {:induction false} FinalStamp(t: Table, board: Uuid, q: Pending, id: Uuid)
    requires FinalRow(t, board, q, id).Some?
    ensures if Key(q, id) >= 0 then FinalRow(t, board, q, id).value.stamp == Key(q, id)
            else id in t && FinalRow(t, board, q, id).value == t[id]
  {
  }

  // The order of edits the log never names

  /** The edits that are not named are rows of the board, in the order of the table. */
  ghost predicate RestInOrder(t: Table, board: Uuid, named: set<Uuid>, xs: seq<Edit>) {
    && (forall i :: 0 <= i < |xs| && xs[i].id !in named ==> xs[i].id in t && t[xs[i].id].board == board)
    && (forall i, j :: 0 <= i < j < |xs| && xs[i].id !in named && xs[j].id !in named ==>
          t[xs[i].id].stamp < t[xs[j].id].stamp)
  }

  lemma {:induction false} RestAppend(t: Table, board: Uuid, named: set<Uuid>, xs: seq<Edit>, e: Edit)
    requires RestInOrder(t, board, named, xs) && e.id in named
    ensures RestInOrder(t, board, named, xs + [e])
  {
  }

  lemma {:induction false} RestWithout(t: Table, board: Uuid, named: set<Uuid>, xs: seq<Edit>, i: nat)
    requires RestInOrder(t, board, named, xs) && i < |xs|
    ensures RestInOrder(t, board, named, Without(xs, i))
  {
    var ys := Without(xs, i);
    assert forall k :: 0 <= k < |ys| ==> ys[k] == xs[if k < i then k else k + 1];
  }

  lemma {:induction false} RestMore(t: Table, board: Uuid, named: set<Uuid>, more: set<Uuid>, xs: seq<Edit>)
    requires RestInOrder(t, board, named, xs) && named <= more
    ensures RestInOrder(t, board, more, xs)
  {
  }

  lemma {:induction false} RestMove(t: Table, board: Uuid, named: set<Uuid>, xs: seq<Edit>, ys: seq<Edit>, id: Uuid)
    requires RestInOrder(t, board, named, xs) && RestInOrder(t, board, named, ys) && id in named
    ensures var (xs', ys') := Move(xs, ys, id); RestInOrder(t, board, named, xs') && RestInOrder(t, board, named, ys')
  {
    hide RestInOrder;
    var i := LastIndex(xs, id);
    if i >= 0 {
      RestWithout(t, board, named, xs, i);
      RestAppend(t, board, named, ys, xs[i]);
    }
  }

  lemma {:induction false} ReplayRest(t: Table, board: Uuid, h: History, queue: seq<QueueOp>)
    requires IsRead(t, board, h)
    ensures RestInOrder(t, board, Targets(queue), Replay(h, queue).current)
    ensures RestInOrder(t, board, Targets(queue), Replay(h, queue).undone)
  {
    if queue != [] {
      var q, op := queue[..|queue| - 1], queue[|queue| - 1];
      ReplayRest(t, board, h, q);
      assert queue == q + [op];
      TargetsOfAppend(q, op);
      var r := Replay(h, q);
      RestMore(t, board, Targets(q), Targets(queue), r.current);
      RestMore(t, board, Targets(q), Targets(queue), r.undone);
      hide RestInOrder, Targets, IsRead, Move;
      match op
      case Push(_, e) => RestAppend(t, board, Targets(queue), r.current, e);
      case Undo(_, id) => RestMove(t, board, Targets(queue), r.current, r.undone, id);
      case Redo(_, id) => RestMove(t, board, Targets(queue), r.undone, r.current, id);
    }
  }

  // One list of a read

  lemma {:induction false} ExtremeData(t: Table, board: Uuid, queue: seq<QueueOp>, q: Pending, id: Uuid)
    requires FreshPushes(t.Keys, queue) && Extreme(queue, q)
    ensures SameData(FinalRow(t, board, q, id), RowAt(ExecuteAll(t, board, queue), id))
  {
    FinalData(t, board, queue, id);
    SparedRow(t, board, Compact(queue), id);
    hide Compact, ExecuteAll, FreshPushes, Spared;
  }

  lemma {:induction false} NamedLater(t: Table, board: Uuid, queue: seq<QueueOp>, id: Uuid, stamp: int)
    requires Timely(t, board, queue) && NamedAt(queue, id, stamp)
    ensures forall x :: x in t && t[x].board == board ==> t[x].stamp < stamp
  {
    var k :| 0 <= k < |queue| && queue[k].Target() == id && queue[k].stamp == stamp;
    assert queue[k] in queue;
  }

  /** Two edits of a list are in the order of the rows exactly when they are in the order of the maps' times. */
  lemma {:induction false} PairOrder(
    t: Table, board: Uuid, queue: seq<QueueOp>, q: Pending, xs: seq<Edit>, i: nat, j: nat)
    requires Timely(t, board, queue) && FreshPushes({}, queue) && Extreme(queue, q)
    requires RestInOrder(t, board, Targets(queue), xs) && i < j < |xs| && xs[i].id != xs[j].id
    requires FinalRow(t, board, q, xs[i].id).Some? && FinalRow(t, board, q, xs[j].id).Some?
    ensures FinalRow(t, board, q, xs[i].id).value.stamp < FinalRow(t, board, q, xs[j].id).value.stamp
            <==> Key(q, xs[i].id) <= Key(q, xs[j].id)
  {
    var x, y := xs[i].id, xs[j].id;
    KeyNamed(queue, q, x);
    KeyNamed(queue, q, y);
    FinalStamp(t, board, q, x);
    FinalStamp(t, board, q, y);
    KeyIsTime(queue, q, x);
    KeyIsTime(queue, q, y);
    if x in Targets(queue) {
      NamedLater(t, board, queue, x, Key(q, x));
      if y in Targets(queue) {
        NamedApart(queue, x, y, Key(q, x), Key(q, y));
      }
    } else if y in Targets(queue) {
      NamedLater(t, board, queue, y, Key(q, y));
    }
  }

  lemma {:induction false} KeyIsTime(queue: seq<QueueOp>, q: Pending, id: Uuid)
    ensures Key(q, id) >= -1
  {
  }

  function ListOf(h: History, status: Status): seq<Edit> {
    if status.Current? then h.current else h.undone
  }

  /** A list of the replay is read back in an extreme case exactly when the maps' times are in its order. */
  lemma {:induction false} ListingIff(
    t: Table, board: Uuid, h: History, queue: seq<QueueOp>, q: Pending, status: Status)
    requires LogOver(t, board, h, queue) && Extreme(queue, q)
    requires SameStatuses(Flushed(t, board, q), board, Replay(h, queue))
    ensures IsListing(Flushed(t, board, q), board, status, ListOf(Replay(h, queue), status))
            <==> InOrder(q, ListOf(Replay(h, queue), status))
  {
    var r := Replay(h, queue);
    ReadGuards(t, board, h, queue);
    FreshWeaken(t.Keys, {}, queue);
    ReplayKeepsDistinct(h, queue);
    ReplayRest(t, board, h, queue);
    ReplayHoldsEdits(t, board, h, queue);
    hide Replay, Compact, FreshPushes, Flushed, ExecuteAll, IsRead, Readable, Timely, RestInOrder, Extreme;
    hide SameStatuses;
    hide IsListing, InOrder, HoldsEdits, NoRepeat, Targets;
    ListingRows(t, board, r, queue, q, status);
  }

  lemma {:induction false} ListingRows(
    t: Table, board: Uuid, r: History, queue: seq<QueueOp>, q: Pending, status: Status)
    requires Timely(t, board, queue) && FreshPushes(t.Keys, queue) && FreshPushes({}, queue) && Extreme(queue, q)
    requires SameStatuses(Flushed(t, board, q), board, r) && NoRepeat(ListOf(r, status))
    requires HoldsEdits(ExecuteAll(t, board, queue), r.current) && HoldsEdits(ExecuteAll(t, board, queue), r.undone)
    requires RestInOrder(t, board, Targets(queue), ListOf(r, status))
    ensures IsListing(Flushed(t, board, q), board, status, ListOf(r, status)) <==> InOrder(q, ListOf(r, status))
  {
    hide Compact, FreshPushes, Flushed, ExecuteAll, FinalRow, Timely, RestInOrder, Extreme, HoldsEdits, Key, Targets;
    var f, xs := Flushed(t, board, q), ListOf(r, status);
    forall i | 0 <= i < |xs|
      ensures Holds(f, board, status, xs[i].id) && f[xs[i].id].edit == xs[i]
      ensures FinalRow(t, board, q, xs[i].id) == Some(f[xs[i].id])
    {
      ListedRow(t, board, r, queue, q, status, i);
    }
    forall i, j | 0 <= i < j < |xs|
      ensures f[xs[i].id].stamp < f[xs[j].id].stamp <==> Key(q, xs[i].id) <= Key(q, xs[j].id)
    {
      PairOrder(t, board, queue, q, xs, i, j);
    }
  }

  lemma {:induction false} ListedRow(
    t: Table, board: Uuid, r: History, queue: seq<QueueOp>, q: Pending, status: Status, i: nat)
    requires FreshPushes(t.Keys, queue) && Extreme(queue, q)
    requires SameStatuses(Flushed(t, board, q), board, r) && i < |ListOf(r, status)|
    requires HoldsEdits(ExecuteAll(t, board, queue), r.current) && HoldsEdits(ExecuteAll(t, board, queue), r.undone)
    ensures var f, e := Flushed(t, board, q), ListOf(r, status)[i];
            Holds(f, board, status, e.id) && f[e.id].edit == e && FinalRow(t, board, q, e.id) == Some(f[e.id])
  {
    hide ExecuteAll, FinalRow, Flushed, FreshPushes, Extreme;
    var e := ListOf(r, status)[i];
    ExtremeData(t, board, queue, q, e.id);
    FlushedHas(t, board, q, e.id);
    assert e.id in Ids(ListOf(r, status));
  }

  lemma {:induction false} ExtremeReadIff(t: Table, board: Uuid, h: History, queue: seq<QueueOp>, q: Pending)
    requires LogOver(t, board, h, queue) && Extreme(queue, q)
    requires SameStatuses(Flushed(t, board, q), board, Replay(h, queue))
    ensures IsRead(Flushed(t, board, q), board, Replay(h, queue))
            <==> InOrder(q, Replay(h, queue).current) && InOrder(q, Replay(h, queue).undone)
  {
    hide LogOver, Extreme, SameStatuses, Flushed, Replay, InOrder, IsListing;
    ListingIff(t, board, h, queue, q, Current);
    ListingIff(t, board, h, queue, q, Undone);
  }

  // All orders, and the two extreme ones

  /** The two tables an order may end in, at one id. */
  lemma {:induction false} OrderAt(t: Table, board: Uuid, queue: seq<QueueOp>, d: SyncData, xs: seq<Batch>, id: Uuid)
    requires FreshPushes(t.Keys, queue) && IsSyncData(d, Compact(queue)) && IsFlushOrder(xs, board, d)
    requires id !in Compact(queue).Created() * Compact(queue).Set()
    ensures HasRow(ApplyAll(t, xs), id, FinalRow(t, board, Compact(queue), id))
    ensures HasRow(ApplyAll(t, xs), id, FinalRow(t, board, Spared(Compact(queue)), id))
  {
    CompactWellKeyed(queue);
    CompactDisjoint(t.Keys, queue);
    NoClashRow(t, board, Compact(queue), id);
    hide Compact, FinalRow, Spared, ApplyAll, HasRow, WellKeyed, IsSyncData, IsFlushOrder, FreshPushes;
    OrderHas(t, xs, board, Compact(queue), d, id);
  }

  lemma {:induction false} NoClashRow(t: Table, board: Uuid, p: Pending, id: Uuid)
    requires id !in p.Created() * p.Set()
    ensures FinalRow(t, board, Spared(p), id) == FinalRow(t, board, p, id)
  {
    SparedRow(t, board, p, id);
  }

  lemma {:induction false} TablesEqual(t: Table, board: Uuid, q: Pending, t': Table)
    requires forall id :: HasRow(t', id, FinalRow(t, board, q, id))
    ensures t' == Flushed(t, board, q)
  {
    hide FinalRow, Flushed;
    forall id ensures SameAt(t', Flushed(t, board, q), id) {
      FlushedHas(t, board, q, id);
    }
    SameEverywhere(t', Flushed(t, board, q));
  }

  /** Writing the creates first ends in one extreme table, writing the status batches first in the other. */
  lemma {:induction false} ExtremeOrders(t: Table, board: Uuid, queue: seq<QueueOp>, d: SyncData)
    requires FreshPushes(t.Keys, queue) && IsSyncData(d, Compact(queue))
    ensures IsFlushOrder(Sent(board, d), board, d) && IsFlushOrder(StatusFirst(board, d), board, d)
    ensures ApplyAll(t, Sent(board, d)) == Flushed(t, board, Compact(queue))
    ensures ApplyAll(t, StatusFirst(board, d)) == Flushed(t, board, Spared(Compact(queue)))
  {
    var p := Compact(queue);
    TwoOrders(board, d);
    CompactWellKeyed(queue);
    CompactDisjoint(t.Keys, queue);
    hide Compact, FinalRow, CreatedRow, Spared, Flushed, Sent, StatusFirst, ApplyAll, WellKeyed, IsSyncData, HasRow;
    hide FreshPushes, IsFlushOrder;
    forall id
      ensures HasRow(ApplyAll(t, Sent(board, d)), id, FinalRow(t, board, p, id))
      ensures HasRow(ApplyAll(t, StatusFirst(board, d)), id, FinalRow(t, board, Spared(p), id))
    {
      SparedRow(t, board, p, id);
      if id in p.Created() * p.Set() {
        ConflictRowSent(t, board, p, d, id);
        ConflictRowStatusFirst(t, board, p, d, id);
      } else {
        OrderAt(t, board, queue, d, Sent(board, d), id);
        OrderAt(t, board, queue, d, StatusFirst(board, d), id);
      }
    }
    TablesEqual(t, board, p, ApplyAll(t, Sent(board, d)));
    TablesEqual(t, board, Spared(p), ApplyAll(t, StatusFirst(board, d)));
  }

  /** The created ids of one status that are also updated. */
  predicate Clashing(p: Pending, status: Status, id: Uuid) {
    id in p.Created() * p.Set() && (id in p.current <==> status.Current?)
  }

  lemma {:induction false} ClashSlots(p: Pending, status: Status, id: Uuid, i: nat, j: nat)
    requires p.current.Keys !! p.undone.Keys && p.setCurrent.Keys !! p.setUndone.Keys && StatusesAgree(p)
    requires Clashing(p, status, id) && i < 2 <= j < 4
    ensures id in KeysOf(p, i) && id in KeysOf(p, j) <==> if status.Current? then i == 0 && j == 2 else i == 1 && j == 3
  {
    KeysOfAll(p);
  }

  lemma {:induction false} OtherClash(
    t: Table, c: Clash, xs: seq<Batch>, board: Uuid, p: Pending, d: SyncData, status: Status, x: Uuid, id: Uuid)
    requires WellKeyed(p) && p.current.Keys !! p.undone.Keys && StatusesAgree(p)
    requires IsSyncData(d, p) && IsFlushOrder(xs, board, d) && IsClash(c, xs, board, p, d, x)
    requires Clashing(p, status, x) && Clashing(p, status, id)
    ensures HasRow(ApplyAll(t, xs), id, if c.k < c.m then FinalRow(t, board, p, id) else CreatedRow(t, board, p, id))
  {
    ClashSlots(p, status, x, c.i, c.j);
    ClashSlots(p, status, id, c.i, c.j);
    hide WellKeyed, IsSyncData, IsFlushOrder, FinalRow, CreatedRow, ApplyAll, HasRow, Clashing, StatusesAgree, Four;
    ConflictRow(t, c, xs, board, p, d, id);
  }

  /** For one status an order is like one of the two extremes: all ids that clash there are in the same two batches. */
  lemma {:induction false} OrderLike(
    t: Table, board: Uuid, queue: seq<QueueOp>, d: SyncData, xs: seq<Batch>, status: Status) returns (q: Pending)
    requires FreshPushes(t.Keys, queue) && IsSyncData(d, Compact(queue)) && IsFlushOrder(xs, board, d)
    requires StatusesAgree(Compact(queue))
    ensures Extreme(queue, q)
    ensures var p := Compact(queue);
            forall id :: Clashing(p, status, id) || id !in p.Created() * p.Set() ==>
              HasRow(ApplyAll(t, xs), id, FinalRow(t, board, q, id))
  {
    hide Compact, FinalRow, Spared, ApplyAll, IsSyncData, IsFlushOrder, FreshPushes, StatusesAgree, HasRow, Clashing;
    var p := Compact(queue);
    q := p;
    if x :| Clashing(p, status, x) {
      q := ClashLike(t, board, queue, d, xs, status, x);
    }
    forall id | id !in p.Created() * p.Set() ensures HasRow(ApplyAll(t, xs), id, FinalRow(t, board, q, id)) {
      OrderAt(t, board, queue, d, xs, id);
    }
  }

  /** The clash of one id says for all ids that clash under its status which extreme case the order is like. */
  lemma {:induction false} ClashLike(
    t: Table, board: Uuid, queue: seq<QueueOp>, d: SyncData, xs: seq<Batch>, status: Status, x: Uuid)
    returns (q: Pending)
    requires FreshPushes(t.Keys, queue) && IsSyncData(d, Compact(queue)) && IsFlushOrder(xs, board, d)
    requires StatusesAgree(Compact(queue)) && Clashing(Compact(queue), status, x)
    ensures Extreme(queue, q)
    ensures forall id :: Clashing(Compact(queue), status, id) ==>
              HasRow(ApplyAll(t, xs), id, FinalRow(t, board, q, id))
  {
    var p := Compact(queue);
    CompactWellKeyed(queue);
    CompactDisjoint(t.Keys, queue);
    hide Compact, FinalRow, CreatedRow, Spared, ApplyAll, IsSyncData, IsFlushOrder, FreshPushes, StatusesAgree;
    hide WellKeyed, HasRow, IsClash;
    var c := ClashOf(xs, board, p, d, x);
    q := if c.k < c.m then p else Spared(p);
    forall id | Clashing(p, status, id) ensures HasRow(ApplyAll(t, xs), id, FinalRow(t, board, q, id)) {
      OtherClash(t, c, xs, board, p, d, status, x, id);
      SparedRow(t, board, p, id);
    }
  }

  /** Tables with the same rows of one board and status have the same listings of it. */
  lemma {:induction false} SameListings(t: Table, t': Table, board: Uuid, status: Status, xs: seq<Edit>)
    requires forall id :: Holds(t, board, status, id) || Holds(t', board, status, id) ==> SameAt(t, t', id)
    ensures IsListing(t, board, status, xs) <==> IsListing(t', board, status, xs)
  {
    assert forall id :: Holds(t, board, status, id) <==> Holds(t', board, status, id) by {
      forall id ensures Holds(t, board, status, id) <==> Holds(t', board, status, id) {
        assert SameAt(t, t', id) ==> (Holds(t, board, status, id) <==> Holds(t', board, status, id));
      }
    }
  }

  lemma {:induction false} ClashStatus(t: Table, board: Uuid, p: Pending, status: Status, id: Uuid)
    requires p.setCurrent.Keys !! p.setUndone.Keys && p.current.Keys !! p.undone.Keys && StatusesAgree(p)
    requires Clashing(p, status, id)
    ensures var f, g := FinalRow(t, board, p, id), FinalRow(t, board, Spared(p), id);
            f.Some? && f.value.status == status && g.Some? && g.value.status == status
  {
    SparedRow(t, board, p, id);
  }

  function Other(status: Status): Status {
    if status.Current? then Undone else Current
  }

  /** An id that clashes under the other status does not count for this one, in the order or in an extreme case. */
  lemma {:induction false} ElsewhereClash(
    t: Table, board: Uuid, queue: seq<QueueOp>, d: SyncData, xs: seq<Batch>, status: Status, q: Pending, id: Uuid)
    requires FreshPushes(t.Keys, queue) && IsSyncData(d, Compact(queue)) && IsFlushOrder(xs, board, d)
    requires StatusesAgree(Compact(queue)) && Extreme(queue, q) && Clashing(Compact(queue), Other(status), id)
    ensures !Holds(ApplyAll(t, xs), board, status, id) && !Holds(Flushed(t, board, q), board, status, id)
  {
    hide Compact, FinalRow, ApplyAll, IsSyncData, IsFlushOrder, FreshPushes, StatusesAgree, Clashing, Spared, Flushed;
    hide HasRow, Holds, Extreme;
    var like := OrderLike(t, board, queue, d, xs, Other(status));
    assert HasRow(ApplyAll(t, xs), id, FinalRow(t, board, like, id));
    FlushedHas(t, board, q, id);
    ExtremeStatus(t, board, queue, like, Other(status), id);
    ExtremeStatus(t, board, queue, q, Other(status), id);
    HoldsElsewhere(ApplyAll(t, xs), board, status, id, FinalRow(t, board, like, id));
    HoldsElsewhere(Flushed(t, board, q), board, status, id, FinalRow(t, board, q, id));
  }

  lemma {:induction false} ExtremeStatus(
    t: Table, board: Uuid, queue: seq<QueueOp>, q: Pending, status: Status, id: Uuid)
    requires FreshPushes(t.Keys, queue) && StatusesAgree(Compact(queue)) && Extreme(queue, q)
    requires Clashing(Compact(queue), status, id)
    ensures FinalRow(t, board, q, id).Some? && FinalRow(t, board, q, id).value.status == status
  {
    CompactWellKeyed(queue);
    CompactDisjoint(t.Keys, queue);
    hide Compact, FinalRow, FreshPushes, StatusesAgree, Clashing, Spared;
    ClashStatus(t, board, Compact(queue), status, id);
  }

  lemma {:induction false} HoldsElsewhere(t: Table, board: Uuid, status: Status, id: Uuid, row: Option<Row>)
    requires HasRow(t, id, row) && row.Some? && row.value.status != status
    ensures !Holds(t, board, status, id)
  {
  }

  /** For one status an order gives the listings of an extreme case. */
  lemma {:induction false} OrderListing(
    t: Table, board: Uuid, queue: seq<QueueOp>, d: SyncData, xs: seq<Batch>, status: Status) returns (q: Pending)
    requires FreshPushes(t.Keys, queue) && IsSyncData(d, Compact(queue)) && IsFlushOrder(xs, board, d)
    requires StatusesAgree(Compact(queue))
    ensures Extreme(queue, q)
    ensures forall list :: IsListing(ApplyAll(t, xs), board, status, list) <==>
                           IsListing(Flushed(t, board, q), board, status, list)
  {
    hide Compact, FinalRow, ApplyAll, IsSyncData, IsFlushOrder, FreshPushes, StatusesAgree, Extreme, Flushed, IsListing;
    hide Holds;
    q := OrderLike(t, board, queue, d, xs, status);
    var t', f := ApplyAll(t, xs), Flushed(t, board, q);
    forall id | Holds(t', board, status, id) || Holds(f, board, status, id) ensures SameAt(t', f, id) {
      if Clashing(Compact(queue), Other(status), id) {
        ElsewhereClash(t, board, queue, d, xs, status, q, id);
      } else {
        assert HasRow(t', id, FinalRow(t, board, q, id));
        FlushedHas(t, board, q, id);
      }
    }
    forall list ensures IsListing(t', board, status, list) <==> IsListing(f, board, status, list) {
      SameListings(t', f, board, status, list);
    }
  }

  lemma {:induction false} SettledExtremes(t: Table, board: Uuid, h: History, queue: seq<QueueOp>)
    requires LogOver(t, board, h, queue)
    ensures Settled(h, queue) <==>
            IsRead(Flushed(t, board, Compact(queue)), board, Replay(h, queue)) &&
            IsRead(Flushed(t, board, Spared(Compact(queue))), board, Replay(h, queue))
  {
    var p, r := Compact(queue), Replay(h, queue);
    SparedStatuses(t, board, h, queue);
    StatusesIff(t, board, h, queue);
    hide Compact, Replay, Flushed, Spared, InOrder, StatusesAgree, LogOver, IsRead, SameStatuses;
    ExtremeReadIff(t, board, h, queue, Spared(p));
    if StatusesAgree(p) {
      ExtremeReadIff(t, board, h, queue, p);
    } else if IsRead(Flushed(t, board, p), board, r) {
      ReadStatuses(Flushed(t, board, p), board, r);
    }
  }

  lemma {:induction false} ReadStatuses(t: Table, board: Uuid, h: History)
    requires IsRead(t, board, h)
    ensures SameStatuses(t, board, h)
  {
    ReadDistinct(t, board, h);
  }

  lemma {:induction false} SettledReads(
    t: Table, board: Uuid, h: History, queue: seq<QueueOp>, d: SyncData, xs: seq<Batch>)
    requires LogOver(t, board, h, queue) && IsSyncData(d, Compact(queue)) && IsFlushOrder(xs, board, d)
    requires Settled(h, queue)
    ensures IsRead(ApplyAll(t, xs), board, Replay(h, queue))
  {
    SettledExtremes(t, board, h, queue);
    assert StatusesAgree(Compact(queue)) && FreshPushes(t.Keys, queue);
    hide Compact, Replay, Flushed, Spared, InOrder, StatusesAgree, LogOver, Settled, IsSyncData, IsFlushOrder, ApplyAll;
    hide IsListing, FreshPushes;
    var a := OrderListing(t, board, queue, d, xs, Current);
    var b := OrderListing(t, board, queue, d, xs, Undone);
  }

  /** Every order of the flush reads back as the replay. */
  ghost predicate AllOrdersRead(t: Table, board: Uuid, d: SyncData, r: History) {
    forall xs :: IsFlushOrder(xs, board, d) ==> IsRead(ApplyAll(t, xs), board, r)
  }

  /**
   * Flush transparency with no guard on the commands. For every table and every log of new edits with increasing
   * times, every order of the flush reads back as the replay exactly when the log is settled: an edit that is both
   * created and updated has one status, and both lists of the replay are in the order of the maps' times.
   */
  lemma {:induction false} LogTransparentIff(t: Table, board: Uuid, h: History, queue: seq<QueueOp>, d: SyncData)
    requires LogOver(t, board, h, queue) && IsSyncData(d, Compact(queue))
    ensures AllOrdersRead(t, board, d, Replay(h, queue)) <==> Settled(h, queue)
  {
    SettledExtremes(t, board, h, queue);
    assert FreshPushes(t.Keys, queue);
    hide Compact, Replay, Flushed, Spared, LogOver, Settled, IsSyncData, IsFlushOrder, ApplyAll, IsRead, FreshPushes;
    hide StatusFirst, Sent;
    ExtremeOrders(t, board, queue, d);
    if Settled(h, queue) {
      forall xs | IsFlushOrder(xs, board, d) ensures IsRead(ApplyAll(t, xs), board, Replay(h, queue)) {
        SettledReads(t, board, h, queue, d, xs);
      }
    }
  }

  // Logs that repeat no command on their own edits

  /** The last position at which the log names the id, or -1. */
  function LastNamed(queue: seq<QueueOp>, id: Uuid): (k: int)
    ensures -1 <= k < |queue|
    ensures k >= 0 ==> queue[k].Target() == id
    ensures forall j :: k < j < |queue| ==> queue[j].Target() != id
  {
    if queue == [] then -1
    else if queue[|queue| - 1].Target() == id then |queue| - 1
    else LastNamed(queue[..|queue| - 1], id)
  }

  ghost predicate NamedInOrder(queue: seq<QueueOp>, xs: seq<Edit>) {
    forall i, j :: 0 <= i < j < |xs| ==> LastNamed(queue, xs[i].id) <= LastNamed(queue, xs[j].id)
  }

  lemma {:induction false} KeyStep(p: Pending, op: QueueOp, id: Uuid)
    requires p.current.Keys !! p.undone.Keys
    requires op.Push? ==> op.edit.id !in p.Created() + p.Set()
    requires id !in CompactStep(p, op).Created() * CompactStep(p, op).Set()
    ensures Key(CompactStep(p, op), id) == if id == op.Target() then op.stamp else Key(p, id)
    ensures id != op.Target() ==> id !in p.Created() * p.Set()
  {
    if id != op.Target() {
      StepElsewhere(p, op, id);
      hide CompactStep;
    } else if op.Push? {
    } else if op.Undo? {
    } else {
    }
  }

  /** Without a clash the maps' time of an id is that of the last operation naming it. */
  lemma {:induction false} KeyIsLast(queue: seq<QueueOp>, id: Uuid)
    requires FreshPushes({}, queue) && id !in Compact(queue).Created() * Compact(queue).Set()
    ensures var k := LastNamed(queue, id); Key(Compact(queue), id) == if k < 0 then -1 else queue[k].stamp
  {
    if queue != [] {
      var q, op := queue[..|queue| - 1], queue[|queue| - 1];
      FreshTarget({}, queue);
      CompactDisjoint({}, q);
      KeyStep(Compact(q), op, id);
      if id != op.Target() {
        KeyIsLast(q, id);
      }
    }
  }

  lemma {:induction false} SparedSame(p: Pending)
    requires NoConflict(p)
    ensures Spared(p) == p
  {
    assert p.setCurrent - p.Created() == p.setCurrent && p.setUndone - p.Created() == p.setUndone;
  }

  lemma {:induction false} InOrderIff(queue: seq<QueueOp>, xs: seq<Edit>)
    requires FreshPushes({}, queue) && Increasing(queue) && NoConflict(Compact(queue))
    ensures InOrder(Compact(queue), xs) <==> NamedInOrder(queue, xs)
  {
    forall i, j | 0 <= i < j < |xs|
      ensures Key(Compact(queue), xs[i].id) <= Key(Compact(queue), xs[j].id)
              <==> LastNamed(queue, xs[i].id) <= LastNamed(queue, xs[j].id)
    {
      KeyIsLast(queue, xs[i].id);
      KeyIsLast(queue, xs[j].id);
    }
  }

  /**
   * The same in terms of the log alone. When no command repeats on an edit of the same log, every order of the
   * flush reads back as the replay exactly when, in each list of the replay, the last positions at which the log
   * names the edits do not decrease.
   */
  lemma {:induction false} EffectiveLogTransparentIff(
    t: Table, board: Uuid, h: History, queue: seq<QueueOp>, d: SyncData)
    requires LogOver(t, board, h, queue) && IsSyncData(d, Compact(queue)) && OwnCommandsEffective(queue)
    ensures AllOrdersRead(t, board, d, Replay(h, queue)) <==>
            NamedInOrder(queue, Replay(h, queue).current) && NamedInOrder(queue, Replay(h, queue).undone)
  {
    LogTransparentIff(t, board, h, queue, d);
    FreshWeaken(t.Keys, {}, queue);
    NoConflictIff(queue);
    SparedSame(Compact(queue));
    assert Increasing(queue) && StatusesAgree(Compact(queue));
    hide LogOver, IsSyncData, OwnCommandsEffective, Compact, Replay, InOrder, NamedInOrder, AllOrdersRead, FreshPushes;
    InOrderIff(queue, Replay(h, queue).current);
    InOrderIff(queue, Replay(h, queue).undone);
  }
}
