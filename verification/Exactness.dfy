/** Which guards a flush needs: what still holds without them, and where exactly it stops holding. */
module Exactness {
  import opened Wrappers
  import opened Edits
  import opened Histories
  import opened EditTables
  import opened Batches
  import opened Compaction
  import opened Flushes
  import opened WriteThrough
  import opened Transparency

  // Repeated commands on stored edits: the statuses still agree

  /** The lists hold the ids that the table gives the board, by status. */
  ghost predicate SameStatuses(t: Table, board: Uuid, h: History) {
    && (forall id :: id in Ids(h.current) <==> Holds(t, board, Current, id))
    && (forall id :: id in Ids(h.undone) <==> Holds(t, board, Undone, id))
  }

  lemma {:induction false} ExecuteKeepsStatuses(t: Table, board: Uuid, h: History, op: QueueOp)
    requires Distinct(h) && SameStatuses(t, board, h)
    requires op.Push? ==> op.edit.id !in t
    ensures SameStatuses(Execute(t, board, op), board, Step(h, op))
  {
    hide Move, Ids, NoRepeat;
    match op
    case Push(_, edit) => IdsOfAppend(h.current, edit);
    case Undo(_, id) => MoveIds(h.current, h.undone, id);
    case Redo(_, id) => MoveIds(h.undone, h.current, id);
  }

  lemma {:induction false} ExecuteAllKeepsStatuses(t: Table, board: Uuid, h: History, queue: seq<QueueOp>)
    requires Distinct(h) && SameStatuses(t, board, h) && FreshPushes(t.Keys, queue)
    ensures SameStatuses(ExecuteAll(t, board, queue), board, Replay(h, queue))
  {
    if queue != [] {
      var q, op := queue[..|queue| - 1], queue[|queue| - 1];
      ExecuteAllKeepsStatuses(t, board, h, q);
      FreshWeaken(t.Keys, Ids(h.current) + Ids(h.undone), q);
      ReplayKeepsDistinct(h, q);
      PushIsNew(t, board, queue);
      ExecuteKeepsStatuses(ExecuteAll(t, board, q), board, Replay(h, q), op);
    }
  }

  /**
   * With fresh pushes, and commands on the log's own edits effective, any repeats of commands on stored or
   * unknown edits still leave every id with the status the replay gives it.
   */
  lemma {:induction false} StatusAgreement(
    t: Table, board: Uuid, h: History, queue: seq<QueueOp>, d: SyncData, batches: seq<Batch>)
    requires IsRead(t, board, h) && FreshPushes(t.Keys, queue) && OwnCommandsEffective(queue)
    requires IsSyncData(d, Compact(queue)) && IsFlushOrder(batches, board, d)
    ensures SameStatuses(ApplyAll(t, batches), board, Replay(h, queue))
  {
    ReadDistinct(t, board, h);
    WritesExecute(t, board, queue, d, batches);
    ExecuteAllKeepsStatuses(t, board, h, queue);
  }

  // Repeated commands on edits of the same log: the order of the batches shows

  function CreatedStamp(p: Pending, id: Uuid): nat
    requires id in p.Created()
  {
    if id in p.current then p.current[id].stamp else p.undone[id].stamp
  }

  function SetStamp(p: Pending, id: Uuid): nat
    requires id in p.Set()
  {
    if id in p.setCurrent then p.setCurrent[id].stamp else p.setUndone[id].stamp
  }

  ghost predicate StampsBelow(p: Pending, stamp: nat) {
    && (forall id <- p.Created() :: CreatedStamp(p, id) < stamp)
    && (forall id <- p.Set() :: SetStamp(p, id) < stamp)
  }

  ghost predicate StampsDiffer(p: Pending) {
    forall id <- p.Created() * p.Set() :: CreatedStamp(p, id) != SetStamp(p, id)
  }

  /** One operation restamps at most the id it names, as created or as updated but not both. */
  lemma {:induction false} RestampsOne(p: Pending, op: QueueOp, id: Uuid)
    requires p.current.Keys !! p.undone.Keys
    requires op.Push? ==> op.edit.id !in p.Created() + p.Set()
    ensures var p' := CompactStep(p, op);
            var createdKept := id in p.Created() && id in p'.Created() && CreatedStamp(p', id) == CreatedStamp(p, id);
            var setKept := id in p.Set() && id in p'.Set() && SetStamp(p', id) == SetStamp(p, id);
            && (id in p'.Created() && !createdKept ==>
                  id == op.Target() && CreatedStamp(p', id) == op.stamp && (id in p'.Set() ==> setKept))
            && (id in p'.Set() && !setKept ==>
                  id == op.Target() && SetStamp(p', id) == op.stamp && (id in p'.Created() ==> createdKept))
  {
    if op.Push? {
      assert CompactStep(p, op).setCurrent == p.setCurrent && CompactStep(p, op).setUndone == p.setUndone;
    } else if op.Undo? {
    } else {
    }
  }

  lemma {:induction false} StampsStep(p: Pending, op: QueueOp)
    requires p.current.Keys !! p.undone.Keys
    requires StampsBelow(p, op.stamp) && StampsDiffer(p)
    requires op.Push? ==> op.edit.id !in p.Created() + p.Set()
    ensures StampsDiffer(CompactStep(p, op)) && StampsBelow(CompactStep(p, op), op.stamp + 1)
  {
    var p' := CompactStep(p, op);
    forall id | id in p'.Created() ensures CreatedStamp(p', id) < op.stamp + 1 {
      RestampsOne(p, op, id);
    }
    forall id | id in p'.Set() ensures SetStamp(p', id) < op.stamp + 1 {
      RestampsOne(p, op, id);
    }
    forall id | id in p'.Created() * p'.Set() ensures CreatedStamp(p', id) != SetStamp(p', id) {
      RestampsOne(p, op, id);
    }
  }

  lemma {:induction false} CompactStamps(queue: seq<QueueOp>, stamp: nat)
    requires Increasing(queue) && FreshPushes({}, queue) && forall op <- queue :: op.stamp < stamp
    ensures StampsDiffer(Compact(queue)) && StampsBelow(Compact(queue), stamp)
  {
    if queue != [] {
      var q, op := queue[..|queue| - 1], queue[|queue| - 1];
      CompactStamps(q, op.stamp);
      FreshTarget({}, queue);
      CompactDisjoint({}, q);
      CompactWellKeyed(q);
      StampsStep(Compact(q), op);
      assert op in queue;
    }
  }

  /** A pushed edit that is undone twice and then redone. */
  function UndoneTwice(edit: Edit): seq<QueueOp> {
    [Push(1, edit), Undo(2, edit.id), Undo(3, edit.id), Redo(4, edit.id)]
  }

  lemma {:induction false} UndoneTwicePrefixes(edit: Edit)
    ensures var four := UndoneTwice(edit);
            && four[..0] == [] && four[..1] == four[..0] + [Push(1, edit)]
            && four[..2] == four[..1] + [Undo(2, edit.id)] && four[..3] == four[..2] + [Undo(3, edit.id)]
            && four == four[..3] + [Redo(4, edit.id)]
  {
  }

  lemma {:induction false} UndoneTwiceCompacted(edit: Edit)
    ensures var p := Compact(UndoneTwice(edit));
            p.current == map[edit.id := EditAction(4, edit)] && p.setUndone == map[edit.id := IdAction(3, edit.id)]
  {
    assert Compact([]) == NOTHING;
    hide Compact, UndoneTwice;
    var four, id := UndoneTwice(edit), edit.id;
    UndoneTwicePrefixes(edit);
    CompactAppend(four[..0], Push(1, edit));
    CompactAppend(four[..1], Undo(2, id));
    CompactAppend(four[..2], Undo(3, id));
    CompactAppend(four[..3], Redo(4, id));
  }

  lemma {:induction false} UndoneTwiceReplayed(edit: Edit)
    ensures Replay(EMPTY, UndoneTwice(edit)[..2]) == History([], [edit])
    ensures Replay(EMPTY, UndoneTwice(edit)) == History([edit], [])
  {
    assert Replay(EMPTY, []) == EMPTY;
    hide Replay, UndoneTwice;
    var four, id := UndoneTwice(edit), edit.id;
    UndoneTwicePrefixes(edit);
    MovesOnly(edit);
    ReplayAppend(EMPTY, four[..0], Push(1, edit));
    ReplayAppend(EMPTY, four[..1], Undo(2, id));
    ReplayAppend(EMPTY, four[..2], Undo(3, id));
    ReplayAppend(EMPTY, four[..3], Redo(4, id));
  }

  lemma {:induction false} MovesOnly(edit: Edit)
    ensures Move([edit], [], edit.id) == ([], [edit])
    ensures Move([], [edit], edit.id) == ([], [edit])
  {
    assert LastIndex([edit], edit.id) == 0;
    assert Without([edit], 0) == [] && [] + [edit] == [edit];
  }

  /** The create batch and the status batch that name an id, and where an order has them. */
  datatype Clash = Clash(i: nat, j: nat, k: nat, m: nat)

  ghost predicate IsClash(c: Clash, batches: seq<Batch>, board: Uuid, p: Pending, d: SyncData, id: Uuid) {
    && c.i < 2 <= c.j < 4 && id in KeysOf(p, c.i) && id in KeysOf(p, c.j)
    && c.k < |batches| && batches[c.k] == Four(board, d)[c.i]
    && c.m < |batches| && batches[c.m] == Four(board, d)[c.j]
  }

  lemma {:induction false} ClashOf(
    batches: seq<Batch>, board: Uuid, p: Pending, d: SyncData, id: Uuid)
    returns (c: Clash)
    requires WellKeyed(p) && IsSyncData(d, p) && IsFlushOrder(batches, board, d)
    requires id in p.Created() * p.Set()
    ensures IsClash(c, batches, board, p, d, id)
  {
    KeysOfAll(p);
    var i := if id in p.current then 0 else 1;
    var j := if id in p.setCurrent then 2 else 3;
    var k := PositionOf(batches, board, p, d, i, id);
    var m := PositionOf(batches, board, p, d, j, id);
    c := Clash(i, j, k, m);
  }

  lemma {:induction false} ClashAlone(
    c: Clash, batches: seq<Batch>, board: Uuid, p: Pending, d: SyncData, id: Uuid, x: nat)
    requires WellKeyed(p) && p.current.Keys !! p.undone.Keys
    requires IsSyncData(d, p) && IsFlushOrder(batches, board, d) && IsClash(c, batches, board, p, d, id)
    requires x < |batches|
    ensures !batches[x].Delete? && NoRepeatInBatch(batches[x])
    ensures id in Touched(batches[x]) ==> x == c.k || x == c.m
  {
    hide IsSyncData, IsFlushOrder;
    NamedBy(batches, board, p, d, x, id);
    if id in Touched(batches[x]) {
      var n :| 0 <= n < 4 && id in KeysOf(p, n) && batches[x] == Four(board, d)[n];
      assert n == c.i || n == c.j by {
        KeysOfAll(p);
      }
      OrderFacts(batches, board, d);
    }
  }

  /** What the two batches of a clash do to the id, one after the other. */
  lemma {:induction false} ClashRow(
    t: Table, c: Clash, batches: seq<Batch>, board: Uuid, p: Pending, d: SyncData, id: Uuid)
    requires WellKeyed(p) && p.current.Keys !! p.undone.Keys
    requires IsSyncData(d, p) && IsClash(c, batches, board, p, d, id)
    ensures HasRow(ApplyBatch(ApplyBatch(t, batches[c.k]), batches[c.m]), id, FinalRow(t, board, p, id))
    ensures HasRow(ApplyBatch(ApplyBatch(t, batches[c.m]), batches[c.k]), id, CreatedRow(t, board, p, id))
  {
    assert p.setCurrent.Keys !! p.setUndone.Keys;
    hide WellKeyed, IsSyncData, ApplyBatch, Four;
    KeysOfAll(p);
    FourCreates(t, board, p, d, c.i, id);
    FourSets(ApplyBatch(t, batches[c.k]), board, p, d, c.j, id);
    FourCreates(ApplyBatch(t, batches[c.m]), board, p, d, c.i, id);
  }

  /** An id that is created and updated ends as created when its create batch is the later one. */
  lemma {:induction false} ConflictRow(
    t: Table, c: Clash, batches: seq<Batch>, board: Uuid, p: Pending, d: SyncData, id: Uuid)
    requires WellKeyed(p) && p.current.Keys !! p.undone.Keys
    requires IsSyncData(d, p) && IsFlushOrder(batches, board, d) && IsClash(c, batches, board, p, d, id)
    ensures var row := if c.k < c.m then FinalRow(t, board, p, id) else CreatedRow(t, board, p, id);
            HasRow(ApplyAll(t, batches), id, row)
  {
    hide WellKeyed, IsSyncData, IsFlushOrder, FinalRow, CreatedRow;
    forall x | 0 <= x < |batches|
      ensures !batches[x].Delete? && NoRepeatInBatch(batches[x])
      ensures x != c.k && x != c.m ==> id !in Touched(batches[x])
    {
      ClashAlone(c, batches, board, p, d, id, x);
    }
    ClashRow(t, c, batches, board, p, d, id);
    if c.k < c.m {
      TwoTouchers(t, batches, c.k, c.m, id);
    } else {
      TwoTouchers(t, batches, c.m, c.k, id);
    }
  }

  /** The order that writes the status batches before the create batches. */
  function StatusFirst(board: Uuid, d: SyncData): seq<Batch> {
    var four := Four(board, d);
    (IfAny(four[2]) + IfAny(four[3])) + (IfAny(four[0]) + IfAny(four[1]))
  }

  lemma {:induction false} TwoOrders(board: Uuid, d: SyncData)
    ensures IsFlushOrder(Sent(board, d), board, d) && IsFlushOrder(StatusFirst(board, d), board, d)
  {
    var four := Four(board, d);
    var create: seq<Batch> := IfAny(four[0]) + IfAny(four[1]);
    var update: seq<Batch> := IfAny(four[2]) + IfAny(four[3]);
    assert Sent(board, d) == create + update;
    assert multiset(create + update) == multiset(update + create);
  }

  lemma {:induction false} CreatesFirst(c: Clash, board: Uuid, p: Pending, d: SyncData, id: Uuid)
    requires IsClash(c, Sent(board, d), board, p, d, id)
    ensures c.k < c.m
  {
    var four := Four(board, d);
    var create: seq<Batch> := IfAny(four[0]) + IfAny(four[1]);
    var update: seq<Batch> := IfAny(four[2]) + IfAny(four[3]);
    assert Sent(board, d) == create + update;
    assert forall x: nat :: x < |create + update| ==> (x < |create| <==> (create + update)[x].Create?);
  }

  lemma {:induction false} StatusesFirst(c: Clash, board: Uuid, p: Pending, d: SyncData, id: Uuid)
    requires IsClash(c, StatusFirst(board, d), board, p, d, id)
    ensures c.m < c.k
  {
    var four := Four(board, d);
    var create: seq<Batch> := IfAny(four[0]) + IfAny(four[1]);
    var update: seq<Batch> := IfAny(four[2]) + IfAny(four[3]);
    assert forall x: nat :: x < |update + create| ==> (x >= |update| <==> (update + create)[x].Create?);
  }

  lemma {:induction false} ConflictRowSent(t: Table, board: Uuid, p: Pending, d: SyncData, id: Uuid)
    requires WellKeyed(p) && p.current.Keys !! p.undone.Keys && IsSyncData(d, p)
    requires id in p.Created() * p.Set()
    ensures HasRow(ApplyAll(t, Sent(board, d)), id, FinalRow(t, board, p, id))
  {
    var c := ClashOf(Sent(board, d), board, p, d, id);
    CreatesFirst(c, board, p, d, id);
    ConflictRow(t, c, Sent(board, d), board, p, d, id);
  }

  lemma {:induction false} ConflictRowStatusFirst(t: Table, board: Uuid, p: Pending, d: SyncData, id: Uuid)
    requires WellKeyed(p) && p.current.Keys !! p.undone.Keys && IsSyncData(d, p)
    requires id in p.Created() * p.Set()
    ensures HasRow(ApplyAll(t, StatusFirst(board, d)), id, CreatedRow(t, board, p, id))
  {
    TwoOrders(board, d);
    var c := ClashOf(StatusFirst(board, d), board, p, d, id);
    StatusesFirst(c, board, p, d, id);
    ConflictRow(t, c, StatusFirst(board, d), board, p, d, id);
  }

  lemma {:induction false} ClashStamps(t: Table, board: Uuid, p: Pending, id: Uuid)
    requires id in p.Created() * p.Set()
    ensures var created, final := CreatedRow(t, board, p, id), FinalRow(t, board, p, id);
            && created.Some? && created.value.stamp == CreatedStamp(p, id)
            && final.Some? && final.value.stamp == SetStamp(p, id)
  {
  }

  lemma {:induction false} DifferAt(t: Table, t': Table, id: Uuid, row: Option<Row>, row': Option<Row>)
    requires HasRow(t, id, row) && HasRow(t', id, row') && row != row'
    ensures t != t'
  {
  }

  /** A conflict gives two orders that end in different tables. */
  lemma {:induction false} ConflictShows(t: Table, board: Uuid, p: Pending, d: SyncData, id: Uuid)
    requires WellKeyed(p) && p.current.Keys !! p.undone.Keys && IsSyncData(d, p)
    requires id in p.Created() * p.Set() && CreatedStamp(p, id) != SetStamp(p, id)
    ensures ApplyAll(t, Sent(board, d)) != ApplyAll(t, StatusFirst(board, d))
  {
    ConflictRowSent(t, board, p, d, id);
    ConflictRowStatusFirst(t, board, p, d, id);
    ClashStamps(t, board, p, id);
    DifferAt(ApplyAll(t, Sent(board, d)), ApplyAll(t, StatusFirst(board, d)), id,
             FinalRow(t, board, p, id), CreatedRow(t, board, p, id));
  }

  /**
   * Such a log on its own edit. The edit is both created as current and set undone, so the guard is needed: when
   * the creates are written first it reads back as undone, although the replay just has it current.
   */
  lemma {:induction false} UndoneTwiceConflicts(edit: Edit, board: Uuid, d: SyncData)
    requires IsSyncData(d, Compact(UndoneTwice(edit)))
    ensures var p := Compact(UndoneTwice(edit));
            && p.current == map[edit.id := EditAction(4, edit)] && p.setUndone == map[edit.id := IdAction(3, edit.id)]
            && Replay(EMPTY, UndoneTwice(edit)) == History([edit], [])
            && !OwnCommandsEffective(UndoneTwice(edit))
    ensures IsFlushOrder(Sent(board, d), board, d)
    ensures !IsRead(ApplyAll(map[], Sent(board, d)), board, Replay(EMPTY, UndoneTwice(edit)))
  {
    var four := UndoneTwice(edit);
    UndoneTwiceCompacted(edit);
    UndoneTwiceReplayed(edit);
    UndoneTwiceIneffective(edit);
    CompactWellKeyed(four);
    UndoneTwiceApart(edit);
    TwoOrders(board, d);
    UndoneTwiceRow(edit, board, Compact(four));
    hide Compact, Replay, UndoneTwice, Sent, ApplyAll, IsSyncData, FinalRow;
    ConflictRowSent(map[], board, Compact(four), d, edit.id);
    assert edit in History([edit], []).current;
    assert !Holds(ApplyAll(map[], Sent(board, d)), board, Current, edit.id);
  }

  lemma {:induction false} UndoneTwiceRow(edit: Edit, board: Uuid, p: Pending)
    requires p.current == map[edit.id := EditAction(4, edit)] && p.setUndone == map[edit.id := IdAction(3, edit.id)]
    requires p.setCurrent.Keys !! p.setUndone.Keys
    ensures FinalRow(map[], board, p, edit.id) == Some(Row(board, Undone, 3, edit))
  {
    assert edit.id in p.setUndone;
  }

  lemma {:induction false} UndoneTwiceApart(edit: Edit)
    ensures Compact(UndoneTwice(edit)).current.Keys !! Compact(UndoneTwice(edit)).undone.Keys
  {
    assert FreshPushes({}, UndoneTwice(edit));
    CompactDisjoint({}, UndoneTwice(edit));
  }

  lemma {:induction false} UndoneTwiceIneffective(edit: Edit)
    ensures !OwnCommandsEffective(UndoneTwice(edit))
  {
    var four := UndoneTwice(edit);
    UndoneTwiceReplayed(edit);
    UndoneTwicePrefixes(edit);
    hide Compact, Replay;
    assert edit in History([], [edit]).undone;
    assert edit.id in Ids(Replay(EMPTY, four[..2]).undone);
    assert !AllAdmissible(EMPTY, four[..3]) by {
      assert four[..3][..2] == four[..2];
    }
  }

  /** All orders of the flush end in the same table. */
  ghost predicate OrderIrrelevant(t: Table, board: Uuid, d: SyncData) {
    forall xs, ys :: IsFlushOrder(xs, board, d) && IsFlushOrder(ys, board, d) ==> ApplyAll(t, xs) == ApplyAll(t, ys)
  }

  lemma {:induction false} EffectiveIrrelevant(t: Table, board: Uuid, queue: seq<QueueOp>, d: SyncData)
    requires FreshPushes(t.Keys, queue) && IsSyncData(d, Compact(queue)) && OwnCommandsEffective(queue)
    ensures OrderIrrelevant(t, board, d)
  {
    forall xs, ys | IsFlushOrder(xs, board, d) && IsFlushOrder(ys, board, d)
      ensures ApplyAll(t, xs) == ApplyAll(t, ys)
    {
      WritesExecute(t, board, queue, d, xs);
      WritesExecute(t, board, queue, d, ys);
    }
  }

  lemma {:induction false} ClashExists(queue: seq<QueueOp>) returns (id: Uuid)
    requires FreshPushes({}, queue) && Increasing(queue) && !OwnCommandsEffective(queue)
    ensures var p := Compact(queue);
            id in p.Created() * p.Set() && CreatedStamp(p, id) != SetStamp(p, id)
  {
    NoConflictIff(queue);
    CompactStamps(queue, queue[|queue| - 1].stamp + 1);
    var p := Compact(queue);
    assert p.Created() * p.Set() != {};
    id :| id in p.Created() * p.Set();
  }

  lemma {:induction false} IneffectiveRelevant(t: Table, board: Uuid, queue: seq<QueueOp>, d: SyncData)
    requires FreshPushes(t.Keys, queue) && Increasing(queue) && IsSyncData(d, Compact(queue))
    requires !OwnCommandsEffective(queue)
    ensures !OrderIrrelevant(t, board, d)
  {
    FreshWeaken(t.Keys, {}, queue);
    var id := ClashExists(queue);
    CompactDisjoint({}, queue);
    CompactWellKeyed(queue);
    ConflictShows(t, board, Compact(queue), d, id);
    TwoOrders(board, d);
  }

  /**
   * Batch order. The concurrent sends permit every order of the batches. For fresh pushes and increasing
   * times, all of them end in the same table exactly when no command of the log repeats on an edit the log
   * pushed itself.
   */
  lemma {:induction false} BatchOrderIrrelevantIff(t: Table, board: Uuid, queue: seq<QueueOp>, d: SyncData)
    requires FreshPushes(t.Keys, queue) && Increasing(queue) && IsSyncData(d, Compact(queue))
    ensures OrderIrrelevant(t, board, d) <==> OwnCommandsEffective(queue)
  {
    if OwnCommandsEffective(queue) {
      EffectiveIrrelevant(t, board, queue, d);
    } else {
      IneffectiveRelevant(t, board, queue, d);
    }
  }

  // One more command: exactly when it is invisible

  /** The command names the edit that is already last in the list it would move it to. */
  predicate NamesLast(h: History, op: QueueOp) {
    match op
    case Push(_, _) => false
    case Undo(_, id) => h.undone != [] && h.undone[|h.undone| - 1].id == id
    case Redo(_, id) => h.current != [] && h.current[|h.current| - 1].id == id
  }

  /** Restamping a row of a listing keeps the listing exactly when the row is its last. */
  lemma {:induction false} RestampIff(t: Table, board: Uuid, status: Status, xs: seq<Edit>, stamp: nat, id: Uuid)
    requires KeysMatch(t) && IsListing(t, board, status, xs) && OlderThan(t, board, stamp) && id in Ids(xs)
    ensures IsListing(SetRow(t, status, stamp, id), board, status, xs) <==> xs[|xs| - 1].id == id
  {
    var t' := SetRow(t, status, stamp, id);
    ListingNoRepeat(t, board, status, xs);
    var i := LastIndex(xs, id);
    assert Holds(t, board, status, id);
    assert forall x :: Holds(t', board, status, x) <==> Holds(t, board, status, x);
    if i == |xs| - 1 {
      assert forall j :: 0 <= j < i ==> t'[xs[j].id] == t[xs[j].id];
    } else {
      assert t'[xs[i].id].stamp == stamp && t'[xs[|xs| - 1].id] == t[xs[|xs| - 1].id];
      assert t[xs[|xs| - 1].id].stamp < stamp;
    }
  }

  lemma {:induction false} RestampOther(
    t: Table, board: Uuid, status: Status, other: Status, xs: seq<Edit>, stamp: nat, id: Uuid)
    requires IsListing(t, board, other, xs) && Holds(t, board, status, id) && status != other
    ensures IsListing(SetRow(t, status, stamp, id), board, other, xs)
  {
    assert id !in Ids(xs);
    ListingSkip(t, board, other, xs, id, t[id].(status := status, stamp := stamp));
  }

  /** A command with nothing to do leaves the replay alone, and the table's read exactly when it names the last edit. */
  lemma {:induction false} IdleCommand(t: Table, board: Uuid, h: History, op: QueueOp)
    requires KeysMatch(t) && IsRead(t, board, h) && OlderThan(t, board, op.stamp)
    requires !Admissible(h, op)
    ensures Step(h, op) == h
    ensures IsRead(Execute(t, board, op), board, h) <==> NamesLast(h, op)
  {
    ReadDistinct(t, board, h);
    if op.Undo? {
      RestampIff(t, board, Undone, h.undone, op.stamp, op.id);
      RestampOther(t, board, Undone, Current, h.current, op.stamp, op.id);
    } else {
      RestampIff(t, board, Current, h.current, op.stamp, op.id);
      RestampOther(t, board, Current, Undone, h.undone, op.stamp, op.id);
    }
  }

  /** The log without its last operation was free of conflict, so the last one can only add its own id to one. */
  lemma {:induction false} LastConflict(t: Table, board: Uuid, queue: seq<QueueOp>, op: QueueOp, id: Uuid)
    requires !op.Push? && FreshPushes(t.Keys, queue) && OwnCommandsEffective(queue)
    requires id in Compact(queue + [op]).Created() * Compact(queue + [op]).Set()
    ensures id == op.id
    ensures HasRow(ExecuteAll(t, board, queue), id, CreatedRow(t, board, Compact(queue + [op]), id))
  {
    hide Flushed, ExecuteAll, Compact, WellKeyed, CompactStep, FinalRow, CreatedRow, HasRow;
    var p := Compact(queue);
    CompactAppend(queue, op);
    FreshWeaken(t.Keys, {}, queue);
    NoConflictIff(queue);
    FlushExecutes(t, board, queue);
    FlushedHas(t, board, p, id);
    StepConflict(t, board, p, op, id);
  }

  /** A command without conflict before it can only make its own id conflict, by not moving what was created. */
  lemma {:induction false} StepConflict(t: Table, board: Uuid, p: Pending, op: QueueOp, id: Uuid)
    requires !op.Push? && NoConflict(p)
    requires id in CompactStep(p, op).Created() * CompactStep(p, op).Set()
    ensures id == op.id && CreatedRow(t, board, CompactStep(p, op), id) == FinalRow(t, board, p, id)
  {
    StepKeys(p, op);
    assert CompactStep(p, op).current == p.current && CompactStep(p, op).undone == p.undone;
  }

  lemma {:induction false} FreshAppend(known: set<Uuid>, queue: seq<QueueOp>, op: QueueOp)
    requires FreshPushes(known, queue) && !op.Push?
    ensures FreshPushes(known, queue + [op])
  {
  }

  lemma {:induction false} LastCommandElsewhere(
    t: Table, board: Uuid, queue: seq<QueueOp>, op: QueueOp, d: SyncData, batches: seq<Batch>, id: Uuid)
    requires !op.Push? && FreshPushes(t.Keys, queue) && OwnCommandsEffective(queue) && id != op.id
    requires IsSyncData(d, Compact(queue + [op])) && IsFlushOrder(batches, board, d)
    ensures SameAt(ApplyAll(t, batches), ExecuteAll(t, board, queue), id)
  {
    var p := Compact(queue + [op]);
    LastCommandFacts(t, board, queue, op);
    assert id !in p.Created() * p.Set() by {
      if id in p.Created() * p.Set() {
        LastConflict(t, board, queue, op, id);
      }
    }
    OrderHas(t, batches, board, p, d, id);
    FlushedHas(t, board, p, id);
    ExecuteElsewhere(ExecuteAll(t, board, queue), board, op, id);
  }

  lemma {:induction false} ExecuteElsewhere(t: Table, board: Uuid, op: QueueOp, id: Uuid)
    requires id != op.Target()
    ensures SameAt(Execute(t, board, op), t, id)
  {
  }

  lemma {:induction false} LastCommandHere(
    t: Table, board: Uuid, queue: seq<QueueOp>, op: QueueOp, d: SyncData, batches: seq<Batch>)
    requires !op.Push? && FreshPushes(t.Keys, queue) && OwnCommandsEffective(queue)
    requires IsSyncData(d, Compact(queue + [op])) && IsFlushOrder(batches, board, d)
    ensures var before := ExecuteAll(t, board, queue);
            || SameAt(ApplyAll(t, batches), Execute(before, board, op), op.id)
            || (batches != Sent(board, d) && SameAt(ApplyAll(t, batches), before, op.id))
  {
    hide FinalRow, CreatedRow, Flushed, ExecuteAll, Execute, Compact, WellKeyed, OwnCommandsEffective;
    hide IsSyncData, IsFlushOrder, FreshPushes, Sent, ApplyAll;
    var p, id := Compact(queue + [op]), op.id;
    LastCommandFacts(t, board, queue, op);
    FlushedHas(t, board, p, id);
    if id in p.Created() * p.Set() {
      LastConflict(t, board, queue, op, id);
      if batches == Sent(board, d) {
        ConflictRowSent(t, board, p, d, id);
      } else {
        var c := ClashOf(batches, board, p, d, id);
        ConflictRow(t, c, batches, board, p, d, id);
      }
    } else {
      OrderHas(t, batches, board, p, d, id);
    }
  }

  /** With one unguarded last command, an order ends in the executed table or in the table before that command. */
  lemma {:induction false} LastCommandTables(
    t: Table, board: Uuid, queue: seq<QueueOp>, op: QueueOp, d: SyncData, batches: seq<Batch>)
    requires !op.Push? && FreshPushes(t.Keys, queue) && OwnCommandsEffective(queue)
    requires IsSyncData(d, Compact(queue + [op])) && IsFlushOrder(batches, board, d)
    ensures var before := ExecuteAll(t, board, queue);
            || ApplyAll(t, batches) == Execute(before, board, op)
            || (batches != Sent(board, d) && ApplyAll(t, batches) == before)
  {
    hide IsSyncData, IsFlushOrder, OwnCommandsEffective, Compact, ExecuteAll;
    var before, final := ExecuteAll(t, board, queue), ApplyAll(t, batches);
    var after := Execute(before, board, op);
    LastCommandHere(t, board, queue, op, d, batches);
    forall id | id != op.id ensures SameAt(final, after, id) && SameAt(final, before, id) {
      LastCommandElsewhere(t, board, queue, op, d, batches, id);
    }
    if SameAt(final, after, op.id) {
      SameEverywhere(final, after);
    } else {
      SameEverywhere(final, before);
    }
  }

  lemma {:induction false} LastCommandFacts(t: Table, board: Uuid, queue: seq<QueueOp>, op: QueueOp)
    requires !op.Push? && FreshPushes(t.Keys, queue) && OwnCommandsEffective(queue)
    ensures var p := Compact(queue + [op]);
            && WellKeyed(p) && p.current.Keys !! p.undone.Keys
            && Flushed(t, board, p) == Execute(ExecuteAll(t, board, queue), board, op)
  {
    FreshAppend(t.Keys, queue, op);
    CompactWellKeyed(queue + [op]);
    CompactDisjoint(t.Keys, queue + [op]);
    assert (queue + [op])[..|queue|] == queue;
    FlushExecutes(t, board, queue + [op]);
  }

  /**
   * One unguarded command. After a guarded log, one more command leaves every order of the flush invisible exactly
   * when it has something to do, names an edit in neither list, or names the edit that is already last where it
   * would go. As a guard on every command this is not enough: see `UndoneTwiceConflicts`.
   */
  lemma {:induction false} CommandTransparentIff(
    t: Table, board: Uuid, h: History, queue: seq<QueueOp>, op: QueueOp, d: SyncData)
    requires Readable(t, board) && IsRead(t, board, h) && GuardedLog(t, board, h, queue)
    requires !op.Push? && Timely(t, board, queue + [op])
    requires IsSyncData(d, Compact(queue + [op]))
    ensures (forall xs :: IsFlushOrder(xs, board, d) ==> IsRead(ApplyAll(t, xs), board, Replay(h, queue + [op])))
            <==> Admissible(Replay(h, queue), op) || NamesLast(Replay(h, queue), op)
  {
    if Admissible(Replay(h, queue), op) {
      FreshAppend(t.Keys, queue, op);
      AllAdmissibleAppend(h, queue, op);
      forall xs | IsFlushOrder(xs, board, d) ensures IsRead(ApplyAll(t, xs), board, Replay(h, queue + [op])) {
        FlushTransparent(t, board, h, queue + [op], d, xs, Replay(h, queue + [op]));
      }
    } else {
      IdleCommandShows(t, board, h, queue, op, d);
    }
  }

  lemma {:induction false} IdleCommandShows(
    t: Table, board: Uuid, h: History, queue: seq<QueueOp>, op: QueueOp, d: SyncData)
    requires Readable(t, board) && IsRead(t, board, h) && GuardedLog(t, board, h, queue)
    requires !op.Push? && Timely(t, board, queue + [op]) && !Admissible(Replay(h, queue), op)
    requires IsSyncData(d, Compact(queue + [op]))
    ensures (forall xs :: IsFlushOrder(xs, board, d) ==> IsRead(ApplyAll(t, xs), board, Replay(h, queue + [op])))
            <==> NamesLast(Replay(h, queue), op)
  {
    var before, now := ExecuteAll(t, board, queue), Replay(h, queue);
    ReplayAppend(h, queue, op);
    GuardedOwn(t, board, h, queue);
    BeforeLast(t, board, h, queue, op);
    IdleCommand(before, board, now, op);
    if NamesLast(now, op) {
      forall xs | IsFlushOrder(xs, board, d) ensures IsRead(ApplyAll(t, xs), board, now) {
        LastCommandTables(t, board, queue, op, d, xs);
      }
    } else {
      TwoOrders(board, d);
      LastCommandTables(t, board, queue, op, d, Sent(board, d));
    }
  }

  lemma {:induction false} BeforeLast(t: Table, board: Uuid, h: History, queue: seq<QueueOp>, op: QueueOp)
    requires Readable(t, board) && IsRead(t, board, h) && GuardedLog(t, board, h, queue)
    requires Timely(t, board, queue + [op])
    ensures var before := ExecuteAll(t, board, queue);
            Readable(before, board) && OlderThan(before, board, op.stamp) && IsRead(before, board, Replay(h, queue))
  {
    assert forall k :: 0 <= k < |queue| ==> (queue + [op])[k] == queue[k];
    assert (queue + [op])[|queue|] == op;
    ExecuteAllStamps(t, board, queue, op.stamp);
    ExecuteAllKeepsRead(t, board, h, queue);
  }
}
