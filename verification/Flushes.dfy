/** Flushing a log: writing its four batches in any order, compared with executing the log on the table. */
module Flushes {
  import opened Wrappers
  import opened Edits
  import opened EditTables
  import opened Batches
  import opened Compaction

  // The batches of one flush

  function Four(board: Uuid, d: SyncData): seq<Batch> {
    [Create(board, Current, d.currentCreate),
     Create(board, Undone, d.undoneCreate),
     SetStatus(Current, d.setStatusCurrent),
     SetStatus(Undone, d.setStatusUndone)]
  }

  predicate IsEmptyBatch(batch: Batch) {
    match batch
    case Create(_, _, items) => items == []
    case SetStatus(_, updates) => updates == []
    case Delete(_, _) => false
  }

  function IfAny(batch: Batch): seq<Batch> {
    if IsEmptyBatch(batch) then [] else [batch]
  }

  /** The batches that are sent: the empty ones are not. */
  function Sent(board: Uuid, d: SyncData): seq<Batch> {
    var four := Four(board, d);
    IfAny(four[0]) + IfAny(four[1]) + IfAny(four[2]) + IfAny(four[3])
  }

  /** An order in which the channels may deliver the batches of a flush. */
  ghost predicate IsFlushOrder(batches: seq<Batch>, board: Uuid, d: SyncData) {
    multiset(batches) == multiset(Sent(board, d))
  }

  lemma {:induction false} TwiceCounts(batches: seq<Batch>, i: nat, j: nat)
    requires i < j < |batches| && batches[i] == batches[j]
    ensures multiset(batches)[batches[i]] >= 2
  {
    assert batches == batches[..j] + batches[j..];
    assert batches[..j][i] in multiset(batches[..j]) && batches[j..][0] in multiset(batches[j..]);
  }

  lemma {:induction false} IfAnyCount(batch: Batch, x: Batch)
    ensures multiset(IfAny(batch))[x] == if x == batch && !IsEmptyBatch(batch) then 1 else 0
  {
  }

  lemma {:induction false} ConcatCount(xs: seq<Batch>, ys: seq<Batch>, x: Batch)
    ensures multiset(xs + ys)[x] == multiset(xs)[x] + multiset(ys)[x]
  {
    assert multiset(xs + ys) == multiset(xs) + multiset(ys);
  }

  /** A batch is sent once when it is a non-empty one of the four, and not at all otherwise. */
  lemma {:induction false} SentCount(board: Uuid, d: SyncData, x: Batch)
    ensures multiset(Sent(board, d))[x] == if x in Four(board, d) && !IsEmptyBatch(x) then 1 else 0
  {
    hide IfAny, IsEmptyBatch;
    var four := Four(board, d);
    var a, b, c, e := IfAny(four[0]), IfAny(four[1]), IfAny(four[2]), IfAny(four[3]);
    IfAnyCount(four[0], x);
    IfAnyCount(four[1], x);
    IfAnyCount(four[2], x);
    IfAnyCount(four[3], x);
    ConcatCount(a, b, x);
    ConcatCount(a + b, c, x);
    ConcatCount(a + b + c, e, x);
  }

  lemma {:induction false} OrderFacts(batches: seq<Batch>, board: Uuid, d: SyncData)
    requires IsFlushOrder(batches, board, d)
    ensures forall batch :: batch in batches <==> batch in Four(board, d) && !IsEmptyBatch(batch)
    ensures forall i, j :: 0 <= i < j < |batches| ==> batches[i] != batches[j]
  {
    forall batch ensures batch in batches <==> batch in Four(board, d) && !IsEmptyBatch(batch) {
      SentCount(board, d, batch);
      assert batch in batches <==> batch in multiset(batches);
    }
    forall i, j | 0 <= i < j < |batches| ensures batches[i] != batches[j] {
      if batches[i] == batches[j] {
        TwiceCounts(batches, i, j);
        SentCount(board, d, batches[i]);
      }
    }
  }

  // What a flush leaves in the table

  /** An id's row after the create batches. */
  function CreatedRow(t: Table, board: Uuid, p: Pending, id: Uuid): Option<Row> {
    if id in p.current then Some(Row(board, Current, p.current[id].stamp, p.current[id].edit))
    else if id in p.undone then Some(Row(board, Undone, p.undone[id].stamp, p.undone[id].edit))
    else if id in t then Some(t[id])
    else None
  }

  /** An id's row after the create batches and then the status batches. */
  function FinalRow(t: Table, board: Uuid, p: Pending, id: Uuid): Option<Row> {
    match CreatedRow(t, board, p, id)
    case None => None
    case Some(row) =>
      Some(if id in p.setCurrent then row.(status := Current, stamp := p.setCurrent[id].stamp)
           else if id in p.setUndone then row.(status := Undone, stamp := p.setUndone[id].stamp)
           else row)
  }

  function Flushed(t: Table, board: Uuid, p: Pending): Table {
    map id <- t.Keys + p.Created() :: FinalRow(t, board, p, id).value
  }

  ghost function RowAt(t: Table, id: Uuid): Option<Row> {
    if id in t then Some(t[id]) else None
  }

  /** The table has exactly this row, or none, at an id. */
  ghost predicate HasRow(t: Table, id: Uuid, row: Option<Row>) {
    RowAt(t, id) == row
  }

  lemma {:induction false} FlushedHas(t: Table, board: Uuid, p: Pending, id: Uuid)
    ensures HasRow(Flushed(t, board, p), id, FinalRow(t, board, p, id))
  {
  }

  /** No id is both created and updated by the flush. */
  ghost predicate NoConflict(p: Pending) {
    p.Created() !! p.Set()
  }

  /** The keys of the map behind `Four(..)[i]`. */
  function KeysOf(p: Pending, i: nat): set<Uuid>
    requires i < 4
  {
    if i == 0 then p.current.Keys else if i == 1 then p.undone.Keys
    else if i == 2 then p.setCurrent.Keys else p.setUndone.Keys
  }

  lemma {:induction false} ListedEdits(xs: seq<EditAction>, m: map<Uuid, EditAction>)
    requires ListsEdits(xs, m) && forall id <- m.Keys :: m[id].edit.id == id
    ensures (set x <- xs :: x.edit.id) == m.Keys
  {
    forall id | id in m.Keys ensures id in set x <- xs :: x.edit.id {
      assert m[id] in xs;
    }
  }

  lemma {:induction false} ListedIds(xs: seq<IdAction>, m: map<Uuid, IdAction>)
    requires ListsIds(xs, m) && forall id <- m.Keys :: m[id].id == id
    ensures (set x <- xs :: x.id) == m.Keys
  {
    forall id | id in m.Keys ensures id in set x <- xs :: x.id {
      assert m[id] in xs;
    }
  }

  lemma {:induction false} CreateTouch(board: Uuid, status: Status, xs: seq<EditAction>, m: map<Uuid, EditAction>)
    requires ListsEdits(xs, m) && forall id <- m.Keys :: m[id].edit.id == id
    ensures NoRepeatInBatch(Create(board, status, xs)) && Touched(Create(board, status, xs)) == m.Keys
  {
    ListedEdits(xs, m);
  }

  lemma {:induction false} SetTouch(status: Status, xs: seq<IdAction>, m: map<Uuid, IdAction>)
    requires ListsIds(xs, m) && forall id <- m.Keys :: m[id].id == id
    ensures NoRepeatInBatch(SetStatus(status, xs)) && Touched(SetStatus(status, xs)) == m.Keys
  {
    ListedIds(xs, m);
  }

  lemma {:induction false} FourTouch(board: Uuid, p: Pending, d: SyncData)
    requires WellKeyed(p) && IsSyncData(d, p)
    ensures forall i :: 0 <= i < 4 ==>
              && !Four(board, d)[i].Delete?
              && NoRepeatInBatch(Four(board, d)[i])
              && Touched(Four(board, d)[i]) == KeysOf(p, i)
  {
    hide NoRepeatInBatch, Touched, ListsEdits, ListsIds;
    CreateTouch(board, Current, d.currentCreate, p.current);
    CreateTouch(board, Undone, d.undoneCreate, p.undone);
    SetTouch(Current, d.setStatusCurrent, p.setCurrent);
    SetTouch(Undone, d.setStatusUndone, p.setUndone);
    hide WellKeyed, IsSyncData;
  }

  /** What the create batch behind `Four(..)[i]` does to an id it names. */
  lemma {:induction false} FourCreates(t: Table, board: Uuid, p: Pending, d: SyncData, i: nat, id: Uuid)
    requires WellKeyed(p) && IsSyncData(d, p) && i < 2 && id in KeysOf(p, i)
    ensures var t' := ApplyBatch(t, Four(board, d)[i]);
            id in t' && t'[id] == if i == 0 then Row(board, Current, p.current[id].stamp, p.current[id].edit)
                                  else Row(board, Undone, p.undone[id].stamp, p.undone[id].edit)
  {
    if i == 0 {
      CreatesListed(t, board, Current, d.currentCreate, p.current, id);
    } else {
      CreatesListed(t, board, Undone, d.undoneCreate, p.undone, id);
    }
  }

  lemma {:induction false} CreatesListed(
    t: Table, board: Uuid, status: Status, items: seq<EditAction>, m: map<Uuid, EditAction>, id: Uuid)
    requires ListsEdits(items, m) && id in m && m[id].edit.id == id
    ensures var t' := CreateRows(t, board, status, items);
            id in t' && t'[id] == Row(board, status, m[id].stamp, m[id].edit)
  {
    assert m[id] in items;
    var k :| 0 <= k < |items| && items[k] == m[id];
    CreateAt(t, board, status, items, k);
  }

  /** What the status batch behind `Four(..)[i]` does to an id it names. */
  lemma {:induction false} FourSets(t: Table, board: Uuid, p: Pending, d: SyncData, i: nat, id: Uuid)
    requires WellKeyed(p) && IsSyncData(d, p) && 2 <= i < 4 && id in KeysOf(p, i)
    ensures SameAt(ApplyBatch(t, Four(board, d)[i]),
                   if i == 2 then SetRow(t, Current, p.setCurrent[id].stamp, id)
                   else SetRow(t, Undone, p.setUndone[id].stamp, id), id)
  {
    if i == 2 {
      SetsListed(t, Current, d.setStatusCurrent, p.setCurrent, id);
    } else {
      SetsListed(t, Undone, d.setStatusUndone, p.setUndone, id);
    }
  }

  lemma {:induction false} SetsListed(
    t: Table, status: Status, updates: seq<IdAction>, m: map<Uuid, IdAction>, id: Uuid)
    requires ListsIds(updates, m) && id in m && m[id].id == id
    ensures SameAt(SetRows(t, status, updates), SetRow(t, status, m[id].stamp, id), id)
  {
    assert m[id] in updates;
    var k :| 0 <= k < |updates| && updates[k] == m[id];
    SetAt(t, status, updates, k);
  }

  /** Where in an order a batch that names `id` comes; the batches elsewhere are others of the four. */
  lemma {:induction false} PositionOf(
    batches: seq<Batch>, board: Uuid, p: Pending, d: SyncData, i: nat, id: Uuid)
    returns (k: nat)
    requires WellKeyed(p) && IsSyncData(d, p) && IsFlushOrder(batches, board, d)
    requires i < 4 && id in KeysOf(p, i)
    ensures k < |batches| && batches[k] == Four(board, d)[i]
    ensures forall j :: 0 <= j < |batches| && j != k ==> batches[j] != batches[k]
  {
    OrderFacts(batches, board, d);
    FourTouch(board, p, d);
    var batch := Four(board, d)[i];
    assert id in Touched(batch) && !IsEmptyBatch(batch);
    assert batch in batches;
    k :| 0 <= k < |batches| && batches[k] == batch;
  }

  /** A batch of the order that names `id` is one of the four whose map has `id`. */
  lemma {:induction false} NamedBy(batches: seq<Batch>, board: Uuid, p: Pending, d: SyncData, j: nat, id: Uuid)
    requires WellKeyed(p) && IsSyncData(d, p) && IsFlushOrder(batches, board, d) && j < |batches|
    ensures !batches[j].Delete? && NoRepeatInBatch(batches[j])
    ensures id in Touched(batches[j]) ==>
              exists m :: 0 <= m < 4 && id in KeysOf(p, m) && batches[j] == Four(board, d)[m]
  {
    OrderFacts(batches, board, d);
    FourTouch(board, p, d);
    assert batches[j] in batches;
    var m :| 0 <= m < 4 && batches[j] == Four(board, d)[m];
    assert id in Touched(batches[j]) ==> id in KeysOf(p, m);
  }

  /** An id only one batch names ends as that batch leaves it, in every order. */
  lemma {:induction false} OrderAtOne(
    t: Table, batches: seq<Batch>, board: Uuid, p: Pending, d: SyncData, i: nat, id: Uuid)
    requires WellKeyed(p) && IsSyncData(d, p) && IsFlushOrder(batches, board, d)
    requires i < 4 && OnlyIn(p, i, id)
    ensures SameAt(ApplyAll(t, batches), ApplyBatch(t, Four(board, d)[i]), id)
  {
    var k := PositionOf(batches, board, p, d, i, id);
    forall j | 0 <= j < |batches|
      ensures !batches[j].Delete? && NoRepeatInBatch(batches[j]) && (j != k ==> id !in Touched(batches[j]))
    {
      NamedBy(batches, board, p, d, j, id);
    }
    OneToucher(t, batches, k, id);
  }

  lemma {:induction false} OrderAtNone(t: Table, batches: seq<Batch>, board: Uuid, p: Pending, d: SyncData, id: Uuid)
    requires WellKeyed(p) && IsSyncData(d, p) && IsFlushOrder(batches, board, d)
    requires forall m :: 0 <= m < 4 ==> id !in KeysOf(p, m)
    ensures SameAt(ApplyAll(t, batches), t, id)
  {
    forall j | 0 <= j < |batches| ensures !batches[j].Delete? && id !in Touched(batches[j]) {
      NamedBy(batches, board, p, d, j, id);
    }
    AllUntouched(t, batches, id);
  }

  lemma {:induction false} KeysOfAll(p: Pending)
    ensures KeysOf(p, 0) == p.current.Keys && KeysOf(p, 1) == p.undone.Keys
    ensures KeysOf(p, 2) == p.setCurrent.Keys && KeysOf(p, 3) == p.setUndone.Keys
  {
  }

  ghost predicate OnlyIn(p: Pending, i: nat, id: Uuid)
    requires i < 4
  {
    id in KeysOf(p, i) && forall m :: 0 <= m < 4 && m != i ==> id !in KeysOf(p, m)
  }

  lemma {:induction false} FourHas(t: Table, board: Uuid, p: Pending, d: SyncData, i: nat, id: Uuid)
    requires WellKeyed(p) && IsSyncData(d, p) && i < 4 && OnlyIn(p, i, id)
    ensures HasRow(ApplyBatch(t, Four(board, d)[i]), id, FinalRow(t, board, p, id))
  {
    hide WellKeyed, IsSyncData, ApplyBatch, Four;
    KeysOfAll(p);
    if i < 2 {
      FourCreates(t, board, p, d, i, id);
    } else {
      FourSets(t, board, p, d, i, id);
    }
  }

  lemma {:induction false} OrderHasNamed(
    t: Table, batches: seq<Batch>, board: Uuid, p: Pending, d: SyncData, i: nat, id: Uuid)
    requires WellKeyed(p) && IsSyncData(d, p) && IsFlushOrder(batches, board, d)
    requires i < 4 && OnlyIn(p, i, id)
    ensures HasRow(ApplyAll(t, batches), id, FinalRow(t, board, p, id))
  {
    OrderAtOne(t, batches, board, p, d, i, id);
    FourHas(t, board, p, d, i, id);
  }

  lemma {:induction false} UnnamedRow(t: Table, board: Uuid, p: Pending, id: Uuid)
    requires id !in p.Created() + p.Set()
    ensures HasRow(t, id, FinalRow(t, board, p, id))
  {
  }

  lemma {:induction false} OrderHasUnnamed(
    t: Table, batches: seq<Batch>, board: Uuid, p: Pending, d: SyncData, id: Uuid)
    requires WellKeyed(p) && IsSyncData(d, p) && IsFlushOrder(batches, board, d)
    requires id !in p.Created() + p.Set()
    ensures HasRow(ApplyAll(t, batches), id, FinalRow(t, board, p, id))
  {
    hide WellKeyed, IsSyncData, IsFlushOrder, ApplyAll, FinalRow;
    assert forall m :: 0 <= m < 4 ==> id !in KeysOf(p, m) by {
      KeysOfAll(p);
    }
    OrderAtNone(t, batches, board, p, d, id);
    UnnamedRow(t, board, p, id);
  }

  /** The one map an id is in, when it is not both created and updated. */
  lemma {:induction false} OnlyMap(p: Pending, id: Uuid) returns (i: nat)
    requires WellKeyed(p) && p.current.Keys !! p.undone.Keys
    requires id in p.Created() + p.Set()
    requires id !in p.Created() || id !in p.Set()
    ensures i < 4 && OnlyIn(p, i, id)
  {
    KeysOfAll(p);
    i := if id in p.current then 0 else if id in p.undone then 1 else if id in p.setCurrent then 2 else 3;
  }

  /** An id that is not both created and updated gets its final row in every order. */
  lemma {:induction false} OrderHas(t: Table, batches: seq<Batch>, board: Uuid, p: Pending, d: SyncData, id: Uuid)
    requires WellKeyed(p) && p.current.Keys !! p.undone.Keys
    requires id !in p.Created() || id !in p.Set()
    requires IsSyncData(d, p) && IsFlushOrder(batches, board, d)
    ensures HasRow(ApplyAll(t, batches), id, FinalRow(t, board, p, id))
  {
    if id in p.Created() + p.Set() {
      var i := OnlyMap(p, id);
      OrderHasNamed(t, batches, board, p, d, i, id);
    } else {
      OrderHasUnnamed(t, batches, board, p, d, id);
    }
  }

  /** Without conflict every order of the batches ends in the same table. */
  lemma {:induction false} FlushedByAnyOrder(t: Table, batches: seq<Batch>, board: Uuid, p: Pending, d: SyncData)
    requires WellKeyed(p) && p.current.Keys !! p.undone.Keys && NoConflict(p)
    requires IsSyncData(d, p) && IsFlushOrder(batches, board, d)
    ensures ApplyAll(t, batches) == Flushed(t, board, p)
  {
    forall id ensures SameAt(ApplyAll(t, batches), Flushed(t, board, p), id) {
      OrderHas(t, batches, board, p, d, id);
      FlushedHas(t, board, p, id);
    }
    SameEverywhere(ApplyAll(t, batches), Flushed(t, board, p));
  }
}
