/** How batches of statements combine: what one batch does to one id, and batches of different boards. */
module Batches {
  import opened Wrappers
  import opened Edits
  import opened Histories
  import opened EditTables

  /** The ids a create or a status batch names. A delete names none: it selects by board and status. */
  function Touched(batch: Batch): set<Uuid> {
    match batch
    case Create(_, _, items) => set item <- items :: item.edit.id
    case SetStatus(_, updates) => set update <- updates :: update.id
    case Delete(_, _) => {}
  }

  ghost predicate NoRepeatInBatch(batch: Batch) {
    match batch
    case Create(_, _, items) => forall i, j :: 0 <= i < j < |items| ==> items[i].edit.id != items[j].edit.id
    case SetStatus(_, updates) => forall i, j :: 0 <= i < j < |updates| ==> updates[i].id != updates[j].id
    case Delete(_, _) => true
  }

  // One batch, one id

  lemma {:induction false} CreateUntouched(t: Table, board: Uuid, status: Status, items: seq<EditAction>, id: Uuid)
    requires forall item <- items :: item.edit.id != id
    ensures SameAt(CreateRows(t, board, status, items), t, id)
  {
    if items != [] {
      CreateUntouched(t, board, status, items[..|items| - 1], id);
    }
  }

  lemma {:induction false} CreateAt(t: Table, board: Uuid, status: Status, items: seq<EditAction>, k: nat)
    requires k < |items| && NoRepeatInBatch(Create(board, status, items))
    ensures var t', item := CreateRows(t, board, status, items), items[k];
            item.edit.id in t' && t'[item.edit.id] == Row(board, status, item.stamp, item.edit)
  {
    var last := |items| - 1;
    if k < last {
      CreateAt(t, board, status, items[..last], k);
    }
  }

  lemma {:induction false} SetUntouched(t: Table, status: Status, updates: seq<IdAction>, id: Uuid)
    requires forall update <- updates :: update.id != id
    ensures SameAt(SetRows(t, status, updates), t, id)
  {
    if updates != [] {
      SetUntouched(t, status, updates[..|updates| - 1], id);
    }
  }

  lemma {:induction false} SetAt(t: Table, status: Status, updates: seq<IdAction>, k: nat)
    requires k < |updates| && NoRepeatInBatch(SetStatus(status, updates))
    ensures SameAt(SetRows(t, status, updates), SetRow(t, status, updates[k].stamp, updates[k].id), updates[k].id)
  {
    var last := |updates| - 1;
    if k < last {
      SetAt(t, status, updates[..last], k);
    } else {
      SetUntouched(t, status, updates[..last], updates[k].id);
    }
  }

  lemma {:induction false} BatchUntouched(t: Table, batch: Batch, id: Uuid)
    requires !batch.Delete? && id !in Touched(batch)
    ensures SameAt(ApplyBatch(t, batch), t, id)
  {
    match batch
    case Create(board, status, items) => CreateUntouched(t, board, status, items, id);
    case SetStatus(status, updates) => SetUntouched(t, status, updates, id);
  }

  /** What a batch does to an id depends on the table at that id only. */
  lemma {:induction false} BatchLocal(t: Table, t': Table, batch: Batch, id: Uuid)
    requires !batch.Delete? && NoRepeatInBatch(batch) && SameAt(t, t', id)
    ensures SameAt(ApplyBatch(t, batch), ApplyBatch(t', batch), id)
  {
    if id in Touched(batch) {
      match batch
      case Create(board, status, items) =>
        var k :| 0 <= k < |items| && items[k].edit.id == id;
        CreateAt(t, board, status, items, k);
        CreateAt(t', board, status, items, k);
      case SetStatus(status, updates) =>
        var k :| 0 <= k < |updates| && updates[k].id == id;
        SetAt(t, status, updates, k);
        SetAt(t', status, updates, k);
    } else {
      BatchUntouched(t, batch, id);
      BatchUntouched(t', batch, id);
    }
  }

  /** Batches that do not name an id leave it as it was. */
  lemma {:induction false} AllUntouched(t: Table, batches: seq<Batch>, id: Uuid)
    requires forall batch <- batches :: !batch.Delete? && id !in Touched(batch)
    ensures SameAt(ApplyAll(t, batches), t, id)
  {
    if batches != [] {
      var rest, last := batches[..|batches| - 1], batches[|batches| - 1];
      AllUntouched(t, rest, id);
      BatchUntouched(ApplyAll(t, rest), last, id);
    }
  }

  /** Batches after position `k` that do not name an id do not matter for it. */
  lemma {:induction false} SuffixUntouched(t: Table, batches: seq<Batch>, k: nat, id: Uuid)
    requires k <= |batches|
    requires forall j :: k <= j < |batches| ==> !batches[j].Delete? && id !in Touched(batches[j])
    ensures SameAt(ApplyAll(t, batches), ApplyAll(t, batches[..k]), id)
  {
    var last := |batches| - 1;
    if k <= last {
      SuffixUntouched(t, batches[..last], k, id);
      assert batches[..last][..k] == batches[..k];
      BatchUntouched(ApplyAll(t, batches[..last]), batches[last], id);
    } else {
      assert batches[..k] == batches;
    }
  }

  /** When one batch alone names an id, the id ends as that batch leaves it. */
  lemma {:induction false} OneToucher(t: Table, batches: seq<Batch>, k: nat, id: Uuid)
    requires k < |batches| && NoRepeatInBatch(batches[k])
    requires forall j :: 0 <= j < |batches| ==> !batches[j].Delete? && (j != k ==> id !in Touched(batches[j]))
    ensures SameAt(ApplyAll(t, batches), ApplyBatch(t, batches[k]), id)
  {
    SuffixUntouched(t, batches, k + 1, id);
    assert batches[..k + 1][..k] == batches[..k];
    AllUntouched(t, batches[..k], id);
    BatchLocal(ApplyAll(t, batches[..k]), t, batches[k], id);
  }

  /** When two batches name an id, the id ends as if they alone had run, in their order. */
  lemma {:induction false} TwoTouchers(t: Table, batches: seq<Batch>, k: nat, m: nat, id: Uuid)
    requires k < m < |batches| && NoRepeatInBatch(batches[k]) && NoRepeatInBatch(batches[m])
    requires forall j :: 0 <= j < |batches| ==>
               !batches[j].Delete? && (j != k && j != m ==> id !in Touched(batches[j]))
    ensures SameAt(ApplyAll(t, batches), ApplyBatch(ApplyBatch(t, batches[k]), batches[m]), id)
  {
    SuffixUntouched(t, batches, m + 1, id);
    assert batches[..m + 1][..m] == batches[..m];
    OneToucher(t, batches[..m], k, id);
    BatchLocal(ApplyAll(t, batches[..m]), ApplyBatch(t, batches[k]), batches[m], id);
  }

  // Batches of different boards

  /** `owner` says which board an edit id belongs to. */
  ghost predicate OwnedTable(t: Table, owner: Uuid -> Uuid) {
    forall id <- t.Keys :: t[id].board == owner(id)
  }

  ghost predicate OwnedBatch(batch: Batch, board: Uuid, owner: Uuid -> Uuid) {
    && (batch.SetStatus? || batch.board == board)
    && forall id <- Touched(batch) :: owner(id) == board
  }

  /** `senders[k]` is the board whose room sent `batches[k]`. */
  ghost predicate OwnedBatches(batches: seq<Batch>, senders: seq<Uuid>, owner: Uuid -> Uuid) {
    && |batches| == |senders|
    && forall k :: 0 <= k < |batches| ==> OwnedBatch(batches[k], senders[k], owner)
  }

  function Repeat(board: Uuid, n: nat): (boards: seq<Uuid>)
    ensures |boards| == n && forall i :: 0 <= i < n ==> boards[i] == board
  {
    if n == 0 then [] else Repeat(board, n - 1) + [board]
  }

  function SentBy(batches: seq<Batch>, senders: seq<Uuid>, board: Uuid): seq<Batch>
    requires |batches| == |senders|
  {
    if batches == [] then []
    else
      var last := |batches| - 1;
      var rest := SentBy(batches[..last], senders[..last], board);
      if senders[last] == board then rest + [batches[last]] else rest
  }

  /** The part of the table a board can see. */
  ghost function OwnRows(t: Table, board: Uuid): Table {
    map id <- t.Keys | t[id].board == board :: t[id]
  }

  lemma {:induction false} ReadSeesOwnRows(t: Table, board: Uuid, h: History)
    ensures IsRead(t, board, h) <==> IsRead(OwnRows(t, board), board, h)
  {
    var own := OwnRows(t, board);
    forall status, xs ensures IsListing(t, board, status, xs) <==> IsListing(own, board, status, xs) {
      assert forall id :: Holds(t, board, status, id) <==> Holds(own, board, status, id);
    }
  }

  lemma {:induction false} OwnedAfter(t: Table, batch: Batch, board: Uuid, owner: Uuid -> Uuid)
    requires OwnedTable(t, owner) && OwnedBatch(batch, board, owner)
    ensures OwnedTable(ApplyBatch(t, batch), owner)
  {
    match batch
    case Create(b, status, items) => CreateKeepsOwners(t, b, status, items, owner);
    case SetStatus(status, updates) => SetKeepsBoards(t, status, updates);
    case Delete(_, _) =>
  }

  lemma {:induction false} CreateKeepsOwners(
    t: Table, board: Uuid, status: Status, items: seq<EditAction>, owner: Uuid -> Uuid)
    requires OwnedTable(t, owner) && forall item <- items :: owner(item.edit.id) == board
    ensures OwnedTable(CreateRows(t, board, status, items), owner)
  {
    if items != [] {
      CreateKeepsOwners(t, board, status, items[..|items| - 1], owner);
    }
  }

  lemma {:induction false} SetKeepsBoards(t: Table, status: Status, updates: seq<IdAction>)
    ensures var t' := SetRows(t, status, updates);
            t'.Keys == t.Keys && forall id <- t.Keys :: t'[id].board == t[id].board && t'[id].edit == t[id].edit
  {
    if updates != [] {
      SetKeepsBoards(t, status, updates[..|updates| - 1]);
    }
  }

  lemma {:induction false} OwnRowsOfSender(t: Table, batch: Batch, board: Uuid)
    requires batch.SetStatus? || batch.board == board
    requires batch.Create? ==> forall id <- Touched(batch) :: id in t ==> t[id].board == board
    requires batch.SetStatus? ==> forall id <- Touched(batch) :: id in t ==> t[id].board == board
    ensures OwnRows(ApplyBatch(t, batch), board) == ApplyBatch(OwnRows(t, board), batch)
  {
    match batch
    case Create(b, status, items) => CreateOwn(t, b, status, items);
    case SetStatus(status, updates) => SetOwn(t, status, updates, board);
    case Delete(_, _) =>
  }

  lemma {:induction false} CreateOwn(t: Table, board: Uuid, status: Status, items: seq<EditAction>)
    ensures OwnRows(CreateRows(t, board, status, items), board) == CreateRows(OwnRows(t, board), board, status, items)
  {
    if items != [] {
      CreateOwn(t, board, status, items[..|items| - 1]);
    }
  }

  lemma {:induction false} SetOwn(t: Table, status: Status, updates: seq<IdAction>, board: Uuid)
    requires forall update <- updates :: update.id in t ==> t[update.id].board == board
    ensures OwnRows(SetRows(t, status, updates), board) == SetRows(OwnRows(t, board), status, updates)
  {
    if updates != [] {
      var rest := updates[..|updates| - 1];
      SetOwn(t, status, rest, board);
      SetKeepsBoards(t, status, rest);
    }
  }

  lemma {:induction false} OwnRowsOfOthers(t: Table, batch: Batch, sender: Uuid, board: Uuid, owner: Uuid -> Uuid)
    requires OwnedTable(t, owner) && OwnedBatch(batch, sender, owner) && sender != board
    ensures OwnRows(ApplyBatch(t, batch), board) == OwnRows(t, board)
  {
    var t' := ApplyBatch(t, batch);
    OwnedAfter(t, batch, sender, owner);
    forall id | owner(id) == board ensures SameAt(t, t', id) {
      if !batch.Delete? {
        BatchUntouched(t, batch, id);
      }
    }
    forall id ensures id in OwnRows(t', board) <==> id in OwnRows(t, board) {
      if owner(id) == board {
        assert SameAt(t, t', id);
      }
    }
    forall id | id in OwnRows(t, board) ensures OwnRows(t', board)[id] == OwnRows(t, board)[id] {
      assert owner(id) == board && SameAt(t, t', id);
    }
  }

  /**
   * Any interleaving of the batches of many rooms leaves a board with the rows its own batches alone
   * would have left, although a status update selects by edit id only.
   */
  lemma {:induction false} NonInterference(
    t: Table, batches: seq<Batch>, senders: seq<Uuid>, board: Uuid, owner: Uuid -> Uuid)
    requires OwnedTable(t, owner) && OwnedBatches(batches, senders, owner)
    ensures OwnedTable(ApplyAll(t, batches), owner)
    ensures OwnRows(ApplyAll(t, batches), board) == ApplyAll(OwnRows(t, board), SentBy(batches, senders, board))
  {
    if batches != [] {
      var last := |batches| - 1;
      var rest, batch, sender := batches[..last], batches[last], senders[last];
      NonInterference(t, rest, senders[..last], board, owner);
      var before := ApplyAll(t, rest);
      OwnedAfter(before, batch, sender, owner);
      if sender == board {
        OwnRowsOfSender(before, batch, board);
        ApplyAllAppend(OwnRows(t, board), SentBy(rest, senders[..last], board), batch);
      } else {
        OwnRowsOfOthers(before, batch, sender, board, owner);
      }
    }
  }

  /** Without the ownership assumption: a status batch spares the rows of other boards exactly when it names none. */
  lemma {:induction false} ForeignRowsSparedIff(t: Table, batch: Batch, board: Uuid)
    requires batch.SetStatus? && NoRepeatInBatch(batch)
    requires forall id, update :: id in t && update in batch.updates ==> t[id].stamp < update.stamp
    ensures (forall id <- t.Keys :: t[id].board != board ==> SameAt(ApplyBatch(t, batch), t, id))
            <==> (forall id <- Touched(batch) :: id in t ==> t[id].board == board)
  {
    forall id | id in t ensures SameAt(ApplyBatch(t, batch), t, id) <==> id !in Touched(batch) {
      if id in Touched(batch) {
        var k :| 0 <= k < |batch.updates| && batch.updates[k].id == id;
        SetAt(t, batch.status, batch.updates, k);
        assert batch.updates[k] in batch.updates;
      } else {
        BatchUntouched(t, batch, id);
      }
    }
  }

  /** The same for what the board reads back. */
  lemma {:induction false} NonInterferenceOfReads(
    t: Table, batches: seq<Batch>, senders: seq<Uuid>, board: Uuid, owner: Uuid -> Uuid, h: History)
    requires OwnedTable(t, owner) && OwnedBatches(batches, senders, owner)
    ensures IsRead(ApplyAll(t, batches), board, h)
            <==> IsRead(ApplyAll(t, SentBy(batches, senders, board)), board, h)
  {
    var mine := SentBy(batches, senders, board);
    NonInterference(t, batches, senders, board, owner);
    SentByOwned(batches, senders, board, owner);
    NonInterference(t, mine, Repeat(board, |mine|), board, owner);
    SentByAll(mine, board);
    ReadSeesOwnRows(ApplyAll(t, batches), board, h);
    ReadSeesOwnRows(ApplyAll(t, mine), board, h);
  }

  lemma {:induction false} SentByOwned(batches: seq<Batch>, senders: seq<Uuid>, board: Uuid, owner: Uuid -> Uuid)
    requires OwnedBatches(batches, senders, owner)
    ensures forall batch <- SentBy(batches, senders, board) :: OwnedBatch(batch, board, owner)
  {
    if batches != [] {
      SentByOwned(batches[..|batches| - 1], senders[..|batches| - 1], board, owner);
    }
  }

  lemma {:induction false} SentByAll(batches: seq<Batch>, board: Uuid)
    ensures SentBy(batches, Repeat(board, |batches|), board) == batches
  {
    if batches != [] {
      var last := |batches| - 1;
      SentByAll(batches[..last], board);
      assert Repeat(board, |batches|)[..last] == Repeat(board, last);
    }
  }
}
