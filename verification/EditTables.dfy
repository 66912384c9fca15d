/** The table of edits, the statements the server runs on it, and what a read of one board returns. */
module EditTables {
  import opened Edits
  import opened Histories

  datatype Status = Current | Undone

  /** `changed_at` is a logical time; `data` is the decoded edit. */
  datatype Row = Row(board: Uuid, status: Status, stamp: nat, edit: Edit)

  type Table = map<Uuid, Row>

  datatype EditAction = EditAction(stamp: nat, edit: Edit)

  datatype IdAction = IdAction(stamp: nat, id: Uuid)

  /** What one chunk of a database channel asks for. */
  datatype Batch =
    | Create(board: Uuid, status: Status, items: seq<EditAction>)
    | SetStatus(status: Status, updates: seq<IdAction>)
    | Delete(board: Uuid, status: Status)

  ghost predicate KeysMatch(t: Table) {
    forall id <- t.Keys :: t[id].edit.id == id
  }

  ghost predicate DistinctStamps(t: Table, board: Uuid) {
    forall x, y :: x in t && y in t && x != y && t[x].board == board && t[y].board == board ==>
      t[x].stamp != t[y].stamp
  }

  /** Every row of the board was last changed before `stamp`. */
  ghost predicate OlderThan(t: Table, board: Uuid, stamp: nat) {
    forall id <- t.Keys :: t[id].board == board ==> t[id].stamp < stamp
  }

  predicate Holds(t: Table, board: Uuid, status: Status, id: Uuid) {
    id in t && t[id].board == board && t[id].status == status
  }

  /** Every edit is a row of the board with that status, in the order of the stamps. */
  ghost predicate SortedRows(t: Table, board: Uuid, status: Status, xs: seq<Edit>) {
    && (forall i :: 0 <= i < |xs| ==> Holds(t, board, status, xs[i].id) && t[xs[i].id].edit == xs[i])
    && (forall i, j :: 0 <= i < j < |xs| ==> t[xs[i].id].stamp < t[xs[j].id].stamp)
  }

  /** `xs` is the result of selecting a board's rows with one status, ordered by `changed_at`. */
  ghost predicate IsListing(t: Table, board: Uuid, status: Status, xs: seq<Edit>) {
    && SortedRows(t, board, status, xs)
    && (forall id :: Holds(t, board, status, id) ==> id in Ids(xs))
  }

  ghost predicate IsRead(t: Table, board: Uuid, h: History) {
    IsListing(t, board, Current, h.current) && IsListing(t, board, Undone, h.undone)
  }

  // A read exists and is unique

  lemma {:induction false} NewestOf(t: Table, ids: set<Uuid>) returns (newest: Uuid)
    requires ids != {} && ids <= t.Keys
    ensures newest in ids && forall id <- ids :: t[id].stamp <= t[newest].stamp
  {
    newest :| newest in ids;
    if ids != {newest} {
      var rest := NewestOf(t, ids - {newest});
      if t[newest].stamp < t[rest].stamp {
        newest := rest;
      }
    }
  }

  lemma {:induction false} SortIds(t: Table, board: Uuid, status: Status, ids: set<Uuid>) returns (xs: seq<Edit>)
    requires KeysMatch(t) && DistinctStamps(t, board)
    requires forall id <- ids :: Holds(t, board, status, id)
    ensures Ids(xs) == ids
    ensures forall i :: 0 <= i < |xs| ==> xs[i].id in t && t[xs[i].id].edit == xs[i]
    ensures forall i, j :: 0 <= i < j < |xs| ==> t[xs[i].id].stamp < t[xs[j].id].stamp
  {
    if ids == {} {
      xs := [];
    } else {
      var newest := NewestOf(t, ids);
      var rest := SortIds(t, board, status, ids - {newest});
      xs := rest + [t[newest].edit];
      IdsOfAppend(rest, t[newest].edit);
      forall i | 0 <= i < |rest| ensures t[rest[i].id].stamp < t[newest].stamp {
        assert rest[i].id in Ids(rest);
      }
    }
  }

  lemma {:induction false} ListingExists(t: Table, board: Uuid, status: Status)
    requires KeysMatch(t) && DistinctStamps(t, board)
    ensures exists xs :: IsListing(t, board, status, xs)
  {
    var xs := SortIds(t, board, status, set id <- t.Keys | Holds(t, board, status, id));
    assert IsListing(t, board, status, xs);
  }

  lemma {:induction false} ListingNoRepeat(t: Table, board: Uuid, status: Status, xs: seq<Edit>)
    requires IsListing(t, board, status, xs)
    ensures NoRepeat(xs)
    ensures forall id :: id in Ids(xs) <==> Holds(t, board, status, id)
  {
  }

  lemma {:induction false} ReadDistinct(t: Table, board: Uuid, h: History)
    requires IsRead(t, board, h)
    ensures Distinct(h)
    ensures forall id :: id in Ids(h.current) <==> Holds(t, board, Current, id)
    ensures forall id :: id in Ids(h.undone) <==> Holds(t, board, Undone, id)
  {
    ListingNoRepeat(t, board, Current, h.current);
    ListingNoRepeat(t, board, Undone, h.undone);
  }

  /** Two listings that agree on a prefix agree on the next element. */
  lemma {:induction false} ListingNext(t: Table, board: Uuid, status: Status, xs: seq<Edit>, ys: seq<Edit>, k: nat)
    requires IsListing(t, board, status, xs) && IsListing(t, board, status, ys)
    requires k < |xs| && k <= |ys| && xs[..k] == ys[..k]
    ensures k < |ys| && t[ys[k].id].stamp <= t[xs[k].id].stamp
  {
    assert Holds(t, board, status, xs[k].id);
    assert xs[k].id in Ids(ys);
    var m := LastIndex(ys, xs[k].id);
    assert m >= k by {
      assert forall i :: 0 <= i < k ==> xs[..k][i] == ys[..k][i];
    }
  }

  lemma {:induction false} ListingSameNext(
    t: Table, board: Uuid, status: Status, xs: seq<Edit>, ys: seq<Edit>, k: nat)
    requires DistinctStamps(t, board) && IsListing(t, board, status, xs) && IsListing(t, board, status, ys)
    requires k < |xs| && k <= |ys| && xs[..k] == ys[..k]
    ensures k < |ys| && xs[k] == ys[k]
  {
    ListingNext(t, board, status, xs, ys, k);
    ListingNext(t, board, status, ys, xs, k);
    assert Holds(t, board, status, xs[k].id) && t[xs[k].id].edit == xs[k];
    assert Holds(t, board, status, ys[k].id) && t[ys[k].id].edit == ys[k];
    hide IsListing;
    assert xs[k].id == ys[k].id;
  }

  lemma {:induction false} ListingUniqueUpTo(
    t: Table, board: Uuid, status: Status, xs: seq<Edit>, ys: seq<Edit>, k: nat)
    requires DistinctStamps(t, board)
    requires IsListing(t, board, status, xs) && IsListing(t, board, status, ys)
    requires k <= |xs|
    ensures k <= |ys| && xs[..k] == ys[..k]
  {
    hide IsListing, DistinctStamps;
    if k > 0 {
      ListingUniqueUpTo(t, board, status, xs, ys, k - 1);
      ListingSameNext(t, board, status, xs, ys, k - 1);
      assert xs[..k] == xs[..k - 1] + [xs[k - 1]];
      assert ys[..k] == ys[..k - 1] + [ys[k - 1]];
    }
  }

  /** `ORDER BY changed_at` leaves the database no choice when the stamps of a board differ. */
  lemma {:induction false} ListingUnique(t: Table, board: Uuid, status: Status, xs: seq<Edit>, ys: seq<Edit>)
    requires DistinctStamps(t, board)
    requires IsListing(t, board, status, xs) && IsListing(t, board, status, ys)
    ensures xs == ys
  {
    ListingUniqueUpTo(t, board, status, xs, ys, |xs|);
    ListingUniqueUpTo(t, board, status, ys, xs, |ys|);
  }

  lemma {:induction false} ReadUnique(t: Table, board: Uuid, h: History, h': History)
    requires DistinctStamps(t, board)
    requires IsRead(t, board, h) && IsRead(t, board, h')
    ensures h == h'
  {
    ListingUnique(t, board, Current, h.current, h'.current);
    ListingUnique(t, board, Undone, h.undone, h'.undone);
  }

  /** A table in which the board's rows can be read in one way only. */
  ghost predicate Readable(t: Table, board: Uuid) {
    KeysMatch(t) && DistinctStamps(t, board)
  }

  ghost function Listing(t: Table, board: Uuid, status: Status): (xs: seq<Edit>)
    requires Readable(t, board)
    ensures IsListing(t, board, status, xs)
  {
    ListingExists(t, board, status);
    var xs :| IsListing(t, board, status, xs);
    xs
  }

  /** The two lists a read of the board returns. */
  ghost function ReadBoard(t: Table, board: Uuid): (h: History)
    ensures Readable(t, board) ==> forall h' :: IsRead(t, board, h') <==> h' == h
  {
    if Readable(t, board) then
      var h := History(Listing(t, board, Current), Listing(t, board, Undone));
      assert forall h' :: IsRead(t, board, h') ==> h' == h by {
        forall h' | IsRead(t, board, h') ensures h' == h {
          ReadUnique(t, board, h, h');
        }
      }
      h
    else EMPTY
  }

  // How a listing changes when one row changes

  lemma {:induction false} ListingMoveIn(t: Table, board: Uuid, status: Status, xs: seq<Edit>, row: Row)
    requires IsListing(t, board, status, xs) && row.board == board && row.status == status
    requires row.edit.id !in Ids(xs)
    requires OlderThan(t, board, row.stamp)
    ensures IsListing(t[row.edit.id := row], board, status, xs + [row.edit])
  {
    var t', ys := t[row.edit.id := row], xs + [row.edit];
    IdsOfAppend(xs, row.edit);
    forall i | 0 <= i < |ys| ensures Holds(t', board, status, ys[i].id) && t'[ys[i].id].edit == ys[i] {
      if i < |xs| {
        assert xs[i].id in Ids(xs);
      }
    }
    forall i, j | 0 <= i < j < |ys| ensures t'[ys[i].id].stamp < t'[ys[j].id].stamp {
      assert Holds(t, board, status, xs[i].id) && xs[i].id in Ids(xs);
      if j < |xs| {
        assert xs[j].id in Ids(xs);
      }
    }
    forall id | Holds(t', board, status, id) ensures id in Ids(ys) {
      assert id == row.edit.id || Holds(t, board, status, id);
    }
  }

  lemma {:induction false} WithoutRows(t: Table, board: Uuid, status: Status, xs: seq<Edit>, i: nat, t': Table)
    requires IsListing(t, board, status, xs) && i < |xs|
    requires forall id :: id != xs[i].id && id in t ==> id in t' && t'[id] == t[id]
    ensures SortedRows(t', board, status, Without(xs, i))
  {
    var ys := Without(xs, i);
    forall k | 0 <= k < |ys|
      ensures Holds(t', board, status, ys[k].id) && t'[ys[k].id] == t[ys[k].id] && t'[ys[k].id].edit == ys[k]
    {
      var k' := if k < i then k else k + 1;
      assert ys[k] == xs[k'];
      assert t[xs[k'].id].stamp != t[xs[i].id].stamp;
    }
    forall k, m | 0 <= k < m < |ys| ensures t'[ys[k].id].stamp < t'[ys[m].id].stamp {
      assert t'[ys[k].id] == t[ys[k].id] && t'[ys[m].id] == t[ys[m].id];
      assert ys[k] == xs[if k < i then k else k + 1];
      assert ys[m] == xs[if m < i then m else m + 1];
    }
  }

  lemma {:induction false} ListingMoveOut(t: Table, board: Uuid, status: Status, xs: seq<Edit>, i: nat, row: Row)
    requires IsListing(t, board, status, xs) && i < |xs|
    requires row.board != board || row.status != status
    ensures IsListing(t[xs[i].id := row], board, status, Without(xs, i))
  {
    var t', ys := t[xs[i].id := row], Without(xs, i);
    WithoutRows(t, board, status, xs, i, t');
    forall id | Holds(t', board, status, id) ensures id in Ids(ys) {
      assert Holds(t, board, status, id);
      ListingNoRepeat(t, board, status, xs);
      IdsOfWithout(xs, i);
    }
  }

  lemma {:induction false} ListingSkip(t: Table, board: Uuid, status: Status, xs: seq<Edit>, id: Uuid, row: Row)
    requires IsListing(t, board, status, xs)
    requires row.board != board || row.status != status
    requires id !in Ids(xs)
    ensures IsListing(t[id := row], board, status, xs)
  {
    var t' := t[id := row];
    forall i | 0 <= i < |xs| ensures Holds(t', board, status, xs[i].id) && t'[xs[i].id] == t[xs[i].id] {
      assert xs[i].id in Ids(xs);
    }
    forall x | Holds(t', board, status, x) ensures x in Ids(xs) {
      assert Holds(t, board, status, x);
    }
  }

  // The statements

  function CreateRows(t: Table, board: Uuid, status: Status, items: seq<EditAction>): Table {
    if items == [] then t
    else
      var item := items[|items| - 1];
      CreateRows(t, board, status, items[..|items| - 1])[item.edit.id := Row(board, status, item.stamp, item.edit)]
  }

  /** `UPDATE edits SET status, changed_at WHERE edit_id`: no row is added when the id is unknown. */
  function SetRow(t: Table, status: Status, stamp: nat, id: Uuid): Table {
    if id in t then t[id := t[id].(status := status, stamp := stamp)] else t
  }

  function SetRows(t: Table, status: Status, updates: seq<IdAction>): Table {
    if updates == [] then t
    else
      var update := updates[|updates| - 1];
      SetRow(SetRows(t, status, updates[..|updates| - 1]), status, update.stamp, update.id)
  }

  function DeleteRows(t: Table, board: Uuid, status: Status): Table {
    map id <- t.Keys | !Holds(t, board, status, id) :: t[id]
  }

  function ApplyBatch(t: Table, batch: Batch): Table {
    match batch
    case Create(board, status, items) => CreateRows(t, board, status, items)
    case SetStatus(status, updates) => SetRows(t, status, updates)
    case Delete(board, status) => DeleteRows(t, board, status)
  }

  function ApplyAll(t: Table, batches: seq<Batch>): Table {
    if batches == [] then t
    else ApplyBatch(ApplyAll(t, batches[..|batches| - 1]), batches[|batches| - 1])
  }

  lemma {:induction false} ApplyAllAppend(t: Table, batches: seq<Batch>, batch: Batch)
    ensures ApplyAll(t, batches + [batch]) == ApplyBatch(ApplyAll(t, batches), batch)
  {
    assert (batches + [batch])[..|batches|] == batches;
  }
}
