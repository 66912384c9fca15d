/** The table as an object: the bulk statements of the edit entity and the grouped read. */
module EditStores {
  import opened Edits
  import opened Histories
  import opened EditTables

  /** The rows `SELECT .. WHERE board_id IN boards ORDER BY changed_at` may return. */
  ghost predicate IsQuery(t: Table, boards: set<Uuid>, rs: seq<Row>) {
    && (forall i :: 0 <= i < |rs| ==> rs[i].board in boards && rs[i].edit.id in t && t[rs[i].edit.id] == rs[i])
    && (forall i, j :: 0 <= i < j < |rs| ==> rs[i].stamp <= rs[j].stamp && rs[i].edit.id != rs[j].edit.id)
    && (forall id :: id in t && t[id].board in boards ==> t[id] in rs)
  }

  /** The edits of the rows of one board with one status, in row order. */
  function Select(rs: seq<Row>, board: Uuid, status: Status): seq<Edit> {
    if rs == [] then []
    else
      var rest, row := Select(rs[..|rs| - 1], board, status), rs[|rs| - 1];
      if row.board == board && row.status == status then rest + [row.edit] else rest
  }

  /** The selected edits are the edits of the matching rows. */
  lemma {:induction false} SelectMembers(rs: seq<Row>, board: Uuid, status: Status)
    ensures forall e :: e in Select(rs, board, status) <==>
              exists j :: 0 <= j < |rs| && rs[j].board == board && rs[j].status == status && rs[j].edit == e
  {
    if rs != [] {
      var rest, row := rs[..|rs| - 1], rs[|rs| - 1];
      SelectMembers(rest, board, status);
      assert rs == rest + [row];
    }
  }

  lemma {:induction false} SortedAppend(t: Table, board: Uuid, status: Status, xs: seq<Edit>, e: Edit)
    requires SortedRows(t, board, status, xs)
    requires Holds(t, board, status, e.id) && t[e.id].edit == e
    requires forall i :: 0 <= i < |xs| ==> t[xs[i].id].stamp < t[e.id].stamp
    ensures SortedRows(t, board, status, xs + [e])
  {
  }

  /** An edit selected from rows before `row` was changed before it. */
  lemma {:induction false} SelectedEarlier(
    t: Table, boards: set<Uuid>, rs: seq<Row>, board: Uuid, status: Status, k: nat, e: Edit)
    requires DistinctStamps(t, board) && IsQuery(t, boards, rs) && k < |rs| && rs[k].board == board
    requires e in Select(rs[..k], board, status)
    ensures e.id in t && t[e.id].stamp < rs[k].stamp
  {
    SelectMembers(rs[..k], board, status);
    var j :| 0 <= j < k && rs[..k][j].board == board && rs[..k][j].edit == e;
    assert rs[j] == rs[..k][j];
    assert t[rs[j].edit.id] == rs[j] && t[rs[k].edit.id] == rs[k];
  }

  lemma {:induction false} SelectSorted(t: Table, boards: set<Uuid>, rs: seq<Row>, board: Uuid, status: Status, k: nat)
    requires DistinctStamps(t, board) && IsQuery(t, boards, rs) && k <= |rs|
    ensures SortedRows(t, board, status, Select(rs[..k], board, status))
  {
    if k > 0 {
      var before, row := rs[..k - 1], rs[k - 1];
      SelectSorted(t, boards, rs, board, status, k - 1);
      assert rs[..k][..k - 1] == before;
      if row.board == board && row.status == status {
        var xs := Select(before, board, status);
        forall i | 0 <= i < |xs| ensures t[xs[i].id].stamp < row.stamp {
          SelectedEarlier(t, boards, rs, board, status, k - 1, xs[i]);
        }
        SortedAppend(t, board, status, xs, row.edit);
      }
    }
  }

  lemma {:induction false} QueryGivesRead(t: Table, boards: set<Uuid>, rs: seq<Row>, board: Uuid)
    requires KeysMatch(t) && DistinctStamps(t, board) && IsQuery(t, boards, rs) && board in boards
    ensures IsRead(t, board, History(Select(rs, board, Current), Select(rs, board, Undone)))
  {
    assert rs[..|rs|] == rs;
    SelectSorted(t, boards, rs, board, Current, |rs|);
    SelectSorted(t, boards, rs, board, Undone, |rs|);
    forall id, status | Holds(t, board, status, id) ensures id in Ids(Select(rs, board, status)) {
      SelectMembers(rs, board, status);
      assert t[id] in rs;
      assert t[id].edit in Select(rs, board, status);
    }
  }

  /** A read finds nothing exactly when the board has no rows. */
  lemma {:induction false} EmptyReadIff(t: Table, board: Uuid)
    ensures IsRead(t, board, EMPTY) <==> forall id <- t.Keys :: t[id].board != board
  {
    if IsRead(t, board, EMPTY) {
      forall id | id in t ensures t[id].board != board {
        assert Holds(t, board, t[id].status, id) ==> id in Ids([]);
      }
    }
  }

  lemma {:induction false} OldestOf(t: Table, ids: set<Uuid>)
    requires ids != {} && ids <= t.Keys
    ensures exists oldest :: oldest in ids && forall id <- ids :: t[oldest].stamp <= t[id].stamp
  {
    var oldest :| oldest in ids;
    if ids != {oldest} {
      OldestOf(t, ids - {oldest});
      var rest :| rest in ids - {oldest} && forall id <- ids - {oldest} :: t[rest].stamp <= t[id].stamp;
      var best := if t[rest].stamp < t[oldest].stamp then rest else oldest;
      assert forall id <- ids :: t[best].stamp <= t[id].stamp;
    }
  }

  function Entry(grouped: map<Uuid, History>, board: Uuid): History {
    if board in grouped then grouped[board] else EMPTY
  }

  class EditStore {
    var rows: Table

    constructor ()
      ensures rows == map[]
    {
      rows := map[];
    }

    method Create(chunks: seq<Batch>)
      requires forall chunk <- chunks :: chunk.Create?
      modifies this
      ensures rows == ApplyAll(old(rows), chunks)
    {
      for k := 0 to |chunks|
        invariant rows == ApplyAll(old(rows), chunks[..k])
      {
        var chunk := chunks[k];
        ghost var before := rows;
        for m := 0 to |chunk.items|
          invariant rows == CreateRows(before, chunk.board, chunk.status, chunk.items[..m])
        {
          assert chunk.items[..m + 1][..m] == chunk.items[..m];
          var item := chunk.items[m];
          rows := rows[item.edit.id := Row(chunk.board, chunk.status, item.stamp, item.edit)];
        }
        assert chunk.items[..|chunk.items|] == chunk.items;
        assert chunks[..k + 1][..k] == chunks[..k];
      }
      assert chunks[..|chunks|] == chunks;
    }

    method SetStatus(chunks: seq<Batch>)
      requires forall chunk <- chunks :: chunk.SetStatus?
      modifies this
      ensures rows == ApplyAll(old(rows), chunks)
    {
      for k := 0 to |chunks|
        invariant rows == ApplyAll(old(rows), chunks[..k])
      {
        var chunk := chunks[k];
        ghost var before := rows;
        for m := 0 to |chunk.updates|
          invariant rows == SetRows(before, chunk.status, chunk.updates[..m])
        {
          assert chunk.updates[..m + 1][..m] == chunk.updates[..m];
          var update := chunk.updates[m];
          rows := SetRow(rows, chunk.status, update.stamp, update.id);
        }
        assert chunk.updates[..|chunk.updates|] == chunk.updates;
        assert chunks[..k + 1][..k] == chunks[..k];
      }
      assert chunks[..|chunks|] == chunks;
    }

    method DeleteBulk(chunks: seq<Batch>)
      requires forall chunk <- chunks :: chunk.Delete?
      modifies this
      ensures rows == ApplyAll(old(rows), chunks)
    {
      for k := 0 to |chunks|
        invariant rows == ApplyAll(old(rows), chunks[..k])
      {
        rows := DeleteRows(rows, chunks[k].board, chunks[k].status);
        assert chunks[..k + 1][..k] == chunks[..k];
      }
      assert chunks[..|chunks|] == chunks;
    }

    /** The database's part of a read: repeatedly the oldest remaining row. */
    method Query(boards: set<Uuid>) returns (rs: seq<Row>)
      requires KeysMatch(rows)
      ensures IsQuery(rows, boards, rs)
    {
      rs := [];
      var rest := set id <- rows.Keys | rows[id].board in boards;
      while rest != {}
        invariant rest <= rows.Keys
        invariant forall i :: 0 <= i < |rs| ==>
          rs[i].board in boards && rs[i].edit.id in rows && rows[rs[i].edit.id] == rs[i] && rs[i].edit.id !in rest
        invariant forall i, j :: 0 <= i < j < |rs| ==> rs[i].stamp <= rs[j].stamp && rs[i].edit.id != rs[j].edit.id
        invariant forall i, id :: 0 <= i < |rs| && id in rest ==> rs[i].stamp <= rows[id].stamp
        invariant forall id :: id in rows && rows[id].board in boards ==> id in rest || rows[id] in rs
        invariant forall id <- rest :: rows[id].board in boards
      {
        OldestOf(rows, rest);
        var oldest :| oldest in rest && forall id <- rest :: rows[oldest].stamp <= rows[id].stamp;
        rs := rs + [rows[oldest]];
        rest := rest - {oldest};
      }
    }

    /** The grouping loop: each row goes to its board's entry, which is made on first use. */
    method Group(rs: seq<Row>) returns (grouped: map<Uuid, History>)
      ensures forall board: Uuid ::
        Entry(grouped, board) == History(Select(rs, board, Current), Select(rs, board, Undone))
    {
      grouped := map[];
      for k := 0 to |rs|
        invariant forall board: Uuid ::
          Entry(grouped, board) == History(Select(rs[..k], board, Current), Select(rs[..k], board, Undone))
      {
        assert rs[..k + 1][..k] == rs[..k];
        var row := rs[k];
        var entry := Entry(grouped, row.board);
        match row.status {
          case Current => entry := entry.(current := entry.current + [row.edit]);
          case Undone => entry := entry.(undone := entry.undone + [row.edit]);
        }
        grouped := grouped[row.board := entry];
      }
      assert rs[..|rs|] == rs;
    }

    /** The sending loop: an entry is handed to the first requester of its board. */
    method HandOut(requests: seq<Uuid>, all: map<Uuid, History>) returns (answers: seq<History>)
      ensures |answers| == |requests|
      ensures forall i :: 0 <= i < |requests| ==>
        answers[i] == if requests[i] in requests[..i] then EMPTY else Entry(all, requests[i])
    {
      var grouped := all;
      ghost var served: set<Uuid> := {};
      answers := [];
      for k := 0 to |requests|
        invariant |answers| == k
        invariant forall i :: 0 <= i < k ==> requests[i] in served
        invariant served <= set i | 0 <= i < k :: requests[i]
        invariant grouped == all - served
        invariant forall i :: 0 <= i < k ==>
          answers[i] == if requests[i] in requests[..i] then EMPTY else Entry(all, requests[i])
      {
        var board := requests[k];
        assert board in served <==> board in requests[..k];
        answers := answers + [Entry(grouped, board)];
        grouped := grouped - {board};
        served := served + {board};
      }
    }

    /** Answers a batch of requests. A repeated request gets nothing, which is right only for a board without rows. */
    method Read(requests: seq<Uuid>) returns (answers: seq<History>)
      requires KeysMatch(rows)
      requires forall board <- requests :: DistinctStamps(rows, board)
      ensures |answers| == |requests|
      ensures forall i :: 0 <= i < |requests| ==>
        if requests[i] in requests[..i] then answers[i] == EMPTY else IsRead(rows, requests[i], answers[i])
      ensures forall i :: 0 <= i < |requests| ==>
        (IsRead(rows, requests[i], answers[i]) <==>
         requests[i] !in requests[..i] || forall id <- rows.Keys :: rows[id].board != requests[i])
    {
      var boards := set board <- requests;
      var rs := Query(boards);
      var grouped := Group(rs);
      answers := HandOut(requests, grouped);
      forall i | 0 <= i < |requests| && requests[i] !in requests[..i]
        ensures IsRead(rows, requests[i], answers[i])
      {
        QueryGivesRead(rows, boards, rs, requests[i]);
      }
      forall i | 0 <= i < |requests| && requests[i] in requests[..i]
        ensures IsRead(rows, requests[i], EMPTY) <==> forall id <- rows.Keys :: rows[id].board != requests[i]
      {
        EmptyReadIff(rows, requests[i]);
      }
    }
  }
}
