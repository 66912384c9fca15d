/** The database loop: four channels, drained in an order the loop does not promise. */
module DbQueues {
  import opened Edits
  import opened Histories
  import opened EditTables
  import opened EditStores
  import opened Compaction
  import opened Flushes

  lemma {:induction false} ApplyAllConcat(t: Table, xs: seq<Batch>, ys: seq<Batch>)
    ensures ApplyAll(t, xs + ys) == ApplyAll(ApplyAll(t, xs), ys)
  {
    if ys == [] {
      assert xs + ys == xs;
    } else {
      var last := |ys| - 1;
      ApplyAllConcat(t, xs, ys[..last]);
      assert (xs + ys)[..|xs + ys| - 1] == xs + ys[..last];
    }
  }

  lemma {:induction false} SplitCounts(xs: seq<Batch>, n: nat)
    requires n <= |xs|
    ensures multiset(xs) == multiset(xs[..n]) + multiset(xs[n..])
  {
    assert xs == xs[..n] + xs[n..];
  }

  class DbQueue {
    const store: EditStore
    const itemSize: nat
    var createEdit: seq<Batch>
    var updateEdit: seq<Batch>
    var deleteEdit: seq<Batch>

    constructor (store: EditStore, itemSize: nat)
      ensures this.store == store && this.itemSize == itemSize && Idle()
    {
      this.store, this.itemSize := store, itemSize;
      createEdit, updateEdit, deleteEdit := [], [], [];
    }

    predicate Idle()
      reads this
    {
      createEdit == [] && updateEdit == [] && deleteEdit == []
    }

    predicate Sorted()
      reads this
    {
      && (forall chunk <- createEdit :: chunk.Create?)
      && (forall chunk <- updateEdit :: chunk.SetStatus?)
      && (forall chunk <- deleteEdit :: chunk.Delete?)
    }

    ghost function Waiting(): multiset<Batch>
      reads this
    {
      multiset(createEdit) + multiset(updateEdit) + multiset(deleteEdit)
    }

    // A branch of the select: any number of the channel's chunks, up to the limit, in one statement

    method ServeCreate() returns (ghost served: seq<Batch>)
      requires Sorted() && itemSize >= 1 && createEdit != []
      modifies this`createEdit, store
      ensures Sorted() && 1 <= |served| <= itemSize && old(createEdit) == served + createEdit
      ensures multiset(served) + Waiting() == old(Waiting())
      ensures store.rows == ApplyAll(old(store.rows), served)
    {
      var n: nat :| 1 <= n <= itemSize && n <= |createEdit|;
      SplitCounts(createEdit, n);
      var chunks := createEdit[..n];
      createEdit := createEdit[n..];
      store.Create(chunks);
      served := chunks;
    }

    method ServeUpdate() returns (ghost served: seq<Batch>)
      requires Sorted() && itemSize >= 1 && updateEdit != []
      modifies this`updateEdit, store
      ensures Sorted() && 1 <= |served| <= itemSize && old(updateEdit) == served + updateEdit
      ensures multiset(served) + Waiting() == old(Waiting())
      ensures store.rows == ApplyAll(old(store.rows), served)
    {
      var n: nat :| 1 <= n <= itemSize && n <= |updateEdit|;
      SplitCounts(updateEdit, n);
      var chunks := updateEdit[..n];
      updateEdit := updateEdit[n..];
      store.SetStatus(chunks);
      served := chunks;
    }

    method ServeDelete() returns (ghost served: seq<Batch>)
      requires Sorted() && itemSize >= 1 && deleteEdit != []
      modifies this`deleteEdit, store
      ensures Sorted() && 1 <= |served| <= itemSize && old(deleteEdit) == served + deleteEdit
      ensures multiset(served) + Waiting() == old(Waiting())
      ensures store.rows == ApplyAll(old(store.rows), served)
    {
      var n: nat :| 1 <= n <= itemSize && n <= |deleteEdit|;
      SplitCounts(deleteEdit, n);
      var chunks := deleteEdit[..n];
      deleteEdit := deleteEdit[n..];
      store.DeleteBulk(chunks);
      served := chunks;
    }

    /**
     * Serves the channels until none has a chunk; any channel that has one may be next. `order` is the order the
     * chunks were executed in.
     */
    method Drain() returns (ghost order: seq<Batch>)
      requires Sorted() && itemSize >= 1
      modifies this, store
      ensures Idle()
      ensures multiset(order) == old(Waiting())
      ensures store.rows == ApplyAll(old(store.rows), order)
    {
      order := [];
      while !Idle()
        invariant Sorted()
        invariant multiset(order) + Waiting() == old(Waiting())
        invariant store.rows == ApplyAll(old(store.rows), order)
        decreases |createEdit| + |updateEdit| + |deleteEdit|
      {
        ghost var served: seq<Batch>;
        if {
          case createEdit != [] => served := ServeCreate();
          case updateEdit != [] => served := ServeUpdate();
          case deleteEdit != [] => served := ServeDelete();
        }
        ApplyAllConcat(old(store.rows), order, served);
        order := order + served;
      }
    }

    /** Two concurrent sends into a channel: either may enter first. */
    static method Enter(channel: seq<Batch>, xs: seq<Batch>, ys: seq<Batch>) returns (entered: seq<Batch>)
      ensures multiset(entered) == multiset(channel) + multiset(xs) + multiset(ys)
      ensures forall batch <- entered :: batch in channel || batch in xs || batch in ys
    {
      if {
        case true => entered := channel + xs + ys;
        case true => entered := channel + ys + xs;
      }
    }

    /** Sends the non-empty batches of a flush concurrently. */
    method Send(publicId: Uuid, data: SyncData)
      requires Sorted()
      modifies this`createEdit, this`updateEdit
      ensures Sorted() && Waiting() == old(Waiting()) + multiset(Sent(publicId, data))
    {
      hide Sent, IfAny;
      var four := Four(publicId, data);
      SentKinds(publicId, data);
      var currentCreate, undoneCreate := IfAny(four[0]), IfAny(four[1]);
      var setCurrent, setUndone := IfAny(four[2]), IfAny(four[3]);
      ghost var creates, updates := createEdit, updateEdit;
      createEdit := Enter(createEdit, currentCreate, undoneCreate);
      updateEdit := Enter(updateEdit, setCurrent, setUndone);
      SentWaiting(publicId, data, creates, updates, createEdit, updateEdit);
    }

    /**
     * `sync_with_queue`: compacts the log, sends its batches and waits until all are written. Chunks that other
     * rooms have waiting are written with them.
     */
    method SyncWithQueue(publicId: Uuid, queue: seq<QueueOp>) returns (ghost d: SyncData, ghost order: seq<Batch>)
      requires Sorted() && itemSize >= 1
      modifies this, store
      ensures Idle()
      ensures IsSyncData(d, Compact(queue))
      ensures multiset(order) == old(Waiting()) + multiset(Sent(publicId, d))
      ensures store.rows == ApplyAll(old(store.rows), order)
    {
      hide Sent, Compact, ApplyAll;
      var data := GetSyncData(queue);
      d := data;
      Send(publicId, data);
      order := Drain();
    }
  }

  lemma {:induction false} SentKinds(board: Uuid, d: SyncData)
    ensures var four := Four(board, d);
            && (forall i, batch :: 0 <= i < 2 && batch in IfAny(four[i]) ==> batch.Create?)
            && (forall i, batch :: 2 <= i < 4 && batch in IfAny(four[i]) ==> batch.SetStatus?)
  {
  }

  lemma {:induction false} SentWaiting(
    board: Uuid, d: SyncData, creates: seq<Batch>, updates: seq<Batch>, creates': seq<Batch>, updates': seq<Batch>)
    requires var four := Four(board, d);
             && multiset(creates') == multiset(creates) + multiset(IfAny(four[0])) + multiset(IfAny(four[1]))
             && multiset(updates') == multiset(updates) + multiset(IfAny(four[2])) + multiset(IfAny(four[3]))
    ensures multiset(creates') + multiset(updates')
            == multiset(creates) + multiset(updates) + multiset(Sent(board, d))
  {
    hide IfAny;
    var four := Four(board, d);
    var s01 := IfAny(four[0]) + IfAny(four[1]);
    assert multiset(s01) == multiset(IfAny(four[0])) + multiset(IfAny(four[1]));
    assert multiset(s01 + IfAny(four[2])) == multiset(s01) + multiset(IfAny(four[2]));
    assert multiset(s01 + IfAny(four[2]) + IfAny(four[3])) == multiset(s01 + IfAny(four[2])) + multiset(IfAny(four[3]));
  }
}
