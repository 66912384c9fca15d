/** The board object of the server. */
module Boards {
  import opened Wrappers
  import opened Edits
  import opened Histories
  import opened EditTables
  import opened DbQueues
  import opened Compaction
  import opened Flushes
  import opened WriteThrough
  import opened Transparency
  import opened Pulls
  import opened BoardMachine

  datatype BoardSize = BoardSize(height: nat, width: nat)

  /** A title as its UTF-8 bytes. */
  type Title = seq<bv8>

  predicate ValidTitle(title: Title) {
    |title| <= 36
  }

  predicate ValidSize(size: BoardSize) {
    size.height <= MAX_DIMENSION_SIZE && size.width <= MAX_DIMENSION_SIZE
  }

  class Board {
    const db: DbQueue
    const config: Config
    const publicId: Uuid
    var dbCache: Option<History>
    var dbCacheUsedAt: nat
    var queue: seq<QueueOp>
    var size: BoardSize
    var title: Title

    ghost function State(): BoardState
      reads this, db.store
    {
      BoardState(db.store.rows, dbCache, dbCacheUsedAt, queue)
    }

    ghost predicate Valid()
      reads this, db, db.store
    {
      db.Idle() && db.itemSize >= 1 && config.queueSize >= 1 && Coherent(config, publicId, State())
    }

    /** The two lists the board stands for. */
    ghost function History(): History
      reads this, db.store
    {
      Meaning(State(), publicId)
    }

    constructor Load(db: DbQueue, config: Config, title: Title, size: BoardSize, publicId: Uuid, now: nat)
      requires db.Idle() && db.itemSize >= 1 && config.queueSize >= 1 && Readable(db.store.rows, publicId)
      ensures this.db == db && this.config == config && this.publicId == publicId
      ensures State() == BoardState(db.store.rows, None, now, [])
      ensures this.title == title && this.size == size
      ensures Valid() && History() == ReadBoard(db.store.rows, publicId)
    {
      this.db, this.config, this.publicId := db, config, publicId;
      dbCache, dbCacheUsedAt, queue := None, now, [];
      this.title, this.size := title, size;
    }

    /** Empties the log into the table. Nobody who reads the board can tell. */
    method Sync()
      requires Valid()
      modifies this`queue, this`dbCache, db, db.store
      ensures Valid()
      ensures State() == Flush(old(State()), publicId)
      ensures History() == old(History())
    {
      hide Coherent, Meaning, Flushed, IsSyncData, Sent, Compact, ApplyAll;
      ghost var s := State();
      FlushMeaning(config, publicId, s);
      var log := queue;
      dbCache := None;
      queue := [];
      ghost var d, order := db.SyncWithQueue(publicId, log);
      FlushWritten(config, publicId, s, d, order);
      assert State() == Flush(s, publicId);
    }

    method Enlist(op: QueueOp)
      requires Valid() && MayJoin(State(), publicId, op)
      modifies this`queue, this`dbCache, db, db.store
      ensures Valid()
      ensures State() == Enqueue(old(State()), publicId, config.queueSize, op)
      ensures History() == Step(old(History()), op)
      ensures |queue| <= config.queueSize
      ensures old(|queue|) < config.queueSize ==>
                queue == old(queue) + [op] && db.store.rows == old(db.store.rows) && dbCache == old(dbCache)
      ensures old(|queue|) == config.queueSize ==>
                queue == [op] && dbCache == None
                && db.store.rows == ExecuteAll(old(db.store.rows), publicId, old(queue))
    {
      hide Coherent, GuardedLog;
      LogWritten(config, publicId, State());
      ghost var next := Enqueue(State(), publicId, config.queueSize, op);
      ghost var h := History();
      assert Coherent(config, publicId, next) && Meaning(next, publicId) == Step(h, op) by {
        EnqueueMeaning(config, publicId, State(), op);
      }
      if |queue| + 1 > config.queueSize {
        Sync();
      }
      queue := queue + [op];
      assert State() == next;
    }

    method PushEdit(edit: Edit, now: nat) returns (r: Outcome<PushError>)
      requires Valid() && (ValidEdit(edit) ==> MayJoin(State(), publicId, Push(now, edit)))
      modifies this`queue, this`dbCache, db, db.store
      ensures Valid()
      ensures State() == BoardStep(config, publicId, old(State()), Call.PushEdit(now, edit)).0
      ensures r.Pass? <==> (edit.Add? ==> edit.shape.Some?) && forall shape <- ShapesOf(edit) ::
                && shape.lineSize <= 10_000.0 && shape.height <= 10_000.0 && shape.width <= 10_000.0
                && shape.radiusX <= 10_000.0 && shape.radiusY <= 10_000.0
                && shape.scaleX <= 10_000.0 && shape.scaleY <= 10_000.0 && shape.urlLength <= 65_534
      ensures History() == if r.Pass? then Step(old(History()), Push(now, edit)) else old(History())
      ensures r.Fail? ==> State() == old(State())
      ensures r.Pass? && old(|queue|) < config.queueSize ==>
                queue == old(queue) + [Push(now, edit)]
                && db.store.rows == old(db.store.rows) && dbCache == old(dbCache)
      ensures r.Pass? && old(|queue|) == config.queueSize ==>
                queue == [Push(now, edit)] && dbCache == None
                && db.store.rows == ExecuteAll(old(db.store.rows), publicId, old(queue))
    {
      hide Coherent, GuardedLog, ExecuteAll, ShapesOf;
      ValidEditIff(edit);
      hide ValidEdit;
      if !ValidEdit(edit) {
        return Fail(WrongValue("edit is invalid"));
      }
      Enlist(Push(now, edit));
      return Pass;
    }

    method ExecCommand(command: QueueOp)
      requires Valid() && !command.Push? && MayJoin(State(), publicId, command)
      modifies this`queue, this`dbCache, db, db.store
      ensures Valid()
      ensures State() == Enqueue(old(State()), publicId, config.queueSize, command)
      ensures History() == Step(old(History()), command)
      ensures old(|queue|) < config.queueSize ==>
                queue == old(queue) + [command] && db.store.rows == old(db.store.rows) && dbCache == old(dbCache)
      ensures old(|queue|) == config.queueSize ==>
                queue == [command] && dbCache == None
                && db.store.rows == ExecuteAll(old(db.store.rows), publicId, old(queue))
    {
      hide Coherent, GuardedLog, ExecuteAll;
      Enlist(command);
    }

    method Pull(userCurrent: seq<Uuid>, userUndone: seq<Uuid>, now: nat) returns (data: PullData)
      requires Valid()
      modifies this`dbCache, this`dbCacheUsedAt
      ensures Valid() && History() == old(History())
      ensures State() == BoardStep(config, publicId, old(State()), Call.Pull(now, userCurrent, userUndone)).0
      ensures IsPullOf(data, History(), userCurrent, userUndone)
      ensures dbCacheUsedAt == now && dbCache == Some(ReadBoard(db.store.rows, publicId))
      ensures old(dbCache).Some? ==> dbCache == old(dbCache)
    {
      hide Coherent, GuardedLog;
      PullMeaning(config, publicId, State(), now);
      dbCacheUsedAt := now;
      var base: History;
      match dbCache {
        case Some(cached) => base := cached;
        case None =>
          var answers := db.store.Read([publicId]);
          base := answers[0];
          dbCache := Some(base);
      }
      var full := ReplayLog(base, queue);
      var current := Diff(full.current, userCurrent);
      var undone := Diff(full.undone, userUndone);
      data := PullData(current, undone);
    }

    method Empty(status: Status)
      requires Valid()
      modifies this`queue, this`dbCache, db, db.store
      ensures Valid()
      ensures State() == Clear(old(State()), publicId, status)
      ensures History() == if status.Current? then old(History()).(current := []) else old(History()).(undone := [])
    {
      hide Coherent, GuardedLog;
      ClearMeaning(config, publicId, State(), status);
      Sync();
      db.deleteEdit := [Delete(publicId, status)];
      ghost var before := db.store.rows;
      ghost var order := db.Drain();
      DeletedAlone(before, order, Delete(publicId, status));
    }

    method ClearDbCache(now: nat)
      requires Valid()
      modifies this`dbCache
      ensures Valid() && History() == old(History())
      ensures State() == Expire(old(State()), config.cacheSeconds, now)
      ensures dbCache == if dbCacheUsedAt <= now < dbCacheUsedAt + (config.cacheSeconds + 1) * 1_000_000_000
                         then old(dbCache) else None
    {
      if now < dbCacheUsedAt {
        dbCache := None;
      } else {
        var seconds := (now - dbCacheUsedAt) / NANOS;
        if seconds > config.cacheSeconds {
          dbCache := None;
        }
      }
    }

    method SetTitle(title: Title) returns (r: Outcome<PushError>)
      modifies this`title
      ensures r.Pass? <==> |title| <= 36
      ensures this.title == if r.Pass? then title else old(this.title)
    {
      if |title| > 36 {
        return Fail(WrongValue("size is too big"));
      }
      this.title := title;
      return Pass;
    }

    method SetSize(height: nat, width: nat) returns (r: Outcome<PushError>)
      modifies this`size
      ensures r.Pass? <==> height <= 10_000 && width <= 10_000
      ensures size == if r.Pass? then BoardSize(height, width) else old(size)
    {
      if height > MAX_DIMENSION_SIZE || width > MAX_DIMENSION_SIZE {
        return Fail(WrongValue("size is too big"));
      }
      size := BoardSize(height, width);
      return Pass;
    }
  }

  /** However its batches are written, the table becomes that of the flush. */
  lemma {:induction false} FlushWritten(
    config: Config, board: Uuid, s: BoardState, d: SyncData, order: seq<Batch>)
    requires Coherent(config, board, s) && IsSyncData(d, Compact(s.queue))
    requires multiset(order) == multiset(Sent(board, d))
    ensures ApplyAll(s.rows, order) == Flush(s, board).rows
  {
    LogOwn(config, board, s);
    WritesExecute(s.rows, board, s.queue, d, order);
    FlushMeaning(config, board, s);
  }

  lemma {:induction false} LogWritten(config: Config, board: Uuid, s: BoardState)
    requires Coherent(config, board, s)
    ensures Flush(s, board) == BoardState(ExecuteAll(s.rows, board, s.queue), None, s.cacheUsedAt, [])
  {
    FlushMeaning(config, board, s);
  }

  lemma {:induction false} LogOwn(config: Config, board: Uuid, s: BoardState)
    requires Coherent(config, board, s)
    ensures OwnCommandsEffective(s.queue) && FreshPushes(s.rows.Keys, s.queue)
  {
    var h := ReadBoard(s.rows, board);
    assert IsRead(s.rows, board, h);
    GuardedOwn(s.rows, board, h, s.queue);
  }

  lemma {:induction false} DeletedAlone(t: Table, order: seq<Batch>, batch: Batch)
    requires multiset(order) == multiset([batch])
    ensures ApplyAll(t, order) == ApplyBatch(t, batch)
  {
    assert |order| == |multiset(order)| == 1;
    assert order[0] in multiset(order);
    assert order == [batch];
    assert ApplyAll(t, []) == t;
  }
}
