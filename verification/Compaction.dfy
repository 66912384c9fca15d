/** The compaction of a log into four batches, and what writing them does to the table. */
module Compaction {
  import opened Edits
  import opened Histories
  import opened EditTables

  // The fold over the log

  /** The four hash maps of the compaction loop. */
  datatype Pending = Pending(
    current: map<Uuid, EditAction>,
    undone: map<Uuid, EditAction>,
    setCurrent: map<Uuid, IdAction>,
    setUndone: map<Uuid, IdAction>)
  {
    function Created(): set<Uuid> {
      current.Keys + undone.Keys
    }

    function Set(): set<Uuid> {
      setCurrent.Keys + setUndone.Keys
    }
  }

  const NOTHING := Pending(map[], map[], map[], map[])

  function CompactStep(p: Pending, op: QueueOp): Pending {
    match op
    case Push(stamp, edit) =>
      p.(current := p.current[edit.id := EditAction(stamp, edit)])
    case Undo(stamp, id) =>
      if id in p.current then
        p.(current := p.current - {id}, undone := p.undone[id := EditAction(stamp, p.current[id].edit)])
      else
        p.(setCurrent := p.setCurrent - {id}, setUndone := p.setUndone[id := IdAction(stamp, id)])
    case Redo(stamp, id) =>
      if id in p.undone then
        p.(undone := p.undone - {id}, current := p.current[id := EditAction(stamp, p.undone[id].edit)])
      else
        p.(setUndone := p.setUndone - {id}, setCurrent := p.setCurrent[id := IdAction(stamp, id)])
  }

  function Compact(queue: seq<QueueOp>): Pending {
    if queue == [] then NOTHING
    else CompactStep(Compact(queue[..|queue| - 1]), queue[|queue| - 1])
  }

  lemma {:induction false} CompactAppend(queue: seq<QueueOp>, op: QueueOp)
    ensures Compact(queue + [op]) == CompactStep(Compact(queue), op)
  {
    assert (queue + [op])[..|queue|] == queue;
  }

  /** Each entry is stored under its own id, and no id is in both status maps. */
  ghost predicate WellKeyed(p: Pending) {
    && (forall id <- p.current.Keys :: p.current[id].edit.id == id)
    && (forall id <- p.undone.Keys :: p.undone[id].edit.id == id)
    && (forall id <- p.setCurrent.Keys :: p.setCurrent[id].id == id)
    && (forall id <- p.setUndone.Keys :: p.setUndone[id].id == id)
    && p.setCurrent.Keys !! p.setUndone.Keys
  }

  lemma {:induction false} StepWellKeyed(p: Pending, op: QueueOp)
    requires WellKeyed(p)
    ensures WellKeyed(CompactStep(p, op))
  {
    match op
    case Push(_, _) =>
    case Undo(_, id) => assert id in p.current || id !in p.setCurrent.Keys - {id};
    case Redo(_, id) => assert id in p.undone || id !in p.setUndone.Keys - {id};
  }

  lemma {:induction false} CompactWellKeyed(queue: seq<QueueOp>)
    ensures WellKeyed(Compact(queue))
  {
    if queue != [] {
      CompactWellKeyed(queue[..|queue| - 1]);
      StepWellKeyed(Compact(queue[..|queue| - 1]), queue[|queue| - 1]);
    }
  }

  function Size(p: Pending): nat {
    |p.current| + |p.undone| + |p.setCurrent| + |p.setUndone|
  }

  lemma {:induction false} PutSize<A>(m: map<Uuid, A>, id: Uuid, a: A)
    ensures |m[id := a]| == |m| + if id in m then 0 else 1
  {
    assert m[id := a].Keys == m.Keys + {id};
    assert |m| == |m.Keys| && |m[id := a]| == |m[id := a].Keys|;
  }

  lemma {:induction false} DropSize<A>(m: map<Uuid, A>, id: Uuid)
    ensures |m - {id}| == |m| - if id in m then 1 else 0
  {
    assert (m - {id}).Keys == m.Keys - {id};
    assert |m| == |m.Keys| && |m - {id}| == |(m - {id}).Keys|;
  }

  /** Compaction never makes the log longer, whatever the log holds. */
  lemma {:induction false} CompactBound(queue: seq<QueueOp>)
    ensures Size(Compact(queue)) <= |queue|
  {
    if queue != [] {
      CompactBound(queue[..|queue| - 1]);
      var p := Compact(queue[..|queue| - 1]);
      match queue[|queue| - 1]
      case Push(stamp, edit) => PutSize(p.current, edit.id, EditAction(stamp, edit));
      case Undo(stamp, id) =>
        if id in p.current {
          DropSize(p.current, id);
          PutSize(p.undone, id, EditAction(stamp, p.current[id].edit));
        } else {
          DropSize(p.setCurrent, id);
          PutSize(p.setUndone, id, IdAction(stamp, id));
        }
      case Redo(stamp, id) =>
        if id in p.undone {
          DropSize(p.undone, id);
          PutSize(p.current, id, EditAction(stamp, p.undone[id].edit));
        } else {
          DropSize(p.setUndone, id);
          PutSize(p.setCurrent, id, IdAction(stamp, id));
        }
    }
  }

  // The loop, and the unspecified order of a hash map's values

  datatype SyncData = SyncData(
    currentCreate: seq<EditAction>,
    undoneCreate: seq<EditAction>,
    setStatusCurrent: seq<IdAction>,
    setStatusUndone: seq<IdAction>)

  /** `xs` lists the values of `m` in some order. */
  ghost predicate ListsEdits(xs: seq<EditAction>, m: map<Uuid, EditAction>) {
    && |xs| == |m|
    && (forall i :: 0 <= i < |xs| ==> xs[i].edit.id in m && m[xs[i].edit.id] == xs[i])
    && (forall i, j :: 0 <= i < j < |xs| ==> xs[i].edit.id != xs[j].edit.id)
    && (forall id <- m.Keys :: m[id] in xs)
  }

  ghost predicate ListsIds(xs: seq<IdAction>, m: map<Uuid, IdAction>) {
    && |xs| == |m|
    && (forall i :: 0 <= i < |xs| ==> xs[i].id in m && m[xs[i].id] == xs[i])
    && (forall i, j :: 0 <= i < j < |xs| ==> xs[i].id != xs[j].id)
    && (forall id <- m.Keys :: m[id] in xs)
  }

  ghost predicate IsSyncData(d: SyncData, p: Pending) {
    && ListsEdits(d.currentCreate, p.current)
    && ListsEdits(d.undoneCreate, p.undone)
    && ListsIds(d.setStatusCurrent, p.setCurrent)
    && ListsIds(d.setStatusUndone, p.setUndone)
  }

  method EditValues(m: map<Uuid, EditAction>) returns (xs: seq<EditAction>)
    requires forall id <- m.Keys :: m[id].edit.id == id
    ensures ListsEdits(xs, m)
  {
    xs := [];
    var rest := m.Keys;
    while rest != {}
      invariant rest <= m.Keys && |xs| + |rest| == |m.Keys|
      invariant forall i :: 0 <= i < |xs| ==> xs[i].edit.id in m && m[xs[i].edit.id] == xs[i] && xs[i].edit.id !in rest
      invariant forall i, j :: 0 <= i < j < |xs| ==> xs[i].edit.id != xs[j].edit.id
      invariant forall id <- m.Keys :: id in rest || m[id] in xs
    {
      var id :| id in rest;
      xs := xs + [m[id]];
      rest := rest - {id};
    }
  }

  method IdValues(m: map<Uuid, IdAction>) returns (xs: seq<IdAction>)
    requires forall id <- m.Keys :: m[id].id == id
    ensures ListsIds(xs, m)
  {
    xs := [];
    var rest := m.Keys;
    while rest != {}
      invariant rest <= m.Keys && |xs| + |rest| == |m.Keys|
      invariant forall i :: 0 <= i < |xs| ==> xs[i].id in m && m[xs[i].id] == xs[i] && xs[i].id !in rest
      invariant forall i, j :: 0 <= i < j < |xs| ==> xs[i].id != xs[j].id
      invariant forall id <- m.Keys :: id in rest || m[id] in xs
    {
      var id :| id in rest;
      xs := xs + [m[id]];
      rest := rest - {id};
    }
  }

  method GetSyncData(queue: seq<QueueOp>) returns (d: SyncData)
    ensures IsSyncData(d, Compact(queue))
    ensures |d.currentCreate| + |d.undoneCreate| + |d.setStatusCurrent| + |d.setStatusUndone| <= |queue|
    ensures forall x <- d.setStatusCurrent, y <- d.setStatusUndone :: x.id != y.id
  {
    var current: map<Uuid, EditAction> := map[];
    var undone: map<Uuid, EditAction> := map[];
    var setCurrentIds: map<Uuid, IdAction> := map[];
    var setUndoneIds: map<Uuid, IdAction> := map[];
    for k := 0 to |queue|
      invariant Pending(current, undone, setCurrentIds, setUndoneIds) == Compact(queue[..k])
    {
      assert queue[..k + 1][..k] == queue[..k];
      match queue[k] {
        case Push(stamp, edit) =>
          current := current[edit.id := EditAction(stamp, edit)];
        case Undo(stamp, id) =>
          if id in current {
            var edit := current[id].edit;
            current := current - {id};
            undone := undone[id := EditAction(stamp, edit)];
          } else {
            setCurrentIds := setCurrentIds - {id};
            setUndoneIds := setUndoneIds[id := IdAction(stamp, id)];
          }
        case Redo(stamp, id) =>
          if id in undone {
            var edit := undone[id].edit;
            undone := undone - {id};
            current := current[id := EditAction(stamp, edit)];
          } else {
            setUndoneIds := setUndoneIds - {id};
            setCurrentIds := setCurrentIds[id := IdAction(stamp, id)];
          }
      }
    }
    assert queue[..|queue|] == queue;
    CompactWellKeyed(queue);
    CompactBound(queue);
    var currentCreate := EditValues(current);
    var undoneCreate := EditValues(undone);
    var setStatusCurrent := IdValues(setCurrentIds);
    var setStatusUndone := IdValues(setUndoneIds);
    d := SyncData(currentCreate, undoneCreate, setStatusCurrent, setStatusUndone);
  }
}
