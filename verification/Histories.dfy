/** The plain two-list history, and the replay of a log of operations over it. */
module Histories {
  import opened Wrappers
  import opened Edits

  datatype History = History(current: seq<Edit>, undone: seq<Edit>)

  const EMPTY := History([], [])

  datatype QueueOp =
    | Push(stamp: nat, edit: Edit)
    | Undo(stamp: nat, id: Uuid)
    | Redo(stamp: nat, id: Uuid)
  {
    /** The edit the operation names. */
    function Target(): Uuid {
      if Push? then edit.id else id
    }
  }

  function Ids(s: seq<Edit>): set<Uuid> {
    set e <- s :: e.id
  }

  ghost predicate NoRepeat(s: seq<Edit>) {
    forall i, j :: 0 <= i < j < |s| ==> s[i].id != s[j].id
  }

  /** No id is twice in a list or in both lists. */
  ghost predicate Distinct(h: History) {
    NoRepeat(h.current) && NoRepeat(h.undone) && Ids(h.current) !! Ids(h.undone)
  }

  /** The last position holding `id`, or -1. */
  function LastIndex(s: seq<Edit>, id: Uuid): (i: int)
    ensures -1 <= i < |s|
    ensures i >= 0 ==> s[i].id == id
    ensures forall j :: i < j < |s| ==> s[j].id != id
    ensures i >= 0 <==> id in Ids(s)
  {
    if s == [] then -1
    else if s[|s| - 1].id == id then |s| - 1
    else
      var i := LastIndex(s[..|s| - 1], id);
      assert s == s[..|s| - 1] + [s[|s| - 1]];
      i
  }

  function Without(s: seq<Edit>, i: int): seq<Edit>
    requires 0 <= i < |s|
  {
    s[..i] + s[i + 1..]
  }

  /** Moves the last edit called `id` to the end of the other list; does nothing when there is none. */
  function Move(source: seq<Edit>, target: seq<Edit>, id: Uuid): (seq<Edit>, seq<Edit>) {
    var i := LastIndex(source, id);
    if i < 0 then (source, target) else (Without(source, i), target + [source[i]])
  }

  function Step(h: History, op: QueueOp): History {
    match op
    case Push(_, edit) => h.(current := h.current + [edit])
    case Undo(_, id) => var (c, u) := Move(h.current, h.undone, id); History(c, u)
    case Redo(_, id) => var (u, c) := Move(h.undone, h.current, id); History(c, u)
  }

  function Replay(h: History, queue: seq<QueueOp>): History {
    if queue == [] then h
    else Step(Replay(h, queue[..|queue| - 1]), queue[|queue| - 1])
  }

  /** A command does not name an id that is already where the command would put it. */
  predicate Admissible(h: History, op: QueueOp) {
    match op
    case Push(_, _) => true
    case Undo(_, id) => id !in Ids(h.undone)
    case Redo(_, id) => id !in Ids(h.current)
  }

  ghost predicate AllAdmissible(h: History, queue: seq<QueueOp>) {
    queue == [] ||
    (AllAdmissible(h, queue[..|queue| - 1]) &&
     Admissible(Replay(h, queue[..|queue| - 1]), queue[|queue| - 1]))
  }

  function Pushed(queue: seq<QueueOp>): seq<Edit> {
    if queue == [] then []
    else
      var rest := Pushed(queue[..|queue| - 1]);
      var op := queue[|queue| - 1];
      if op.Push? then rest + [op.edit] else rest
  }

  /** No push names an id of `known` or one an earlier operation of the log names. */
  ghost predicate FreshPushes(known: set<Uuid>, queue: seq<QueueOp>) {
    forall k :: 0 <= k < |queue| && queue[k].Push? ==>
      queue[k].edit.id !in known &&
      forall j :: 0 <= j < k ==> queue[j].Target() != queue[k].edit.id
  }

  // Facts about the list operations

  lemma {:induction false} IdsOfAppend(s: seq<Edit>, e: Edit)
    ensures Ids(s + [e]) == Ids(s) + {e.id}
  {
    assert forall x :: x in s + [e] <==> x in s || x == e;
  }

  lemma {:induction false} IdsOfWithout(s: seq<Edit>, i: int)
    requires 0 <= i < |s| && NoRepeat(s)
    ensures Ids(Without(s, i)) == Ids(s) - {s[i].id}
    ensures NoRepeat(Without(s, i))
  {
    var w := Without(s, i);
    forall id | id in Ids(s) - {s[i].id} ensures id in Ids(w) {
      var k := LastIndex(s, id);
      assert w[if k < i then k else k - 1] == s[k];
    }
    forall e | e in w ensures e.id in Ids(s) - {s[i].id} {
      var k :| 0 <= k < |w| && w[k] == e;
      assert s[if k < i then k else k + 1] == e;
    }
  }

  lemma {:induction false} MoveIds(source: seq<Edit>, target: seq<Edit>, id: Uuid)
    requires NoRepeat(source) && NoRepeat(target) && Ids(source) !! Ids(target)
    ensures var (s, t) := Move(source, target, id);
            && NoRepeat(s) && NoRepeat(t)
            && Ids(s) == Ids(source) - {id}
            && Ids(t) == Ids(target) + (if id in Ids(source) then {id} else {})
  {
    var i := LastIndex(source, id);
    if i >= 0 {
      IdsOfWithout(source, i);
      IdsOfAppend(target, source[i]);
    }
  }

  lemma {:induction false} ReplayAppend(h: History, queue: seq<QueueOp>, op: QueueOp)
    ensures Replay(h, queue + [op]) == Step(Replay(h, queue), op)
  {
    assert (queue + [op])[..|queue|] == queue;
  }

  lemma {:induction false} AllAdmissibleAppend(h: History, queue: seq<QueueOp>, op: QueueOp)
    requires AllAdmissible(h, queue) && Admissible(Replay(h, queue), op)
    ensures AllAdmissible(h, queue + [op])
  {
    assert (queue + [op])[..|queue|] == queue;
  }

  // Conservation

  lemma {:induction false} StepKeepsDistinct(h: History, op: QueueOp)
    requires Distinct(h)
    requires op.Push? ==> op.edit.id !in Ids(h.current) + Ids(h.undone)
    ensures Distinct(Step(h, op))
    ensures var ids := Ids(h.current) + Ids(h.undone);
            Ids(Step(h, op).current) + Ids(Step(h, op).undone) == if op.Push? then ids + {op.edit.id} else ids
  {
    match op
    case Push(_, e) => IdsOfAppend(h.current, e);
    case Undo(_, id) => MoveIds(h.current, h.undone, id);
    case Redo(_, id) => MoveIds(h.undone, h.current, id);
  }

  lemma {:induction false} MoveConserves(source: seq<Edit>, target: seq<Edit>, id: Uuid)
    ensures var (s, t) := Move(source, target, id);
            multiset(s) + multiset(t) == multiset(source) + multiset(target)
  {
    var i := LastIndex(source, id);
    if i >= 0 {
      assert source == source[..i] + [source[i]] + source[i + 1..];
    }
  }

  ghost function Contents(h: History): multiset<Edit> {
    multiset(h.current) + multiset(h.undone)
  }

  lemma {:induction false} StepConserves(h: History, op: QueueOp)
    ensures Contents(Step(h, op)) == Contents(h) + if op.Push? then multiset{op.edit} else multiset{}
  {
    match op
    case Push(_, e) => assert multiset(h.current + [e]) == multiset(h.current) + multiset{e};
    case Undo(_, id) => MoveConserves(h.current, h.undone, id);
    case Redo(_, id) =>
      MoveConserves(h.undone, h.current, id);
      var (u, c) := Move(h.undone, h.current, id);
      assert multiset(u) + multiset(c) == multiset(c) + multiset(u) == Contents(h);
  }

  /** Replaying any log creates and loses nothing: the edits of the two lists are the old ones and the pushed ones. */
  lemma {:induction false} ReplayConserves(h: History, queue: seq<QueueOp>)
    ensures Contents(Replay(h, queue)) == Contents(h) + multiset(Pushed(queue))
  {
    if queue != [] {
      var q, op := queue[..|queue| - 1], queue[|queue| - 1];
      ReplayConserves(h, q);
      StepConserves(Replay(h, q), op);
      if op.Push? {
        assert multiset(Pushed(q) + [op.edit]) == multiset(Pushed(q)) + multiset{op.edit};
      }
    }
  }

  /** With fresh pushes no id is ever in both lists or twice in one, and the ids are the old and the pushed ones. */
  lemma {:induction false} ReplayKeepsDistinct(h: History, queue: seq<QueueOp>)
    requires Distinct(h) && FreshPushes(Ids(h.current) + Ids(h.undone), queue)
    ensures var r := Replay(h, queue);
            && Distinct(r)
            && Ids(r.current) + Ids(r.undone) == Ids(h.current) + Ids(h.undone) + Ids(Pushed(queue))
  {
    if queue != [] {
      var q, op := queue[..|queue| - 1], queue[|queue| - 1];
      ReplayKeepsDistinct(h, q);
      PushedWasNamed(q);
      StepKeepsDistinct(Replay(h, q), op);
      if op.Push? {
        IdsOfAppend(Pushed(q), op.edit);
      }
    }
  }

  lemma {:induction false} PushedWasNamed(queue: seq<QueueOp>)
    ensures forall id <- Ids(Pushed(queue)) :: exists k :: 0 <= k < |queue| && queue[k].Push? && queue[k].edit.id == id
  {
    if queue != [] {
      var q, op := queue[..|queue| - 1], queue[|queue| - 1];
      PushedWasNamed(q);
      forall id | id in Ids(Pushed(queue))
        ensures exists k :: 0 <= k < |queue| && queue[k].Push? && queue[k].edit.id == id
      {
        if id in Ids(Pushed(q)) {
          var k :| 0 <= k < |q| && q[k].Push? && q[k].edit.id == id;
          assert queue[k] == q[k];
        } else {
          IdsOfAppend(Pushed(q), op.edit);
          assert queue[|queue| - 1] == op;
        }
      }
    }
  }

  // The loop of Board::pull

  /** `iter().rev().position(..)`: how far from the end the last edit called `id` is. */
  method PositionFromEnd(s: seq<Edit>, id: Uuid) returns (position: Option<nat>)
    ensures position.None? <==> id !in Ids(s)
    ensures position.Some? ==> position.value < |s| && |s| - 1 - position.value == LastIndex(s, id)
  {
    var k := 0;
    while k < |s|
      invariant 0 <= k <= |s|
      invariant forall j :: |s| - k <= j < |s| ==> s[j].id != id
    {
      if s[|s| - 1 - k].id == id {
        return Some(k);
      }
      k := k + 1;
    }
    return None;
  }

  method ReplayLog(base: History, queue: seq<QueueOp>) returns (full: History)
    ensures full == Replay(base, queue)
  {
    var fullCurrent, fullUndone := base.current, base.undone;
    for k := 0 to |queue|
      invariant History(fullCurrent, fullUndone) == Replay(base, queue[..k])
    {
      assert queue[..k + 1][..k] == queue[..k];
      match queue[k] {
        case Push(_, edit) =>
          fullCurrent := fullCurrent + [edit];
        case Undo(_, id) =>
          var index := PositionFromEnd(fullCurrent, id);
          if index.Some? {
            var at := |fullCurrent| - 1 - index.value;
            fullUndone := fullUndone + [fullCurrent[at]];
            fullCurrent := fullCurrent[..at] + fullCurrent[at + 1..];
          }
        case Redo(_, id) =>
          var index := PositionFromEnd(fullUndone, id);
          if index.Some? {
            var at := |fullUndone| - 1 - index.value;
            fullCurrent := fullCurrent + [fullUndone[at]];
            fullUndone := fullUndone[..at] + fullUndone[at + 1..];
          }
      }
    }
    assert queue[..|queue|] == queue;
    full := History(fullCurrent, fullUndone);
  }
}
