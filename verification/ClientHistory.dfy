/** The client's history slice: its reducers, as functions and on the stored lists. */
module ClientHistory {
  import opened Wrappers
  import opened Edits
  import opened Histories

  /** Where `undo` and `redo` take the edit from: the last one with the id, or simply the last one. */
  function Chosen(s: seq<Edit>, id: Option<Uuid>): int {
    if id.Some? then LastIndex(s, id.value) else |s| - 1
  }

  function UndoReducer(h: History, id: Option<Uuid>): History {
    var i := Chosen(h.current, id);
    if i < 0 then h else History(Without(h.current, i), h.undone + [h.current[i]])
  }

  function RedoReducer(h: History, id: Option<Uuid>): History {
    var i := Chosen(h.undone, id);
    if i < 0 then h else History(h.current + [h.undone[i]], Without(h.undone, i))
  }

  // The reducers for the deletions of a pull

  /** Where `splice(index, 1)` removes an element, or -1; the reducers do not call it for index 0. */
  function SplicedAt(index: int, length: nat): int {
    if index == 0 then -1 else if index < 0 then length - 1 else if index < length then index else -1
  }

  function RemoveAt(s: seq<Edit>, i: int): seq<Edit>
    requires i < |s|
  {
    if i < 0 then s else Without(s, i)
  }

  function RemoveCurrentReducer(h: History, id: Uuid): History {
    h.(current := RemoveAt(h.current, SplicedAt(LastIndex(h.current, id), |h.current|)))
  }

  /** The index comes from the other list. */
  function RemoveUndoneReducer(h: History, id: Uuid): History {
    h.(undone := RemoveAt(h.undone, SplicedAt(LastIndex(h.current, id), |h.undone|)))
  }

  lemma {:induction false} RemoveAtIff(s: seq<Edit>, i: int, j: int)
    requires NoRepeat(s) && -1 <= i < |s| && -1 <= j < |s|
    ensures RemoveAt(s, i) == RemoveAt(s, j) <==> i == j
  {
    if 0 <= i && 0 <= j && i != j {
      IdsOfWithout(s, i);
      IdsOfWithout(s, j);
      assert s[i] in s && s[i].id in Ids(s);
      assert s[i].id in Ids(Without(s, j));
    }
  }

  /** The last current edit with the id is removed, and nothing else, exactly when it is not the first of the list. */
  lemma {:induction false} RemoveCurrentIff(h: History, id: Uuid)
    requires NoRepeat(h.current)
    ensures RemoveCurrentReducer(h, id).current == RemoveAt(h.current, LastIndex(h.current, id))
            <==> LastIndex(h.current, id) > 0 || h.current == []
  {
    RemoveAtIff(h.current, SplicedAt(LastIndex(h.current, id), |h.current|), LastIndex(h.current, id));
  }

  /** The only edit of the list stays. */
  lemma {:induction false} RemoveCurrentFails(edit: Edit)
    ensures RemoveCurrentReducer(History([edit], []), edit.id) == History([edit], [])
  {
    assert LastIndex([edit], edit.id) == 0;
  }

  lemma {:induction false} UndoneSplice(h: History, id: Uuid)
    requires NoRepeat(h.undone)
    ensures RemoveUndoneReducer(h, id).undone == RemoveAt(h.undone, LastIndex(h.undone, id))
            <==> SplicedAt(LastIndex(h.current, id), |h.undone|) == LastIndex(h.undone, id)
  {
    RemoveAtIff(h.undone, SplicedAt(LastIndex(h.current, id), |h.undone|), LastIndex(h.undone, id));
  }

  /**
   * The undone edit with the id is removed, and nothing else, exactly when: an undone edit is the last of its list;
   * a current edit is the first of its list, or further on than `undone` is long; and for other ids, when no edit
   * is undone.
   */
  lemma {:induction false} RemoveUndoneIff(h: History, id: Uuid)
    requires Distinct(h)
    ensures RemoveUndoneReducer(h, id).undone == RemoveAt(h.undone, LastIndex(h.undone, id))
            <==> if id in Ids(h.undone) then h.undone[|h.undone| - 1].id == id
                 else if id in Ids(h.current) then h.current[0].id == id || |h.undone| <= LastIndex(h.current, id)
                 else h.undone == []
  {
    UndoneSplice(h, id);
    EndsOf(h.current, id);
    EndsOf(h.undone, id);
    hide RemoveUndoneReducer, RemoveAt, LastIndex, NoRepeat, Ids;
  }

  lemma {:induction false} EndsOf(s: seq<Edit>, id: Uuid)
    requires NoRepeat(s)
    ensures id in Ids(s) <==> LastIndex(s, id) >= 0
    ensures s != [] ==> (s[0].id == id <==> LastIndex(s, id) == 0)
    ensures s != [] ==> (s[|s| - 1].id == id <==> LastIndex(s, id) == |s| - 1)
  {
    hide Ids;
  }

  /** The first of two undone edits is to go, and the second goes. */
  lemma {:induction false} RemoveUndoneFails(edit: Edit, other: Edit)
    requires edit.id != other.id
    ensures RemoveUndoneReducer(History([], [edit, other]), edit.id) == History([], [edit])
  {
    assert Without([edit, other], 1) == [edit];
  }

  class HistoryStore {
    var current: seq<Edit>
    var undone: seq<Edit>

    function Lists(): History
      reads this
    {
      History(current, undone)
    }

    constructor ()
      ensures Lists() == EMPTY
    {
      current, undone := [], [];
    }

    method AddCurrent(edit: Edit)
      modifies this
      ensures Lists() == old(Lists()).(current := old(current) + [edit])
    {
      current := current + [edit];
    }

    method AddUndone(edit: Edit)
      modifies this
      ensures Lists() == old(Lists()).(undone := old(undone) + [edit])
    {
      undone := undone + [edit];
    }

    method RemoveCurrent(id: Uuid)
      modifies this
      ensures Lists() == RemoveCurrentReducer(old(Lists()), id)
    {
      var editIndex := LastIndex(current, id);
      if editIndex == 0 {
        return;
      }
      var at := SplicedAt(editIndex, |current|);
      if at >= 0 {
        current := current[..at] + current[at + 1..];
      }
    }

    method RemoveUndone(id: Uuid)
      modifies this
      ensures Lists() == RemoveUndoneReducer(old(Lists()), id)
    {
      var editIndex := LastIndex(current, id);
      if editIndex == 0 {
        return;
      }
      var at := SplicedAt(editIndex, |undone|);
      if at >= 0 {
        undone := undone[..at] + undone[at + 1..];
      }
    }

    method EmptyUndone()
      modifies this
      ensures Lists() == old(Lists()).(undone := [])
    {
      undone := [];
    }

    method EmptyCurrent()
      modifies this
      ensures Lists() == old(Lists()).(current := [])
    {
      current := [];
    }

    method Undo(id: Option<Uuid>)
      modifies this
      ensures Lists() == UndoReducer(old(Lists()), id)
    {
      var lastIndex := Chosen(current, id);
      if lastIndex < 0 {
        return;
      }
      var last := current[lastIndex];
      current := current[..lastIndex] + current[lastIndex + 1..];
      undone := undone + [last];
    }

    method Redo(id: Option<Uuid>)
      modifies this
      ensures Lists() == RedoReducer(old(Lists()), id)
    {
      var lastIndex := Chosen(undone, id);
      if lastIndex < 0 {
        return;
      }
      var last := undone[lastIndex];
      undone := undone[..lastIndex] + undone[lastIndex + 1..];
      current := current + [last];
    }
  }
}
