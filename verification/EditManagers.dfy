/** The client's edit manager: edits on the layer's list of shapes, together with the history store. */
module EditManagers {
  import opened Wrappers
  import opened Edits
  import opened Histories
  import opened ClientHistory
  import opened Canvases

  /** The layer after a change, and whether the change stopped at a shape it did not find. */
  datatype Effect = Effect(layer: seq<Shape>, threw: bool)

  /** `findOne`: the first shape with the id, or -1. */
  function FindOne(layer: seq<Shape>, id: Uuid): (i: int)
    ensures -1 <= i < |layer|
    ensures i >= 0 ==> layer[i].shapeId == id
    ensures i < 0 <==> id !in ShapeIds(layer)
    ensures forall j :: 0 <= j < i ==> layer[j].shapeId != id
  {
    if layer == [] then -1
    else
      var i := FindOne(layer[..|layer| - 1], id);
      assert layer == layer[..|layer| - 1] + [layer[|layer| - 1]];
      if i >= 0 then i else if layer[|layer| - 1].shapeId == id then |layer| - 1 else -1
  }

  function DestroyOne(layer: seq<Shape>, id: Uuid): Effect {
    var i := FindOne(layer, id);
    if i < 0 then Effect(layer, true) else Effect(layer[..i] + layer[i + 1..], false)
  }

  function SetOne(layer: seq<Shape>, attrs: Shape): Effect {
    var i := FindOne(layer, attrs.shapeId);
    if i < 0 then Effect(layer, true) else Effect(layer[i := attrs], false)
  }

  function DestroyAll(layer: seq<Shape>, shapes: seq<Shape>): Effect {
    if shapes == [] then Effect(layer, false)
    else
      var before := DestroyAll(layer, shapes[..|shapes| - 1]);
      if before.threw then before else DestroyOne(before.layer, shapes[|shapes| - 1].shapeId)
  }

  function SetAll(layer: seq<Shape>, attrs: seq<Shape>): Effect {
    if attrs == [] then Effect(layer, false)
    else
      var before := SetAll(layer, attrs[..|attrs| - 1]);
      if before.threw then before else SetOne(before.layer, attrs[|attrs| - 1])
  }

  function ApplyTo(layer: seq<Shape>, e: Edit): Effect {
    match e
    case Add(_, shape) => if shape.None? then Effect(layer, true) else Effect(layer + [shape.value], false)
    case Remove(_, shapes) => DestroyAll(layer, shapes)
    case Modify(_, current, _) => SetAll(layer, current)
  }

  function CancelOn(layer: seq<Shape>, e: Edit): Effect {
    match e
    case Add(_, shape) => if shape.None? then Effect(layer, true) else DestroyOne(layer, shape.value.shapeId)
    case Remove(_, shapes) => Effect(layer + shapes, false)
    case Modify(_, _, initial) => SetAll(layer, initial)
  }

  // The layer as a canvas

  function View(layer: seq<Shape>): Canvas {
    Put(map[], layer)
  }

  lemma {:induction false} ViewOf(layer: seq<Shape>)
    requires DistinctShapes(layer)
    ensures View(layer).Keys == ShapeIds(layer)
    ensures forall i :: 0 <= i < |layer| ==>
              layer[i].shapeId in View(layer) && View(layer)[layer[i].shapeId] == layer[i]
  {
    PutKeys(map[], layer);
    PutShows(map[], layer);
  }

  /** The canvas a layer shows is the one with its ids that has each of its shapes. */
  lemma {:induction false} ViewIs(layer: seq<Shape>, c: Canvas)
    requires DistinctShapes(layer) && c.Keys == ShapeIds(layer)
    requires forall i :: 0 <= i < |layer| ==> layer[i].shapeId in c && c[layer[i].shapeId] == layer[i]
    ensures View(layer) == c
  {
    ViewOf(layer);
    forall x | x in c ensures View(layer)[x] == c[x] {
      var i := FindOne(layer, x);
      assert layer[i].shapeId == x;
    }
  }

  lemma {:induction false} RestIds(layer: seq<Shape>, i: nat)
    requires DistinctShapes(layer) && i < |layer|
    ensures var rest := layer[..i] + layer[i + 1..];
            DistinctShapes(rest) && ShapeIds(rest) == ShapeIds(layer) - {layer[i].shapeId}
  {
    var rest := layer[..i] + layer[i + 1..];
    assert forall k :: 0 <= k < |rest| ==> rest[k] == layer[if k < i then k else k + 1];
    forall x | x in ShapeIds(layer) - {layer[i].shapeId} ensures x in ShapeIds(rest) {
      var k := FindOne(layer, x);
      assert rest[if k < i then k else k - 1] == layer[k];
    }
  }

  lemma {:induction false} DestroyOneView(layer: seq<Shape>, id: Uuid)
    requires DistinctShapes(layer) && id in View(layer)
    ensures var r := DestroyOne(layer, id); !r.threw && DistinctShapes(r.layer) && View(r.layer) == View(layer) - {id}
  {
    ViewOf(layer);
    var i := FindOne(layer, id);
    RestIds(layer, i);
    var rest, c := layer[..i] + layer[i + 1..], View(layer) - {id};
    forall k | 0 <= k < |rest| ensures rest[k].shapeId in c && c[rest[k].shapeId] == rest[k] {
      assert rest[k] == layer[if k < i then k else k + 1];
    }
    ViewIs(rest, c);
  }

  lemma {:induction false} ChangedIds(layer: seq<Shape>, i: nat, attrs: Shape)
    requires DistinctShapes(layer) && i < |layer| && layer[i].shapeId == attrs.shapeId
    ensures DistinctShapes(layer[i := attrs]) && ShapeIds(layer[i := attrs]) == ShapeIds(layer)
  {
    var changed := layer[i := attrs];
    assert forall k :: 0 <= k < |changed| ==> changed[k].shapeId == layer[k].shapeId;
    forall x | x in ShapeIds(layer) ensures x in ShapeIds(changed) {
      assert changed[FindOne(layer, x)].shapeId == x;
    }
    forall x | x in ShapeIds(changed) ensures x in ShapeIds(layer) {
      assert layer[FindOne(changed, x)].shapeId == x;
    }
  }

  lemma {:induction false} SetOneView(layer: seq<Shape>, attrs: Shape)
    requires DistinctShapes(layer) && attrs.shapeId in View(layer)
    ensures var r := SetOne(layer, attrs);
            !r.threw && DistinctShapes(r.layer) && View(r.layer) == View(layer)[attrs.shapeId := attrs]
  {
    ViewOf(layer);
    var i := FindOne(layer, attrs.shapeId);
    ChangedIds(layer, i, attrs);
    ViewIs(layer[i := attrs], View(layer)[attrs.shapeId := attrs]);
  }

  lemma {:induction false} ShapeIdsAppend(shapes: seq<Shape>, last: Shape)
    ensures ShapeIds(shapes + [last]) == ShapeIds(shapes) + {last.shapeId}
  {
    assert forall s :: s in shapes + [last] <==> s in shapes || s == last;
  }

  lemma {:induction false} DestroyAllView(layer: seq<Shape>, shapes: seq<Shape>)
    requires DistinctShapes(layer) && DistinctShapes(shapes) && ShapeIds(shapes) <= View(layer).Keys
    ensures var r := DestroyAll(layer, shapes);
            !r.threw && DistinctShapes(r.layer) && View(r.layer) == View(layer) - ShapeIds(shapes)
  {
    if shapes != [] {
      var rest, last := shapes[..|shapes| - 1], shapes[|shapes| - 1];
      assert shapes == rest + [last];
      ShapeIdsAppend(rest, last);
      DestroyAllView(layer, rest);
      assert last.shapeId !in ShapeIds(rest);
      DestroyOneView(DestroyAll(layer, rest).layer, last.shapeId);
    }
  }

  lemma {:induction false} SetAllView(layer: seq<Shape>, attrs: seq<Shape>)
    requires DistinctShapes(layer) && ShapeIds(attrs) <= View(layer).Keys
    ensures var r := SetAll(layer, attrs);
            !r.threw && DistinctShapes(r.layer) && View(r.layer) == Put(View(layer), attrs)
  {
    if attrs != [] {
      var rest, last := attrs[..|attrs| - 1], attrs[|attrs| - 1];
      assert attrs == rest + [last];
      ShapeIdsAppend(rest, last);
      SetAllView(layer, rest);
      PutKeys(View(layer), rest);
      SetOneView(SetAll(layer, rest).layer, last);
    }
  }

  lemma {:induction false} AddAllView(layer: seq<Shape>, shapes: seq<Shape>)
    requires DistinctShapes(layer) && DistinctShapes(shapes) && ShapeIds(shapes) !! View(layer).Keys
    ensures DistinctShapes(layer + shapes) && View(layer + shapes) == Put(View(layer), shapes)
  {
    ViewOf(layer);
    forall i, j | 0 <= i < j < |layer + shapes| ensures (layer + shapes)[i].shapeId != (layer + shapes)[j].shapeId {
      if i < |layer| <= j {
        assert shapes[j - |layer|].shapeId in ShapeIds(shapes) && layer[i].shapeId in View(layer);
      }
    }
    PutConcat(map[], layer, shapes);
  }

  lemma {:induction false} PutConcat(c: Canvas, xs: seq<Shape>, ys: seq<Shape>)
    ensures Put(c, xs + ys) == Put(Put(c, xs), ys)
  {
    if ys == [] {
      assert xs + ys == xs;
    } else {
      var rest := ys[..|ys| - 1];
      PutConcat(c, xs, rest);
      assert (xs + ys)[..|xs + ys| - 1] == xs + rest;
    }
  }

  /** On a layer that shows the canvas, a fitting edit is applied without throwing and shows the applied canvas. */
  lemma {:induction false} ApplyShows(layer: seq<Shape>, e: Edit)
    requires DistinctShapes(layer) && Fits(View(layer), e)
    ensures var r := ApplyTo(layer, e); !r.threw && DistinctShapes(r.layer) && View(r.layer) == Apply(View(layer), e)
  {
    match e
    case Add(_, shape) =>
      assert ShapeIds([shape.value]) == {shape.value.shapeId};
      AddAllView(layer, [shape.value]);
    case Remove(_, shapes) => DestroyAllView(layer, shapes);
    case Modify(_, current, initial) => SetAllView(layer, current);
  }

  lemma {:induction false} CancelShows(layer: seq<Shape>, e: Edit)
    requires DistinctShapes(layer) && Applied(View(layer), e)
    ensures var r := CancelOn(layer, e); !r.threw && DistinctShapes(r.layer) && View(r.layer) == Cancel(View(layer), e)
  {
    match e
    case Add(_, shape) => DestroyOneView(layer, shape.value.shapeId);
    case Remove(_, shapes) => AddAllView(layer, shapes);
    case Modify(_, current, initial) => SetAllView(layer, initial);
  }

  // Where a change stops

  lemma {:induction false} DestroyAllThrowsIff(layer: seq<Shape>, shapes: seq<Shape>)
    requires DistinctShapes(layer)
    ensures DestroyAll(layer, shapes).threw <==> !(DistinctShapes(shapes) && ShapeIds(shapes) <= ShapeIds(layer))
  {
    if shapes != [] {
      var rest, last := shapes[..|shapes| - 1], shapes[|shapes| - 1];
      assert shapes == rest + [last];
      ShapeIdsAppend(rest, last);
      DestroyAllThrowsIff(layer, rest);
      DistinctAppend(rest, last);
      if !DestroyAll(layer, rest).threw {
        ViewOf(layer);
        DestroyAllView(layer, rest);
        ViewOf(DestroyAll(layer, rest).layer);
      }
    }
  }

  lemma {:induction false} DistinctAppend(shapes: seq<Shape>, last: Shape)
    ensures DistinctShapes(shapes + [last]) <==> DistinctShapes(shapes) && last.shapeId !in ShapeIds(shapes)
  {
    var all := shapes + [last];
    if DistinctShapes(all) {
      forall i, j | 0 <= i < j < |shapes| ensures shapes[i].shapeId != shapes[j].shapeId {
        assert all[i] == shapes[i] && all[j] == shapes[j];
      }
      forall s | s in shapes ensures s.shapeId != last.shapeId {
        var i :| 0 <= i < |shapes| && shapes[i] == s;
        assert all[i] == s && all[|shapes|] == last;
      }
    }
  }

  lemma {:induction false} SetOneIds(layer: seq<Shape>, attrs: Shape)
    ensures ShapeIds(SetOne(layer, attrs).layer) == ShapeIds(layer)
  {
    var i := FindOne(layer, attrs.shapeId);
    if i >= 0 {
      var changed := layer[i := attrs];
      assert forall k :: 0 <= k < |changed| ==> changed[k].shapeId == layer[k].shapeId;
      forall x | x in ShapeIds(layer) ensures x in ShapeIds(changed) {
        assert changed[FindOne(layer, x)].shapeId == x;
      }
      forall x | x in ShapeIds(changed) ensures x in ShapeIds(layer) {
        assert layer[FindOne(changed, x)].shapeId == x;
      }
    }
  }

  /** Setting attributes throws exactly when one of the shapes is missing. */
  lemma {:induction false} SetAllThrowsIff(layer: seq<Shape>, attrs: seq<Shape>)
    ensures SetAll(layer, attrs).threw <==> !(ShapeIds(attrs) <= ShapeIds(layer))
    ensures ShapeIds(SetAll(layer, attrs).layer) == ShapeIds(layer)
  {
    if attrs != [] {
      var rest, last := attrs[..|attrs| - 1], attrs[|attrs| - 1];
      SetAllThrowsIff(layer, rest);
      assert attrs == rest + [last];
      ShapeIdsAppend(rest, last);
      SetOneIds(SetAll(layer, rest).layer, last);
    }
  }

  /** Applying throws exactly for an Add without a shape and for shapes that are not there, or no longer there. */
  lemma {:induction false} ApplyThrowsIff(layer: seq<Shape>, e: Edit)
    requires DistinctShapes(layer)
    ensures ApplyTo(layer, e).threw <==>
            match e
            case Add(_, shape) => shape.None?
            case Remove(_, shapes) => !(DistinctShapes(shapes) && ShapeIds(shapes) <= ShapeIds(layer))
            case Modify(_, current, _) => !(ShapeIds(current) <= ShapeIds(layer))
  {
    match e
    case Add(_, _) =>
    case Remove(_, shapes) => DestroyAllThrowsIff(layer, shapes);
    case Modify(_, current, _) => SetAllThrowsIff(layer, current);
  }

  /** Cancelling throws exactly for an Add without a shape and for shapes that are not there. */
  lemma {:induction false} CancelThrowsIff(layer: seq<Shape>, e: Edit)
    ensures CancelOn(layer, e).threw <==>
            match e
            case Add(_, shape) => shape.None? || shape.value.shapeId !in ShapeIds(layer)
            case Remove(_, _) => false
            case Modify(_, _, initial) => !(ShapeIds(initial) <= ShapeIds(layer))
  {
    if e.Modify? {
      SetAllThrowsIff(layer, e.initial);
    }
  }

  /** When setting attributes throws, the shapes before the first missing one are set and the others are not. */
  lemma {:induction false} SetAllStops(layer: seq<Shape>, attrs: seq<Shape>) returns (k: nat)
    requires DistinctShapes(layer) && SetAll(layer, attrs).threw
    ensures k < |attrs| && ShapeIds(attrs[..k]) <= ShapeIds(layer) && attrs[k].shapeId !in ShapeIds(layer)
    ensures View(SetAll(layer, attrs).layer) == Put(View(layer), attrs[..k])
  {
    var rest, last := attrs[..|attrs| - 1], attrs[|attrs| - 1];
    if SetAll(layer, rest).threw {
      k := SetAllStops(layer, rest);
      assert rest[..k] == attrs[..k];
    } else {
      k := |attrs| - 1;
      SetAllThrowsIff(layer, rest);
      ViewOf(layer);
      SetAllView(layer, rest);
    }
  }

  /** When removing throws, the shapes before the first missing one are gone and the others are not. */
  lemma {:induction false} DestroyAllStops(layer: seq<Shape>, shapes: seq<Shape>) returns (k: nat)
    requires DistinctShapes(layer) && DestroyAll(layer, shapes).threw
    ensures k < |shapes| && ShapeIds(shapes[..k]) <= ShapeIds(layer)
    ensures View(DestroyAll(layer, shapes).layer) == View(layer) - ShapeIds(shapes[..k])
    ensures shapes[k].shapeId !in View(DestroyAll(layer, shapes).layer)
  {
    var rest, last := shapes[..|shapes| - 1], shapes[|shapes| - 1];
    if DestroyAll(layer, rest).threw {
      k := DestroyAllStops(layer, rest);
      assert rest[..k] == shapes[..k];
    } else {
      k := |shapes| - 1;
      DestroyAllThrowsIff(layer, rest);
      ViewOf(layer);
      DestroyAllView(layer, rest);
      ViewOf(DestroyAll(layer, rest).layer);
    }
  }

  // The manager

  datatype Manager = Manager(layer: seq<Shape>, history: History)

  /** Before drawing: the undone edits go. */
  function RebaseStep(m: Manager): Manager {
    m.(history := m.history.(undone := []))
  }

  /** A new edit of the user is applied and becomes the last current one. */
  function NewEditStep(m: Manager, e: Edit): Manager {
    var r := ApplyTo(m.layer, e);
    Manager(r.layer, if r.threw then m.history else m.history.(current := m.history.current + [e]))
  }

  function UndoStep(m: Manager, id: Option<Uuid>): Manager {
    var i := Chosen(m.history.current, id);
    if i < 0 then m
    else
      var r := CancelOn(m.layer, m.history.current[i]);
      Manager(r.layer, if r.threw then m.history else UndoReducer(m.history, id))
  }

  /** The edit with the id is applied, but the reducer is called without the id. */
  function RedoStep(m: Manager, id: Option<Uuid>): Manager {
    var i := Chosen(m.history.undone, id);
    if i < 0 then m
    else
      var r := ApplyTo(m.layer, m.history.undone[i]);
      Manager(r.layer, if r.threw then m.history else RedoReducer(m.history, None))
  }

  /** The layer shows the fold of the current edits, and the undone edits would fit again. */
  ghost predicate Sound(m: Manager) {
    DistinctShapes(m.layer) && View(m.layer) == Fold(m.history.current) && Consistent(m.history)
  }

  lemma {:induction false} SoundParts(m: Manager)
    requires Sound(m)
    ensures View(m.layer) == Fold(m.history.current) && Consistent(m.history)
  {
  }

  lemma {:induction false} ConsistentParts(h: History)
    requires Consistent(h)
    ensures AllFit(h.current)
    ensures h.current != [] ==>
              Fits(Fold(h.current[..|h.current| - 1]), h.current[|h.current| - 1])
              && Fold(h.current) == Apply(Fold(h.current[..|h.current| - 1]), h.current[|h.current| - 1])
    ensures h.undone != [] ==> Fits(Fold(h.current), h.undone[|h.undone| - 1])
  {
    var all := h.current + Reverse(h.undone);
    AllFitPrefix(all, |h.current|);
    assert all[..|h.current|] == h.current;
    if h.current != [] {
      AllFitPrefix(h.current, |h.current| - 1);
    }
  }

  lemma {:induction false} LastUndoable(h: History)
    requires Consistent(h) && h.current != []
    ensures Undoable(h.current, |h.current| - 1)
  {
    ConsistentParts(h);
    hide Fits, Applied, Fold, Apply;
    CancelUndoesApply(Fold(h.current[..|h.current| - 1]), h.current[|h.current| - 1]);
  }

  lemma {:induction false} ConsistentCurrent(h: History)
    requires Consistent(h)
    ensures AllFit(h.current) && Consistent(h.(undone := []))
  {
    ConsistentParts(h);
    assert h.current + Reverse([]) == h.current;
  }

  lemma {:induction false} RebaseSound(m: Manager)
    requires Sound(m)
    ensures Sound(RebaseStep(m))
  {
    ConsistentCurrent(m.history);
  }

  /**
   * A new edit that fits is drawn and recorded. The state stays sound exactly when none of the undone edits concerns
   * a shape that the new edit changes.
   */
  lemma {:induction false} NewEditIff(m: Manager, e: Edit)
    requires Sound(m) && Fits(View(m.layer), e)
    ensures NewEditStep(m, e).history == m.history.(current := m.history.current + [e])
    ensures View(NewEditStep(m, e).layer) == Fold(m.history.current + [e])
    ensures Sound(NewEditStep(m, e)) <==> Spares(m.history.undone, e)
  {
    hide Fits, Apply, ApplyTo, Fold, View, DistinctShapes, Consistent, Spares;
    ApplyShows(m.layer, e);
    FoldAppend(m.history.current, e);
    ConsistentIff(m.history, e);
  }

  lemma {:induction false} UndoLastSound(m: Manager)
    requires Sound(m)
    ensures Sound(UndoStep(m, None)) && UndoStep(m, None).history == UndoReducer(m.history, None)
  {
    hide Fits, Applied, AllFit;
    var h := m.history;
    if h.current != [] {
      var rest, e := h.current[..|h.current| - 1], h.current[|h.current| - 1];
      ConsistentParts(h);
      CancelUndoesApply(Fold(rest), e);
      CancelShows(m.layer, e);
      assert Without(h.current, |h.current| - 1) == rest;
      ReverseAppend(h.undone, e);
      assert rest + Reverse(h.undone + [e]) == h.current + Reverse(h.undone);
    }
  }

  lemma {:induction false} RedoLastSound(m: Manager)
    requires Sound(m)
    ensures Sound(RedoStep(m, None)) && RedoStep(m, None).history == RedoReducer(m.history, None)
  {
    hide Fits, Applied, AllFit;
    var h := m.history;
    if h.undone != [] {
      var rest, e := h.undone[..|h.undone| - 1], h.undone[|h.undone| - 1];
      ConsistentParts(h);
      ApplyShows(m.layer, e);
      FoldAppend(h.current, e);
      assert Without(h.undone, |h.undone| - 1) == rest;
      assert h.undone == rest + [e];
      ReverseAppend(rest, e);
      assert h.current + [e] + Reverse(rest) == h.current + Reverse(h.undone);
    }
  }

  /** Edits that fit after one history fit after any other with the same fold. */
  lemma {:induction false} SameFoldFits(xs: seq<Edit>, ys: seq<Edit>, tail: seq<Edit>, n: nat)
    requires AllFit(xs + tail) && AllFit(ys) && Fold(xs) == Fold(ys) && n <= |tail|
    ensures AllFit(ys + tail[..n]) && Fold(ys + tail[..n]) == Fold(xs + tail[..n])
  {
    hide Fits, AllFit, Fold, Apply;
    if n == 0 {
      assert ys + tail[..n] == ys && xs + tail[..n] == xs;
    } else {
      SameFoldFits(xs, ys, tail, n - 1);
      var e := tail[n - 1];
      assert ys + tail[..n] == ys + tail[..n - 1] + [e] && xs + tail[..n] == xs + tail[..n - 1] + [e];
      FoldAppend(ys + tail[..n - 1], e);
      FoldAppend(xs + tail[..n - 1], e);
      AllFitPrefix(xs + tail, |xs| + n - 1);
      assert (xs + tail)[..|xs| + n - 1] == xs + tail[..n - 1];
      AllFitAppend(ys + tail[..n - 1], e);
    }
  }

  /** An edit that can be redone at once may join the undone ones. */
  lemma {:induction false} ConsistentWith(h: History, rest: seq<Edit>, e: Edit)
    requires Consistent(h) && AllFit(rest + [e]) && Fold(rest + [e]) == Fold(h.current)
    ensures Consistent(History(rest, h.undone + [e]))
  {
    hide Fits, AllFit, Fold;
    var tail := Reverse(h.undone);
    SameFoldFits(h.current, rest + [e], tail, |tail|);
    ReverseAppend(h.undone, e);
    assert tail[..|tail|] == tail;
    assert rest + Reverse(h.undone + [e]) == rest + [e] + tail;
  }

  /** Undoing an undoable edit keeps a history consistent. */
  lemma {:induction false} UndoInside(h: History, i: nat)
    requires Consistent(h) && i < |h.current| && Undoable(h.current, i)
    ensures Cancel(Fold(h.current), h.current[i]) == Fold(Without(h.current, i))
    ensures Consistent(History(Without(h.current, i), h.undone + [h.current[i]]))
  {
    ConsistentParts(h);
    hide Fits, Applied, AllFit, Independent, Consistent, Apply, Cancel, Fold, Without;
    var e, rest := h.current[i], Without(h.current, i);
    CancelInside(h.current, i);
    ApplyUndoesCancel(Fold(h.current), e);
    FoldAppend(rest, e);
    AllFitAppend(rest, e);
    ConsistentWith(h, rest, e);
  }

  lemma {:induction false} UndoableFrom(h: History, i: nat)
    requires Consistent(h) && i < |h.current|
    requires Consistent(History(Without(h.current, i), h.undone + [h.current[i]]))
    ensures Undoable(h.current, i)
  {
    hide Fits, AllFit, Undoable, Without;
    var e, rest, tail := h.current[i], Without(h.current, i), Reverse(h.undone);
    ConsistentParts(h);
    ReverseAppend(h.undone, e);
    var all := rest + Reverse(h.undone + [e]);
    assert all == rest + [e] + tail;
    AllFitPrefix(all, |rest| + 1);
    assert all[..|rest| + 1] == rest + [e];
    UndoableIf(h.current, i);
  }

  lemma {:induction false} UndoByIdSound(m: Manager, id: Uuid)
    requires Sound(m)
    requires var i := LastIndex(m.history.current, id); i >= 0 ==> Undoable(m.history.current, i)
    ensures Sound(UndoStep(m, Some(id))) && UndoStep(m, Some(id)).history == UndoReducer(m.history, Some(id))
  {
    hide Fits, Applied, AllFit, Independent, Consistent;
    var i := LastIndex(m.history.current, id);
    if i >= 0 {
      UndoInside(m.history, i);
      CancelShows(m.layer, m.history.current[i]);
    }
  }

  /**
   * Undoing the edit another user names moves it and keeps the whole state sound, so that the canvas is the fold and
   * all other edits, undone ones too, still fit, exactly when there is no such edit or the canvas still shows its
   * shapes as it left them and no later edit concerns a shape that it changed.
   */
  lemma {:induction false} UndoByIdIff(m: Manager, id: Uuid)
    requires Sound(m)
    ensures Sound(UndoStep(m, Some(id))) && UndoStep(m, Some(id)).history == UndoReducer(m.history, Some(id))
            <==> var i := LastIndex(m.history.current, id); i >= 0 ==> Undoable(m.history.current, i)
  {
    hide Undoable, Consistent, CancelOn, Fold, View, DistinctShapes;
    var i, m' := LastIndex(m.history.current, id), UndoStep(m, Some(id));
    if i >= 0 && Undoable(m.history.current, i) {
      UndoByIdSound(m, id);
    } else if i >= 0 && Sound(m') && m'.history == UndoReducer(m.history, Some(id)) {
      UndoableFrom(m.history, i);
    }
  }

  // Undoing by id: what the canvas alone needs

  /** Added shapes are doubled exactly when one is there already. */
  lemma {:induction false} AddDoublesIff(layer: seq<Shape>, shapes: seq<Shape>)
    requires DistinctShapes(layer) && DistinctShapes(shapes)
    ensures DistinctShapes(layer + shapes) <==> ShapeIds(shapes) !! ShapeIds(layer)
  {
    var all := layer + shapes;
    if ShapeIds(shapes) !! ShapeIds(layer) {
      forall i, j | 0 <= i < j < |all| ensures all[i].shapeId != all[j].shapeId {
        if i < |layer| <= j {
          assert all[j].shapeId in ShapeIds(shapes) && all[i].shapeId in ShapeIds(layer);
        }
      }
    }
    if DistinctShapes(all) {
      forall i, j | 0 <= i < |layer| && 0 <= j < |shapes| ensures layer[i].shapeId != shapes[j].shapeId {
        assert all[i] == layer[i] && all[|layer| + j] == shapes[j];
      }
    }
  }

  /** The shapes an edit's cancelling looks for are there, and those it adds are not. */
  predicate Reachable(ids: set<Uuid>, e: Edit) {
    match e
    case Add(_, shape) => shape.Some? && shape.value.shapeId in ids
    case Remove(_, shapes) => ShapeIds(shapes) !! ids
    case Modify(_, _, initial) => ShapeIds(initial) <= ids
  }

  /** Cancelling raises no exception and doubles no shape exactly then, and then shows the cancelled canvas. */
  lemma {:induction false} CancelCleanIff(layer: seq<Shape>, before: Canvas, e: Edit)
    requires DistinctShapes(layer) && Fits(before, e)
    ensures var r := CancelOn(layer, e);
            && (!r.threw && DistinctShapes(r.layer) <==> Reachable(View(layer).Keys, e))
            && (!r.threw && DistinctShapes(r.layer) ==> View(r.layer) == Cancel(View(layer), e))
  {
    ViewOf(layer);
    match e
    case Add(_, shape) =>
      if shape.value.shapeId in View(layer) {
        DestroyOneView(layer, shape.value.shapeId);
      }
    case Remove(_, shapes) =>
      AddDoublesIff(layer, shapes);
      if ShapeIds(shapes) !! View(layer).Keys {
        AddAllView(layer, shapes);
      }
    case Modify(_, _, initial) =>
      SetAllThrowsIff(layer, initial);
      if ShapeIds(initial) <= View(layer).Keys {
        SetAllView(layer, initial);
      }
  }

  /**
   * No later edit concerns a shape of the edit at `k`; or the edit is a modification, and the shapes that later edits
   * concern are shown as they were before it.
   */
  ghost predicate Retractable(edits: seq<Edit>, k: nat)
    requires k < |edits|
  {
    forall id <- Concerns(edits[k]) :: ConcernedLater(edits, k, |edits|, id) ==>
      edits[k].Modify? && SameAt(Fold(edits), Fold(edits[..k]), id)
  }

  lemma {:induction false} FoundAndLeft(before: Canvas, e: Edit, id: Uuid)
    requires Fits(before, e) && id in Concerns(e)
    ensures e.Add? ==> id !in before && id in Apply(before, e)
    ensures e.Remove? ==> id in before && id !in Apply(before, e)
    ensures e.Modify? ==> id in before && id in Apply(before, e)
  {
    match e
    case Add(_, shape) => PutOne(before, shape.value);
    case Remove(_, shapes) =>
    case Modify(_, current, _) => PutKeys(before, current);
  }

  /** What the edit at `k` and the later ones say about one of its shapes. */
  lemma {:induction false} ShapeNow(edits: seq<Edit>, k: nat, id: Uuid)
    requires AllFit(edits) && k < |edits| && id in Concerns(edits[k])
    ensures Fits(Fold(edits[..k]), edits[k])
    ensures edits[k].Add? ==> id !in Fold(edits[..k])
    ensures !edits[k].Add? ==> id in Fold(edits[..k])
    ensures !ConcernedLater(edits, k, |edits|, id) ==> (id in Fold(edits) <==> !edits[k].Remove?)
  {
    hide Fits, AllFit, Fold, Apply, Concerns, ConcernedLater;
    LastDecides(edits, k, |edits|, id);
    AllFitPrefix(edits, k);
    assert edits[..|edits|] == edits && edits[..k + 1] == edits[..k] + [edits[k]];
    FoldAppend(edits[..k], edits[k]);
    FoundAndLeft(Fold(edits[..k]), edits[k], id);
  }

  lemma {:induction false} ReachableIds(ids: set<Uuid>, e: Edit, before: Canvas)
    requires Fits(before, e)
    ensures Reachable(ids, e) <==> forall id <- Concerns(e) :: id in ids <==> !e.Remove?
  {
    match e
    case Add(_, shape) => assert shape.value.shapeId in Concerns(e);
    case Remove(_, _) =>
    case Modify(_, current, initial) => assert Concerns(e) == ShapeIds(initial);
  }

  lemma {:induction false} RetractableIff(edits: seq<Edit>, k: nat)
    requires AllFit(edits) && k < |edits|
    ensures Retractable(edits, k) <==>
            Reachable(Fold(edits).Keys, edits[k]) && Cancel(Fold(edits), edits[k]) == Fold(Without(edits, k))
  {
    hide Fits, AllFit, Fold, Cancel, Concerns, ConcernedLater, Without, Reachable;
    var e := edits[k];
    CancelInsideIff(edits, k);
    AllFitPrefix(edits, k);
    ReachableIds(Fold(edits).Keys, e, Fold(edits[..k]));
    forall id | id in Concerns(e)
      ensures (ConcernedLater(edits, k, |edits|, id) ==> e.Modify? && SameAt(Fold(edits), Fold(edits[..k]), id)) <==>
              (id in Fold(edits) <==> !e.Remove?) &&
              (ConcernedLater(edits, k, |edits|, id) ==> SameAt(Fold(edits), Fold(edits[..k]), id))
    {
      ShapeNow(edits, k, id);
    }
  }

  /**
   * The canvas alone. Undoing the edit another user names moves it, raises no exception, doubles no shape and leaves
   * the canvas the fold of the current edits exactly when there is no such edit or it is retractable. The remaining
   * edits need not fit any more.
   */
  lemma {:induction false} UndoByIdDrawsIff(m: Manager, id: Uuid)
    requires Sound(m)
    ensures var m', i := UndoStep(m, Some(id)), LastIndex(m.history.current, id);
            m'.history == UndoReducer(m.history, Some(id)) && DistinctShapes(m'.layer)
            && View(m'.layer) == Fold(m'.history.current)
            <==> (i >= 0 ==> Retractable(m.history.current, i))
  {
    ConsistentParts(m.history);
    hide Fits, AllFit, Fold, Cancel, CancelOn, Consistent, Retractable, Reachable, DistinctShapes, View, Without;
    var i, edits := LastIndex(m.history.current, id), m.history.current;
    if i >= 0 {
      AllFitPrefix(edits, i);
      CancelCleanIff(m.layer, Fold(edits[..i]), edits[i]);
      RetractableIff(edits, i);
      ShorterWithout(edits, i);
    }
  }

  /** A shape changed and changed back: without the first change the canvas is right, but the second no longer fits. */
  lemma {:induction false} UndoByIdDrawsOnly(shape: Shape, changed: Shape, a: Uuid, b: Uuid, c: Uuid)
    requires shape.shapeId == changed.shapeId && shape != changed && a != b && b != c
    ensures var there, back := Modify(b, [changed], [shape]), Modify(c, [shape], [changed]);
            var m := Manager([shape], History([Add(a, Some(shape)), there, back], []));
            var m' := UndoStep(m, Some(b));
            && Sound(m) && m' == Manager([shape], History([Add(a, Some(shape)), back], [there]))
            && View(m'.layer) == Fold(m'.history.current) && !Undoable(m.history.current, 1) && !Sound(m')
  {
    var e, there, back := Add(a, Some(shape)), Modify(b, [changed], [shape]), Modify(c, [shape], [changed]);
    var edits := [e, there, back];
    var m := Manager([shape], History(edits, []));
    ThereAndBack(shape, changed, a, b, c);
    assert LastIndex(edits, b) == 1 by {
      assert edits[..2] == [e, there];
    }
    assert Without(edits, 1) == [e, back] && [] + [there] == [there];
    assert SetAll([shape], [shape]) == Effect([shape], false) by {
      SetOnly(shape, shape);
    }
    assert UndoStep(m, Some(b)) == Manager([shape], History([e, back], [there]));
    BackAgain(shape, changed, a, c);
    hide Sound, UndoStep, Fold, View;
    UndoByIdIff(m, b);
    assert shape.shapeId in Concerns(back) * Changes(there);
    assert !Independent(edits, 1, 3);
  }

  lemma {:induction false} SetOnly(shape: Shape, attrs: Shape)
    requires shape.shapeId == attrs.shapeId
    ensures SetAll([shape], [attrs]) == Effect([attrs], false)
  {
    assert [attrs][..0] == [] && FindOne([shape], attrs.shapeId) == 0;
    assert SetAll([shape], []) == Effect([shape], false);
    assert [shape][0 := attrs] == [attrs];
  }

  lemma {:induction false} BackAgain(shape: Shape, changed: Shape, a: Uuid, c: Uuid)
    ensures Fold([Add(a, Some(shape)), Modify(c, [shape], [changed])]) == View([shape])
  {
    var e, back := Add(a, Some(shape)), Modify(c, [shape], [changed]);
    FoldOne(shape, a);
    assert [e, back][..1] == [e];
    PutOne(Fold([e]), shape);
  }

  lemma {:induction false} ThereAndBack(shape: Shape, changed: Shape, a: Uuid, b: Uuid, c: Uuid)
    requires shape.shapeId == changed.shapeId
    ensures Sound(Manager([shape], History([Add(a, Some(shape)), Modify(b, [changed], [shape]),
                                            Modify(c, [shape], [changed])], [])))
  {
    var e, there, back := Add(a, Some(shape)), Modify(b, [changed], [shape]), Modify(c, [shape], [changed]);
    var m := Manager([changed], History([e, there], []));
    AddThenModify(shape, changed, a, b);
    PutOne(map[], changed);
    assert ShapeIds([shape]) == {shape.shapeId} == ShapeIds([changed]);
    assert Fits(View(m.layer), back);
    SetOnly(changed, shape);
    assert [e, there] + [back] == [e, there, back];
    NewEditIff(m, back);
  }

  lemma {:induction false} ShorterWithout(edits: seq<Edit>, i: nat)
    requires i < |edits|
    ensures Without(edits, i) != edits
  {
    assert |Without(edits, i)| == |edits| - 1;
  }

  /** Undoing an added shape by id after it was modified: the canvas is empty, the fold of what is left is not. */
  lemma {:induction false} UndoByIdDiverges(shape: Shape, changed: Shape, a: Uuid, b: Uuid)
    requires shape.shapeId == changed.shapeId && shape != changed && a != b
    ensures var m := Manager([changed], History([Add(a, Some(shape)), Modify(b, [changed], [shape])], []));
            var m' := UndoStep(m, Some(a));
            && Sound(m)
            && m' == Manager([], History([Modify(b, [changed], [shape])], [Add(a, Some(shape))]))
            && View(m'.layer) != Fold(m'.history.current)
  {
    var e, f := Add(a, Some(shape)), Modify(b, [changed], [shape]);
    AddThenModify(shape, changed, a, b);
    PutOne(map[], changed);
    assert [e, f][..1] == [e] && [f][..0] == [] && [e][..0] == [];
    assert LastIndex([e, f], a) == 0;
    assert Without([e, f], 0) == [f];
    assert DestroyOne([changed], shape.shapeId) == Effect([], false) by {
      assert FindOne([changed], shape.shapeId) == 0;
    }
    assert Fold([f]) == map[changed.shapeId := changed];
    assert changed.shapeId in Fold([f]) && View([]) == map[];
  }

  lemma {:induction false} AddThenModify(shape: Shape, changed: Shape, a: Uuid, b: Uuid)
    requires shape.shapeId == changed.shapeId
    ensures Sound(Manager([changed], History([Add(a, Some(shape)), Modify(b, [changed], [shape])], [])))
  {
    var e, f := Add(a, Some(shape)), Modify(b, [changed], [shape]);
    var edits := [e, f];
    assert edits[..0] == [] && edits[..1] == [e] && [e][..0] == [] && edits + Reverse([]) == edits;
    PutOne(map[], shape);
    PutOne(map[], changed);
    PutOne(Fold([e]), changed);
    assert Fold([e]) == map[shape.shapeId := shape];
    assert ShapeIds([changed]) == {shape.shapeId} == ShapeIds([shape]);
  }

  /** Deleting a shape without dropping an undone modification of it: the redo finds no shape and throws. */
  lemma {:induction false} DeleteThenRedoThrows(shape: Shape, changed: Shape, a: Uuid, b: Uuid, c: Uuid)
    requires shape.shapeId == changed.shapeId
    ensures var m := Manager([shape], History([Add(a, Some(shape))], [Modify(b, [changed], [shape])]));
            var m' := NewEditStep(m, Remove(c, [shape]));
            && Sound(m) && Fits(View(m.layer), Remove(c, [shape]))
            && m' == Manager([], History([Add(a, Some(shape)), Remove(c, [shape])], [Modify(b, [changed], [shape])]))
            && ApplyTo(m'.layer, m'.history.undone[0]).threw && !Sound(m')
            && RedoStep(m', None).history == m'.history
  {
    var e, f, g := Add(a, Some(shape)), Modify(b, [changed], [shape]), Remove(c, [shape]);
    AddThenModify(shape, changed, a, b);
    OneUndone(shape, changed, a, b);
    PutOne(map[], shape);
    assert [shape][..0] == [] && [changed][..0] == [] && [e] + [g] == [e, g];
    assert FindOne([shape], shape.shapeId) == 0 && FindOne([], changed.shapeId) == -1;
    assert DestroyAll([shape], [shape]) == Effect([], false);
    var m, m' := Manager([shape], History([e], [f])), NewEditStep(Manager([shape], History([e], [f])), g);
    assert Fits(View(m.layer), g);
    assert m' == Manager([], History([e, g], [f]));
    assert SetAll([], []) == Effect([], false) && SetAll([], [changed]).threw;
    assert ApplyTo(m'.layer, f).threw;
    if Sound(m') {
      ConsistentParts(m'.history);
      assert Fits(View(m'.layer), f);
      ApplyShows(m'.layer, f);
    }
  }

  lemma {:induction false} OneUndone(shape: Shape, changed: Shape, a: Uuid, b: Uuid)
    requires shape.shapeId == changed.shapeId
    ensures Sound(Manager([shape], History([Add(a, Some(shape))], [Modify(b, [changed], [shape])])))
  {
    var e, f := Add(a, Some(shape)), Modify(b, [changed], [shape]);
    AddThenModify(shape, changed, a, b);
    assert [e, f] + Reverse([]) == [e, f];
    assert [f][..0] == [] && Reverse([f]) == [f] + Reverse([]) == [f] && [e] + [f] == [e, f];
    assert [e][..0] == [];
    PutOne(map[], shape);
  }

  // Emptying the current edits

  function EmptyCurrentStep(m: Manager): Manager {
    m.(history := m.history.(current := []))
  }

  /** The handler of an emptied list leaves the canvas alone: right exactly when the current edits fold to nothing. */
  lemma {:induction false} EmptyCurrentIff(m: Manager)
    requires Sound(m)
    ensures Sound(EmptyCurrentStep(m)) <==> Fold(m.history.current) == map[]
  {
    if Fold(m.history.current) == map[] {
      EmptyConsistent(m.history);
    }
  }

  lemma {:induction false} EmptyConsistent(h: History)
    requires Consistent(h) && Fold(h.current) == map[]
    ensures Consistent(h.(current := []))
  {
    var tail := Reverse(h.undone);
    hide Fits;
    SameFoldFits(h.current, [], tail, |tail|);
    assert tail[..|tail|] == tail && [] + tail == tail;
  }

  /** One shape: after emptying, the canvas still shows it. */
  lemma {:induction false} EmptyCurrentDiverges(shape: Shape, a: Uuid)
    ensures var m := Manager([shape], History([Add(a, Some(shape))], []));
            Sound(m) && View(EmptyCurrentStep(m).layer) != Fold(EmptyCurrentStep(m).history.current)
  {
    var e := Add(a, Some(shape));
    assert [e][..0] == [] && [e] + Reverse([]) == [e];
    PutOne(map[], shape);
  }

  // Runs

  datatype Action = Rebase | NewEdit(e: Edit) | UndoLast | RedoLast | UndoById(id: Uuid)

  function Act(m: Manager, action: Action): Manager {
    match action
    case Rebase => RebaseStep(m)
    case NewEdit(e) => NewEditStep(m, e)
    case UndoLast => UndoStep(m, None)
    case RedoLast => RedoStep(m, None)
    case UndoById(id) => UndoStep(m, Some(id))
  }

  /**
   * New edits fit the canvas and change no shape that an undone edit concerns; an undo by id names an undoable edit
   * or none.
   */
  ghost predicate ActionOk(m: Manager, action: Action) {
    match action
    case NewEdit(e) => Fits(View(m.layer), e) && Spares(m.history.undone, e)
    case UndoById(id) =>
      var i := LastIndex(m.history.current, id);
      i >= 0 ==> Undoable(m.history.current, i)
    case _ => true
  }

  function ActAll(m: Manager, actions: seq<Action>): Manager {
    if actions == [] then m else Act(ActAll(m, actions[..|actions| - 1]), actions[|actions| - 1])
  }

  ghost predicate ActionsOk(m: Manager, actions: seq<Action>) {
    forall k :: 0 <= k < |actions| ==> ActionOk(ActAll(m, actions[..k]), actions[k])
  }

  /** Over every run from a sound state the canvas is the fold of the current edits. */
  lemma {:induction false} CanvasIsFold(m: Manager, actions: seq<Action>)
    requires Sound(m) && ActionsOk(m, actions)
    ensures Sound(ActAll(m, actions))
    ensures View(ActAll(m, actions).layer) == Fold(ActAll(m, actions).history.current)
  {
    if actions != [] {
      var before, last := actions[..|actions| - 1], actions[|actions| - 1];
      assert forall k :: 0 <= k < |before| ==> before[..k] == actions[..k] && before[k] == actions[k];
      CanvasIsFold(m, before);
      match last
      case Rebase => RebaseSound(ActAll(m, before));
      case NewEdit(e) => NewEditIff(ActAll(m, before), e);
      case UndoLast => UndoLastSound(ActAll(m, before));
      case RedoLast => RedoLastSound(ActAll(m, before));
      case UndoById(id) => UndoByIdSound(ActAll(m, before), id);
    }
  }

  function UndoMany(m: Manager, n: nat): Manager
    decreases n
  {
    if n == 0 then m else UndoMany(UndoStep(m, None), n - 1)
  }

  function RedoMany(m: Manager, n: nat): Manager {
    if n == 0 then m else RedoStep(RedoMany(m, n - 1), None)
  }

  /** As many redos as undos give back both lists and the canvas. */
  lemma {:induction false} UndoRedoRestores(m: Manager, n: nat)
    requires Sound(m) && n <= |m.history.current|
    ensures var m' := RedoMany(UndoMany(m, n), n);
            Sound(m') && m'.history == m.history && View(m'.layer) == View(m.layer)
    decreases n
  {
    hide Consistent, UndoStep, RedoStep, RedoReducer, Fold, View, DistinctShapes;
    if n > 0 {
      var undone := UndoStep(m, None);
      UndoLastSound(m);
      UndoRedoRestores(undone, n - 1);
      var back := RedoMany(UndoMany(undone, n - 1), n - 1);
      RedoLastSound(back);
      UndoThenRedo(m.history);
    }
  }

  lemma {:induction false} UndoThenRedo(h: History)
    requires h.current != []
    ensures RedoReducer(UndoReducer(h, None), None) == h
  {
    var rest, e := h.current[..|h.current| - 1], h.current[|h.current| - 1];
    assert Without(h.current, |h.current| - 1) == rest && rest + [e] == h.current;
    assert Without(h.undone + [e], |h.undone|) == h.undone;
  }

  // Redo with an id

  /** Redoing by the id of the last undone edit is redoing. */
  lemma {:induction false} RedoByLastId(m: Manager, id: Uuid)
    requires m.history.undone != [] && m.history.undone[|m.history.undone| - 1].id == id
    ensures RedoStep(m, Some(id)) == RedoStep(m, None)
  {
    assert LastIndex(m.history.undone, id) == |m.history.undone| - 1;
  }

  /** Redoing by id moves the named edit exactly when it is the last undone one, or when there is none to move. */
  lemma {:induction false} RedoByIdIff(m: Manager, id: Uuid)
    requires var i := LastIndex(m.history.undone, id); i >= 0 ==> !ApplyTo(m.layer, m.history.undone[i]).threw
    ensures RedoStep(m, Some(id)).history == RedoReducer(m.history, Some(id)) <==>
            id !in Ids(m.history.undone) || m.history.undone[|m.history.undone| - 1].id == id
  {
    hide ApplyTo;
    var h, i := m.history, LastIndex(m.history.undone, id);
    if i >= 0 {
      var last := |h.undone| - 1;
      assert RedoReducer(h, None).current[|h.current|] == h.undone[last];
      assert RedoReducer(h, Some(id)).current[|h.current|] == h.undone[i];
    }
  }

  lemma {:induction false} TwoUndone(first: Shape, second: Shape, a: Uuid, b: Uuid)
    requires first.shapeId != second.shapeId
    ensures Sound(Manager([], History([], [Add(b, Some(second)), Add(a, Some(first))])))
  {
    var e, f := Add(a, Some(first)), Add(b, Some(second));
    FoldOne(first, a);
    assert View([]) == map[] == Fold([]);
    hide Apply, Put, View, Fold;
    assert Reverse([f]) == [f] by { assert [f][..0] == [] && Reverse([]) == [] && [f] + [] == [f]; }
    assert [f, e][..1] == [f] && Reverse([f, e]) == [e] + [f];
    assert [] + Reverse([f, e]) == [e, f];
    assert [e, f][..1] == [e] && [e, f][..0] == [];
    assert AllFit([e, f]);
  }

  lemma {:induction false} FoldOne(shape: Shape, id: Uuid)
    ensures Fold([Add(id, Some(shape))]) == map[shape.shapeId := shape] == View([shape])
  {
    PutOne(map[], shape);
    assert [Add(id, Some(shape))][..0] == [];
  }

  /** Redoing by another id applies one edit and records another: two added shapes, the first undone last. */
  lemma {:induction false} RedoByIdDiverges(first: Shape, second: Shape, a: Uuid, b: Uuid)
    requires first.shapeId != second.shapeId && a != b
    ensures var m := Manager([], History([], [Add(b, Some(second)), Add(a, Some(first))]));
            var m' := RedoStep(m, Some(b));
            && Sound(m)
            && m' == Manager([second], History([Add(a, Some(first))], [Add(b, Some(second))]))
            && View(m'.layer) != Fold(m'.history.current)
  {
    var e, f := Add(a, Some(first)), Add(b, Some(second));
    TwoUndone(first, second, a, b);
    FoldOne(first, a);
    FoldOne(second, b);
    hide Sound, Fold, View;
    assert [f, e][..1] == [f] && LastIndex([f], b) == 0;
    assert LastIndex([f, e], b) == 0;
    assert Without([f, e], 1) == [f] && [] + [e] == [e] && [] + [second] == [second];
    assert second.shapeId in map[second.shapeId := second] && second.shapeId !in map[first.shapeId := first];
  }

  // The manager object

  class EditManager {
    var children: seq<Shape>
    const store: HistoryStore

    function State(): Manager
      reads this, store
    {
      Manager(children, store.Lists())
    }

    constructor (store: HistoryStore)
      requires store.Lists() == EMPTY
      ensures this.store == store && State() == Manager([], EMPTY) && Sound(State())
    {
      this.store := store;
      children := [];
      new;
      assert Reverse([]) == [];
    }

    method SetAttrs(shapes: seq<Shape>) returns (threw: bool)
      modifies this`children
      ensures Effect(children, threw) == SetAll(old(children), shapes)
    {
      for k := 0 to |shapes|
        invariant Effect(children, false) == SetAll(old(children), shapes[..k])
      {
        var i := FindOne(children, shapes[k].shapeId);
        ThrowStops(old(children), shapes, k);
        if i < 0 {
          return true;
        }
        children := children[i := shapes[k]];
      }
      assert shapes[..|shapes|] == shapes;
      return false;
    }

    method Destroy(shapes: seq<Shape>) returns (threw: bool)
      modifies this`children
      ensures Effect(children, threw) == DestroyAll(old(children), shapes)
    {
      for k := 0 to |shapes|
        invariant Effect(children, false) == DestroyAll(old(children), shapes[..k])
      {
        var i := FindOne(children, shapes[k].shapeId);
        ThrowStops(old(children), shapes, k);
        if i < 0 {
          return true;
        }
        children := children[..i] + children[i + 1..];
      }
      assert shapes[..|shapes|] == shapes;
      return false;
    }

    method Insert(shapes: seq<Shape>)
      modifies this`children
      ensures children == old(children) + shapes
    {
      for k := 0 to |shapes|
        invariant children == old(children) + shapes[..k]
      {
        children := children + [shapes[k]];
      }
    }

    method ApplyEdit(edit: Edit) returns (threw: bool)
      modifies this`children
      ensures Effect(children, threw) == ApplyTo(old(children), edit)
    {
      match edit {
        case Add(_, shape) =>
          if shape.None? {
            return true;
          }
          children := children + [shape.value];
          return false;
        case Remove(_, shapes) =>
          threw := Destroy(shapes);
        case Modify(_, current, _) =>
          threw := SetAttrs(current);
      }
    }

    method CancelEdit(edit: Edit) returns (threw: bool)
      modifies this`children
      ensures Effect(children, threw) == CancelOn(old(children), edit)
    {
      match edit {
        case Add(_, shape) =>
          if shape.None? {
            return true;
          }
          var i := FindOne(children, shape.value.shapeId);
          if i < 0 {
            return true;
          }
          children := children[..i] + children[i + 1..];
          return false;
        case Remove(_, shapes) =>
          Insert(shapes);
          return false;
        case Modify(_, _, initial) =>
          threw := SetAttrs(initial);
      }
    }

    method Rebase()
      modifies store
      ensures State() == RebaseStep(old(State()))
    {
      store.EmptyUndone();
    }

    /** What deleting a selection and inserting an image do: apply, then record. */
    method NewEdit(edit: Edit) returns (threw: bool)
      modifies this`children, store
      ensures State() == NewEditStep(old(State()), edit)
      ensures threw <==> ApplyTo(old(children), edit).threw
      ensures store.Lists() == if threw then old(store.Lists())
                               else History(old(store.current) + [edit], old(store.undone))
    {
      threw := ApplyEdit(edit);
      if !threw {
        store.AddCurrent(edit);
      }
    }

    method Undo(editId: Option<Uuid>) returns (threw: bool)
      modifies this`children, store
      ensures State() == UndoStep(old(State()), editId)
      ensures var i := Chosen(old(store.current), editId);
              threw <==> i >= 0 && CancelOn(old(children), old(store.current)[i]).threw
      ensures store.Lists() == if threw then old(store.Lists()) else UndoReducer(old(store.Lists()), editId)
    {
      var i := Chosen(store.current, editId);
      if i < 0 {
        return false;
      }
      threw := CancelEdit(store.current[i]);
      if !threw {
        store.Undo(editId);
      }
    }

    method Redo(editId: Option<Uuid>) returns (threw: bool)
      modifies this`children, store
      ensures State() == RedoStep(old(State()), editId)
      ensures var i := Chosen(old(store.undone), editId);
              && (threw <==> i >= 0 && ApplyTo(old(children), old(store.undone)[i]).threw)
              && store.Lists() == if threw || i < 0 then old(store.Lists()) else RedoReducer(old(store.Lists()), None)
    {
      var i := Chosen(store.undone, editId);
      if i < 0 {
        return false;
      }
      threw := ApplyEdit(store.undone[i]);
      if !threw {
        store.Redo(None);
      }
    }
  }

  /** The loops over shapes end at the first one that is not found. */
  lemma {:induction false} ThrowStops(layer: seq<Shape>, shapes: seq<Shape>, k: nat)
    requires k < |shapes|
    ensures shapes[..k + 1] == shapes[..k] + [shapes[k]]
    ensures SetAll(layer, shapes[..k + 1]).threw ==> SetAll(layer, shapes) == SetAll(layer, shapes[..k + 1])
    ensures DestroyAll(layer, shapes[..k + 1]).threw ==> DestroyAll(layer, shapes) == DestroyAll(layer, shapes[..k + 1])
    ensures !SetAll(layer, shapes[..k]).threw ==>
              SetAll(layer, shapes[..k + 1]) == SetOne(SetAll(layer, shapes[..k]).layer, shapes[k])
    ensures !DestroyAll(layer, shapes[..k]).threw ==>
              DestroyAll(layer, shapes[..k + 1]) == DestroyOne(DestroyAll(layer, shapes[..k]).layer, shapes[k].shapeId)
    decreases |shapes|
  {
    assert shapes[..k + 1][..k] == shapes[..k];
    if k + 1 < |shapes| {
      var before := shapes[..|shapes| - 1];
      assert before[..k + 1] == shapes[..k + 1];
      ThrowStops(layer, before, k);
    } else {
      assert shapes[..k + 1] == shapes;
    }
  }
}
