/** The order of the shapes on the layer: which undos leave it as a client drawing the current edits afresh has it. */
module Stacking {
  import opened Wrappers
  import opened Edits
  import opened Histories
  import opened ClientHistory
  import opened Canvases
  import opened EditManagers
  import opened Pulls
  import opened RoomMachine
  import opened Viewers
  import opened ViewerCanvases
  import opened EditorRuns

  /** The ids of the shapes, the topmost last. */
  function Order(layer: seq<Shape>): (order: seq<Uuid>)
    ensures |order| == |layer| && forall i :: 0 <= i < |layer| ==> order[i] == layer[i].shapeId
  {
    if layer == [] then [] else Order(layer[..|layer| - 1]) + [layer[|layer| - 1].shapeId]
  }

  function Minus(order: seq<Uuid>, ids: set<Uuid>): seq<Uuid> {
    if order == [] then []
    else
      var rest, top := Minus(order[..|order| - 1], ids), order[|order| - 1];
      if top in ids then rest else rest + [top]
  }

  /** An added shape goes on top, a removed one leaves its place, a modified one keeps it. */
  function Reordered(order: seq<Uuid>, e: Edit): seq<Uuid> {
    match e
    case Add(_, shape) => if shape.Some? then order + [shape.value.shapeId] else order
    case Remove(_, shapes) => Minus(order, ShapeIds(shapes))
    case Modify(_, _, _) => order
  }

  function ReorderedAll(order: seq<Uuid>, edits: seq<Edit>): seq<Uuid> {
    if edits == [] then order else Reordered(ReorderedAll(order, edits[..|edits| - 1]), edits[|edits| - 1])
  }

  /** The layer of a client that draws the edits one after the other. */
  function Stack(edits: seq<Edit>): seq<Shape> {
    if edits == [] then [] else ApplyTo(Stack(edits[..|edits| - 1]), edits[|edits| - 1]).layer
  }

  // Sequences of ids

  lemma {:induction false} MinusConcat(xs: seq<Uuid>, ys: seq<Uuid>, ids: set<Uuid>)
    ensures Minus(xs + ys, ids) == Minus(xs, ids) + Minus(ys, ids)
  {
    if ys == [] {
      assert xs + ys == xs;
    } else {
      assert (xs + ys)[..|xs + ys| - 1] == xs + ys[..|ys| - 1];
      MinusConcat(xs, ys[..|ys| - 1], ids);
    }
  }

  lemma {:induction false} MinusOne(x: Uuid, ids: set<Uuid>)
    ensures Minus([x], ids) == if x in ids then [] else [x]
  {
    assert [x][..0] == [] && Minus([], ids) == [];
  }

  lemma {:induction false} MinusNone(xs: seq<Uuid>, ids: set<Uuid>)
    requires forall x <- xs :: x !in ids
    ensures Minus(xs, ids) == xs
  {
    if xs != [] {
      MinusNone(xs[..|xs| - 1], ids);
      assert xs[|xs| - 1] in xs;
    }
  }

  lemma {:induction false} MinusAll(xs: seq<Uuid>, ids: set<Uuid>)
    requires forall x <- xs :: x in ids
    ensures Minus(xs, ids) == []
  {
    if xs != [] {
      MinusAll(xs[..|xs| - 1], ids);
      assert xs[|xs| - 1] in xs;
    }
  }

  lemma {:induction false} MinusTwice(xs: seq<Uuid>, a: set<Uuid>, b: set<Uuid>)
    ensures Minus(Minus(xs, a), b) == Minus(xs, a + b)
  {
    if xs != [] {
      var rest, top := xs[..|xs| - 1], xs[|xs| - 1];
      MinusTwice(rest, a, b);
      MinusConcat(Minus(rest, a), [top], b);
      MinusOne(top, b);
    }
  }

  ghost predicate NoTwice(order: seq<Uuid>) {
    forall i, j :: 0 <= i < j < |order| ==> order[i] != order[j]
  }

  lemma {:induction false} MinusAt(order: seq<Uuid>, i: nat)
    requires NoTwice(order) && i < |order|
    ensures Minus(order, {order[i]}) == order[..i] + order[i + 1..]
  {
    var rest, top := order[..|order| - 1], order[|order| - 1];
    if i == |rest| {
      assert forall x <- rest :: x != top;
      MinusNone(rest, {top});
    } else {
      assert rest[i] == order[i] != top;
      MinusAt(rest, i);
      assert order[i + 1..] == rest[i + 1..] + [top];
    }
  }

  // Where the shapes go on the layer

  lemma {:induction false} OrderIds(layer: seq<Shape>, x: Uuid)
    ensures x in Order(layer) <==> x in ShapeIds(layer)
  {
    if x in Order(layer) {
      var i :| 0 <= i < |layer| && Order(layer)[i] == x;
      assert layer[i] in layer;
    }
    if x in ShapeIds(layer) {
      assert Order(layer)[FindOne(layer, x)] == x;
    }
  }

  lemma {:induction false} DestroyOneOrder(layer: seq<Shape>, id: Uuid)
    requires DistinctShapes(layer) && id in ShapeIds(layer)
    ensures Order(DestroyOne(layer, id).layer) == Minus(Order(layer), {id})
  {
    var i, order := FindOne(layer, id), Order(layer);
    assert Order(layer[..i] + layer[i + 1..]) == order[..i] + order[i + 1..];
    MinusAt(order, i);
  }

  lemma {:induction false} DestroyAllOrder(layer: seq<Shape>, shapes: seq<Shape>)
    requires DistinctShapes(layer) && DistinctShapes(shapes) && ShapeIds(shapes) <= ShapeIds(layer)
    ensures Order(DestroyAll(layer, shapes).layer) == Minus(Order(layer), ShapeIds(shapes))
  {
    hide Minus, Order, DistinctShapes, DestroyOne, View;
    if shapes == [] {
      assert ShapeIds(shapes) == {};
      MinusNone(Order(layer), {});
    } else {
      var rest, last := shapes[..|shapes| - 1], shapes[|shapes| - 1];
      assert shapes == rest + [last];
      ShapeIdsAppend(rest, last);
      DistinctAppend(rest, last);
      ViewOf(layer);
      DestroyAllView(layer, rest);
      DestroyAllOrder(layer, rest);
      ViewOf(DestroyAll(layer, rest).layer);
      DestroyOneOrder(DestroyAll(layer, rest).layer, last.shapeId);
      MinusTwice(Order(layer), ShapeIds(rest), {last.shapeId});
    }
  }

  lemma {:induction false} SetAllOrder(layer: seq<Shape>, attrs: seq<Shape>)
    ensures Order(SetAll(layer, attrs).layer) == Order(layer)
  {
    if attrs != [] {
      SetAllOrder(layer, attrs[..|attrs| - 1]);
    }
  }

  /** What applying a fitting edit does to the order. */
  lemma {:induction false} ApplyOrder(layer: seq<Shape>, e: Edit)
    requires DistinctShapes(layer) && Fits(View(layer), e)
    ensures Order(ApplyTo(layer, e).layer) == Reordered(Order(layer), e)
  {
    match e
    case Add(_, _) =>
    case Remove(_, shapes) =>
      ViewOf(layer);
      DestroyAllOrder(layer, shapes);
    case Modify(_, current, _) => SetAllOrder(layer, current);
  }

  /** Layers without doubled shapes that show the same canvas in the same order are the same. */
  lemma {:induction false} SameLayer(xs: seq<Shape>, ys: seq<Shape>)
    requires DistinctShapes(xs) && Order(xs) == Order(ys) && View(xs) == View(ys)
    ensures xs == ys
  {
    assert |xs| == |ys|;
    forall i, j | 0 <= i < j < |ys| ensures ys[i].shapeId != ys[j].shapeId {
      assert Order(ys)[i] == xs[i].shapeId && Order(ys)[j] == xs[j].shapeId;
    }
    ViewOf(xs);
    ViewOf(ys);
    forall i | 0 <= i < |xs| ensures xs[i] == ys[i] {
      assert Order(xs)[i] == Order(ys)[i];
    }
  }

  lemma {:induction false} StackShows(edits: seq<Edit>)
    requires AllFit(edits)
    ensures DistinctShapes(Stack(edits)) && View(Stack(edits)) == Fold(edits)
    ensures Order(Stack(edits)) == ReorderedAll([], edits)
  {
    hide Fits, AllFit, Apply, ApplyTo, View, DistinctShapes, Reordered;
    if edits == [] {
      EmptyLayer();
    } else {
      var last := |edits| - 1;
      AllFitPrefix(edits, last);
      StackShows(edits[..last]);
      ApplyShows(Stack(edits[..last]), edits[last]);
      ApplyOrder(Stack(edits[..last]), edits[last]);
    }
  }

  lemma {:induction false} EmptyLayer()
    ensures DistinctShapes([]) && View([]) == map[]
  {
  }

  /** The manager's layer is the one of a client that draws its current edits afresh. */
  predicate Stacked(m: Manager) {
    m.layer == Stack(m.history.current)
  }

  lemma {:induction false} StackedIff(m: Manager)
    requires Sound(m)
    ensures Stacked(m) <==> Order(m.layer) == ReorderedAll([], m.history.current)
  {
    ConsistentParts(m.history);
    StackShows(m.history.current);
    if Order(m.layer) == ReorderedAll([], m.history.current) {
      SameLayer(m.layer, Stack(m.history.current));
    }
  }

  // Undoing an edit

  lemma {:induction false} ReorderedConcat(order: seq<Uuid>, xs: seq<Edit>, ys: seq<Edit>)
    ensures ReorderedAll(order, xs + ys) == ReorderedAll(ReorderedAll(order, xs), ys)
  {
    if ys == [] {
      assert xs + ys == xs;
    } else {
      assert (xs + ys)[..|xs + ys| - 1] == xs + ys[..|ys| - 1];
      ReorderedConcat(order, xs, ys[..|ys| - 1]);
    }
  }

  /** Edits of other shapes reorder alike with and without the shapes in `ids`. */
  lemma {:induction false} OthersAlike(order: seq<Uuid>, ids: set<Uuid>, tail: seq<Edit>)
    requires forall e <- tail :: Concerns(e) !! ids
    ensures ReorderedAll(Minus(order, ids), tail) == Minus(ReorderedAll(order, tail), ids)
  {
    if tail != [] {
      var rest, e := tail[..|tail| - 1], tail[|tail| - 1];
      assert e in tail;
      OthersAlike(order, ids, rest);
      var all := ReorderedAll(order, rest);
      match e
      case Add(_, shape) =>
        if shape.Some? {
          MinusConcat(all, [shape.value.shapeId], ids);
          MinusOne(shape.value.shapeId, ids);
        }
      case Remove(_, shapes) =>
        MinusTwice(all, ids, ShapeIds(shapes));
        MinusTwice(all, ShapeIds(shapes), ids);
        assert ids + ShapeIds(shapes) == ShapeIds(shapes) + ids;
      case Modify(_, _, _) =>
    }
  }

  /** The listed ids are the last ones. */
  predicate OnTop(order: seq<Uuid>, ids: seq<Uuid>) {
    |ids| <= |order| && order[|order| - |ids|..] == ids
  }

  lemma {:induction false} TopApart(order: seq<Uuid>, n: nat)
    requires NoTwice(order) && n <= |order|
    ensures forall x <- order[..n] :: x !in order[n..]
  {
    forall x | x in order[..n] ensures x !in order[n..] {
      var i :| 0 <= i < n && order[i] == x;
      assert forall j :: 0 <= j < |order| - n ==> order[n..][j] == order[n + j];
    }
  }

  /** Putting the ids back on top gives the old order exactly when they were on top. */
  lemma {:induction false} PutBackIff(order: seq<Uuid>, top: seq<Uuid>, ids: set<Uuid>)
    requires NoTwice(order) && forall x :: x in top <==> x in ids
    ensures Minus(order, ids) + top == order <==> OnTop(order, top)
  {
    hide Minus, NoTwice;
    if OnTop(order, top) {
      var n := |order| - |top|;
      assert order == order[..n] + top;
      TopApart(order, n);
      MinusConcat(order[..n], top, ids);
      MinusNone(order[..n], ids);
      MinusAll(top, ids);
    } else {
      assert (Minus(order, ids) + top)[|Minus(order, ids)|..] == top;
    }
  }

  /** After undoing it, a removal's shapes lie on top: they lay there without it too. */
  predicate Restacks(edits: seq<Edit>, k: nat)
    requires k < |edits|
  {
    edits[k].Remove? ==> OnTop(ReorderedAll([], Without(edits, k)), Order(edits[k].shapes))
  }

  lemma {:induction false} CancelOrder(layer: seq<Shape>, e: Edit)
    requires DistinctShapes(layer) && Applied(View(layer), e)
    ensures Order(CancelOn(layer, e).layer)
            == match e
               case Add(_, shape) => Minus(Order(layer), {shape.value.shapeId})
               case Remove(_, shapes) => Order(layer) + Order(shapes)
               case Modify(_, _, _) => Order(layer)
  {
    match e
    case Add(_, shape) =>
      ViewOf(layer);
      DestroyOneOrder(layer, shape.value.shapeId);
    case Remove(_, _) =>
    case Modify(_, _, initial) => SetAllOrder(layer, initial);
  }

  lemma {:induction false} StackNoTwice(edits: seq<Edit>)
    requires AllFit(edits)
    ensures NoTwice(ReorderedAll([], edits))
    ensures forall x :: x in ReorderedAll([], edits) <==> x in Fold(edits)
  {
    hide ReorderedAll, AllFit, Fold;
    StackShows(edits);
    ViewOf(Stack(edits));
    forall x ensures x in Order(Stack(edits)) <==> x in ShapeIds(Stack(edits)) {
      OrderIds(Stack(edits), x);
    }
  }

  lemma {:induction false} OrderAround(edits: seq<Edit>, k: nat)
    requires k < |edits|
    ensures var start, tail := ReorderedAll([], edits[..k]), edits[k + 1..];
            && ReorderedAll([], edits) == ReorderedAll(Reordered(start, edits[k]), tail)
            && ReorderedAll([], Without(edits, k)) == ReorderedAll(start, tail)
  {
    var head, e, tail := edits[..k], edits[k], edits[k + 1..];
    assert edits == head + [e] + tail;
    ReorderedConcat([], head + [e], tail);
    ReorderedConcat([], head, tail);
    assert (head + [e])[..|head|] == head;
  }

  lemma {:induction false} TailApart(edits: seq<Edit>, k: nat)
    requires k < |edits| && Independent(edits, k, |edits|)
    ensures forall later <- edits[k + 1..] :: Concerns(later) !! Changes(edits[k])
  {
    hide Concerns, Changes;
    var tail := edits[k + 1..];
    forall later | later in tail ensures Concerns(later) !! Changes(edits[k]) {
      var j :| 0 <= j < |tail| && tail[j] == later;
      assert edits[k + 1 + j] == later;
    }
  }

  /** The order of the current edits with the edit at `k`, from the one without it. */
  lemma {:induction false} OrderWith(edits: seq<Edit>, k: nat)
    requires AllFit(edits) && k < |edits| && Independent(edits, k, |edits|)
    ensures var with, without := ReorderedAll([], edits), ReorderedAll([], Without(edits, k));
            match edits[k]
            case Add(_, shape) => shape.Some? && without == Minus(with, {shape.value.shapeId})
            case Remove(_, shapes) => with == Minus(without, ShapeIds(shapes))
            case Modify(_, _, _) => with == without
  {
    var start, e, tail := ReorderedAll([], edits[..k]), edits[k], edits[k + 1..];
    OrderAround(edits, k);
    TailApart(edits, k);
    AllFitPrefix(edits, k);
    StackNoTwice(edits[..k]);
    hide ReorderedAll, Minus, AllFit, Fold, Independent, Without, NoTwice;
    match e
    case Add(_, shape) =>
      var x := shape.value.shapeId;
      MinusConcat(start, [x], {x});
      MinusOne(x, {x});
      MinusNone(start, {x});
      OthersAlike(start + [x], {x}, tail);
    case Remove(_, shapes) => OthersAlike(start, ShapeIds(shapes), tail);
    case Modify(_, _, _) =>
  }

  /**
   * Cancelling an undoable edit gives the layer of a client that draws the other edits afresh, exactly when the edit
   * is no removal, or what it removed lies on top without it, in the listed order.
   */
  lemma {:induction false} CancelStacksIff(m: Manager, i: nat)
    requires Sound(m) && Stacked(m) && i < |m.history.current| && Undoable(m.history.current, i)
    ensures CancelOn(m.layer, m.history.current[i]).layer == Stack(Without(m.history.current, i))
            <==> Restacks(m.history.current, i)
  {
    var edits, e, rest := m.history.current, m.history.current[i], Without(m.history.current, i);
    ConsistentParts(m.history);
    hide Fits, Applied, AllFit, Consistent, Fold, View, Apply, Cancel, CancelOn, Minus, Order, ReorderedAll, Stack;
    CancelInside(edits, i);
    StackShows(edits);
    StackShows(rest);
    StackNoTwice(rest);
    CancelShows(m.layer, e);
    CancelOrder(m.layer, e);
    OrderWith(edits, i);
    if e.Remove? {
      OrderIdsAll(e.shapes);
      PutBackIff(ReorderedAll([], rest), Order(e.shapes), ShapeIds(e.shapes));
    }
    if Order(CancelOn(m.layer, e).layer) == Order(Stack(rest)) {
      SameLayer(CancelOn(m.layer, e).layer, Stack(rest));
    }
  }

  lemma {:induction false} OrderIdsAll(layer: seq<Shape>)
    ensures forall x :: x in Order(layer) <==> x in ShapeIds(layer)
  {
    forall x ensures x in Order(layer) <==> x in ShapeIds(layer) {
      OrderIds(layer, x);
    }
  }

  lemma {:induction false} UndoStacksIff(m: Manager, id: Option<Uuid>)
    requires Sound(m) && Stacked(m)
    requires id.Some? && LastIndex(m.history.current, id.value) >= 0
             ==> Undoable(m.history.current, LastIndex(m.history.current, id.value))
    ensures var i := Chosen(m.history.current, id);
            Stacked(UndoStep(m, id)) <==> (i >= 0 ==> Restacks(m.history.current, i))
  {
    var i := Chosen(m.history.current, id);
    if i >= 0 {
      if id.None? {
        LastUndoable(m.history);
        UndoLastSound(m);
      } else {
        UndoByIdSound(m, id.value);
      }
      CancelStacksIff(m, i);
      ConsistentParts(m.history);
      hide Consistent, Restacks, Stack, Fold;
      CancelShows(m.layer, m.history.current[i]);
    }
  }

  lemma {:induction false} RedoStacks(m: Manager)
    requires Sound(m) && Stacked(m)
    ensures Stacked(RedoStep(m, None))
  {
    var h := m.history;
    if h.undone != [] {
      var e := h.undone[|h.undone| - 1];
      ConsistentParts(h);
      hide Fits, AllFit, Consistent, Fold, View;
      ApplyShows(m.layer, e);
      assert (h.current + [e])[..|h.current|] == h.current;
    }
  }

  lemma {:induction false} NewEditStacks(m: Manager, e: Edit)
    requires Sound(m) && Stacked(m) && Fits(View(m.layer), e)
    ensures Stacked(NewEditStep(m, e))
  {
    hide Fits, Consistent, Fold, View, ApplyTo;
    ApplyShows(m.layer, e);
    assert (m.history.current + [e])[..|m.history.current|] == m.history.current;
  }

  // Runs

  /** An undo of a removal finds the removed shapes' places on top. */
  predicate StackOk(m: Manager, action: Action) {
    var edits := m.history.current;
    match action
    case UndoLast => edits != [] ==> Restacks(edits, |edits| - 1)
    case UndoById(id) => LastIndex(edits, id) >= 0 ==> Restacks(edits, LastIndex(edits, id))
    case _ => true
  }

  /** One action keeps the layer the freshly drawn one exactly when it is no undo of a removal from below. */
  lemma {:induction false} ActStacksIff(m: Manager, action: Action)
    requires Sound(m) && Stacked(m) && ActionOk(m, action)
    ensures Stacked(Act(m, action)) <==> StackOk(m, action)
  {
    hide Sound, Fits, Undoable, Restacks, UndoStep, RedoStep, NewEditStep, Stack;
    match action
    case NewEdit(e) => NewEditStacks(m, e);
    case UndoLast => UndoStacksIff(m, None);
    case RedoLast => RedoStacks(m);
    case UndoById(id) => UndoStacksIff(m, Some(id));
    case Rebase =>
  }

  /** Over every run without such an undo, the layer is the freshly drawn one, shape for shape and in order. */
  lemma {:induction false} LayerIsStack(m: Manager, actions: seq<Action>)
    requires Sound(m) && Stacked(m) && ActionsOk(m, actions)
    requires forall k :: 0 <= k < |actions| ==> StackOk(ActAll(m, actions[..k]), actions[k])
    ensures Stacked(ActAll(m, actions))
  {
    hide Sound, Stacked, ActionOk, StackOk, Act;
    if actions != [] {
      var before, last := actions[..|actions| - 1], actions[|actions| - 1];
      assert forall k :: 0 <= k < |before| ==> before[..k] == actions[..k] && before[k] == actions[k];
      CanvasIsFold(m, before);
      LayerIsStack(m, before);
      ActStacksIff(ActAll(m, before), last);
    }
  }

  // Viewers

  lemma {:induction false} PushesStack(m: Manager, data: seq<Edit>)
    requires Sound(m) && Stacked(m) && AllFit(m.history.current + data)
    ensures !ShowPushes(m, data).threw && Stacked(ShowPushes(m, data).manager)
  {
    hide AllFit, Fold, ApplyTo, DistinctShapes, View, Consistent;
    var current := m.history.current;
    PushesShow(m, data);
    if data != [] {
      var rest, e := data[..|data| - 1], data[|data| - 1];
      assert (current + data)[..|current + rest|] == current + rest;
      AllFitPrefix(current + data, |current + rest|);
      PushesShow(m, rest);
      PushesStack(m, rest);
      assert current + data == current + rest + [e];
      assert (current + data)[..|current + data| - 1] == current + rest;
    }
  }

  /** A whole history, as the answer to a first pull. */
  function Whole(h: History): PullData {
    PullData(EditData(h.current, []), EditData(h.undone, []))
  }

  lemma {:induction false} FirstPullStacks(h: History)
    requires Consistent(h)
    ensures ShowPull(Manager([], EMPTY), Whole(h)) == Shown(Manager(Stack(h.current), h), false)
  {
    EmptySound();
    ConsistentParts(h);
    assert [] + h.current == h.current && [] + h.undone == h.undone;
    hide Sound, AllFit, Consistent, Stack;
    EmptyStack();
    PushesStack(Manager([], EMPTY), h.current);
    PushesRecorded(Manager([], EMPTY), h.current);
    NothingDeleted(ShowPushes(Manager([], EMPTY), h.current).manager, h.undone);
  }

  lemma {:induction false} EmptyStack()
    ensures Stacked(Manager([], EMPTY))
  {
  }

  lemma {:induction false} NothingDeleted(m: Manager, undone: seq<Edit>)
    ensures ShowDeletes(WithUndone(m, undone), []) == Shown(WithUndone(m, undone), false)
    ensures RemoveUndones(WithUndone(m, undone).history, []) == WithUndone(m, undone).history
  {
  }

  /** A viewer that joins now has the manager's layer, shapes and order, exactly when the layer is the fresh one. */
  lemma {:induction false} LateViewerIff(m: Manager)
    requires Sound(m)
    ensures Show(Manager([], EMPTY), PullReply(Whole(m.history))) == Shown(m, false) <==> Stacked(m)
  {
    SoundParts(m);
    hide Sound, Consistent, ShowPull, Stack;
    FirstPullStacks(m.history);
  }

  /** A viewer with the editor's layer and lists has them after each message of the editor too. */
  lemma {:induction false} ViewerStays(m: Manager, msg: UserMessage, editor: UserId)
    requires Sound(m) && EditorMessage(m, msg, editor) && (msg.PushMsg? || msg.UndoRedo? || msg.EmptyMsg?)
    ensures Show(m, BroadcastOf(msg)) == Shown(EditorStep(m, msg), false)
  {
    hide Sound, Consistent, Spares, Fits, LastCalled, ShowPushes, UndoStep, RedoStep, NewEditStep, EditsOf, View;
    match msg
    case PushMsg(_, data, _) =>
      assert EditsOf(data) == [data[0].edit];
      PushStays(m, data[0].edit);
    case UndoRedo(_, _, action, id) => CommandStays(m, id);
    case EmptyMsg(_, _) =>
  }

  lemma {:induction false} PushStays(m: Manager, e: Edit)
    requires Sound(m) && Fits(View(m.layer), e)
    ensures ShowPushes(m, [e]) == Shown(NewEditStep(m, e), false)
  {
    hide Fits, View, Fold, Consistent, ApplyTo;
    ApplyShows(m.layer, e);
    assert [e][..0] == [] && ShowPushes(m, []) == Shown(m, false);
  }

  lemma {:induction false} CommandStays(m: Manager, id: Uuid)
    ensures LastCalled(m.history.current, id) ==> UndoStep(m, Some(id)) == UndoStep(m, None)
    ensures LastCalled(m.history.undone, id) ==> RedoStep(m, Some(id)) == RedoStep(m, None)
  {
    LastMoves(m.history, 0, id);
    hide CancelOn, ApplyTo;
  }

  lemma {:induction false} FirstAdded(low: Shape, a: Uuid)
    ensures var m := Manager([low], History([Add(a, Some(low))], []));
            Sound(m) && Stack(m.history.current) == [low] && View(m.layer) == map[low.shapeId := low]
  {
    var e := Add(a, Some(low));
    PutOne(map[], low);
    assert [e][..0] == [] && [] + [low] == [low];
    EmptySound();
    EmptyLayer();
    hide Sound, Spares, View, Put, Stack, Fold;
    NewEditIff(Manager([], EMPTY), e);
    assert NewEditStep(Manager([], EMPTY), e) == Manager([low], History([e], [])) by {
      assert [] + [e] == [e] && [] + [low] == [low];
    }
  }

  lemma {:induction false} SecondAdded(low: Shape, high: Shape, a: Uuid, b: Uuid)
    requires low.shapeId != high.shapeId
    ensures var edits := [Add(a, Some(low)), Add(b, Some(high))];
            && Sound(Manager([low, high], History(edits, []))) && Stack(edits) == [low, high]
            && View([low, high]) == map[low.shapeId := low, high.shapeId := high]
  {
    var e, f := Add(a, Some(low)), Add(b, Some(high));
    var m := Manager([low], History([e], []));
    FirstAdded(low, a);
    assert Spares([], f);
    hide Sound, View, Fold, Spares;
    NewEditIff(m, f);
    assert NewEditStep(m, f) == Manager([low, high], History([e, f], [])) by {
      assert [e] + [f] == [e, f] && [low] + [high] == [low, high];
    }
    assert [e, f][..1] == [e] && [low] + [high] == [low, high];
    TwoShown(low, high);
  }

  lemma {:induction false} TwoShown(low: Shape, high: Shape)
    requires low.shapeId != high.shapeId
    ensures View([low, high]) == map[low.shapeId := low, high.shapeId := high]
  {
    assert [low, high][..1] == [low];
    PutOne(map[], low);
  }

  lemma {:induction false} RemovedAndBack(low: Shape, high: Shape, edits: seq<Edit>, c: Uuid)
    requires low.shapeId != high.shapeId
    ensures var m := Manager([low, high], History(edits, []));
            && NewEditStep(m, Remove(c, [low])) == Manager([high], History(edits + [Remove(c, [low])], []))
            && UndoStep(NewEditStep(m, Remove(c, [low])), None)
               == Manager([high, low], History(edits, [Remove(c, [low])]))
  {
    var g := Remove(c, [low]);
    assert FindOne([low, high], low.shapeId) == 0;
    assert [low][..0] == [] && DestroyAll([low, high], []) == Effect([low, high], false);
    assert DestroyAll([low, high], [low]) == Effect([high], false);
    assert Without(edits + [g], |edits|) == edits;
    assert [high] + [low] == [high, low] && [] + [g] == [g];
  }

  /** Two shapes, the lower one removed and the removal undone: it now lies on top, but not for a late viewer. */
  lemma {:induction false} LateViewerDiverges(low: Shape, high: Shape, a: Uuid, b: Uuid, c: Uuid)
    requires low.shapeId != high.shapeId
    ensures var edits := [Add(a, Some(low)), Add(b, Some(high))];
            var m := UndoStep(NewEditStep(Manager([low, high], History(edits, [])), Remove(c, [low])), None);
            && m == Manager([high, low], History(edits, [Remove(c, [low])])) && Sound(m)
            && Show(Manager([], EMPTY), PullReply(Whole(m.history))).manager.layer == [low, high]
  {
    var edits, g := [Add(a, Some(low)), Add(b, Some(high))], Remove(c, [low]);
    var m := Manager([low, high], History(edits, []));
    SecondAdded(low, high, a, b);
    RemovedAndBack(low, high, edits, c);
    assert Fits(View(m.layer), g) && Spares([], g);
    hide Sound, View, Fold, Spares, Fits, Stack, NewEditStep, UndoStep, ShowPull;
    NewEditIff(m, g);
    UndoLastSound(NewEditStep(m, g));
    SoundParts(UndoStep(NewEditStep(m, g), None));
    FirstPullStacks(History(edits, [g]));
  }
}
