/** Edits as changes of a canvas, and the history as the recipe the canvas is folded from. */
module Canvases {
  import opened Wrappers
  import opened Edits
  import opened Histories

  /** The shapes of a canvas, without their order. */
  type Canvas = map<Uuid, Shape>

  function ShapeIds(shapes: seq<Shape>): set<Uuid> {
    set shape <- shapes :: shape.shapeId
  }

  ghost predicate DistinctShapes(shapes: seq<Shape>) {
    forall i, j :: 0 <= i < j < |shapes| ==> shapes[i].shapeId != shapes[j].shapeId
  }

  /** The canvas with the listed shapes put in, replacing shapes with the same id. */
  function Put(c: Canvas, shapes: seq<Shape>): Canvas {
    if shapes == [] then c else Put(c, shapes[..|shapes| - 1])[shapes[|shapes| - 1].shapeId := shapes[|shapes| - 1]]
  }

  function Apply(c: Canvas, e: Edit): Canvas {
    match e
    case Add(_, shape) => if shape.Some? then Put(c, [shape.value]) else c
    case Remove(_, shapes) => c - ShapeIds(shapes)
    case Modify(_, current, _) => Put(c, current)
  }

  function Cancel(c: Canvas, e: Edit): Canvas {
    match e
    case Add(_, shape) => if shape.Some? then c - {shape.value.shapeId} else c
    case Remove(_, shapes) => Put(c, shapes)
    case Modify(_, _, initial) => Put(c, initial)
  }

  /** The canvas shows exactly these shapes under their ids. */
  ghost predicate Shows(c: Canvas, shapes: seq<Shape>) {
    DistinctShapes(shapes) && forall shape <- shapes :: shape.shapeId in c && c[shape.shapeId] == shape
  }

  /**
   * A well-formed new edit: it adds a shape with a new id, removes shapes as they are shown, or changes shapes
   * from how they are shown.
   */
  ghost predicate Fits(c: Canvas, e: Edit) {
    match e
    case Add(_, shape) => shape.Some? && shape.value.shapeId !in c
    case Remove(_, shapes) => Shows(c, shapes)
    case Modify(_, current, initial) =>
      Shows(c, initial) && ShapeIds(current) == ShapeIds(initial) && DistinctShapes(current)
  }

  /** What an applied edit leaves, so that it can be cancelled. */
  ghost predicate Applied(c: Canvas, e: Edit) {
    match e
    case Add(_, shape) => shape.Some? && shape.value.shapeId in c && c[shape.value.shapeId] == shape.value
    case Remove(_, shapes) => DistinctShapes(shapes) && ShapeIds(shapes) !! c.Keys
    case Modify(_, current, initial) =>
      Shows(c, current) && ShapeIds(current) == ShapeIds(initial) && DistinctShapes(initial)
  }

  // Putting shapes

  lemma {:induction false} PutKeys(c: Canvas, shapes: seq<Shape>)
    ensures Put(c, shapes).Keys == c.Keys + ShapeIds(shapes)
    ensures forall id <- c.Keys :: id !in ShapeIds(shapes) ==> Put(c, shapes)[id] == c[id]
  {
    if shapes != [] {
      var rest, last := shapes[..|shapes| - 1], shapes[|shapes| - 1];
      PutKeys(c, rest);
      assert shapes == rest + [last];
      assert ShapeIds(shapes) == ShapeIds(rest) + {last.shapeId} by {
        assert forall s :: s in shapes <==> s in rest || s == last;
      }
    }
  }

  lemma {:induction false} PutOne(c: Canvas, shape: Shape)
    ensures Put(c, [shape]) == c[shape.shapeId := shape]
  {
    assert [shape][..0] == [];
    assert Put(c, []) == c;
  }

  lemma {:induction false} PutShows(c: Canvas, shapes: seq<Shape>)
    requires DistinctShapes(shapes)
    ensures Shows(Put(c, shapes), shapes)
  {
    if shapes != [] {
      var rest, last := shapes[..|shapes| - 1], shapes[|shapes| - 1];
      PutShows(c, rest);
      forall shape | shape in shapes
        ensures shape.shapeId in Put(c, shapes) && Put(c, shapes)[shape.shapeId] == shape
      {
        var k :| 0 <= k < |shapes| && shapes[k] == shape;
        assert k < |rest| ==> rest[k] == shape && shape.shapeId != last.shapeId;
      }
    }
  }

  /** Putting back what was shown undoes putting or removing shapes with the same ids. */
  lemma {:induction false} PutBack(c: Canvas, c': Canvas, shapes: seq<Shape>)
    requires Shows(c, shapes)
    requires c'.Keys + ShapeIds(shapes) == c.Keys
    requires forall id <- c.Keys :: id !in ShapeIds(shapes) ==> id in c' && c'[id] == c[id]
    ensures Put(c', shapes) == c
  {
    PutKeys(c', shapes);
    PutShows(c', shapes);
    forall id | id in c ensures Put(c', shapes)[id] == c[id] {
      if id in ShapeIds(shapes) {
        var shape :| shape in shapes && shape.shapeId == id;
      }
    }
  }

  /** Cancelling an edit that fitted takes the canvas back, and the edit counts as applied in between. */
  lemma {:induction false} CancelUndoesApply(c: Canvas, e: Edit)
    requires Fits(c, e)
    ensures Applied(Apply(c, e), e) && Cancel(Apply(c, e), e) == c
  {
    match e
    case Add(_, shape) =>
      PutOne(c, shape.value);
    case Remove(_, shapes) =>
      PutBack(c, c - ShapeIds(shapes), shapes);
    case Modify(_, current, initial) =>
      PutKeys(c, current);
      PutShows(c, current);
      PutBack(c, Put(c, current), initial);
  }

  /** Applying a cancelled edit again gives the canvas back, and the edit fits in between. */
  lemma {:induction false} ApplyUndoesCancel(c: Canvas, e: Edit)
    requires Applied(c, e)
    ensures Fits(Cancel(c, e), e) && Apply(Cancel(c, e), e) == c
  {
    match e
    case Add(_, shape) =>
      PutOne(c - {shape.value.shapeId}, shape.value);
    case Remove(_, shapes) =>
      PutKeys(c, shapes);
      PutShows(c, shapes);
      assert Put(c, shapes) - ShapeIds(shapes) == c;
    case Modify(_, current, initial) =>
      PutKeys(c, initial);
      PutShows(c, initial);
      PutBack(c, Put(c, initial), current);
  }

  // Folding a history

  function Fold(edits: seq<Edit>): Canvas {
    if edits == [] then map[] else Apply(Fold(edits[..|edits| - 1]), edits[|edits| - 1])
  }

  /** Every edit fitted the canvas of the edits before it. */
  ghost predicate AllFit(edits: seq<Edit>) {
    forall k :: 0 <= k < |edits| ==> Fits(Fold(edits[..k]), edits[k])
  }

  function Reverse(edits: seq<Edit>): seq<Edit> {
    if edits == [] then [] else [edits[|edits| - 1]] + Reverse(edits[..|edits| - 1])
  }

  /** The current edits fitted in order, and the undone ones would again, the last undone first. */
  ghost predicate Consistent(h: History) {
    AllFit(h.current + Reverse(h.undone))
  }

  lemma {:induction false} FoldAppend(edits: seq<Edit>, e: Edit)
    ensures Fold(edits + [e]) == Apply(Fold(edits), e)
  {
    assert (edits + [e])[..|edits|] == edits;
  }

  lemma {:induction false} AllFitPrefix(edits: seq<Edit>, k: nat)
    requires AllFit(edits) && k <= |edits|
    ensures AllFit(edits[..k])
    ensures k < |edits| ==> Fits(Fold(edits[..k]), edits[k])
  {
    forall i | 0 <= i < k ensures Fits(Fold(edits[..k][..i]), edits[..k][i]) {
      assert edits[..k][..i] == edits[..i];
    }
  }

  lemma {:induction false} AllFitAppend(edits: seq<Edit>, e: Edit)
    requires AllFit(edits) && Fits(Fold(edits), e)
    ensures AllFit(edits + [e])
  {
    forall k | 0 <= k < |edits + [e]| ensures Fits(Fold((edits + [e])[..k]), (edits + [e])[k]) {
      assert (edits + [e])[..k] == edits[..k];
      assert edits[..|edits|] == edits;
    }
  }

  lemma {:induction false} ReverseAppend(edits: seq<Edit>, e: Edit)
    ensures Reverse(edits + [e]) == [e] + Reverse(edits)
  {
    assert (edits + [e])[..|edits|] == edits;
  }

  // Undoing an edit other than the last

  /** The ids of the shapes an edit concerns. */
  function Concerns(e: Edit): set<Uuid> {
    match e
    case Add(_, shape) => if shape.Some? then {shape.value.shapeId} else {}
    case Remove(_, shapes) => ShapeIds(shapes)
    case Modify(_, current, initial) => ShapeIds(current) + ShapeIds(initial)
  }

  /** The ids of the shapes an edit changes: a modification may list shapes it leaves as they were. */
  function Changes(e: Edit): set<Uuid> {
    match e
    case Add(_, _) => Concerns(e)
    case Remove(_, _) => Concerns(e)
    case Modify(_, current, initial) => set shape <- current | shape !in initial :: shape.shapeId
  }

  ghost predicate AgreeOn(c: Canvas, c': Canvas, ids: set<Uuid>) {
    forall id <- ids :: SameAt(c, c', id)
  }

  ghost predicate AgreeOff(c: Canvas, c': Canvas, ids: set<Uuid>) {
    forall id :: id !in ids ==> SameAt(c, c', id)
  }

  lemma {:induction false} PutAgree(c: Canvas, c': Canvas, shapes: seq<Shape>, off: set<Uuid>)
    requires AgreeOff(c, c', off)
    ensures AgreeOff(Put(c, shapes), Put(c', shapes), off - ShapeIds(shapes))
  {
    if shapes != [] {
      var rest, last := shapes[..|shapes| - 1], shapes[|shapes| - 1];
      PutAgree(c, c', rest, off);
      assert ShapeIds(shapes) == ShapeIds(rest) + {last.shapeId} by {
        assert shapes == rest + [last];
        assert forall s :: s in shapes <==> s in rest || s == last;
      }
      forall id | id !in off - ShapeIds(shapes) ensures SameAt(Put(c, shapes), Put(c', shapes), id) {
        if id != last.shapeId {
          assert SameAt(Put(c, rest), Put(c', rest), id);
        }
      }
    }
  }

  /** Both ways an edit acts leave other shapes alone. */
  lemma {:induction false} ActsLocally(c: Canvas, e: Edit)
    ensures AgreeOff(Apply(c, e), c, Concerns(e)) && AgreeOff(Cancel(c, e), c, Concerns(e))
  {
    match e
    case Add(_, shape) =>
      if shape.Some? {
        PutKeys(c, [shape.value]);
      }
    case Remove(_, shapes) => PutKeys(c, shapes);
    case Modify(_, current, initial) =>
      PutKeys(c, current);
      PutKeys(c, initial);
  }

  lemma {:induction false} ApplyAgree(c: Canvas, c': Canvas, e: Edit, off: set<Uuid>)
    requires AgreeOff(c, c', off) && Concerns(e) !! off
    ensures AgreeOff(Apply(c, e), Apply(c', e), off)
    ensures Fits(c, e) <==> Fits(c', e)
  {
    match e
    case Add(_, shape) =>
      if shape.Some? {
        PutAgree(c, c', [shape.value], off);
        assert shape.value.shapeId in Concerns(e);
      }
    case Remove(_, shapes) =>
      assert forall s <- shapes :: s.shapeId in Concerns(e) && SameAt(c, c', s.shapeId);
    case Modify(_, current, initial) =>
      PutAgree(c, c', current, off);
      assert forall s <- initial :: s.shapeId in Concerns(e) && SameAt(c, c', s.shapeId);
  }

  /** What an edit that fits leaves differs from what it found in the shapes it changes, and in no others. */
  lemma {:induction false} ChangesExactly(c: Canvas, e: Edit, id: Uuid)
    requires Fits(c, e)
    ensures SameAt(Apply(c, e), c, id) <==> id !in Changes(e)
  {
    match e
    case Add(_, shape) => PutOne(c, shape.value);
    case Remove(_, shapes) =>
    case Modify(_, current, initial) =>
      PutKeys(c, current);
      PutShows(c, current);
      if id in ShapeIds(current) {
        var shape :| shape in current && shape.shapeId == id;
        var before :| before in initial && before.shapeId == id;
        assert shape == before <==> shape in initial by {
          SameShape(initial, shape, before);
        }
        assert id in Changes(e) <==> shape !in initial by {
          ChangedShape(current, initial, shape);
        }
      }
  }

  lemma {:induction false} SameShape(shapes: seq<Shape>, s: Shape, s': Shape)
    requires DistinctShapes(shapes) && s' in shapes && s.shapeId == s'.shapeId
    ensures s == s' <==> s in shapes
  {
  }

  lemma {:induction false} ChangedShape(current: seq<Shape>, initial: seq<Shape>, shape: Shape)
    requires DistinctShapes(current) && shape in current
    ensures shape.shapeId in (set s <- current | s !in initial :: s.shapeId) <==> shape !in initial
  {
    forall s | s in current && s.shapeId == shape.shapeId ensures s == shape {
      SameShape(current, s, shape);
    }
  }

  /** Two canvases an edit fits show its shapes alike. */
  lemma {:induction false} FitsAlike(c: Canvas, c': Canvas, e: Edit, id: Uuid)
    requires Fits(c, e) && Fits(c', e) && id in Concerns(e)
    ensures SameAt(c, c', id)
  {
    match e
    case Add(_, _) =>
    case Remove(_, shapes) => var shape :| shape in shapes && shape.shapeId == id;
    case Modify(_, _, initial) => var shape :| shape in initial && shape.shapeId == id;
  }

  /** No edit after `k` and before `n` concerns a shape that the edit at `k` changed. */
  predicate Independent(edits: seq<Edit>, k: nat, n: nat)
    requires k < n <= |edits|
  {
    forall j :: k < j < n ==> Concerns(edits[j]) !! Changes(edits[k])
  }

  /** No later edit concerns a shape that the edit at `k` changed, and the canvas shows its shapes as it left them. */
  ghost predicate Undoable(edits: seq<Edit>, k: nat)
    requires k < |edits|
  {
    Independent(edits, k, |edits|) && Applied(Fold(edits), edits[k])
  }

  /** `with` and `without` differ in `ids` only, where they are still `after` and `before`. */
  ghost predicate Differ(with: Canvas, without: Canvas, after: Canvas, before: Canvas, ids: set<Uuid>) {
    AgreeOff(with, without, ids) && AgreeOn(with, after, ids) && AgreeOn(without, before, ids)
  }

  lemma {:induction false} DifferStep(
    with: Canvas, without: Canvas, after: Canvas, before: Canvas, ids: set<Uuid>, e: Edit)
    requires Differ(with, without, after, before, ids) && Concerns(e) !! ids
    ensures Differ(Apply(with, e), Apply(without, e), after, before, ids)
    ensures Fits(with, e) <==> Fits(without, e)
  {
    ApplyAgree(with, without, e, ids);
    ActsLocally(with, e);
    ActsLocally(without, e);
    assert forall id <- ids :: SameAt(Apply(with, e), with, id) && SameAt(Apply(without, e), without, id);
  }

  lemma {:induction false} DifferStart(c: Canvas, e: Edit)
    requires Fits(c, e)
    ensures Differ(Apply(c, e), c, Apply(c, e), c, Changes(e))
  {
    hide Fits, Apply, Changes, SameAt;
    forall id | id !in Changes(e) ensures SameAt(Apply(c, e), c, id) {
      ChangesExactly(c, e, id);
    }
    AgreeSelf(Apply(c, e), Changes(e));
    AgreeSelf(c, Changes(e));
  }

  lemma {:induction false} AgreeSelf(c: Canvas, ids: set<Uuid>)
    ensures AgreeOn(c, c, ids)
  {
  }

  /** The first `n` edits without the one at `k`. */
  function Leaving(edits: seq<Edit>, k: nat, n: nat): seq<Edit>
    requires k < n <= |edits|
  {
    edits[..k] + edits[k + 1..n]
  }

  lemma {:induction false} LeavingNext(edits: seq<Edit>, k: nat, n: nat)
    requires k < n < |edits|
    ensures Leaving(edits, k, n + 1) == Leaving(edits, k, n) + [edits[n]]
    ensures edits[..n + 1] == edits[..n] + [edits[n]]
  {
  }

  /** Leaving out an edit no later one depends on changes the fold in its own shapes only, and the rest still fits. */
  lemma {:induction false} LeaveOut(edits: seq<Edit>, k: nat, n: nat)
    requires AllFit(edits) && k < n <= |edits| && Independent(edits, k, n)
    ensures Differ(Fold(edits[..n]), Fold(Leaving(edits, k, n)),
                   Fold(edits[..k + 1]), Fold(edits[..k]), Changes(edits[k]))
    ensures AllFit(Leaving(edits, k, n))
  {
    hide Fits, Applied, Differ, AllFit, Fold, Apply, Changes, Concerns;
    if n == k + 1 {
      assert edits[..n] == edits[..k] + [edits[k]];
      assert Leaving(edits, k, n) == edits[..k];
      FoldAppend(edits[..k], edits[k]);
      AllFitPrefix(edits, k);
      DifferStart(Fold(edits[..k]), edits[k]);
    } else {
      LeaveOut(edits, k, n - 1);
      LeaveOutNext(edits, k, n - 1);
    }
  }

  lemma {:induction false} LeaveOutNext(edits: seq<Edit>, k: nat, n: nat)
    requires AllFit(edits) && k < n < |edits| && Concerns(edits[n]) !! Changes(edits[k])
    requires AllFit(Leaving(edits, k, n))
    requires Differ(Fold(edits[..n]), Fold(Leaving(edits, k, n)),
                    Fold(edits[..k + 1]), Fold(edits[..k]), Changes(edits[k]))
    ensures Differ(Fold(edits[..n + 1]), Fold(Leaving(edits, k, n + 1)),
                   Fold(edits[..k + 1]), Fold(edits[..k]), Changes(edits[k]))
    ensures AllFit(Leaving(edits, k, n + 1))
  {
    hide Fits, Applied, Differ, AllFit, Fold, Apply, Changes, Concerns;
    var e, all, rest := edits[n], edits[..n], Leaving(edits, k, n);
    LeavingNext(edits, k, n);
    FoldAppend(all, e);
    FoldAppend(rest, e);
    AllFitPrefix(edits, n);
    DifferStep(Fold(all), Fold(rest), Fold(edits[..k + 1]), Fold(edits[..k]), Changes(edits[k]), e);
    AllFitAppend(rest, e);
  }

  /** What cancelling puts back, shape by shape. */
  lemma {:induction false} CancelLikeAt(c: Canvas, before: Canvas, d: Canvas, e: Edit, id: Uuid)
    requires Fits(before, e) && Applied(c, e)
    requires Differ(c, d, Apply(before, e), before, Changes(e))
    ensures SameAt(Cancel(c, e), d, id)
  {
    if id !in Concerns(e) {
      ActsLocally(c, e);
      assert SameAt(Cancel(c, e), c, id) && SameAt(c, d, id);
    } else {
      match e
      case Add(_, _) =>
      case Remove(_, shapes) =>
        PutShows(c, shapes);
        assert SameAt(d, before, id);
      case Modify(_, current, initial) =>
        PutShows(c, initial);
        var shape :| shape in initial && shape.shapeId == id;
        if id in Changes(e) {
          assert SameAt(d, before, id);
        } else {
          var now :| now in current && now.shapeId == id;
          ChangedShape(current, initial, now);
          SameShape(initial, now, shape);
          assert SameAt(c, d, id);
        }
    }
  }

  /** Cancelling an undoable edit on the canvas gives the fold of the history without it, and the rest still fits. */
  lemma {:induction false} CancelInside(edits: seq<Edit>, k: nat)
    requires AllFit(edits) && k < |edits| && Undoable(edits, k)
    ensures Cancel(Fold(edits), edits[k]) == Fold(Without(edits, k)) && AllFit(Without(edits, k))
  {
    hide Fits, Applied, Differ, AllFit, Independent, Fold, Apply, Changes, SameAt, Cancel;
    var n, e := |edits|, edits[k];
    assert edits[..n] == edits && Leaving(edits, k, n) == Without(edits, k);
    LeaveOut(edits, k, n);
    AllFitPrefix(edits, k);
    assert edits[..k + 1] == edits[..k] + [e];
    FoldAppend(edits[..k], e);
    forall id ensures SameAt(Cancel(Fold(edits), e), Fold(Without(edits, k)), id) {
      CancelLikeAt(Fold(edits), Fold(edits[..k]), Fold(Without(edits, k)), e, id);
    }
    SameEverywhere(Cancel(Fold(edits), e), Fold(Without(edits, k)));
  }

  // The converse: what leaving an edit out takes

  /** When the edits fit with the edit at `k` and without it, none of them concerns a shape it changed. */
  lemma {:induction false} FitBothWays(edits: seq<Edit>, k: nat, n: nat)
    requires AllFit(edits) && k < n <= |edits| && AllFit(Without(edits, k))
    ensures Independent(edits, k, n)
  {
    hide AllFit, Concerns, Changes, Without;
    if n > k + 1 {
      FitBothWays(edits, k, n - 1);
      NextApart(edits, k, n - 1);
    }
  }

  lemma {:induction false} NextApart(edits: seq<Edit>, k: nat, n: nat)
    requires AllFit(edits) && k < n < |edits| && AllFit(Without(edits, k)) && Independent(edits, k, n)
    ensures Concerns(edits[n]) !! Changes(edits[k])
  {
    hide Fits, Differ, AllFit, Fold, Changes, Concerns, Independent;
    FitsWithout(edits, k, n);
    LeaveOut(edits, k, n);
    AllFitPrefix(edits, k);
    AllFitPrefix(edits, n);
    assert edits[..k + 1] == edits[..k] + [edits[k]];
    FoldAppend(edits[..k], edits[k]);
    NoOverlap(Fold(edits[..n]), Fold(Leaving(edits, k, n)), Fold(edits[..k]), edits[k], edits[n]);
  }

  lemma {:induction false} FitsWithout(edits: seq<Edit>, k: nat, n: nat)
    requires k < n < |edits| && AllFit(Without(edits, k))
    ensures Fits(Fold(Leaving(edits, k, n)), edits[n])
  {
    AllFitPrefix(Without(edits, k), n - 1);
    assert Without(edits, k)[..n - 1] == Leaving(edits, k, n) && Without(edits, k)[n - 1] == edits[n];
  }

  lemma {:induction false} NoOverlap(with: Canvas, without: Canvas, before: Canvas, e: Edit, later: Edit)
    requires Fits(before, e) && Differ(with, without, Apply(before, e), before, Changes(e))
    requires Fits(with, later) && Fits(without, later)
    ensures Concerns(later) !! Changes(e)
  {
    hide Fits, Apply, Changes, Concerns;
    forall id | id in Changes(e) ensures id !in Concerns(later) {
      ChangesExactly(before, e, id);
      assert SameAt(with, Apply(before, e), id) && SameAt(without, before, id);
      assert !SameAt(with, without, id);
      if id in Concerns(later) {
        FitsAlike(with, without, later, id);
      }
    }
  }

  lemma {:induction false} AppliedFrom(c: Canvas, d: Canvas, before: Canvas, e: Edit)
    requires Fits(before, e) && Fits(d, e)
    requires Differ(c, d, Apply(before, e), before, Changes(e))
    ensures Applied(c, e)
  {
    CancelUndoesApply(before, e);
    var after := Apply(before, e);
    match e
    case Add(_, shape) => assert SameAt(c, after, shape.value.shapeId);
    case Remove(_, shapes) => assert forall s <- shapes :: SameAt(c, after, s.shapeId);
    case Modify(_, current, initial) =>
      forall s | s in current ensures s.shapeId in c && c[s.shapeId] == s {
        if s in initial {
          ChangedShape(current, initial, s);
          assert SameAt(c, d, s.shapeId);
        } else {
          assert SameAt(c, after, s.shapeId);
        }
      }
  }

  /** An edit that can be left out and would fit again at the end is undoable. */
  lemma {:induction false} UndoableIf(edits: seq<Edit>, k: nat)
    requires AllFit(edits) && k < |edits| && AllFit(Without(edits, k) + [edits[k]])
    ensures Undoable(edits, k)
  {
    hide Fits, Applied, Differ, AllFit, Independent, Fold, Apply, Changes;
    var n, e, rest := |edits|, edits[k], Without(edits, k);
    AllFitPrefix(rest + [e], |rest|);
    assert (rest + [e])[..|rest|] == rest;
    assert edits[..n] == edits && Leaving(edits, k, n) == rest;
    FitBothWays(edits, k, n);
    LeaveOut(edits, k, n);
    AllFitPrefix(edits, k);
    assert edits[..k + 1] == edits[..k] + [e];
    FoldAppend(edits[..k], e);
    AppliedFrom(Fold(edits), Fold(rest), Fold(edits[..k]), e);
  }

  // One more edit before others

  /** None of the edits concerns a shape that `e` changes. */
  predicate Spares(edits: seq<Edit>, e: Edit) {
    forall other <- edits :: Concerns(other) !! Changes(e)
  }

  lemma {:induction false} InsertFits(current: seq<Edit>, e: Edit, tail: seq<Edit>, n: nat)
    requires AllFit(current + tail) && AllFit(current) && Fits(Fold(current), e) && n <= |tail| && Spares(tail, e)
    ensures AllFit(current + [e] + tail[..n])
    ensures Differ(Fold(current + [e] + tail[..n]), Fold(current + tail[..n]),
                   Apply(Fold(current), e), Fold(current), Changes(e))
  {
    hide Fits, Differ, AllFit, Fold, Apply, Changes, Concerns;
    if n == 0 {
      assert current + [e] + tail[..0] == current + [e] && current + tail[..0] == current;
      AllFitAppend(current, e);
      FoldAppend(current, e);
      DifferStart(Fold(current), e);
    } else {
      InsertFits(current, e, tail, n - 1);
      InsertNext(current, e, tail, n - 1);
    }
  }

  lemma {:induction false} InsertNext(current: seq<Edit>, e: Edit, tail: seq<Edit>, n: nat)
    requires AllFit(current + tail) && n < |tail| && Concerns(tail[n]) !! Changes(e)
    requires AllFit(current + [e] + tail[..n])
    requires Differ(Fold(current + [e] + tail[..n]), Fold(current + tail[..n]),
                    Apply(Fold(current), e), Fold(current), Changes(e))
    ensures AllFit(current + [e] + tail[..n + 1])
    ensures Differ(Fold(current + [e] + tail[..n + 1]), Fold(current + tail[..n + 1]),
                   Apply(Fold(current), e), Fold(current), Changes(e))
  {
    hide Fits, Differ, AllFit, Fold, Apply, Changes, Concerns;
    var with, without, next := current + [e] + tail[..n], current + tail[..n], tail[n];
    assert current + [e] + tail[..n + 1] == with + [next] && current + tail[..n + 1] == without + [next];
    AllFitPrefix(current + tail, |without|);
    assert (current + tail)[..|without|] == without;
    DifferStep(Fold(with), Fold(without), Apply(Fold(current), e), Fold(current), Changes(e), next);
    AllFitAppend(with, next);
    FoldAppend(with, next);
    FoldAppend(without, next);
  }

  /** Edits that fit after `current` fit after one more edit exactly when it changes no shape that they concern. */
  lemma {:induction false} InsertIff(current: seq<Edit>, e: Edit, tail: seq<Edit>)
    requires AllFit(current + tail) && AllFit(current) && Fits(Fold(current), e)
    ensures AllFit(current + [e] + tail) <==> Spares(tail, e)
  {
    hide Fits, Differ, AllFit, Fold, Apply, Changes, Concerns;
    var k, edits := |current|, current + [e] + tail;
    if Spares(tail, e) {
      InsertFits(current, e, tail, |tail|);
      assert tail[..|tail|] == tail;
    }
    if AllFit(edits) {
      assert Without(edits, k) == current + tail;
      FitBothWays(edits, k, |edits|);
      forall other | other in tail ensures Concerns(other) !! Changes(e) {
        var i :| 0 <= i < |tail| && tail[i] == other;
        assert edits[k + 1 + i] == other && edits[k] == e;
      }
    }
  }

  lemma {:induction false} ReverseMembers(edits: seq<Edit>)
    ensures forall e :: e in Reverse(edits) <==> e in edits
  {
    if edits != [] {
      ReverseMembers(edits[..|edits| - 1]);
      assert edits == edits[..|edits| - 1] + [edits[|edits| - 1]];
    }
  }

  /** A new edit leaves the undone ones fitting exactly when it changes no shape that one of them concerns. */
  lemma {:induction false} ConsistentIff(h: History, e: Edit)
    requires Consistent(h) && Fits(Fold(h.current), e)
    ensures Consistent(h.(current := h.current + [e])) <==> Spares(h.undone, e)
  {
    hide Fits, AllFit, Fold, Changes, Concerns;
    var tail := Reverse(h.undone);
    AllFitPrefix(h.current + tail, |h.current|);
    assert (h.current + tail)[..|h.current|] == h.current;
    InsertIff(h.current, e, tail);
    ReverseMembers(h.undone);
  }

  /** The same for several new edits, one after the other. */
  lemma {:induction false} ConsistentWithAll(h: History, data: seq<Edit>)
    requires Consistent(h) && AllFit(h.current + data) && forall e <- data :: Spares(h.undone, e)
    ensures Consistent(h.(current := h.current + data))
  {
    hide Fits, AllFit, Fold, Spares, Consistent;
    if data == [] {
      assert h.current + [] == h.current;
    } else {
      var rest, e := data[..|data| - 1], data[|data| - 1];
      assert h.current + data == h.current + rest + [e];
      AllFitPrefix(h.current + data, |h.current + rest|);
      assert (h.current + data)[..|h.current + rest|] == h.current + rest;
      ConsistentWithAll(h, rest);
      ConsistentIff(h.(current := h.current + rest), e);
    }
  }

  // Cancelling any edit: what the canvas alone needs

  /** Some edit after `k` and before `n` concerns the shape. */
  predicate ConcernedLater(edits: seq<Edit>, k: nat, n: nat, id: Uuid)
    requires k < n <= |edits|
  {
    exists j :: k < j < n && id in Concerns(edits[j])
  }

  /** An edit that fits decides how a shape it concerns is shown, whatever was shown before. */
  lemma {:induction false} Decides(fitting: Canvas, c: Canvas, c': Canvas, e: Edit, id: Uuid)
    requires Fits(fitting, e) && id in Concerns(e)
    ensures SameAt(Apply(c, e), Apply(c', e), id)
  {
    match e
    case Add(_, shape) =>
      PutOne(c, shape.value);
      PutOne(c', shape.value);
    case Remove(_, _) =>
    case Modify(_, current, _) => PutAgree(c, c', current, c.Keys + c'.Keys);
  }

  /** The last later edit that concerns a shape decides it; without one it is as the edit at `k` left or found it. */
  lemma {:induction false} LastDecides(edits: seq<Edit>, k: nat, n: nat, id: Uuid)
    requires AllFit(edits) && k < n <= |edits|
    ensures var with, without := Fold(edits[..n]), Fold(Leaving(edits, k, n));
            if ConcernedLater(edits, k, n, id) then SameAt(with, without, id)
            else SameAt(with, Fold(edits[..k + 1]), id) && SameAt(without, Fold(edits[..k]), id)
  {
    hide Fits, AllFit, Fold, Apply, Concerns;
    if n == k + 1 {
      assert Leaving(edits, k, n) == edits[..k];
    } else {
      LastDecides(edits, k, n - 1, id);
      LeavingNext(edits, k, n - 1);
      var e, with, without := edits[n - 1], edits[..n - 1], Leaving(edits, k, n - 1);
      FoldAppend(with, e);
      FoldAppend(without, e);
      AllFitPrefix(edits, n - 1);
      if id in Concerns(e) {
        Decides(Fold(with), Fold(with), Fold(without), e, id);
      } else {
        ActsLocally(Fold(with), e);
        ActsLocally(Fold(without), e);
        assert SameAt(Apply(Fold(with), e), Fold(with), id) && SameAt(Apply(Fold(without), e), Fold(without), id);
      }
    }
  }

  /** Cancelling shows the shapes of an edit as it found them, whatever is shown before. */
  lemma {:induction false} CancelRestores(c: Canvas, before: Canvas, e: Edit, id: Uuid)
    requires Fits(before, e) && id in Concerns(e)
    ensures SameAt(Cancel(c, e), before, id)
  {
    match e
    case Add(_, _) =>
    case Remove(_, shapes) => PutShows(c, shapes);
    case Modify(_, _, initial) =>
      if DistinctShapes(initial) {
        PutShows(c, initial);
      }
  }

  lemma {:induction false} CancelAt(edits: seq<Edit>, k: nat, id: Uuid)
    requires AllFit(edits) && k < |edits|
    ensures SameAt(Cancel(Fold(edits), edits[k]), Fold(Without(edits, k)), id) <==>
            (id in Concerns(edits[k]) && ConcernedLater(edits, k, |edits|, id) ==>
               SameAt(Fold(edits), Fold(edits[..k]), id))
  {
    hide Fits, AllFit, Fold, Apply, Cancel, Concerns, ConcernedLater;
    var n, e := |edits|, edits[k];
    assert edits[..n] == edits && Leaving(edits, k, n) == Without(edits, k);
    assert edits[..k + 1] == edits[..k] + [e];
    LastDecides(edits, k, n, id);
    AllFitPrefix(edits, k);
    FoldAppend(edits[..k], e);
    if id in Concerns(e) {
      CancelRestores(Fold(edits), Fold(edits[..k]), e, id);
    } else {
      ActsLocally(Fold(edits), e);
      ActsLocally(Fold(edits[..k]), e);
      assert SameAt(Cancel(Fold(edits), e), Fold(edits), id);
      assert SameAt(Apply(Fold(edits[..k]), e), Fold(edits[..k]), id);
    }
  }

  /**
   * Cancelling any edit gives the fold of the history without it exactly when each of its shapes that a later edit
   * concerns is shown as it was before the edit.
   */
  lemma {:induction false} CancelInsideIff(edits: seq<Edit>, k: nat)
    requires AllFit(edits) && k < |edits|
    ensures Cancel(Fold(edits), edits[k]) == Fold(Without(edits, k)) <==>
            forall id <- Concerns(edits[k]) :: ConcernedLater(edits, k, |edits|, id) ==>
              SameAt(Fold(edits), Fold(edits[..k]), id)
  {
    hide Fits, AllFit, Fold, Cancel, Concerns, ConcernedLater, Without;
    var cancelled, without := Cancel(Fold(edits), edits[k]), Fold(Without(edits, k));
    forall id
      ensures SameAt(cancelled, without, id) <==>
              (id in Concerns(edits[k]) && ConcernedLater(edits, k, |edits|, id) ==>
                 SameAt(Fold(edits), Fold(edits[..k]), id))
    {
      CancelAt(edits, k, id);
    }
    if forall id :: SameAt(cancelled, without, id) {
      SameEverywhere(cancelled, without);
    }
  }
}
