/** The slab of JavaScript values handed to WebAssembly: the free list lives in the slots it frees. */
module Slabs {

  datatype JsValue = Undefined | Null | Boolean(b: bool) | Number(n: nat) | Reference(address: nat)

  datatype Slab = Slab(heap: seq<JsValue>, next: nat)

  /** The first slot that can be handed out; the slots below hold constants. */
  const RESERVED: nat := 132

  predicate IsConstant(i: nat, v: JsValue)
    requires i < RESERVED
  {
    if i < 128 then v == Undefined
    else if i == 128 then v == Undefined
    else if i == 129 then v == Null
    else v == Boolean(i == 130)
  }

  // The operations

  /** Slot `next` is one past the end, or holds the number of the slot after it in the free list. */
  predicate Ready(s: Slab) {
    s.next <= |s.heap| && (s.next < |s.heap| ==> s.heap[s.next].Number?)
  }

  /** The slab and the handle of the added value. */
  function AddObject(s: Slab, obj: JsValue): (Slab, nat)
    requires Ready(s)
  {
    var heap := if s.next == |s.heap| then s.heap + [Number(|s.heap| + 1)] else s.heap;
    (Slab(heap[s.next := obj], heap[s.next].n), s.next)
  }

  function DropObject(s: Slab, idx: nat): Slab
    requires idx < |s.heap|
  {
    if idx < RESERVED then s else Slab(s.heap[idx := Number(s.next)], idx)
  }

  // The invariant

  /** `free` is the chain from `next`: distinct slots, each holding its successor, the last one the heap's length. */
  ghost predicate IsChain(s: Slab, free: seq<nat>) {
    && (forall i :: 0 <= i < |free| ==> RESERVED <= free[i] < |s.heap|)
    && (forall i, j :: 0 <= i < j < |free| ==> free[i] != free[j])
    && s.next == (if free == [] then |s.heap| else free[0])
    && (forall i :: 0 <= i < |free| ==> s.heap[free[i]] == Successor(s, free, i))
  }

  function Successor(s: Slab, free: seq<nat>, i: nat): JsValue {
    Number(if i + 1 < |free| then free[i + 1] else |s.heap|)
  }

  /** The slab holds exactly the values of `live` under their handles; every other slot is on the free list. */
  ghost predicate Holds(s: Slab, live: map<nat, JsValue>, free: seq<nat>) {
    && |s.heap| >= RESERVED
    && (forall i :: 0 <= i < RESERVED ==> IsConstant(i, s.heap[i]))
    && IsChain(s, free)
    && (forall i: nat :: i in live <==> RESERVED <= i < |s.heap| && i !in free)
    && (forall i: nat :: i in live ==> s.heap[i] == live[i])
  }

  lemma {:induction false} ChainReady(s: Slab, free: seq<nat>)
    requires IsChain(s, free)
    ensures Ready(s)
  {
    if free != [] {
      assert s.heap[free[0]].Number?;
    }
  }

  lemma {:induction false} AddChain(s: Slab, free: seq<nat>, obj: JsValue)
    requires IsChain(s, free) && Ready(s)
    ensures IsChain(AddObject(s, obj).0, if free == [] then [] else free[1..])
  {
    var s' := AddObject(s, obj).0;
    if free != [] {
      var rest := free[1..];
      assert s.heap[free[0]] == Successor(s, free, 0);
      assert forall i :: 0 <= i < |rest| ==> rest[i] == free[i + 1];
      forall i | 0 <= i < |rest| ensures s'.heap[rest[i]] == Successor(s', rest, i) {
        assert s.heap[free[i + 1]] == Successor(s, free, i + 1);
      }
    }
  }

  /** An add returns a handle that was not live and changes nothing under the other handles. */
  lemma {:induction false} AddHolds(s: Slab, live: map<nat, JsValue>, free: seq<nat>, obj: JsValue)
    requires Holds(s, live, free)
    ensures Ready(s)
    ensures var (s', handle) := AddObject(s, obj);
            && handle !in live && handle >= RESERVED && handle <= |s.heap|
            && Holds(s', live[handle := obj], if free == [] then [] else free[1..])
  {
    ChainReady(s, free);
    AddChain(s, free, obj);
    AddFree(s, free);
    hide IsChain;
    AddLive(s, live, free, obj);
  }

  /** The next slot is the first on the chain, or one past the end; it is not on the rest of the chain. */
  lemma {:induction false} AddFree(s: Slab, free: seq<nat>)
    requires IsChain(s, free)
    ensures free == [] ==> s.next == |s.heap|
    ensures free != [] ==> RESERVED <= s.next < |s.heap| && free[0] == s.next && s.next !in free[1..]
  {
  }

  lemma {:induction false} AddLive(s: Slab, live: map<nat, JsValue>, free: seq<nat>, obj: JsValue)
    requires Holds(s, live, free) && Ready(s)
    requires free == [] ==> s.next == |s.heap|
    requires free != [] ==> RESERVED <= s.next < |s.heap| && free[0] == s.next && s.next !in free[1..]
    ensures var (s', handle) := AddObject(s, obj);
            var live', free' := live[handle := obj], if free == [] then [] else free[1..];
            && handle !in live
            && (forall i :: 0 <= i < RESERVED ==> IsConstant(i, s'.heap[i]))
            && (forall i: nat :: i in live' <==> RESERVED <= i < |s'.heap| && i !in free')
            && (forall i: nat :: i in live' ==> s'.heap[i] == live'[i])
  {
    hide IsChain;
    assert free != [] ==> free == [free[0]] + free[1..];
  }

  lemma {:induction false} DropChain(s: Slab, free: seq<nat>, idx: nat)
    requires IsChain(s, free) && RESERVED <= idx < |s.heap| && idx !in free
    ensures IsChain(DropObject(s, idx), [idx] + free)
  {
    var s', free' := DropObject(s, idx), [idx] + free;
    forall i | 0 <= i < |free'|
      ensures s'.heap[free'[i]] == Successor(s', free', i)
    {
      if i > 0 {
        assert free'[i] == free[i - 1] && free[i - 1] in free;
      }
    }
  }

  lemma {:induction false} DropHolds(s: Slab, live: map<nat, JsValue>, free: seq<nat>, idx: nat)
    requires Holds(s, live, free) && idx in live
    ensures Holds(DropObject(s, idx), live - {idx}, [idx] + free)
  {
    hide IsChain;
    DropChain(s, free, idx);
  }

  lemma {:induction false} ChainNext(s: Slab, free: seq<nat>, i: nat, m: nat)
    requires IsChain(s, free) && i < |free| && m < |s.heap| && s.heap[free[i]] == Number(m)
    ensures i + 1 < |free| && free[i + 1] == m
  {
    assert s.heap[free[i]] == Successor(s, free, i);
  }

  /** Dropping a slot that is already free closes the chain into a cycle: it comes back to the slot. */
  lemma {:induction false} SecondDropCycles(s: Slab, free: seq<nat>, j: nat, free': seq<nat>, i: nat)
    requires IsChain(s, free) && j < |free| && i <= j
    requires IsChain(DropObject(s, free[j]), free')
    ensures i + 1 < |free'| && free'[i + 1] == free[i]
  {
    var s' := DropObject(s, free[j]);
    if i > 0 {
      SecondDropCycles(s, free, j, free', i - 1);
      assert s.heap[free[i - 1]] == Successor(s, free, i - 1);
      ChainNext(s', free', i, free[i]);
    } else {
      assert free' != [] && free'[0] == free[j] && s.next == free[0];
      ChainNext(s', free', 0, free[0]);
    }
  }

  lemma {:induction false} SecondDropBreaks(s: Slab, free: seq<nat>, j: nat, free': seq<nat>)
    requires IsChain(s, free) && j < |free|
    ensures !IsChain(DropObject(s, free[j]), free')
  {
    if IsChain(DropObject(s, free[j]), free') {
      SecondDropCycles(s, free, j, free', j);
    }
  }

  /** The guard on drops is exact: a drop keeps the slab well formed exactly when the handle is live. */
  lemma {:induction false} DropIff(s: Slab, live: map<nat, JsValue>, free: seq<nat>, idx: nat)
    requires Holds(s, live, free) && RESERVED <= idx < |s.heap|
    ensures (exists live', free' :: Holds(DropObject(s, idx), live', free')) <==> idx in live
  {
    if idx in live {
      DropHolds(s, live, free, idx);
    } else {
      var j :| 0 <= j < |free| && free[j] == idx;
      forall free' ensures !IsChain(DropObject(s, idx), free') {
        SecondDropBreaks(s, free, j, free');
      }
    }
  }

  // Runs

  datatype SlabOp = AddOp(obj: JsValue) | DropOp(idx: nat) | TakeOp(idx: nat)

  function Initial(): Slab {
    Slab(Constants(), RESERVED)
  }

  function Constants(): (c: seq<JsValue>)
    ensures |c| == RESERVED && forall i :: 0 <= i < RESERVED ==> IsConstant(i, c[i])
  {
    Undefineds(128) + [Undefined, Null, Boolean(true), Boolean(false)]
  }

  function Undefineds(n: nat): (c: seq<JsValue>)
    ensures |c| == n && forall i :: 0 <= i < n ==> c[i] == Undefined
  {
    if n == 0 then [] else Undefineds(n - 1) + [Undefined]
  }

  /** A finite map with a supply of handles: what the slab stands for. `answer` is what the slab returned. */
  function LiveStep(live: map<nat, JsValue>, op: SlabOp, answer: JsValue): map<nat, JsValue> {
    match op
    case AddOp(obj) => if answer.Number? then live[answer.n := obj] else live
    case DropOp(idx) => live - {idx}
    case TakeOp(idx) => live - {idx}
  }

  function SlabStep(s: Slab, op: SlabOp): (Slab, JsValue)
    requires op.AddOp? ==> Ready(s)
    requires !op.AddOp? ==> op.idx < |s.heap|
  {
    match op
    case AddOp(obj) => var (s', handle) := AddObject(s, obj); (s', Number(handle))
    case DropOp(idx) => (DropObject(s, idx), Undefined)
    case TakeOp(idx) => (DropObject(s, idx), s.heap[idx])
  }

  /** Drops and takes name constants or live handles. */
  predicate OpOk(live: map<nat, JsValue>, op: SlabOp) {
    op.AddOp? || op.idx < RESERVED || op.idx in live
  }

  /** The states of a run, the answers given, and the map kept beside them. */
  ghost predicate SlabRun(states: seq<Slab>, lives: seq<map<nat, JsValue>>, ops: seq<SlabOp>, answers: seq<JsValue>) {
    && |states| == |lives| == |ops| + 1 && |answers| == |ops|
    && states[0] == Initial() && lives[0] == map[]
    && forall k :: 0 <= k < |ops| ==>
         && OpOk(lives[k], ops[k])
         && (ops[k].AddOp? ==> Ready(states[k])) && (!ops[k].AddOp? ==> ops[k].idx < |states[k].heap|)
         && SlabStep(states[k], ops[k]) == (states[k + 1], answers[k])
         && lives[k + 1] == LiveStep(lives[k], ops[k], answers[k])
  }

  /** One operation does to the map what its name says, and answers from it. */
  lemma {:induction false} StepHolds(
    s: Slab, live: map<nat, JsValue>, free: seq<nat>, op: SlabOp)
    returns (free': seq<nat>)
    requires Holds(s, live, free) && OpOk(live, op)
    ensures (op.AddOp? ==> Ready(s)) && (!op.AddOp? ==> op.idx < |s.heap|)
    ensures var (s', answer) := SlabStep(s, op);
            && Holds(s', LiveStep(live, op, answer), free')
            && (op.AddOp? ==> answer.Number? && answer.n !in live)
            && (op.TakeOp? && op.idx >= RESERVED ==> answer == live[op.idx])
            && (op.TakeOp? && op.idx < RESERVED ==> IsConstant(op.idx, answer))
  {
    if op.AddOp? {
      AddHolds(s, live, free, op.obj);
      free' := if free == [] then [] else free[1..];
    } else if op.idx >= RESERVED {
      DropHolds(s, live, free, op.idx);
      free' := [op.idx] + free;
    } else {
      assert live - {op.idx} == live;
      free' := free;
    }
  }

  lemma {:induction false} InitialHolds()
    ensures Holds(Initial(), map[], [])
  {
  }

  /** In every reachable state the free list is a chain over exactly the slots that are not live. */
  lemma {:induction false} RunHolds(
    states: seq<Slab>, lives: seq<map<nat, JsValue>>, ops: seq<SlabOp>, answers: seq<JsValue>, k: nat)
    returns (free: seq<nat>)
    requires SlabRun(states, lives, ops, answers) && k <= |ops|
    ensures Holds(states[k], lives[k], free)
  {
    hide Holds;
    if k == 0 {
      free := [];
      InitialHolds();
    } else {
      var before := RunHolds(states, lives, ops, answers, k - 1);
      free := StepHolds(states[k - 1], lives[k - 1], before, ops[k - 1]);
    }
  }

  // Passing a list of values and getting it back

  function AddAll(s: Slab, live: map<nat, JsValue>, objs: seq<JsValue>): (Slab, map<nat, JsValue>, seq<nat>) {
    if objs == [] then (s, live, [])
    else
      var (s', live', handles) := AddAll(s, live, objs[..|objs| - 1]);
      if !Ready(s') then (s', live', handles)
      else
        var obj := objs[|objs| - 1];
        var (s'', handle) := AddObject(s', obj);
        (s'', live'[handle := obj], handles + [handle])
  }

  function TakeAll(s: Slab, handles: seq<nat>): (Slab, seq<JsValue>) {
    if handles == [] then (s, [])
    else
      var (s', taken) := TakeAll(s, handles[..|handles| - 1]);
      var handle := handles[|handles| - 1];
      if handle < |s'.heap| then (DropObject(s', handle), taken + [s'.heap[handle]]) else (s', taken)
  }

  /** `handles` are new handles, all different, that `live'` has beside those of `live`, with the listed values. */
  ghost predicate Handed(
    live: map<nat, JsValue>, live': map<nat, JsValue>, handles: seq<nat>, objs: seq<JsValue>)
  {
    && |handles| == |objs|
    && (forall i :: 0 <= i < |handles| ==> handles[i] !in live && handles[i] in live' && live'[handles[i]] == objs[i])
    && (forall i, j :: 0 <= i < j < |handles| ==> handles[i] != handles[j])
    && (forall h :: h in live' <==> h in live || h in handles)
    && (forall h :: h in live ==> live'[h] == live[h])
  }

  lemma {:induction false} HandedNone(live: map<nat, JsValue>)
    ensures Handed(live, live, [], [])
  {
  }

  lemma {:induction false} HandedOneMore(
    live: map<nat, JsValue>, live': map<nat, JsValue>, handles: seq<nat>, objs: seq<JsValue>, handle: nat, obj: JsValue)
    requires Handed(live, live', handles, objs) && handle !in live'
    ensures Handed(live, live'[handle := obj], handles + [handle], objs + [obj])
  {
  }

  /** The handles of the added values are new and distinct, and each has its value. */
  lemma {:induction false} AddAllHolds(s: Slab, live: map<nat, JsValue>, free: seq<nat>, objs: seq<JsValue>)
    returns (free': seq<nat>)
    requires Holds(s, live, free)
    ensures var (s', live', handles) := AddAll(s, live, objs);
            Holds(s', live', free') && Handed(live, live', handles, objs)
    ensures |s.heap| <= |AddAll(s, live, objs).0.heap| <= |s.heap| + |objs|
  {
    hide Holds;
    if objs == [] {
      free' := free;
    } else {
      var before, obj := objs[..|objs| - 1], objs[|objs| - 1];
      var rest := AddAllHolds(s, live, free, before);
      var (s', live', handles) := AddAll(s, live, before);
      AddHolds(s', live', rest, obj);
      free' := if rest == [] then [] else rest[1..];
      HandedOneMore(live, live', handles, before, s'.next, obj);
      assert before + [obj] == objs;
    }
  }

  /** The handles are live and all different. */
  ghost predicate TakeableOnce(handles: seq<nat>, live: map<nat, JsValue>) {
    && (forall i :: 0 <= i < |handles| ==> handles[i] in live)
    && (forall i, j :: 0 <= i < j < |handles| ==> handles[i] != handles[j])
  }

  function Left(live: map<nat, JsValue>, handles: seq<nat>): map<nat, JsValue> {
    if handles == [] then live else Left(live, handles[..|handles| - 1]) - {handles[|handles| - 1]}
  }

  lemma {:induction false} LeftMembers(live: map<nat, JsValue>, handles: seq<nat>)
    ensures forall h :: h in Left(live, handles) <==> h in live && h !in handles
    ensures forall h :: h in Left(live, handles) ==> Left(live, handles)[h] == live[h]
  {
    if handles != [] {
      LeftMembers(live, handles[..|handles| - 1]);
      assert handles == handles[..|handles| - 1] + [handles[|handles| - 1]];
    }
  }

  /** Taking distinct live handles gives their values and leaves the other handles live. */
  lemma {:induction false} TakeAllHolds(s: Slab, live: map<nat, JsValue>, free: seq<nat>, handles: seq<nat>)
    returns (free': seq<nat>)
    requires Holds(s, live, free) && TakeableOnce(handles, live)
    ensures var (s', taken) := TakeAll(s, handles);
            && Holds(s', Left(live, handles), free')
            && |taken| == |handles|
            && forall i :: 0 <= i < |handles| ==> taken[i] == live[handles[i]]
  {
    hide Holds;
    if handles == [] {
      free' := free;
    } else {
      var before, handle := handles[..|handles| - 1], handles[|handles| - 1];
      var rest := TakeAllHolds(s, live, free, before);
      LeftMembers(live, before);
      assert handle in Left(live, before);
      TakeOne(TakeAll(s, before).0, Left(live, before), rest, handle);
      free' := [handle] + rest;
    }
  }

  lemma {:induction false} TakeOne(s: Slab, live: map<nat, JsValue>, free: seq<nat>, handle: nat)
    requires Holds(s, live, free) && handle in live
    ensures handle < |s.heap| && s.heap[handle] == live[handle]
    ensures Holds(DropObject(s, handle), live - {handle}, [handle] + free)
  {
    DropHolds(s, live, free, handle);
  }

  /** Passing a list of values and getting it back gives the same list and leaves the same handles live. */
  lemma {:induction false} PassAndGetBack(s: Slab, live: map<nat, JsValue>, free: seq<nat>, objs: seq<JsValue>)
    returns (free': seq<nat>)
    requires Holds(s, live, free)
    ensures var (passed, _, handles) := AddAll(s, live, objs);
            var (after, values) := TakeAll(passed, handles);
            values == objs && Holds(after, live, free')
  {
    hide Holds;
    var mid := AddAllHolds(s, live, free, objs);
    var (passed, live', handles) := AddAll(s, live, objs);
    free' := TakeAllHolds(passed, live', mid, handles);
    assert TakeAll(passed, handles).1 == objs;
    LeftMembers(live', handles);
    assert Left(live', handles) == live;
  }

  // The module's variables as an object

  /** A word of WebAssembly memory. */
  const WORD: nat := 0x1_0000_0000

  class HeapSlab {
    var heap: seq<JsValue>
    var heapNext: nat
    var wasmVectorLen: nat
    ghost var live: map<nat, JsValue>
    ghost var free: seq<nat>

    ghost function State(): Slab
      reads this
    {
      Slab(heap, heapNext)
    }

    ghost predicate Valid()
      reads this
    {
      Holds(State(), live, free)
    }

    constructor ()
      ensures Valid() && live == map[] && State() == Initial()
      ensures |heap| == heapNext == 132 && heap[128..] == [Undefined, Null, Boolean(true), Boolean(false)]
      ensures forall i :: 0 <= i < 128 ==> heap[i] == Undefined
    {
      heap, heapNext, wasmVectorLen := Constants(), RESERVED, 0;
      live, free := map[], [];
    }

    function GetObject(idx: nat): JsValue
      requires idx < |heap|
      reads this
    {
      heap[idx]
    }

    method AddHeapObject(obj: JsValue) returns (idx: nat)
      requires Valid()
      modifies this`heap, this`heapNext, this`live, this`free
      ensures Valid() && idx !in old(live) && live == old(live)[idx := obj]
      ensures old(|heap|) <= |heap| <= old(|heap|) + 1 && idx < |heap|
    {
      hide IsChain;
      AddHolds(State(), live, free, obj);
      ghost var after := AddObject(State(), obj).0;
      if heapNext == |heap| {
        heap := heap + [Number(|heap| + 1)];
      }
      idx := heapNext;
      heapNext := heap[idx].n;
      heap := heap[idx := obj];
      live, free := live[idx := obj], if free == [] then [] else free[1..];
      assert State() == after;
    }

    method DropHeapObject(idx: nat)
      requires Valid() && (idx < RESERVED || idx in live)
      modifies this`heap, this`heapNext, this`live, this`free
      ensures Valid() && live == old(live) - {idx} && |heap| == old(|heap|)
    {
      if idx < RESERVED {
        assert live - {idx} == live;
        return;
      }
      DropHolds(State(), live, free, idx);
      hide IsChain;
      heap := heap[idx := Number(heapNext)];
      heapNext := idx;
      live, free := live - {idx}, [idx] + free;
    }

    method TakeObject(idx: nat) returns (ret: JsValue)
      requires Valid() && (idx < RESERVED || idx in live)
      modifies this`heap, this`heapNext, this`live, this`free
      ensures Valid() && live == old(live) - {idx} && |heap| == old(|heap|)
      ensures (idx <= 128 ==> ret == Undefined) && (idx == 129 ==> ret == Null)
      ensures (idx == 130 ==> ret == Boolean(true)) && (idx == 131 ==> ret == Boolean(false))
      ensures idx >= 132 ==> ret == old(live)[idx]
    {
      hide IsChain;
      ret := GetObject(idx);
      DropHeapObject(idx);
    }

    /** One turn of the loop that passes an array: the handle is stored as a word. */
    method StoreHeapObject(obj: JsValue, mem: array<nat>, at: nat)
      requires Valid() && at < mem.Length && |heap| + 1 < WORD
      modifies this`heap, this`heapNext, this`live, this`free, mem
      ensures Valid() && mem[at] !in old(live) && live == old(live)[mem[at] := obj]
      ensures forall i :: 0 <= i < mem.Length && i != at ==> mem[i] == old(mem[i])
      ensures |heap| <= old(|heap|) + 1
    {
      hide Holds;
      var handle := AddHeapObject(obj);
      mem[at] := handle % WORD;
    }

    /** `ptr` is what `malloc` returned: aligned, with room for the handles. */
    method PassArrayJsValueToWasm0(objs: seq<JsValue>, mem: array<nat>, ptr: nat)
      requires Valid() && ptr % 4 == 0 && ptr / 4 + |objs| <= mem.Length && |heap| + |objs| < WORD
      modifies this, mem
      ensures Valid() && wasmVectorLen == |objs|
      ensures Handed(old(live), live, mem[ptr / 4..ptr / 4 + |objs|], objs)
      ensures forall i :: 0 <= i < mem.Length && !(ptr / 4 <= i < ptr / 4 + |objs|) ==> mem[i] == old(mem[i])
    {
      hide Holds, Handed;
      HandedNone(live);
      ghost var handles: seq<nat> := [];
      assert objs[..0] == [];
      for i := 0 to |objs|
        invariant Valid() && |heap| + (|objs| - i) < WORD
        invariant mem[ptr / 4..ptr / 4 + i] == handles
        invariant Handed(old(live), live, handles, objs[..i])
        invariant forall k :: 0 <= k < mem.Length && !(ptr / 4 <= k < ptr / 4 + i) ==> mem[k] == old(mem[k])
      {
        ghost var before := live;
        StoreHeapObject(objs[i], mem, ptr / 4 + i);
        HandedOneMore(old(live), before, handles, objs[..i], mem[ptr / 4 + i], objs[i]);
        assert objs[..i + 1] == objs[..i] + [objs[i]];
        handles := handles + [mem[ptr / 4 + i]];
      }
      assert objs[..|objs|] == objs;
      wasmVectorLen := |objs|;
    }

    method GetArrayJsValueFromWasm0(mem: array<nat>, ptr: nat, len: nat) returns (result: seq<JsValue>)
      requires Valid() && ptr % 4 == 0 && ptr / 4 + len <= mem.Length
      requires TakeableOnce(mem[ptr / 4..ptr / 4 + len], live)
      modifies this
      ensures Valid() && live == Left(old(live), mem[ptr / 4..ptr / 4 + len])
      ensures |result| == len && forall i :: 0 <= i < len ==> result[i] == old(live)[mem[ptr / 4..ptr / 4 + len][i]]
    {
      hide Holds;
      var slice := mem[ptr / 4..ptr / 4 + len];
      result := [];
      for i := 0 to |slice|
        invariant Valid() && |result| == i
        invariant live == Left(old(live), slice[..i])
        invariant forall k :: 0 <= k < i ==> result[k] == old(live)[slice[k]]
      {
        assert slice[i] in old(live) && slice[i] !in slice[..i];
        LeftMembers(old(live), slice[..i]);
        assert slice[..i + 1] == slice[..i] + [slice[i]];
        LiveAboveConstants(State(), live, free, slice[i]);
        var taken := TakeObject(slice[i]);
        result := result + [taken];
      }
      assert slice[..|slice|] == slice;
    }
  }

  lemma {:induction false} LiveAboveConstants(s: Slab, live: map<nat, JsValue>, free: seq<nat>, idx: nat)
    requires Holds(s, live, free) && idx in live
    ensures RESERVED <= idx < |s.heap|
  {
  }
}
