/** The executor of MyPromise.all keeps the invariant while it walks its input: the
    aggregate block and its record are allocated together, each position is pushed as
    undefined, a plain item is written at once and a MyPromise item gets the ThenBlock
    that will write it. */
module Aggregation {
  import opened Values
  import opened Invariants
  import opened Preservation
  import opened Allocation

  /** The aggregate of a fresh MyPromise.all call `a`: pending, its executor running. */
  function AggCell(a: nat): (c: Cell)
    ensures c.state == Pending && c.kind == Root(Aggregate(a)) && c.toFeed == [] && c.toSettle == []
  {
    Cell(Pending, Null, [], [], Root(Aggregate(a)))
  }

  /** The variables of a fresh MyPromise.all call over `items` whose aggregate is block
      `cell`: `values = []`, `numUnResolved = promises.length`, `errorOccurs = false`. */
  function FreshAll(items: seq<Value>, cell: CellId): (A: AllState)
    ensures A.items == items && A.cell == cell && A.values == [] && A.numUnResolved == |items|
    ensures !A.errorOccurs && A.filled == {} && A.slot == map[]
  {
    AllState(items, cell, [], |items|, false, {}, 0, map[])
  }

  /** Every filled position of call `a` lies below the length of `values`. */
  lemma FilledBelow(cells: seq<Cell>, aggs: seq<AllState>, tasks: seq<CellId>, parent: map<CellId, CellId>,
                    settleOn: map<CellId, CellId>, code: Code, a: nat)
    requires Inv(cells, aggs, tasks, parent, settleOn, code, {}) && a < |aggs|
    ensures forall j | j in aggs[a].filled :: j < |aggs[a].values|
  {
    assert AggOk(cells, aggs, a);
    forall j | j in aggs[a].filled ensures j < |aggs[a].values| {
      assert SlotValueOk(cells, aggs[a], j);
    }
  }

  /** Once every plain item below `n` of MyPromise.all call `a` (plain in heap `start`,
      from which the heap has only progressed) has had its position filled, `values`
      holds that item there; whether an item is a MyPromise does not change. */
  lemma PlainCopied(cells: seq<Cell>, aggs: seq<AllState>, tasks: seq<CellId>, parent: map<CellId, CellId>,
                    settleOn: map<CellId, CellId>, code: Code, a: nat, start: seq<Cell>, n: nat)
    requires Inv(cells, aggs, tasks, parent, settleOn, code, {}) && a < |aggs| && n <= |aggs[a].items|
    requires aggs[a].cell < |start| && Progressed(start, cells)
    requires forall j | 0 <= j < n && !IsPromise(start, aggs[a].items[j]) :: j in aggs[a].filled
    ensures forall j | 0 <= j < n :: IsPromise(cells, aggs[a].items[j]) == IsPromise(start, aggs[a].items[j])
    ensures forall j | 0 <= j < n && !IsPromise(start, aggs[a].items[j]) ::
              j < |aggs[a].values| && aggs[a].values[j] == aggs[a].items[j]
  {
    assert AggOk(cells, aggs, a);
    forall j | 0 <= j < n
      ensures IsPromise(cells, aggs[a].items[j]) == IsPromise(start, aggs[a].items[j])
      ensures !IsPromise(start, aggs[a].items[j]) ==> j < |aggs[a].values| && aggs[a].values[j] == aggs[a].items[j]
    {
      if !IsPromise(start, aggs[a].items[j]) {
        assert SlotValueOk(cells, aggs[a], j);
      }
    }
  }

  /** Allocating the aggregate of a new MyPromise.all call over `items`, each of which is
      no reference or one to an existing block. */
  lemma AppendAggKeepsInv(cells: seq<Cell>, aggs: seq<AllState>, tasks: seq<CellId>, parent: map<CellId, CellId>,
                          settleOn: map<CellId, CellId>, code: Code, items: seq<Value>)
    requires Inv(cells, aggs, tasks, parent, settleOn, code, {})
    requires forall j | 0 <= j < |items| :: items[j].Ref? ==> items[j].id < |cells|
    ensures Inv(cells + [AggCell(|aggs|)], aggs + [FreshAll(items, |cells|)], tasks, parent, settleOn, code, {})
  {
    var n := |cells|;
    var b := cells + [AggCell(|aggs|)];
    var aggs1 := aggs + [FreshAll(items, n)];
    assert n !in parent && n !in settleOn;
    assert Frozen(cells, b);
    forall i | 0 <= i < |b| ensures CellShape(b, aggs1, parent, settleOn, i) {
      if i < n {
        assert CellShape(cells, aggs, parent, settleOn, i);
      }
    }
    forall x | x in parent ensures NodeOk(b, parent, settleOn, code, {}, x) {
      assert NodeOk(cells, parent, settleOn, code, {}, x);
      if b[x].state.IsFinal() {
        NodeSettlesGrow(cells, b, parent, parent, settleOn, code, x, Outcome(b[x]));
      }
    }
    forall x | x in settleOn ensures FlatOk(b, parent, settleOn, code, {}, x) {
      assert FlatOk(cells, parent, settleOn, code, {}, x);
      FlatTargetStable(cells, b, code, cells[x].kind, Outcome(cells[parent[x]]), settleOn[x]);
    }
    forall x | 0 <= x < |aggs1| ensures AggOk(b, aggs1, x) {
      if x < |aggs| {
        AggOkStable(cells, b, aggs, x);
        assert aggs1[x] == aggs[x];
      }
    }
    forall x | 0 <= x < |b| && b[x].kind.Then? ensures SlotNodeOk(b, aggs1, parent, x) {
      assert SlotNodeOk(cells, aggs, parent, x);
    }
    forall i | 0 <= i < |b| ensures RootOk(b, i) {
      if i < n {
        assert RootOk(cells, i);
      }
    }
  }

  /** `values.push(undefined)` for the next position of call `a`. */
  lemma PushValueKeepsInv(cells: seq<Cell>, aggs: seq<AllState>, tasks: seq<CellId>, parent: map<CellId, CellId>,
                          settleOn: map<CellId, CellId>, code: Code, a: nat)
    requires Inv(cells, aggs, tasks, parent, settleOn, code, {})
    requires a < |aggs| && |aggs[a].values| < |aggs[a].items|
    ensures Inv(cells, aggs[a := aggs[a].(values := aggs[a].values + [Undefined])], tasks, parent, settleOn, code, {})
  {
    var A := aggs[a];
    var B := A.(values := A.values + [Undefined]);
    assert AggOk(cells, aggs, a);
    FilledBelow(cells, aggs, tasks, parent, settleOn, code, a);
    assert |A.items| - 1 !in A.filled;
    forall j | j in B.filled ensures SlotValueOk(cells, B, j) {
      assert SlotValueOk(cells, A, j);
    }
    assert AggOk(cells, aggs[a := B], a);
    forall x | 0 <= x < |cells| && cells[x].kind.Then? && cells[x].kind.onValue.AllValue? &&
               cells[x].kind.onValue.agg == a && cells[x].state == WaitInput
      ensures cells[x].kind.onValue.idx !in B.filled && cells[x].kind.onValue.idx < |B.values|
    {
      assert SlotNodeOk(cells, aggs, parent, x);
    }
    AggUpdate(cells, aggs, tasks, parent, settleOn, code, a, B);
  }

  /** `values[idx] = prom; numUnResolved--;` for a position `i` of call `a` whose item is not
      a MyPromise and which has no ThenBlock registered. */
  lemma PlainKeepsInv(cells: seq<Cell>, aggs: seq<AllState>, tasks: seq<CellId>, parent: map<CellId, CellId>,
                      settleOn: map<CellId, CellId>, code: Code, a: nat, i: nat)
    requires Inv(cells, aggs, tasks, parent, settleOn, code, {})
    requires a < |aggs| && i < |aggs[a].values| && i !in aggs[a].filled && i !in aggs[a].slot
    requires i < |aggs[a].items| && !IsPromise(cells, aggs[a].items[i])
    ensures var A := aggs[a];
            Inv(cells, aggs[a := A.(values := A.values[i := A.items[i]], numUnResolved := A.numUnResolved - 1,
                                     filled := A.filled + {i})], tasks, parent, settleOn, code, {})
    ensures aggs[a].cell < |cells| && (!aggs[a].errorOccurs ==> cells[aggs[a].cell].state == Pending)
  {
    var A := aggs[a];
    var B := A.(values := A.values[i := A.items[i]], numUnResolved := A.numUnResolved - 1, filled := A.filled + {i});
    assert AggOk(cells, aggs, a);
    assert CellShape(cells, aggs, parent, settleOn, A.cell);
    assert SlotValueOk(cells, B, i);
    forall j | j in B.filled ensures SlotValueOk(cells, B, j) {
      if j != i {
        assert SlotValueOk(cells, A, j);
      }
    }
    assert |B.filled| == |A.filled| + 1;
    assert AggOk(cells, aggs[a := B], a);
    forall x | 0 <= x < |cells| && cells[x].kind.Then? && cells[x].kind.onValue.AllValue? &&
               cells[x].kind.onValue.agg == a && cells[x].state == WaitInput
      ensures cells[x].kind.onValue.idx !in B.filled && cells[x].kind.onValue.idx < |B.values|
    {
      assert SlotNodeOk(cells, aggs, parent, x);
    }
    AggUpdate(cells, aggs, tasks, parent, settleOn, code, a, B);
  }

  /** Reserving position `i` of call `a` for the ThenBlock `n` about to be chained. */
  lemma SlotKeepsInv(cells: seq<Cell>, aggs: seq<AllState>, tasks: seq<CellId>, parent: map<CellId, CellId>,
                     settleOn: map<CellId, CellId>, code: Code, a: nat, i: nat, n: CellId)
    requires Inv(cells, aggs, tasks, parent, settleOn, code, {})
    requires a < |aggs| && i !in aggs[a].slot
    ensures Inv(cells, aggs[a := aggs[a].(slot := aggs[a].slot[i := n])], tasks, parent, settleOn, code, {})
  {
    var aggs1 := aggs[a := aggs[a].(slot := aggs[a].slot[i := n])];
    forall x | 0 <= x < |cells| ensures CellShape(cells, aggs1, parent, settleOn, x) {
      assert CellShape(cells, aggs, parent, settleOn, x);
    }
    forall x | 0 <= x < |aggs1| ensures AggOk(cells, aggs1, x) {
      assert AggOk(cells, aggs, x);
    }
    forall x | 0 <= x < |cells| && cells[x].kind.Then? ensures SlotNodeOk(cells, aggs1, parent, x) {
      assert SlotNodeOk(cells, aggs, parent, x);
    }
  }

  /** The ThenBlock about to be chained onto MyPromise `m`, the item at position `i` of
      call `a`, runs the value continuation of that position. */
  lemma ValueNodeOk(cells: seq<Cell>, aggs: seq<AllState>, parent: map<CellId, CellId>, a: nat, i: nat, m: CellId)
    requires a < |aggs| && i < |aggs[a].items| && IsPromise(cells, aggs[a].items[i]) && m == aggs[a].items[i].id
    requires i in aggs[a].slot && aggs[a].slot[i] == |cells| && i !in aggs[a].filled && i < |aggs[a].values|
    ensures SlotNodeOk(cells + [NewNode(Kind.Then(AllValue(a, i), NoHandler))], aggs, parent[|cells| := m], |cells|)
  {
  }

  /** The ThenBlock about to be chained onto value continuation `t` of call `a` runs the
      error continuation of that call. */
  lemma ErrorNodeOk(cells: seq<Cell>, aggs: seq<AllState>, parent: map<CellId, CellId>, a: nat, t: CellId)
    requires a < |aggs| && t < |cells| && cells[t].kind.Then?
    requires cells[t].kind.onValue.AllValue? && cells[t].kind.onValue.agg == a
    ensures SlotNodeOk(cells + [NewNode(Kind.Then(NoHandler, AllError(a)))], aggs, parent[|cells| := t], |cells|)
  {
  }

  /** Once no position of call `a` is unresolved and no error occurred, `resolve(values)`
      is a call the aggregate may receive. */
  lemma AllReady(cells: seq<Cell>, aggs: seq<AllState>, tasks: seq<CellId>, parent: map<CellId, CellId>,
                 settleOn: map<CellId, CellId>, code: Code, a: nat)
    requires Inv(cells, aggs, tasks, parent, settleOn, code, {})
    requires a < |aggs| && aggs[a].numUnResolved <= 0 && !aggs[a].errorOccurs
    ensures aggs[a].cell < |cells| && cells[aggs[a].cell].kind == Root(Aggregate(a))
    ensures |aggs[a].values| == |aggs[a].items|
    ensures forall j | 0 <= j < |aggs[a].items| :: j in aggs[a].filled
    ensures Allowed(cells, aggs, parent, settleOn, code, aggs[a].cell, Resolve(Arr(aggs[a].values)))
  {
    var A := aggs[a];
    assert AggOk(cells, aggs, a);
    FilledBelow(cells, aggs, tasks, parent, settleOn, code, a);
    FilledAll(A.filled, |A.values|, |A.items|);
  }

  /** A resolved aggregate holds the current `values` of its call. */
  lemma ResolvedValues(cells: seq<Cell>, aggs: seq<AllState>, tasks: seq<CellId>, parent: map<CellId, CellId>,
                       settleOn: map<CellId, CellId>, code: Code, a: nat, v: seq<Value>)
    requires Inv(cells, aggs, tasks, parent, settleOn, code, {})
    requires a < |aggs| && aggs[a].cell < |cells|
    requires cells[aggs[a].cell].state == Resolved && cells[aggs[a].cell].valueErr == Arr(v)
    ensures aggs[a].values == v
  {
    assert AggOk(cells, aggs, a);
  }

  /** Position `j` of MyPromise.all call `a`, whose item is a MyPromise, has both of its
      continuations: ThenBlock `slot[j]`, chained onto the item, runs the value
      continuation, and a ThenBlock chained onto that one runs the error continuation. */
  ghost predicate Registered(cells: seq<Cell>, aggs: seq<AllState>, parent: map<CellId, CellId>, a: nat, j: nat) {
    && a < |aggs| && j < |aggs[a].items| && j in aggs[a].slot
    && var t1 := aggs[a].slot[j];
       && t1 < |cells| && t1 in parent && aggs[a].items[j].Ref? && parent[t1] == aggs[a].items[j].id
       && aggs[a].items[j].id < |cells|
       && cells[t1].kind == Kind.Then(AllValue(a, j), NoHandler)
       && exists t2 | t2 in parent && parent[t2] == t1 ::
            t2 < |cells| && cells[t2].kind == Kind.Then(NoHandler, AllError(a))
  }

  /** Every item below `n` of call `a` that is a MyPromise in heap `start` is registered. */
  ghost predicate RegisteredBelow(cells: seq<Cell>, aggs: seq<AllState>, parent: map<CellId, CellId>,
                                  a: nat, start: seq<Cell>, n: nat) {
    a < |aggs| && n <= |aggs[a].items| &&
    forall j | 0 <= j < n && IsPromise(start, aggs[a].items[j]) :: Registered(cells, aggs, parent, a, j)
  }

  /** RegisteredBelow grows by one position once that position, if a MyPromise, is
      registered. */
  lemma RegisteredBelowNext(cells: seq<Cell>, aggs: seq<AllState>, parent: map<CellId, CellId>,
                            a: nat, start: seq<Cell>, n: nat)
    requires RegisteredBelow(cells, aggs, parent, a, start, n) && n < |aggs[a].items|
    requires IsPromise(start, aggs[a].items[n]) ==> Registered(cells, aggs, parent, a, n)
    ensures RegisteredBelow(cells, aggs, parent, a, start, n + 1)
  {
  }

  /** A registration survives any later step: blocks keep their subclass, chaining only
      adds to `parent`, and the position record keeps its item and its slot. */
  lemma RegisteredKept(c0: seq<Cell>, a0: seq<AllState>, p0: map<CellId, CellId>,
                       c1: seq<Cell>, a1: seq<AllState>, p1: map<CellId, CellId>, a: nat, j: nat)
    requires Registered(c0, a0, p0, a, j)
    requires Progressed(c0, c1) && (forall w | w in p0 :: w in p1 && p1[w] == p0[w])
    requires a < |a1| && a1[a].items == a0[a].items && j in a1[a].slot && a1[a].slot[j] == a0[a].slot[j]
    ensures Registered(c1, a1, p1, a, j)
  {
    var t1 := a0[a].slot[j];
    var t2 :| t2 in p0 && p0[t2] == t1 && t2 < |c0| && c0[t2].kind == Kind.Then(NoHandler, AllError(a));
    assert p1[t2] == t1 && c1[t2].kind == c0[t2].kind;
  }

  /** Every MyPromise item below `n` (a MyPromise in heap `start`) stays registered from
      one heap to a later one. */
  lemma RegisteredBelowKept(c0: seq<Cell>, a0: seq<AllState>, p0: map<CellId, CellId>,
                            c1: seq<Cell>, a1: seq<AllState>, p1: map<CellId, CellId>,
                            a: nat, start: seq<Cell>, n: nat)
    requires RegisteredBelow(c0, a0, p0, a, start, n)
    requires Progressed(c0, c1) && (forall w | w in p0 :: w in p1 && p1[w] == p0[w])
    requires a < |a1| && a1[a].items == a0[a].items
    requires forall j | j in a0[a].slot :: j in a1[a].slot && a1[a].slot[j] == a0[a].slot[j]
    ensures RegisteredBelow(c1, a1, p1, a, start, n)
  {
    forall j | 0 <= j < n && IsPromise(start, a1[a].items[j]) ensures Registered(c1, a1, p1, a, j) {
      RegisteredKept(c0, a0, p0, c1, a1, p1, a, j);
    }
  }

  /** Where the executor of MyPromise.all call `a` stands before position `idx`: one
      `undefined` pushed per position, ThenBlocks registered only below `idx`, every
      plain item below `idx` written and every MyPromise item below `idx` given both
      continuations, no block gone back since the aggregate was allocated in heap
      `start` and, while every item so far was plain, the heap untouched, `values`
      holding exactly those items and nothing failed; once that holds of all items, the
      aggregate has resolved to them. */
  ghost predicate Walked(cells: seq<Cell>, aggs: seq<AllState>, parent: map<CellId, CellId>,
                         a: nat, start: seq<Cell>, idx: nat) {
    && a < |aggs|
    && var A := aggs[a];
       && A.cell < |start| && idx <= |A.items|
       && |A.values| == idx
       && (forall j | j in A.slot :: j < idx)
       && (forall j | 0 <= j < idx && !IsPromise(start, A.items[j]) :: j in A.filled)
       && RegisteredBelow(cells, aggs, parent, a, start, idx)
       && Progressed(start, cells)
       && ((forall j | 0 <= j < idx :: !IsPromise(start, A.items[j])) ==>
             && (idx < |A.items| ==>
                   cells == start && A.values == A.items[..idx] && |A.filled| == idx && !A.errorOccurs)
             && (0 < idx == |A.items| ==>
                   cells[A.cell].state == Resolved && cells[A.cell].valueErr == Arr(A.items)))
  }

  /** Where the executor of MyPromise.all call `a` stands once it has pushed `undefined`
      for position `idx`: as Walked before `idx`, with one more position in `values`. */
  ghost predicate Pushed(cells: seq<Cell>, aggs: seq<AllState>, parent: map<CellId, CellId>,
                         a: nat, start: seq<Cell>, idx: nat) {
    && a < |aggs|
    && var A := aggs[a];
       && A.cell < |start| && idx < |A.items| && |A.values| == idx + 1
       && (forall j | j in A.slot :: j < idx) && idx !in A.filled
       && (forall j | 0 <= j < idx && !IsPromise(start, A.items[j]) :: j in A.filled)
       && RegisteredBelow(cells, aggs, parent, a, start, idx)
       && Progressed(start, cells)
       && ((forall j | 0 <= j < idx :: !IsPromise(start, A.items[j])) ==>
             cells == start && A.values == A.items[..idx] + [Undefined] && |A.filled| == idx && !A.errorOccurs)
  }

  /** The first half of a turn of the walk, on a heap that satisfies the invariant:
      pushing `undefined` keeps the invariant, reaches Pushed, and leaves whether the
      item is a MyPromise as it was when the walk started. */
  lemma PushTurn(cells: seq<Cell>, aggs: seq<AllState>, tasks: seq<CellId>, parent: map<CellId, CellId>,
                 settleOn: map<CellId, CellId>, code: Code, a: nat, start: seq<Cell>, idx: nat)
    requires Inv(cells, aggs, tasks, parent, settleOn, code, {})
    requires Walked(cells, aggs, parent, a, start, idx) && idx < |aggs[a].items|
    ensures var a1 := aggs[a := aggs[a].(values := aggs[a].values + [Undefined])];
            && Inv(cells, a1, tasks, parent, settleOn, code, {})
            && Pushed(cells, a1, parent, a, start, idx)
            && IsPromise(cells, aggs[a].items[idx]) == IsPromise(start, aggs[a].items[idx])
  {
    FilledBelow(cells, aggs, tasks, parent, settleOn, code, a);
    assert AggOk(cells, aggs, a);
    PushValueKeepsInv(cells, aggs, tasks, parent, settleOn, code, a);
    PushedOf(cells, aggs, aggs[a := aggs[a].(values := aggs[a].values + [Undefined])], parent, a, start, idx);
  }

  /** `values.push(undefined)` for position `idx` of the walk. */
  lemma PushedOf(cells: seq<Cell>, a0: seq<AllState>, a1: seq<AllState>, parent: map<CellId, CellId>,
                 a: nat, start: seq<Cell>, idx: nat)
    requires Walked(cells, a0, parent, a, start, idx) && idx < |a0[a].items|
    requires forall j | j in a0[a].filled :: j < |a0[a].values|
    requires a1 == a0[a := a0[a].(values := a0[a].values + [Undefined])]
    ensures Pushed(cells, a1, parent, a, start, idx)
  {
    ProgressedRefl(cells);
    RegisteredBelowKept(cells, a0, parent, cells, a1, parent, a, start, idx);
  }

  /** The walk moves past MyPromise item `idx` once it is registered: the heap went from
      `c1` to `c2`, chaining only added to `parent`, and only the slot of `idx` changed. */
  lemma WalkedSlot(c1: seq<Cell>, a1: seq<AllState>, p1: map<CellId, CellId>,
                   c2: seq<Cell>, a2: seq<AllState>, p2: map<CellId, CellId>,
                   a: nat, start: seq<Cell>, idx: nat, t1: CellId)
    requires Pushed(c1, a1, p1, a, start, idx) && IsPromise(start, a1[a].items[idx])
    requires Progressed(c1, c2) && (forall w | w in p1 :: w in p2 && p2[w] == p1[w])
    requires AggsKept(a1[a := a1[a].(slot := a1[a].slot[idx := t1])], a2)
    requires Registered(c2, a2, p2, a, idx)
    ensures Walked(c2, a2, p2, a, start, idx + 1)
  {
    ProgressedTrans(start, c1, c2);
    assert a2[a].slot == a1[a].slot[idx := t1];
    RegisteredBelowKept(c1, a1, p1, c2, a2, p2, a, start, idx);
    RegisteredBelowNext(c2, a2, p2, a, start, idx);
  }

  /** The walk moves past plain item `idx` once FillPlain has written it, in heap `c2`. */
  lemma WalkedPlain(c1: seq<Cell>, a1: seq<AllState>, c2: seq<Cell>, a2: seq<AllState>,
                    parent: map<CellId, CellId>, a: nat, start: seq<Cell>, idx: nat)
    requires Pushed(c1, a1, parent, a, start, idx) && !IsPromise(start, a1[a].items[idx])
    requires a1[a].numUnResolved == |a1[a].items| - |a1[a].filled|
    requires Progressed(c1, c2) && AggsKept(a1, a2)
    requires a2[a].values == a1[a].values[idx := a1[a].items[idx]] && idx in a2[a].filled
    requires a1[a].numUnResolved > 1 || a1[a].errorOccurs ==>
               && c2 == c1
               && a2 == a1[a := a1[a].(values := a2[a].values, numUnResolved := a1[a].numUnResolved - 1,
                                       filled := a1[a].filled + {idx})]
    requires a1[a].numUnResolved <= 1 && !a1[a].errorOccurs ==>
               a2[a].cell < |c2| && c2[a2[a].cell].state == Resolved && c2[a2[a].cell].valueErr == Arr(a2[a].values)
    ensures Walked(c2, a2, parent, a, start, idx + 1)
  {
    var A1, A2 := a1[a], a2[a];
    ProgressedTrans(start, c1, c2);
    RegisteredBelowKept(c1, a1, parent, c2, a2, parent, a, start, idx);
    RegisteredBelowNext(c2, a2, parent, a, start, idx);
    if forall j | 0 <= j < idx + 1 :: !IsPromise(start, A1.items[j]) {
      PlainPrefixNext(A1, A2, c1, c2, start, idx);
    }
  }

  /** The all-plain part of WalkedPlain, on the record of the call alone: the prefix of
      `values` grows by the item, and the last plain item resolves the aggregate. */
  lemma PlainPrefixNext(A1: AllState, A2: AllState, c1: seq<Cell>, c2: seq<Cell>, start: seq<Cell>, idx: nat)
    requires idx < |A1.items| && idx !in A1.filled
    requires c1 == start && A1.values == A1.items[..idx] + [Undefined] && |A1.filled| == idx && !A1.errorOccurs
    requires A1.numUnResolved == |A1.items| - |A1.filled|
    requires A2.items == A1.items && A2.cell == A1.cell
    requires A2.values == A1.values[idx := A1.items[idx]]
    requires A1.numUnResolved > 1 || A1.errorOccurs ==>
               c2 == c1 && A2 == A1.(values := A2.values, numUnResolved := A1.numUnResolved - 1,
                                     filled := A1.filled + {idx})
    requires A1.numUnResolved <= 1 && !A1.errorOccurs ==>
               A2.cell < |c2| && c2[A2.cell].state == Resolved && c2[A2.cell].valueErr == Arr(A2.values)
    ensures A2.values == A2.items[..idx + 1]
    ensures idx + 1 < |A2.items| ==> c2 == start && |A2.filled| == idx + 1 && !A2.errorOccurs
    ensures idx + 1 == |A2.items| ==> c2[A2.cell].state == Resolved && c2[A2.cell].valueErr == Arr(A2.items)
  {
    assert A2.values == A1.items[..idx + 1];
    if idx + 1 < |A1.items| {
      assert |A1.filled + {idx}| == idx + 1;
    } else {
      assert A1.items[..idx + 1] == A1.items;
    }
  }

  /** What a walk up to `n` has done, read in the current heap: every plain item below
      `n` sits at its own position of `values`, and every MyPromise item below `n` is
      registered. */
  lemma WalkedFacts(cells: seq<Cell>, aggs: seq<AllState>, tasks: seq<CellId>, parent: map<CellId, CellId>,
                    settleOn: map<CellId, CellId>, code: Code, a: nat, start: seq<Cell>, n: nat)
    requires Inv(cells, aggs, tasks, parent, settleOn, code, {}) && Walked(cells, aggs, parent, a, start, n)
    ensures forall j | 0 <= j < n :: IsPromise(cells, aggs[a].items[j]) == IsPromise(start, aggs[a].items[j])
    ensures forall j | 0 <= j < n && !IsPromise(cells, aggs[a].items[j]) ::
              j < |aggs[a].values| && aggs[a].values[j] == aggs[a].items[j]
    ensures forall j | 0 <= j < n && IsPromise(cells, aggs[a].items[j]) :: Registered(cells, aggs, parent, a, j)
  {
    PlainCopied(cells, aggs, tasks, parent, settleOn, code, a, start, n);
  }

  /** A walk that has not started: the record of call `a` is fresh and its aggregate
      lies in heap `cells`. */
  lemma WalkedBegin(cells: seq<Cell>, aggs: seq<AllState>, parent: map<CellId, CellId>, a: nat)
    requires a < |aggs| && aggs[a] == FreshAll(aggs[a].items, aggs[a].cell) && aggs[a].cell < |cells|
    ensures Walked(cells, aggs, parent, a, cells, 0)
  {
    ProgressedRefl(cells);
    assert aggs[a].items[..0] == [];
  }

  /** The start of `MyPromise.all(items)`: the pending aggregate and the fresh record of
      the call keep the invariant and quiescence, and the walk stands before position 0. */
  lemma WalkBegins(cells: seq<Cell>, aggs: seq<AllState>, tasks: seq<CellId>, parent: map<CellId, CellId>,
                   settleOn: map<CellId, CellId>, code: Code, items: seq<Value>)
    requires Inv(cells, aggs, tasks, parent, settleOn, code, {}) && Quiescent(cells, parent, settleOn)
    requires forall j | 0 <= j < |items| :: items[j].Ref? ==> items[j].id < |cells|
    ensures var c1, a1 := cells + [AggCell(|aggs|)], aggs + [FreshAll(items, |cells|)];
            && Inv(c1, a1, tasks, parent, settleOn, code, {}) && Quiescent(c1, parent, settleOn)
            && Progressed(cells, c1) && Walked(c1, a1, parent, |aggs|, c1, 0)
  {
    AppendAggKeepsInv(cells, aggs, tasks, parent, settleOn, code, items);
    QuiescentAppendRoot(cells, parent, settleOn, AggCell(|aggs|));
    ProgressedAppend(cells, AggCell(|aggs|));
    WalkedBegin(cells + [AggCell(|aggs|)], aggs + [FreshAll(items, |cells|)], parent, |aggs|);
  }

  /** A walk over every item of call `a`, read in the heap `c0` the call started from
      (which decides the same items to be MyPromises as `start`): `values` has one
      position per item, each plain item at its own position and each MyPromise item
      registered; with only plain items, the aggregate has resolved to them. */
  lemma WalkedDone(cells: seq<Cell>, aggs: seq<AllState>, tasks: seq<CellId>, parent: map<CellId, CellId>,
                   settleOn: map<CellId, CellId>, code: Code, a: nat, start: seq<Cell>, c0: seq<Cell>)
    requires Inv(cells, aggs, tasks, parent, settleOn, code, {}) && a < |aggs|
    requires Walked(cells, aggs, parent, a, start, |aggs[a].items|)
    requires Progressed(c0, start) && forall j | 0 <= j < |aggs[a].items| :: aggs[a].items[j].Ref? ==> aggs[a].items[j].id < |c0|
    ensures Progressed(c0, cells)
    ensures |aggs[a].values| == |aggs[a].items|
    ensures |aggs[a].items| > 0 && (forall j | 0 <= j < |aggs[a].items| :: !IsPromise(c0, aggs[a].items[j])) ==>
              aggs[a].cell < |cells| && cells[aggs[a].cell].state == Resolved
              && cells[aggs[a].cell].valueErr == Arr(aggs[a].items)
    ensures forall j | 0 <= j < |aggs[a].items| && !IsPromise(c0, aggs[a].items[j]) ::
              aggs[a].values[j] == aggs[a].items[j]
    ensures forall j | 0 <= j < |aggs[a].items| && IsPromise(c0, aggs[a].items[j]) :: Registered(cells, aggs, parent, a, j)
  {
    forall j | 0 <= j < |aggs[a].items| ensures IsPromise(start, aggs[a].items[j]) == IsPromise(c0, aggs[a].items[j]) {
    }
    ProgressedTrans(c0, start, cells);
    WalkedFacts(cells, aggs, tasks, parent, settleOn, code, a, start, |aggs[a].items|);
    assert AggOk(cells, aggs, a);
  }
}
