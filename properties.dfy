/** What every heap reachable in my_promise.js promises about the outcome of a block:
    facts that follow from the invariant alone, whichever interleaving of executors,
    timers, then/catch/finally and MyPromise.all calls led to it. */
module Properties {
  import opened Values
  import opened Invariants
  import opened Preservation
  import opened Aggregation

  /** A ThenBlock or FinallyBlock leaves WAIT_INPUT only after the block it was chained
      onto has settled: handlers never run early. */
  lemma FedAfterParent(cells: seq<Cell>, aggs: seq<AllState>, tasks: seq<CellId>, parent: map<CellId, CellId>,
                       settleOn: map<CellId, CellId>, code: Code, w: CellId)
    requires Inv(cells, aggs, tasks, parent, settleOn, code, {})
    requires w < |cells| && !cells[w].kind.Root? && cells[w].state != WaitInput
    ensures w in parent && parent[w] < |cells| && cells[parent[w]].state.IsFinal()
  {
    assert CellShape(cells, aggs, parent, settleOn, w);
    assert NodeOk(cells, parent, settleOn, code, {}, w);
  }

  /** A settled ThenBlock with no handler for what its parent settled with passes that
      outcome on unchanged. */
  lemma ThenPassesOn(cells: seq<Cell>, aggs: seq<AllState>, tasks: seq<CellId>, parent: map<CellId, CellId>,
                     settleOn: map<CellId, CellId>, code: Code, w: CellId)
    requires Inv(cells, aggs, tasks, parent, settleOn, code, {})
    requires w < |cells| && cells[w].kind.Then? && cells[w].state.IsFinal()
    ensures w in parent && parent[w] < |cells| && cells[parent[w]].state.IsFinal()
    ensures HandlerFor(cells[w].kind, Outcome(cells[parent[w]])).NoHandler? ==>
              Outcome(cells[w]) == Outcome(cells[parent[w]])
  {
    FedAfterParent(cells, aggs, tasks, parent, settleOn, code, w);
    assert NodeOk(cells, parent, settleOn, code, {}, w);
  }

  /** A settled ThenBlock whose handler threw is rejected with what was thrown. */
  lemma ThenThrowRejects(cells: seq<Cell>, aggs: seq<AllState>, tasks: seq<CellId>, parent: map<CellId, CellId>,
                         settleOn: map<CellId, CellId>, code: Code, w: CellId)
    requires Inv(cells, aggs, tasks, parent, settleOn, code, {})
    requires w < |cells| && cells[w].kind.Then? && cells[w].state.IsFinal()
    ensures w in parent && parent[w] < |cells| && cells[parent[w]].state.IsFinal()
    ensures var po := Outcome(cells[parent[w]]);
            var h := HandlerFor(cells[w].kind, po);
            !h.NoHandler? && Invoke(code, h, po.Payload()).Throws? ==>
              cells[w].state == Rejected && cells[w].valueErr == Invoke(code, h, po.Payload()).thrown
  {
    FedAfterParent(cells, aggs, tasks, parent, settleOn, code, w);
    assert NodeOk(cells, parent, settleOn, code, {}, w);
  }

  /** A settled ThenBlock whose handler returned `v` has the outcome of the block it
      waited on: when `v` is a MyPromise, `v` itself; when it is not, the
      MyPromise.resolve(v) made for it, so that the block resolved to `v`.  A reference
      to a block allocated only after the handler returned was a plain value then. */
  lemma ThenAdopts(cells: seq<Cell>, aggs: seq<AllState>, tasks: seq<CellId>, parent: map<CellId, CellId>,
                   settleOn: map<CellId, CellId>, code: Code, w: CellId)
    requires Inv(cells, aggs, tasks, parent, settleOn, code, {})
    requires w < |cells| && cells[w].kind.Then? && cells[w].state.IsFinal()
    ensures w in parent && parent[w] < |cells| && cells[parent[w]].state.IsFinal()
    ensures var po := Outcome(cells[parent[w]]);
            var h := HandlerFor(cells[w].kind, po);
            !h.NoHandler? && Invoke(code, h, po.Payload()).Returns? ==>
              var v := Invoke(code, h, po.Payload()).result;
              && w in settleOn && settleOn[w] < |cells| && cells[settleOn[w]].state.IsFinal()
              && Outcome(cells[w]) == Outcome(cells[settleOn[w]])
              && (IsPromise(cells, v) && v.id <= settleOn[w] ==> settleOn[w] == v.id)
              && (IsPromise(cells, v) && v.id > settleOn[w] ==> Outcome(cells[w]) == Resolve(v))
              && (!IsPromise(cells, v) ==> Outcome(cells[w]) == Resolve(v))
  {
    FedAfterParent(cells, aggs, tasks, parent, settleOn, code, w);
    assert NodeOk(cells, parent, settleOn, code, {}, w);
    var po := Outcome(cells[parent[w]]);
    var h := HandlerFor(cells[w].kind, po);
    if !h.NoHandler? && Invoke(code, h, po.Payload()).Returns? {
      assert FlatOk(cells, parent, settleOn, code, {}, w);
      assert RootOk(cells, settleOn[w]);
    }
  }

  /** In a quiescent heap, once the MyPromise item at registered position `j` of
      MyPromise.all call `a` has been rejected, the ThenBlock with the value continuation
      has passed the rejection on unchanged, and the ThenBlock with the error
      continuation chained onto it has been fed, so that its `errorOccurs = true;
      reject(err)` has run. */
  lemma RejectedItemReachesError(cells: seq<Cell>, aggs: seq<AllState>, tasks: seq<CellId>,
                                 parent: map<CellId, CellId>, settleOn: map<CellId, CellId>, code: Code,
                                 a: nat, j: nat)
    requires Inv(cells, aggs, tasks, parent, settleOn, code, {}) && Quiescent(cells, parent, settleOn)
    requires Registered(cells, aggs, parent, a, j)
    requires cells[aggs[a].items[j].id].state == Rejected
    ensures var t1 := aggs[a].slot[j];
            && cells[t1].state == Rejected && cells[t1].valueErr == cells[aggs[a].items[j].id].valueErr
            && exists t2 | t2 in parent && parent[t2] == t1 ::
                 t2 < |cells| && cells[t2].kind == Kind.Then(NoHandler, AllError(a)) && cells[t2].state != WaitInput
  {
    var m, t1 := aggs[a].items[j].id, aggs[a].slot[j];
    assert cells[t1].state != WaitInput;
    assert t1 in settleOn ==> FlatOk(cells, parent, settleOn, code, {}, t1);
    assert cells[t1].state.IsFinal();
    ThenPassesOn(cells, aggs, tasks, parent, settleOn, code, t1);
    var t2 :| t2 in parent && parent[t2] == t1 && t2 < |cells| && cells[t2].kind == Kind.Then(NoHandler, AllError(a));
    assert cells[t2].state != WaitInput;
  }

  /** A settled FinallyBlock passes on what its parent settled with, unless its cleanup
      threw, in which case it is rejected with what was thrown. */
  lemma FinallyOutcome(cells: seq<Cell>, aggs: seq<AllState>, tasks: seq<CellId>, parent: map<CellId, CellId>,
                       settleOn: map<CellId, CellId>, code: Code, w: CellId)
    requires Inv(cells, aggs, tasks, parent, settleOn, code, {})
    requires w < |cells| && cells[w].kind.Finally? && cells[w].state.IsFinal()
    ensures w in parent && parent[w] < |cells| && cells[parent[w]].state.IsFinal()
    ensures Outcome(cells[w]) == FinallyFate(code, cells[w].kind.cleanup, Outcome(cells[parent[w]]))
  {
    FedAfterParent(cells, aggs, tasks, parent, settleOn, code, w);
    assert NodeOk(cells, parent, settleOn, code, {}, w);
  }

  /** A MyPromise made by MyPromise.resolve(v) or MyPromise.reject(e) settles only as
      its timer says. */
  lemma TimerOutcome(cells: seq<Cell>, aggs: seq<AllState>, tasks: seq<CellId>, parent: map<CellId, CellId>,
                     settleOn: map<CellId, CellId>, code: Code, r: CellId)
    requires Inv(cells, aggs, tasks, parent, settleOn, code, {})
    requires r < |cells| && cells[r].kind.Root? && cells[r].kind.origin.Scheduled? && cells[r].state.IsFinal()
    ensures Outcome(cells[r]) == cells[r].kind.origin.fate
  {
    assert RootOk(cells, r);
  }

  /** A resolved MyPromise.all aggregate holds one value per item, in order: the item
      itself, or the value the item (a MyPromise, then resolved) resolved to. */
  lemma AllResolvedValues(cells: seq<Cell>, aggs: seq<AllState>, tasks: seq<CellId>, parent: map<CellId, CellId>,
                          settleOn: map<CellId, CellId>, code: Code, a: nat)
    requires Inv(cells, aggs, tasks, parent, settleOn, code, {})
    requires a < |aggs| && aggs[a].cell < |cells| && cells[aggs[a].cell].state == Resolved
    ensures var A := aggs[a];
            && A.numUnResolved == 0 && !A.errorOccurs
            && cells[A.cell].valueErr == Arr(A.values)
            && |A.values| == |A.items|
            && forall j | 0 <= j < |A.items| ::
                 if IsPromise(cells, A.items[j]) then
                   cells[A.items[j].id].state == Resolved && A.values[j] == cells[A.items[j].id].valueErr
                 else A.values[j] == A.items[j]
  {
    var A := aggs[a];
    assert AggOk(cells, aggs, a);
    FilledBelow(cells, aggs, tasks, parent, settleOn, code, a);
    if |A.items| > 0 {
      assert |A.items| - 1 in A.filled;
    }
    forall j | 0 <= j < |A.items|
      ensures if IsPromise(cells, A.items[j]) then
                cells[A.items[j].id].state == Resolved && A.values[j] == cells[A.items[j].id].valueErr
              else A.values[j] == A.items[j]
    {
      assert SlotValueOk(cells, A, j);
    }
    FilledExact(A.filled, |A.items|);
  }

  /** A rejected MyPromise.all aggregate carries the error of one of its items, a
      MyPromise that was rejected with it. */
  lemma AllRejectedError(cells: seq<Cell>, aggs: seq<AllState>, tasks: seq<CellId>, parent: map<CellId, CellId>,
                         settleOn: map<CellId, CellId>, code: Code, a: nat)
    requires Inv(cells, aggs, tasks, parent, settleOn, code, {})
    requires a < |aggs| && aggs[a].cell < |cells| && cells[aggs[a].cell].state == Rejected
    ensures aggs[a].errorOccurs
    ensures var A := aggs[a];
            exists j | 0 <= j < |A.items| ::
              && IsPromise(cells, A.items[j])
              && cells[A.items[j].id].state == Rejected
              && cells[A.cell].valueErr == cells[A.items[j].id].valueErr
  {
    var A := aggs[a];
    assert AggOk(cells, aggs, a);
    var j := A.firstRejected;
    assert IsPromise(cells, A.items[j]);
  }

  /** A MyPromise.all call over no item has registered no continuation anywhere, so
      nothing can ever call its resolve or reject: its aggregate stays pending. */
  lemma EmptyAllOrphaned(cells: seq<Cell>, aggs: seq<AllState>, tasks: seq<CellId>, parent: map<CellId, CellId>,
                         settleOn: map<CellId, CellId>, code: Code, a: nat)
    requires Inv(cells, aggs, tasks, parent, settleOn, code, {})
    requires a < |aggs| && aggs[a].items == []
    ensures forall w | 0 <= w < |cells| && cells[w].kind.Then? ::
              && !(cells[w].kind.onValue.AllValue? && cells[w].kind.onValue.agg == a)
              && !(cells[w].kind.onError.AllError? && cells[w].kind.onError.agg == a)
  {
    forall w | 0 <= w < |cells| && cells[w].kind.Then?
      ensures !(cells[w].kind.onValue.AllValue? && cells[w].kind.onValue.agg == a)
      ensures !(cells[w].kind.onError.AllError? && cells[w].kind.onError.agg == a)
    {
      assert SlotNodeOk(cells, aggs, parent, w);
      if cells[w].kind.onError.AllError? {
        assert SlotNodeOk(cells, aggs, parent, parent[w]);
      }
    }
  }
}
