/** The chain blocks of my_promise.js (ChainBlockBase and its subclasses ThenBlock,
    FinallyBlock and MyPromise) and the timer queue that stands in for setTimeout. */
module Promise {
  import opened Values
  import opened Invariants
  import opened Preservation
  import opened Allocation
  import opened Aggregation

  /** A handler argument of then/catch: a missing (null) one is no handler. */
  function UserHandler(h: Option<HandlerId>): (r: Handler)
    ensures r.NoHandler? <==> h.None?
    ensures h.Some? ==> r == User(h.value)
  {
    if h.Some? then User(h.value) else NoHandler
  }

  /** The heap of chain blocks.  `cells[id]` holds the fields of block `id`; a JavaScript
      reference to a block is its id.  `aggs[a]` holds the variables captured by the
      executor of the `a`-th MyPromise.all call.  `tasks` is the queue of timers set by
      MyPromise.resolve/reject, each naming the block it settles.  `parent` records which
      block each ThenBlock/FinallyBlock was chained onto and `settleOn` which block a
      ThenBlock waits on after its handler returned; neither is stored by the source. */
  class Runtime {
    var cells: seq<Cell>
    var aggs: seq<AllState>
    var tasks: seq<CellId>
    ghost var parent: map<CellId, CellId>
    ghost var settleOn: map<CellId, CellId>
    const code: Code

    ghost predicate Valid()
      reads this
    {
      Inv(cells, aggs, tasks, parent, settleOn, code, {})
    }

    /** What feeding `s` to node `w` of kind `k` brings about: a ThenBlock without a
        handler for `s` passes it on, a ThenBlock whose handler throws rejects with what
        was thrown, a ThenBlock whose handler returns waits on the block its result calls
        for (or has already taken its outcome), and a FinallyBlock settles as its cleanup
        dictates. */
    ghost predicate SettledAsFed(w: CellId, k: Kind, s: Fate)
      requires !k.Root?
      reads this
    {
      && w < |cells|
      && if k.Then? then
           var h := HandlerFor(k, s);
           && (h.NoHandler? ==> cells[w].state.IsFinal() && Outcome(cells[w]) == s)
           && (!h.NoHandler? && Invoke(code, h, s.Payload()).Throws? ==>
                 cells[w].state == Rejected && cells[w].valueErr == Invoke(code, h, s.Payload()).thrown)
           && (!h.NoHandler? && Invoke(code, h, s.Payload()).Returns? ==> Adopts(cells, settleOn, code, w, k, s))
         else cells[w].state.IsFinal() && Outcome(cells[w]) == FinallyFate(code, k.cleanup, s)
    }

    ghost function Waiting(): nat
      reads this
    {
      Count(cells, WaitInput)
    }

    ghost function Pendings(): nat
      reads this
    {
      Count(cells, Pending)
    }

    /** `_doResolve(value)` (fate Resolve) and `_doReject(err)` (fate Reject): a pending
        block settles once, feeds every block chained onto it and then settles every
        block waiting on it; any other block ignores the call.  A pending block may be
        called while off the settle stack it waited on (just popped from it, or never
        pushed because its target had settled already). */
    method DoSettle(c: CellId, s: Fate)
      requires c < |cells|
      requires Valid() || (Inv(cells, aggs, tasks, parent, settleOn, code, {c}) && cells[c].state == Pending)
      requires cells[c].state == Pending ==> Allowed(cells, aggs, parent, settleOn, code, c, s)
      modifies this
      decreases Waiting(), Pendings(), 0
      ensures Valid()
      ensures StepOk(old(cells), old(aggs), old(tasks), old(parent), old(settleOn),
                     cells, aggs, tasks, parent, settleOn, {}, {c})
      ensures LexLe(Waiting(), Pendings(), old(Waiting()), old(Pendings()))
      ensures old(cells[c].state) != Pending ==>
                cells == old(cells) && aggs == old(aggs) && tasks == old(tasks) && settleOn == old(settleOn)
      ensures old(cells[c].state) == Pending ==>
                cells[c].state.IsFinal() && Outcome(cells[c]) == s && Quiet(cells, parent, c)
      ensures old(cells[c].state) == Pending ==>
                forall w | w in old(cells[c].toSettle) :: w < |cells| && cells[w].state.IsFinal() && Outcome(cells[w]) == s
      ensures old(cells[c].state) == Pending ==>
                forall w | w in settleOn && settleOn[w] == c ::
                  w < |cells| && cells[w].state.IsFinal() && Outcome(cells[w]) == s
      ensures old(cells[c].state) == Pending && old(cells[c].toFeed) == [] && old(cells[c].toSettle) == [] ==>
                && cells == old(cells)[c := old(cells[c]).(state := Settled(s), valueErr := s.Payload())]
                && aggs == old(aggs) && tasks == old(tasks) && settleOn == old(settleOn)
    {
      if cells[c].state != Pending {
        AggStep(cells, aggs, aggs, tasks, parent, settleOn);
        return;
      }
      if Valid() {
        DetachMore(cells, aggs, tasks, parent, settleOn, code, c);
      }
      ghost var c0, a0, t0, s0 := cells, aggs, tasks, settleOn;
      assert CellShape(c0, a0, parent, s0, c);
      ChildrenWaiting(cells, aggs, tasks, parent, settleOn, code, c);
      var settled := cells[c].(state := Settled(s), valueErr := s.Payload());
      CountUpdate(cells, c, settled, WaitInput);
      CountUpdate(cells, c, settled, Pending);
      SettleKeepsInv(cells, aggs, tasks, parent, settleOn, code, c, s);
      cells := cells[c := settled];
      assert StepOk(c0, a0, t0, parent, s0, cells, aggs, tasks, parent, settleOn, {c}, {c});
      FeedAll(c, s, c0, a0, t0, s0);
      SettleAll(c, s, c0, a0, t0, s0);
      Unexempt(c0, cells, parent, c);
      forall w | w in c0[c].toSettle ensures w < |cells| && cells[w].state.IsFinal() && Outcome(cells[w]) == s {
        assert w in s0 && s0[w] == c;
      }
    }

    /** The first loop of `_doResolve`/`_doReject` on settled block `c`: pop each block
        chained onto `c` and feed it the outcome, so that it may run its handler. */
    method FeedAll(c: CellId, s: Fate, ghost c0: seq<Cell>, ghost a0: seq<AllState>, ghost t0: seq<CellId>,
                   ghost s0: map<CellId, CellId>)
      requires Valid() && c < |c0| && !c0[c].state.IsFinal() && c < |cells|
      requires cells[c].state.IsFinal() && Outcome(cells[c]) == s
      requires forall w | w in parent && w < |cells| && parent[w] == c && cells[w].state == WaitInput ::
                 w in cells[c].toFeed
      requires StepOk(c0, a0, t0, parent, s0, cells, aggs, tasks, parent, settleOn, {c}, {c})
      modifies this
      decreases Waiting(), Pendings(), 5
      ensures Valid() && c < |cells| && cells[c].state.IsFinal() && Outcome(cells[c]) == s
      ensures cells[c].toFeed == [] && cells[c].toSettle == old(cells[c].toSettle)
      ensures old(cells[c].toFeed) == [] ==>
                cells == old(cells) && aggs == old(aggs) && tasks == old(tasks) && settleOn == old(settleOn)
      ensures forall w | w in parent && w < |cells| && parent[w] == c :: cells[w].state != WaitInput
      ensures parent == old(parent)
      ensures StepOk(c0, a0, t0, parent, s0, cells, aggs, tasks, parent, settleOn, {c}, {c})
      ensures LexLe(Waiting(), Pendings(), old(Waiting()), old(Pendings()))
    {
      while |cells[c].toFeed| > 0
        invariant Valid() && c < |cells|
        invariant cells[c].state.IsFinal() && Outcome(cells[c]) == s
        invariant cells[c].toSettle == old(cells[c].toSettle)
        invariant forall w | w in parent && w < |cells| && parent[w] == c && cells[w].state == WaitInput ::
                    w in cells[c].toFeed
        invariant old(cells[c].toFeed) == [] ==>
                    cells == old(cells) && aggs == old(aggs) && tasks == old(tasks) && settleOn == old(settleOn)
        invariant parent == old(parent)
        invariant StepOk(c0, a0, t0, parent, s0, cells, aggs, tasks, parent, settleOn, {c}, {c})
        invariant LexLe(Waiting(), Pendings(), old(Waiting()), old(Pendings()))
        decreases |cells[c].toFeed|
      {
        FeedNext(c, s, c0, a0, t0, s0);
      }
    }

    /** One turn of the first loop: pop the top of the feed stack of `c` and feed it. */
    method FeedNext(c: CellId, s: Fate, ghost c0: seq<Cell>, ghost a0: seq<AllState>, ghost t0: seq<CellId>,
                    ghost s0: map<CellId, CellId>)
      requires Valid() && c < |c0| && !c0[c].state.IsFinal() && c < |cells|
      requires cells[c].state.IsFinal() && Outcome(cells[c]) == s && |cells[c].toFeed| > 0
      requires forall w | w in parent && w < |cells| && parent[w] == c && cells[w].state == WaitInput ::
                 w in cells[c].toFeed
      requires StepOk(c0, a0, t0, parent, s0, cells, aggs, tasks, parent, settleOn, {c}, {c})
      modifies this
      decreases Waiting(), Pendings(), 4
      ensures Valid() && c < |cells| && cells[c].state.IsFinal() && Outcome(cells[c]) == s
      ensures cells[c].toFeed == old(cells[c].toFeed[..|cells[c].toFeed| - 1])
      ensures var w := old(cells[c].toFeed[|cells[c].toFeed| - 1]);
              w < |cells| && cells[w].state != WaitInput
      ensures cells[c].toSettle == old(cells[c].toSettle)
      ensures forall w | w in parent && w < |cells| && parent[w] == c && cells[w].state == WaitInput ::
                w in cells[c].toFeed
      ensures parent == old(parent)
      ensures StepOk(c0, a0, t0, parent, s0, cells, aggs, tasks, parent, settleOn, {c}, {c})
      ensures LexLe(Waiting(), Pendings(), old(Waiting()), old(Pendings()))
    {
      var n := |cells[c].toFeed|;
      var w := cells[c].toFeed[n - 1];
      ghost var cb := cells;
      FeedPop(c0, a0, t0, s0, cells, aggs, tasks, parent, settleOn, code, c);
      cells := cells[c := cells[c].(toFeed := cells[c].toFeed[..n - 1])];
      ghost var cm, am, tm, sm := cells, aggs, tasks, settleOn;
      DoFeed(w, s);
      FeedLoopTurn(c0, a0, t0, s0, cb, cm, am, tm, sm, cells, aggs, tasks, settleOn, parent, c, w);
    }

    /** The second loop of `_doResolve`/`_doReject` on settled block `c`: pop each block
        waiting on `c` and settle it with the same outcome. */
    method SettleAll(c: CellId, s: Fate, ghost c0: seq<Cell>, ghost a0: seq<AllState>, ghost t0: seq<CellId>,
                     ghost s0: map<CellId, CellId>)
      requires Valid() && c < |c0| && !c0[c].state.IsFinal() && c < |cells|
      requires cells[c].state.IsFinal() && Outcome(cells[c]) == s && cells[c].toFeed == []
      requires forall w | w in parent && w < |cells| && parent[w] == c :: cells[w].state != WaitInput
      requires StepOk(c0, a0, t0, parent, s0, cells, aggs, tasks, parent, settleOn, {c}, {c})
      modifies this
      decreases Waiting(), Pendings(), 5
      ensures Valid() && c < |cells| && cells[c].state.IsFinal() && Outcome(cells[c]) == s
      ensures Quiet(cells, parent, c)
      ensures forall w | w in settleOn && settleOn[w] == c ::
                w < |cells| && cells[w].state.IsFinal() && Outcome(cells[w]) == s
      ensures old(cells[c].toSettle) == [] ==>
                cells == old(cells) && aggs == old(aggs) && tasks == old(tasks) && settleOn == old(settleOn)
      ensures parent == old(parent)
      ensures StepOk(c0, a0, t0, parent, s0, cells, aggs, tasks, parent, settleOn, {c}, {c})
      ensures LexLe(Waiting(), Pendings(), old(Waiting()), old(Pendings()))
    {
      while |cells[c].toSettle| > 0
        invariant Valid() && c < |cells|
        invariant cells[c].state.IsFinal() && Outcome(cells[c]) == s
        invariant cells[c].toFeed == []
        invariant forall w | w in parent && w < |cells| && parent[w] == c :: cells[w].state != WaitInput
        invariant old(cells[c].toSettle) == [] ==>
                    cells == old(cells) && aggs == old(aggs) && tasks == old(tasks) && settleOn == old(settleOn)
        invariant parent == old(parent)
        invariant StepOk(c0, a0, t0, parent, s0, cells, aggs, tasks, parent, settleOn, {c}, {c})
        invariant LexLe(Waiting(), Pendings(), old(Waiting()), old(Pendings()))
        decreases |cells[c].toSettle|
      {
        SettleNext(c, s, c0, a0, t0, s0);
      }
      WaitersSettled(cells, aggs, tasks, parent, settleOn, code, c);
    }

    /** One turn of the second loop: pop the top of the settle stack of `c` and settle it. */
    method SettleNext(c: CellId, s: Fate, ghost c0: seq<Cell>, ghost a0: seq<AllState>, ghost t0: seq<CellId>,
                      ghost s0: map<CellId, CellId>)
      requires Valid() && c < |c0| && !c0[c].state.IsFinal() && c < |cells|
      requires cells[c].state.IsFinal() && Outcome(cells[c]) == s && cells[c].toFeed == []
      requires |cells[c].toSettle| > 0
      requires forall w | w in parent && w < |cells| && parent[w] == c :: cells[w].state != WaitInput
      requires StepOk(c0, a0, t0, parent, s0, cells, aggs, tasks, parent, settleOn, {c}, {c})
      modifies this
      decreases Waiting(), Pendings(), 4
      ensures Valid() && c < |cells| && cells[c].state.IsFinal() && Outcome(cells[c]) == s
      ensures cells[c].toFeed == []
      ensures cells[c].toSettle == old(cells[c].toSettle[..|cells[c].toSettle| - 1])
      ensures var w := old(cells[c].toSettle[|cells[c].toSettle| - 1]);
              w < |cells| && cells[w].state.IsFinal() && Outcome(cells[w]) == s
      ensures forall w | w in parent && w < |cells| && parent[w] == c :: cells[w].state != WaitInput
      ensures parent == old(parent)
      ensures StepOk(c0, a0, t0, parent, s0, cells, aggs, tasks, parent, settleOn, {c}, {c})
      ensures LexLe(Waiting(), Pendings(), old(Waiting()), old(Pendings()))
    {
      var n := |cells[c].toSettle|;
      var w := cells[c].toSettle[n - 1];
      SettlePop(c0, a0, t0, s0, cells, aggs, tasks, parent, settleOn, code, c);
      cells := cells[c := cells[c].(toSettle := cells[c].toSettle[..n - 1])];
      ghost var cm, am, tm, sm := cells, aggs, tasks, settleOn;
      DoSettle(w, s);
      SettleLoopStep(c0, a0, t0, s0, cm, am, tm, sm, cells, aggs, tasks, settleOn, parent, c, w);
    }

    /** `_doFeedValue(value)` (fate Resolve) and `_doFeedError(err)` (fate Reject): a block
        waiting for input becomes pending and runs its feed closure; any other block
        ignores the call. */
    method DoFeed(w: CellId, s: Fate)
      requires Valid() && w < |cells|
      requires cells[w].state == WaitInput ==>
                 w in parent && parent[w] < |cells| &&
                 cells[parent[w]].state.IsFinal() && Outcome(cells[parent[w]]) == s
      modifies this
      decreases Waiting(), Pendings(), 3
      ensures Valid()
      ensures StepOk(old(cells), old(aggs), old(tasks), old(parent), old(settleOn),
                     cells, aggs, tasks, parent, settleOn, {}, {})
      ensures LexLe(Waiting(), Pendings(), old(Waiting()), old(Pendings()))
      ensures cells[w].state != WaitInput
      ensures old(cells[w].state) == WaitInput ==> !old(cells[w].kind).Root? && SettledAsFed(w, old(cells[w].kind), s)
      ensures old(cells[w].state) != WaitInput ==>
                cells == old(cells) && aggs == old(aggs) && tasks == old(tasks) && settleOn == old(settleOn)
    {
      if cells[w].state != WaitInput {
        AggStep(cells, aggs, aggs, tasks, parent, settleOn);
        return;
      }
      ghost var c0, a0, t0, s0 := cells, aggs, tasks, settleOn;
      ghost var w0, p0 := Waiting(), Pendings();
      FeedReady(cells, aggs, tasks, parent, settleOn, code, w);
      var fed := cells[w].(state := Pending);
      CountUpdate(cells, w, fed, WaitInput);
      CountUpdate(cells, w, fed, Pending);
      StateStep(cells, aggs, tasks, parent, settleOn, w, fed);
      cells := cells[w := fed];
      ghost var cm, am, tm, sm := cells, aggs, tasks, settleOn;
      if cells[w].kind.Then? {
        FeedThen(w, s, w0, p0);
      } else {
        FeedFinally(w, s, w0, p0);
      }
      StepTrans(c0, a0, t0, parent, s0, cm, am, tm, parent, sm, cells, aggs, tasks, parent, settleOn,
                {}, {w}, {}, {w});
      ghost var none: set<CellId> := {};
      assert {w} + {w} == {w} && none + none == none;
      LonelyShrink(c0, cells, s0, settleOn, w);
      assert EvolvedAt(cm, cells, parent, {}, w);
    }

    /** The feed closures of a FinallyBlock: run the cleanup with no argument, then
        settle with the outcome that was fed, or reject with what the cleanup threw. */
    method FeedFinally(w: CellId, s: Fate, ghost w0: nat, ghost p0: nat)
      requires Valid() && w < |cells| && w in parent && parent[w] < |cells|
      requires cells[w].kind.Finally? && cells[w].state == Pending
      requires cells[parent[w]].state.IsFinal() && Outcome(cells[parent[w]]) == s
      requires Waiting() < w0
      modifies this
      decreases w0, p0, 2
      ensures Valid()
      ensures StepOk(old(cells), old(aggs), old(tasks), old(parent), old(settleOn),
                     cells, aggs, tasks, parent, settleOn, {}, {w})
      ensures Waiting() < w0
      ensures cells[w].state.IsFinal() && Outcome(cells[w]) == FinallyFate(code, old(cells[w].kind.cleanup), s)
    {
      var cleanup := cells[w].kind.cleanup;
      if cleanup.Some? && code(cleanup.value, []).Throws? {
        DoSettle(w, Reject(code(cleanup.value, []).thrown));
      } else {
        DoSettle(w, s);
      }
    }

    /** The feed closures of a ThenBlock: with no handler for what was fed, pass it on;
        if the handler throws, reject with what it threw; otherwise flatten its result. */
    method FeedThen(w: CellId, s: Fate, ghost w0: nat, ghost p0: nat)
      requires Valid() && w < |cells| && w in parent && parent[w] < |cells| && w !in settleOn
      requires cells[w].kind.Then? && cells[w].state == Pending
      requires cells[parent[w]].state.IsFinal() && Outcome(cells[parent[w]]) == s
      requires HandlerFor(cells[w].kind, s).AllValue? ==>
                 var h := HandlerFor(cells[w].kind, s);
                 h.agg < |aggs| && h.idx !in aggs[h.agg].filled && h.idx < |aggs[h.agg].values|
      requires Waiting() < w0
      modifies this
      decreases w0, p0, 2
      ensures Valid()
      ensures StepOk(old(cells), old(aggs), old(tasks), old(parent), old(settleOn),
                     cells, aggs, tasks, parent, settleOn, {}, {w})
      ensures Waiting() < w0
      ensures var h := HandlerFor(old(cells[w].kind), s);
              && (h.NoHandler? ==> cells[w].state.IsFinal() && Outcome(cells[w]) == s)
              && (!h.NoHandler? && Invoke(code, h, s.Payload()).Throws? ==>
                    cells[w].state == Rejected && cells[w].valueErr == Invoke(code, h, s.Payload()).thrown)
              && (!h.NoHandler? && Invoke(code, h, s.Payload()).Returns? ==>
                    Adopts(cells, settleOn, code, w, old(cells[w].kind), s))
    {
      var h := HandlerFor(cells[w].kind, s);
      if h.NoHandler? {
        // Use the value or error transparently.
        DoSettle(w, s);
        return;
      }
      ghost var c0, a0, t0, s0 := cells, aggs, tasks, settleOn;
      HandlerMatches(cells, aggs, tasks, parent, settleOn, code, w, s);
      if h.AllValue? {
        SlotValue(w, h.agg, h.idx, s.value, w0, p0);
      } else if h.AllError? {
        SlotError(w, h.agg, s.error, w0, p0);
      } else {
        AggStep(cells, aggs, aggs, tasks, parent, settleOn);
      }
      StillLonely(c0, cells, parent, s0, settleOn, w);
      var comp := Invoke(code, h, s.Payload());
      ghost var cm, am, tm, sm := cells, aggs, tasks, settleOn;
      if comp.Throws? {
        DoSettle(w, Reject(comp.thrown));
      } else {
        Flatten(w, comp.result, w0, p0);
      }
      StepTrans(c0, a0, t0, parent, s0, cm, am, tm, parent, sm, cells, aggs, tasks, parent, settleOn,
                {}, {}, {}, {w});
      ghost var none: set<CellId> := {};
      assert {} + {w} == {w} && none + none == none;
    }

    /** `result instanceof MyPromise` or else `result = MyPromise.resolve(result)`, then
        `result._addSubBlockToResolveReject(this)`: fed ThenBlock `w`, whose handler
        returned `result`, waits on that MyPromise. */
    method Flatten(w: CellId, result: Value, ghost w0: nat, ghost p0: nat)
      requires Valid() && w < |cells| && w in parent && parent[w] < |cells| && w !in settleOn
      requires cells[w].kind.Then? && cells[w].state == Pending && cells[parent[w]].state.IsFinal()
      requires !HandlerFor(cells[w].kind, Outcome(cells[parent[w]])).NoHandler?
      requires Invoke(code, HandlerFor(cells[w].kind, Outcome(cells[parent[w]])),
                      Outcome(cells[parent[w]]).Payload()) == Returns(result)
      requires Waiting() < w0
      modifies this
      decreases w0, p0, 1
      ensures Valid()
      ensures StepOk(old(cells), old(aggs), old(tasks), old(parent), old(settleOn),
                     cells, aggs, tasks, parent, settleOn, {}, {w})
      ensures Waiting() < w0
      ensures w in settleOn && settleOn[w] == if IsPromise(old(cells), result) then result.id else old(|cells|)
      ensures IsPromise(old(cells), result) && old(cells[result.id].state).IsFinal() ==>
                cells[w].state.IsFinal() && Outcome(cells[w]) == old(Outcome(cells[result.id]))
      ensures IsPromise(old(cells), result) && !old(cells[result.id].state).IsFinal() ==>
                && cells == old(cells)[result.id := old(cells[result.id]).(toSettle := old(cells[result.id].toSettle) + [w])]
                && aggs == old(aggs) && tasks == old(tasks) && settleOn == old(settleOn)[w := result.id]
      ensures !IsPromise(old(cells), result) ==>
                && cells == old(cells) + [Cell(Pending, Null, [], [w], Root(Scheduled(Resolve(result))))]
                && tasks == old(tasks) + [old(|cells|)] && aggs == old(aggs) && settleOn == old(settleOn)[w := old(|cells|)]
      ensures Adopts(cells, settleOn, code, w, old(cells[w].kind), old(Outcome(cells[parent[w]])))
    {
      ghost var cA, aA, tA, sA := cells, aggs, tasks, settleOn;
      var target: CellId;
      if IsPromise(cells, result) {
        target := result.id;
      } else {
        target := Schedule(Resolve(result));
      }
      ghost var extra := cells[|cA|..];
      assert cells == cA + extra;
      assert FlatTarget(cells, code, cells[w].kind, Outcome(cells[parent[w]]), target);
      RegisterKeepsInv(cells, aggs, tasks, parent, settleOn, code, w, target);
      settleOn := settleOn[w := target];
      FlattenStep(cA, aggs, tA, parent, sA, extra, tasks, w, target);
      ghost var cm, am, tm, sm := cells, aggs, tasks, settleOn;
      ghost var wrapper := Cell(Pending, Null, [], [], Root(Scheduled(Resolve(result))));
      assert !IsPromise(cA, result) ==> target == |cA| && cm == cA + [wrapper];
      AddToSettle(target, w);
      if !IsPromise(cA, result) {
        assert cm[target] == wrapper && wrapper.toSettle + [w] == [w];
        assert cells == cA + [wrapper.(toSettle := [w])];
      }
      StepTrans(cA, aA, tA, parent, sA, cm, am, tm, parent, sm, cells, aggs, tasks, parent, settleOn,
                {}, {w}, {}, {w});
      ghost var none: set<CellId> := {};
      assert {w} + {w} == {w} && none + none == none;
      assert EvolvedAt(cA, cells, parent, {}, w);
      assert EvolvedAt(cA, cells, parent, {}, parent[w]);
      AdoptsOf(cells, aggs, tasks, parent, settleOn, code, w);
    }

    /** The value continuation `(val) => { values[idx] = val; numUnResolved--; ... }` that
        MyPromise.all call `a` registers on the item at position `i`: it records `v` and
        resolves the aggregate once no position is left and no error occurred. */
    method SlotValue(w: CellId, a: nat, i: nat, v: Value, ghost w0: nat, ghost p0: nat)
      requires Valid() && w < |cells| && w in parent && parent[w] < |cells|
      requires cells[w].state == Pending && cells[w].kind == Kind.Then(AllValue(a, i), NoHandler)
      requires cells[parent[w]].state == Resolved && cells[parent[w]].valueErr == v
      requires a < |aggs| && i !in aggs[a].filled && i < |aggs[a].values|
      requires Waiting() < w0
      modifies this
      decreases w0, p0, 1
      ensures Valid()
      ensures StepOk(old(cells), old(aggs), old(tasks), old(parent), old(settleOn),
                     cells, aggs, tasks, parent, settleOn, {}, {})
      ensures Waiting() < w0
      ensures aggs[a].cell < |cells| && aggs[a].values == old(aggs[a].values)[i := v]
      ensures old(aggs[a].numUnResolved) > 1 || old(aggs[a].errorOccurs) ==>
                && cells == old(cells) && tasks == old(tasks) && settleOn == old(settleOn)
                && aggs == old(aggs)[a := old(aggs[a]).(values := aggs[a].values,
                                                        numUnResolved := old(aggs[a].numUnResolved) - 1,
                                                        filled := old(aggs[a].filled) + {i})]
      ensures old(aggs[a].numUnResolved) <= 1 && !old(aggs[a].errorOccurs) ==>
                cells[aggs[a].cell].state == Resolved && cells[aggs[a].cell].valueErr == Arr(aggs[a].values)
    {
      ghost var c0, a0, t0, s0 := cells, aggs, tasks, settleOn;
      var A := aggs[a];
      ValueKeepsInv(cells, aggs, tasks, parent, settleOn, code, w, a, i, v);
      var B := A.(values := A.values[i := v], numUnResolved := A.numUnResolved - 1, filled := A.filled + {i});
      aggs := aggs[a := B];
      AggStep(cells, a0, aggs, tasks, parent, settleOn);
      if B.numUnResolved <= 0 && !B.errorOccurs {
        AllReady(cells, aggs, tasks, parent, settleOn, code, a);
        ghost var cm, am, tm, sm := cells, aggs, tasks, settleOn;
        assert CellShape(cells, aggs, parent, settleOn, B.cell);
        DoSettle(B.cell, Resolve(Arr(B.values)));
        StepTrans(c0, a0, t0, parent, s0, cm, am, tm, parent, sm, cells, aggs, tasks, parent, settleOn,
                  {}, {}, {}, {B.cell});
        RootUnexempt(c0, cells, s0, settleOn, B.cell);
        ResolvedValues(cells, aggs, tasks, parent, settleOn, code, a, B.values);
      }
    }

    /** The error continuation `(err) => { errorOccurs = true; reject(err); }` that
        MyPromise.all call `a` registers after the value continuation. */
    method SlotError(w: CellId, a: nat, e: Value, ghost w0: nat, ghost p0: nat)
      requires Valid() && w < |cells| && w in parent && parent[w] < |cells|
      requires cells[w].kind == Kind.Then(NoHandler, AllError(a))
      requires cells[parent[w]].state == Rejected && cells[parent[w]].valueErr == e
      requires a < |aggs|
      requires Waiting() < w0
      modifies this
      decreases w0, p0, 1
      ensures Valid()
      ensures StepOk(old(cells), old(aggs), old(tasks), old(parent), old(settleOn),
                     cells, aggs, tasks, parent, settleOn, {}, {})
      ensures Waiting() < w0
      ensures aggs[a].cell < |cells| && cells[aggs[a].cell].state == Rejected && aggs[a].errorOccurs
      ensures old(aggs[a].cell) < |old(cells)| && old(cells[aggs[a].cell].state) == Pending ==>
                cells[aggs[a].cell].valueErr == e
    {
      ghost var c0, a0, t0, s0 := cells, aggs, tasks, settleOn;
      var A := aggs[a];
      ErrorKeepsInv(cells, aggs, tasks, parent, settleOn, code, w, a, e);
      ghost var i := cells[parent[w]].kind.onValue.idx;
      ghost var fr := if cells[A.cell].state == Pending then i else A.firstRejected;
      var B := A.(errorOccurs := true, firstRejected := fr);
      aggs := aggs[a := B];
      AggStep(cells, a0, aggs, tasks, parent, settleOn);
      assert AggOk(cells, aggs, a);
      assert CellShape(cells, aggs, parent, settleOn, B.cell);
      ghost var cm, am, tm, sm := cells, aggs, tasks, settleOn;
      DoSettle(B.cell, Reject(e));
      StepTrans(c0, a0, t0, parent, s0, cm, am, tm, parent, sm, cells, aggs, tasks, parent, settleOn,
                {}, {}, {}, {B.cell});
      RootUnexempt(c0, cells, s0, settleOn, B.cell);
      assert AggOk(cells, aggs, a);
    }

    /** `new MyPromise(...)` for MyPromise.resolve(value) (fate Resolve) or
        MyPromise.reject(err) (fate Reject): a pending MyPromise whose executor has set a
        timer that will settle it with `f`. */
    method Schedule(f: Fate) returns (r: CellId)
      requires Valid()
      modifies this
      ensures Valid()
      ensures r == old(|cells|)
      ensures cells == old(cells) + [Cell(Pending, Null, [], [], Root(Scheduled(f)))]
      ensures tasks == old(tasks) + [r]
      ensures aggs == old(aggs) && settleOn == old(settleOn) && parent == old(parent)
      ensures Waiting() == old(Waiting()) && Pendings() == old(Pendings()) + 1
    {
      r := |cells|;
      var cell := Cell(Pending, Null, [], [], Root(Scheduled(f)));
      CountAppend(cells, cell, WaitInput);
      CountAppend(cells, cell, Pending);
      AppendRootKeepsInv(cells, aggs, tasks, parent, settleOn, code, cell, tasks + [r]);
      cells := cells + [cell];
      tasks := tasks + [r];
    }

    /** `_addSubBlockToResolveReject(blk)` on block `c`: settle `blk` with the outcome of
        `c` at once if `c` has settled, otherwise push it on the settle stack. */
    method AddToSettle(c: CellId, blk: CellId)
      requires Inv(cells, aggs, tasks, parent, settleOn, code, {blk})
      requires c < |cells| && blk < |cells|
      requires blk in settleOn && settleOn[blk] == c && cells[blk].state == Pending
      modifies this
      decreases Waiting(), Pendings(), 1
      ensures Valid()
      ensures StepOk(old(cells), old(aggs), old(tasks), old(parent), old(settleOn),
                     cells, aggs, tasks, parent, settleOn, {}, {blk})
      ensures LexLe(Waiting(), Pendings(), old(Waiting()), old(Pendings()))
      ensures old(cells[c].state).IsFinal() ==>
                cells[blk].state.IsFinal() && Outcome(cells[blk]) == old(Outcome(cells[c]))
      ensures !old(cells[c].state).IsFinal() ==>
                cells == old(cells)[c := old(cells[c]).(toSettle := old(cells[c].toSettle) + [blk])]
                && aggs == old(aggs) && tasks == old(tasks) && settleOn == old(settleOn)
    {
      if cells[c].state == Resolved {
        FlatAllowed(cells, aggs, tasks, parent, settleOn, code, blk);
        DoSettle(blk, Resolve(cells[c].valueErr));
      } else if cells[c].state == Rejected {
        FlatAllowed(cells, aggs, tasks, parent, settleOn, code, blk);
        DoSettle(blk, Reject(cells[c].valueErr));
      } else {
        var pushed := cells[c].(toSettle := cells[c].toSettle + [blk]);
        CountUpdate(cells, c, pushed, WaitInput);
        CountUpdate(cells, c, pushed, Pending);
        ghost var c0 := cells;
        PushSettleKeepsInv(c0, aggs, tasks, parent, settleOn, code, c, blk);
        cells := cells[c := pushed];
        PushStep(c0, aggs, tasks, parent, settleOn, c, pushed);
      }
    }

    // -------------------------------------------------------------------------
    // The public operations.  Each starts and ends in a quiescent heap.
    // -------------------------------------------------------------------------

    /** An empty heap whose user closures behave as `code` says. */
    constructor(code: Code)
      ensures Valid() && Quiescent(cells, parent, settleOn)
      ensures cells == [] && aggs == [] && tasks == [] && this.code == code
    {
      cells := [];
      aggs := [];
      tasks := [];
      parent := map[];
      settleOn := map[];
      this.code := code;
    }

    /** The executor of MyPromise `p` calls the `resolve(value)` (fate Resolve) or
        `reject(err)` (fate Reject) it was given, which are `_doResolve`/`_doReject` of
        `p` bound to it: the first call settles `p`, any later one is ignored. */
    method ExecutorSettle(p: CellId, s: Fate)
      requires Valid() && Quiescent(cells, parent, settleOn)
      requires p < |cells| && cells[p].kind == Root(Origin.Executor)
      modifies this
      ensures Valid() && Quiescent(cells, parent, settleOn)
      ensures p < |cells| && cells[p].kind == Root(Origin.Executor) && parent == old(parent)
      ensures Progressed(old(cells), cells)
      ensures old(cells[p].state) == Pending ==> cells[p].state.IsFinal() && Outcome(cells[p]) == s
      ensures old(cells[p].state) != Pending ==>
                cells == old(cells) && aggs == old(aggs) && tasks == old(tasks) && settleOn == old(settleOn)
      ensures old(cells[p].state) == Pending && old(cells[p].toFeed) == [] && old(cells[p].toSettle) == [] ==>
                && cells == old(cells)[p := old(cells[p]).(state := Settled(s), valueErr := s.Payload())]
                && aggs == old(aggs) && tasks == old(tasks) && settleOn == old(settleOn)
    {
      ghost var c0, s0 := cells, settleOn;
      assert CellShape(cells, aggs, parent, settleOn, p);
      DoSettle(p, s);
      RootUnexempt(c0, cells, s0, settleOn, p);
      SettledQuiet(c0, cells, aggs, tasks, parent, s0, settleOn, code);
      assert EvolvedAt(c0, cells, parent, {}, p);
    }

    /** `new MyPromise(executor)`: a pending MyPromise whose executor runs at once; the
        executor's first resolve/reject call settles it and a throw rejects it unless it
        has settled already. */
    method NewPromise(exec: Executor) returns (p: CellId)
      requires Valid() && Quiescent(cells, parent, settleOn)
      modifies this
      ensures Valid() && Quiescent(cells, parent, settleOn)
      ensures p == old(|cells|) && p < |cells| && cells[p].kind == Root(Origin.Executor) && parent == old(parent)
      ensures Progressed(old(cells), cells)
      ensures |exec.calls| > 0 ==> cells[p].state.IsFinal() && Outcome(cells[p]) == exec.calls[0]
      ensures |exec.calls| == 0 && exec.throws.Some? ==>
                cells[p].state == Rejected && cells[p].valueErr == exec.throws.value
      ensures |exec.calls| == 0 && exec.throws.None? ==>
                cells == old(cells) + [Cell(Pending, Null, [], [], Root(Origin.Executor))]
      ensures |exec.calls| > 0 || exec.throws.Some? ==>
                var f := if |exec.calls| > 0 then exec.calls[0] else Reject(exec.throws.value);
                cells == old(cells) + [Cell(Settled(f), f.Payload(), [], [], Root(Origin.Executor))]
      ensures aggs == old(aggs) && tasks == old(tasks) && settleOn == old(settleOn)
    {
      p := |cells|;
      var cell := Cell(Pending, Null, [], [], Root(Origin.Executor));
      AppendRootKeepsInv(cells, aggs, tasks, parent, settleOn, code, cell, tasks);
      QuiescentAppendRoot(cells, parent, settleOn, cell);
      ProgressedAppend(cells, cell);
      cells := cells + [cell];
      var i := 0;
      while i < |exec.calls|
        invariant 0 <= i <= |exec.calls|
        invariant Valid() && Quiescent(cells, parent, settleOn)
        invariant p < |cells| && cells[p].kind == Root(Origin.Executor) && parent == old(parent)
        invariant i == 0 ==> cells == old(cells) + [cell]
        invariant i > 0 ==>
                    cells == old(cells) + [Cell(Settled(exec.calls[0]), exec.calls[0].Payload(), [], [], Root(Origin.Executor))]
        invariant aggs == old(aggs) && tasks == old(tasks) && settleOn == old(settleOn)
        invariant Progressed(old(cells), cells)
        invariant i > 0 ==> cells[p].state.IsFinal() && Outcome(cells[p]) == exec.calls[0]
      {
        ghost var cm := cells;
        ExecutorSettle(p, exec.calls[i]);
        ProgressedTrans(old(cells), cm, cells);
        i := i + 1;
      }
      if exec.throws.Some? {
        ghost var cm := cells;
        ExecutorSettle(p, Reject(exec.throws.value));
        ProgressedTrans(old(cells), cm, cells);
      }
    }

    /** `MyPromise.resolve(value)`. */
    method PromiseResolve(v: Value) returns (p: CellId)
      requires Valid() && Quiescent(cells, parent, settleOn)
      modifies this
      ensures Valid() && Quiescent(cells, parent, settleOn)
      ensures p == old(|cells|) && cells == old(cells) + [Cell(Pending, Null, [], [], Root(Scheduled(Resolve(v))))]
      ensures tasks == old(tasks) + [p] && aggs == old(aggs) && parent == old(parent) && settleOn == old(settleOn)
    {
      QuiescentAppendRoot(cells, parent, settleOn, Cell(Pending, Null, [], [], Root(Scheduled(Resolve(v)))));
      p := Schedule(Resolve(v));
    }

    /** `MyPromise.reject(err)`. */
    method PromiseReject(e: Value) returns (p: CellId)
      requires Valid() && Quiescent(cells, parent, settleOn)
      modifies this
      ensures Valid() && Quiescent(cells, parent, settleOn)
      ensures p == old(|cells|) && cells == old(cells) + [Cell(Pending, Null, [], [], Root(Scheduled(Reject(e))))]
      ensures tasks == old(tasks) + [p] && aggs == old(aggs) && parent == old(parent) && settleOn == old(settleOn)
    {
      QuiescentAppendRoot(cells, parent, settleOn, Cell(Pending, Null, [], [], Root(Scheduled(Reject(e)))));
      p := Schedule(Reject(e));
    }

    /** The oldest pending `setTimeout(cb, 0)` timer fires (such timers run in the order
        they were set): it settles the MyPromise it belongs to with its fate. */
    method RunTimer() returns (fired: Option<CellId>)
      requires Valid() && Quiescent(cells, parent, settleOn)
      modifies this
      ensures Valid() && Quiescent(cells, parent, settleOn) && parent == old(parent)
      ensures Progressed(old(cells), cells)
      ensures old(tasks) == [] ==>
                fired == None && cells == old(cells) && aggs == old(aggs) && tasks == old(tasks)
      ensures old(tasks) != [] ==>
                && fired == Some(old(tasks[0])) && fired.value < |cells|
                && cells[fired.value].kind == old(cells[tasks[0]].kind)
                && cells[fired.value].state.IsFinal()
                && Outcome(cells[fired.value]) == cells[fired.value].kind.origin.fate
                && old(tasks[1..]) <= tasks
    {
      if tasks == [] {
        ProgressedRefl(cells);
        return None;
      }
      var r := tasks[0];
      ghost var c0, t0, s0 := cells, tasks, settleOn;
      assert CellShape(cells, aggs, parent, settleOn, r);
      DoSettle(r, cells[r].kind.origin.fate);
      RootUnexempt(c0, cells, s0, settleOn, r);
      SettledQuiet(c0, cells, aggs, tasks, parent, s0, settleOn, code);
      assert EvolvedAt(c0, cells, parent, {}, r);
      assert RootOk(cells, r);
      DropTaskKeepsInv(cells, aggs, tasks, parent, settleOn, code);
      tasks := tasks[1..];
      fired := Some(r);
    }

    /** `_addSubBlockToFeed(blk)` on block `c`: feed `blk` the outcome of `c` at once if
        `c` has settled, otherwise push it on the feed stack. */
    method AddToFeed(c: CellId, blk: CellId)
      requires Inv(cells, aggs, tasks, parent, settleOn, code, {blk})
      requires c < |cells| && blk < |cells| && blk !in settleOn
      requires blk in parent && parent[blk] == c && cells[blk].state == WaitInput
      modifies this
      ensures Valid() && parent == old(parent)
      ensures old(cells[c].state).IsFinal() ==>
                && StepOk(old(cells), old(aggs), old(tasks), old(parent), old(settleOn),
                          cells, aggs, tasks, parent, settleOn, {}, {})
                && !old(cells[blk].kind).Root?
                && SettledAsFed(blk, old(cells[blk].kind), old(Outcome(cells[c])))
                && cells[blk].state != WaitInput
      ensures !old(cells[c].state).IsFinal() ==>
                && cells == old(cells)[c := old(cells[c]).(toFeed := old(cells[c].toFeed) + [blk])]
                && aggs == old(aggs) && tasks == old(tasks) && settleOn == old(settleOn)
    {
      if cells[c].state == Resolved {
        AttachKeepsInv(cells, aggs, tasks, parent, settleOn, code, blk);
        DoFeed(blk, Resolve(cells[c].valueErr));
      } else if cells[c].state == Rejected {
        AttachKeepsInv(cells, aggs, tasks, parent, settleOn, code, blk);
        DoFeed(blk, Reject(cells[c].valueErr));
      } else {
        PushFeedKeepsInv(cells, aggs, tasks, parent, settleOn, code, c, blk);
        cells := cells[c := cells[c].(toFeed := cells[c].toFeed + [blk])];
      }
    }

    /** Construct a ThenBlock or FinallyBlock of kind `k` and chain it onto block `p`
        with `_addSubBlockToFeed`. */
    method Chain(p: CellId, k: Kind) returns (blk: CellId)
      requires Valid() && Quiescent(cells, parent, settleOn) && p < |cells| && !k.Root?
      requires k.Then? ==> SlotNodeOk(cells + [NewNode(k)], aggs, parent[|cells| := p], |cells|)
      modifies this
      ensures Valid() && Quiescent(cells, parent, settleOn)
      ensures blk == old(|cells|) && blk < |cells| && cells[blk].kind == k && parent == old(parent)[blk := p]
      ensures Progressed(old(cells), cells) && AggsKept(old(aggs), aggs)
      ensures old(cells[p].state).IsFinal() ==>
                cells[blk].state != WaitInput && SettledAsFed(blk, k, old(Outcome(cells[p])))
      ensures !old(cells[p].state).IsFinal() ==>
                && cells == old(cells)[p := old(cells[p]).(toFeed := old(cells[p].toFeed) + [blk])] + [NewNode(k)]
                && aggs == old(aggs) && tasks == old(tasks) && settleOn == old(settleOn)
    {
      blk := |cells|;
      AppendNodeKeepsInv(cells, aggs, tasks, parent, settleOn, code, p, k);
      QuiescentAppendNode(cells, parent, settleOn, p, k);
      cells := cells + [NewNode(k)];
      parent := parent[blk := p];
      ghost var cm, sm := cells, settleOn;
      AddToFeed(p, blk);
      if cm[p].state.IsFinal() {
        QuiescentKept(cm, cells, aggs, tasks, parent, sm, settleOn, code, {blk});
        EvolvedProgressed(cm, cells, parent, {});
        assert EvolvedAt(cm, cells, parent, {}, blk);
      } else {
        QuiescentPushFeed(cm, parent, settleOn, p, blk);
      }
    }

    /** `then(resolveHandler, rejectHandler)` on block `p`. */
    method Then(p: CellId, onValue: Option<HandlerId>, onError: Option<HandlerId>) returns (blk: CellId)
      requires Valid() && Quiescent(cells, parent, settleOn) && p < |cells|
      modifies this
      ensures Valid() && Quiescent(cells, parent, settleOn)
      ensures blk == old(|cells|) && blk < |cells| && parent == old(parent)[blk := p]
      ensures Progressed(old(cells), cells)
      ensures cells[blk].kind == Kind.Then(UserHandler(onValue), UserHandler(onError))
      ensures old(cells[p].state).IsFinal() ==>
                SettledAsFed(blk, Kind.Then(UserHandler(onValue), UserHandler(onError)), old(Outcome(cells[p])))
      ensures !old(cells[p].state).IsFinal() ==>
                && cells == old(cells)[p := old(cells[p]).(toFeed := old(cells[p].toFeed) + [blk])]
                            + [NewNode(Kind.Then(UserHandler(onValue), UserHandler(onError)))]
                && aggs == old(aggs) && tasks == old(tasks) && settleOn == old(settleOn)
    {
      blk := Chain(p, Kind.Then(UserHandler(onValue), UserHandler(onError)));
    }

    /** `catch(rejectHandler)` on block `p`: `then(null, rejectHandler)`; a missing
        handler makes a block that passes every outcome on. */
    method Catch(p: CellId, onError: Option<HandlerId>) returns (blk: CellId)
      requires Valid() && Quiescent(cells, parent, settleOn) && p < |cells|
      modifies this
      ensures Valid() && Quiescent(cells, parent, settleOn)
      ensures blk == old(|cells|) && blk < |cells| && parent == old(parent)[blk := p]
      ensures Progressed(old(cells), cells)
      ensures cells[blk].kind == Kind.Then(NoHandler, UserHandler(onError))
      ensures old(cells[p].state).IsFinal() ==>
                SettledAsFed(blk, Kind.Then(NoHandler, UserHandler(onError)), old(Outcome(cells[p])))
      ensures !old(cells[p].state).IsFinal() ==>
                && cells == old(cells)[p := old(cells[p]).(toFeed := old(cells[p].toFeed) + [blk])]
                            + [NewNode(Kind.Then(NoHandler, UserHandler(onError)))]
                && aggs == old(aggs) && tasks == old(tasks) && settleOn == old(settleOn)
    {
      blk := Then(p, None, onError);
    }

    /** `finally(finalHandler)` on block `p`. */
    method Finally(p: CellId, cleanup: Option<HandlerId>) returns (blk: CellId)
      requires Valid() && Quiescent(cells, parent, settleOn) && p < |cells|
      modifies this
      ensures Valid() && Quiescent(cells, parent, settleOn)
      ensures blk == old(|cells|) && blk < |cells| && parent == old(parent)[blk := p]
      ensures Progressed(old(cells), cells)
      ensures cells[blk].kind == Kind.Finally(cleanup)
      ensures old(cells[p].state).IsFinal() ==>
                cells[blk].state.IsFinal() && Outcome(cells[blk]) == FinallyFate(code, cleanup, old(Outcome(cells[p])))
      ensures !old(cells[p].state).IsFinal() ==>
                && cells == old(cells)[p := old(cells[p]).(toFeed := old(cells[p].toFeed) + [blk])]
                            + [NewNode(Kind.Finally(cleanup))]
                && aggs == old(aggs) && tasks == old(tasks) && settleOn == old(settleOn)
    {
      blk := Chain(p, Kind.Finally(cleanup));
    }

    // -------------------------------------------------------------------------
    // MyPromise.all
    // -------------------------------------------------------------------------

    /** Where the executor of MyPromise.all call `a` stands before position `idx`. */
    ghost predicate Walking(a: nat, start: seq<Cell>, idx: nat)
      reads this
    {
      Walked(cells, aggs, parent, a, start, idx)
    }

    /** A position `i` of MyPromise.all call `a` whose item is not a MyPromise:
        `values[idx] = prom; numUnResolved--;` and, once no position is left and no error
        has occurred, `resolve(values)` on the aggregate. */
    method FillPlain(a: nat, i: nat)
      requires Valid() && Quiescent(cells, parent, settleOn)
      requires a < |aggs| && i < |aggs[a].items| && i < |aggs[a].values|
      requires i !in aggs[a].filled && i !in aggs[a].slot && !IsPromise(cells, aggs[a].items[i])
      modifies this
      ensures Valid() && Quiescent(cells, parent, settleOn) && parent == old(parent)
      ensures Progressed(old(cells), cells) && AggsKept(old(aggs), aggs)
      ensures aggs[a].values == old(aggs[a].values)[i := old(aggs[a].items[i])] && i in aggs[a].filled
      ensures old(aggs[a].numUnResolved) > 1 || old(aggs[a].errorOccurs) ==>
                && cells == old(cells) && tasks == old(tasks) && settleOn == old(settleOn)
                && aggs == old(aggs)[a := old(aggs[a]).(values := aggs[a].values,
                                                        numUnResolved := old(aggs[a].numUnResolved) - 1,
                                                        filled := old(aggs[a].filled) + {i})]
      ensures old(aggs[a].numUnResolved) <= 1 && !old(aggs[a].errorOccurs) ==>
                && aggs[a].cell == old(aggs[a].cell) && aggs[a].cell < |cells|
                && cells[aggs[a].cell].state == Resolved && cells[aggs[a].cell].valueErr == Arr(aggs[a].values)
    {
      var A := aggs[a];
      PlainKeepsInv(cells, aggs, tasks, parent, settleOn, code, a, i);
      var B := A.(values := A.values[i := A.items[i]], numUnResolved := A.numUnResolved - 1, filled := A.filled + {i});
      aggs := aggs[a := B];
      if B.numUnResolved <= 0 && !B.errorOccurs {
        AllReady(cells, aggs, tasks, parent, settleOn, code, a);
        ghost var cm, sm := cells, settleOn;
        assert CellShape(cells, aggs, parent, settleOn, B.cell);
        DoSettle(B.cell, Resolve(Arr(B.values)));
        RootUnexempt(cm, cells, sm, settleOn, B.cell);
        SettledQuiet(cm, cells, aggs, tasks, parent, sm, settleOn, code);
        ResolvedValues(cells, aggs, tasks, parent, settleOn, code, a, B.values);
      }
    }

    /** `prom.then(value continuation).catch(error continuation)` for position `idx` of
        MyPromise.all call `a`, whose item `prom` is a MyPromise: ThenBlock `t1` is
        chained onto `prom` and ThenBlock `t2` onto `t1`; an item that has already
        settled feeds `t1` at once. */
    method ChainSlot(a: nat, idx: nat) returns (t1: CellId, t2: CellId)
      requires Valid() && Quiescent(cells, parent, settleOn)
      requires a < |aggs| && idx < |aggs[a].items| && idx < |aggs[a].values|
      requires idx !in aggs[a].filled && idx !in aggs[a].slot && IsPromise(cells, aggs[a].items[idx])
      modifies this
      ensures Valid() && Quiescent(cells, parent, settleOn)
      ensures Progressed(old(cells), cells)
      ensures AggsKept(old(aggs)[a := old(aggs[a]).(slot := old(aggs[a].slot)[idx := old(|cells|)])], aggs)
      ensures t1 == old(|cells|) && t1 < t2 < |cells|
      ensures cells[t1].kind == Kind.Then(AllValue(a, idx), NoHandler)
      ensures cells[t2].kind == Kind.Then(NoHandler, AllError(a))
      ensures parent == old(parent)[t1 := old(aggs[a].items[idx].id)][t2 := t1]
      ensures old(cells[aggs[a].items[idx].id].state).IsFinal() ==> cells[t1].state != WaitInput
      ensures !old(cells[aggs[a].items[idx].id].state).IsFinal() ==>
                var m := old(aggs[a].items[idx].id);
                && t2 == t1 + 1
                && cells == old(cells)[m := old(cells[m]).(toFeed := old(cells[m].toFeed) + [t1])]
                            + [NewNode(Kind.Then(AllValue(a, idx), NoHandler)).(toFeed := [t2]),
                               NewNode(Kind.Then(NoHandler, AllError(a)))]
                && aggs == old(aggs)[a := old(aggs[a]).(slot := old(aggs[a].slot)[idx := t1])]
                && tasks == old(tasks) && settleOn == old(settleOn)
    {
      var prom := aggs[a].items[idx];
      SlotKeepsInv(cells, aggs, tasks, parent, settleOn, code, a, idx, |cells|);
      aggs := aggs[a := aggs[a].(slot := aggs[a].slot[idx := |cells|])];
      ValueNodeOk(cells, aggs, parent, a, idx, prom.id);
      ghost var c0, a0 := cells, aggs;
      t1 := Chain(prom.id, Kind.Then(AllValue(a, idx), NoHandler));
      ghost var c1 := cells;
      ErrorNodeOk(cells, aggs, parent, a, t1);
      ghost var a1 := aggs;
      t2 := Chain(t1, Kind.Then(NoHandler, AllError(a)));
      ProgressedTrans(c0, c1, cells);
      AggsKeptTrans(a0, a1, aggs);
      if !c0[prom.id].state.IsFinal() {
        assert c1[t1] == NewNode(Kind.Then(AllValue(a, idx), NoHandler)) && c1[t1].toFeed + [t2] == [t2];
      }
    }

    /** One turn of the loop of MyPromise.all call `a` over its `promises`: push
        `undefined` for position `idx`, then fill it with a plain item, or chain the two
        continuations onto a MyPromise item. */
    method AllStep(a: nat, idx: nat, ghost start: seq<Cell>)
      requires Valid() && Quiescent(cells, parent, settleOn) && Walking(a, start, idx) && idx < |aggs[a].items|
      modifies this
      ensures Valid() && Quiescent(cells, parent, settleOn) && Walking(a, start, idx + 1)
      ensures |aggs| == old(|aggs|) && aggs[a].items == old(aggs[a].items) && aggs[a].cell == old(aggs[a].cell)
      ensures forall j | 0 <= j <= idx && !IsPromise(cells, aggs[a].items[j]) ::
                j < |aggs[a].values| && aggs[a].values[j] == aggs[a].items[j]
      ensures forall j | 0 <= j <= idx && IsPromise(cells, aggs[a].items[j]) :: Registered(cells, aggs, parent, a, j)
    {
      PushTurn(cells, aggs, tasks, parent, settleOn, code, a, start, idx);
      aggs := aggs[a := aggs[a].(values := aggs[a].values + [Undefined])];
      var prom := aggs[a].items[idx];
      if !IsPromise(cells, prom) {
        PlainStep(a, idx, start);
      } else {
        SlotStep(a, idx, start);
      }
      WalkedFacts(cells, aggs, tasks, parent, settleOn, code, a, start, idx + 1);
    }

    /** The turn of AllStep for a MyPromise item, once `undefined` has been pushed. */
    method SlotStep(a: nat, idx: nat, ghost start: seq<Cell>)
      requires Valid() && Quiescent(cells, parent, settleOn) && Pushed(cells, aggs, parent, a, start, idx)
      requires IsPromise(cells, aggs[a].items[idx]) && IsPromise(start, aggs[a].items[idx])
      modifies this
      ensures Valid() && Quiescent(cells, parent, settleOn) && Walking(a, start, idx + 1)
      ensures |aggs| == old(|aggs|) && aggs[a].items == old(aggs[a].items) && aggs[a].cell == old(aggs[a].cell)
      ensures Registered(cells, aggs, parent, a, idx)
    {
      ghost var c1, a1, p1 := cells, aggs, parent;
      assert forall w | w in p1 :: w < |c1|;
      var t1, t2 := ChainSlot(a, idx);
      assert parent[t2] == t1 && t2 < |cells| && cells[t2].kind == Kind.Then(NoHandler, AllError(a));
      WalkedSlot(c1, a1, p1, cells, aggs, parent, a, start, idx, t1);
    }

    /** The turn of AllStep for a plain item, once `undefined` has been pushed. */
    method PlainStep(a: nat, idx: nat, ghost start: seq<Cell>)
      requires Valid() && Quiescent(cells, parent, settleOn) && Pushed(cells, aggs, parent, a, start, idx)
      requires !IsPromise(cells, aggs[a].items[idx]) && !IsPromise(start, aggs[a].items[idx])
      modifies this
      ensures Valid() && Quiescent(cells, parent, settleOn) && Walking(a, start, idx + 1)
      ensures |aggs| == old(|aggs|) && aggs[a].items == old(aggs[a].items) && aggs[a].cell == old(aggs[a].cell)
    {
      ghost var c1, a1 := cells, aggs;
      assert AggOk(cells, aggs, a);
      FillPlain(a, idx);
      WalkedPlain(c1, a1, cells, aggs, parent, a, start, idx);
    }

    /** `MyPromise.all(promises)`, each item no reference or one to an existing block: a
        pending aggregate whose executor runs the loop of AllStep over the items at once.
        With no item it stays pending for ever; with only plain items it resolves to them
        at once. */
    method All(items: seq<Value>) returns (agg: CellId)
      requires Valid() && Quiescent(cells, parent, settleOn)
      requires forall j | 0 <= j < |items| :: items[j].Ref? ==> items[j].id < |cells|
      modifies this
      ensures Valid() && Quiescent(cells, parent, settleOn)
      ensures agg == old(|cells|) && agg < |cells| && cells[agg].kind == Root(Aggregate(old(|aggs|)))
      ensures |aggs| == old(|aggs|) + 1 && aggs[old(|aggs|)].items == items && aggs[old(|aggs|)].cell == agg
      ensures Progressed(old(cells), cells)
      ensures |items| == 0 ==>
                && cells == old(cells) + [AggCell(old(|aggs|))] && aggs == old(aggs) + [FreshAll(items, agg)]
                && tasks == old(tasks) && parent == old(parent) && settleOn == old(settleOn)
      ensures |items| > 0 && (forall j | 0 <= j < |items| :: !IsPromise(old(cells), items[j])) ==>
                cells[agg].state == Resolved && cells[agg].valueErr == Arr(items)
      ensures |aggs[old(|aggs|)].values| == |items|
      ensures forall j | 0 <= j < |items| && !IsPromise(old(cells), items[j]) ::
                aggs[old(|aggs|)].values[j] == items[j]
      ensures forall j | 0 <= j < |items| && IsPromise(old(cells), items[j]) ::
                Registered(cells, aggs, parent, old(|aggs|), j)
    {
      var a := |aggs|;
      agg := |cells|;
      WalkBegins(cells, aggs, tasks, parent, settleOn, code, items);
      cells := cells + [AggCell(a)];
      aggs := aggs + [FreshAll(items, agg)];
      ghost var start := cells;
      AllExecutor(a, start);
      WalkedDone(cells, aggs, tasks, parent, settleOn, code, a, start, old(cells));
    }

    /** The executor that MyPromise.all hands to its aggregate: one AllStep per item, in
        order. Afterwards every plain item sits at its own position of `values` and every
        MyPromise item has both continuations; with no item nothing changes. */
    method AllExecutor(a: nat, ghost start: seq<Cell>)
      requires Valid() && Quiescent(cells, parent, settleOn) && Walking(a, start, 0)
      modifies this
      ensures |aggs| == old(|aggs|) && aggs[a].items == old(aggs[a].items) && aggs[a].cell == old(aggs[a].cell)
      ensures Valid() && Quiescent(cells, parent, settleOn) && Walking(a, start, |aggs[a].items|)
      ensures forall j | 0 <= j < |aggs[a].items| && !IsPromise(cells, aggs[a].items[j]) ::
                j < |aggs[a].values| && aggs[a].values[j] == aggs[a].items[j]
      ensures forall j | 0 <= j < |aggs[a].items| && IsPromise(cells, aggs[a].items[j]) ::
                Registered(cells, aggs, parent, a, j)
      ensures old(|aggs[a].items|) == 0 ==>
                cells == old(cells) && aggs == old(aggs) && tasks == old(tasks) && parent == old(parent)
                && settleOn == old(settleOn)
    {
      var idx := 0;
      while idx < |aggs[a].items|
        invariant |aggs| == old(|aggs|) && aggs[a].items == old(aggs[a].items) && aggs[a].cell == old(aggs[a].cell)
        invariant 0 <= idx <= |aggs[a].items|
        invariant Valid() && Quiescent(cells, parent, settleOn) && Walking(a, start, idx)
        invariant idx == 0 ==> cells == old(cells) && aggs == old(aggs) && tasks == old(tasks) &&
                               parent == old(parent) && settleOn == old(settleOn)
      {
        AllStep(a, idx, start);
        idx := idx + 1;
      }
      WalkedFacts(cells, aggs, tasks, parent, settleOn, code, a, start, idx);
    }

    /** MyPromise.all as evidently intended: as All, except that with no item the
        aggregate resolves at once to an empty array. */
    method AllOrEmpty(items: seq<Value>) returns (agg: CellId)
      requires Valid() && Quiescent(cells, parent, settleOn)
      requires forall j | 0 <= j < |items| :: items[j].Ref? ==> items[j].id < |cells|
      modifies this
      ensures Valid() && Quiescent(cells, parent, settleOn)
      ensures agg == old(|cells|) && agg < |cells| && cells[agg].kind == Root(Aggregate(old(|aggs|)))
      ensures |aggs| == old(|aggs|) + 1 && aggs[old(|aggs|)].items == items && aggs[old(|aggs|)].cell == agg
      ensures Progressed(old(cells), cells)
      ensures (forall j | 0 <= j < |items| :: !IsPromise(old(cells), items[j])) ==>
                cells[agg].state == Resolved && cells[agg].valueErr == Arr(items)
      ensures forall j | 0 <= j < |items| && IsPromise(old(cells), items[j]) ::
                Registered(cells, aggs, parent, old(|aggs|), j)
    {
      ghost var a := |aggs|;
      agg := All(items);
      if |items| == 0 {
        AllReady(cells, aggs, tasks, parent, settleOn, code, a);
        ghost var cm, sm := cells, settleOn;
        assert CellShape(cells, aggs, parent, settleOn, agg);
        DoSettle(agg, Resolve(Arr([])));
        RootUnexempt(cm, cells, sm, settleOn, agg);
        SettledQuiet(cm, cells, aggs, tasks, parent, sm, settleOn, code);
        ProgressedTrans(old(cells), cm, cells);
      }
    }
  }
}
