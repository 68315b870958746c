/** What stays true of the heap of chain blocks between any two steps of
    my_promise.js, stated over plain values so that lemmas can talk about two heaps. */
module Invariants {
  import opened Values

  /** The behaviour of every user closure: handler `id` called with `args`. */
  type Code = (HandlerId, seq<Value>) -> Completion

  // ---------------------------------------------------------------------------
  // Counting blocks by state (the termination measure)
  // ---------------------------------------------------------------------------

  /** How many blocks are in state `st`. */
  function Count(cs: seq<Cell>, st: State): nat
  {
    if cs == [] then 0
    else Count(cs[..|cs| - 1], st) + (if cs[|cs| - 1].state == st then 1 else 0)
  }

  function Ind(b: bool): nat { if b then 1 else 0 }

  lemma {:induction false} CountUpdate(cs: seq<Cell>, i: nat, c: Cell, st: State)
    requires i < |cs|
    ensures Count(cs[i := c], st) == Count(cs, st) - Ind(cs[i].state == st) + Ind(c.state == st)
  {
    var n := |cs| - 1;
    if i == n {
      assert cs[i := c][..n] == cs[..n];
    } else {
      assert cs[i := c][..n] == cs[..n][i := c];
      CountUpdate(cs[..n], i, c, st);
    }
  }

  lemma CountAppend(cs: seq<Cell>, c: Cell, st: State)
    ensures Count(cs + [c], st) == Count(cs, st) + Ind(c.state == st)
  {
    assert (cs + [c])[..|cs|] == cs;
  }

  /** The lexicographic order on (waiting blocks, pending blocks) that every step of
      the feed/settle protocol descends. */
  predicate LexLe(w1: nat, p1: nat, w0: nat, p0: nat) {
    w1 < w0 || (w1 == w0 && p1 <= p0)
  }

  // ---------------------------------------------------------------------------
  // The semantics of a node's handlers
  // ---------------------------------------------------------------------------

  /** `result instanceof MyPromise`. */
  predicate IsPromise(cells: seq<Cell>, v: Value) {
    v.Ref? && v.id < |cells| && cells[v.id].kind.Root?
  }

  /** The closure of a ThenBlock that a feed of `f` runs: `_onValueFeeded` for a value,
      `_onErrorFeeded` for an error. */
  function HandlerFor(k: Kind, f: Fate): Handler
    requires k.Then?
  {
    if f.Resolve? then k.onValue else k.onError
  }

  /** Calling handler `h` with `arg`.  The continuations of MyPromise.all return
      undefined. */
  function Invoke(code: Code, h: Handler, arg: Value): Completion {
    match h
    case User(id) => code(id, [arg])
    case _ => Returns(Undefined)
  }

  /** `c` is the block that a ThenBlock of kind `k`, fed `po`, waits on: the MyPromise
      its handler returned, or else the MyPromise.resolve(result) made for the result
      (which was allocated at position `c`, so that every block below `c` already
      existed when the handler returned). */
  ghost predicate FlatTarget(cells: seq<Cell>, code: Code, k: Kind, po: Fate, c: CellId) {
    && k.Then?
    && !HandlerFor(k, po).NoHandler?
    && Invoke(code, HandlerFor(k, po), po.Payload()).Returns?
    && c < |cells|
    && var v := Invoke(code, HandlerFor(k, po), po.Payload()).result;
       || (v.Ref? && v.id == c && cells[c].kind.Root?)
       || (cells[c].kind == Root(Scheduled(Resolve(v))) && !(v.Ref? && v.id < c && cells[v.id].kind.Root?))
  }

  /** Node `w`, whose parent has settled, may be settled with `s`: a ThenBlock with no
      handler for the parent's outcome passes it on, one whose handler throws rejects
      with what was thrown, one whose handler returns takes the outcome of the block it
      waits on; a FinallyBlock passes the parent's outcome on unless its cleanup throws. */
  ghost predicate NodeSettles(cells: seq<Cell>, parent: map<CellId, CellId>, settleOn: map<CellId, CellId>,
                              code: Code, w: CellId, s: Fate)
    requires w in parent && w < |cells| && parent[w] < |cells| && cells[parent[w]].state.IsFinal()
  {
    var po := Outcome(cells[parent[w]]);
    match cells[w].kind
    case Root(_) => false
    case Then(_, _) =>
      var h := HandlerFor(cells[w].kind, po);
      if h.NoHandler? then s == po
      else
        (match Invoke(code, h, po.Payload())
         case Throws(e) => s == Reject(e)
         case Returns(_) =>
           && w in settleOn && settleOn[w] < |cells|
           && cells[settleOn[w]].state.IsFinal()
           && s == Outcome(cells[settleOn[w]]))
    case Finally(cl) => s == FinallyFate(code, cl, po)
  }

  /** The fate a FinallyBlock with cleanup `cl`, fed `po`, settles with: what it was fed,
      unless the cleanup (called with no argument) throws. */
  function FinallyFate(code: Code, cl: Option<HandlerId>, po: Fate): (f: Fate)
    ensures cl.None? ==> f == po
    ensures cl.Some? && code(cl.value, []).Throws? ==> f == Reject(code(cl.value, []).thrown)
    ensures cl.Some? && code(cl.value, []).Returns? ==> f == po
  {
    if cl.Some? && code(cl.value, []).Throws? then Reject(code(cl.value, []).thrown) else po
  }

  // ---------------------------------------------------------------------------
  // The invariant
  // ---------------------------------------------------------------------------

  /** Links and kinds of block `i` are well formed: every feed-waiter of `i` was chained
      onto `i`, every settle-waiter of `i` waits on `i`, exactly the non-root blocks have
      a parent, and only non-root blocks wait for input. */
  ghost predicate CellShape(cells: seq<Cell>, aggs: seq<AllState>, parent: map<CellId, CellId>,
                      settleOn: map<CellId, CellId>, i: nat)
    requires i < |cells|
  {
    var c := cells[i];
    && (forall k | 0 <= k < |c.toFeed| :: c.toFeed[k] in parent && parent[c.toFeed[k]] == i)
    && (forall k | 0 <= k < |c.toSettle| :: c.toSettle[k] in settleOn && settleOn[c.toSettle[k]] == i)
    && ((i in parent) <==> !c.kind.Root?)
    && (c.state == WaitInput ==> !c.kind.Root?)
    && (c.kind.Root? && c.kind.origin.Aggregate? ==>
          c.kind.origin.agg < |aggs| && aggs[c.kind.origin.agg].cell == i)
  }

  ghost predicate ShapeOk(cells: seq<Cell>, aggs: seq<AllState>, tasks: seq<CellId>,
                    parent: map<CellId, CellId>, settleOn: map<CellId, CellId>)
  {
    && (forall i {:trigger CellShape(cells, aggs, parent, settleOn, i)} | 0 <= i < |cells| ::
          CellShape(cells, aggs, parent, settleOn, i))
    && (forall w | w in parent :: w < |cells| && parent[w] < |cells|)
    && (forall w | w in settleOn :: w < |cells| && settleOn[w] < |cells|)
    && (forall k | 0 <= k < |tasks| ::
          tasks[k] < |cells| && cells[tasks[k]].kind.Root? && cells[tasks[k]].kind.origin.Scheduled?)
  }

  /** Node `w` has been fed only after its parent settled, it ends with the fate its
      handlers give for the parent's outcome, and while it waits for input on an
      unsettled parent it sits on that parent's feed stack (unless it is `detached`:
      just created and not yet registered). */
  ghost predicate NodeOk(cells: seq<Cell>, parent: map<CellId, CellId>, settleOn: map<CellId, CellId>,
                         code: Code, detached: set<CellId>, w: CellId)
    requires w in parent && w < |cells| && parent[w] < |cells|
  {
    var p := parent[w];
    && (cells[w].state != WaitInput ==> cells[p].state.IsFinal())
    && (cells[w].state.IsFinal() ==>
          NodeSettles(cells, parent, settleOn, code, w, Outcome(cells[w])))
    && (w !in detached && cells[w].state == WaitInput && !cells[p].state.IsFinal() ==>
          w in cells[p].toFeed)
  }

  /** Node `w` flattens onto `settleOn[w]`: it was fed, the block it waits on is the one
      its handler's result calls for, and while it is pending it sits on that block's
      settle stack (unless it is `detached`: just popped or not yet pushed). */
  ghost predicate FlatOk(cells: seq<Cell>, parent: map<CellId, CellId>, settleOn: map<CellId, CellId>,
                         code: Code, detached: set<CellId>, w: CellId)
    requires w in settleOn && w < |cells| && settleOn[w] < |cells|
    requires w in parent ==> parent[w] < |cells|
  {
    && w in parent
    && cells[w].state != WaitInput
    && cells[parent[w]].state.IsFinal()
    && FlatTarget(cells, code, cells[w].kind, Outcome(cells[parent[w]]), settleOn[w])
    && (w !in detached && cells[w].state == Pending ==> w in cells[settleOn[w]].toSettle)
  }

  /** A MyPromise made by MyPromise.resolve(v)/reject(e) settles only as its timer says. */
  ghost predicate RootOk(cells: seq<Cell>, i: nat)
    requires i < |cells|
  {
    cells[i].kind.Root? && cells[i].kind.origin.Scheduled? && cells[i].state.IsFinal() ==>
      Outcome(cells[i]) == cells[i].kind.origin.fate
  }

  /** Position `j` of `values` holds what MyPromise.all writes there: the item itself, or
      the value the item (a MyPromise) resolved to. */
  ghost predicate SlotValueOk(cells: seq<Cell>, A: AllState, j: nat) {
    && j < |A.items|
    && j < |A.values|
    && if IsPromise(cells, A.items[j]) then
         cells[A.items[j].id].state == Resolved && A.values[j] == cells[A.items[j].id].valueErr
       else A.values[j] == A.items[j]
  }

  /** The state of MyPromise.all call `a`. */
  ghost predicate AggOk(cells: seq<Cell>, aggs: seq<AllState>, a: nat)
    requires a < |aggs|
  {
    var A := aggs[a];
    && A.cell < |cells|
    && cells[A.cell].kind == Root(Aggregate(a))
    && (forall j | 0 <= j < |A.items| :: A.items[j].Ref? ==> A.items[j].id < A.cell)
    && |A.values| <= |A.items|
    && (forall j | j in A.filled :: SlotValueOk(cells, A, j))
    && A.numUnResolved == |A.items| - |A.filled|
    && (A.errorOccurs ==>
          && A.firstRejected < |A.items|
          && IsPromise(cells, A.items[A.firstRejected])
          && cells[A.items[A.firstRejected].id].state == Rejected)
    && (cells[A.cell].state == Resolved ==>
          && (forall j | 0 <= j < |A.items| :: j in A.filled)
          && !A.errorOccurs
          && cells[A.cell].valueErr == Arr(A.values))
    && (cells[A.cell].state == Rejected ==>
          && A.errorOccurs
          && cells[A.cell].valueErr == cells[A.items[A.firstRejected].id].valueErr)
  }

  /** The two ThenBlocks MyPromise.all chains per MyPromise item: `prom.then(value
      continuation)` on the item, and `.catch(error continuation)` on that. */
  ghost predicate SlotNodeOk(cells: seq<Cell>, aggs: seq<AllState>, parent: map<CellId, CellId>, w: nat)
    requires w < |cells| && cells[w].kind.Then?
  {
    var k := cells[w].kind;
    && !k.onValue.AllError?
    && !k.onError.AllValue?
    && (k.onValue.AllValue? ==>
          var a, j := k.onValue.agg, k.onValue.idx;
          && a < |aggs|
          && j < |aggs[a].items|
          && IsPromise(cells, aggs[a].items[j])
          && w in parent && parent[w] == aggs[a].items[j].id
          && k.onError.NoHandler?
          && j in aggs[a].slot && aggs[a].slot[j] == w
          && (cells[w].state == WaitInput ==> j !in aggs[a].filled && j < |aggs[a].values|))
    && (k.onError.AllError? ==>
          && k.onError.agg < |aggs|
          && k.onValue.NoHandler?
          && w in parent && parent[w] < |cells|
          && cells[parent[w]].kind.Then?
          && cells[parent[w]].kind.onValue.AllValue?
          && cells[parent[w]].kind.onValue.agg == k.onError.agg)
  }

  ghost predicate Inv(cells: seq<Cell>, aggs: seq<AllState>, tasks: seq<CellId>,
                parent: map<CellId, CellId>, settleOn: map<CellId, CellId>,
                code: Code, detached: set<CellId>)
  {
    && ShapeOk(cells, aggs, tasks, parent, settleOn)
    && (forall w {:trigger NodeOk(cells, parent, settleOn, code, detached, w)} | w in parent ::
          NodeOk(cells, parent, settleOn, code, detached, w))
    && (forall w {:trigger FlatOk(cells, parent, settleOn, code, detached, w)} | w in settleOn ::
          FlatOk(cells, parent, settleOn, code, detached, w))
    && (forall i {:trigger RootOk(cells, i)} | 0 <= i < |cells| :: RootOk(cells, i))
    && (forall a {:trigger AggOk(cells, aggs, a)} | 0 <= a < |aggs| :: AggOk(cells, aggs, a))
    && (forall w {:trigger SlotNodeOk(cells, aggs, parent, w)} | 0 <= w < |cells| && cells[w].kind.Then? ::
          SlotNodeOk(cells, aggs, parent, w))
  }

  /** Every settled block has emptied both of its stacks. */
  ghost predicate Drained(cells: seq<Cell>) {
    forall i | 0 <= i < |cells| && cells[i].state.IsFinal() :: cells[i].toFeed == [] && cells[i].toSettle == []
  }

  /** No node outside `x` waits for input from a parent that has already settled. */
  ghost predicate Awake(cells: seq<Cell>, parent: map<CellId, CellId>, x: set<CellId>) {
    forall w | w in parent && w !in x && w < |cells| && parent[w] < |cells| && cells[w].state == WaitInput ::
      !cells[parent[w]].state.IsFinal()
  }

  /** Every pending ThenBlock or FinallyBlock has finished running its handler and waits
      on the block its handler returned. */
  ghost predicate Adopted(cells: seq<Cell>, settleOn: map<CellId, CellId>) {
    forall w | 0 <= w < |cells| && cells[w].state == Pending && !cells[w].kind.Root? :: w in settleOn
  }

  /** No pending node waits on a block that has already settled. */
  ghost predicate SettleAwake(cells: seq<Cell>, settleOn: map<CellId, CellId>) {
    forall w | w in settleOn && w < |cells| && settleOn[w] < |cells| && cells[w].state == Pending ::
      !cells[settleOn[w]].state.IsFinal()
  }

  /** Between two top-level operations: a settled block has emptied both stacks, no node
      waits for input from a parent that has already settled, and no node waits to be
      settled by a block that has already settled (no missed wakeup on either stack). */
  ghost predicate Quiescent(cells: seq<Cell>, parent: map<CellId, CellId>, settleOn: map<CellId, CellId>) {
    Drained(cells) && Awake(cells, parent, {}) && Adopted(cells, settleOn) && SettleAwake(cells, settleOn)
  }

  /** Fed node `w` of kind `k`, whose handler returned when fed `s`, waits on the block its
      result calls for: while pending it sits on that block's stack, and that block has
      not settled; once settled, it has that block's outcome. */
  ghost predicate Adopts(cells: seq<Cell>, settleOn: map<CellId, CellId>, code: Code, w: CellId, k: Kind, s: Fate) {
    && w < |cells| && w in settleOn && settleOn[w] < |cells|
    && FlatTarget(cells, code, k, s, settleOn[w])
    && cells[w].state != WaitInput
    && (cells[w].state == Pending ==>
          !cells[settleOn[w]].state.IsFinal() && w in cells[settleOn[w]].toSettle)
    && (cells[w].state.IsFinal() ==>
          cells[settleOn[w]].state.IsFinal() && Outcome(cells[w]) == Outcome(cells[settleOn[w]]))
  }

  /** What the aggregate of a MyPromise.all call may be settled with: the full `values`
      array once every position is filled and no error occurred, or the error of the
      member whose rejection came first. */
  ghost predicate AggAllowed(cells: seq<Cell>, A: AllState, s: Fate) {
    if s.Resolve? then
      && (forall j | 0 <= j < |A.items| :: j in A.filled)
      && !A.errorOccurs
      && s.value == Arr(A.values)
    else
      && A.errorOccurs
      && A.firstRejected < |A.items|
      && IsPromise(cells, A.items[A.firstRejected])
      && cells[A.items[A.firstRejected].id].state == Rejected
      && s.error == cells[A.items[A.firstRejected].id].valueErr
  }

  /** Which call of `_doResolve`/`_doReject` on pending block `c` the program can make:
      the executor of a MyPromise may settle it either way, a timer only as it was told,
      a node only as its handlers dictate. */
  ghost predicate Allowed(cells: seq<Cell>, aggs: seq<AllState>, parent: map<CellId, CellId>,
                          settleOn: map<CellId, CellId>, code: Code, c: CellId, s: Fate)
    requires c < |cells|
  {
    match cells[c].kind
    case Root(o) =>
      (match o
       case Executor => true
       case Scheduled(f) => s == f
       case Aggregate(a) => a < |aggs| && AggAllowed(cells, aggs[a], s))
    case _ =>
      && c in parent && parent[c] < |cells|
      && cells[parent[c]].state.IsFinal()
      && NodeSettles(cells, parent, settleOn, code, c, s)
  }

  // ---------------------------------------------------------------------------
  // How the heap may evolve inside one feed/settle step
  // ---------------------------------------------------------------------------

  /** Block `i` has drained both stacks and left no child waiting for input. */
  ghost predicate Quiet(b: seq<Cell>, parent: map<CellId, CellId>, i: nat)
    requires i < |b|
  {
    && b[i].toFeed == []
    && b[i].toSettle == []
    && (forall w | w in parent && w < |b| && parent[w] == i :: b[w].state != WaitInput)
  }

  /** Block `i` of heap `a` has at most moved forward in heap `b`: same subclass, a state
      no further from the end, and (once settled) the same outcome and stacks; if it
      settled in between and is not `exempt`, it has drained. */
  ghost predicate EvolvedAt(a: seq<Cell>, b: seq<Cell>, parent: map<CellId, CellId>, exempt: set<CellId>, i: nat)
    requires i < |a| <= |b|
  {
    && b[i].kind == a[i].kind
    && Rank(b[i].state) <= Rank(a[i].state)
    && (a[i].state.IsFinal() ==>
          b[i].state == a[i].state && b[i].valueErr == a[i].valueErr
          && b[i].toFeed == a[i].toFeed && b[i].toSettle == a[i].toSettle)
    && (i !in exempt && b[i].state.IsFinal() && !a[i].state.IsFinal() ==> Quiet(b, parent, i))
  }

  /** Block `i` of heap `b` is new: a MyPromise.resolve/reject wrapper, drained if settled. */
  ghost predicate FreshAt(b: seq<Cell>, parent: map<CellId, CellId>, exempt: set<CellId>, i: nat)
    requires i < |b|
  {
    && b[i].kind.Root? && b[i].kind.origin.Scheduled?
    && b[i].state != WaitInput
    && (i !in exempt && b[i].state.IsFinal() ==> Quiet(b, parent, i))
  }

  /** From heap `a` to heap `b`, every old block has evolved and every new block is fresh. */
  ghost predicate Evolved(a: seq<Cell>, b: seq<Cell>, parent: map<CellId, CellId>, exempt: set<CellId>)
  {
    && |a| <= |b|
    && (forall i {:trigger EvolvedAt(a, b, parent, exempt, i)} | 0 <= i < |a| :: EvolvedAt(a, b, parent, exempt, i))
    && (forall i {:trigger FreshAt(b, parent, exempt, i)} | |a| <= i < |b| :: FreshAt(b, parent, exempt, i))
  }

  /** A node that is pending, not a root and not yet waiting on a settle stack is one
      whose handler is still running; such node `i` of heap `a`, unless `exempt`, is still
      in that condition in heap `b`.  Conversely a node fed between `a` and `b` that is
      still pending in `b` waits on a settle stack there. */
  ghost predicate LonelyAt(a: seq<Cell>, b: seq<Cell>, s0: map<CellId, CellId>, s1: map<CellId, CellId>,
                           exempt: set<CellId>, i: nat)
    requires i < |a| <= |b|
  {
    && (a[i].state == Pending && !a[i].kind.Root? && i !in s0 && i !in exempt ==>
          b[i].state == Pending && i !in s1)
    && (a[i].state == WaitInput && b[i].state == Pending && i !in exempt ==> i in s1)
  }

  ghost predicate LonelyKept(a: seq<Cell>, b: seq<Cell>, s0: map<CellId, CellId>, s1: map<CellId, CellId>,
                             exempt: set<CellId>)
    requires |a| <= |b|
  {
    forall i {:trigger LonelyAt(a, b, s0, s1, exempt, i)} | 0 <= i < |a| :: LonelyAt(a, b, s0, s1, exempt, i)
  }

  lemma EvolvedRefl(a: seq<Cell>, parent: map<CellId, CellId>, exempt: set<CellId>)
    ensures Evolved(a, a, parent, exempt)
  {
    forall i | 0 <= i < |a| ensures EvolvedAt(a, a, parent, exempt, i) {
    }
  }

  lemma EvolvedTrans(a: seq<Cell>, b: seq<Cell>, c: seq<Cell>, parent: map<CellId, CellId>,
                     e1: set<CellId>, e2: set<CellId>)
    requires Evolved(a, b, parent, e1) && Evolved(b, c, parent, e2)
    ensures Evolved(a, c, parent, e1 + e2)
  {
    forall i | 0 <= i < |a| ensures EvolvedAt(a, c, parent, e1 + e2, i) {
      assert EvolvedAt(a, b, parent, e1, i);
      assert EvolvedAt(b, c, parent, e2, i);
      if i !in e1 + e2 && c[i].state.IsFinal() && !a[i].state.IsFinal() && b[i].state.IsFinal() {
        QuietKept(b, c, parent, e2, i);
      }
    }
    forall i | |a| <= i < |c| ensures FreshAt(c, parent, e1 + e2, i) {
      if i >= |b| {
        assert FreshAt(c, parent, e2, i);
      } else {
        assert FreshAt(b, parent, e1, i);
        assert EvolvedAt(b, c, parent, e2, i);
        if i !in e1 + e2 && b[i].state.IsFinal() {
          QuietKept(b, c, parent, e2, i);
        }
      }
    }
  }

  /** A drained block stays drained. */
  lemma QuietKept(b: seq<Cell>, c: seq<Cell>, parent: map<CellId, CellId>, e: set<CellId>, i: nat)
    requires Evolved(b, c, parent, e) && i < |b| && b[i].state.IsFinal() && Quiet(b, parent, i)
    ensures Quiet(c, parent, i)
  {
    assert EvolvedAt(b, c, parent, e, i);
    forall w | w in parent && w < |c| && parent[w] == i ensures c[w].state != WaitInput {
      if w < |b| {
        assert EvolvedAt(b, c, parent, e, w);
      } else {
        assert FreshAt(c, parent, e, w);
      }
    }
  }

  /** From heap `a` to heap `b` every block has kept its subclass and moved forward in
      its life cycle, and a settled block has kept its state and its `_value_err`: the
      second call of `_doResolve`/`_doReject` on a block changes nothing. */
  ghost predicate Progressed(a: seq<Cell>, b: seq<Cell>) {
    && |a| <= |b|
    && forall i | 0 <= i < |a| ::
         && b[i].kind == a[i].kind
         && Rank(b[i].state) <= Rank(a[i].state)
         && (a[i].state.IsFinal() ==> b[i].state == a[i].state && b[i].valueErr == a[i].valueErr)
  }

  lemma EvolvedProgressed(a: seq<Cell>, b: seq<Cell>, parent: map<CellId, CellId>, e: set<CellId>)
    requires Evolved(a, b, parent, e)
    ensures Progressed(a, b)
  {
    forall i | 0 <= i < |a|
      ensures b[i].kind == a[i].kind && Rank(b[i].state) <= Rank(a[i].state)
      ensures a[i].state.IsFinal() ==> b[i].state == a[i].state && b[i].valueErr == a[i].valueErr
    {
      assert EvolvedAt(a, b, parent, e, i);
    }
  }

  lemma ProgressedRefl(a: seq<Cell>)
    ensures Progressed(a, a)
  {
  }

  lemma ProgressedAppend(a: seq<Cell>, c: Cell)
    ensures Progressed(a, a + [c])
  {
  }

  lemma ProgressedTrans(a: seq<Cell>, b: seq<Cell>, c: seq<Cell>)
    requires Progressed(a, b) && Progressed(b, c)
    ensures Progressed(a, c)
  {
    forall i | 0 <= i < |a|
      ensures c[i].kind == a[i].kind && Rank(c[i].state) <= Rank(a[i].state)
      ensures a[i].state.IsFinal() ==> c[i].state == a[i].state && c[i].valueErr == a[i].valueErr
    {
      assert c[i].kind == b[i].kind && Rank(c[i].state) <= Rank(b[i].state);
    }
  }

  /** Position records of the MyPromise.all calls keep their shape. */
  ghost predicate AggsKept(a0: seq<AllState>, a1: seq<AllState>) {
    && |a1| == |a0|
    && forall a | 0 <= a < |a0| ::
         && a1[a].items == a0[a].items
         && a1[a].cell == a0[a].cell
         && |a1[a].values| == |a0[a].values|
         && a1[a].slot == a0[a].slot
         && a0[a].filled <= a1[a].filled
  }

  lemma AggsKeptTrans(a0: seq<AllState>, a1: seq<AllState>, a2: seq<AllState>)
    requires AggsKept(a0, a1) && AggsKept(a1, a2)
    ensures AggsKept(a0, a2)
  {
  }

  /** One step of the feed/settle protocol, from the first heap to the second. */
  ghost predicate StepOk(c0: seq<Cell>, a0: seq<AllState>, t0: seq<CellId>, p0: map<CellId, CellId>,
                         s0: map<CellId, CellId>,
                         c1: seq<Cell>, a1: seq<AllState>, t1: seq<CellId>, p1: map<CellId, CellId>,
                         s1: map<CellId, CellId>,
                         exempt: set<CellId>, lonelyExempt: set<CellId>)
  {
    && Evolved(c0, c1, p1, exempt)
    && p1 == p0
    && (forall k | k in s0 :: k in s1 && s1[k] == s0[k])
    && t0 <= t1
    && AggsKept(a0, a1)
    && LonelyKept(c0, c1, s0, s1, lonelyExempt)
  }

  lemma StepTrans(c0: seq<Cell>, a0: seq<AllState>, t0: seq<CellId>, p0: map<CellId, CellId>, s0: map<CellId, CellId>,
                  c1: seq<Cell>, a1: seq<AllState>, t1: seq<CellId>, p1: map<CellId, CellId>, s1: map<CellId, CellId>,
                  c2: seq<Cell>, a2: seq<AllState>, t2: seq<CellId>, p2: map<CellId, CellId>, s2: map<CellId, CellId>,
                  e1: set<CellId>, l1: set<CellId>, e2: set<CellId>, l2: set<CellId>)
    requires StepOk(c0, a0, t0, p0, s0, c1, a1, t1, p1, s1, e1, l1)
    requires StepOk(c1, a1, t1, p1, s1, c2, a2, t2, p2, s2, e2, l2)
    ensures StepOk(c0, a0, t0, p0, s0, c2, a2, t2, p2, s2, e1 + e2, l1 + l2)
  {
    EvolvedTrans(c0, c1, c2, p2, e1, e2);
    forall i | 0 <= i < |c0| ensures LonelyAt(c0, c2, s0, s2, l1 + l2, i) {
      assert LonelyAt(c0, c1, s0, s1, l1, i);
      assert LonelyAt(c1, c2, s1, s2, l2, i);
      assert EvolvedAt(c0, c1, p1, e1, i);
      assert EvolvedAt(c1, c2, p2, e2, i);
    }
  }

  /** Changing only the stacks of block `c`, which was unsettled at the start, keeps a
      step from the start a step. */
  lemma StacksStep(c0: seq<Cell>, a0: seq<AllState>, t0: seq<CellId>, p0: map<CellId, CellId>, s0: map<CellId, CellId>,
                   cb: seq<Cell>, b: seq<Cell>, aggs: seq<AllState>, tasks: seq<CellId>,
                   parent: map<CellId, CellId>, settleOn: map<CellId, CellId>, c: CellId)
    requires StepOk(c0, a0, t0, p0, s0, cb, aggs, tasks, parent, settleOn, {c}, {c})
    requires c < |c0| && !c0[c].state.IsFinal()
    requires |b| == |cb|
    requires forall i | 0 <= i < |b| ::
               b[i].kind == cb[i].kind && b[i].state == cb[i].state && b[i].valueErr == cb[i].valueErr
    requires forall i | 0 <= i < |b| && i != c :: b[i] == cb[i]
    ensures StepOk(c0, a0, t0, p0, s0, b, aggs, tasks, parent, settleOn, {c}, {c})
  {
    forall i | 0 <= i < |c0| ensures EvolvedAt(c0, b, parent, {c}, i) {
      assert EvolvedAt(c0, cb, parent, {c}, i);
      if i != c && b[i].state.IsFinal() && !c0[i].state.IsFinal() {
        assert Quiet(cb, parent, i);
      }
    }
    forall i | |c0| <= i < |b| ensures FreshAt(b, parent, {c}, i) {
      assert FreshAt(cb, parent, {c}, i);
      if i != c && b[i].state.IsFinal() {
        assert Quiet(cb, parent, i);
      }
    }
    forall i | 0 <= i < |c0| ensures LonelyAt(c0, b, s0, settleOn, {c}, i) {
      assert LonelyAt(c0, cb, s0, settleOn, {c}, i);
    }
  }

  /** Block `c` no longer needs its exemption once it has drained. */
  lemma Unexempt(a: seq<Cell>, b: seq<Cell>, parent: map<CellId, CellId>, c: CellId)
    requires Evolved(a, b, parent, {c}) && c < |b|
    requires b[c].state.IsFinal() ==> Quiet(b, parent, c)
    ensures Evolved(a, b, parent, {})
  {
    forall i | 0 <= i < |a| ensures EvolvedAt(a, b, parent, {}, i) {
      assert EvolvedAt(a, b, parent, {c}, i);
    }
    forall i | |a| <= i < |b| ensures FreshAt(b, parent, {}, i) {
      assert FreshAt(b, parent, {c}, i);
    }
  }

  /** An exemption for a block that was not lonely at the start, and that waits on a
      settle stack if it was fed and is still pending, is not needed. */
  lemma LonelyShrink(a: seq<Cell>, b: seq<Cell>, s0: map<CellId, CellId>, s1: map<CellId, CellId>, x: CellId)
    requires |a| <= |b| && LonelyKept(a, b, s0, s1, {x})
    requires x < |a| && a[x].state != Pending
    requires a[x].state == WaitInput && b[x].state == Pending ==> x in s1
    ensures LonelyKept(a, b, s0, s1, {})
  {
    forall i | 0 <= i < |a| ensures LonelyAt(a, b, s0, s1, {}, i) {
      assert LonelyAt(a, b, s0, s1, {x}, i);
    }
  }

  /** Allocating MyPromise.resolve/reject wrappers and recording the block that node `w`
      waits on is a step that only `w` leaves lonely. */
  lemma FlattenStep(c0: seq<Cell>, aggs: seq<AllState>, t0: seq<CellId>, parent: map<CellId, CellId>,
                    s0: map<CellId, CellId>, extra: seq<Cell>, t1: seq<CellId>, w: CellId, target: CellId)
    requires forall i | 0 <= i < |extra| ::
               extra[i].kind.Root? && extra[i].kind.origin.Scheduled? && extra[i].state == Pending
    requires t0 <= t1 && w !in s0
    ensures StepOk(c0, aggs, t0, parent, s0, c0 + extra, aggs, t1, parent, s0[w := target], {}, {w})
  {
    var c1 := c0 + extra;
    forall i | 0 <= i < |c0| ensures EvolvedAt(c0, c1, parent, {}, i) {
    }
    forall i | |c0| <= i < |c1| ensures FreshAt(c1, parent, {}, i) {
      assert c1[i] == extra[i - |c0|];
    }
    var s1, e := s0[w := target], {w};
    forall i | 0 <= i < |c0| ensures LonelyAt(c0, c1, s0, s1, e, i) {
    }
    assert LonelyKept(c0, c1, s0, s1, e);
    assert Evolved(c0, c1, parent, {});
  }

  /** Changing the state of one unsettled block forward, without settling it and without
      ending a running handler, is a step that only `w` may leave lonely. */
  lemma StateStep(c0: seq<Cell>, aggs: seq<AllState>, tasks: seq<CellId>, parent: map<CellId, CellId>,
                  settleOn: map<CellId, CellId>, w: CellId, cell: Cell)
    requires w < |c0| && cell.kind == c0[w].kind && Rank(cell.state) <= Rank(c0[w].state)
    requires !cell.state.IsFinal() && (c0[w].state == Pending ==> cell.state == Pending)
    ensures StepOk(c0, aggs, tasks, parent, settleOn, c0[w := cell], aggs, tasks, parent, settleOn, {}, {w})
  {
    var c1 := c0[w := cell];
    forall i | 0 <= i < |c0| ensures EvolvedAt(c0, c1, parent, {}, i) {
    }
    forall i | 0 <= i < |c0| ensures LonelyAt(c0, c1, settleOn, settleOn, {w}, i) {
    }
  }

  /** Updating the records of MyPromise.all calls without changing their shape is a step. */
  lemma AggStep(cells: seq<Cell>, a0: seq<AllState>, a1: seq<AllState>, tasks: seq<CellId>,
                parent: map<CellId, CellId>, settleOn: map<CellId, CellId>)
    requires AggsKept(a0, a1)
    ensures StepOk(cells, a0, tasks, parent, settleOn, cells, a1, tasks, parent, settleOn, {}, {})
  {
    EvolvedRefl(cells, parent, {});
    forall i | 0 <= i < |cells| ensures LonelyAt(cells, cells, settleOn, settleOn, {}, i) {
    }
  }

  /** An exemption for a root is not needed: roots are never lonely, nor fed. */
  lemma RootUnexempt(a: seq<Cell>, b: seq<Cell>, s0: map<CellId, CellId>, s1: map<CellId, CellId>, r: CellId)
    requires |a| <= |b| && LonelyKept(a, b, s0, s1, {r})
    requires r < |a| && a[r].kind.Root? && a[r].state != WaitInput
    ensures LonelyKept(a, b, s0, s1, {})
  {
    forall i | 0 <= i < |a| ensures LonelyAt(a, b, s0, s1, {}, i) {
      assert LonelyAt(a, b, s0, s1, {r}, i);
    }
  }

  /** Pushing onto the stack of an unsettled block is a step. */
  lemma PushStep(c0: seq<Cell>, aggs: seq<AllState>, tasks: seq<CellId>, parent: map<CellId, CellId>,
                 settleOn: map<CellId, CellId>, c: CellId, cell: Cell)
    requires c < |c0| && !c0[c].state.IsFinal()
    requires cell.kind == c0[c].kind && cell.state == c0[c].state
    ensures StepOk(c0, aggs, tasks, parent, settleOn, c0[c := cell], aggs, tasks, parent, settleOn, {}, {})
  {
    var c1 := c0[c := cell];
    forall i | 0 <= i < |c0| ensures EvolvedAt(c0, c1, parent, {}, i) {
    }
    forall i | 0 <= i < |c0| ensures LonelyAt(c0, c1, settleOn, settleOn, {}, i) {
    }
  }

  /** While block `c` drains its settle stack, settling `w` (a node waiting on `c`, or
      a root) leaves every other lonely node lonely. */
  lemma RootOrLonelyShrink(a: seq<Cell>, b: seq<Cell>, s0: map<CellId, CellId>, s1: map<CellId, CellId>,
                           c: CellId, w: CellId)
    requires |a| <= |b| && LonelyKept(a, b, s0, s1, {c} + {w})
    requires w < |a| ==> a[w].state != Pending || a[w].kind.Root? || w in s0 || w == c
    requires w in s1
    ensures LonelyKept(a, b, s0, s1, {c})
  {
    forall i | 0 <= i < |a| ensures LonelyAt(a, b, s0, s1, {c}, i) {
      assert LonelyAt(a, b, s0, s1, {c} + {w}, i);
    }
  }
}
