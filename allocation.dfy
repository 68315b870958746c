/** Creating chain blocks, chaining them onto others and firing timers keep the
    invariant, and every top-level operation leaves the heap quiescent. */
module Allocation {
  import opened Values
  import opened Invariants
  import opened Preservation

  /** The fields of a ThenBlock or FinallyBlock just constructed: waiting for input,
      `_value_err` null and both stacks empty. */
  function NewNode(k: Kind): (c: Cell)
    requires !k.Root?
    ensures c.state == WaitInput && c.kind == k && c.toFeed == [] && c.toSettle == []
  {
    Cell(WaitInput, Null, [], [], k)
  }

  lemma NodeSettlesGrow(a: seq<Cell>, b: seq<Cell>, parent: map<CellId, CellId>, p1: map<CellId, CellId>,
                        settleOn: map<CellId, CellId>, code: Code, w: CellId, s: Fate)
    requires Frozen(a, b)
    requires w in parent && w < |a| && parent[w] < |a| && a[parent[w]].state.IsFinal()
    requires w in p1 && p1[w] == parent[w]
    requires w in settleOn ==> settleOn[w] < |a|
    requires NodeSettles(a, parent, settleOn, code, w, s)
    ensures NodeSettles(b, p1, settleOn, code, w, s)
  {
  }

  /** Allocating a ThenBlock or FinallyBlock chained onto block `p`; until it is pushed on
      the feed stack of `p` it is detached. */
  lemma AppendNodeKeepsInv(cells: seq<Cell>, aggs: seq<AllState>, tasks: seq<CellId>, parent: map<CellId, CellId>,
                           settleOn: map<CellId, CellId>, code: Code, p: CellId, k: Kind)
    requires Inv(cells, aggs, tasks, parent, settleOn, code, {})
    requires p < |cells| && !k.Root?
    requires k.Then? ==> SlotNodeOk(cells + [NewNode(k)], aggs, parent[|cells| := p], |cells|)
    ensures Inv(cells + [NewNode(k)], aggs, tasks, parent[|cells| := p], settleOn, code, {|cells|})
  {
    var n := |cells|;
    var b := cells + [NewNode(k)];
    var p1 := parent[n := p];
    assert n !in parent && n !in settleOn;
    assert Frozen(cells, b);
    forall i | 0 <= i < |b| ensures CellShape(b, aggs, p1, settleOn, i) {
      if i < n {
        assert CellShape(cells, aggs, parent, settleOn, i);
      }
    }
    forall x | x in p1 ensures NodeOk(b, p1, settleOn, code, {n}, x) {
      if x != n {
        assert NodeOk(cells, parent, settleOn, code, {}, x);
        if b[x].state.IsFinal() {
          NodeSettlesGrow(cells, b, parent, p1, settleOn, code, x, Outcome(b[x]));
        }
      }
    }
    forall x | x in settleOn ensures FlatOk(b, p1, settleOn, code, {n}, x) {
      assert FlatOk(cells, parent, settleOn, code, {}, x);
      FlatTargetStable(cells, b, code, cells[x].kind, Outcome(cells[parent[x]]), settleOn[x]);
    }
    forall x | 0 <= x < |aggs| ensures AggOk(b, aggs, x) {
      AggOkStable(cells, b, aggs, x);
    }
    forall x | 0 <= x < |b| && b[x].kind.Then? ensures SlotNodeOk(b, aggs, p1, x) {
      if x < n {
        assert SlotNodeOk(cells, aggs, parent, x);
      }
    }
    forall i | 0 <= i < |b| ensures RootOk(b, i) {
      if i < n {
        assert RootOk(cells, i);
      }
    }
  }

  /** Pushing node `blk`, chained onto unsettled block `c`, on the feed stack of `c`. */
  lemma PushFeedKeepsInv(cells: seq<Cell>, aggs: seq<AllState>, tasks: seq<CellId>, parent: map<CellId, CellId>,
                         settleOn: map<CellId, CellId>, code: Code, c: CellId, blk: CellId)
    requires Inv(cells, aggs, tasks, parent, settleOn, code, {blk})
    requires c < |cells| && !cells[c].state.IsFinal() && blk < |cells| && blk !in settleOn
    requires blk in parent && parent[blk] == c && cells[blk].state == WaitInput
    ensures Inv(cells[c := cells[c].(toFeed := cells[c].toFeed + [blk])], aggs, tasks, parent, settleOn, code, {})
  {
    var b := cells[c := cells[c].(toFeed := cells[c].toFeed + [blk])];
    assert SameStates(cells, b);
    forall i | 0 <= i < |b| ensures CellShape(b, aggs, parent, settleOn, i) {
      assert CellShape(cells, aggs, parent, settleOn, i);
    }
    forall w | w in parent && b[w].state == WaitInput && !b[parent[w]].state.IsFinal()
      ensures w in b[parent[w]].toFeed
    {
      assert NodeOk(cells, parent, settleOn, code, {blk}, w);
      if w == blk {
        assert b[c].toFeed[|b[c].toFeed| - 1] == blk;
      }
    }
    forall w | w in settleOn && b[w].state == Pending ensures w in b[settleOn[w]].toSettle {
      assert FlatOk(cells, parent, settleOn, code, {blk}, w);
    }
    StacksOnly(cells, b, aggs, tasks, parent, settleOn, code, {blk}, {});
  }

  /** Removing the timer at the head of the queue. */
  lemma DropTaskKeepsInv(cells: seq<Cell>, aggs: seq<AllState>, tasks: seq<CellId>, parent: map<CellId, CellId>,
                         settleOn: map<CellId, CellId>, code: Code)
    requires Inv(cells, aggs, tasks, parent, settleOn, code, {}) && |tasks| > 0
    ensures Inv(cells, aggs, tasks[1..], parent, settleOn, code, {})
  {
    forall k | 0 <= k < |tasks[1..]|
      ensures tasks[1..][k] < |cells| && cells[tasks[1..][k]].kind.Root? && cells[tasks[1..][k]].kind.origin.Scheduled?
    {
      assert tasks[1..][k] == tasks[k + 1];
    }
  }

  // ---------------------------------------------------------------------------
  // Quiescence
  // ---------------------------------------------------------------------------

  /** A step of the feed/settle protocol from a heap that was quiescent except for the
      nodes `x`, which the step moves out of WAIT_INPUT, ends in a quiescent heap: no
      settled block keeps a waiter on either stack, no node waits for input from a
      settled parent, every pending node has finished its handler and waits on a block
      that has not settled. */
  lemma QuiescentKept(a: seq<Cell>, b: seq<Cell>, aggs: seq<AllState>, tasks: seq<CellId>, parent: map<CellId, CellId>,
                      s0: map<CellId, CellId>, s1: map<CellId, CellId>, code: Code, x: set<CellId>)
    requires Evolved(a, b, parent, {}) && LonelyKept(a, b, s0, s1, {})
    requires forall w | w in parent :: w < |a| && parent[w] < |a|
    requires forall k | k in s0 :: k in s1
    requires Inv(b, aggs, tasks, parent, s1, code, {})
    requires Drained(a) && Awake(a, parent, x) && Adopted(a, s0)
    requires forall w | w in x && w < |b| :: b[w].state != WaitInput
    ensures Quiescent(b, parent, s1)
  {
    forall i | 0 <= i < |b| && b[i].state.IsFinal() ensures b[i].toFeed == [] && b[i].toSettle == [] {
      if i < |a| {
        assert EvolvedAt(a, b, parent, {}, i);
      } else {
        assert FreshAt(b, parent, {}, i);
      }
    }
    forall w | w in parent && w < |b| && parent[w] < |b| && b[w].state == WaitInput
      ensures !b[parent[w]].state.IsFinal()
    {
      var p := parent[w];
      assert EvolvedAt(a, b, parent, {}, w);
      assert EvolvedAt(a, b, parent, {}, p);
    }
    forall i | |a| <= i < |b| ensures b[i].kind.Root? {
      assert FreshAt(b, parent, {}, i);
    }
    forall w | 0 <= w < |b| && b[w].state == Pending && !b[w].kind.Root? ensures w in s1 {
      if w < |a| {
        assert EvolvedAt(a, b, parent, {}, w);
        assert LonelyAt(a, b, s0, s1, {}, w);
      }
    }
    SettleAwakeOf(b, aggs, tasks, parent, s1, code);
  }

  /** Allocating a MyPromise keeps the heap quiescent. */
  lemma QuiescentAppendRoot(cells: seq<Cell>, parent: map<CellId, CellId>, settleOn: map<CellId, CellId>, cell: Cell)
    requires Quiescent(cells, parent, settleOn) && !cell.state.IsFinal() && cell.kind.Root?
    requires forall w | w in parent :: w < |cells| && parent[w] < |cells|
    requires forall w | w in settleOn :: w < |cells| && settleOn[w] < |cells|
    ensures Quiescent(cells + [cell], parent, settleOn)
  {
    var b := cells + [cell];
    forall w | w in parent && w < |b| && parent[w] < |b| && b[w].state == WaitInput
      ensures !b[parent[w]].state.IsFinal()
    {
      assert b[w] == cells[w] && b[parent[w]] == cells[parent[w]];
    }
    forall w | w in settleOn && w < |b| && settleOn[w] < |b| && b[w].state == Pending
      ensures !b[settleOn[w]].state.IsFinal()
    {
      assert b[w] == cells[w] && b[settleOn[w]] == cells[settleOn[w]];
    }
  }

  /** Allocating a node chained onto `p` keeps the heap quiescent except for that node. */
  lemma QuiescentAppendNode(cells: seq<Cell>, parent: map<CellId, CellId>, settleOn: map<CellId, CellId>,
                            p: CellId, k: Kind)
    requires Quiescent(cells, parent, settleOn) && p < |cells| && !k.Root?
    requires forall w | w in parent :: w < |cells| && parent[w] < |cells|
    requires forall w | w in settleOn :: w < |cells| && settleOn[w] < |cells|
    ensures var b := cells + [NewNode(k)];
            Drained(b) && Awake(b, parent[|cells| := p], {|cells|}) && Adopted(b, settleOn) && SettleAwake(b, settleOn)
  {
    var b := cells + [NewNode(k)];
    var p1 := parent[|cells| := p];
    forall w | w in p1 && w !in {|cells|} && w < |b| && p1[w] < |b| && b[w].state == WaitInput
      ensures !b[p1[w]].state.IsFinal()
    {
      assert b[w] == cells[w] && b[parent[w]] == cells[parent[w]];
    }
    forall w | w in settleOn && w < |b| && settleOn[w] < |b| && b[w].state == Pending
      ensures !b[settleOn[w]].state.IsFinal()
    {
      assert b[w] == cells[w] && b[settleOn[w]] == cells[settleOn[w]];
    }
  }

  /** Pushing node `blk` on the feed stack of its unsettled parent `c` makes the heap
      quiescent again. */
  lemma QuiescentPushFeed(cells: seq<Cell>, parent: map<CellId, CellId>, settleOn: map<CellId, CellId>,
                          c: CellId, blk: CellId)
    requires Drained(cells) && Awake(cells, parent, {blk}) && Adopted(cells, settleOn) && SettleAwake(cells, settleOn)
    requires c < |cells| && !cells[c].state.IsFinal() && blk in parent && parent[blk] == c
    ensures Quiescent(cells[c := cells[c].(toFeed := cells[c].toFeed + [blk])], parent, settleOn)
  {
    var b := cells[c := cells[c].(toFeed := cells[c].toFeed + [blk])];
    forall i | 0 <= i < |b| && b[i].state.IsFinal() ensures b[i].toFeed == [] && b[i].toSettle == [] {
      assert i != c && b[i] == cells[i];
    }
    forall w | w in parent && w < |b| && parent[w] < |b| && b[w].state == WaitInput
      ensures !b[parent[w]].state.IsFinal()
    {
      if w != blk {
        assert b[w].state == cells[w].state && b[parent[w]].state == cells[parent[w]].state;
      }
    }
    forall w | w in settleOn && w < |b| && settleOn[w] < |b| && b[w].state == Pending
      ensures !b[settleOn[w]].state.IsFinal()
    {
      assert b[w].state == cells[w].state && b[settleOn[w]].state == cells[settleOn[w]].state;
    }
    forall w | 0 <= w < |b| && b[w].state == Pending && !b[w].kind.Root? ensures w in settleOn {
      assert b[w].state == cells[w].state && b[w].kind == cells[w].kind;
    }
  }

  /** A step of the feed/settle protocol from a quiescent heap ends in a quiescent heap,
      and no block changes subclass. */
  lemma SettledQuiet(a: seq<Cell>, b: seq<Cell>, aggs: seq<AllState>, tasks: seq<CellId>, parent: map<CellId, CellId>,
                     s0: map<CellId, CellId>, s1: map<CellId, CellId>, code: Code)
    requires Evolved(a, b, parent, {}) && LonelyKept(a, b, s0, s1, {})
    requires forall w | w in parent :: w < |a| && parent[w] < |a|
    requires forall k | k in s0 :: k in s1
    requires Inv(b, aggs, tasks, parent, s1, code, {})
    requires Quiescent(a, parent, s0)
    ensures Quiescent(b, parent, s1) && Progressed(a, b)
  {
    QuiescentKept(a, b, aggs, tasks, parent, s0, s1, code, {});
    EvolvedProgressed(a, b, parent, {});
  }
}
