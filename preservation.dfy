/** Each primitive update of the heap of chain blocks keeps the invariant. */
module Preservation {
  import opened Values
  import opened Invariants

  /** From heap `a` to heap `b` no block changed subclass and no settled block changed
      its outcome. */
  ghost predicate Frozen(a: seq<Cell>, b: seq<Cell>) {
    && |a| <= |b|
    && forall i | 0 <= i < |a| ::
         && b[i].kind == a[i].kind
         && (a[i].state.IsFinal() ==> b[i].state == a[i].state && b[i].valueErr == a[i].valueErr)
  }

  /** From heap `a` to heap `b` only states and values changed, and no block went back to
      waiting for input. */
  ghost predicate SameLinks(a: seq<Cell>, b: seq<Cell>) {
    && |a| == |b|
    && forall i | 0 <= i < |a| ::
         && b[i].kind == a[i].kind && b[i].toFeed == a[i].toFeed && b[i].toSettle == a[i].toSettle
         && (b[i].state == WaitInput ==> a[i].state == WaitInput)
  }

  lemma ShapeStable(a: seq<Cell>, b: seq<Cell>, aggs: seq<AllState>, tasks: seq<CellId>,
                    parent: map<CellId, CellId>, settleOn: map<CellId, CellId>)
    requires SameLinks(a, b)
    requires ShapeOk(a, aggs, tasks, parent, settleOn)
    ensures ShapeOk(b, aggs, tasks, parent, settleOn)
  {
    forall i | 0 <= i < |b| ensures CellShape(b, aggs, parent, settleOn, i) {
      assert CellShape(a, aggs, parent, settleOn, i);
    }
  }

  /** From heap `a` to heap `b` only the two waiter stacks changed. */
  ghost predicate SameStates(a: seq<Cell>, b: seq<Cell>) {
    && |a| == |b|
    && forall i | 0 <= i < |a| ::
         b[i].kind == a[i].kind && b[i].state == a[i].state && b[i].valueErr == a[i].valueErr
  }

  /** A change of stacks only keeps the invariant when the shape stays right and every
      waiter not `d1` sits on the stack it should. */
  lemma StacksOnly(a: seq<Cell>, b: seq<Cell>, aggs: seq<AllState>, tasks: seq<CellId>,
                   parent: map<CellId, CellId>, settleOn: map<CellId, CellId>, code: Code,
                   d0: set<CellId>, d1: set<CellId>)
    requires Inv(a, aggs, tasks, parent, settleOn, code, d0)
    requires SameStates(a, b)
    requires ShapeOk(b, aggs, tasks, parent, settleOn)
    requires forall w | w in parent && w !in d1 && b[w].state == WaitInput && !b[parent[w]].state.IsFinal() ::
               w in b[parent[w]].toFeed
    requires forall w | w in settleOn && w !in d1 && b[w].state == Pending :: w in b[settleOn[w]].toSettle
    ensures Inv(b, aggs, tasks, parent, settleOn, code, d1)
  {
    assert Frozen(a, b);
    forall w | w in parent ensures NodeOk(b, parent, settleOn, code, d1, w) {
      assert NodeOk(a, parent, settleOn, code, d0, w);
      if b[w].state.IsFinal() {
        NodeSettlesStable(a, b, parent, settleOn, code, w, Outcome(b[w]));
      }
    }
    forall x | x in settleOn ensures FlatOk(b, parent, settleOn, code, d1, x) {
      assert FlatOk(a, parent, settleOn, code, d0, x);
      FlatTargetStable(a, b, code, a[x].kind, Outcome(a[parent[x]]), settleOn[x]);
    }
    forall x | 0 <= x < |aggs| ensures AggOk(b, aggs, x) {
      AggOkStable(a, b, aggs, x);
    }
    forall x | 0 <= x < |b| && b[x].kind.Then? ensures SlotNodeOk(b, aggs, parent, x) {
      assert SlotNodeOk(a, aggs, parent, x);
    }
    forall i | 0 <= i < |b| ensures RootOk(b, i) {
      assert RootOk(a, i);
    }
  }

  lemma NodeSettlesStable(a: seq<Cell>, b: seq<Cell>, parent: map<CellId, CellId>, settleOn: map<CellId, CellId>,
                          code: Code, w: CellId, s: Fate)
    requires Frozen(a, b)
    requires w in parent && w < |a| && parent[w] < |a| && a[parent[w]].state.IsFinal()
    requires w in settleOn ==> settleOn[w] < |a|
    requires NodeSettles(a, parent, settleOn, code, w, s)
    ensures NodeSettles(b, parent, settleOn, code, w, s)
  {
  }

  lemma FlatTargetStable(a: seq<Cell>, b: seq<Cell>, code: Code, k: Kind, po: Fate, c: CellId)
    requires Frozen(a, b)
    requires FlatTarget(a, code, k, po, c)
    ensures FlatTarget(b, code, k, po, c)
  {
  }

  lemma SlotValueOkStable(a: seq<Cell>, b: seq<Cell>, A: AllState, j: nat)
    requires Frozen(a, b)
    requires SlotValueOk(a, A, j)
    requires A.items[j].Ref? ==> A.items[j].id < |a|
    ensures SlotValueOk(b, A, j)
  {
  }

  /** The record of a MyPromise.all call stays right while its aggregate block keeps
      its state. */
  lemma AggOkStable(a: seq<Cell>, b: seq<Cell>, aggs: seq<AllState>, x: nat)
    requires Frozen(a, b)
    requires x < |aggs| && AggOk(a, aggs, x)
    requires b[aggs[x].cell].state == a[aggs[x].cell].state && b[aggs[x].cell].valueErr == a[aggs[x].cell].valueErr
    ensures AggOk(b, aggs, x)
  {
    var A := aggs[x];
    forall j | j in A.filled ensures SlotValueOk(b, A, j) {
      SlotValueOkStable(a, b, A, j);
    }
  }

  lemma SettleNodesOk(cells: seq<Cell>, aggs: seq<AllState>, tasks: seq<CellId>, parent: map<CellId, CellId>,
                       settleOn: map<CellId, CellId>, code: Code, c: CellId, s: Fate)
    requires Inv(cells, aggs, tasks, parent, settleOn, code, {c})
    requires c < |cells| && cells[c].state == Pending
    requires Allowed(cells, aggs, parent, settleOn, code, c, s)
    ensures var b := cells[c := cells[c].(state := Settled(s), valueErr := s.Payload())];
            forall w | w in parent :: NodeOk(b, parent, settleOn, code, {}, w)
  {
    var b := cells[c := cells[c].(state := Settled(s), valueErr := s.Payload())];
    assert Frozen(cells, b);
    assert Outcome(b[c]) == s;
    forall w | w in parent ensures NodeOk(b, parent, settleOn, code, {}, w) {
      assert NodeOk(cells, parent, settleOn, code, {c}, w);
      if w == c {
        assert CellShape(cells, aggs, parent, settleOn, c);
        NodeSettlesStable(cells, b, parent, settleOn, code, w, s);
      } else if b[w].state.IsFinal() {
        NodeSettlesStable(cells, b, parent, settleOn, code, w, Outcome(b[w]));
      }
    }
  }

  lemma SettleAggsOk(cells: seq<Cell>, aggs: seq<AllState>, tasks: seq<CellId>, parent: map<CellId, CellId>,
                       settleOn: map<CellId, CellId>, code: Code, c: CellId, s: Fate)
    requires Inv(cells, aggs, tasks, parent, settleOn, code, {c})
    requires c < |cells| && cells[c].state == Pending
    requires Allowed(cells, aggs, parent, settleOn, code, c, s)
    ensures var b := cells[c := cells[c].(state := Settled(s), valueErr := s.Payload())];
            forall x | 0 <= x < |aggs| :: AggOk(b, aggs, x)
  {
    var b := cells[c := cells[c].(state := Settled(s), valueErr := s.Payload())];
    assert Frozen(cells, b);
    forall x | 0 <= x < |aggs| ensures AggOk(b, aggs, x) {
      var A := aggs[x];
      assert AggOk(cells, aggs, x);
      if A.cell == c {
        assert cells[c].kind == Root(Aggregate(x));
        assert AggAllowed(cells, A, s);
        forall j | j in A.filled ensures SlotValueOk(b, A, j) {
          SlotValueOkStable(cells, b, A, j);
        }
      } else {
        AggOkStable(cells, b, aggs, x);
      }
    }
  }

  /** Settling pending block `c` with a fate it may be settled with; `c` may be off the
      stack it would otherwise sit on. */
  lemma SettleKeepsInv(cells: seq<Cell>, aggs: seq<AllState>, tasks: seq<CellId>, parent: map<CellId, CellId>,
                       settleOn: map<CellId, CellId>, code: Code, c: CellId, s: Fate)
    requires Inv(cells, aggs, tasks, parent, settleOn, code, {c})
    requires c < |cells| && cells[c].state == Pending
    requires Allowed(cells, aggs, parent, settleOn, code, c, s)
    ensures var b := cells[c := cells[c].(state := Settled(s), valueErr := s.Payload())];
            && Inv(b, aggs, tasks, parent, settleOn, code, {})
            && Evolved(cells, b, parent, {c})
            && LonelyKept(cells, b, settleOn, settleOn, {c})
  {
    var b := cells[c := cells[c].(state := Settled(s), valueErr := s.Payload())];
    assert Frozen(cells, b);
    assert SameLinks(cells, b);
    ShapeStable(cells, b, aggs, tasks, parent, settleOn);
    SettleNodesOk(cells, aggs, tasks, parent, settleOn, code, c, s);
    SettleAggsOk(cells, aggs, tasks, parent, settleOn, code, c, s);
    forall x | x in settleOn ensures FlatOk(b, parent, settleOn, code, {}, x) {
      assert FlatOk(cells, parent, settleOn, code, {c}, x);
      FlatTargetStable(cells, b, code, cells[x].kind, Outcome(cells[parent[x]]), settleOn[x]);
    }
    forall x | 0 <= x < |b| && b[x].kind.Then? ensures SlotNodeOk(b, aggs, parent, x) {
      assert SlotNodeOk(cells, aggs, parent, x);
    }
    forall i | 0 <= i < |b| ensures RootOk(b, i) {
      assert RootOk(cells, i);
    }
  }

  /** Popping the top of the feed stack of settled block `c`. */
  lemma PopFeedKeepsInv(cells: seq<Cell>, aggs: seq<AllState>, tasks: seq<CellId>, parent: map<CellId, CellId>,
                        settleOn: map<CellId, CellId>, code: Code, c: CellId)
    requires Inv(cells, aggs, tasks, parent, settleOn, code, {})
    requires c < |cells| && cells[c].state.IsFinal() && |cells[c].toFeed| > 0
    ensures var b := cells[c := cells[c].(toFeed := cells[c].toFeed[..|cells[c].toFeed| - 1])];
            Inv(b, aggs, tasks, parent, settleOn, code, {})
  {
    var b := cells[c := cells[c].(toFeed := cells[c].toFeed[..|cells[c].toFeed| - 1])];
    assert SameStates(cells, b);
    forall i | 0 <= i < |b| ensures CellShape(b, aggs, parent, settleOn, i) {
      assert CellShape(cells, aggs, parent, settleOn, i);
    }
    forall w | w in parent && b[w].state == WaitInput && !b[parent[w]].state.IsFinal()
      ensures w in b[parent[w]].toFeed
    {
      assert NodeOk(cells, parent, settleOn, code, {}, w);
    }
    forall w | w in settleOn && b[w].state == Pending ensures w in b[settleOn[w]].toSettle {
      assert FlatOk(cells, parent, settleOn, code, {}, w);
    }
    StacksOnly(cells, b, aggs, tasks, parent, settleOn, code, {}, {});
  }

  /** Popping the top `w` of the settle stack of settled block `c`: `w` is detached. */
  lemma PopSettleKeepsInv(cells: seq<Cell>, aggs: seq<AllState>, tasks: seq<CellId>, parent: map<CellId, CellId>,
                          settleOn: map<CellId, CellId>, code: Code, c: CellId)
    requires Inv(cells, aggs, tasks, parent, settleOn, code, {})
    requires c < |cells| && cells[c].state.IsFinal() && |cells[c].toSettle| > 0
    ensures var n := |cells[c].toSettle|;
            var b := cells[c := cells[c].(toSettle := cells[c].toSettle[..n - 1])];
            Inv(b, aggs, tasks, parent, settleOn, code, {cells[c].toSettle[n - 1]})
  {
    var n := |cells[c].toSettle|;
    var top := cells[c].toSettle[n - 1];
    var b := cells[c := cells[c].(toSettle := cells[c].toSettle[..n - 1])];
    assert SameStates(cells, b);
    forall i | 0 <= i < |b| ensures CellShape(b, aggs, parent, settleOn, i) {
      assert CellShape(cells, aggs, parent, settleOn, i);
    }
    forall w | w in parent && b[w].state == WaitInput && !b[parent[w]].state.IsFinal()
      ensures w in b[parent[w]].toFeed
    {
      assert NodeOk(cells, parent, settleOn, code, {}, w);
    }
    forall w | w in settleOn && w != top && b[w].state == Pending ensures w in b[settleOn[w]].toSettle {
      assert FlatOk(cells, parent, settleOn, code, {}, w);
      if settleOn[w] == c {
        assert w in cells[c].toSettle[..n - 1] + [top];
      }
    }
    StacksOnly(cells, b, aggs, tasks, parent, settleOn, code, {}, {top});
  }

  /** Moving node `w`, whose parent has settled, out of WAIT_INPUT. */
  lemma FeedKeepsInv(cells: seq<Cell>, aggs: seq<AllState>, tasks: seq<CellId>, parent: map<CellId, CellId>,
                     settleOn: map<CellId, CellId>, code: Code, w: CellId)
    requires Inv(cells, aggs, tasks, parent, settleOn, code, {})
    requires w < |cells| && cells[w].state == WaitInput
    requires w in parent && parent[w] < |cells| && cells[parent[w]].state.IsFinal()
    ensures Inv(cells[w := cells[w].(state := Pending)], aggs, tasks, parent, settleOn, code, {})
  {
    var b := cells[w := cells[w].(state := Pending)];
    assert Frozen(cells, b);
    assert SameLinks(cells, b);
    ShapeStable(cells, b, aggs, tasks, parent, settleOn);
    assert CellShape(cells, aggs, parent, settleOn, w);
    forall x | x in parent ensures NodeOk(b, parent, settleOn, code, {}, x) {
      assert NodeOk(cells, parent, settleOn, code, {}, x);
      if b[x].state.IsFinal() {
        NodeSettlesStable(cells, b, parent, settleOn, code, x, Outcome(b[x]));
      }
    }
    forall x | x in settleOn ensures FlatOk(b, parent, settleOn, code, {}, x) {
      assert FlatOk(cells, parent, settleOn, code, {}, x);
      FlatTargetStable(cells, b, code, cells[x].kind, Outcome(cells[parent[x]]), settleOn[x]);
    }
    forall x | 0 <= x < |aggs| ensures AggOk(b, aggs, x) {
      AggOkStable(cells, b, aggs, x);
    }
    forall x | 0 <= x < |b| && b[x].kind.Then? ensures SlotNodeOk(b, aggs, parent, x) {
      assert SlotNodeOk(cells, aggs, parent, x);
    }
    forall i | 0 <= i < |b| ensures RootOk(b, i) {
      assert RootOk(cells, i);
    }
  }

  /** Recording that fed ThenBlock `w` waits on `target`, before it is pushed. */
  lemma RegisterKeepsInv(cells: seq<Cell>, aggs: seq<AllState>, tasks: seq<CellId>, parent: map<CellId, CellId>,
                         settleOn: map<CellId, CellId>, code: Code, w: CellId, target: CellId)
    requires Inv(cells, aggs, tasks, parent, settleOn, code, {})
    requires w < |cells| && w !in settleOn && cells[w].state == Pending
    requires w in parent && parent[w] < |cells| && cells[parent[w]].state.IsFinal()
    requires FlatTarget(cells, code, cells[w].kind, Outcome(cells[parent[w]]), target)
    ensures Inv(cells, aggs, tasks, parent, settleOn[w := target], code, {w})
  {
    var s1 := settleOn[w := target];
    forall i | 0 <= i < |cells| ensures CellShape(cells, aggs, parent, s1, i) {
      assert CellShape(cells, aggs, parent, settleOn, i);
    }
    forall x | x in parent ensures NodeOk(cells, parent, s1, code, {w}, x) {
      assert NodeOk(cells, parent, settleOn, code, {}, x);
      if cells[x].state.IsFinal() {
        assert NodeSettles(cells, parent, settleOn, code, x, Outcome(cells[x]));
      }
    }
    forall x | x in s1 ensures FlatOk(cells, parent, s1, code, {w}, x) {
      if x != w {
        assert FlatOk(cells, parent, settleOn, code, {}, x);
      }
    }
  }

  /** Allocating a MyPromise run by an executor or by a queued timer. */
  lemma AppendRootKeepsInv(cells: seq<Cell>, aggs: seq<AllState>, tasks: seq<CellId>, parent: map<CellId, CellId>,
                           settleOn: map<CellId, CellId>, code: Code, cell: Cell, t1: seq<CellId>)
    requires Inv(cells, aggs, tasks, parent, settleOn, code, {})
    requires cell.state == Pending && cell.toFeed == [] && cell.toSettle == []
    requires cell.kind.Root? && !cell.kind.origin.Aggregate?
    requires t1 == tasks || (cell.kind.origin.Scheduled? && t1 == tasks + [|cells|])
    ensures Inv(cells + [cell], aggs, t1, parent, settleOn, code, {})
  {
    var b := cells + [cell];
    assert Frozen(cells, b);
    forall i | 0 <= i < |b| ensures CellShape(b, aggs, parent, settleOn, i) {
      if i < |cells| {
        assert CellShape(cells, aggs, parent, settleOn, i);
      }
    }
    forall x | x in parent ensures NodeOk(b, parent, settleOn, code, {}, x) {
      assert NodeOk(cells, parent, settleOn, code, {}, x);
      if b[x].state.IsFinal() {
        NodeSettlesStable(cells, b, parent, settleOn, code, x, Outcome(b[x]));
      }
    }
    forall x | x in settleOn ensures FlatOk(b, parent, settleOn, code, {}, x) {
      assert FlatOk(cells, parent, settleOn, code, {}, x);
      FlatTargetStable(cells, b, code, cells[x].kind, Outcome(cells[parent[x]]), settleOn[x]);
    }
    forall x | 0 <= x < |aggs| ensures AggOk(b, aggs, x) {
      AggOkStable(cells, b, aggs, x);
    }
    forall x | 0 <= x < |b| && b[x].kind.Then? ensures SlotNodeOk(b, aggs, parent, x) {
      assert SlotNodeOk(cells, aggs, parent, x);
    }
    forall i | 0 <= i < |b| ensures RootOk(b, i) {
      if i < |cells| {
        assert RootOk(cells, i);
      }
    }
  }

  /** A detached block whose links are not needed any more is attached again. */
  lemma AttachKeepsInv(cells: seq<Cell>, aggs: seq<AllState>, tasks: seq<CellId>, parent: map<CellId, CellId>,
                       settleOn: map<CellId, CellId>, code: Code, x: CellId)
    requires Inv(cells, aggs, tasks, parent, settleOn, code, {x})
    requires x < |cells|
    requires x in parent && parent[x] < |cells| && cells[x].state == WaitInput ==>
               cells[parent[x]].state.IsFinal() || x in cells[parent[x]].toFeed
    requires x in settleOn && settleOn[x] < |cells| && cells[x].state == Pending ==> x in cells[settleOn[x]].toSettle
    ensures Inv(cells, aggs, tasks, parent, settleOn, code, {})
  {
    forall w | w in parent ensures NodeOk(cells, parent, settleOn, code, {}, w) {
      assert NodeOk(cells, parent, settleOn, code, {x}, w);
    }
    forall w | w in settleOn ensures FlatOk(cells, parent, settleOn, code, {}, w) {
      assert FlatOk(cells, parent, settleOn, code, {x}, w);
    }
  }

  /** Pushing ThenBlock `blk` onto the settle stack of unsettled block `c`. */
  lemma PushSettleKeepsInv(cells: seq<Cell>, aggs: seq<AllState>, tasks: seq<CellId>, parent: map<CellId, CellId>,
                           settleOn: map<CellId, CellId>, code: Code, c: CellId, blk: CellId)
    requires Inv(cells, aggs, tasks, parent, settleOn, code, {blk})
    requires c < |cells| && !cells[c].state.IsFinal() && blk < |cells|
    requires blk in settleOn && settleOn[blk] == c && cells[blk].state == Pending
    ensures Inv(cells[c := cells[c].(toSettle := cells[c].toSettle + [blk])], aggs, tasks, parent, settleOn, code, {})
  {
    var b := cells[c := cells[c].(toSettle := cells[c].toSettle + [blk])];
    assert SameStates(cells, b);
    forall i | 0 <= i < |b| ensures CellShape(b, aggs, parent, settleOn, i) {
      assert CellShape(cells, aggs, parent, settleOn, i);
    }
    forall w | w in parent && b[w].state == WaitInput && !b[parent[w]].state.IsFinal()
      ensures w in b[parent[w]].toFeed
    {
      assert NodeOk(cells, parent, settleOn, code, {blk}, w);
    }
    forall w | w in settleOn && b[w].state == Pending ensures w in b[settleOn[w]].toSettle {
      assert FlatOk(cells, parent, settleOn, code, {blk}, w);
      if w == blk {
        assert b[c].toSettle[|b[c].toSettle| - 1] == blk;
      }
    }
    StacksOnly(cells, b, aggs, tasks, parent, settleOn, code, {blk}, {});
  }

  /** A ThenBlock whose handler returned may take the outcome of the block it waits on
      once that block has settled, whether or not it still sits on a stack. */
  lemma FlatAllowed(cells: seq<Cell>, aggs: seq<AllState>, tasks: seq<CellId>, parent: map<CellId, CellId>,
                    settleOn: map<CellId, CellId>, code: Code, blk: CellId)
    requires Inv(cells, aggs, tasks, parent, settleOn, code, {blk})
    requires blk in settleOn && cells[blk].state == Pending && cells[settleOn[blk]].state.IsFinal()
    ensures Allowed(cells, aggs, parent, settleOn, code, blk, Outcome(cells[settleOn[blk]]))
  {
    assert FlatOk(cells, parent, settleOn, code, {blk}, blk);
    assert CellShape(cells, aggs, parent, settleOn, blk);
  }

  /** Detaching a block weakens the invariant. */
  lemma DetachMore(cells: seq<Cell>, aggs: seq<AllState>, tasks: seq<CellId>, parent: map<CellId, CellId>,
                   settleOn: map<CellId, CellId>, code: Code, c: CellId)
    requires Inv(cells, aggs, tasks, parent, settleOn, code, {})
    ensures Inv(cells, aggs, tasks, parent, settleOn, code, {c})
  {
    forall w | w in parent ensures NodeOk(cells, parent, settleOn, code, {c}, w) {
      assert NodeOk(cells, parent, settleOn, code, {}, w);
    }
    forall w | w in settleOn ensures FlatOk(cells, parent, settleOn, code, {c}, w) {
      assert FlatOk(cells, parent, settleOn, code, {}, w);
    }
  }

  /** Once settled block `c` has emptied its settle stack, every block that waits on it
      has settled with its outcome. */
  lemma WaitersSettled(cells: seq<Cell>, aggs: seq<AllState>, tasks: seq<CellId>, parent: map<CellId, CellId>,
                       settleOn: map<CellId, CellId>, code: Code, c: CellId)
    requires Inv(cells, aggs, tasks, parent, settleOn, code, {})
    requires c < |cells| && cells[c].state.IsFinal() && cells[c].toSettle == []
    ensures forall w | w in settleOn && settleOn[w] == c ::
              w < |cells| && cells[w].state.IsFinal() && Outcome(cells[w]) == Outcome(cells[c])
  {
    forall w | w in settleOn && settleOn[w] == c
      ensures w < |cells| && cells[w].state.IsFinal() && Outcome(cells[w]) == Outcome(cells[c])
    {
      assert FlatOk(cells, parent, settleOn, code, {}, w);
      assert NodeOk(cells, parent, settleOn, code, {}, w);
    }
  }

  /** A node that waits on a block, and that is pending only while that block has not
      settled, has adopted that block as the result of its handler. */
  lemma AdoptsOf(cells: seq<Cell>, aggs: seq<AllState>, tasks: seq<CellId>, parent: map<CellId, CellId>,
                 settleOn: map<CellId, CellId>, code: Code, w: CellId)
    requires Inv(cells, aggs, tasks, parent, settleOn, code, {})
    requires w in settleOn
    requires cells[w].state == Pending ==> !cells[settleOn[w]].state.IsFinal()
    ensures w in parent && parent[w] < |cells| && cells[parent[w]].state.IsFinal()
    ensures Adopts(cells, settleOn, code, w, cells[w].kind, Outcome(cells[parent[w]]))
  {
    assert FlatOk(cells, parent, settleOn, code, {}, w);
    assert NodeOk(cells, parent, settleOn, code, {}, w);
  }

  /** In a heap whose settled blocks have emptied their stacks, no pending block waits on
      a settled one. */
  lemma SettleAwakeOf(cells: seq<Cell>, aggs: seq<AllState>, tasks: seq<CellId>, parent: map<CellId, CellId>,
                      settleOn: map<CellId, CellId>, code: Code)
    requires Inv(cells, aggs, tasks, parent, settleOn, code, {}) && Drained(cells)
    ensures SettleAwake(cells, settleOn)
  {
    forall w | w in settleOn && w < |cells| && settleOn[w] < |cells| && cells[w].state == Pending
      ensures !cells[settleOn[w]].state.IsFinal()
    {
      assert FlatOk(cells, parent, settleOn, code, {}, w);
    }
  }

  // ---------------------------------------------------------------------------
  // The records of MyPromise.all calls
  // ---------------------------------------------------------------------------

  /** A set of positions below `m` has at most `m` elements. */
  lemma {:induction false} FilledBound(filled: set<nat>, m: nat)
    requires forall j | j in filled :: j < m
    ensures |filled| <= m
  {
    if m > 0 {
      var rest := filled - {m - 1};
      FilledBound(rest, m - 1);
      assert filled <= rest + {m - 1};
    } else {
      assert filled == {};
    }
  }

  /** A set of positions below `m` with at least `m` elements holds every one of them. */
  lemma {:induction false} FilledFull(filled: set<nat>, m: nat)
    requires forall j | j in filled :: j < m
    requires m <= |filled|
    ensures forall j | 0 <= j < m :: j in filled
  {
    if m > 0 {
      var rest := filled - {m - 1};
      if m - 1 !in filled {
        assert rest == filled;
        FilledBound(rest, m - 1);
      }
      assert |rest| == |filled| - 1;
      FilledFull(rest, m - 1);
    }
  }

  /** A set holding exactly the positions below `m` has `m` elements. */
  lemma {:induction false} FilledExact(filled: set<nat>, m: nat)
    requires forall j | j in filled :: j < m
    requires forall j | 0 <= j < m :: j in filled
    ensures |filled| == m
  {
    if m > 0 {
      var rest := filled - {m - 1};
      FilledExact(rest, m - 1);
    } else {
      assert filled == {};
    }
  }

  /** `filled` holds only positions of `values`, which is no longer than the items, and
      the count of unfilled positions has dropped to zero: every item's position is
      filled and `values` covers all items. */
  lemma FilledAll(filled: set<nat>, m: nat, n: nat)
    requires forall j | j in filled :: j < m
    requires m <= n <= |filled|
    ensures forall j | 0 <= j < n :: j in filled
    ensures m == n
  {
    FilledBound(filled, m);
    FilledFull(filled, m);
  }

  /** Replacing the record of call `a` by `B` of the same shape keeps the invariant when
      `B` is right and no waiting value continuation of the call has had its position
      filled. */
  lemma AggUpdate(cells: seq<Cell>, aggs: seq<AllState>, tasks: seq<CellId>, parent: map<CellId, CellId>,
                  settleOn: map<CellId, CellId>, code: Code, a: nat, B: AllState)
    requires Inv(cells, aggs, tasks, parent, settleOn, code, {})
    requires a < |aggs| && B.items == aggs[a].items && B.cell == aggs[a].cell && B.slot == aggs[a].slot
    requires AggOk(cells, aggs[a := B], a)
    requires forall x | 0 <= x < |cells| && cells[x].kind.Then? && cells[x].kind.onValue.AllValue? &&
                        cells[x].kind.onValue.agg == a && cells[x].state == WaitInput ::
               cells[x].kind.onValue.idx !in B.filled && cells[x].kind.onValue.idx < |B.values|
    ensures Inv(cells, aggs[a := B], tasks, parent, settleOn, code, {})
  {
    var aggs1 := aggs[a := B];
    forall i | 0 <= i < |cells| ensures CellShape(cells, aggs1, parent, settleOn, i) {
      assert CellShape(cells, aggs, parent, settleOn, i);
    }
    forall x | 0 <= x < |aggs1| ensures AggOk(cells, aggs1, x) {
      if x != a {
        assert AggOk(cells, aggs, x);
      }
    }
    forall x | 0 <= x < |cells| && cells[x].kind.Then? ensures SlotNodeOk(cells, aggs1, parent, x) {
      assert SlotNodeOk(cells, aggs, parent, x);
    }
  }

  /** The value continuation of MyPromise.all call `a` for position `i`, run by ThenBlock
      `w` with the value `v` its item resolved to, writes `values[i]`, counts the position
      as filled and keeps the invariant. */
  lemma ValueKeepsInv(cells: seq<Cell>, aggs: seq<AllState>, tasks: seq<CellId>, parent: map<CellId, CellId>,
                      settleOn: map<CellId, CellId>, code: Code, w: CellId, a: nat, i: nat, v: Value)
    requires Inv(cells, aggs, tasks, parent, settleOn, code, {})
    requires w < |cells| && w in parent && cells[w].state == Pending && cells[w].kind == Then(AllValue(a, i), NoHandler)
    requires cells[parent[w]].state == Resolved && cells[parent[w]].valueErr == v
    requires a < |aggs| && i !in aggs[a].filled && i < |aggs[a].values|
    ensures var A := aggs[a];
            Inv(cells, aggs[a := A.(values := A.values[i := v], numUnResolved := A.numUnResolved - 1,
                                     filled := A.filled + {i})], tasks, parent, settleOn, code, {})
    ensures aggs[a].cell < |cells| && (!aggs[a].errorOccurs ==> cells[aggs[a].cell].state == Pending)
  {
    var A := aggs[a];
    var B := A.(values := A.values[i := v], numUnResolved := A.numUnResolved - 1, filled := A.filled + {i});
    assert AggOk(cells, aggs, a);
    assert CellShape(cells, aggs, parent, settleOn, A.cell);
    assert SlotNodeOk(cells, aggs, parent, w);
    assert SlotValueOk(cells, B, i);
    forall j | j in B.filled ensures SlotValueOk(cells, B, j) {
      if j != i {
        assert SlotValueOk(cells, A, j);
      }
    }
    assert |B.filled| == |A.filled| + 1;
    assert AggOk(cells, aggs[a := B], a);
    forall x | 0 <= x < |cells| && cells[x].kind.Then? && cells[x].kind.onValue.AllValue? &&
               cells[x].kind.onValue.agg == a && cells[x].state == WaitInput
      ensures cells[x].kind.onValue.idx !in B.filled && cells[x].kind.onValue.idx < |B.values|
    {
      assert SlotNodeOk(cells, aggs, parent, x);
    }
    AggUpdate(cells, aggs, tasks, parent, settleOn, code, a, B);
  }

  /** The error continuation of MyPromise.all call `a`, run by ThenBlock `w` with error
      `e`: the item of the position behind `w` was rejected with `e`.  Recording the
      error, and that position as the first rejection while the aggregate is still
      pending, keeps the invariant. */
  lemma ErrorKeepsInv(cells: seq<Cell>, aggs: seq<AllState>, tasks: seq<CellId>, parent: map<CellId, CellId>,
                      settleOn: map<CellId, CellId>, code: Code, w: CellId, a: nat, e: Value)
    requires Inv(cells, aggs, tasks, parent, settleOn, code, {})
    requires w < |cells| && w in parent && cells[w].kind == Then(NoHandler, AllError(a))
    requires cells[parent[w]].state == Rejected && cells[parent[w]].valueErr == e
    requires a < |aggs|
    ensures parent[w] < |cells| && cells[parent[w]].kind.Then? && cells[parent[w]].kind.onValue.AllValue?
    ensures aggs[a].cell < |cells| && (cells[aggs[a].cell].state != Pending ==> cells[aggs[a].cell].state == Rejected)
    ensures var A, i := aggs[a], cells[parent[w]].kind.onValue.idx;
            var fr := if cells[A.cell].state == Pending then i else A.firstRejected;
            && Inv(cells, aggs[a := A.(errorOccurs := true, firstRejected := fr)], tasks, parent, settleOn, code, {})
            && (cells[A.cell].state == Pending ==>
                  i < |A.items| && IsPromise(cells, A.items[i]) && cells[A.items[i].id].valueErr == e)
  {
    var A := aggs[a];
    assert SlotNodeOk(cells, aggs, parent, w);
    var t1 := parent[w];
    var i := cells[t1].kind.onValue.idx;
    assert SlotNodeOk(cells, aggs, parent, t1);
    var m := parent[t1];
    assert NodeOk(cells, parent, settleOn, code, {}, t1);
    assert t1 in settleOn ==> FlatOk(cells, parent, settleOn, code, {}, t1);
    assert t1 in settleOn ==> RootOk(cells, settleOn[t1]);
    assert cells[m].state == Rejected && cells[m].valueErr == e;
    assert AggOk(cells, aggs, a);
    assert i < |A.items| && m == A.items[i].id;
    assert CellShape(cells, aggs, parent, settleOn, A.cell);
    assert cells[A.cell].state == Resolved ==> i in A.filled;
    assert cells[A.cell].state == Resolved ==> SlotValueOk(cells, A, i);
    assert cells[A.cell].state != Pending ==> A.errorOccurs;
    var fr := if cells[A.cell].state == Pending then i else A.firstRejected;
    var B := A.(errorOccurs := true, firstRejected := fr);
    forall j | j in B.filled ensures SlotValueOk(cells, B, j) {
      assert SlotValueOk(cells, A, j);
    }
    assert AggOk(cells, aggs[a := B], a);
    forall x | 0 <= x < |cells| && cells[x].kind.Then? && cells[x].kind.onValue.AllValue? &&
               cells[x].kind.onValue.agg == a && cells[x].state == WaitInput
      ensures cells[x].kind.onValue.idx !in B.filled && cells[x].kind.onValue.idx < |B.values|
    {
      assert SlotNodeOk(cells, aggs, parent, x);
    }
    AggUpdate(cells, aggs, tasks, parent, settleOn, code, a, B);
  }

  // ---------------------------------------------------------------------------
  // Facts the feed/settle methods need at one point of their run
  // ---------------------------------------------------------------------------

  /** Before block `c` settles, every block chained onto it waits for input on its feed
      stack. */
  lemma ChildrenWaiting(cells: seq<Cell>, aggs: seq<AllState>, tasks: seq<CellId>, parent: map<CellId, CellId>,
                        settleOn: map<CellId, CellId>, code: Code, c: CellId)
    requires Inv(cells, aggs, tasks, parent, settleOn, code, {c})
    requires c < |cells| && cells[c].state == Pending
    ensures forall w | w in parent && w < |cells| && parent[w] == c && cells[w].state == WaitInput ::
              w in cells[c].toFeed
  {
    forall w | w in parent && w < |cells| && parent[w] == c && cells[w].state == WaitInput
      ensures w in cells[c].toFeed
    {
      assert NodeOk(cells, parent, settleOn, code, {c}, w);
    }
  }

  /** Node `w`, waiting for input on a settled parent, is fed: it is not waiting on any
      block yet, and a value continuation of MyPromise.all finds its position unfilled. */
  lemma FeedReady(cells: seq<Cell>, aggs: seq<AllState>, tasks: seq<CellId>, parent: map<CellId, CellId>,
                  settleOn: map<CellId, CellId>, code: Code, w: CellId)
    requires Inv(cells, aggs, tasks, parent, settleOn, code, {})
    requires w < |cells| && cells[w].state == WaitInput
    requires w in parent && parent[w] < |cells| && cells[parent[w]].state.IsFinal()
    ensures w !in settleOn && !cells[w].kind.Root?
    ensures cells[w].kind.Then? && HandlerFor(cells[w].kind, Outcome(cells[parent[w]])).AllValue? ==>
              var h := HandlerFor(cells[w].kind, Outcome(cells[parent[w]]));
              h.agg < |aggs| && h.idx !in aggs[h.agg].filled && h.idx < |aggs[h.agg].values|
    ensures Inv(cells[w := cells[w].(state := Pending)], aggs, tasks, parent, settleOn, code, {})
  {
    assert w in settleOn ==> FlatOk(cells, parent, settleOn, code, {}, w);
    assert CellShape(cells, aggs, parent, settleOn, w);
    assert cells[w].kind.Then? ==> SlotNodeOk(cells, aggs, parent, w);
    FeedKeepsInv(cells, aggs, tasks, parent, settleOn, code, w);
  }

  /** The closure a fed ThenBlock runs matches the fate it was fed: a value continuation
      of MyPromise.all runs only on a value, an error continuation only on an error. */
  lemma HandlerMatches(cells: seq<Cell>, aggs: seq<AllState>, tasks: seq<CellId>, parent: map<CellId, CellId>,
                       settleOn: map<CellId, CellId>, code: Code, w: CellId, s: Fate)
    requires Inv(cells, aggs, tasks, parent, settleOn, code, {})
    requires w < |cells| && cells[w].kind.Then?
    ensures HandlerFor(cells[w].kind, s).AllValue? ==> s.Resolve? && cells[w].kind.onError.NoHandler?
    ensures HandlerFor(cells[w].kind, s).AllError? ==>
              s.Reject? && cells[w].kind.onValue.NoHandler? && cells[w].kind.onError.agg < |aggs|
  {
    assert SlotNodeOk(cells, aggs, parent, w);
  }

  /** A node that was lonely at `a` and settled nowhere in between is still pending,
      still unregistered, and its parent still has the same outcome. */
  lemma StillLonely(a: seq<Cell>, b: seq<Cell>, parent: map<CellId, CellId>, s0: map<CellId, CellId>,
                    s1: map<CellId, CellId>, w: CellId)
    requires Evolved(a, b, parent, {}) && LonelyKept(a, b, s0, s1, {})
    requires w < |a| && a[w].state == Pending && !a[w].kind.Root? && w !in s0
    requires w in parent && parent[w] < |a| && a[parent[w]].state.IsFinal()
    ensures b[w].state == Pending && w !in s1 && b[w].kind == a[w].kind
    ensures b[parent[w]].state.IsFinal() && Outcome(b[parent[w]]) == Outcome(a[parent[w]])
  {
    assert LonelyAt(a, b, s0, s1, {}, w);
    assert EvolvedAt(a, b, parent, {}, w);
    assert EvolvedAt(a, b, parent, {}, parent[w]);
  }

  /** After feeding `w`, popped from the top of the feed stack of settled block `c`, every
      child of `c` still waiting for input is still on that stack. */
  lemma FeedLoopStep(cb: seq<Cell>, cm: seq<Cell>, b: seq<Cell>, parent: map<CellId, CellId>, c: CellId, w: CellId)
    requires Evolved(cm, b, parent, {}) && c < |cb| == |cm| && cm[c].state.IsFinal()
    requires forall x | x in parent :: x < |cb|
    requires forall i | 0 <= i < |cb| && i != c :: cm[i] == cb[i]
    requires w < |cb| && cb[c].toFeed == cm[c].toFeed + [w] && b[w].state != WaitInput
    requires forall x | x in parent && x < |cb| && parent[x] == c && cb[x].state == WaitInput :: x in cb[c].toFeed
    ensures forall x | x in parent && x < |b| && parent[x] == c && b[x].state == WaitInput :: x in b[c].toFeed
    ensures b[c].toFeed == cm[c].toFeed && b[c].toSettle == cm[c].toSettle
    ensures b[c].state == cm[c].state && b[c].valueErr == cm[c].valueErr
  {
    assert EvolvedAt(cm, b, parent, {}, c);
    forall x | x in parent && x < |b| && parent[x] == c && b[x].state == WaitInput ensures x in b[c].toFeed {
      assert EvolvedAt(cm, b, parent, {}, x);
      assert x in cb[c].toFeed;
    }
  }

  /** Nothing that evolves makes a block wait for input again. */
  lemma NoneWaiting(cm: seq<Cell>, b: seq<Cell>, parent: map<CellId, CellId>, e: set<CellId>, c: CellId)
    requires Evolved(cm, b, parent, e)
    requires forall x | x in parent :: x < |cm|
    requires forall x | x in parent && x < |cm| && parent[x] == c :: cm[x].state != WaitInput
    requires c < |cm| && cm[c].state.IsFinal()
    ensures forall x | x in parent && x < |b| && parent[x] == c :: b[x].state != WaitInput
    ensures b[c].toFeed == cm[c].toFeed && b[c].toSettle == cm[c].toSettle
    ensures b[c].state == cm[c].state && b[c].valueErr == cm[c].valueErr
  {
    assert EvolvedAt(cm, b, parent, e, c);
    forall x | x in parent && x < |b| && parent[x] == c ensures b[x].state != WaitInput {
      assert EvolvedAt(cm, b, parent, e, x);
    }
  }

  /** Inside the feed loop of block `c`, settled since `c0`: popping the top `w` of its
      feed stack keeps the invariant and the step from `c0` and changes no count, and
      `w`, if it still waits for input, is a child of `c`. */
  lemma FeedPop(c0: seq<Cell>, a0: seq<AllState>, t0: seq<CellId>, s0: map<CellId, CellId>,
                cells: seq<Cell>, aggs: seq<AllState>, tasks: seq<CellId>, parent: map<CellId, CellId>,
                settleOn: map<CellId, CellId>, code: Code, c: CellId)
    requires Inv(cells, aggs, tasks, parent, settleOn, code, {})
    requires c < |c0| && !c0[c].state.IsFinal()
    requires c < |cells| && cells[c].state.IsFinal() && |cells[c].toFeed| > 0
    requires StepOk(c0, a0, t0, parent, s0, cells, aggs, tasks, parent, settleOn, {c}, {c})
    ensures var n := |cells[c].toFeed|;
            var w := cells[c].toFeed[n - 1];
            var b := cells[c := cells[c].(toFeed := cells[c].toFeed[..n - 1])];
            && Inv(b, aggs, tasks, parent, settleOn, code, {})
            && StepOk(c0, a0, t0, parent, s0, b, aggs, tasks, parent, settleOn, {c}, {c})
            && Count(b, WaitInput) == Count(cells, WaitInput) && Count(b, Pending) == Count(cells, Pending)
            && w < |b| && (b[w].state == WaitInput ==> w in parent && parent[w] == c)
  {
    var n := |cells[c].toFeed|;
    var popped := cells[c].(toFeed := cells[c].toFeed[..n - 1]);
    var b := cells[c := popped];
    assert CellShape(cells, aggs, parent, settleOn, c);
    CountUpdate(cells, c, popped, WaitInput);
    CountUpdate(cells, c, popped, Pending);
    PopFeedKeepsInv(cells, aggs, tasks, parent, settleOn, code, c);
    StacksStep(c0, a0, t0, parent, s0, cells, b, aggs, tasks, parent, settleOn, c);
  }

  /** Inside the settle loop of block `c`, settled since `c0`: popping the top `w` of its
      settle stack keeps the invariant and the step from `c0` and changes no count; `w`,
      if still pending, may take the outcome of `c`, and it was not lonely at `c0`. */
  lemma SettlePop(c0: seq<Cell>, a0: seq<AllState>, t0: seq<CellId>, s0: map<CellId, CellId>,
                  cells: seq<Cell>, aggs: seq<AllState>, tasks: seq<CellId>, parent: map<CellId, CellId>,
                  settleOn: map<CellId, CellId>, code: Code, c: CellId)
    requires Inv(cells, aggs, tasks, parent, settleOn, code, {})
    requires c < |c0| && !c0[c].state.IsFinal()
    requires c < |cells| && cells[c].state.IsFinal() && |cells[c].toSettle| > 0
    requires StepOk(c0, a0, t0, parent, s0, cells, aggs, tasks, parent, settleOn, {c}, {c})
    ensures var n := |cells[c].toSettle|;
            var w := cells[c].toSettle[n - 1];
            var b := cells[c := cells[c].(toSettle := cells[c].toSettle[..n - 1])];
            && Inv(b, aggs, tasks, parent, settleOn, code, {w})
            && StepOk(c0, a0, t0, parent, s0, b, aggs, tasks, parent, settleOn, {c}, {c})
            && Count(b, WaitInput) == Count(cells, WaitInput) && Count(b, Pending) == Count(cells, Pending)
            && w < |b| && w in settleOn && settleOn[w] == c && b[w].state != WaitInput
            && (b[w].state != Pending ==> Inv(b, aggs, tasks, parent, settleOn, code, {}))
            && (b[w].state == Pending ==> Allowed(b, aggs, parent, settleOn, code, w, Outcome(b[c])))
            && (b[w].state.IsFinal() ==> Outcome(b[w]) == Outcome(b[c]))
            && (w < |c0| ==> c0[w].state != Pending || c0[w].kind.Root? || w in s0 || w == c)
  {
    var n := |cells[c].toSettle|;
    var w := cells[c].toSettle[n - 1];
    var popped := cells[c].(toSettle := cells[c].toSettle[..n - 1]);
    var b := cells[c := popped];
    assert CellShape(cells, aggs, parent, settleOn, c);
    assert w in settleOn && settleOn[w] == c;
    if w < |c0| {
      assert LonelyAt(c0, cells, s0, settleOn, {c}, w);
    }
    CountUpdate(cells, c, popped, WaitInput);
    CountUpdate(cells, c, popped, Pending);
    PopSettleKeepsInv(cells, aggs, tasks, parent, settleOn, code, c);
    StacksStep(c0, a0, t0, parent, s0, cells, b, aggs, tasks, parent, settleOn, c);
    assert FlatOk(cells, parent, settleOn, code, {}, w);
    if b[w].state == Pending {
      FlatAllowed(b, aggs, tasks, parent, settleOn, code, w);
    } else {
      assert NodeOk(cells, parent, settleOn, code, {}, w);
      AttachKeepsInv(b, aggs, tasks, parent, settleOn, code, w);
    }
  }

  /** Closing one turn of the settle loop of block `c`: settling `w`, which was not lonely
      at `c0`, keeps the step from `c0`, leaves no child of `c` waiting for input and
      leaves `c` as it was. */
  lemma SettleLoopStep(c0: seq<Cell>, a0: seq<AllState>, t0: seq<CellId>, s0: map<CellId, CellId>,
                       cm: seq<Cell>, am: seq<AllState>, tm: seq<CellId>, sm: map<CellId, CellId>,
                       b: seq<Cell>, a1: seq<AllState>, t1: seq<CellId>, s1: map<CellId, CellId>,
                       parent: map<CellId, CellId>, c: CellId, w: CellId)
    requires StepOk(c0, a0, t0, parent, s0, cm, am, tm, parent, sm, {c}, {c})
    requires StepOk(cm, am, tm, parent, sm, b, a1, t1, parent, s1, {}, {w})
    requires w < |c0| ==> c0[w].state != Pending || c0[w].kind.Root? || w in s0 || w == c
    requires w in sm
    requires forall x | x in parent :: x < |cm|
    requires forall x | x in parent && x < |cm| && parent[x] == c :: cm[x].state != WaitInput
    requires c < |cm| && cm[c].state.IsFinal()
    ensures StepOk(c0, a0, t0, parent, s0, b, a1, t1, parent, s1, {c}, {c})
    ensures forall x | x in parent && x < |b| && parent[x] == c :: b[x].state != WaitInput
    ensures b[c].toFeed == cm[c].toFeed && b[c].toSettle == cm[c].toSettle
    ensures b[c].state == cm[c].state && b[c].valueErr == cm[c].valueErr
  {
    StepTrans(c0, a0, t0, parent, s0, cm, am, tm, parent, sm, b, a1, t1, parent, s1, {c}, {c}, {}, {w});
    assert {c} + {} == {c};
    RootOrLonelyShrink(c0, b, s0, s1, c, w);
    NoneWaiting(cm, b, parent, {}, c);
  }

  /** Closing one turn of the feed loop of block `c`: feeding `w` keeps the step from
      `c0` and keeps every child of `c` that waits for input on its feed stack. */
  lemma FeedLoopTurn(c0: seq<Cell>, a0: seq<AllState>, t0: seq<CellId>, s0: map<CellId, CellId>,
                     cb: seq<Cell>, cm: seq<Cell>, am: seq<AllState>, tm: seq<CellId>, sm: map<CellId, CellId>,
                     b: seq<Cell>, a1: seq<AllState>, t1: seq<CellId>, s1: map<CellId, CellId>,
                     parent: map<CellId, CellId>, c: CellId, w: CellId)
    requires StepOk(c0, a0, t0, parent, s0, cm, am, tm, parent, sm, {c}, {c})
    requires StepOk(cm, am, tm, parent, sm, b, a1, t1, parent, s1, {}, {})
    requires c < |cb| == |cm| && cm[c].state.IsFinal()
    requires forall x | x in parent :: x < |cb|
    requires forall i | 0 <= i < |cb| && i != c :: cm[i] == cb[i]
    requires w < |cb| && cb[c].toFeed == cm[c].toFeed + [w] && b[w].state != WaitInput
    requires forall x | x in parent && x < |cb| && parent[x] == c && cb[x].state == WaitInput :: x in cb[c].toFeed
    ensures StepOk(c0, a0, t0, parent, s0, b, a1, t1, parent, s1, {c}, {c})
    ensures forall x | x in parent && x < |b| && parent[x] == c && b[x].state == WaitInput :: x in b[c].toFeed
    ensures b[c].toFeed == cm[c].toFeed && b[c].toSettle == cm[c].toSettle
    ensures b[c].state == cm[c].state && b[c].valueErr == cm[c].valueErr
  {
    StepTrans(c0, a0, t0, parent, s0, cm, am, tm, parent, sm, b, a1, t1, parent, s1, {c}, {c}, {}, {});
    assert {c} + {} == {c};
    FeedLoopStep(cb, cm, b, parent, c, w);
  }
}
