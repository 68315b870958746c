/** The values the promise machinery of my_promise.js works with: JavaScript values,
    the four states of a chain block, the fate a block is settled with, what a user
    handler does when it is called, and the records kept for each block and for each
    running call of MyPromise.all. */
module Values {

  datatype Option<T> = None | Some(value: T)

  /** A chain block is referred to by its position in the heap of blocks. */
  type CellId = nat

  /** A user handler (a closure passed to then/catch/finally) is referred to by a name;
      what it does is fixed by the runtime's code table. */
  type HandlerId = nat

  /** A JavaScript value.  Ref(id) is a reference to chain block `id`: a MyPromise when
      that block is a root, otherwise an ordinary object (a ThenBlock or FinallyBlock). */
  datatype Value =
    | Undefined
    | Null
    | Num(n: int)
    | Str(s: string)
    | Arr(elems: seq<Value>)
    | Ref(id: CellId)

  /** `_state`: STATE_WAIT_INPUT, STATE_PENDING, STATE_RESOLVED, STATE_REJECTED. */
  datatype State = WaitInput | Pending | Resolved | Rejected {
    predicate IsFinal() { Resolved? || Rejected? }
  }

  /** How far a state is from the end of the life cycle; states only move to a
      smaller rank. */
  function Rank(s: State): (r: nat)
    ensures r == 0 <==> s.IsFinal()
    ensures s == Pending <==> r == 1
    ensures s == WaitInput <==> r == 2
  {
    match s
    case WaitInput => 2
    case Pending => 1
    case Resolved => 0
    case Rejected => 0
  }

  /** The two ways to settle a block: `_doResolve(value)` / `_doReject(err)`, and the
      two ways to feed one: `_doFeedValue(value)` / `_doFeedError(err)`. */
  datatype Fate = Resolve(value: Value) | Reject(error: Value) {
    function Payload(): Value {
      if Resolve? then value else error
    }
  }

  /** What a call of a user handler does: return a value or throw one. */
  datatype Completion = Returns(result: Value) | Throws(thrown: Value)

  /** The closure a ThenBlock runs when fed.  AllValue(a, i) is the value continuation
      that MyPromise.all call `a` registers for input position `i`; AllError(a) is the
      catch continuation it registers after it. */
  datatype Handler =
    | NoHandler
    | User(id: HandlerId)
    | AllValue(agg: nat, idx: nat)
    | AllError(agg: nat)

  /** Who may settle a MyPromise: the executor passed to the constructor (through the
      bound resolve/reject), a timer scheduled by MyPromise.resolve/reject carrying its
      fate, or the executor of MyPromise.all call `agg`. */
  datatype Origin = Executor | Scheduled(fate: Fate) | Aggregate(agg: nat)

  /** The three subclasses of ChainBlockBase. */
  datatype Kind =
    | Root(origin: Origin)
    | Then(onValue: Handler, onError: Handler)
    | Finally(cleanup: Option<HandlerId>)

  /** The fields of one chain block: `_state`, `_value_err`, the two waiter stacks
      `_subBlocksToFeed` and `_subBlocksToResolveReject`, and which subclass it is
      (which fixes its `_onValueFeeded`/`_onErrorFeeded` closures). */
  datatype Cell = Cell(state: State, valueErr: Value, toFeed: seq<CellId>, toSettle: seq<CellId>, kind: Kind)

  /** The fate a settled block was settled with. */
  function Outcome(c: Cell): (f: Fate)
    requires c.state.IsFinal()
    ensures f.Payload() == c.valueErr
    ensures f.Resolve? <==> c.state == Resolved
  {
    if c.state == Resolved then Resolve(c.valueErr) else Reject(c.valueErr)
  }

  /** The state a block moves to when it is settled with `f`. */
  function Settled(f: Fate): (s: State)
    ensures s.IsFinal()
    ensures s == Resolved <==> f.Resolve?
  {
    if f.Resolve? then Resolved else Rejected
  }

  /** The variables captured by the executor of one MyPromise.all call: the input
      `promises`, the aggregate block (whose bound resolve/reject it calls), `values`,
      `numUnResolved` and `errorOccurs`.  `filled` (positions already written),
      `firstRejected` (the position whose rejection rejected the aggregate) and `slot`
      (the ThenBlock registered for each position) are kept for the proofs only. */
  datatype AllState = AllState(
    items: seq<Value>,
    cell: CellId,
    values: seq<Value>,
    numUnResolved: int,
    errorOccurs: bool,
    ghost filled: set<nat>,
    ghost firstRejected: nat,
    ghost slot: map<nat, CellId>)

  /** A user executor, given as a script: the resolve/reject calls it makes while it
      runs, in order, and whether it then throws. */
  datatype Executor = Executor(calls: seq<Fate>, throws: Option<Value>)
}
