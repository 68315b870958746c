# MyPromise: a hand-built promise state machine, modelled in Dafny

`my_promise.js` mimics JavaScript's built-in `Promise` with explicit *chain blocks*.
Every block (the base `ChainBlockBase`, and its subclasses `ThenBlock`, `FinallyBlock` and
`MyPromise`) has a four-valued `_state`: WAIT_INPUT, then PENDING, then RESOLVED or
REJECTED. It also has a write-once `_value_err` and two waiter stacks.

- **Feed.** `_doFeedValue`/`_doFeedError` move a waiting block to PENDING and run its feed
  closure.
- **Settle.** `_doResolve`/`_doReject` move a pending block to its final state and drain
  both stacks. They pop every block chained onto it and feed it. Then they pop every block
  waiting on it, because a handler returned it, and settle that block the same way.
- **Late registration.** Chaining onto a block that has already settled delivers the
  outcome at once.
- **ThenBlock** runs the handler for what it was fed. With no handler it passes the outcome
  on. A thrown error rejects the block. A returned value is flattened: the block waits on
  the returned MyPromise, or on `MyPromise.resolve(result)` when the result is not one.
- **FinallyBlock** runs a cleanup with no argument and passes the outcome on, unless the
  cleanup throws.
- **MyPromise** starts PENDING and runs its executor at once. An executor throw rejects it.
- **`MyPromise.resolve`/`reject`** settle a fresh MyPromise from a `setTimeout(cb, 0)`
  timer.
- **`MyPromise.all`** collects the values of its items in input order and rejects with the
  first rejection.

## The model

**Heap.**
- The class `Promise.Runtime` is the JavaScript heap of chain blocks. `cells[id]` holds the
  fields of block `id`, and a reference to a block is its id.
- `aggs[a]` holds the variables that the closures of the `a`-th `MyPromise.all` call
  capture and update: `values`, `numUnResolved` and `errorOccurs`.
- `tasks` is the queue of pending timers.

**Operations.**
- Each operation of the source is a method that changes this state in place.
- The drain loops of `_doResolve`/`_doReject` are `while` loops that pop from the end of
  each stack, as `Array.prototype.pop` does.
- The `for` loop of `MyPromise.all` is a `while` loop over the items, in `AllExecutor`.
- The mutual recursion of feeding and settling terminates. Its measure is the number of
  blocks waiting for input, then the number of pending blocks, lexicographically.

**The invariant.** `Invariants.Inv` (under `Runtime.Valid`) is the invariant every
operation keeps:
- Every settled node settled as its handlers dictate for its parent's outcome
  (`NodeSettles`).
- Every flattening node waits on the right block (`FlatTarget`).
- Timers settle only as scheduled.
- Every `MyPromise.all` aggregate agrees with its `values`, `numUnResolved` and
  `errorOccurs`.

**Quiescence.** The public operations keep `Invariants.Quiescent` as well:
- no settled block has a non-empty stack;
- no node waits for input from an already settled parent, so there is no missed wakeup;
- every ThenBlock that waits on the block its handler returned is on that block's settle
  stack, or has already taken its outcome;
- no block still pending waits on a block that has already settled.

**Progress.** They also keep `Invariants.Progressed` from call to call:
- blocks only move forward in their life cycle;
- a settled block never changes its state or its `_value_err`.

**Modules.**
- `Values` holds the data.
- `Invariants` holds the invariant and one-step relations.
- `Preservation`, `Allocation` and `Aggregation` prove that each kind of update keeps the
  invariant.
- `Promise` holds the runtime.
- `Properties` holds what any reachable heap promises about outcomes.

`errorOccurs` guards only the resolve of the aggregate (`my_promise.js:268`,
`my_promise.js:276`). Every member rejection calls `reject(err)` (`my_promise.js:281`), and a
second one is a no-op through the PENDING guard of `_doReject`. `Promise.Runtime.SlotError`
models exactly that.

## Model

| member | source | states |
|---|---|---|
| Values.Rank | my_promise.js:26-29 | the four states ordered WAIT_INPUT > PENDING > final: rank 0 exactly for RESOLVED/REJECTED, 1 exactly for PENDING, 2 exactly for WAIT_INPUT |
| Values.Outcome | my_promise.js:103-104 | the fate read back from a settled block: resolve exactly when RESOLVED, carrying `_value_err` |
| Values.Settled | my_promise.js:123-124 | settling with a fate gives a final state, RESOLVED exactly for a resolve |
| Promise.UserHandler | my_promise.js:135-143 | a missing (null) handler argument of then/catch is "no handler"; a present one is that user closure |
| Allocation.NewNode | my_promise.js:41-45 | a freshly constructed ThenBlock/FinallyBlock waits for input with both stacks empty |
| Invariants.FinallyFate | my_promise.js:194-213 | a FinallyBlock passes on what it was fed unless its cleanup, called with no argument, throws; then it rejects with what was thrown |
| Promise.Runtime.DoSettle | my_promise.js:95-133 | a second call on a non-pending block changes nothing; otherwise the block settles with exactly the given fate, and when both its stacks were empty no other block, aggregate record or timer changes; at return both stacks are empty, no child still waits for input, every block that was on the settle stack and every block waiting on this one has settled with the same fate; the invariant is kept and the measure does not grow |
| Promise.Runtime.FeedAll | my_promise.js:107-109 | the first drain loop ends with the feed stack empty, every child fed, and the settle stack untouched; on an empty feed stack nothing changes |
| Promise.Runtime.FeedNext | my_promise.js:108 | one pop of the feed stack: the stack loses its top, and the popped block has been fed (it no longer waits for input) |
| Promise.Runtime.SettleAll | my_promise.js:110-112 | the second drain loop ends with the settle stack empty and every block that waits on this one settled with its outcome; on an empty settle stack nothing changes |
| Promise.Runtime.SettleNext | my_promise.js:111 | one pop of the settle stack: the stack loses its top, and the popped block ends settled with the outcome |
| Promise.Runtime.DoFeed | my_promise.js:67-93 | a call on a block not waiting for input changes nothing; otherwise the block leaves WAIT_INPUT and settles as SettledAsFed says for its kind and the fed outcome: with no handler, the fed outcome; after a throw, rejected with what was thrown; after a return, waiting on (or settled as) the block it adopts (Adopts) |
| Promise.Runtime.FeedThen | my_promise.js:156-187 | no handler for the fed kind: settles with the fed outcome unchanged; a throwing handler: rejected with the thrown value; a returning one: the block adopts the block it now waits on (Adopts) |
| Promise.Runtime.FeedFinally | my_promise.js:194-213 | the FinallyBlock ends settled with FinallyFate of its cleanup and the fed outcome |
| Promise.Runtime.Flatten | my_promise.js:159-164 | a MyPromise result is waited on directly: if it has settled, the node takes its outcome at once, otherwise the node is pushed on its settle stack and nothing else changes; any other result is wrapped by MyPromise.resolve first: one new pending MyPromise whose settle stack holds the node and one new timer; either way the node records the block it waits on and adopts it |
| Promise.Runtime.SlotValue | my_promise.js:272-278 | the value continuation of `all` writes the fed value into `values[idx]` and counts the position down; when that was the last unresolved position and no error occurred, the aggregate is resolved with `values`, otherwise nothing else changes |
| Promise.Runtime.SlotError | my_promise.js:279-282 | the error continuation of `all` sets `errorOccurs` and calls `reject(err)` unconditionally: afterwards the aggregate is rejected, with `err` itself if it was still pending |
| Promise.Runtime.Schedule | my_promise.js:237-254 | MyPromise.resolve/reject allocate a pending MyPromise and queue one timer for it, nothing else |
| Promise.Runtime.AddToSettle | my_promise.js:57-65 | on a settled block the waiter is settled at once with its outcome; otherwise it is only pushed on the settle stack |
| Promise.Runtime.AddToFeed | my_promise.js:47-55 | on a settled block the new node is fed its outcome at once; otherwise it is only pushed on the feed stack |
| Promise.Runtime.ExecutorSettle | my_promise.js:228-229 | the executor's resolve/reject, called while the executor runs or kept and called later: the first call settles the MyPromise with that fate (when nothing waits on it yet, only that block changes), a later one changes nothing |
| Promise.Runtime.NewPromise | my_promise.js:218-234 | a new MyPromise is pending while its executor runs; it ends with the fate of the executor's first call, or rejected with the thrown error if the executor threw before any call; in either case exactly one block is appended, already settled with that fate and with empty stacks, and no aggregate record, timer or adoption changes |
| Promise.Runtime.PromiseResolve | my_promise.js:237-244 | MyPromise.resolve(v) returns a pending MyPromise with one timer queued that will resolve it with `v` |
| Promise.Runtime.PromiseReject | my_promise.js:247-254 | MyPromise.reject(e) returns a pending MyPromise with one timer queued that will reject it with `e` |
| Promise.Runtime.RunTimer | my_promise.js:240-242 | the oldest timer fires and its MyPromise ends settled with the timer's fate; later timers stay queued in order |
| Promise.Runtime.Chain | my_promise.js:135-149 | a fresh node chained onto `p` is appended; if `p` has settled, the node is fed at once, otherwise only `p`'s feed stack gains it |
| Promise.Runtime.Then | my_promise.js:135-139 | `then(onValue, onError)` returns a fresh ThenBlock with those handlers chained onto the receiver; if the receiver has settled it is settled at once as SettledAsFed says, otherwise the receiver's feed stack gains it and nothing else changes |
| Promise.Runtime.Catch | my_promise.js:141-143 | `catch(h)` (h possibly null) is a ThenBlock with no value handler and `h` as error handler, with the frame of Then |
| Promise.Runtime.Finally | my_promise.js:145-149 | `finally(h)` returns a fresh FinallyBlock; if the receiver had settled it is already settled with FinallyFate, otherwise the receiver's feed stack gains it and nothing else changes |
| Aggregation.AggCell | my_promise.js:257 | the aggregate of `all` is a pending MyPromise whose only settler is the `all` executor |
| Aggregation.FreshAll | my_promise.js:258-260 | `errorOccurs = false`, `numUnResolved = promises.length`, `values = []` |
| Promise.Runtime.FillPlain | my_promise.js:264-270 | a plain item is written into its slot, the position marked filled and counted down; the aggregate resolves with `values` exactly when that was the last unresolved position and no error occurred |
| Promise.Runtime.ChainSlot | my_promise.js:271-282 | `prom.then(value continuation).catch(error continuation)`: a ThenBlock with the value continuation chained onto `prom` and one with the error continuation chained onto it; an item that has already settled feeds the first at once; otherwise exactly those two blocks are appended, `prom` and the first gain them on their feed stacks and only the slot record changes |
| Promise.Runtime.AllStep | my_promise.js:261-283 | one loop turn pushes `undefined` for the position and then fills it, or registers its two continuations; afterwards every plain item up to this position sits in `values` at its own position, and every MyPromise item up to it is Registered: a ThenBlock running the value continuation for its position is chained onto the item, and a ThenBlock running the error continuation of the call is chained onto that one |
| Promise.Runtime.PlainStep | my_promise.js:263-270 | the plain-item turn of the loop: the position is filled with the item |
| Promise.Runtime.All | my_promise.js:256-286 | `all(promises)` returns a fresh aggregate with one `values` position per item, each plain item at its own position and each MyPromise item Registered with its value and error continuations; with no item it stays pending and nothing else changes; with only plain items it is resolved with exactly those items |
| Promise.Runtime.AllExecutor | my_promise.js:261-284 | the loop of the executor runs one turn per item in order: afterwards each plain item sits at its own position of `values` and each MyPromise item is Registered; over no item nothing changes |
| Promise.Runtime.AllOrEmpty | my_promise.js:256-286 | corrected `all`: as All (each MyPromise item Registered, plain items resolved at once), but an empty input resolves the aggregate with `[]` |
| Aggregation.AppendAggKeepsInv | my_promise.js:256-260 | allocating the aggregate and its record keeps the invariant |
| Aggregation.PushValueKeepsInv | my_promise.js:262 | `values.push(undefined)` keeps the invariant while positions remain |
| Aggregation.PlainKeepsInv | my_promise.js:264-266 | writing a plain item into an unfilled slot keeps the invariant; its aggregate is still pending if no error occurred |
| Aggregation.AllReady | my_promise.js:267-269 | once `numUnResolved <= 0` and no error occurred, every position is filled and `resolve(values)` is a permitted call |
| Aggregation.ResolvedValues | my_promise.js:268 | a resolved aggregate holds the current `values` array |
| Promise.Runtime.SlotStep | my_promise.js:271-282 | the MyPromise-item turn of the loop: the position is Registered (value continuation chained onto the item, error continuation chained onto that), and the walk goes on |
| Aggregation.RegisteredKept | my_promise.js:272-282 | a registered position stays registered through any later step: blocks keep their subclass, chaining only adds links, and the position keeps its item and its value-continuation block |
| Aggregation.RegisteredBelowKept | my_promise.js:261-284 | every MyPromise item already passed by the loop stays registered through a later step |
| Aggregation.PushTurn | my_promise.js:262 | pushing `undefined` for the next position keeps the invariant, leaves the filled positions and registrations as they were, and whether the item is a MyPromise is as when the loop started |
| Aggregation.PushedOf | my_promise.js:262 | `values.push(undefined)` gives `values` one more position and leaves the filled positions and registrations alone |
| Aggregation.WalkedSlot | my_promise.js:271-282 | once the continuations of a MyPromise item are chained, the loop has passed its position with that position Registered |
| Aggregation.WalkedPlain | my_promise.js:263-270 | once a plain item is written, the loop has passed its position with the item in `values`; while only plain items have been seen nothing else changed, and the last of them resolves the aggregate with exactly the items |
| Aggregation.PlainPrefixNext | my_promise.js:265-269 | over plain items only, `values` is the prefix of the items seen so far, and the last item resolves the aggregate with all of them |
| Aggregation.WalkBegins | my_promise.js:256-260 | allocating the aggregate and its record keeps the invariant and quiescence and starts the loop before its first position |
| Aggregation.WalkedDone | my_promise.js:261-284 | after the loop every position has a value slot, each plain item is at its own position, each MyPromise item (judged in the heap `all` was called on) is Registered, and a call over plain items only has resolved its aggregate with them |
| Aggregation.PlainCopied | my_promise.js:264-265 | every plain item whose position has been filled sits in `values` at that position; whether an item is a MyPromise does not change |
| Preservation.WaitersSettled | my_promise.js:110-112 | once a settled block has emptied its settle stack, every block that waits on it has settled with its outcome |
| Preservation.AdoptsOf | my_promise.js:57-65 | a ThenBlock that waits on a block is on its settle stack while it is pending, and otherwise has that block's outcome |
| Preservation.SettleAwakeOf | my_promise.js:57-65 | in a heap whose settled blocks have emptied their stacks, no pending block waits on a settled one |
| Preservation.ValueKeepsInv | my_promise.js:272-275 | the value continuation's update of `values` and `numUnResolved` keeps the invariant |
| Preservation.ErrorKeepsInv | my_promise.js:279-282 | recording the error keeps the invariant |
| Allocation.QuiescentKept | my_promise.js:47-65 | after a settle/feed step from a quiescent heap, no settled block has a waiter left on either stack, no node waits on a settled parent, every waiting ThenBlock is on its target's settle stack or has its outcome, and no pending block waits on a settled one |
| Invariants.EvolvedProgressed | my_promise.js:99-102 | within a step blocks keep their subclass, never go back a state, and a settled block keeps its state and value |
| Properties.FedAfterParent | my_promise.js:47-55 | a node leaves WAIT_INPUT only after the block it was chained onto has settled |
| Properties.ThenPassesOn | my_promise.js:168-170 | a settled ThenBlock with no handler for its parent's outcome has exactly that outcome |
| Properties.ThenThrowRejects | my_promise.js:165-167 | a settled ThenBlock whose handler threw is rejected with the thrown value |
| Properties.ThenAdopts | my_promise.js:159-164 | a settled ThenBlock whose handler returned `v` has the outcome of the block it waited on; if `v` is a MyPromise, that block is `v` itself; if it is not, the block resolved with `v` |
| Properties.FinallyOutcome | my_promise.js:194-213 | a settled FinallyBlock has FinallyFate of its cleanup and its parent's outcome |
| Properties.TimerOutcome | my_promise.js:238-243 | a MyPromise made by MyPromise.resolve/reject settles only with the fate its timer carries |
| Properties.AllResolvedValues | my_promise.js:261-278 | an aggregate resolves only with no position left unresolved and no error recorded, and then holds one value per item in input order: the item itself, or the value the item MyPromise resolved to |
| Properties.RejectedItemReachesError | my_promise.js:272-282 | once a Registered item is rejected, its value-continuation block is rejected with the same error (it has no handler for an error), and the error-continuation block chained onto it has been fed |
| Properties.AllRejectedError | my_promise.js:279-282 | a rejected aggregate has `errorOccurs` set and carries the error of one of its items, a MyPromise rejected with it |
| Properties.EmptyAllOrphaned | my_promise.js:256-286 | an `all` call over no item has registered no continuation, so nothing can ever settle its aggregate |

## Left out

- `setTimeout` is a FIFO queue of timers, fired one at a time by `RunTimer`. Real delays,
  and host orders other than first-in first-out for equal delays, are not modelled.
- Debug output (`DEBUG`, `console.log`, `console.warn`) and the `_id` counter are not
  modelled. They do not affect behaviour; only the early return of each guard is kept.
- User closures are a fixed table `code` from a handler name and its arguments to "returns
  v" or "throws e". A closure's side effects on the heap (such as calling `then` from inside
  a handler) are not modelled. The closures of `MyPromise.all` are modelled concretely.
- A user executor is a script: the resolve/reject calls it makes while it runs, and whether
  it then throws (`NewPromise`). Calls it makes later, through resolve/reject it kept, are
  `ExecutorSettle`.
- Promise.Runtime.All: every item must be a plain value or a reference to an existing block
  (no dangling references).
- Promise.Runtime.All: `promises` is a sequence of items. A `promises` that is not iterable
  makes `promises.entries()` throw a TypeError (my_promise.js:261), which the executor's
  catch turns into a rejection of the aggregate (my_promise.js:231-232); that path is not
  modelled.
- Properties.RejectedItemReachesError: stops at "the error continuation has been fed". That feeding runs `SlotError`, whose own contract says the aggregate is then rejected with `errorOccurs` set; no heap invariant links a fed error-continuation block to the state of its aggregate, so the two are not joined in one lemma.
- Properties.ThenAdopts: a handler's result is a fixed function of the handler and its
  argument, so it may name a block allocated only after the handler returned. Such a result
  was a plain value when the handler returned, so it is wrapped, and the ThenBlock resolved
  with it, although it names a MyPromise now. In JavaScript a returned object always exists.
- Promise.Runtime.FillPlain: the aggregate is given the array as a value. The
  source passes the `values` array itself. The model proves that the resolved value always
  equals the current `values` (Aggregation.ResolvedValues), so no later write is visible.
- Promise.Runtime.FeedFinally: the value the cleanup returns is ignored, as in the source. It is not awaited, even when it is a
  MyPromise.
- The demo functions (`tst_main1` … `tst_main7`), the `print`/`Promise` globals and the call
  `tst_main7()` (my_promise.js:291-485) are not modelled. They are examples, not logic.
- Garbage collection, and global reporting of unhandled rejections (deliberately absent in
  the source) are not modelled.

## Findings

| source | as written | input that shows it | evidently intended | confidence | as-written member | corrected member |
|---|---|---|---|---|---|---|
| my_promise.js:256-286 | the completion check `numUnResolved <= 0 && !errorOccurs` runs only inside the loop body, so with no item `resolve` is never called and the aggregate stays pending for ever | `MyPromise.all([])` | resolve at once with `[]`, as the built-in `Promise.all` that the file sets out to mimic (my_promise.js:1-4) does | medium, not executed | Promise.Runtime.All, Properties.EmptyAllOrphaned | Promise.Runtime.AllOrEmpty |
