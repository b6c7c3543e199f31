/** The state of a program that uses MyPromise: every promise object ever created, the
  timer queue that `setTimeout` / `setImmediate` feed, the bookkeeping closures of the
  combinators, and the `called` flags captured by the root promise.ts resolution procedure.
 */
module Model {
  import opened Values

  /** `State.PENDING`, `State.FULFILLED`, `State.REJECTED`. */
  datatype State = Pending | Fulfilled | Rejected

  /** Which copy of the class is modelled.  `Canonical` is src/promise.ts together with its
      compiled form src/promise.js; `Legacy` is promise.ts at the repository root, whose
      constructor and resolution procedure differ. */
  datatype Revision = Canonical | Legacy

  /** The closures `then` can be handed, by what they do with their one argument.
      Each returns `undefined` unless stated otherwise. */
  datatype Handler =
      /** The default `onFulfilled`: returns its argument. */
    | Identity
      /** The default `onRejected`: throws its argument. */
    | Rethrow
      /** A user callback that returns `v`. */
    | Return(v: Value)
      /** A user callback that throws `e`. */
    | Throw(e: Value)
      /** `y => resolvePromise(promise2, y, resolve, reject)`, subscribed to a pending MyPromise. */
    | ResolveChild(target: nat)
      /** The `resolve` settlement function of promise `target` (`race`, `any`). */
    | Resolve(target: nat)
      /** The `reject` settlement function of promise `target`. */
    | Reject(target: nat)
      /** `all`: `count++; result[index] = value; if (count === promises.length) resolve(result)`. */
    | AllValue(agg: nat, index: nat)
      /** `allSettled`, fulfilled input: stores `{status: 'fulfilled', value}`. */
    | SettledValue(agg: nat, index: nat)
      /** `allSettled`, rejected input: stores `{status: 'rejected', reason}`. */
    | SettledReason(agg: nat, index: nat)
      /** `any`, rejected input: `count++; if (count === promises.length) reject(...)`. */
    | AnyReason(agg: nat)
      /** `finally`, fulfilled branch: `MyPromise.resolve(onfinally()).then(() => value)`. */
    | FinallyValue(onFinally: Callback)
      /** `finally`, rejected branch: `MyPromise.resolve(onfinally()).then(() => { throw reason })`. */
    | FinallyReason(onFinally: Callback)
      /** Legacy only: the `resolvePromise` (`fulfils`) or `rejectPromise` callback of the
          thenable branch, guarded by the `called` flag in cell `cell`. */
    | Guarded(cell: nat, target: nat, fulfils: bool)

  /** The wrapper `then` pushes while the parent is pending: run `handler` later and
      resolve promise `child` (the `promise2` of that `then`) with its outcome. */
  datatype Reaction = Reaction(handler: Handler, child: nat)

  /** A callback waiting in the timer queue. */
  datatype Task =
      /** The deferred body of `resolve` / `reject`: write state and result, then run the
          matching callback list. */
    | Commit(target: nat, outcome: State, value: Value)
      /** The deferred body of a `then` wrapper: call `handler` on the parent's current
          `PromiseResult` and resolve `child` with what it returns or throws. */
    | Handle(parent: nat, handler: Handler, child: nat)

  /** The fields of one MyPromise object. */
  datatype PromiseRecord = PromiseRecord(
    state: State,
    result: Value,
    onFulfilled: seq<Reaction>,
    onRejected: seq<Reaction>)

  /** The variables one call of `all`, `allSettled` or `any` keeps in its closures:
      the promise it returned, `promises.length`, `count` and the `result` array. */
  datatype Aggregate = Aggregate(target: nat, length: nat, count: nat, slots: seq<Value>)

  datatype World = World(
    revision: Revision,
    promises: seq<PromiseRecord>,
    queue: seq<Task>,
    aggregates: seq<Aggregate>,
    flags: seq<bool>)

  /** A world together with the promise an operation created or returned. */
  datatype Made = Made(world: World, id: nat)

  /** How a callback ended: it returned a value or threw one. */
  datatype Completion = Returned(value: Value) | Threw(value: Value)

  /** A world after running a handler, with the handler's completion. */
  datatype Ran = Ran(world: World, completion: Completion)

  /** The record the constructor starts with: pending, `null` result, no callbacks. */
  function Fresh(): (r: PromiseRecord)
    ensures r.state == Pending && r.result == Null && r.onFulfilled == [] && r.onRejected == []
  {
    PromiseRecord(Pending, Null, [], [])
  }

  function Empty(revision: Revision): (w: World)
    ensures w.promises == [] && w.queue == [] && w.revision == revision
  {
    World(revision, [], [], [], [])
  }

  // ----- Well-formedness: every reference points at something allocated -----

  predicate HandlerOk(h: Handler, np: nat, na: nat, nf: nat) {
    match h
    case Identity => true
    case Rethrow => true
    case Return(v) => ValueOk(v, np)
    case Throw(e) => ValueOk(e, np)
    case ResolveChild(t) => t < np
    case Resolve(t) => t < np
    case Reject(t) => t < np
    case AllValue(a, _) => a < na
    case SettledValue(a, _) => a < na
    case SettledReason(a, _) => a < na
    case AnyReason(a) => a < na
    case FinallyValue(cb) => CallbackOk(cb, np)
    case FinallyReason(cb) => CallbackOk(cb, np)
    case Guarded(c, t, _) => c < nf && t < np
  }

  predicate ReactionOk(r: Reaction, np: nat, na: nat, nf: nat) {
    HandlerOk(r.handler, np, na, nf) && r.child < np
  }

  predicate ReactionsOk(rs: seq<Reaction>, np: nat, na: nat, nf: nat) {
    forall i | 0 <= i < |rs| :: ReactionOk(rs[i], np, na, nf)
  }

  predicate RecordOk(p: PromiseRecord, np: nat, na: nat, nf: nat) {
    && ValueOk(p.result, np)
    && ReactionsOk(p.onFulfilled, np, na, nf)
    && ReactionsOk(p.onRejected, np, na, nf)
  }

  predicate TaskOk(t: Task, np: nat, na: nat, nf: nat) {
    match t
    case Commit(id, outcome, v) => id < np && outcome != Pending && ValueOk(v, np)
    case Handle(parent, h, child) => parent < np && child < np && HandlerOk(h, np, na, nf)
  }

  predicate AggregateOk(g: Aggregate, np: nat) {
    g.target < np && forall j | 0 <= j < |g.slots| :: ValueOk(g.slots[j], np)
  }

  predicate Wf(w: World) {
    var np, na, nf := |w.promises|, |w.aggregates|, |w.flags|;
    && (forall i | 0 <= i < np :: RecordOk(w.promises[i], np, na, nf))
    && (forall i | 0 <= i < |w.queue| :: TaskOk(w.queue[i], np, na, nf))
    && (forall i | 0 <= i < na :: AggregateOk(w.aggregates[i], np))
  }

  // ----- Growing the tables keeps references valid -----

  lemma HandlerOkGrows(h: Handler, np: nat, na: nat, nf: nat, np': nat, na': nat, nf': nat)
    requires HandlerOk(h, np, na, nf) && np <= np' && na <= na' && nf <= nf'
    ensures HandlerOk(h, np', na', nf')
  {
    match h
    case Return(v) => ValueOkGrows(v, np, np');
    case Throw(e) => ValueOkGrows(e, np, np');
    case FinallyValue(cb) => ValueOkGrows(cb.value, np, np');
    case FinallyReason(cb) => ValueOkGrows(cb.value, np, np');
    case _ =>
  }

  lemma ReactionsOkGrows(rs: seq<Reaction>, np: nat, na: nat, nf: nat, np': nat, na': nat, nf': nat)
    requires ReactionsOk(rs, np, na, nf) && np <= np' && na <= na' && nf <= nf'
    ensures ReactionsOk(rs, np', na', nf')
  {
    forall i | 0 <= i < |rs| ensures ReactionOk(rs[i], np', na', nf') {
      HandlerOkGrows(rs[i].handler, np, na, nf, np', na', nf');
    }
  }

  lemma RecordOkGrows(p: PromiseRecord, np: nat, na: nat, nf: nat, np': nat, na': nat, nf': nat)
    requires RecordOk(p, np, na, nf) && np <= np' && na <= na' && nf <= nf'
    ensures RecordOk(p, np', na', nf')
  {
    ValueOkGrows(p.result, np, np');
    ReactionsOkGrows(p.onFulfilled, np, na, nf, np', na', nf');
    ReactionsOkGrows(p.onRejected, np, na, nf, np', na', nf');
  }

  lemma TaskOkGrows(t: Task, np: nat, na: nat, nf: nat, np': nat, na': nat, nf': nat)
    requires TaskOk(t, np, na, nf) && np <= np' && na <= na' && nf <= nf'
    ensures TaskOk(t, np', na', nf')
  {
    match t
    case Commit(_, _, v) => ValueOkGrows(v, np, np');
    case Handle(_, h, _) => HandlerOkGrows(h, np, na, nf, np', na', nf');
  }

  lemma AggregateOkGrows(g: Aggregate, np: nat, np': nat)
    requires AggregateOk(g, np) && np <= np'
    ensures AggregateOk(g, np')
  {
    forall j | 0 <= j < |g.slots| ensures ValueOk(g.slots[j], np') {
      ValueOkGrows(g.slots[j], np, np');
    }
  }

  /** Appending a record, an aggregate or a flag keeps a world well formed, provided the
      new entries themselves refer only to allocated things. */
  lemma {:induction false} WfGrows(w: World, w': World)
    requires Wf(w)
    requires |w.promises| <= |w'.promises| && w'.promises[..|w.promises|] == w.promises
    requires |w.aggregates| <= |w'.aggregates| && w'.aggregates[..|w.aggregates|] == w.aggregates
    requires |w.flags| <= |w'.flags|
    requires w'.queue == w.queue
    requires forall i | |w.promises| <= i < |w'.promises| ::
      RecordOk(w'.promises[i], |w'.promises|, |w'.aggregates|, |w'.flags|)
    requires forall i | |w.aggregates| <= i < |w'.aggregates| ::
      AggregateOk(w'.aggregates[i], |w'.promises|)
    ensures Wf(w')
  {
    var np, na, nf := |w.promises|, |w.aggregates|, |w.flags|;
    var np', na', nf' := |w'.promises|, |w'.aggregates|, |w'.flags|;
    forall i | 0 <= i < np' ensures RecordOk(w'.promises[i], np', na', nf') {
      if i < np {
        assert w'.promises[i] == w.promises[i];
        RecordOkGrows(w.promises[i], np, na, nf, np', na', nf');
      }
    }
    forall i | 0 <= i < |w'.queue| ensures TaskOk(w'.queue[i], np', na', nf') {
      TaskOkGrows(w.queue[i], np, na, nf, np', na', nf');
    }
    forall i | 0 <= i < na' ensures AggregateOk(w'.aggregates[i], np') {
      if i < na {
        assert w'.aggregates[i] == w.aggregates[i];
        AggregateOkGrows(w.aggregates[i], np, np');
      }
    }
  }
}
