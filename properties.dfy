/** Properties of the MyPromise semantics that relate several operations or hold for every
  input: what a settle call schedules, the constructor's queue, what `then` does with a
  settled or a pending parent, the resolution procedure's decision table, and the
  combinators' bookkeeping.
 */
module Properties {
  import opened Values
  import opened Model
  import opened Semantics

  // ----- resolve / reject and the constructor -----

  /** The settle tasks that `calls`, all made while promise `id` is pending, queue. */
  function Commits(id: nat, calls: seq<Call>): (tasks: seq<Task>)
    ensures |tasks| == |calls|
  {
    seq(|calls|, i requires 0 <= i < |calls| => Commit(id, Outcome(calls[i]), calls[i].arg))
  }

  /** Because the state is only written by the deferred task, every call made in the same
      turn passes the pending check: each of them queues its own settle task, in call order,
      and none of them changes a state or a result. */
  lemma {:induction false} PendingCallsAllQueue(w: World, id: nat, calls: seq<Call>)
    requires Wf(w) && id < |w.promises| && w.promises[id].state == Pending
    requires forall i | 0 <= i < |calls| :: ValueOk(calls[i].arg, |w.promises|)
    ensures RunCalls(w, id, calls).queue == w.queue + Commits(id, calls)
    ensures RunCalls(w, id, calls).promises == w.promises
    decreases |calls|
  {
    if calls != [] {
      var n := |calls| - 1;
      PendingCallsAllQueue(w, id, calls[..n]);
      assert Commits(id, calls) == Commits(id, calls[..n]) + [Commit(id, Outcome(calls[n]), calls[n].arg)];
    }
  }

  /** Once a settle task of promise `id` has run, every later call of its `resolve` or
      `reject` schedules nothing and changes nothing. */
  lemma {:induction false} LateCallsAreNoOps(w: World, id: nat, calls: seq<Call>)
    requires Wf(w) && id < |w.promises| && w.promises[id].state != Pending
    requires forall i | 0 <= i < |calls| :: ValueOk(calls[i].arg, |w.promises|)
    ensures RunCalls(w, id, calls) == w
    decreases |calls|
  {
    if calls != [] {
      LateCallsAreNoOps(w, id, calls[..|calls| - 1]);
    }
  }

  /** The settle task the constructor's `catch` queues, if any: the thrown value itself in
      src/promise.ts and src/promise.js; in the root promise.ts the `message` of a thrown
      `Error`, and nothing for any other thrown value. */
  function Caught(revision: Revision, id: nat, throws: Option<Value>): seq<Task> {
    match throws
    case None => []
    case Some(e) =>
      match revision
      case Canonical => [Commit(id, Rejected, e)]
      case Legacy => if e.Error? then [Commit(id, Rejected, Str(e.message))] else []
  }

  /** `new MyPromise(executor)` returns a fresh pending promise with empty callback lists;
      the executor's calls and its caught throw each queue a settle task, in order; no other
      promise is touched. */
  lemma ConstructQueues(w: World, executor: Script)
    requires Wf(w) && ScriptOk(executor, |w.promises|)
    ensures var m := Construct(w, executor);
      && m.world.promises == w.promises + [PromiseRecord(Pending, Null, [], [])]
      && m.world.queue == w.queue + Commits(m.id, executor.calls)
                          + Caught(w.revision, m.id, executor.throws)
  {
    var id := |w.promises|;
    var w1 := w.(promises := w.promises + [Fresh()]);
    WfGrows(w, w1);
    ValueOkGrows(Thenable(executor), id, id + 1);
    assert forall i | 0 <= i < |executor.calls| :: ValueOk(executor.calls[i].arg, id + 1);
    PendingCallsAllQueue(w1, id, executor.calls);
  }

  /** The settle task: the promise takes the task's state and result, its callback lists are
      kept, every other promise is unchanged, and the wrappers of the matching list are
      queued behind the waiting tasks in push order. */
  lemma CommitStep(w: World)
    requires Wf(w) && w.queue != [] && w.queue[0].Commit?
    ensures var t, r := w.queue[0], Step(w); var p := w.promises[t.target];
      && |r.promises| == |w.promises| && r.aggregates == w.aggregates && r.flags == w.flags
      && r.promises[t.target] == p.(state := t.outcome, result := t.value)
      && (forall i | 0 <= i < |w.promises| && i != t.target :: r.promises[i] == w.promises[i])
      && r.queue == w.queue[1..] + Drain(t.target, if t.outcome == Fulfilled then p.onFulfilled else p.onRejected)
  {
    assert TaskOk(w.queue[0], |w.promises|, |w.aggregates|, |w.flags|);
  }

  /** Replacing the element at position `|s|` of `s + [a] + t`. */
  lemma UpdateAt<T>(s: seq<T>, a: T, b: T, t: seq<T>)
    ensures (s + [a] + t)[|s| := b] == s + [b] + t
  {
  }

  // ----- then -----

  /** `then` on a settled parent schedules exactly one task, for the handler matching the
      parent's state, and adds the pending child; on a pending parent it queues nothing and
      appends exactly one reaction to each list.  Either way no state or result changes,
      so no handler has run. */
  lemma ThenSchedulesOrSubscribes(w: World, parent: nat, hf: Handler, hr: Handler)
    requires Wf(w) && parent < |w.promises| && ChildHandler(w, hf) && ChildHandler(w, hr)
    ensures var m, p, n := ThenWith(w, parent, hf, hr), w.promises[parent], |w.promises|;
      && m.id == n && m.world.aggregates == w.aggregates && m.world.flags == w.flags
      && (p.state == Fulfilled ==>
            m.world.promises == w.promises + [Fresh()]
            && m.world.queue == w.queue + [Handle(parent, hf, n)])
      && (p.state == Rejected ==>
            m.world.promises == w.promises + [Fresh()]
            && m.world.queue == w.queue + [Handle(parent, hr, n)])
      && (p.state == Pending ==>
            m.world.queue == w.queue
            && m.world.promises == (w.promises + [Fresh()])[parent := p.(
                 onFulfilled := p.onFulfilled + [Reaction(hf, n)],
                 onRejected := p.onRejected + [Reaction(hr, n)])])
  {
  }

  /** `then` with user callbacks: the handlers it subscribes or schedules are the
      normalised callbacks. */
  lemma ThenNormalises(w: World, parent: nat, onFulfilled: Callback, onRejected: Callback)
    requires Wf(w) && parent < |w.promises|
    requires CallbackOk(onFulfilled, |w.promises| + 1) && CallbackOk(onRejected, |w.promises| + 1)
    ensures var m, p, n := Then(w, parent, onFulfilled, onRejected), w.promises[parent], |w.promises|;
      && (p.state == Fulfilled ==> m.world.queue == w.queue + [Handle(parent, OnFulfilled(onFulfilled), n)])
      && (p.state == Rejected ==> m.world.queue == w.queue + [Handle(parent, OnRejected(onRejected), n)])
      && (p.state == Pending ==>
            m.world.promises[parent].onFulfilled == p.onFulfilled + [Reaction(OnFulfilled(onFulfilled), n)]
            && m.world.promises[parent].onRejected == p.onRejected + [Reaction(OnRejected(onRejected), n)])
  {
    ThenSchedulesOrSubscribes(w, parent, OnFulfilled(onFulfilled), OnRejected(onRejected));
  }

  /** A callback that is not a function is replaced by the identity on the fulfilled side
      and by a rethrow on the rejected side; a function is kept. */
  lemma DefaultHandlers(cb: Callback, arg: Value, w: World)
    requires Wf(w) && CallbackOk(cb, |w.promises|) && ValueOk(arg, |w.promises|)
    ensures cb.NotCallable? ==> RunHandler(w, OnFulfilled(cb), arg) == Ran(w, Returned(arg))
    ensures cb.NotCallable? ==> RunHandler(w, OnRejected(cb), arg) == Ran(w, Threw(arg))
    ensures cb.Returns? ==> RunHandler(w, OnFulfilled(cb), arg) == Ran(w, Returned(cb.value))
    ensures cb.Returns? ==> RunHandler(w, OnRejected(cb), arg) == Ran(w, Returned(cb.value))
    ensures cb.Throws? ==> RunHandler(w, OnFulfilled(cb), arg) == Ran(w, Threw(cb.value))
    ensures cb.Throws? ==> RunHandler(w, OnRejected(cb), arg) == Ran(w, Threw(cb.value))
  {
  }

  /** The handler task: a handler that throws `e` queues the rejection of the child with
      `e`, whatever the parent's result; one that returns `x` hands `x` to the resolution
      procedure. */
  lemma HandleStep(w: World, parent: nat, h: Handler, child: nat)
    requires Wf(w) && parent < |w.promises| && child < |w.promises| && HandlerIn(w, h)
    requires h.Throw? ==> w.promises[child].state == Pending
    ensures h.Throw? ==> RunHandle(w, parent, h, child).queue == w.queue + [Commit(child, Rejected, h.e)]
    ensures h.Return? ==> RunHandle(w, parent, h, child) == Resolution(w, child, h.v)
  {
  }

  // ----- the resolution procedure -----

  /** Resolving a promise with itself queues its rejection with the cycle `TypeError`. */
  lemma ResolveSelf(w: World, child: nat)
    requires Wf(w) && child < |w.promises| && w.promises[child].state == Pending
    ensures var r := Resolution(w, child, Promise(child));
      r.promises == w.promises && r.queue == w.queue + [Commit(child, Rejected, CycleError)]
      && CycleError == Error(TypeError, "Chaining cycle detected for promise")
  {
  }

  /** A settled MyPromise `x` other than the child: the child takes `x`'s state and result.
      In src/promise.ts and src/promise.js that is all; the root promise.ts then also runs
      the thenable branch, which queues a guarded handler task on `x` as well. */
  lemma ResolveSettledPromise(w: World, child: nat, id: nat)
    requires Wf(w) && child < |w.promises| && id < |w.promises| && id != child
    requires w.promises[child].state == Pending && w.promises[id].state != Pending
    ensures var r, x, n := Resolution(w, child, Promise(id)), w.promises[id], |w.promises|;
      var copy := Commit(child, x.state, x.result);
      && (w.revision == Canonical ==> r.promises == w.promises && r.queue == w.queue + [copy])
      && (w.revision == Legacy ==>
            r.queue == w.queue + [copy, Handle(id, Guarded(|w.flags|, child, x.state == Fulfilled), n)]
            && r.flags == w.flags + [false])
  {
    if w.revision == Legacy {
      var w1 := Adopt(w, child, id);
      assert w1.queue == w.queue + [Commit(child, w.promises[id].state, w.promises[id].result)];
      assert w1.promises[id].state == w.promises[id].state;
    }
  }

  /** A pending MyPromise `x` other than the child: one reaction on each of `x`'s lists,
      which re-runs the resolution on `x`'s value or rejects the child with `x`'s reason.
      The root promise.ts subscribes a second, guarded pair to the same lists. */
  lemma ResolvePendingPromise(w: World, child: nat, id: nat)
    requires Wf(w) && child < |w.promises| && id < |w.promises| && id != child
    requires w.promises[id].state == Pending
    ensures var r, x, n, cell := Resolution(w, child, Promise(id)), w.promises[id], |w.promises|, |w.flags|;
      && r.queue == w.queue
      && (w.revision == Canonical ==>
            && r.promises[id].onFulfilled == x.onFulfilled + [Reaction(ResolveChild(child), n)]
            && r.promises[id].onRejected == x.onRejected + [Reaction(Reject(child), n)])
      && (w.revision == Legacy ==>
            && r.promises[id].onFulfilled == x.onFulfilled
                 + [Reaction(ResolveChild(child), n), Reaction(Guarded(cell, child, true), n + 1)]
            && r.promises[id].onRejected == x.onRejected
                 + [Reaction(Reject(child), n), Reaction(Guarded(cell, child, false), n + 1)]
            && r.flags == w.flags + [false])
  {
    if w.revision == Legacy {
      var w1 := Adopt(w, child, id);
      assert w1.promises[id].onFulfilled == w.promises[id].onFulfilled + [Reaction(ResolveChild(child), |w.promises|)];
      assert w1.promises[id].state == Pending;
    }
  }

  /** An object whose `then` getter throws `e` rejects the child with `e`. */
  lemma ResolveThrowingGetter(w: World, child: nat, e: Value)
    requires Wf(w) && child < |w.promises| && ValueOk(e, |w.promises|)
    requires w.promises[child].state == Pending
    ensures Resolution(w, child, ThrowingGetter(e)).queue == w.queue + [Commit(child, Rejected, e)]
  {
  }

  /** A callable `then`: only its first effective act counts.  Two scripts with the same
      first call resolve the child identically, whatever else they call or throw; a script
      that calls nothing and throws rejects with the thrown value; one that calls nothing
      and returns leaves the child pending. */
  lemma ThenableFirstCallWins(w: World, child: nat, s: Script, t: Script)
    requires Wf(w) && child < |w.promises| && ScriptOk(s, |w.promises|) && ScriptOk(t, |w.promises|)
    requires s.calls != [] && t.calls != [] && s.calls[0] == t.calls[0]
    ensures Resolution(w, child, Thenable(s)) == Resolution(w, child, Thenable(t))
  {
    assert s.calls[0] in s.calls;
  }

  lemma ThenableWithoutCalls(w: World, child: nat, s: Script)
    requires Wf(w) && child < |w.promises| && ScriptOk(s, |w.promises|) && s.calls == []
    requires w.promises[child].state == Pending
    ensures var r := Resolution(w, child, Thenable(s));
      && (s.throws.Some? ==> r.queue == w.queue + [Commit(child, Rejected, s.throws.value)])
      && (s.throws.None? ==> r == w)
  {
  }

  /** A thenable whose first call is `rejectPromise(e)` rejects the child with `e`; one whose
      first call is `resolvePromise(y)` resolves the child with `y`, recursively. */
  lemma ThenableFirstCall(w: World, child: nat, s: Script)
    requires Wf(w) && child < |w.promises| && ScriptOk(s, |w.promises|) && s.calls != []
    requires w.promises[child].state == Pending
    ensures s.calls[0].CallReject? ==>
      Resolution(w, child, Thenable(s)).queue == w.queue + [Commit(child, Rejected, s.calls[0].arg)]
    ensures s.calls[0].CallResolve? && Inert(s.calls[0].arg) ==>
      Resolution(w, child, Thenable(s)).queue == w.queue + [Commit(child, Fulfilled, s.calls[0].arg)]
  {
    assert s.calls[0] in s.calls;
  }

  /** A primitive, `null`, or an object without a callable `then` fulfils the child with the
      value itself. */
  lemma ResolveInert(w: World, child: nat, x: Value)
    requires Wf(w) && child < |w.promises| && ValueOk(x, |w.promises|) && Inert(x)
    requires w.promises[child].state == Pending
    ensures var r := Resolution(w, child, x);
      r.promises == w.promises && r.queue == w.queue + [Commit(child, Fulfilled, x)]
  {
  }

  // ----- static resolve / reject, catch, finally -----

  /** `MyPromise.resolve(v)` returns a MyPromise unchanged; any other value, thenables
      included, becomes the result of a new promise as it is, without adoption. */
  lemma StaticResolveDoesNotAdopt(w: World, v: Value)
    requires Wf(w) && ValueOk(v, |w.promises|)
    ensures v.Promise? ==> StaticResolve(w, v) == Made(w, v.id)
    ensures !v.Promise? ==>
      var m := StaticResolve(w, v);
      && m.id == |w.promises| && m.world.promises == w.promises + [Fresh()]
      && m.world.queue == w.queue + [Commit(m.id, Fulfilled, v)]
  {
    if !v.Promise? {
      ConstructQueues(w, Script([CallResolve(v)], None));
      assert Commits(|w.promises|, [CallResolve(v)]) == [Commit(|w.promises|, Fulfilled, v)];
    }
  }

  /** `MyPromise.reject(r)` is a new promise whose rejection with `r` is queued. */
  lemma StaticRejectQueues(w: World, reason: Value)
    requires Wf(w) && ValueOk(reason, |w.promises|)
    ensures var m := StaticReject(w, reason);
      && m.world.promises == w.promises + [Fresh()]
      && m.world.queue == w.queue + [Commit(m.id, Rejected, reason)]
  {
    ConstructQueues(w, Script([CallReject(reason)], None));
    assert Commits(|w.promises|, [CallReject(reason)]) == [Commit(|w.promises|, Rejected, reason)];
  }

  /** `p.catch(f)` is `p.then(null, f)`: identity on the fulfilled side. */
  lemma CatchIsThen(w: World, parent: nat, onRejected: Callback, v: Value)
    requires Wf(w) && parent < |w.promises| && CallbackOk(onRejected, |w.promises| + 1)
    requires ValueOk(v, |w.promises| + 1)
    ensures Catch(w, parent, onRejected) == ThenWith(w, parent, Identity, OnRejected(onRejected))
    ensures Catch(w, parent, onRejected) == Then(w, parent, NotCallable(v), onRejected)
  {
  }

  /** The handlers `finally` registers: when `onfinally` throws, the child is rejected with
      that; otherwise the callback's value goes through `MyPromise.resolve` and the handler
      returns a promise that, once that settles, replays the parent's value or reason. */
  lemma FinallyHandlers(w: World, cb: Callback, arg: Value)
    requires Wf(w) && CallbackOk(cb, |w.promises|) && ValueOk(arg, |w.promises|)
    ensures cb.Throws? ==> RunHandler(w, FinallyValue(cb), arg) == Ran(w, Threw(cb.value))
    ensures cb.Throws? ==> RunHandler(w, FinallyReason(cb), arg) == Ran(w, Threw(cb.value))
    ensures !cb.Throws? && !cb.value.Promise? ==>
      var r, n := RunHandler(w, FinallyValue(cb), arg), |w.promises|;
      && r.completion == Returned(Promise(n + 1))
      && r.world.promises == w.promises
           + [PromiseRecord(Pending, Null, [Reaction(Return(arg), n + 1)], [Reaction(Rethrow, n + 1)]), Fresh()]
      && r.world.queue == w.queue + [Commit(n, Fulfilled, cb.value)]
    ensures !cb.Throws? && !cb.value.Promise? ==>
      var r, n := RunHandler(w, FinallyReason(cb), arg), |w.promises|;
      && r.completion == Returned(Promise(n + 1))
      && r.world.promises == w.promises
           + [PromiseRecord(Pending, Null, [Reaction(Throw(arg), n + 1)], [Reaction(Rethrow, n + 1)]), Fresh()]
      && r.world.queue == w.queue + [Commit(n, Fulfilled, cb.value)]
  {
    if !cb.Throws? && !cb.value.Promise? {
      ValueOkGrows(arg, |w.promises|, |w.promises| + 2);
      FinallyChain(w, cb.value, Return(arg));
      FinallyChain(w, cb.value, Throw(arg));
    }
  }

  /** The handlers `finally` registers when `onfinally` returns a MyPromise `q`:
      `MyPromise.resolve(q)` is `q` itself, so the handler returns the child of
      `q.then(() => value)` (or `() => { throw reason }`).  A rejected `q` queues the
      rethrow of its reason, so the parent's outcome is replaced by `q`'s rejection. */
  lemma FinallyPromiseResult(w: World, cb: Callback, arg: Value)
    requires Wf(w) && CallbackOk(cb, |w.promises|) && ValueOk(arg, |w.promises|)
    requires !cb.Throws? && cb.value.Promise?
    ensures var n, q := |w.promises|, cb.value.id;
      var rv, rr := RunHandler(w, FinallyValue(cb), arg), RunHandler(w, FinallyReason(cb), arg);
      && rv.completion == Returned(Promise(n)) && rr.completion == Returned(Promise(n))
      && (w.promises[q].state == Rejected ==>
            && rv.world.queue == w.queue + [Handle(q, Rethrow, n)]
            && rr.world.queue == w.queue + [Handle(q, Rethrow, n)])
      && (w.promises[q].state == Fulfilled ==>
            && rv.world.queue == w.queue + [Handle(q, Return(arg), n)]
            && rr.world.queue == w.queue + [Handle(q, Throw(arg), n)])
      && (w.promises[q].state == Pending ==> rv.world.queue == w.queue && rr.world.queue == w.queue)
  {
    FinallyOnPromise(w, cb, arg, FinallyValue(cb), Return(arg));
    FinallyOnPromise(w, cb, arg, FinallyReason(cb), Throw(arg));
  }

  /** One `finally` handler `f` on a MyPromise result `q`: it runs `q.then(h, Rethrow)`,
      whose child takes the next index. */
  lemma FinallyOnPromise(w: World, cb: Callback, arg: Value, f: Handler, h: Handler)
    requires Wf(w) && CallbackOk(cb, |w.promises|) && ValueOk(arg, |w.promises|)
    requires !cb.Throws? && cb.value.Promise?
    requires (f == FinallyValue(cb) && h == Return(arg)) || (f == FinallyReason(cb) && h == Throw(arg))
    ensures var n, q := |w.promises|, cb.value.id;
      var r := RunHandler(w, f, arg);
      && r.completion == Returned(Promise(n))
      && (w.promises[q].state == Rejected ==> r.world.queue == w.queue + [Handle(q, Rethrow, n)])
      && (w.promises[q].state == Fulfilled ==> r.world.queue == w.queue + [Handle(q, h, n)])
      && (w.promises[q].state == Pending ==> r.world.queue == w.queue)
  {
    ValueOkGrows(arg, |w.promises|, |w.promises| + 1);
    ThenSchedulesOrSubscribes(w, cb.value.id, h, Rethrow);
  }

  /** `MyPromise.resolve(v).then(h)` for a `v` that is not a MyPromise: a fresh promise
      whose fulfilment with `v` is queued, and the `then` child subscribed to it. */
  lemma FinallyChain(w: World, v: Value, h: Handler)
    requires Wf(w) && ValueOk(v, |w.promises|) && !v.Promise?
    requires h.Return? || h.Throw?
    requires HandlerOk(h, |w.promises| + 2, |w.aggregates|, |w.flags|)
    ensures var q := StaticResolve(w, v); var n := |w.promises|;
      var m := ThenWith(q.world, q.id, h, Rethrow);
      && q.id == n && m.id == n + 1
      && m.world.promises == w.promises + [PromiseRecord(Pending, Null, [Reaction(h, n + 1)], [Reaction(Rethrow, n + 1)]), Fresh()]
      && m.world.queue == w.queue + [Commit(n, Fulfilled, v)]
  {
    StaticResolveDoesNotAdopt(w, v);
    var q := StaticResolve(w, v);
    var n := |w.promises|;
    assert q.world.promises[q.id] == Fresh();
    ThenSchedulesOrSubscribes(q.world, n, h, Rethrow);
    UpdateAt(w.promises, Fresh(), PromiseRecord(Pending, Null, [Reaction(h, n + 1)], [Reaction(Rethrow, n + 1)]), [Fresh()]);
    var p := q.world.promises[n];
    assert p.(onFulfilled := p.onFulfilled + [Reaction(h, n + 1)],
              onRejected := p.onRejected + [Reaction(Rethrow, n + 1)])
      == PromiseRecord(Pending, Null, [Reaction(h, n + 1)], [Reaction(Rethrow, n + 1)]);
  }

  // ----- the combinators -----

  /** Empty input: `all` and `allSettled` fulfil with the input array, `any` rejects with
      the aggregate error, and `race` queues and subscribes nothing. */
  lemma EmptyInput(w: World)
    requires Wf(w)
    ensures var n, e := |w.promises|, List([]);
      && All(w, e).world.queue == w.queue + [Commit(n, Fulfilled, e)]
      && AllSettled(w, e).world.queue == w.queue + [Commit(n, Fulfilled, e)]
      && Any(w, e).world.queue == w.queue + [Commit(n, Rejected, AllRejectedError)]
      && Race(w, e).world.queue == w.queue
      && Race(w, e).world.promises == w.promises + [Fresh()]
  {
  }

  /** After `race([])` nothing that exists refers to the new promise: no task and no
      reaction can ever settle it. */
  lemma RaceEmptyUnreachable(w: World)
    requires Wf(w)
    ensures var r, n := Race(w, List([])).world, |w.promises|;
      && (forall i | 0 <= i < |r.queue| :: TaskOk(r.queue[i], n, |r.aggregates|, |r.flags|))
      && (forall i | 0 <= i < n :: RecordOk(r.promises[i], n, |r.aggregates|, |r.flags|))
      && (forall i | 0 <= i < |r.aggregates| :: r.aggregates[i].target < n)
  {
  }

  /** An argument that is not an array rejects with the "not iterable" `TypeError`, in all
      four combinators. */
  lemma NotIterable(w: World, input: Value)
    requires Wf(w) && ValueOk(input, |w.promises|) && !input.List?
    ensures var n, t := |w.promises|, [Commit(|w.promises|, Rejected, NotIterableError)];
      && All(w, input).world.queue == w.queue + t
      && Race(w, input).world.queue == w.queue + t
      && AllSettled(w, input).world.queue == w.queue + t
      && Any(w, input).world.queue == w.queue + t
      && NotIterableError.kind == TypeError
  {
  }

  /** The pending promise `MyPromise.resolve(item)` creates for a non-MyPromise input
      `index`, once `then(OnValue, OnReason)` has subscribed to it. */
  function Feeder(k: Combinator, index: nat, child: nat): PromiseRecord {
    PromiseRecord(Pending, Null, [Reaction(OnValue(k, index), child)], [Reaction(OnReason(k, index), child)])
  }

  /** One non-MyPromise input: a new promise fulfilled, by a queued task, with the item
      itself, and the combinator's handler pair on it. */
  lemma SubscribeOnePlain(w: World, item: Value, index: nat, k: Combinator)
    requires Wf(w) && CombinatorIn(w, k) && ValueOk(item, |w.promises|) && !item.Promise?
    ensures var r, n := SubscribeOne(w, item, index, k), |w.promises|;
      && r.promises == w.promises + [Feeder(k, index, n + 1), Fresh()]
      && r.queue == w.queue + [Commit(n, Fulfilled, item)]
      && r.aggregates == w.aggregates
  {
    StaticResolveDoesNotAdopt(w, item);
    var n := |w.promises|;
    var q := StaticResolve(w, item);
    ThenSchedulesOrSubscribes(q.world, n, OnValue(k, index), OnReason(k, index));
    UpdateAt(w.promises, Fresh(), Feeder(k, index, n + 1), [Fresh()]);
    var p := q.world.promises[n];
    assert p == Fresh();
    assert p.(onFulfilled := p.onFulfilled + [Reaction(OnValue(k, index), n + 1)],
              onRejected := p.onRejected + [Reaction(OnReason(k, index), n + 1)]) == Feeder(k, index, n + 1);
    var m := ThenWith(q.world, n, OnValue(k, index), OnReason(k, index));
    assert m.world.promises == (q.world.promises + [Fresh()])[n := Feeder(k, index, n + 1)];
    assert SubscribeOne(w, item, index, k) == m.world;
  }

  /** One MyPromise input: `MyPromise.resolve(item)` is `item` itself, so the combinator's
      handler pair goes straight onto `item` and the only new promise is the `then` child. */
  lemma SubscribeOnePromise(w: World, item: Value, index: nat, k: Combinator)
    requires Wf(w) && CombinatorIn(w, k) && ValueOk(item, |w.promises|) && item.Promise?
    ensures var r := SubscribeOne(w, item, index, k);
      && r == ThenWith(w, item.id, OnValue(k, index), OnReason(k, index)).world
      && |r.promises| == |w.promises| + 1
  {
    StaticResolveDoesNotAdopt(w, item);
  }

  /** The promises the `forEach` of a combinator allocates for `count` non-MyPromise
      inputs from position `base` on: a feeder and its `then` child per input. */
  function FeederTable(k: Combinator, count: nat, base: nat): (t: seq<PromiseRecord>)
    ensures |t| == 2 * count
    decreases count
  {
    if count == 0 then []
    else FeederTable(k, count - 1, base) + [Feeder(k, count - 1, base + 2 * count - 1), Fresh()]
  }

  /** The settle tasks queued for those inputs: input `i` fulfils feeder `base + 2 * i`. */
  function FeedTasks(items: seq<Value>, base: nat): (t: seq<Task>)
    ensures |t| == |items|
  {
    seq(|items|, i requires 0 <= i < |items| => Commit(base + 2 * i, Fulfilled, items[i]))
  }

  /** Subscribing to inputs none of which is a MyPromise: every input, thenables included,
      gets its own feeder fulfilled with the input as it is (by a task queued in input
      order), with the handler pair for its index; nothing else changes. */
  lemma {:induction false} SubscribeEachPlain(w: World, items: seq<Value>, k: Combinator)
    requires Wf(w) && CombinatorIn(w, k)
    requires forall i | 0 <= i < |items| :: ValueOk(items[i], |w.promises|) && !items[i].Promise?
    ensures var r, n := SubscribeEach(w, items, k), |w.promises|;
      && r.promises == w.promises + FeederTable(k, |items|, n)
      && r.queue == w.queue + FeedTasks(items, n)
      && r.aggregates == w.aggregates
    decreases |items|
  {
    if items != [] {
      var m := |items| - 1;
      var n := |w.promises|;
      var w1 := SubscribeEach(w, items[..m], k);
      assert forall i | 0 <= i < m :: items[..m][i] == items[i];
      SubscribeEachPlain(w, items[..m], k);
      SubscribeEachSnoc(w, items, k);
      assert |w1.promises| == n + 2 * m;
      ValueOkGrows(items[m], n, n + 2 * m);
      SubscribeOnePlain(w1, items[m], m, k);
      FeedTasksSnoc(items, n);
      SubscribeEachStep(w.promises, w.queue, w1, SubscribeOne(w1, items[m], m, k), items, k, n);
    }
  }

  /** The bookkeeping of one induction step of `SubscribeEachPlain`, on plain sequences. */
  lemma SubscribeEachStep(ps: seq<PromiseRecord>, qs: seq<Task>, w1: World, r: World,
                          items: seq<Value>, k: Combinator, n: nat)
    requires items != [] && |ps| == n
    requires w1.promises == ps + FeederTable(k, |items| - 1, n)
    requires w1.queue == qs + FeedTasks(items[..|items| - 1], n)
    requires r.promises == w1.promises + [Feeder(k, |items| - 1, |w1.promises| + 1), Fresh()]
    requires r.queue == w1.queue + [Commit(|w1.promises|, Fulfilled, items[|items| - 1])]
    ensures r.promises == ps + FeederTable(k, |items|, n)
    ensures r.queue == qs + FeedTasks(items, n)
  {
    FeedTasksSnoc(items, n);
  }

  /** One more input is one more `SubscribeOne` after the others. */
  lemma SubscribeEachSnoc(w: World, items: seq<Value>, k: Combinator)
    requires Wf(w) && CombinatorIn(w, k) && items != []
    requires forall i | 0 <= i < |items| :: ValueOk(items[i], |w.promises|)
    ensures var m := |items| - 1; var w1 := SubscribeEach(w, items[..m], k);
      ValueOk(items[m], |w1.promises|) && SubscribeEach(w, items, k) == SubscribeOne(w1, items[m], m, k)
  {
    var m := |items| - 1;
    var w1 := SubscribeEach(w, items[..m], k);
    ValueOkGrows(items[m], |w.promises|, |w1.promises|);
  }

  lemma FeedTasksSnoc(items: seq<Value>, base: nat)
    requires items != []
    ensures var m := |items| - 1;
      FeedTasks(items, base) == FeedTasks(items[..m], base) + [Commit(base + 2 * m, Fulfilled, items[m])]
  {
  }

  /** `all`'s fulfilled handler stores the value at its input index (growing the array with
      holes if needed), bumps the counter, and fulfils the combined promise with the whole
      array exactly when the counter reaches the input length. */
  lemma AllValueStep(w: World, a: nat, index: nat, v: Value)
    requires Wf(w) && a < |w.aggregates| && ValueOk(v, |w.promises|)
    requires w.promises[w.aggregates[a].target].state == Pending
    ensures var r, g := RunHandler(w, AllValue(a, index), v), w.aggregates[a];
      var slots := StoreAt(g.slots, index, v);
      && r.completion == Returned(Undefined)
      && r.world.aggregates[a] == g.(count := g.count + 1, slots := slots)
      && r.world.promises == w.promises
      && (g.count + 1 == g.length ==> r.world.queue == w.queue + [Commit(g.target, Fulfilled, List(slots))])
      && (g.count + 1 != g.length ==> r.world.queue == w.queue)
  {
  }

  /** The `onRejected` of `all` and `race` is the combined promise's `reject`: one rejected
      input rejects the result with that reason. */
  lemma AllReasonRejects(w: World, k: Combinator, index: nat, e: Value)
    requires Wf(w) && CombinatorIn(w, k) && (k.AllOf? || k.RaceOf?) && ValueOk(e, |w.promises|)
    requires w.promises[k.target].state == Pending
    ensures var r := RunHandler(w, OnReason(k, index), e);
      r.world.promises == w.promises && r.world.queue == w.queue + [Commit(k.target, Rejected, e)]
  {
  }

  /** The handlers of `allSettled` store a `{status, value|reason}` record at the input
      index, bump the count, and queue the fulfilment with the whole records array exactly
      when the count reaches the input length. */
  lemma AllSettledStep(w: World, a: nat, index: nat, v: Value, fulfilled: bool)
    requires Wf(w) && a < |w.aggregates| && ValueOk(v, |w.promises|)
    requires w.promises[w.aggregates[a].target].state == Pending
    ensures var h := if fulfilled then SettledValue(a, index) else SettledReason(a, index);
      var r, g := RunHandler(w, h, v), w.aggregates[a];
      var slots := StoreAt(g.slots, index, SettledRecord(fulfilled, v));
      && r.completion == Returned(Undefined)
      && r.world.aggregates[a] == g.(count := g.count + 1, slots := slots)
      && r.world.promises == w.promises
      && (g.count + 1 == g.length ==> r.world.queue == w.queue + [Commit(g.target, Fulfilled, List(slots))])
      && (g.count + 1 != g.length ==> r.world.queue == w.queue)
  {
  }

  /** `any`: a fulfilled input fulfils the combined promise with its value; a rejected one
      bumps the counter and, when it reaches the input length, rejects with the aggregate
      error. */
  lemma AnyStep(w: World, p: nat, a: nat, index: nat, v: Value)
    requires Wf(w) && p < |w.promises| && a < |w.aggregates| && ValueOk(v, |w.promises|)
    requires w.aggregates[a].target == p && w.promises[p].state == Pending
    ensures RunHandler(w, OnValue(AnyOf(p, a), index), v).world.queue == w.queue + [Commit(p, Fulfilled, v)]
    ensures var r, g := RunHandler(w, OnReason(AnyOf(p, a), index), v), w.aggregates[a];
      && r.world.aggregates[a] == g.(count := g.count + 1)
      && (g.count + 1 == g.length ==> r.world.queue == w.queue + [Commit(p, Rejected, AllRejectedError)])
      && (g.count + 1 != g.length ==> r.world.queue == w.queue)
  {
    var w1 := Bump(w, a);
    assert w1.aggregates[a] == w.aggregates[a].(count := w.aggregates[a].count + 1);
    assert w1.promises == w.promises && w1.queue == w.queue;
  }
}
