/** The promise objects and the timer queue as mutable state.  Every field of every
  MyPromise lives in the `promises` table, which the methods below rewrite in place the way
  the source rewrites `PromiseState`, `PromiseResult` and the two callback arrays; the
  `setTimeout` / `setImmediate` queue is `queue`.  Each method is proved to have the effect
  the matching function of module Semantics describes.
 */
module EventLoop {
  import opened Values
  import opened Model
  import opened Semantics
  import Properties

  class Loop {
    const revision: Revision
    var promises: seq<PromiseRecord>
    var queue: seq<Task>
    var aggregates: seq<Aggregate>
    var flags: seq<bool>

    function Snapshot(): World
      reads this
    {
      World(revision, promises, queue, aggregates, flags)
    }

    ghost predicate Valid()
      reads this
    {
      Wf(Snapshot())
    }

    /** An event loop with no promises and no pending task. */
    constructor (revision: Revision)
      ensures Snapshot() == Empty(revision)
      ensures Valid()
    {
      this.revision := revision;
      promises, queue, aggregates, flags := [], [], [], [];
    }

    /** `resolve(v)` / `reject(v)` of promise `id` (src/promise.ts:42-77): the pending check
        is made now, the state write is deferred to a queued task. */
    method Settle(id: nat, outcome: State, v: Value)
      requires Valid() && id < |promises| && outcome != Pending && ValueOk(v, |promises|)
      modifies this
      ensures Snapshot() == CallSettle(old(Snapshot()), id, outcome, v)
      ensures Valid()
    {
      if promises[id].state == Pending {
        queue := queue + [Commit(id, outcome, v)];
      }
    }

    /** `new MyPromise(executor)` (src/promise.ts:25-40, src/promise.js:108-116,
        promise.ts:18-30). */
    method Construct(executor: Script) returns (id: nat)
      requires Valid() && ScriptOk(executor, |promises|)
      modifies this
      ensures Snapshot() == Semantics.Construct(old(Snapshot()), executor).world
      ensures id == Semantics.Construct(old(Snapshot()), executor).id
      ensures Valid()
    {
      ghost var w := Snapshot();
      id := |promises|;
      promises := promises + [Fresh()];
      WfGrows(w, Snapshot());
      ValueOkGrows(Thenable(executor), id, id + 1);
      ghost var w1 := Snapshot();
      var calls := executor.calls;
      for i := 0 to |calls|
        invariant Valid() && Snapshot() == RunCalls(w1, id, calls[..i])
      {
        assert calls[..i + 1][..i] == calls[..i];
        Settle(id, Outcome(calls[i]), calls[i].arg);
      }
      assert calls[..|calls|] == calls;
      if executor.throws.Some? {
        var err := executor.throws.value;
        match revision
        case Canonical =>
          Settle(id, Rejected, err);
        case Legacy =>
          if err.Error? {
            Settle(id, Rejected, Str(err.message));
          }
      }
    }

    /** `parent.then(...)` with the handlers already normalised (src/promise.ts:106-160). */
    method ThenWith(parent: nat, hf: Handler, hr: Handler) returns (child: nat)
      requires Valid() && parent < |promises| && ChildHandler(Snapshot(), hf) && ChildHandler(Snapshot(), hr)
      modifies this
      ensures Snapshot() == Semantics.ThenWith(old(Snapshot()), parent, hf, hr).world
      ensures child == Semantics.ThenWith(old(Snapshot()), parent, hf, hr).id
      ensures Valid()
    {
      child := |promises|;
      var p := promises[parent];
      promises := promises + [Fresh()];
      if p.state == Fulfilled {
        queue := queue + [Handle(parent, hf, child)];
      } else if p.state == Rejected {
        queue := queue + [Handle(parent, hr, child)];
      } else {
        promises := promises[parent := p.(onFulfilled := p.onFulfilled + [Reaction(hf, child)],
                                          onRejected := p.onRejected + [Reaction(hr, child)])];
      }
    }

    /** `parent.then(onFulfilled, onRejected)` (src/promise.ts:84-104). */
    method Then(parent: nat, onFulfilled: Callback, onRejected: Callback) returns (child: nat)
      requires Valid() && parent < |promises|
      requires CallbackOk(onFulfilled, |promises| + 1) && CallbackOk(onRejected, |promises| + 1)
      modifies this
      ensures Snapshot() == Semantics.Then(old(Snapshot()), parent, onFulfilled, onRejected).world
      ensures child == Semantics.Then(old(Snapshot()), parent, onFulfilled, onRejected).id
      ensures Valid()
    {
      child := ThenWith(parent, OnFulfilled(onFulfilled), OnRejected(onRejected));
    }

    /** `resolvePromise(promise2, x, resolve, reject)` with `promise2 == child`
        (src/promise.ts:375-464; promise.ts:119-185 when `revision == Legacy`). */
    method ResolvePromise(child: nat, x: Value)
      requires Valid() && child < |promises| && ValueOk(x, |promises|)
      modifies this
      ensures Snapshot() == Resolution(old(Snapshot()), child, x)
      ensures Valid()
      decreases x, 1
    {
      match x
      case Promise(id) =>
        if id == child {
          Settle(child, Rejected, CycleError);
          return;
        }
        Adopt(child, id);
        if revision == Legacy {
          // promise.ts has no `else` here: a MyPromise is also treated as a thenable.
          GuardedSubscribe(child, id);
        }
      case ThrowingGetter(e) =>
        Settle(child, Rejected, e);
      case Thenable(_) =>
        CallThen(child, x);
      case _ =>
        Settle(child, Fulfilled, x);
    }

    /** Section 2.3.2 of Promises/A+: take over the state of MyPromise `id` as it is now. */
    method Adopt(child: nat, id: nat)
      requires Valid() && child < |promises| && id < |promises|
      modifies this
      ensures Snapshot() == Semantics.Adopt(old(Snapshot()), child, id)
      ensures Valid()
    {
      var state := promises[id].state;
      if state == Pending {
        var _ := ThenWith(id, ResolveChild(child), Reject(child));
      } else if state == Fulfilled {
        Settle(child, Fulfilled, promises[id].result);
      } else {
        Settle(child, Rejected, promises[id].result);
      }
    }

    /** promise.ts:136-176 reached with a MyPromise: a new `called` flag and
        `id.then(resolvePromise, rejectPromise)`. */
    method GuardedSubscribe(child: nat, id: nat)
      requires Valid() && child < |promises| && id < |promises|
      modifies this
      ensures Snapshot() == Semantics.GuardedSubscribe(old(Snapshot()), child, id)
      ensures Valid()
    {
      var cell := |flags|;
      ghost var w := Snapshot();
      flags := flags + [false];
      WfGrows(w, Snapshot());
      var _ := ThenWith(id, Guarded(cell, child, true), Guarded(cell, child, false));
    }

    /** Section 2.3.3.3 of Promises/A+: `then.call(x, resolvePromise, rejectPromise)` for a
        thenable `x`, with the `called` flag that lets only the first call, or a throw
        before any call, have an effect. */
    method CallThen(child: nat, x: Value)
      requires Valid() && child < |promises| && ValueOk(x, |promises|) && x.Thenable?
      modifies this
      ensures Snapshot() == Resolution(old(Snapshot()), child, x)
      ensures Valid()
      decreases x, 0
    {
      var s := x.script;
      ghost var w0 := Snapshot();
      var called := false;
      var i := 0;
      while i < |s.calls|
        invariant 0 <= i <= |s.calls|
        invariant called <==> 0 < i
        invariant Valid()
        invariant i == 0 ==> Snapshot() == w0
        invariant 0 < i ==> Snapshot() == Resolution(w0, child, x)
      {
        if !called {
          called := true;
          assert s.calls[i] in s.calls;
          match s.calls[i]
          case CallResolve(y) =>
            ResolvePromise(child, y);
          case CallReject(r) =>
            Settle(child, Rejected, r);
        }
        i := i + 1;
      }
      if s.throws.Some? && !called {
        called := true;
        Settle(child, Rejected, s.throws.value);
      }
    }

    /** `MyPromise.resolve(value)` (src/promise.ts:166-175). */
    method StaticResolve(v: Value) returns (id: nat)
      requires Valid() && ValueOk(v, |promises|)
      modifies this
      ensures Snapshot() == Semantics.StaticResolve(old(Snapshot()), v).world
      ensures id == Semantics.StaticResolve(old(Snapshot()), v).id
      ensures Valid()
    {
      if v.Promise? {
        id := v.id;
      } else {
        id := Construct(Script([CallResolve(v)], None));
      }
    }

    /** `MyPromise.reject(reason)` (src/promise.ts:181-186). */
    method StaticReject(reason: Value) returns (id: nat)
      requires Valid() && ValueOk(reason, |promises|)
      modifies this
      ensures Snapshot() == Semantics.StaticReject(old(Snapshot()), reason).world
      ensures id == Semantics.StaticReject(old(Snapshot()), reason).id
      ensures Valid()
    {
      id := Construct(Script([CallReject(reason)], None));
    }

    /** `p.catch(onRejected)` (src/promise.ts:192-194). */
    method Catch(parent: nat, onRejected: Callback) returns (child: nat)
      requires Valid() && parent < |promises| && CallbackOk(onRejected, |promises| + 1)
      modifies this
      ensures Snapshot() == Semantics.Catch(old(Snapshot()), parent, onRejected).world
      ensures child == Semantics.Catch(old(Snapshot()), parent, onRejected).id
      ensures Valid()
    {
      child := Then(parent, NotCallable(Null), onRejected);
    }

    /** `p.finally(onfinally)` (src/promise.ts:201-212). */
    method Finally(parent: nat, onFinally: Callback) returns (child: nat)
      requires Valid() && parent < |promises| && CallbackOk(onFinally, |promises| + 1)
      modifies this
      ensures Snapshot() == Semantics.Finally(old(Snapshot()), parent, onFinally).world
      ensures child == Semantics.Finally(old(Snapshot()), parent, onFinally).id
      ensures Valid()
    {
      child := ThenWith(parent, FinallyValue(onFinally), FinallyReason(onFinally));
    }

    /** `count++; result[index] = v; if (count === promises.length) resolve(result)`
        (`all` and `allSettled`). */
    method Record(a: nat, index: nat, v: Value)
      requires Valid() && a < |aggregates| && ValueOk(v, |promises|)
      modifies this
      ensures Snapshot() == FulfilWhenComplete(Store(old(Snapshot()), a, index, v), a)
      ensures Valid()
    {
      var g := aggregates[a];
      StoreAtOk(g.slots, index, v, |promises|);
      g := g.(count := g.count + 1, slots := StoreAt(g.slots, index, v));
      aggregates := aggregates[a := g];
      if g.count == g.length {
        Settle(g.target, Fulfilled, List(g.slots));
      }
    }

    /** `count++; if (count === promises.length) reject(new Error(...))` (`any`). */
    method CountRejection(a: nat)
      requires Valid() && a < |aggregates|
      modifies this
      ensures Snapshot() == RejectWhenComplete(Bump(old(Snapshot()), a), a)
      ensures Valid()
    {
      var g := aggregates[a];
      g := g.(count := g.count + 1);
      aggregates := aggregates[a := g];
      if g.count == g.length {
        Settle(g.target, Rejected, AllRejectedError);
      }
    }

    /** Call handler `h` on `arg`. */
    method RunHandler(h: Handler, arg: Value) returns (c: Completion)
      requires Valid() && HandlerIn(Snapshot(), h) && ValueOk(arg, |promises|)
      modifies this
      ensures Snapshot() == Semantics.RunHandler(old(Snapshot()), h, arg).world
      ensures c == Semantics.RunHandler(old(Snapshot()), h, arg).completion
      ensures Valid()
    {
      match h
      case Identity => c := Returned(arg);
      case Rethrow => c := Threw(arg);
      case Return(v) => c := Returned(v);
      case Throw(e) => c := Threw(e);
      case ResolveChild(t) =>
        ResolvePromise(t, arg);
        c := Returned(Undefined);
      case Resolve(t) =>
        Settle(t, Fulfilled, arg);
        c := Returned(Undefined);
      case Reject(t) =>
        Settle(t, Rejected, arg);
        c := Returned(Undefined);
      case AllValue(a, i) =>
        Record(a, i, arg);
        c := Returned(Undefined);
      case SettledValue(a, i) =>
        Record(a, i, SettledRecord(true, arg));
        c := Returned(Undefined);
      case SettledReason(a, i) =>
        Record(a, i, SettledRecord(false, arg));
        c := Returned(Undefined);
      case AnyReason(a) =>
        CountRejection(a);
        c := Returned(Undefined);
      case FinallyValue(cb) => c := RunFinally(cb, arg, true);
      case FinallyReason(cb) => c := RunFinally(cb, arg, false);
      case Guarded(cell, t, fulfils) => c := RunGuarded(cell, t, fulfils, arg);
    }

    /** A `finally` handler on the parent's value (`fulfilled`) or reason `arg`. */
    method RunFinally(cb: Callback, arg: Value, fulfilled: bool) returns (c: Completion)
      requires Valid() && CallbackOk(cb, |promises|) && ValueOk(arg, |promises|)
      modifies this
      ensures Snapshot() == Semantics.RunFinally(old(Snapshot()), cb, arg, fulfilled).world
      ensures c == Semantics.RunFinally(old(Snapshot()), cb, arg, fulfilled).completion
      ensures Valid()
    {
      if cb.Throws? {
        c := Threw(cb.value);
      } else {
        ghost var n := |promises|;
        var q := StaticResolve(cb.value);
        ValueOkGrows(arg, n, |promises| + 1);
        var m := ThenWith(q, if fulfilled then Return(arg) else Throw(arg), Rethrow);
        c := Returned(Promise(m));
      }
    }

    /** A root promise.ts `resolvePromise` / `rejectPromise` callback guarded by flag `cell`. */
    method RunGuarded(cell: nat, t: nat, fulfils: bool, arg: Value) returns (c: Completion)
      requires Valid() && cell < |flags| && t < |promises| && ValueOk(arg, |promises|)
      modifies this
      ensures Snapshot() == Semantics.RunGuarded(old(Snapshot()), cell, t, fulfils, arg).world
      ensures c == Semantics.RunGuarded(old(Snapshot()), cell, t, fulfils, arg).completion
      ensures Valid()
    {
      if flags[cell] {
        c := Returned(Undefined);
      } else {
        WfFlagSet(Snapshot(), cell);
        flags := flags[cell := true];
        if fulfils {
          ResolvePromise(t, arg);
        } else {
          Settle(t, Rejected, arg);
        }
        c := Returned(Undefined);
      }
    }

    /** Run the oldest queued task (one turn of the event loop); nothing when the queue is empty. */
    method Step()
      requires Valid()
      modifies this
      ensures Snapshot() == Semantics.Step(old(Snapshot()))
      ensures Valid()
    {
      if queue == [] {
        return;
      }
      var task := queue[0];
      assert TaskOk(task, |promises|, |aggregates|, |flags|);
      queue := queue[1..];
      match task
      case Commit(id, outcome, v) => CommitTask(id, outcome, v);
      case Handle(parent, h, child) => HandleTask(parent, h, child);
    }

    /** The task `resolve` / `reject` queued: write `PromiseState` and `PromiseResult`, then
        `forEach` over the matching callback list, each wrapper queueing its handler. */
    method CommitTask(id: nat, outcome: State, v: Value)
      requires Valid() && id < |promises| && outcome != Pending && ValueOk(v, |promises|)
      modifies this
      ensures Snapshot() == Semantics.RunCommit(old(Snapshot()), id, outcome, v)
      ensures Valid()
    {
      ghost var w := Snapshot();
      var p := promises[id];
      promises := promises[id := p.(state := outcome, result := v)];
      var list := if outcome == Fulfilled then p.onFulfilled else p.onRejected;
      ghost var q0 := queue;
      for k := 0 to |list|
        invariant promises == w.promises[id := p.(state := outcome, result := v)]
        invariant queue == q0 + Drain(id, list[..k])
        invariant aggregates == w.aggregates && flags == w.flags
      {
        assert Drain(id, list[..k + 1]) == Drain(id, list[..k]) + [Handle(id, list[k].handler, list[k].child)];
        queue := queue + [Handle(id, list[k].handler, list[k].child)];
      }
      assert list[..|list|] == list;
      assert queue == w.queue + Drain(id, list);
    }

    /** The task a `then` wrapper queued: run the handler on the parent's current result and
        settle `child` through `resolvePromise` or `reject` (src/promise.ts:115-124). */
    method HandleTask(parent: nat, h: Handler, child: nat)
      requires Valid() && parent < |promises| && child < |promises| && HandlerIn(Snapshot(), h)
      modifies this
      ensures Snapshot() == Semantics.RunHandle(old(Snapshot()), parent, h, child)
      ensures Valid()
    {
      var c := RunHandler(h, promises[parent].result);
      match c
      case Returned(x) => ResolvePromise(child, x);
      case Threw(e) => Settle(child, Rejected, e);
    }

    /** `MyPromise.resolve(item).then(OnValue(k, index), OnReason(k, index))`. */
    method SubscribeOne(item: Value, index: nat, k: Combinator)
      requires Valid() && CombinatorIn(Snapshot(), k) && ValueOk(item, |promises|)
      modifies this
      ensures Snapshot() == Semantics.SubscribeOne(old(Snapshot()), item, index, k)
      ensures Valid()
    {
      var q := StaticResolve(item);
      var _ := ThenWith(q, OnValue(k, index), OnReason(k, index));
    }

    /** `promises.forEach((item, index) => MyPromise.resolve(item).then(...))`. */
    method SubscribeEach(items: seq<Value>, k: Combinator)
      requires Valid() && CombinatorIn(Snapshot(), k)
      requires forall i | 0 <= i < |items| :: ValueOk(items[i], |promises|)
      modifies this
      ensures Snapshot() == Semantics.SubscribeEach(old(Snapshot()), items, k)
      ensures Valid()
    {
      ghost var w0 := Snapshot();
      for i := 0 to |items|
        invariant Valid() && Snapshot() == Semantics.SubscribeEach(w0, items[..i], k)
      {
        assert items[..i + 1][..i] == items[..i];
        Properties.SubscribeEachSnoc(w0, items[..i + 1], k);
        SubscribeOne(items[i], i, k);
      }
      assert items[..|items|] == items;
    }

    /** The combinator's promise, allocated before its executor runs. */
    method Allocate() returns (p: nat)
      requires Valid()
      modifies this
      ensures Snapshot() == Semantics.Allocate(old(Snapshot()))
      ensures Valid()
      ensures p == |old(promises)|
    {
      p := |promises|;
      promises := promises + [Fresh()];
    }

    /** A fresh aggregate (`count = 0`, `result = []`) for `length` inputs of promise `target`. */
    method NewAggregate(target: nat, length: nat) returns (a: nat)
      requires Valid() && target < |promises|
      modifies this
      ensures Snapshot() == Semantics.NewAggregate(old(Snapshot()), target, length)
      ensures Valid()
      ensures a == |old(aggregates)|
    {
      a := |aggregates|;
      aggregates := aggregates + [Aggregate(target, length, 0, [])];
    }

    /** `MyPromise.all(promises)` (src/promise.ts:218-253). */
    method All(input: Value) returns (p: nat)
      requires Valid() && ValueOk(input, |promises|)
      modifies this
      ensures Snapshot() == Semantics.All(old(Snapshot()), input).world && p == |old(promises)|
      ensures Valid()
    {
      p := Allocate();
      ValueOkGrows(input, p, p + 1);
      if input.List? {
        if |input.items| == 0 {
          Settle(p, Fulfilled, input);
          return;
        }
        var a := NewAggregate(p, |input.items|);
        SubscribeEach(input.items, AllOf(p, a));
      } else {
        Settle(p, Rejected, NotIterableError);
      }
    }

    /** `MyPromise.race(promises)` (src/promise.ts:259-277). */
    method Race(input: Value) returns (p: nat)
      requires Valid() && ValueOk(input, |promises|)
      modifies this
      ensures Snapshot() == Semantics.Race(old(Snapshot()), input).world && p == |old(promises)|
      ensures Valid()
    {
      p := Allocate();
      ValueOkGrows(input, p, p + 1);
      if input.List? {
        if |input.items| > 0 {
          SubscribeEach(input.items, RaceOf(p));
        }
      } else {
        Settle(p, Rejected, NotIterableError);
      }
    }

    /** `MyPromise.allSettled(promises)` (src/promise.ts:283-325). */
    method AllSettled(input: Value) returns (p: nat)
      requires Valid() && ValueOk(input, |promises|)
      modifies this
      ensures Snapshot() == Semantics.AllSettled(old(Snapshot()), input).world && p == |old(promises)|
      ensures Valid()
    {
      p := Allocate();
      ValueOkGrows(input, p, p + 1);
      if input.List? {
        if |input.items| == 0 {
          Settle(p, Fulfilled, input);
          return;
        }
        var a := NewAggregate(p, |input.items|);
        SubscribeEach(input.items, AllSettledOf(p, a));
      } else {
        Settle(p, Rejected, NotIterableError);
      }
    }

    /** `MyPromise.any(promises)` (src/promise.ts:331-365). */
    method Any(input: Value) returns (p: nat)
      requires Valid() && ValueOk(input, |promises|)
      modifies this
      ensures Snapshot() == Semantics.Any(old(Snapshot()), input).world && p == |old(promises)|
      ensures Valid()
    {
      p := Allocate();
      ValueOkGrows(input, p, p + 1);
      if input.List? {
        if |input.items| == 0 {
          Settle(p, Rejected, AllRejectedError);
          return;
        }
        var a := NewAggregate(p, |input.items|);
        SubscribeEach(input.items, AnyOf(p, a));
      } else {
        Settle(p, Rejected, NotIterableError);
      }
    }
  }
}
