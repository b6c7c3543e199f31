/** What each operation of MyPromise does to the world, as functions.  The class in
  eventloop.dfy performs the same operations in place and is proved to agree with these.
 */
module Semantics {
  import opened Values
  import opened Model

  /** The tables of `r` extend those of `w`, and the revision is the same. */
  predicate Grows(w: World, r: World) {
    && r.revision == w.revision
    && |w.promises| <= |r.promises|
    && |w.aggregates| <= |r.aggregates|
    && |w.flags| <= |r.flags|
  }

  /** No task ran: the state and result of every promise that already existed are as before. */
  predicate SettledAsBefore(w: World, r: World)
    requires |w.promises| <= |r.promises|
  {
    forall i | 0 <= i < |w.promises| ::
      r.promises[i].state == w.promises[i].state && r.promises[i].result == w.promises[i].result
  }

  predicate HandlerIn(w: World, h: Handler) {
    HandlerOk(h, |w.promises|, |w.aggregates|, |w.flags|)
  }

  /** A handler given to `then` may also refer to the promise that this `then` creates, as
      in `const c = p.then(() => c)`. */
  predicate ChildHandler(w: World, h: Handler) {
    HandlerOk(h, |w.promises| + 1, |w.aggregates|, |w.flags|)
  }

  // ----- resolve / reject (src/promise.ts:42-77) -----

  /** A call of the settlement function `resolve(v)` (outcome `Fulfilled`) or `reject(v)`
      (outcome `Rejected`) of promise `id`: when the promise is pending at the time of the
      call, one task is queued; nothing else changes. */
  function CallSettle(w: World, id: nat, outcome: State, v: Value): (r: World)
    requires Wf(w) && id < |w.promises| && outcome != Pending && ValueOk(v, |w.promises|)
    ensures Wf(r)
    ensures r.promises == w.promises && r.aggregates == w.aggregates
    ensures r.flags == w.flags && r.revision == w.revision
  {
    if w.promises[id].state == Pending then w.(queue := w.queue + [Commit(id, outcome, v)])
    else w
  }

  function Outcome(c: Call): State {
    if c.CallResolve? then Fulfilled else Rejected
  }

  // ----- the constructor (src/promise.ts:25-40) -----

  /** The executor's calls of `resolve` / `reject`, in order. */
  function RunCalls(w: World, id: nat, calls: seq<Call>): (r: World)
    requires Wf(w) && id < |w.promises|
    requires forall i | 0 <= i < |calls| :: ValueOk(calls[i].arg, |w.promises|)
    ensures Wf(r)
    ensures r.promises == w.promises && r.aggregates == w.aggregates
    ensures r.flags == w.flags && r.revision == w.revision
    decreases |calls|
  {
    if calls == [] then w
    else
      var last := calls[|calls| - 1];
      CallSettle(RunCalls(w, id, calls[..|calls| - 1]), id, Outcome(last), last.arg)
  }

  /** The constructor's `catch (err)`: src/promise.ts and src/promise.js reject with `err`;
      the root promise.ts rejects with `err.message` when `err` is an `Error` and otherwise
      ignores the throw. */
  function ExecutorThrew(w: World, id: nat, err: Value): (r: World)
    requires Wf(w) && id < |w.promises| && ValueOk(err, |w.promises|)
    ensures Wf(r)
    ensures r.promises == w.promises && r.aggregates == w.aggregates
    ensures r.flags == w.flags && r.revision == w.revision
  {
    match w.revision
    case Canonical => CallSettle(w, id, Rejected, err)
    case Legacy => if err.Error? then CallSettle(w, id, Rejected, Str(err.message)) else w
  }

  /** `new MyPromise(executor)`: a fresh pending promise, then the executor run against its
      settlement functions; a throw from the executor is caught, so construction always returns. */
  function Construct(w: World, executor: Script): (m: Made)
    requires Wf(w) && ScriptOk(executor, |w.promises|)
    ensures Wf(m.world) && Grows(w, m.world)
    ensures m.id == |w.promises| && m.world.promises == w.promises + [Fresh()]
    ensures m.world.aggregates == w.aggregates && m.world.flags == w.flags
  {
    var id := |w.promises|;
    var w1 := w.(promises := w.promises + [Fresh()]);
    WfGrows(w, w1);
    ValueOkGrows(Thenable(executor), id, id + 1);
    var w2 := RunCalls(w1, id, executor.calls);
    var w3 := if executor.throws.Some? then ExecutorThrew(w2, id, executor.throws.value) else w2;
    Made(w3, id)
  }

  // ----- then (src/promise.ts:84-161) -----

  /** `onFulfilled` after the `isFunction` check: identity when it is not a function. */
  function OnFulfilled(cb: Callback): Handler {
    match cb
    case NotCallable(_) => Identity
    case Returns(v) => Return(v)
    case Throws(e) => Throw(e)
  }

  /** `onRejected` after the `isFunction` check: rethrow when it is not a function. */
  function OnRejected(cb: Callback): Handler {
    match cb
    case NotCallable(_) => Rethrow
    case Returns(v) => Return(v)
    case Throws(e) => Throw(e)
  }

  /** `parent.then(hf, hr)` with handlers already normalised: a new pending promise; a task
      for the matching handler when the parent is settled, one reaction appended to each
      callback list when it is pending.  No handler runs. */
  function ThenWith(w: World, parent: nat, hf: Handler, hr: Handler): (m: Made)
    requires Wf(w) && parent < |w.promises| && ChildHandler(w, hf) && ChildHandler(w, hr)
    ensures Wf(m.world) && Grows(w, m.world) && SettledAsBefore(w, m.world)
    ensures m.id == |w.promises| && |m.world.promises| == |w.promises| + 1
    ensures m.world.promises[m.id] == Fresh()
    ensures m.world.aggregates == w.aggregates && m.world.flags == w.flags
  {
    var np := |w.promises|;
    var child := np;
    var w1 := w.(promises := w.promises + [Fresh()]);
    WfGrows(w, w1);
    var p := w.promises[parent];
    match p.state
    case Fulfilled => Made(w1.(queue := w1.queue + [Handle(parent, hf, child)]), child)
    case Rejected => Made(w1.(queue := w1.queue + [Handle(parent, hr, child)]), child)
    case Pending =>
      var p' := p.(onFulfilled := p.onFulfilled + [Reaction(hf, child)],
                   onRejected := p.onRejected + [Reaction(hr, child)]);
      assert RecordOk(w1.promises[parent], np + 1, |w.aggregates|, |w.flags|);
      Made(w1.(promises := w1.promises[parent := p']), child)
  }

  /** `parent.then(onFulfilled, onRejected)`. */
  function Then(w: World, parent: nat, onFulfilled: Callback, onRejected: Callback): (m: Made)
    requires Wf(w) && parent < |w.promises|
    requires CallbackOk(onFulfilled, |w.promises| + 1) && CallbackOk(onRejected, |w.promises| + 1)
    ensures Wf(m.world) && Grows(w, m.world) && m.id == |w.promises|
  {
    ThenWith(w, parent, OnFulfilled(onFulfilled), OnRejected(onRejected))
  }

  // ----- resolvePromise (src/promise.ts:375-464, promise.ts:119-185) -----

  /** Section 2.3.2 of Promises/A+: adopt the state of MyPromise `id`, read now. */
  function Adopt(w: World, child: nat, id: nat): (r: World)
    requires Wf(w) && child < |w.promises| && id < |w.promises|
    ensures Wf(r) && Grows(w, r) && SettledAsBefore(w, r)
  {
    var x := w.promises[id];
    match x.state
    case Pending => ThenWith(w, id, ResolveChild(child), Reject(child)).world
    case Fulfilled => CallSettle(w, child, Fulfilled, x.result)
    case Rejected => CallSettle(w, child, Rejected, x.result)
  }

  /** Legacy only: the thenable branch taken for a MyPromise `id` as well, i.e.
      `id.then(resolvePromise, rejectPromise)` with both guarded by a fresh `called` flag. */
  function GuardedSubscribe(w: World, child: nat, id: nat): (r: World)
    requires Wf(w) && child < |w.promises| && id < |w.promises|
    ensures Wf(r) && Grows(w, r) && SettledAsBefore(w, r)
  {
    var cell := |w.flags|;
    var w1 := w.(flags := w.flags + [false]);
    WfGrows(w, w1);
    ThenWith(w1, id, Guarded(cell, child, true), Guarded(cell, child, false)).world
  }

  /** `resolvePromise(promise2, x, resolve, reject)` for `promise2 == child`.  The thenable
      branch is stated by its first effective call: the `called` flag makes every later call,
      and a throw after a call, a no-op (the loop in eventloop.dfy is proved to match). */
  function Resolution(w: World, child: nat, x: Value): (r: World)
    requires Wf(w) && child < |w.promises| && ValueOk(x, |w.promises|)
    ensures Wf(r) && Grows(w, r) && SettledAsBefore(w, r)
    decreases x
  {
    match x
    case Promise(id) =>
      if id == child then CallSettle(w, child, Rejected, CycleError)
      else
        var w1 := Adopt(w, child, id);
        if w.revision == Canonical then w1 else GuardedSubscribe(w1, child, id)
    case ThrowingGetter(e) => CallSettle(w, child, Rejected, e)
    case Thenable(s) =>
      if s.calls == [] then
        if s.throws.Some? then CallSettle(w, child, Rejected, s.throws.value) else w
      else
        assert s.calls[0] in s.calls;
        (match s.calls[0]
         case CallResolve(y) => Resolution(w, child, y)
         case CallReject(e) => CallSettle(w, child, Rejected, e))
    case _ => CallSettle(w, child, Fulfilled, x)
  }

  // ----- running a handler -----

  /** `count++` and `result[index] = v` in aggregate `a`. */
  function Store(w: World, a: nat, index: nat, v: Value): (r: World)
    requires Wf(w) && a < |w.aggregates| && ValueOk(v, |w.promises|)
    ensures Wf(r) && Grows(w, r) && r.promises == w.promises && r.queue == w.queue
    ensures |r.aggregates| == |w.aggregates|
  {
    var g := w.aggregates[a];
    StoreAtOk(g.slots, index, v, |w.promises|);
    w.(aggregates := w.aggregates[a := g.(count := g.count + 1, slots := StoreAt(g.slots, index, v))])
  }

  /** `count++` alone (`any`). */
  function Bump(w: World, a: nat): (r: World)
    requires Wf(w) && a < |w.aggregates|
    ensures Wf(r) && Grows(w, r) && r.promises == w.promises && r.queue == w.queue
    ensures |r.aggregates| == |w.aggregates|
  {
    var g := w.aggregates[a];
    w.(aggregates := w.aggregates[a := g.(count := g.count + 1)])
  }

  /** `if (count === promises.length) resolve(result)`. */
  function FulfilWhenComplete(w: World, a: nat): (r: World)
    requires Wf(w) && a < |w.aggregates|
    ensures Wf(r) && Grows(w, r) && r.promises == w.promises
  {
    var g := w.aggregates[a];
    if g.count == g.length then CallSettle(w, g.target, Fulfilled, List(g.slots)) else w
  }

  /** `if (count === promises.length) reject(new Error('All promises were rejected'))`. */
  function RejectWhenComplete(w: World, a: nat): (r: World)
    requires Wf(w) && a < |w.aggregates|
    ensures Wf(r) && Grows(w, r) && r.promises == w.promises
  {
    var g := w.aggregates[a];
    if g.count == g.length then CallSettle(w, g.target, Rejected, AllRejectedError) else w
  }

  /** `MyPromise.resolve(value)` (src/promise.ts:166-175): a MyPromise is returned as it is;
      any other value, a thenable included, is passed to the constructor's `resolve`. */
  function StaticResolve(w: World, v: Value): (m: Made)
    requires Wf(w) && ValueOk(v, |w.promises|)
    ensures Wf(m.world) && Grows(w, m.world) && SettledAsBefore(w, m.world)
    ensures m.id < |m.world.promises| && m.world.aggregates == w.aggregates
  {
    if v.Promise? then Made(w, v.id)
    else Construct(w, Script([CallResolve(v)], None))
  }

  /** Call handler `h` with argument `arg`.  Besides its completion, a handler may queue
      tasks, allocate promises and update aggregates and flags; it never changes the state
      or result of a promise. */
  function RunHandler(w: World, h: Handler, arg: Value): (r: Ran)
    requires Wf(w) && HandlerIn(w, h) && ValueOk(arg, |w.promises|)
    ensures Wf(r.world) && Grows(w, r.world) && SettledAsBefore(w, r.world)
    ensures ValueOk(r.completion.value, |r.world.promises|)
  {
    match h
    case Identity => Ran(w, Returned(arg))
    case Rethrow => Ran(w, Threw(arg))
    case Return(v) => Ran(w, Returned(v))
    case Throw(e) => Ran(w, Threw(e))
    case ResolveChild(t) => Ran(Resolution(w, t, arg), Returned(Undefined))
    case Resolve(t) => Ran(CallSettle(w, t, Fulfilled, arg), Returned(Undefined))
    case Reject(t) => Ran(CallSettle(w, t, Rejected, arg), Returned(Undefined))
    case AllValue(a, i) => Ran(FulfilWhenComplete(Store(w, a, i, arg), a), Returned(Undefined))
    case SettledValue(a, i) =>
      Ran(FulfilWhenComplete(Store(w, a, i, SettledRecord(true, arg)), a), Returned(Undefined))
    case SettledReason(a, i) =>
      Ran(FulfilWhenComplete(Store(w, a, i, SettledRecord(false, arg)), a), Returned(Undefined))
    case AnyReason(a) => Ran(RejectWhenComplete(Bump(w, a), a), Returned(Undefined))
    case FinallyValue(cb) => RunFinally(w, cb, arg, true)
    case FinallyReason(cb) => RunFinally(w, cb, arg, false)
    case Guarded(c, t, fulfils) => RunGuarded(w, c, t, fulfils, arg)
  }

  /** The two `finally` handlers: call `onfinally`; if it throws, so does the handler;
      otherwise return `MyPromise.resolve(result).then(() => value)` (when `fulfilled`) or
      `.then(() => { throw reason })`. */
  function RunFinally(w: World, cb: Callback, arg: Value, fulfilled: bool): (r: Ran)
    requires Wf(w) && CallbackOk(cb, |w.promises|) && ValueOk(arg, |w.promises|)
    ensures Wf(r.world) && Grows(w, r.world) && SettledAsBefore(w, r.world)
    ensures ValueOk(r.completion.value, |r.world.promises|)
  {
    if cb.Throws? then Ran(w, Threw(cb.value))
    else
      var q := StaticResolve(w, cb.value);
      ValueOkGrows(arg, |w.promises|, |q.world.promises| + 1);
      var m := ThenWith(q.world, q.id, if fulfilled then Return(arg) else Throw(arg), Rethrow);
      Ran(m.world, Returned(Promise(m.id)))
  }

  /** The root promise.ts `resolvePromise` / `rejectPromise` callbacks sharing flag `c`:
      only the first call of either acts. */
  function RunGuarded(w: World, c: nat, t: nat, fulfils: bool, arg: Value): (r: Ran)
    requires Wf(w) && c < |w.flags| && t < |w.promises| && ValueOk(arg, |w.promises|)
    ensures Wf(r.world) && Grows(w, r.world) && SettledAsBefore(w, r.world)
    ensures ValueOk(r.completion.value, |r.world.promises|)
  {
    if w.flags[c] then Ran(w, Returned(Undefined))
    else
      var w1 := w.(flags := w.flags[c := true]);
      assert Wf(w1) by { WfFlagSet(w, c); }
      if fulfils then Ran(Resolution(w1, t, arg), Returned(Undefined))
      else Ran(CallSettle(w1, t, Rejected, arg), Returned(Undefined))
  }

  lemma WfFlagSet(w: World, c: nat)
    requires Wf(w) && c < |w.flags|
    ensures Wf(w.(flags := w.flags[c := true]))
  {
    var w1 := w.(flags := w.flags[c := true]);
    assert |w1.flags| == |w.flags|;
    assert w1.promises == w.promises && w1.queue == w.queue && w1.aggregates == w.aggregates;
  }

  // ----- the timer queue -----

  /** The tasks the `forEach` over a callback list of promise `id` queues, in push order. */
  function Drain(id: nat, list: seq<Reaction>): (tasks: seq<Task>)
    ensures |tasks| == |list|
    ensures forall k | 0 <= k < |list| :: tasks[k] == Handle(id, list[k].handler, list[k].child)
  {
    seq(|list|, k requires 0 <= k < |list| => Handle(id, list[k].handler, list[k].child))
  }

  /** The settle task: write state and result, then queue the matching list's wrappers. */
  function RunCommit(w: World, id: nat, outcome: State, v: Value): (r: World)
    requires Wf(w) && id < |w.promises| && outcome != Pending && ValueOk(v, |w.promises|)
    ensures Wf(r) && Grows(w, r) && |r.promises| == |w.promises|
  {
    var p := w.promises[id];
    var list := if outcome == Fulfilled then p.onFulfilled else p.onRejected;
    var np, na, nf := |w.promises|, |w.aggregates|, |w.flags|;
    var r := w.(promises := w.promises[id := p.(state := outcome, result := v)],
                queue := w.queue + Drain(id, list));
    assert forall k | 0 <= k < |list| :: ReactionOk(list[k], np, na, nf);
    assert forall i | 0 <= i < |r.queue| :: TaskOk(r.queue[i], np, na, nf) by {
      forall i | 0 <= i < |r.queue| ensures TaskOk(r.queue[i], np, na, nf) {
        if i >= |w.queue| {
          assert r.queue[i] == Handle(id, list[i - |w.queue|].handler, list[i - |w.queue|].child);
        }
      }
    }
    r
  }

  /** The handler task: call the handler on the parent's `PromiseResult` as it is when the
      task runs, then `resolvePromise(promise2, x)` on a return or `reject(e)` on a throw. */
  function RunHandle(w: World, parent: nat, h: Handler, child: nat): (r: World)
    requires Wf(w) && parent < |w.promises| && child < |w.promises| && HandlerIn(w, h)
    ensures Wf(r) && Grows(w, r)
  {
    var ran := RunHandler(w, h, w.promises[parent].result);
    match ran.completion
    case Returned(x) => Resolution(ran.world, child, x)
    case Threw(e) => CallSettle(ran.world, child, Rejected, e)
  }

  /** One turn of the event loop: take the oldest task and run it. */
  function Step(w: World): (r: World)
    requires Wf(w)
    ensures Wf(r) && Grows(w, r)
  {
    if w.queue == [] then w
    else
      var rest := w.(queue := w.queue[1..]);
      assert TaskOk(w.queue[0], |w.promises|, |w.aggregates|, |w.flags|);
      match w.queue[0]
      case Commit(id, outcome, v) => RunCommit(rest, id, outcome, v)
      case Handle(parent, h, child) => RunHandle(rest, parent, h, child)
  }

  /** `n` turns of the event loop. */
  function Run(w: World, n: nat): (r: World)
    requires Wf(w)
    ensures Wf(r) && Grows(w, r)
    decreases n
  {
    if n == 0 then w else Run(Step(w), n - 1)
  }

  // ----- static resolve / reject, catch, finally (src/promise.ts:166-212) -----

  /** `MyPromise.reject(reason)`. */
  function StaticReject(w: World, reason: Value): (m: Made)
    requires Wf(w) && ValueOk(reason, |w.promises|)
    ensures Wf(m.world) && Grows(w, m.world) && m.id == |w.promises|
  {
    Construct(w, Script([CallReject(reason)], None))
  }

  /** `p.catch(onRejected)` is `p.then(null, onRejected)`. */
  function Catch(w: World, parent: nat, onRejected: Callback): (m: Made)
    requires Wf(w) && parent < |w.promises| && CallbackOk(onRejected, |w.promises| + 1)
    ensures Wf(m.world) && Grows(w, m.world) && m.id == |w.promises|
  {
    Then(w, parent, NotCallable(Null), onRejected)
  }

  /** `p.finally(onfinally)`. */
  function Finally(w: World, parent: nat, onFinally: Callback): (m: Made)
    requires Wf(w) && parent < |w.promises| && CallbackOk(onFinally, |w.promises| + 1)
    ensures Wf(m.world) && Grows(w, m.world) && m.id == |w.promises|
  {
    ThenWith(w, parent, FinallyValue(onFinally), FinallyReason(onFinally))
  }

  // ----- all / race / allSettled / any (src/promise.ts:218-365) -----

  /** Which combinator a `forEach` subscription belongs to: its promise and aggregate. */
  datatype Combinator =
    | AllOf(target: nat, agg: nat)
    | RaceOf(target: nat)
    | AllSettledOf(target: nat, agg: nat)
    | AnyOf(target: nat, agg: nat)

  predicate CombinatorIn(w: World, k: Combinator) {
    k.target < |w.promises| && (!k.RaceOf? ==> k.agg < |w.aggregates|)
  }

  /** The `onFulfilled` a combinator passes to `MyPromise.resolve(item).then` for input `index`. */
  function OnValue(k: Combinator, index: nat): Handler {
    match k
    case AllOf(_, a) => AllValue(a, index)
    case RaceOf(p) => Resolve(p)
    case AllSettledOf(_, a) => SettledValue(a, index)
    case AnyOf(p, _) => Resolve(p)
  }

  /** The `onRejected` it passes. */
  function OnReason(k: Combinator, index: nat): Handler {
    match k
    case AllOf(p, _) => Reject(p)
    case RaceOf(p) => Reject(p)
    case AllSettledOf(_, a) => SettledReason(a, index)
    case AnyOf(_, a) => AnyReason(a)
  }

  /** `MyPromise.resolve(item).then(OnValue(k, index), OnReason(k, index))`. */
  function SubscribeOne(w: World, item: Value, index: nat, k: Combinator): (r: World)
    requires Wf(w) && CombinatorIn(w, k) && ValueOk(item, |w.promises|)
    ensures Wf(r) && Grows(w, r) && SettledAsBefore(w, r) && CombinatorIn(r, k)
  {
    var q := StaticResolve(w, item);
    ThenWith(q.world, q.id, OnValue(k, index), OnReason(k, index)).world
  }

  /** `promises.forEach((item, index) => MyPromise.resolve(item).then(OnValue, OnReason))`. */
  function SubscribeEach(w: World, items: seq<Value>, k: Combinator): (r: World)
    requires Wf(w) && CombinatorIn(w, k)
    requires forall i | 0 <= i < |items| :: ValueOk(items[i], |w.promises|)
    ensures Wf(r) && Grows(w, r) && SettledAsBefore(w, r) && CombinatorIn(r, k)
    decreases |items|
  {
    if items == [] then w
    else
      var index := |items| - 1;
      var w1 := SubscribeEach(w, items[..index], k);
      ValueOkGrows(items[index], |w.promises|, |w1.promises|);
      SubscribeOne(w1, items[index], index, k)
  }

  /** The combinator's own promise, allocated before its executor runs. */
  function Allocate(w: World): (r: World)
    requires Wf(w)
    ensures Wf(r) && Grows(w, r) && r.promises == w.promises + [Fresh()] && r.queue == w.queue
    ensures r.aggregates == w.aggregates && r.flags == w.flags
  {
    var r := w.(promises := w.promises + [Fresh()]);
    WfGrows(w, r);
    r
  }

  /** A fresh aggregate for `length` inputs, owned by promise `target`. */
  function NewAggregate(w: World, target: nat, length: nat): (r: World)
    requires Wf(w) && target < |w.promises|
    ensures Wf(r) && Grows(w, r) && r.promises == w.promises && r.queue == w.queue
    ensures r.aggregates == w.aggregates + [Aggregate(target, length, 0, [])]
  {
    var r := w.(aggregates := w.aggregates + [Aggregate(target, length, 0, [])]);
    WfGrows(w, r);
    r
  }

  /** `MyPromise.all(promises)`. */
  function All(w: World, input: Value): (m: Made)
    requires Wf(w) && ValueOk(input, |w.promises|)
    ensures Wf(m.world) && Grows(w, m.world) && m.id == |w.promises|
  {
    var p := |w.promises|;
    var w1 := Allocate(w);
    ValueOkGrows(input, p, p + 1);
    match input
    case List(items) =>
      if |items| == 0 then Made(CallSettle(w1, p, Fulfilled, input), p)
      else
        var w2 := NewAggregate(w1, p, |items|);
        Made(SubscribeEach(w2, items, AllOf(p, |w1.aggregates|)), p)
    case _ => Made(CallSettle(w1, p, Rejected, NotIterableError), p)
  }

  /** `MyPromise.race(promises)`. */
  function Race(w: World, input: Value): (m: Made)
    requires Wf(w) && ValueOk(input, |w.promises|)
    ensures Wf(m.world) && Grows(w, m.world) && m.id == |w.promises|
  {
    var p := |w.promises|;
    var w1 := Allocate(w);
    ValueOkGrows(input, p, p + 1);
    match input
    case List(items) =>
      if |items| > 0 then Made(SubscribeEach(w1, items, RaceOf(p)), p) else Made(w1, p)
    case _ => Made(CallSettle(w1, p, Rejected, NotIterableError), p)
  }

  /** `MyPromise.allSettled(promises)`. */
  function AllSettled(w: World, input: Value): (m: Made)
    requires Wf(w) && ValueOk(input, |w.promises|)
    ensures Wf(m.world) && Grows(w, m.world) && m.id == |w.promises|
  {
    var p := |w.promises|;
    var w1 := Allocate(w);
    ValueOkGrows(input, p, p + 1);
    match input
    case List(items) =>
      if |items| == 0 then Made(CallSettle(w1, p, Fulfilled, input), p)
      else
        var w2 := NewAggregate(w1, p, |items|);
        Made(SubscribeEach(w2, items, AllSettledOf(p, |w1.aggregates|)), p)
    case _ => Made(CallSettle(w1, p, Rejected, NotIterableError), p)
  }

  /** `MyPromise.any(promises)`. */
  function Any(w: World, input: Value): (m: Made)
    requires Wf(w) && ValueOk(input, |w.promises|)
    ensures Wf(m.world) && Grows(w, m.world) && m.id == |w.promises|
  {
    var p := |w.promises|;
    var w1 := Allocate(w);
    ValueOkGrows(input, p, p + 1);
    match input
    case List(items) =>
      if |items| == 0 then Made(CallSettle(w1, p, Rejected, AllRejectedError), p)
      else
        var w2 := NewAggregate(w1, p, |items|);
        Made(SubscribeEach(w2, items, AnyOf(p, |w1.aggregates|)), p)
    case _ => Made(CallSettle(w1, p, Rejected, NotIterableError), p)
  }
}
