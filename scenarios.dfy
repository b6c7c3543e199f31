/** Runs of the event loop: what a chain of `then` calls produces once the queued tasks
  have run, and concrete programs that show the consequences of writing the state only in
  the deferred task.
 */
module Scenarios {
  import opened Values
  import opened Model
  import opened Semantics
  import opened Properties

  /** Two turns of the loop are two steps. */
  lemma RunTwo(w: World)
    requires Wf(w)
    ensures Run(w, 2) == Step(Step(w))
  {
  }

  /** `then(null, null)` on a settled parent: once the handler task and the child's settle
      task have run, the child has the parent's state and result (a fulfilled value is
      taken as it is unless it is itself a promise or a thenable). */
  lemma {:induction false} ThenNullForwards(w: World, parent: nat, a: Value, b: Value)
    requires Wf(w) && parent < |w.promises| && w.queue == []
    requires ValueOk(a, |w.promises| + 1) && ValueOk(b, |w.promises| + 1)
    requires w.promises[parent].state != Pending
    requires w.promises[parent].state == Fulfilled ==> Inert(w.promises[parent].result)
    ensures var m, p := Then(w, parent, NotCallable(a), NotCallable(b)), w.promises[parent];
      var r := Run(m.world, 2);
      && r.promises[m.id].state == p.state && r.promises[m.id].result == p.result
      && r.queue == []
  {
    var p := w.promises[parent];
    var n := |w.promises|;
    ThenNormalises(w, parent, NotCallable(a), NotCallable(b));
    var m := Then(w, parent, NotCallable(a), NotCallable(b));
    ThenSchedulesOrSubscribes(w, parent, OnFulfilled(NotCallable(a)), OnRejected(NotCallable(b)));
    assert m.world.promises == w.promises + [Fresh()];
    var h := if p.state == Fulfilled then Identity else Rethrow;
    assert m.world.queue == [Handle(parent, h, n)];
    var s1 := Step(m.world);
    ValueOkGrows(p.result, n, n + 1);
    if p.state == Fulfilled {
      ResolveInert(m.world.(queue := []), n, p.result);
    }
    assert s1.queue == [Commit(n, p.state, p.result)];
    assert s1.promises == m.world.promises;
    CommitStep(s1);
    RunTwo(m.world);
  }

  /** A handler that throws `e` rejects the child with `e`, whatever the parent's result,
      once the two tasks have run. */
  lemma {:induction false} ThrowingHandlerRejects(w: World, parent: nat, e: Value, other: Callback)
    requires Wf(w) && parent < |w.promises| && w.queue == []
    requires ValueOk(e, |w.promises| + 1) && CallbackOk(other, |w.promises| + 1)
    requires w.promises[parent].state != Pending
    ensures var cbs := if w.promises[parent].state == Fulfilled then [Throws(e), other] else [other, Throws(e)];
      var m := Then(w, parent, cbs[0], cbs[1]);
      var r := Run(m.world, 2);
      r.promises[m.id].state == Rejected && r.promises[m.id].result == e && r.queue == []
  {
    var p := w.promises[parent];
    var n := |w.promises|;
    var cbs := if p.state == Fulfilled then [Throws(e), other] else [other, Throws(e)];
    var m := Then(w, parent, cbs[0], cbs[1]);
    ThenSchedulesOrSubscribes(w, parent, OnFulfilled(cbs[0]), OnRejected(cbs[1]));
    assert m.world.promises == w.promises + [Fresh()];
    assert m.world.queue == [Handle(parent, Throw(e), n)];
    ThrowTaskRun(m.world, w.promises, parent, e);
  }

  /** `const c = p.then(() => c)` on a settled `p`: the handler returns the child itself,
      so the resolution procedure rejects the child with the cycle `TypeError` once the
      two tasks have run. */
  lemma {:induction false} SelfReturnRejects(w: World, parent: nat, other: Callback)
    requires Wf(w) && parent < |w.promises| && w.queue == [] && CallbackOk(other, |w.promises| + 1)
    requires w.promises[parent].state != Pending
    ensures var c := Returns(Promise(|w.promises|));
      var cbs := if w.promises[parent].state == Fulfilled then [c, other] else [other, c];
      var m := Then(w, parent, cbs[0], cbs[1]);
      var r := Run(m.world, 2);
      r.promises[m.id].state == Rejected && r.promises[m.id].result == CycleError && r.queue == []
  {
    var n := |w.promises|;
    var c := Returns(Promise(n));
    var cbs := if w.promises[parent].state == Fulfilled then [c, other] else [other, c];
    var m := Then(w, parent, cbs[0], cbs[1]);
    ThenSchedulesOrSubscribes(w, parent, OnFulfilled(cbs[0]), OnRejected(cbs[1]));
    assert m.world.promises == w.promises + [Fresh()];
    assert m.world.queue == [Handle(parent, Return(Promise(n)), n)];
    SelfTaskRun(m.world, w.promises, parent);
  }

  /** The one task is a handler that returns the last, pending record itself: two turns
      later that record is rejected with the cycle `TypeError`. */
  lemma SelfTaskRun(s0: World, ps: seq<PromiseRecord>, parent: nat)
    requires Wf(s0) && s0.promises == ps + [Fresh()] && parent < |ps|
    requires s0.queue == [Handle(parent, Return(Promise(|ps|)), |ps|)]
    ensures Run(s0, 2).promises[|ps|].state == Rejected && Run(s0, 2).promises[|ps|].result == CycleError
    ensures Run(s0, 2).queue == []
  {
    var n := |ps|;
    var s1 := Step(s0);
    ResolveSelf(s0.(queue := []), n);
    assert s1.queue == [Commit(n, Rejected, CycleError)];
    assert s1.promises == s0.promises;
    CommitStep(s1);
    RunTwo(s0);
  }

  /** The one task is a handler that throws `e` for the last, pending record: two turns
      later that record is rejected with `e` and nothing is left to run. */
  lemma ThrowTaskRun(s0: World, ps: seq<PromiseRecord>, parent: nat, e: Value)
    requires Wf(s0) && s0.promises == ps + [Fresh()] && parent < |ps|
    requires s0.queue == [Handle(parent, Throw(e), |ps|)]
    ensures Run(s0, 2).promises[|ps|].state == Rejected && Run(s0, 2).promises[|ps|].result == e
    ensures Run(s0, 2).queue == []
  {
    var n := |ps|;
    var s1 := Step(s0);
    assert s1.queue == [Commit(n, Rejected, e)];
    assert s1.promises == s0.promises;
    CommitStep(s1);
    RunTwo(s0);
  }

  /** `resolve(1); reject(2)` in one executor: both calls pass the pending check, so both
      settle tasks are queued; the first makes the promise fulfilled with 1 and the second
      then overwrites it with the rejection 2. */
  lemma DoubleSettleInOneTurn()
    ensures var m := Construct(Empty(Canonical), Script([CallResolve(Num(1)), CallReject(Num(2))], None));
      && m.world.queue == [Commit(0, Fulfilled, Num(1)), Commit(0, Rejected, Num(2))]
      && Step(m.world).promises[0] == PromiseRecord(Fulfilled, Num(1), [], [])
      && Run(m.world, 2).promises[0] == PromiseRecord(Rejected, Num(2), [], [])
  {
    var ex := Script([CallResolve(Num(1)), CallReject(Num(2))], None);
    ConstructQueues(Empty(Canonical), ex);
    var m := Construct(Empty(Canonical), ex);
    assert Commits(0, ex.calls) == [Commit(0, Fulfilled, Num(1)), Commit(0, Rejected, Num(2))];
    CommitStep(m.world);
    CommitStep(Step(m.world));
    RunTwo(m.world);
  }

  /** `finally` whose callback throws `e`, on a settled parent: the child is rejected with
      `e` once the two tasks have run. */
  lemma {:induction false} FinallyThrowRejects(w: World, parent: nat, e: Value)
    requires Wf(w) && parent < |w.promises| && w.queue == [] && ValueOk(e, |w.promises| + 1)
    requires w.promises[parent].state != Pending
    ensures var m := Finally(w, parent, Throws(e));
      var r := Run(m.world, 2);
      r.promises[m.id].state == Rejected && r.promises[m.id].result == e && r.queue == []
  {
    var n := |w.promises|;
    var m := Finally(w, parent, Throws(e));
    ThenSchedulesOrSubscribes(w, parent, FinallyValue(Throws(e)), FinallyReason(Throws(e)));
    ValueOkGrows(w.promises[parent].result, n, n + 1);
    FinallyHandlers(m.world.(queue := []), Throws(e), w.promises[parent].result);
    var s1 := Step(m.world);
    assert s1.queue == [Commit(n, Rejected, e)];
    assert s1.promises == m.world.promises;
    CommitStep(s1);
    RunTwo(m.world);
  }

  /** The task of a `resolve` or `reject` subscribed by a combinator: it queues the
      settlement of the combined promise with the parent's result, then, since it returned
      `undefined`, the fulfilment of its own `then` child with `undefined`. */
  lemma SettleHandlerStep(w: World)
    requires Wf(w) && w.queue != [] && w.queue[0].Handle?
    requires w.queue[0].handler.Resolve? || w.queue[0].handler.Reject?
    requires var t := w.queue[0]; t.handler.target != t.child
    requires var t := w.queue[0];
      w.promises[t.handler.target].state == Pending && w.promises[t.child].state == Pending
    ensures var t, r := w.queue[0], Step(w);
      var outcome := if t.handler.Resolve? then Fulfilled else Rejected;
      && r.promises == w.promises && r.aggregates == w.aggregates
      && r.queue == w.queue[1..] + [Commit(t.handler.target, outcome, w.promises[t.parent].result),
                                    Commit(t.child, Fulfilled, Undefined)]
  {
    assert TaskOk(w.queue[0], |w.promises|, |w.aggregates|, |w.flags|);
  }

  /** The world `race([x, y])` leaves: the race promise, then a feeder and a `then` child
      per input, and the two feeders' settle tasks. */
  lemma RaceSetup(w: World, x: Value, y: Value)
    requires Wf(w) && ValueOk(x, |w.promises|) && ValueOk(y, |w.promises|)
    requires !x.Promise? && !y.Promise?
    ensures var r, n, k := Race(w, List([x, y])).world, |w.promises|, RaceOf(|w.promises|);
      && r.promises == w.promises + [Fresh(), Feeder(k, 0, n + 2), Fresh(), Feeder(k, 1, n + 4), Fresh()]
      && r.queue == w.queue + [Commit(n + 1, Fulfilled, x), Commit(n + 3, Fulfilled, y)]
  {
    var n := |w.promises|;
    ValueOkGrows(x, n, n + 1);
    ValueOkGrows(y, n, n + 1);
    var w0 := Allocate(w);
    RaceSubscribes(w, [x, y]);
    SubscribeTwo(w0, w.promises, RaceOf(n), x, y);
  }

  /** `race` on a non-empty array subscribes to every input after allocating its promise. */
  lemma RaceSubscribes(w: World, items: seq<Value>)
    requires Wf(w) && ValueOk(List(items), |w.promises|) && ValueOk(List(items), |w.promises| + 1)
    requires items != []
    ensures Race(w, List(items)).world == SubscribeEach(Allocate(w), items, RaceOf(|w.promises|))
  {
  }

  /** `all` on two inputs also allocates its aggregate first. */
  lemma AllSubscribes(w: World, x: Value, y: Value)
    requires Wf(w) && ValueOk(x, |w.promises|) && ValueOk(y, |w.promises|)
    requires ValueOk(x, |w.promises| + 1) && ValueOk(y, |w.promises| + 1)
    ensures var w0, n := NewAggregate(Allocate(w), |w.promises|, 2), |w.promises|;
      && All(w, List([x, y])).world == SubscribeEach(w0, [x, y], AllOf(n, |w.aggregates|))
      && Wf(w0) && CombinatorIn(w0, AllOf(n, |w.aggregates|))
      && w0.promises == w.promises + [Fresh()] && w0.queue == w.queue
      && w0.aggregates == w.aggregates + [Aggregate(n, 2, 0, [])]
  {
  }

  /** Two inputs, neither a MyPromise, after the combined promise (the last record). */
  lemma SubscribeTwo(w0: World, ps: seq<PromiseRecord>, k: Combinator, x: Value, y: Value)
    requires Wf(w0) && CombinatorIn(w0, k) && w0.promises == ps + [Fresh()]
    requires ValueOk(x, |ps| + 1) && ValueOk(y, |ps| + 1) && !x.Promise? && !y.Promise?
    ensures var r, n := SubscribeEach(w0, [x, y], k), |ps|;
      && r.promises == ps + [Fresh(), Feeder(k, 0, n + 2), Fresh(), Feeder(k, 1, n + 4), Fresh()]
      && r.queue == w0.queue + [Commit(n + 1, Fulfilled, x), Commit(n + 3, Fulfilled, y)]
      && r.aggregates == w0.aggregates
  {
    var n := |ps|;
    var items := [x, y];
    assert forall i | 0 <= i < |items| :: ValueOk(items[i], n + 1) && !items[i].Promise?;
    SubscribeEachPlain(w0, items, k);
    FeederTableTwo(k, n + 1);
    FeedTasksTwo(x, y, n + 1);
    Associate(ps, Fresh(), Feeder(k, 0, n + 2), Fresh(), Feeder(k, 1, n + 4), Fresh());
  }

  lemma Associate<T>(s: seq<T>, a: T, b: T, c: T, d: T, e: T)
    ensures (s + [a]) + [b, c, d, e] == s + [a, b, c, d, e]
  {
  }

  lemma FeederTableTwo(k: Combinator, base: nat)
    ensures FeederTable(k, 2, base) == [Feeder(k, 0, base + 1), Fresh(), Feeder(k, 1, base + 3), Fresh()]
  {
    assert FeederTable(k, 0, base) == [];
    assert FeederTable(k, 1, base) == [Feeder(k, 0, base + 1), Fresh()];
  }

  lemma FeedTasksTwo(x: Value, y: Value, base: nat)
    ensures FeedTasks([x, y], base) == [Commit(base, Fulfilled, x), Commit(base + 2, Fulfilled, y)]
  {
  }

  /** The first four turns after `race([x, y])`: both feeders settle, and each one's
      handler queues a settle task for the still pending race promise. */
  lemma RaceFirstTurns(w: World, ps: seq<PromiseRecord>, x: Value, y: Value)
    requires var n, k := |ps|, RaceOf(|ps|);
      Wf(w) && w.promises == ps + [Fresh(), Feeder(k, 0, n + 2), Fresh(), Feeder(k, 1, n + 4), Fresh()]
    requires w.queue == [Commit(|ps| + 1, Fulfilled, x), Commit(|ps| + 3, Fulfilled, y)]
    ensures var s4, n := Step(Step(Step(Step(w)))), |ps|;
      && s4.queue == [Commit(n, Fulfilled, x), Commit(n + 2, Fulfilled, Undefined),
                      Commit(n, Fulfilled, y), Commit(n + 4, Fulfilled, Undefined)]
      && s4.promises[n] == Fresh() && s4.promises[n + 2] == Fresh() && |s4.promises| == n + 5
  {
    RaceFeedTurns(w, ps, x, y);
    RaceHandlerTurns(Step(Step(w)), |ps|, x, y);
  }

  /** The two feeders settle; each queues the task of its `resolve` handler. */
  lemma RaceFeedTurns(w: World, ps: seq<PromiseRecord>, x: Value, y: Value)
    requires var n, k := |ps|, RaceOf(|ps|);
      Wf(w) && w.promises == ps + [Fresh(), Feeder(k, 0, n + 2), Fresh(), Feeder(k, 1, n + 4), Fresh()]
    requires w.queue == [Commit(|ps| + 1, Fulfilled, x), Commit(|ps| + 3, Fulfilled, y)]
    ensures var s2, n := Step(Step(w)), |ps|;
      && s2.queue == [Handle(n + 1, Resolve(n), n + 2), Handle(n + 3, Resolve(n), n + 4)]
      && s2.promises[n] == Fresh() && s2.promises[n + 2] == Fresh() && s2.promises[n + 4] == Fresh()
      && s2.promises[n + 1].result == x && s2.promises[n + 3].result == y && |s2.promises| == n + 5
  {
    var n := |ps|;
    CommitStep(w);
    var s1 := Step(w);
    assert s1.queue == [Commit(n + 3, Fulfilled, y), Handle(n + 1, Resolve(n), n + 2)];
    CommitStep(s1);
  }

  /** Both handlers run while the race promise is pending, so both queue its fulfilment. */
  lemma RaceHandlerTurns(s2: World, n: nat, x: Value, y: Value)
    requires Wf(s2) && |s2.promises| == n + 5
    requires s2.queue == [Handle(n + 1, Resolve(n), n + 2), Handle(n + 3, Resolve(n), n + 4)]
    requires s2.promises[n] == Fresh() && s2.promises[n + 2] == Fresh() && s2.promises[n + 4] == Fresh()
    requires s2.promises[n + 1].result == x && s2.promises[n + 3].result == y
    ensures var s4 := Step(Step(s2));
      && s4.queue == [Commit(n, Fulfilled, x), Commit(n + 2, Fulfilled, Undefined),
                      Commit(n, Fulfilled, y), Commit(n + 4, Fulfilled, Undefined)]
      && s4.promises[n] == Fresh() && s4.promises[n + 2] == Fresh() && |s4.promises| == n + 5
  {
    SettleHandlerStep(s2);
    SettleHandlerStep(Step(s2));
  }

  /** The last three turns: the race promise takes `x`, the first child settles, and the
      second settle task then replaces `x` with `y`. */
  lemma RaceLastTurns(s4: World, n: nat, x: Value, y: Value)
    requires Wf(s4) && n + 4 < |s4.promises| && s4.promises[n] == Fresh() && s4.promises[n + 2] == Fresh()
    requires s4.queue == [Commit(n, Fulfilled, x), Commit(n + 2, Fulfilled, Undefined),
                          Commit(n, Fulfilled, y), Commit(n + 4, Fulfilled, Undefined)]
    ensures Step(s4).promises[n] == PromiseRecord(Fulfilled, x, [], [])
    ensures Step(Step(Step(s4))).promises[n] == PromiseRecord(Fulfilled, y, [], [])
    ensures Step(Step(Step(s4))).queue == [Commit(n + 4, Fulfilled, Undefined)]
  {
    CommitStep(s4);
    var s5 := Step(s4);
    assert s5.queue == [Commit(n + 2, Fulfilled, Undefined), Commit(n, Fulfilled, y), Commit(n + 4, Fulfilled, Undefined)];
    CommitStep(s5);
    var s6 := Step(s5);
    assert s6.queue == [Commit(n, Fulfilled, y), Commit(n + 4, Fulfilled, Undefined)];
    CommitStep(s6);
  }

  /** `race([x, y])` for inputs that are not MyPromises: both inputs call the race
      promise's `resolve` while it is still pending, so both settle tasks are queued.
      After five turns the race promise is fulfilled with `x`, the first input in queue
      order; two turns later the second task has overwritten that with `y`. */
  lemma RaceSettlesTwice(w: World, x: Value, y: Value)
    requires Wf(w) && ValueOk(x, |w.promises|) && ValueOk(y, |w.promises|) && w.queue == []
    requires !x.Promise? && !y.Promise?
    ensures var r, n := Race(w, List([x, y])).world, |w.promises|;
      && Run(r, 5).promises[n] == PromiseRecord(Fulfilled, x, [], [])
      && Run(r, 7).promises[n] == PromiseRecord(Fulfilled, y, [], [])
  {
    RaceSetup(w, x, y);
    RaceRun(Race(w, List([x, y])).world, w.promises, x, y);
  }

  lemma RaceRun(r: World, ps: seq<PromiseRecord>, x: Value, y: Value)
    requires var n, k := |ps|, RaceOf(|ps|);
      Wf(r) && r.promises == ps + [Fresh(), Feeder(k, 0, n + 2), Fresh(), Feeder(k, 1, n + 4), Fresh()]
    requires r.queue == [Commit(|ps| + 1, Fulfilled, x), Commit(|ps| + 3, Fulfilled, y)]
    ensures Run(r, 5).promises[|ps|] == PromiseRecord(Fulfilled, x, [], [])
    ensures Run(r, 7).promises[|ps|] == PromiseRecord(Fulfilled, y, [], [])
  {
    RaceFirstTurns(r, ps, x, y);
    RaceLastTurns(Step(Step(Step(Step(r)))), |ps|, x, y);
    RunSeven(r);
  }

  /** Five and seven turns are five and seven steps. */
  lemma RunSeven(w: World)
    requires Wf(w)
    ensures Run(w, 5) == Step(Step(Step(Step(Step(w)))))
    ensures Run(w, 7) == Step(Step(Step(Step(Step(Step(Step(w)))))))
  {
  }

  /** Three turns are three steps. */
  lemma RunThree(w: World)
    requires Wf(w)
    ensures Run(w, 3) == Step(Step(Step(w)))
  {
  }

  /** The task of a user callback that returns `x`, when `x` is neither a promise nor a
      thenable: the child's fulfilment with `x` is queued. */
  lemma ReturnHandlerStep(w: World)
    requires Wf(w) && w.queue != [] && w.queue[0].Handle? && w.queue[0].handler.Return?
    requires Inert(w.queue[0].handler.v) && w.promises[w.queue[0].child].state == Pending
    ensures var t, r := w.queue[0], Step(w);
      && r.promises == w.promises && r.flags == w.flags && r.aggregates == w.aggregates
      && r.queue == w.queue[1..] + [Commit(t.child, Fulfilled, t.handler.v)]
  {
    assert TaskOk(w.queue[0], |w.promises|, |w.aggregates|, |w.flags|);
  }

  /** The task of `y => resolvePromise(promise2, y, ...)` subscribed to an adopted MyPromise,
      when its value `y` is neither a promise nor a thenable: the adopting promise's
      fulfilment with `y` is queued, then its own child's fulfilment with `undefined`. */
  lemma ResolveChildStep(w: World)
    requires Wf(w) && w.queue != [] && w.queue[0].Handle? && w.queue[0].handler.ResolveChild?
    requires var t := w.queue[0]; t.handler.target != t.child && Inert(w.promises[t.parent].result)
    requires var t := w.queue[0];
      w.promises[t.handler.target].state == Pending && w.promises[t.child].state == Pending
    ensures var t, r := w.queue[0], Step(w);
      && r.promises == w.promises && r.flags == w.flags && r.aggregates == w.aggregates
      && r.queue == w.queue[1..] + [Commit(t.handler.target, Fulfilled, w.promises[t.parent].result),
                                    Commit(t.child, Fulfilled, Undefined)]
  {
    assert TaskOk(w.queue[0], |w.promises|, |w.aggregates|, |w.flags|);
  }

  /** The root promise.ts guarded callback, on its first call: it sets the `called` flag
      and resolves the target promise like `ResolveChildStep`. */
  lemma GuardedStep(w: World)
    requires Wf(w) && w.queue != [] && w.queue[0].Handle? && w.queue[0].handler.Guarded?
    requires var t := w.queue[0]; t.handler.fulfils && t.handler.target != t.child
    requires var t := w.queue[0]; !w.flags[t.handler.cell] && Inert(w.promises[t.parent].result)
    requires var t := w.queue[0];
      w.promises[t.handler.target].state == Pending && w.promises[t.child].state == Pending
    ensures var t, r := w.queue[0], Step(w);
      && r.promises == w.promises && r.flags == w.flags[t.handler.cell := true]
      && r.queue == w.queue[1..] + [Commit(t.handler.target, Fulfilled, w.promises[t.parent].result),
                                    Commit(t.child, Fulfilled, Undefined)]
  {
    assert TaskOk(w.queue[0], |w.promises|, |w.aggregates|, |w.flags|);
  }

  /** The world in which promise `child` is resolved with the pending MyPromise `id`
      while the fulfilment of `id` with `v` is already queued. */
  predicate AdoptionStart(w: World, child: nat, id: nat, v: Value) {
    && Wf(w) && child < |w.promises| && id < |w.promises| && child != id
    && w.promises[child].state == Pending && w.promises[id] == Fresh()
    && w.queue == [Commit(id, Fulfilled, v)] && Inert(v)
  }

  /** src/promise.ts: once `id` is fulfilled, its one reaction queues the child's
      fulfilment with `v`, once. */
  lemma AdoptionQueuesOnce(w: World, child: nat, id: nat, v: Value)
    requires AdoptionStart(w, child, id, v) && w.revision == Canonical
    ensures var r, n := Resolution(w, child, Promise(id)), |w.promises|;
      Run(r, 2).queue == [Commit(child, Fulfilled, v), Commit(n, Fulfilled, Undefined)]
  {
    var n := |w.promises|;
    ResolvePendingPromise(w, child, id);
    var r := Resolution(w, child, Promise(id));
    assert r.promises[id].state == Pending && r.promises[child].state == Pending;
    assert r.promises[n].state == Pending;
    CommitStep(r);
    var s1 := Step(r);
    assert s1.promises[id].result == v;
    assert s1.queue == [Handle(id, ResolveChild(child), n)];
    ResolveChildStep(s1);
    RunTwo(r);
  }

  /** Root promise.ts: the world right after the child is resolved with the pending
      MyPromise `id`, written out. */
  lemma LegacyAdoptionWorld(w: World, child: nat, id: nat)
    requires Wf(w) && w.revision == Legacy && child < |w.promises| && id < |w.promises| && child != id
    requires w.promises[id].state == Pending
    ensures var n, cell, x := |w.promises|, |w.flags|, w.promises[id];
      Resolution(w, child, Promise(id)) == w.(
        promises := (w.promises + [Fresh(), Fresh()])[id := x.(
          onFulfilled := x.onFulfilled + [Reaction(ResolveChild(child), n), Reaction(Guarded(cell, child, true), n + 1)],
          onRejected := x.onRejected + [Reaction(Reject(child), n), Reaction(Guarded(cell, child, false), n + 1)])],
        flags := w.flags + [false])
  {
    var n, cell, x := |w.promises|, |w.flags|, w.promises[id];
    LegacyResolution(w, child, id);
    AdoptPending(w, child, id);
    var x1 := x.(onFulfilled := x.onFulfilled + [Reaction(ResolveChild(child), n)],
                 onRejected := x.onRejected + [Reaction(Reject(child), n)]);
    var w1 := Adopt(w, child, id);
    assert w1.promises[id] == x1;
    GuardedPending(w1, child, id);
    var x2 := x1.(onFulfilled := x1.onFulfilled + [Reaction(Guarded(cell, child, true), n + 1)],
                  onRejected := x1.onRejected + [Reaction(Guarded(cell, child, false), n + 1)]);
    UpdateTwice(w.promises, Fresh(), Fresh(), id, x1, x2);
    assert x1.onFulfilled + [Reaction(Guarded(cell, child, true), n + 1)]
        == x.onFulfilled + [Reaction(ResolveChild(child), n), Reaction(Guarded(cell, child, true), n + 1)];
    assert x1.onRejected + [Reaction(Guarded(cell, child, false), n + 1)]
        == x.onRejected + [Reaction(Reject(child), n), Reaction(Guarded(cell, child, false), n + 1)];
  }

  /** Adopting a pending MyPromise `id`: one reaction pair on `id` whose `then` child is
      the one new promise. */
  lemma AdoptPending(w: World, child: nat, id: nat)
    requires Wf(w) && child < |w.promises| && id < |w.promises| && w.promises[id].state == Pending
    ensures var n, x := |w.promises|, w.promises[id];
      Adopt(w, child, id) == w.(promises := (w.promises + [Fresh()])[id := x.(
        onFulfilled := x.onFulfilled + [Reaction(ResolveChild(child), n)],
        onRejected := x.onRejected + [Reaction(Reject(child), n)])])
  {
    ThenSchedulesOrSubscribes(w, id, ResolveChild(child), Reject(child));
  }

  /** The root promise.ts thenable branch on a pending MyPromise `id`: a new `called` cell
      and one guarded reaction pair on `id`. */
  lemma GuardedPending(w: World, child: nat, id: nat)
    requires Wf(w) && child < |w.promises| && id < |w.promises| && w.promises[id].state == Pending
    ensures var n, cell, x := |w.promises|, |w.flags|, w.promises[id];
      GuardedSubscribe(w, child, id) == w.(promises := (w.promises + [Fresh()])[id := x.(
        onFulfilled := x.onFulfilled + [Reaction(Guarded(cell, child, true), n)],
        onRejected := x.onRejected + [Reaction(Guarded(cell, child, false), n)])],
        flags := w.flags + [false])
  {
    var cell := |w.flags|;
    var w1 := w.(flags := w.flags + [false]);
    WfGrows(w, w1);
    ThenSchedulesOrSubscribes(w1, id, Guarded(cell, child, true), Guarded(cell, child, false));
  }

  /** In root promise.ts a MyPromise goes through adoption and then the thenable branch. */
  lemma LegacyResolution(w: World, child: nat, id: nat)
    requires Wf(w) && w.revision == Legacy && child < |w.promises| && id < |w.promises| && child != id
    ensures Resolution(w, child, Promise(id)) == GuardedSubscribe(Adopt(w, child, id), child, id)
  {
  }

  lemma UpdateTwice<T>(s: seq<T>, a: T, b: T, i: nat, x1: T, x2: T)
    requires i < |s|
    ensures ((s + [a])[i := x1] + [b])[i := x2] == (s + [a, b])[i := x2]
  {
  }

  /** Root promise.ts, first two turns: `id` is fulfilled, then its unguarded reaction
      queues the child's fulfilment; the guarded one is still waiting. */
  lemma LegacyAdoptionTwoTurns(r: World, child: nat, id: nat, v: Value, n: nat, cell: nat)
    requires Wf(r) && child < n && id < n && child != id && n + 1 < |r.promises| && cell < |r.flags|
    requires !r.flags[cell] && Inert(v)
    requires r.promises[child].state == Pending && r.promises[n].state == Pending
    requires r.promises[n + 1].state == Pending
    requires r.promises[id] == PromiseRecord(Pending, Null,
      [Reaction(ResolveChild(child), n), Reaction(Guarded(cell, child, true), n + 1)],
      [Reaction(Reject(child), n), Reaction(Guarded(cell, child, false), n + 1)])
    requires r.queue == [Commit(id, Fulfilled, v)]
    ensures var s2 := Step(Step(r));
      && s2.queue == [Handle(id, Guarded(cell, child, true), n + 1),
                      Commit(child, Fulfilled, v), Commit(n, Fulfilled, Undefined)]
      && cell < |s2.flags| && !s2.flags[cell] && n + 1 < |s2.promises|
      && s2.promises[id].result == v && s2.promises[child].state == Pending
      && s2.promises[n + 1].state == Pending
  {
    CommitStep(r);
    var s1 := Step(r);
    assert s1.queue == [Handle(id, ResolveChild(child), n), Handle(id, Guarded(cell, child, true), n + 1)];
    ResolveChildStep(s1);
  }

  /** Root promise.ts: the child is subscribed to `id` twice, so once `id` is fulfilled the
      child's fulfilment with `v` is queued twice, and the child's own callbacks will be
      drained twice. */
  lemma AdoptionQueuesTwice(w: World, child: nat, id: nat, v: Value)
    requires AdoptionStart(w, child, id, v) && w.revision == Legacy
    ensures var r, n := Resolution(w, child, Promise(id)), |w.promises|;
      Run(r, 3).queue == [Commit(child, Fulfilled, v), Commit(n, Fulfilled, Undefined),
                          Commit(child, Fulfilled, v), Commit(n + 1, Fulfilled, Undefined)]
  {
    var n, cell := |w.promises|, |w.flags|;
    var r := Resolution(w, child, Promise(id));
    LegacyAdoptionWorld(w, child, id);
    assert r.promises[id] == PromiseRecord(Pending, Null,
      [Reaction(ResolveChild(child), n), Reaction(Guarded(cell, child, true), n + 1)],
      [Reaction(Reject(child), n), Reaction(Guarded(cell, child, false), n + 1)]);
    assert r.promises[child] == w.promises[child];
    LegacyAdoptionRun(r, child, id, v, n, cell);
    RunThree(r);
  }

  /** Root promise.ts, third turn: the guarded reaction queues the child's fulfilment again. */
  lemma LegacyAdoptionRun(r: World, child: nat, id: nat, v: Value, n: nat, cell: nat)
    requires Wf(r) && child < n && id < n && child != id && n + 1 < |r.promises| && cell < |r.flags|
    requires !r.flags[cell] && Inert(v)
    requires r.promises[child].state == Pending && r.promises[n].state == Pending
    requires r.promises[n + 1].state == Pending
    requires r.promises[id] == PromiseRecord(Pending, Null,
      [Reaction(ResolveChild(child), n), Reaction(Guarded(cell, child, true), n + 1)],
      [Reaction(Reject(child), n), Reaction(Guarded(cell, child, false), n + 1)])
    requires r.queue == [Commit(id, Fulfilled, v)]
    ensures Step(Step(Step(r))).queue == [Commit(child, Fulfilled, v), Commit(n, Fulfilled, Undefined),
                                          Commit(child, Fulfilled, v), Commit(n + 1, Fulfilled, Undefined)]
  {
    LegacyAdoptionTwoTurns(r, child, id, v, n, cell);
    GuardedStep(Step(Step(r)));
  }

  /** The task of `all`'s fulfilled handler for input `index`: the value is stored and
      counted; the combined promise's fulfilment with the whole array is queued when the
      count reaches the input length; then the handler's own child is fulfilled with
      `undefined`. */
  lemma AllValueTaskStep(w: World)
    requires Wf(w) && w.queue != [] && w.queue[0].Handle? && w.queue[0].handler.AllValue?
    requires var t := w.queue[0]; var g := w.aggregates[t.handler.agg];
      && g.target != t.child && w.promises[g.target].state == Pending
      && w.promises[t.child].state == Pending
    ensures var t, r := w.queue[0], Step(w);
      var a, arg := t.handler.agg, w.promises[t.parent].result;
      var g := w.aggregates[a];
      var slots := StoreAt(g.slots, t.handler.index, arg);
      var done := if g.count + 1 == g.length then [Commit(g.target, Fulfilled, List(slots))] else [];
      && r.promises == w.promises
      && r.aggregates == w.aggregates[a := g.(count := g.count + 1, slots := slots)]
      && r.queue == w.queue[1..] + done + [Commit(t.child, Fulfilled, Undefined)]
  {
    assert TaskOk(w.queue[0], |w.promises|, |w.aggregates|, |w.flags|);
  }

  /** The world `all([x, y])` leaves, as for `race` but with the aggregate of two inputs. */
  lemma AllSetup(w: World, x: Value, y: Value)
    requires Wf(w) && ValueOk(x, |w.promises|) && ValueOk(y, |w.promises|)
    requires !x.Promise? && !y.Promise?
    ensures All(w, List([x, y])).world.promises == w.promises + [Fresh(),
      Feeder(AllOf(|w.promises|, |w.aggregates|), 0, |w.promises| + 2), Fresh(),
      Feeder(AllOf(|w.promises|, |w.aggregates|), 1, |w.promises| + 4), Fresh()]
    ensures All(w, List([x, y])).world.queue
      == w.queue + [Commit(|w.promises| + 1, Fulfilled, x), Commit(|w.promises| + 3, Fulfilled, y)]
    ensures All(w, List([x, y])).world.aggregates == w.aggregates + [Aggregate(|w.promises|, 2, 0, [])]
  {
    var n, a := |w.promises|, |w.aggregates|;
    ValueOkGrows(x, n, n + 1);
    ValueOkGrows(y, n, n + 1);
    AllSubscribes(w, x, y);
    SubscribeTwo(NewAggregate(Allocate(w), n, 2), w.promises, AllOf(n, a), x, y);
  }

  /** The four turns after `all([x, y])`: both feeders settle, the first value is stored,
      and the second completes the array, which queues the combined promise's fulfilment. */
  lemma AllFirstTurns(w: World, ps: seq<PromiseRecord>, gs: seq<Aggregate>, x: Value, y: Value)
    requires var n, k := |ps|, AllOf(|ps|, |gs|);
      && Wf(w) && w.promises == ps + [Fresh(), Feeder(k, 0, n + 2), Fresh(), Feeder(k, 1, n + 4), Fresh()]
      && w.aggregates == gs + [Aggregate(n, 2, 0, [])]
    requires w.queue == [Commit(|ps| + 1, Fulfilled, x), Commit(|ps| + 3, Fulfilled, y)]
    ensures var s4, n := Step(Step(Step(Step(w)))), |ps|;
      && s4.queue == [Commit(n + 2, Fulfilled, Undefined), Commit(n, Fulfilled, List([x, y])),
                      Commit(n + 4, Fulfilled, Undefined)]
      && s4.promises[n] == Fresh() && s4.promises[n + 2] == Fresh() && |s4.promises| == n + 5
  {
    AllFeedTurns(w, ps, gs, x, y);
    AllHandlerTurns(Step(Step(w)), |ps|, |gs|, x, y);
  }

  /** The two feeders settle; each queues the task of its `all` handler. */
  lemma AllFeedTurns(w: World, ps: seq<PromiseRecord>, gs: seq<Aggregate>, x: Value, y: Value)
    requires var n, k := |ps|, AllOf(|ps|, |gs|);
      && Wf(w) && w.promises == ps + [Fresh(), Feeder(k, 0, n + 2), Fresh(), Feeder(k, 1, n + 4), Fresh()]
      && w.aggregates == gs + [Aggregate(n, 2, 0, [])]
    requires w.queue == [Commit(|ps| + 1, Fulfilled, x), Commit(|ps| + 3, Fulfilled, y)]
    ensures var s2, n, a := Step(Step(w)), |ps|, |gs|;
      && s2.queue == [Handle(n + 1, AllValue(a, 0), n + 2), Handle(n + 3, AllValue(a, 1), n + 4)]
      && s2.promises[n] == Fresh() && s2.promises[n + 2] == Fresh() && s2.promises[n + 4] == Fresh()
      && s2.promises[n + 1].result == x && s2.promises[n + 3].result == y && |s2.promises| == n + 5
      && |s2.aggregates| == a + 1 && s2.aggregates[a] == Aggregate(n, 2, 0, [])
  {
    var n, a := |ps|, |gs|;
    CommitStep(w);
    var s1 := Step(w);
    assert s1.queue == [Commit(n + 3, Fulfilled, y), Handle(n + 1, AllValue(a, 0), n + 2)];
    CommitStep(s1);
  }

  /** The first handler stores `x`; the second stores `y`, completes the count and queues
      the combined promise's fulfilment with `[x, y]`. */
  lemma AllHandlerTurns(s2: World, n: nat, a: nat, x: Value, y: Value)
    requires Wf(s2) && |s2.promises| == n + 5 && |s2.aggregates| == a + 1
    requires s2.queue == [Handle(n + 1, AllValue(a, 0), n + 2), Handle(n + 3, AllValue(a, 1), n + 4)]
    requires s2.promises[n] == Fresh() && s2.promises[n + 2] == Fresh() && s2.promises[n + 4] == Fresh()
    requires s2.promises[n + 1].result == x && s2.promises[n + 3].result == y
    requires s2.aggregates[a] == Aggregate(n, 2, 0, [])
    ensures var s4 := Step(Step(s2));
      && s4.queue == [Commit(n + 2, Fulfilled, Undefined), Commit(n, Fulfilled, List([x, y])),
                      Commit(n + 4, Fulfilled, Undefined)]
      && s4.promises[n] == Fresh() && s4.promises[n + 2] == Fresh() && |s4.promises| == n + 5
  {
    AllValueTaskStep(s2);
    var s3 := Step(s2);
    assert StoreAt([], 0, x) == [x];
    assert s3.aggregates[a] == Aggregate(n, 2, 1, [x]);
    AllValueTaskStep(s3);
    assert StoreAt([x], 1, y) == [x, y];
  }

  /** `all([x, y])` for inputs that are not MyPromises: after six turns the combined
      promise is fulfilled with `[x, y]`, the values in input order. */
  lemma AllCollects(w: World, x: Value, y: Value)
    requires Wf(w) && ValueOk(x, |w.promises|) && ValueOk(y, |w.promises|) && w.queue == []
    requires !x.Promise? && !y.Promise?
    ensures Run(All(w, List([x, y])).world, 6).promises[|w.promises|] == PromiseRecord(Fulfilled, List([x, y]), [], [])
  {
    var r := All(w, List([x, y])).world;
    AllSetup(w, x, y);
    AllRun(r, w.promises, w.aggregates, x, y);
  }

  lemma AllRun(r: World, ps: seq<PromiseRecord>, gs: seq<Aggregate>, x: Value, y: Value)
    requires var n, k := |ps|, AllOf(|ps|, |gs|);
      && Wf(r) && r.promises == ps + [Fresh(), Feeder(k, 0, n + 2), Fresh(), Feeder(k, 1, n + 4), Fresh()]
      && r.aggregates == gs + [Aggregate(n, 2, 0, [])]
    requires r.queue == [Commit(|ps| + 1, Fulfilled, x), Commit(|ps| + 3, Fulfilled, y)]
    ensures Run(r, 6).promises[|ps|] == PromiseRecord(Fulfilled, List([x, y]), [], [])
  {
    var n := |ps|;
    AllFirstTurns(r, ps, gs, x, y);
    var s4 := Step(Step(Step(Step(r))));
    CommitStep(s4);
    var s5 := Step(s4);
    assert s5.queue == [Commit(n, Fulfilled, List([x, y])), Commit(n + 4, Fulfilled, Undefined)];
    FinalCommit(s5, n, PromiseRecord(Fulfilled, List([x, y]), [], []));
    RunSix(r);
  }

  // ----- finally passes the outcome through -----

  /** The handler `finally`'s inner `then` replays the parent's outcome with. */
  function Replay(p: PromiseRecord): (h: Handler)
    ensures p.state == Fulfilled ==> h == Return(p.result)
    ensures p.state != Fulfilled ==> h == Throw(p.result)
  {
    if p.state == Fulfilled then Return(p.result) else Throw(p.result)
  }

  /** The task of a callback that throws `e`: the child's rejection with `e` is queued. */
  lemma ThrowHandlerStep(w: World)
    requires Wf(w) && w.queue != [] && w.queue[0].Handle? && w.queue[0].handler.Throw?
    requires w.promises[w.queue[0].child].state == Pending
    ensures var t, r := w.queue[0], Step(w);
      && r.promises == w.promises
      && r.queue == w.queue[1..] + [Commit(t.child, Rejected, t.handler.e)]
  {
    assert TaskOk(w.queue[0], |w.promises|, |w.aggregates|, |w.flags|);
  }

  /** In src/promise.ts a MyPromise other than the child is only adopted. */
  lemma CanonicalResolution(w: World, child: nat, id: nat)
    requires Wf(w) && w.revision == Canonical && child < |w.promises| && id < |w.promises| && child != id
    requires w.promises[id].state == Pending
    ensures Resolution(w, child, Promise(id)) == ThenWith(w, id, ResolveChild(child), Reject(child)).world
  {
  }

  /** The first turn after `p.finally(cb)` on a settled `p`, when `cb` returns a value `c`
      that is not a MyPromise: `MyPromise.resolve(c)` (promise n+1) with a `then` that
      replays `p`'s outcome (its child n+2), which the `finally` child n adopts. */
  lemma FinallyFirstTurn(s0: World, ps: seq<PromiseRecord>, parent: nat, cb: Callback)
    requires FinallyStart(s0, ps, parent, cb)
    ensures var s1, n := Step(s0), |ps|;
      && s1.promises == ps + [Fresh(),
           PromiseRecord(Pending, Null, [Reaction(Replay(ps[parent]), n + 2)], [Reaction(Rethrow, n + 2)]),
           PromiseRecord(Pending, Null, [Reaction(ResolveChild(n), n + 3)], [Reaction(Reject(n), n + 3)]),
           Fresh()]
      && s1.queue == [Commit(n + 1, Fulfilled, cb.value)]
  {
    OnlyTaskStep(s0);
    FinallyHandlerTurn(s0.(queue := []), ps, parent, cb, s0.queue[0].handler);
  }

  /** The world `p.finally(cb)` leaves on a settled `p` (promise `parent`) with an empty
      queue: the `finally` child is the last record and the handler task is queued. */
  predicate FinallyStart(s0: World, ps: seq<PromiseRecord>, parent: nat, cb: Callback) {
    && Wf(s0) && s0.revision == Canonical && s0.promises == ps + [Fresh()] && parent < |ps|
    && ps[parent].state != Pending
    && s0.queue == [Handle(parent, if ps[parent].state == Fulfilled then FinallyValue(cb) else FinallyReason(cb), |ps|)]
    && CallbackOk(cb, |ps| + 1) && !cb.Throws? && !cb.value.Promise?
  }

  /** The handler task of `finally`, in a world whose last record is the `finally` child. */
  lemma FinallyHandlerTurn(rest: World, ps: seq<PromiseRecord>, parent: nat, cb: Callback, h: Handler)
    requires Wf(rest) && rest.revision == Canonical && rest.queue == []
    requires rest.promises == ps + [Fresh()] && parent < |ps|
    requires ps[parent].state != Pending
    requires h == (if ps[parent].state == Fulfilled then FinallyValue(cb) else FinallyReason(cb))
    requires CallbackOk(cb, |ps| + 1) && !cb.Throws? && !cb.value.Promise?
    ensures var r, n := RunHandle(rest, parent, h, |ps|), |ps|;
      && r.promises == ps + [Fresh(),
           PromiseRecord(Pending, Null, [Reaction(Replay(ps[parent]), n + 2)], [Reaction(Rethrow, n + 2)]),
           PromiseRecord(Pending, Null, [Reaction(ResolveChild(n), n + 3)], [Reaction(Reject(n), n + 3)]),
           Fresh()]
      && r.queue == [Commit(n + 1, Fulfilled, cb.value)]
  {
    var n, p := |ps|, ps[parent];
    assert rest.promises[parent] == p;
    FinallyHandlers(rest, cb, p.result);
    var ran := RunHandler(rest, h, p.result);
    var p1 := PromiseRecord(Pending, Null, [Reaction(Replay(p), n + 2)], [Reaction(Rethrow, n + 2)]);
    assert ran.completion == Returned(Promise(n + 2));
    FinallyAdoptTurn(ran.world, ps, p1);
  }

  /** The `finally` child n adopts the pending promise n+2 the handler returned. */
  lemma FinallyAdoptTurn(rw: World, ps: seq<PromiseRecord>, p1: PromiseRecord)
    requires Wf(rw) && rw.revision == Canonical && rw.promises == ps + [Fresh(), p1, Fresh()]
    ensures var r, n := Resolution(rw, |ps|, Promise(|ps| + 2)), |ps|;
      && r.promises == ps + [Fresh(), p1,
           PromiseRecord(Pending, Null, [Reaction(ResolveChild(n), n + 3)], [Reaction(Reject(n), n + 3)]),
           Fresh()]
      && r.queue == rw.queue
  {
    var n := |ps|;
    CanonicalResolution(rw, n, n + 2);
    ThenSchedulesOrSubscribes(rw, n + 2, ResolveChild(n), Reject(n));
    var p2 := PromiseRecord(Pending, Null, [Reaction(ResolveChild(n), n + 3)], [Reaction(Reject(n), n + 3)]);
    var q := rw.promises[n + 2];
    assert q.(onFulfilled := q.onFulfilled + [Reaction(ResolveChild(n), n + 3)],
              onRejected := q.onRejected + [Reaction(Reject(n), n + 3)]) == p2;
    UpdateThird(ps, Fresh(), p1, Fresh(), Fresh(), p2);
  }

  lemma UpdateThird<T>(s: seq<T>, a: T, b: T, c: T, d: T, e: T)
    ensures ((s + [a, b, c]) + [d])[|s| + 2 := e] == s + [a, b, e, d]
  {
  }

  /** A world whose queue holds a single handler task steps to that task's outcome. */
  lemma OnlyTaskStep(w: World)
    requires Wf(w) && |w.queue| == 1 && w.queue[0].Handle?
    ensures var t := w.queue[0];
      t.parent < |w.promises| && t.child < |w.promises| && HandlerIn(w, t.handler)
      && Step(w) == RunHandle(w.(queue := []), t.parent, t.handler, t.child)
  {
    assert TaskOk(w.queue[0], |w.promises|, |w.aggregates|, |w.flags|);
    assert w.queue[1..] == [];
  }

  /** The five turns after the first: `MyPromise.resolve(c)` is fulfilled, the replaying
      callback settles n+2 like the parent, and n+2's reaction settles the `finally` child. */
  lemma FinallyLaterTurns(s1: World, ps: seq<PromiseRecord>, p: PromiseRecord, c: Value)
    requires var n := |ps|;
      && Wf(s1) && s1.promises == ps + [Fresh(),
           PromiseRecord(Pending, Null, [Reaction(Replay(p), n + 2)], [Reaction(Rethrow, n + 2)]),
           PromiseRecord(Pending, Null, [Reaction(ResolveChild(n), n + 3)], [Reaction(Reject(n), n + 3)]),
           Fresh()]
      && s1.queue == [Commit(n + 1, Fulfilled, c)]
    requires p.state != Pending && (p.state == Fulfilled ==> Inert(p.result))
    ensures var s5, n := Step(Step(Step(Step(s1)))), |ps|;
      && s5.queue == [Commit(n, p.state, p.result), Commit(n + 3, Fulfilled, Undefined)]
      && s5.promises[n] == Fresh()
  {
    var n := |ps|;
    CommitStep(s1);
    var s2 := Step(s1);
    assert s2.queue == [Handle(n + 1, Replay(p), n + 2)];
    assert s2.promises[n + 2] == s1.promises[n + 2];
    var s3 := Step(s2);
    if p.state == Fulfilled {
      ReturnHandlerStep(s2);
    } else {
      ThrowHandlerStep(s2);
    }
    assert s3.queue == [Commit(n + 2, p.state, p.result)];
    assert s3.promises == s2.promises;
    CommitStep(s3);
    var s4 := Step(s3);
    if p.state == Fulfilled {
      assert s4.queue == [Handle(n + 2, ResolveChild(n), n + 3)];
      ResolveChildStep(s4);
    } else {
      assert s4.queue == [Handle(n + 2, Reject(n), n + 3)];
      SettleHandlerStep(s4);
    }
  }

  /** `p.finally(cb)` on a settled `p`, when `cb` returns a value that is not a MyPromise:
      after six turns the `finally` child has `p`'s state and result. */
  lemma FinallyKeepsOutcome(w: World, parent: nat, cb: Callback)
    requires Wf(w) && w.revision == Canonical && parent < |w.promises| && w.queue == []
    requires w.promises[parent].state != Pending
    requires w.promises[parent].state == Fulfilled ==> Inert(w.promises[parent].result)
    requires CallbackOk(cb, |w.promises| + 1) && !cb.Throws? && !cb.value.Promise?
    ensures var m, p := Finally(w, parent, cb), w.promises[parent];
      Run(m.world, 6).promises[m.id] == PromiseRecord(p.state, p.result, [], [])
  {
    var m := Finally(w, parent, cb);
    ThenSchedulesOrSubscribes(w, parent, FinallyValue(cb), FinallyReason(cb));
    FinallyRun(m.world, w.promises, parent, cb);
  }

  lemma FinallyRun(s0: World, ps: seq<PromiseRecord>, parent: nat, cb: Callback)
    requires FinallyStart(s0, ps, parent, cb)
    requires ps[parent].state == Fulfilled ==> Inert(ps[parent].result)
    ensures Run(s0, 6).promises[|ps|] == PromiseRecord(ps[parent].state, ps[parent].result, [], [])
  {
    FinallyFirstTurn(s0, ps, parent, cb);
    var s1 := Step(s0);
    FinallyLaterTurns(s1, ps, ps[parent], cb.value);
    var s5 := Step(Step(Step(Step(s1))));
    FinalCommit(s5, |ps|, ps[parent]);
    RunSix(s0);
  }

  /** The settle task at the head of the queue writes the outcome into a fresh record. */
  lemma FinalCommit(s: World, n: nat, p: PromiseRecord)
    requires Wf(s) && n < |s.promises| && s.promises[n] == Fresh() && s.queue != []
    requires s.queue[0] == Commit(n, p.state, p.result)
    ensures Step(s).promises[n] == PromiseRecord(p.state, p.result, [], [])
  {
    CommitStep(s);
  }

  /** Six turns are six steps. */
  lemma RunSix(w: World)
    requires Wf(w)
    ensures Run(w, 6) == Step(Step(Step(Step(Step(Step(w))))))
  {
  }
}
