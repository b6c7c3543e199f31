/** JavaScript values as far as MyPromise and its resolution procedure tell them apart.

  The code inspects a value only through `x === promise2`, `x instanceof MyPromise`,
  `x !== null && (typeof x === 'object' || typeof x === 'function')`, reading `x.then`, and
  `typeof then === 'function'`.  Each of those outcomes is a constructor here, so the dynamic
  shape checks become pattern matches.  A callable `then` is represented by what it does when
  it is called (a `Script`), which is all the resolution procedure can observe of it.
 */
module Values {

  datatype Option<+T> = None | Some(value: T)

  /** The constructor of an error object: `TypeError` or plain `Error`. */
  datatype ErrorKind = TypeError | PlainError

  datatype Value =
    | Undefined
    | Null
    | Num(n: int)
    | Str(s: string)
      /** An object or function whose `then` property is missing or not callable. */
    | Object(tag: nat)
      /** An error object, `new TypeError(message)` or `new Error(message)`. */
    | Error(kind: ErrorKind, message: string)
      /** An array.  A combinator's input array is taken to have no holes; a hole that
          `result[index] = v` opens in a result array is represented by `Undefined`. */
    | List(items: seq<Value>)
      /** `{status: 'fulfilled', value}` or `{status: 'rejected', reason}` built by `allSettled`. */
    | SettledRecord(fulfilled: bool, payload: Value)
      /** An object whose `then` getter throws `thrown`. */
    | ThrowingGetter(thrown: Value)
      /** An object whose `then` is a function; `script` is what one call of it does. */
    | Thenable(script: Script)
      /** A MyPromise instance, by its index in the promise table. */
    | Promise(id: nat)

  /** One synchronous call a script makes to one of its two function arguments. */
  datatype Call = CallResolve(arg: Value) | CallReject(arg: Value)

  /** User code that receives two functions `(resolve, reject)`: an executor passed to the
      MyPromise constructor, or the `then` method of a thenable.  It makes `calls` in order
      and then returns normally (`throws == None`) or throws `throws.value`. */
  datatype Script = Script(calls: seq<Call>, throws: Option<Value>)

  /** An argument passed where the code expects a callback (`onFulfilled`, `onRejected`,
      `onfinally`): something that is not a function, a function returning `value`, or a
      function throwing `value`.  Callbacks whose result depends on their argument are not
      modelled. */
  datatype Callback = NotCallable(value: Value) | Returns(value: Value) | Throws(value: Value)

  /** A value whose resolution fulfils with the value itself: neither a MyPromise nor an
      object whose `then` is callable or throws. */
  predicate Inert(x: Value) {
    !(x.Promise? || x.Thenable? || x.ThrowingGetter?)
  }

  const CycleError: Value := Error(TypeError, "Chaining cycle detected for promise")
  const NotIterableError: Value := Error(TypeError, "Argument is not iterable")
  const AllRejectedError: Value := Error(PlainError, "All promises were rejected")

  /** Every MyPromise that `v` refers to, however deeply, is one of the first `n` promises. */
  predicate ValueOk(v: Value, n: nat)
    decreases v
  {
    match v
    case Promise(id) => id < n
    case List(items) => forall i | 0 <= i < |items| :: ValueOk(items[i], n)
    case SettledRecord(_, payload) => ValueOk(payload, n)
    case ThrowingGetter(thrown) => ValueOk(thrown, n)
    case Thenable(script) =>
      && (forall i | 0 <= i < |script.calls| :: ValueOk(script.calls[i].arg, n))
      && (script.throws.Some? ==> ValueOk(script.throws.value, n))
    case _ => true
  }

  predicate ScriptOk(s: Script, n: nat) {
    ValueOk(Thenable(s), n)
  }

  predicate CallbackOk(cb: Callback, n: nat) {
    ValueOk(cb.value, n)
  }

  /** Allocating more promises never invalidates a reference. */
  lemma {:induction false} ValueOkGrows(v: Value, n: nat, m: nat)
    requires ValueOk(v, n) && n <= m
    ensures ValueOk(v, m)
    decreases v
  {
    match v
    case List(items) =>
      forall i | 0 <= i < |items| ensures ValueOk(items[i], m) {
        ValueOkGrows(items[i], n, m);
      }
    case SettledRecord(_, payload) => ValueOkGrows(payload, n, m);
    case ThrowingGetter(thrown) => ValueOkGrows(thrown, n, m);
    case Thenable(script) =>
      forall i | 0 <= i < |script.calls| ensures ValueOk(script.calls[i].arg, m) {
        assert script.calls[i] in script.calls;
        ValueOkGrows(script.calls[i].arg, n, m);
      }
      if script.throws.Some? {
        ValueOkGrows(script.throws.value, n, m);
      }
    case _ =>
  }

  /** `result[index] = value` on a JavaScript array: the array grows to `index + 1`
      when needed, and the gap it opens is left as holes. */
  function StoreAt(a: seq<Value>, index: nat, v: Value): (r: seq<Value>)
    ensures |r| == if index < |a| then |a| else index + 1
    ensures r[index] == v
    ensures forall j | 0 <= j < |a| && j != index :: r[j] == a[j]
    ensures forall j | |a| <= j < index :: r[j] == Undefined
  {
    if index < |a| then a[index := v]
    else a + seq(index - |a|, _ => Undefined) + [v]
  }

  lemma StoreAtOk(a: seq<Value>, index: nat, v: Value, n: nat)
    requires forall j | 0 <= j < |a| :: ValueOk(a[j], n)
    requires ValueOk(v, n)
    ensures forall j | 0 <= j < |StoreAt(a, index, v)| :: ValueOk(StoreAt(a, index, v)[j], n)
  {
    var r := StoreAt(a, index, v);
    forall j | 0 <= j < |r| ensures ValueOk(r[j], n) {
      if j == index {
      } else if j < |a| {
      } else {
        assert r[j] == Undefined;
      }
    }
  }
}
