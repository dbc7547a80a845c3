/**
 The JavaScript values that flow through the promise core, with just enough
 structure to decide what the resolution procedure does with them: whether a
 value is an object, whether reading its `then` property throws, and how a
 foreign thenable's `then` behaves when it is called.
 */
module Values {

  /** Identity of a `PromiseA` instance: its index in the world's promise table. */
  type PromiseId = nat

  /** Identity of one `called` flag of the resolution procedure. */
  type GuardId = nat

  /** The error objects the core itself creates. */
  datatype ErrorKind = TypeError | ReferenceError

  /**
   A JavaScript value, classified by how `typeof` and a read of `.then`
   treat it:
   - `Undefined`, `Null` and `Prim` are not objects (`Prim` stands for any
     boolean, number, string, symbol or bigint);
   - `Object` and `Error` are objects or functions whose `then` is not a function;
   - `ThrowingThen` is an object whose `then` getter throws `thrown`;
   - `Thenable` is a foreign object whose `then` is a function that, when
     called with two callbacks, performs the steps of `script` synchronously;
   - `Promise` is an instance of `PromiseA`.
   */
  datatype Value =
    | Undefined
    | Null
    | Prim(p: int)
    | Object(tag: int)
    | Error(kind: ErrorKind)
    | ThrowingThen(thrown: Value)
    | Thenable(script: seq<Step>)
    | Promise(id: PromiseId)

  /**
   One step of a script run by an executor or by a foreign `then`: call the
   first (fulfil) callback, call the second (reject) callback, or throw.
   A callback that throws aborts the rest of the script.
   */
  datatype Step = CallFulfil(arg: Value) | CallReject(arg: Value) | Throw(arg: Value)

  /** How a call ended: it returned a value or it threw one. */
  datatype Completion = Returns(value: Value) | Throws(error: Value)

  /** Whether `typeof` calls the value an object or a function, `null` excluded (promise.js:196). */
  predicate IsObject(x: Value) {
    !(x.Undefined? || x.Null? || x.Prim?)
  }

  /** True when reading `x.then` yields a function. */
  predicate HasCallableThen(x: Value) {
    x.Thenable? || x.Promise?
  }

  /** A measure that decreases from a thenable to the values its script passes on. */
  function Size(x: Value): nat
    decreases x, 1
  {
    match x
    case ThrowingThen(e) => 1 + Size(e)
    case Thenable(s) => 1 + StepsSize(s, 0)
    case _ => 1
  }

  /** The measure of the steps of `s` from index `i` on. */
  function StepsSize(s: seq<Step>, i: nat): nat
    requires i <= |s|
    decreases Thenable(s), 0, |s| - i
  {
    if i == |s| then 0 else 1 + Size(s[i].arg) + StepsSize(s, i + 1)
  }

  function Max(a: nat, b: nat): nat {
    if a < b then b else a
  }

  /** One more than the largest `PromiseA` id that `x` mentions at any depth, or 0. */
  function Bound(x: Value): nat
    decreases x, 1
  {
    match x
    case Promise(id) => id + 1
    case ThrowingThen(e) => Bound(e)
    case Thenable(s) => StepsBound(s, 0)
    case _ => 0
  }

  function StepsBound(s: seq<Step>, i: nat): nat
    requires i <= |s|
    decreases Thenable(s), 0, |s| - i
  {
    if i == |s| then 0 else Max(Bound(s[i].arg), StepsBound(s, i + 1))
  }

  /** Every `PromiseA` that `x` mentions exists in a world of `n` promises. */
  predicate ValueIn(x: Value, n: nat) {
    Bound(x) <= n
  }

  /** The same for every value the steps of `s` from index `i` on pass on. */
  predicate ScriptIn(s: seq<Step>, i: nat, n: nat)
    requires i <= |s|
  {
    StepsBound(s, i) <= n
  }

  predicate CompletionIn(c: Completion, n: nat) {
    match c
    case Returns(v) => ValueIn(v, n)
    case Throws(e) => ValueIn(e, n)
  }
}
