/** The JavaScript values the three promise implementations can tell apart, the
    functions a caller hands to `then`, and the abstract outcome of the Promise
    Resolution Procedure (section 2.3 of Promises/A+). */
module Js {

  datatype Option<T> = None | Some(value: T)

  /** A promise's state. */
  datatype State = Pending | Fulfilled | Rejected

  /** Which registry a callback sits in, and so which field of its promise it reads. */
  datatype Side = FulfilSide | RejectSide

  /** A JavaScript value, as far as `typeof x`, `x === promise2` and `x.then` can
      distinguish it. */
  datatype Value =
    | Undefined
    | Null
    | Bool(b: bool)
    | Num(n: int)
    | Str(s: string)
      /** An object or function whose `then` property is absent or not callable. */
    | Object(id: nat)
      /** A promise of the same implementation, by identity. */
    | PromiseRef(id: nat)
      /** A foreign object whose `then` is a function; calling `then(onY, onErr)`
          performs `script` synchronously. */
    | Thenable(script: seq<Action>)
      /** An object whose `then` getter throws `error`. */
    | ThrowingThen(error: Value)
    | TypeError(message: string)
    | ReferenceError(message: string)

  /** What foreign code (an executor, or a foreign `then`) does with the two
      functions it is handed: call the first, call the second, or throw. A
      `Raise` ends the script. */
  datatype Action = CallResolve(arg: Value) | CallReject(arg: Value) | Raise(arg: Value)

  /** The error a promise is rejected with when a handler returns that very promise. */
  const CycleError: Value := TypeError("Chaining cycle detected for promise")

  /** The values `x !== null && (typeof x === 'object' || typeof x === 'function')` accepts. */
  predicate IsObject(x: Value) {
    !(x.Undefined? || x.Null? || x.Bool? || x.Num? || x.Str?)
  }

  /** Every promise `v` mentions, however deeply, is one of the first `n`. */
  predicate ValueOk(v: Value, n: nat)
    decreases v, 1, 0
  {
    match v
    case PromiseRef(id) => id < n
    case Thenable(script) => ScriptOk(script, n, 0)
    case ThrowingThen(e) => ValueOk(e, n)
    case _ => true
  }

  predicate ScriptOk(script: seq<Action>, n: nat, i: nat)
    requires i <= |script|
    decreases Thenable(script), 0, |script| - i
  {
    i == |script| || (ValueOk(script[i].arg, n) && ScriptOk(script, n, i + 1))
  }

  lemma {:induction false} ValueOkGrows(v: Value, n: nat, n': nat)
    requires ValueOk(v, n) && n <= n'
    ensures ValueOk(v, n')
    decreases v, 1, 0
  {
    match v
    case Thenable(script) => ScriptOkGrows(script, n, n', 0);
    case ThrowingThen(e) => ValueOkGrows(e, n, n');
    case _ =>
  }

  lemma {:induction false} ScriptOkGrows(script: seq<Action>, n: nat, n': nat, i: nat)
    requires i <= |script| && ScriptOk(script, n, i) && n <= n'
    ensures ScriptOk(script, n', i)
    decreases Thenable(script), 0, |script| - i
  {
    if i < |script| {
      ValueOkGrows(script[i].arg, n, n');
      ScriptOkGrows(script, n, n', i + 1);
    }
  }

  lemma {:induction false} ScriptOkAt(script: seq<Action>, n: nat, i: nat, k: nat)
    requires i <= k < |script| && ScriptOk(script, n, i)
    ensures ValueOk(script[k].arg, n)
    decreases k - i
  {
    if i < k { ScriptOkAt(script, n, i + 1, k); }
  }

  /** A function a caller passes to `then` (after the defaulting of a
      non-function argument). */
  datatype UserFn =
    | Identity        // value => value
    | Rethrow         // err => { throw err }
    | Return(v: Value)
    | Throw(e: Value)

  /** An argument of `then`: a function, or anything else. */
  datatype Callback = Fn(f: UserFn) | NotFn(v: Value)

  /** How a function call ends: it returns a value or throws one. */
  datatype Outcome = Returned(v: Value) | Threw(e: Value)

  function Call(f: UserFn, arg: Value): (out: Outcome)
    ensures f.Identity? ==> out == Returned(arg)
    ensures f.Rethrow? ==> out == Threw(arg)
    ensures out.Returned? <==> f.Identity? || f.Return?
  {
    match f
    case Identity => Returned(arg)
    case Rethrow => Threw(arg)
    case Return(v) => Returned(v)
    case Throw(e) => Threw(e)
  }

  predicate UserFnOk(f: UserFn, n: nat) {
    match f
    case Return(v) => ValueOk(v, n)
    case Throw(e) => ValueOk(e, n)
    case _ => true
  }

  /** `typeof onFulfilled === 'function' ? onFulfilled : value => value`. */
  function FulfilHandler(a: Callback): (f: UserFn)
    ensures a.NotFn? ==> forall v :: Call(f, v) == Returned(v)
    ensures a.Fn? ==> f == a.f
  {
    if a.Fn? then a.f else Identity
  }

  /** `typeof onRejected === 'function' ? onRejected : err => { throw err }`. */
  function RejectHandler(a: Callback): (f: UserFn)
    ensures a.NotFn? ==> forall r :: Call(f, r) == Threw(r)
    ensures a.Fn? ==> f == a.f
  {
    if a.Fn? then a.f else Rethrow
  }

  predicate CallbackOk(a: Callback, n: nat) {
    match a
    case Fn(f) => UserFnOk(f, n)
    case NotFn(v) => ValueOk(v, n)
  }

  /** What the Resolution Procedure eventually does to the promise it settles. */
  datatype Decision =
    | FulfilWith(v: Value)
    | RejectWith(e: Value)
      /** `x` is another promise of the same implementation: the procedure calls
          its `then` and waits for it. */
    | Adopt(q: nat)
      /** A foreign `then` that never calls back and does not throw. */
    | NoSettlement

  /** The reference definition of the Resolution Procedure for the promise
      `target` and the value `x` (section 2.3 of Promises/A+), with the
      single-use `called` guard already applied: only the first thing a foreign
      `then` does counts. */
  function Resolution(target: nat, x: Value): (d: Decision)
    ensures x == PromiseRef(target) ==> d == RejectWith(CycleError)
    ensures !IsObject(x) || x.Object? || x.TypeError? || x.ReferenceError? ==> d == FulfilWith(x)
    ensures x.ThrowingThen? ==> d == RejectWith(x.error)
    ensures d.Adopt? ==> d.q != target
    decreases x
  {
    match x
    case PromiseRef(q) => if q == target then RejectWith(CycleError) else Adopt(q)
    case Thenable(script) =>
      if script == [] then NoSettlement
      else (match script[0]
            case CallResolve(y) => Resolution(target, y)
            case CallReject(e) => RejectWith(e)
            case Raise(e) => RejectWith(e))
    case ThrowingThen(e) => RejectWith(e)
    case _ => FulfilWith(x)
  }

  /** A chain of `depth` foreign thenables, each resolving with the next, around `v`. */
  function Nest(v: Value, depth: nat): (x: Value)
    ensures depth > 0 ==> x.Thenable?
  {
    if depth == 0 then v else Thenable([CallResolve(Nest(v, depth - 1))])
  }

  /** Deep thenable unwrapping: however deeply a plain value is wrapped in
      thenables, the promise is fulfilled with the innermost value. */
  lemma {:induction false} NestedThenablesUnwrap(target: nat, v: Value, depth: nat)
    requires !IsObject(v)
    ensures Resolution(target, Nest(v, depth)) == FulfilWith(v)
  {
    if depth > 0 { NestedThenablesUnwrap(target, v, depth - 1); }
  }
}
