/** The bare promise of source/Promise.js: a status, a value and a reason with
    guarded transitions, no callbacks, and an executor whose exception is not
    caught. */
module BarePromise {
  import opened Js

  /** The three fields of a promise, as a value. */
  datatype Snapshot = Snapshot(status: State, value: Value, reason: Value)

  /** The fields right after the constructor's first three assignments. */
  const Initial := Snapshot(Pending, Null, Null)

  /** What `resolve(v)` leaves: only a pending promise moves, to fulfilled. */
  function Resolved(s: Snapshot, v: Value): (t: Snapshot)
    ensures s.status == Pending ==> t == Snapshot(Fulfilled, v, s.reason)
    ensures s.status != Pending ==> t == s
  {
    if s.status == Pending then s.(status := Fulfilled, value := v) else s
  }

  /** What `reject(r)` leaves: only a pending promise moves, to rejected. */
  function RejectedWith(s: Snapshot, r: Value): (t: Snapshot)
    ensures s.status == Pending ==> t == Snapshot(Rejected, s.value, r)
    ensures s.status != Pending ==> t == s
  {
    if s.status == Pending then s.(status := Rejected, reason := r) else s
  }

  /** The fields after foreign code performs `actions` with the bound `resolve`
      and `reject`; a `Raise` stops it and leaves the fields as they are. */
  function Perform(s: Snapshot, actions: seq<Action>): Snapshot
    decreases |actions|
  {
    if actions == [] then s
    else match actions[0]
      case CallResolve(v) => Perform(Resolved(s, v), actions[1..])
      case CallReject(r) => Perform(RejectedWith(s, r), actions[1..])
      case Raise(_) => s
  }

  /** The exception that escapes from `actions`, if any: the first `Raise`. */
  function Escaping(actions: seq<Action>): (e: Option<Value>)
    ensures e.Some? <==> exists k :: 0 <= k < |actions| && actions[k].Raise?
    ensures e.Some? ==> exists k :: 0 <= k < |actions| && actions[k] == Raise(e.value)
                                 && forall j :: 0 <= j < k ==> !actions[j].Raise?
  {
    if actions == [] then None
    else if actions[0].Raise? then Some(actions[0].arg)
    else
      var e := Escaping(actions[1..]);
      assert forall k :: 1 <= k < |actions| ==> actions[k] == actions[1..][k - 1];
      e
  }

  /** Once the status is not pending, nothing foreign code does changes a field. */
  lemma {:induction false} SettledIsFinal(s: Snapshot, actions: seq<Action>)
    requires s.status != Pending
    ensures Perform(s, actions) == s
  {
    if actions != [] && !actions[0].Raise? {
      SettledIsFinal(s, actions[1..]);
    }
  }

  /** The status moves at most once: the first call of `resolve` or `reject`
      on a new promise decides its fields, whatever foreign code does next. */
  lemma {:induction false} FirstCallDecides(actions: seq<Action>)
    requires actions != []
    ensures Perform(Initial, actions) ==
      match actions[0]
      case CallResolve(v) => Snapshot(Fulfilled, v, Null)
      case CallReject(r) => Snapshot(Rejected, Null, r)
      case Raise(_) => Initial
  {
    match actions[0]
    case CallResolve(v) => SettledIsFinal(Resolved(Initial, v), actions[1..]);
    case CallReject(r) => SettledIsFinal(RejectedWith(Initial, r), actions[1..]);
    case Raise(_) =>
  }

  /** A promise of source/Promise.js. */
  class MyPromise {
    var status: State
    var value: Value
    var reason: Value

    function Fields(): Snapshot
      reads this
    {
      Snapshot(status, value, reason)
    }

    /** `resolve(value)`: a guarded transition from pending to fulfilled. */
    method Resolve(v: Value)
      modifies this
      ensures Fields() == Resolved(old(Fields()), v)
    {
      if status == Pending {
        status := Fulfilled;
        value := v;
      }
    }

    /** `reject(reason)`: a guarded transition from pending to rejected. */
    method Reject(r: Value)
      modifies this
      ensures Fields() == RejectedWith(old(Fields()), r)
    {
      if status == Pending {
        status := Rejected;
        reason := r;
      }
    }

    /** `new myPromise(fn)`: the fields start pending with null value and reason,
        then the executor runs synchronously with `resolve` and `reject` bound to
        this promise. An exception it throws is not caught: it escapes, and the
        promise keeps the fields it had when the exception was thrown. */
    static method New(executor: seq<Action>) returns (p: MyPromise, escaped: Option<Value>)
      ensures fresh(p)
      ensures p.Fields() == Perform(Initial, executor)
      ensures escaped == Escaping(executor)
    {
      p := new MyPromise;
      p.status, p.value, p.reason := Pending, Null, Null;
      escaped := None;
      var i := 0;
      while i < |executor|
        invariant 0 <= i <= |executor|
        invariant Perform(p.Fields(), executor[i..]) == Perform(Initial, executor)
        invariant Escaping(executor[i..]) == Escaping(executor)
      {
        assert executor[i..][1..] == executor[i + 1..];
        match executor[i] {
          case CallResolve(v) => p.Resolve(v);
          case CallReject(r) => p.Reject(r);
          case Raise(e) =>
            escaped := Some(e);
            return;
        }
        i := i + 1;
      }
    }
  }

  /** The sample at the end of source/Promise.js ends fulfilled with 2222222. */
  method Sample() returns (p: MyPromise)
    ensures p.status == Fulfilled && p.value == Num(2222222) && p.reason == Null
  {
    var escaped;
    p, escaped := MyPromise.New([CallResolve(Num(2222222))]);
  }
}
