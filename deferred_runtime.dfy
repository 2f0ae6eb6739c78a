/** utils/Promise1.js as the imperative code it is: one runtime object whose
    fields are the promise table, the timer queue and the `called` cells,
    updated in place by methods that follow the source statement by statement.
    Each method is proved to leave exactly the state the matching function of
    DeferredSpec describes, so everything proved there holds of these methods. */
module DeferredRuntime {
  import opened Js
  import opened DeferredSpec

  class Runtime {
    var promises: seq<PromiseRec>
    var queue: seq<Task>
    var guards: seq<bool>

    /** The fields, as the value DeferredSpec works on. */
    function AsWorld(): World
      reads this
    {
      World(promises, queue, guards)
    }

    predicate Valid()
      reads this
    {
      DeferredSpec.Valid(AsWorld())
    }

    /** An empty runtime: no promise, no task. */
    constructor ()
      ensures Valid() && AsWorld() == World([], [], [])
    {
      promises, queue, guards := [], [], [];
    }

    /** `resolve(value)` of promise `p`: while `p` is pending, one timer task
        is scheduled for the settlement; nothing else happens. */
    method Resolve(p: nat, v: Value)
      requires Valid() && p < |promises| && ValueOk(v, |promises|)
      modifies this
      ensures AsWorld() == Request(old(AsWorld()), p, FulfilSide, v)
    {
      if promises[p].status == Pending {
        queue := queue + [SettleTask(p, FulfilSide, v)];
      }
    }

    /** `reject(reason)` of promise `p`: while `p` is pending, one timer task
        is scheduled for the settlement; nothing else happens. */
    method Reject(p: nat, r: Value)
      requires Valid() && p < |promises| && ValueOk(r, |promises|)
      modifies this
      ensures AsWorld() == Request(old(AsWorld()), p, RejectSide, r)
    {
      if promises[p].status == Pending {
        queue := queue + [SettleTask(p, RejectSide, r)];
      }
    }

    /** `forEach(callback => callback(v))` over the registry `ws` of promise
        `p`: each callback schedules one timer task, in registration order. */
    method CallAll(p: nat, side: Side, ws: seq<Wrapper>)
      modifies this
      ensures queue == old(queue) + CallbackTasks(p, side, ws)
      ensures promises == old(promises) && guards == old(guards)
    {
      var i := 0;
      while i < |ws|
        invariant 0 <= i <= |ws|
        invariant queue == old(queue) + CallbackTasks(p, side, ws[..i])
        invariant promises == old(promises) && guards == old(guards)
      {
        assert CallbackTasks(p, side, ws[..i + 1])
            == CallbackTasks(p, side, ws[..i]) + [RunHandler(p, side, ws[i].handler, ws[i].child)];
        queue := queue + [RunHandler(p, side, ws[i].handler, ws[i].child)];
        i := i + 1;
      }
      assert ws[..i] == ws;
    }

    /** The timer callback `resolve` or `reject` scheduled: status and value
        (or reason) are assigned without a check, then the registry's
        callbacks are called. */
    method RunSettle(p: nat, side: Side, v: Value)
      requires Valid() && p < |promises| && ValueOk(v, |promises|)
      modifies this
      ensures AsWorld() == DeferredSpec.RunSettle(old(AsWorld()), p, side, v)
    {
      var r := promises[p];
      if side == FulfilSide {
        promises := promises[p := r.(status := Fulfilled, value := v)];
        CallAll(p, side, r.onFulfilledCallbacks);
      } else {
        promises := promises[p := r.(status := Rejected, reason := v)];
        CallAll(p, side, r.onRejectedCallbacks);
      }
    }

    /** `new myPromise(fn)`: a pending promise with null value and reason and
        empty registries; then `fn` runs with the bound `resolve` and `reject`,
        and an exception it throws is passed to `reject` (which ends it). */
    method New(executor: seq<Action>) returns (p: nat)
      requires Valid() && ScriptOk(executor, |promises|, 0)
      modifies this
      ensures (AsWorld(), p) == Construct(old(AsWorld()), executor)
    {
      ghost var w0 := AsWorld();
      p := |promises|;
      promises := promises + [NewRec];
      ghost var w1 := AsWorld();
      assert (w1, p) == Allocate(w0);
      ScriptOkGrows(executor, |w0.promises|, |promises|, 0);
      var i := 0;
      while i < |executor|
        invariant 0 <= i <= |executor| && Valid() && p < |promises| == |w1.promises|
        invariant ScriptOk(executor, |promises|, i)
        invariant RunExecutor(AsWorld(), p, executor, i) == RunExecutor(w1, p, executor, 0)
      {
        match executor[i] {
          case CallResolve(v) => Resolve(p, v);
          case CallReject(r) => Reject(p, r);
          case Raise(e) =>
            Reject(p, e);
            return;
        }
        i := i + 1;
      }
    }

    /** `then` with its two handlers already chosen: `new myPromise` for
        promise2, whose executor schedules a task on a settled parent or pushes
        a callback onto each registry of a pending one. */
    method ThenWith(p: nat, hf: Handler, hr: Handler) returns (c: nat)
      requires Valid() && p < |promises| && HandlerOk(hf, Promise2Bounds(AsWorld())) && HandlerOk(hr, Promise2Bounds(AsWorld()))
      modifies this
      ensures (AsWorld(), c) == DeferredSpec.ThenWith(old(AsWorld()), p, hf, hr)
    {
      c := |promises|;
      promises := promises + [NewRec];
      var r := promises[p];
      if r.status == Fulfilled {
        queue := queue + [RunHandler(p, FulfilSide, hf, c)];
      } else if r.status == Rejected {
        queue := queue + [RunHandler(p, RejectSide, hr, c)];
      } else if r.status == Pending {
        promises := promises[p := r.(onFulfilledCallbacks := r.onFulfilledCallbacks + [Wrapper(hf, c)],
                                     onRejectedCallbacks := r.onRejectedCallbacks + [Wrapper(hr, c)])];
      }
    }

    /** `then(onFulfilled, onRejected)`: a non-function `onFulfilled` becomes
        `value => value`, a non-function `onRejected` becomes `reason => { throw reason }`. */
    method Then(p: nat, onFulfilled: Callback, onRejected: Callback) returns (c: nat)
      requires Valid() && p < |promises|
      requires CallbackOk(onFulfilled, |promises| + 1) && CallbackOk(onRejected, |promises| + 1)
      modifies this
      ensures (AsWorld(), c) == DeferredSpec.Then(old(AsWorld()), p, onFulfilled, onRejected)
    {
      c := ThenWith(p, User(FulfilHandler(onFulfilled)), User(RejectHandler(onRejected)));
    }

    /** `resolvePromise(promise2, x, resolve, reject)` for the promise `t`. A
        foreign `then` runs its script synchronously against the two closures,
        which (like the catch block) do nothing once `called` is set. */
    method ResolvePromise(t: nat, x: Value)
      requires Valid() && t < |promises| && ValueOk(x, |promises|)
      modifies this
      ensures AsWorld() == DeferredSpec.ResolvePromise(old(AsWorld()), t, x)
      decreases x, 1
    {
      if x == PromiseRef(t) {
        Reject(t, CycleError);
        return;
      }
      ghost var w0 := AsWorld();
      var g := |guards|;
      guards := guards + [false];
      ghost var w1 := AsWorld();
      ValidUnderGrows(w1, BoundsOf(w0), BoundsOf(w1));
      match x {
        case PromiseRef(q) =>
          var c := ThenWith(q, OnY(g, t), OnErr(g, t));
        case Thenable(script) =>
          RunScript(t, g, script);
        case ThrowingThen(e) =>
          guards := guards[g := true];
          Reject(t, e);
        case _ =>
          Resolve(t, x);
      }
    }

    /** `then.call(x, y => …, err => …)` for a foreign thenable performing
        `script`, with `called` the cell `g`. */
    method RunScript(t: nat, g: nat, script: seq<Action>)
      requires Valid() && t < |promises| && g < |guards| && ScriptOk(script, |promises|, 0)
      modifies this
      ensures AsWorld() == DeferredSpec.RunScript(old(AsWorld()), t, g, script, 0)
      decreases Thenable(script), 0
    {
      ghost var w0 := AsWorld();
      var i := 0;
      while i < |script|
        invariant 0 <= i <= |script| && Valid() && t < |promises| && g < |guards|
        invariant ScriptOk(script, |promises|, i)
        invariant DeferredSpec.RunScript(AsWorld(), t, g, script, i) == DeferredSpec.RunScript(w0, t, g, script, 0)
      {
        if guards[g] {
          // the closures return at once; an exception reaches the catch block,
          // which returns as well
          if script[i].Raise? {
            return;
          }
        } else {
          guards := guards[g := true];
          match script[i] {
            case CallResolve(y) =>
              ghost var n := |promises|;
              ResolvePromise(t, y);
              ScriptOkGrows(script, n, |promises|, i + 1);
            case CallReject(e) =>
              Reject(t, e);
            case Raise(e) =>
              Reject(t, e);
              return;
          }
        }
        i := i + 1;
      }
    }

    /** Calls the handler `h` with `arg`. */
    method Invoke(h: Handler, arg: Value) returns (out: Outcome)
      requires Valid() && HandlerOk(h, BoundsOf(AsWorld())) && ValueOk(arg, |promises|)
      modifies this
      ensures (AsWorld(), out) == DeferredSpec.Invoke(old(AsWorld()), h, arg)
    {
      match h {
        case User(f) =>
          out := Call(f, arg);
        case OnY(g, t) =>
          if !guards[g] {
            guards := guards[g := true];
            ResolvePromise(t, arg);
          }
          out := Returned(Undefined);
        case OnErr(g, t) =>
          if !guards[g] {
            guards := guards[g := true];
            Reject(t, arg);
          }
          out := Returned(Undefined);
      }
    }

    /** A handler task of `then`: the handler runs with the parent's value or
        reason as they are now, its result goes through `resolvePromise` for
        promise2, and an exception it throws is passed to promise2's `reject`. */
    method RunHandlerTask(parent: nat, side: Side, h: Handler, child: nat)
      requires Valid() && TaskOk(Task.RunHandler(parent, side, h, child), BoundsOf(AsWorld()))
      modifies this
      ensures var w := old(AsWorld());
        var (w1, out) := DeferredSpec.Invoke(w, h, TaskArg(w, Task.RunHandler(parent, side, h, child)));
        AsWorld() == (match out
                      case Returned(x) => DeferredSpec.ResolvePromise(w1, child, x)
                      case Threw(e) => Request(w1, child, RejectSide, e))
    {
      var arg := if side == FulfilSide then promises[parent].value else promises[parent].reason;
      var out := Invoke(h, arg);
      match out {
        case Returned(x) => ResolvePromise(child, x);
        case Threw(e) => Reject(child, e);
      }
    }

    /** The timer fires for the first task of the queue. */
    method Step()
      requires Valid() && queue != []
      modifies this
      ensures AsWorld() == DeferredSpec.Step(old(AsWorld()))
    {
      var task := queue[0];
      ghost var w0 := AsWorld();
      queue := queue[1..];
      assert TaskOk(w0.queue[0], BoundsOf(w0));
      assert DeferredSpec.Valid(AsWorld());
      match task {
        case SettleTask(p, side, v) => RunSettle(p, side, v);
        case RunHandler(parent, side, h, child) => RunHandlerTask(parent, side, h, child);
      }
    }

    /** `myPromise.deferred()`: a new pending promise; its `resolve` and
        `reject` are `Resolve` and `Reject` on the returned index. */
    method Deferred() returns (p: nat)
      requires Valid()
      modifies this
      ensures (AsWorld(), p) == DeferredSpec.Deferred(old(AsWorld()))
    {
      p := New([]);
    }
  }
}
