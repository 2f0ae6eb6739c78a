/** utils/Promise.js as the imperative code it is: one runtime object whose
    fields are the promise table, the timer queue, the `called` cells and the
    `Promise.all` closures, updated in place by methods that follow the source
    statement by statement. Each method is proved to leave exactly the state the
    matching function of InlineSpec describes, so everything proved there holds
    of these methods. */
module InlineRuntime {
  import opened Js
  import opened InlineSpec

  class Runtime {
    var promises: seq<PromiseRec>
    var queue: seq<Task>
    var guards: seq<bool>
    var collectors: seq<Collector>

    /** The fields, as the value InlineSpec works on. */
    function AsWorld(): World
      reads this
    {
      World(promises, queue, guards, collectors)
    }

    predicate Valid()
      reads this
    {
      InlineSpec.Valid(AsWorld())
    }

    /** An empty runtime: no promise, no task. */
    constructor ()
      ensures Valid() && AsWorld() == World([], [], [], [])
    {
      promises, queue, guards, collectors := [], [], [], [];
    }

    /** `forEach(fn => fn())` over the registry `ws` of promise `p`: each
        wrapper schedules one timer task, in registration order. */
    method CallAll(p: nat, side: Side, ws: seq<Wrapper>)
      modifies this
      ensures queue == old(queue) + CallbackTasks(p, side, ws)
      ensures promises == old(promises) && guards == old(guards) && collectors == old(collectors)
    {
      var i := 0;
      while i < |ws|
        invariant 0 <= i <= |ws|
        invariant queue == old(queue) + CallbackTasks(p, side, ws[..i])
        invariant promises == old(promises) && guards == old(guards) && collectors == old(collectors)
      {
        assert CallbackTasks(p, side, ws[..i + 1])
            == CallbackTasks(p, side, ws[..i]) + [RunHandler(p, side, ws[i].handler, ws[i].child)];
        queue := queue + [RunHandler(p, side, ws[i].handler, ws[i].child)];
        i := i + 1;
      }
      assert ws[..i] == ws;
    }

    /** The `resolve` (side FulfilSide) or `reject` (side RejectSide) closure of
        promise `p`: only a pending promise changes state and stores the value
        or reason, and then calls the wrappers of the matching registry. */
    method Settle(p: nat, side: Side, v: Value)
      requires Valid() && p < |promises| && ValueOk(v, |promises|)
      modifies this
      ensures AsWorld() == InlineSpec.Settle(old(AsWorld()), p, side, v)
    {
      var r := promises[p];
      if r.state == Pending {
        if side == FulfilSide {
          promises := promises[p := r.(state := Fulfilled, value := v)];
          CallAll(p, side, r.onFulfilledCallbacks);
        } else {
          promises := promises[p := r.(state := Rejected, reason := v)];
          CallAll(p, side, r.onRejectedCallbacks);
        }
      }
    }

    /** `then` with its two handlers already chosen: `new Promise` for promise2,
        whose executor schedules a task on a settled parent or pushes a wrapper
        onto each registry of a pending one. */
    method ThenWith(p: nat, hf: Handler, hr: Handler) returns (c: nat)
      requires Valid() && p < |promises| && HandlerOk(hf, Promise2Bounds(AsWorld())) && HandlerOk(hr, Promise2Bounds(AsWorld()))
      modifies this
      ensures (AsWorld(), c) == InlineSpec.ThenWith(old(AsWorld()), p, hf, hr)
    {
      ghost var w0 := AsWorld();
      c := |promises|;
      promises := promises + [NewRec];
      assert (AsWorld(), c) == Allocate(w0);
      var r := promises[p];
      if r.state == Fulfilled {
        queue := queue + [RunHandler(p, FulfilSide, hf, c)];
      }
      if r.state == Rejected {
        queue := queue + [RunHandler(p, RejectSide, hr, c)];
      }
      if r.state == Pending {
        promises := promises[p := r.(onFulfilledCallbacks := r.onFulfilledCallbacks + [Wrapper(hf, c)],
                                     onRejectedCallbacks := r.onRejectedCallbacks + [Wrapper(hr, c)])];
      }
    }

    /** `then(onFulfilled, onRejected)`: a non-function `onFulfilled` becomes
        `value => value`, a non-function `onRejected` becomes `err => { throw err }`. */
    method Then(p: nat, onFulfilled: Callback, onRejected: Callback) returns (c: nat)
      requires Valid() && p < |promises|
      requires CallbackOk(onFulfilled, |promises| + 1) && CallbackOk(onRejected, |promises| + 1)
      modifies this
      ensures (AsWorld(), c) == InlineSpec.Then(old(AsWorld()), p, onFulfilled, onRejected)
    {
      c := ThenWith(p, User(FulfilHandler(onFulfilled)), User(RejectHandler(onRejected)));
    }

    /** `catch(fn)`: `then(null, fn)`. */
    method Catch(p: nat, fn: Callback) returns (c: nat)
      requires Valid() && p < |promises| && CallbackOk(fn, |promises| + 1)
      modifies this
      ensures (AsWorld(), c) == InlineSpec.Catch(old(AsWorld()), p, fn)
    {
      c := Then(p, NotFn(Null), fn);
    }
  
    /** `new Promise(executor)`: a pending promise with undefined value and
        reason and empty registries; then the executor runs with `resolve` and
        `reject` of the new promise, and an exception it throws is passed to
        `reject` (which ends it). */
    method New(executor: seq<Action>) returns (p: nat)
      requires Valid() && ScriptOk(executor, |promises|, 0)
      modifies this
      ensures (AsWorld(), p) == InlineSpec.Construct(old(AsWorld()), executor)
    {
      ghost var w0 := AsWorld();
      p := |promises|;
      promises := promises + [NewRec];
      ghost var w1 := AsWorld();
      assert (w1, p) == Allocate(w0);
      ScriptOkGrows(executor, |w0.promises|, |promises|, 0);
      var i := 0;
      while i < |executor|
        invariant 0 <= i <= |executor| && Valid() && p < |promises| == |w1.promises|
        invariant ScriptOk(executor, |promises|, i)
        invariant RunExecutor(AsWorld(), p, executor, i) == RunExecutor(w1, p, executor, 0)
      {
        match executor[i] {
          case CallResolve(v) => Settle(p, FulfilSide, v);
          case CallReject(r) => Settle(p, RejectSide, r);
          case Raise(e) =>
            Settle(p, RejectSide, e);
            return;
        }
        i := i + 1;
      }
    }

    /** `resolvePromise(promise2, x, resolve, reject)` for the promise `t`. A
        foreign `then` runs its script synchronously against the two closures,
        which (like the catch block) do nothing once `called` is set. */
    method ResolvePromise(t: nat, x: Value)
      requires Valid() && t < |promises| && ValueOk(x, |promises|)
      modifies this
      ensures AsWorld() == InlineSpec.ResolvePromise(old(AsWorld()), t, x)
      decreases x, 1
    {
      if x == PromiseRef(t) {
        Settle(t, RejectSide, CycleError);
        return;
      }
      ghost var w0 := AsWorld();
      var g := |guards|;
      guards := guards + [false];
      ghost var w1 := AsWorld();
      ValidUnderGrows(w1, BoundsOf(w0), BoundsOf(w1));
      match x {
        case PromiseRef(q) =>
          var c := ThenWith(q, OnY(g, t), OnErr(g, t));
        case Thenable(script) =>
          RunScript(t, g, script);
        case ThrowingThen(e) =>
          guards := guards[g := true];
          Settle(t, RejectSide, e);
        case _ =>
          Settle(t, FulfilSide, x);
      }
    }

    /** `then.call(x, y => …, err => …)` for a foreign thenable performing
        `script`, with `called` the cell `g`. */
    method RunScript(t: nat, g: nat, script: seq<Action>)
      requires Valid() && t < |promises| && g < |guards| && ScriptOk(script, |promises|, 0)
      modifies this
      ensures AsWorld() == InlineSpec.RunScript(old(AsWorld()), t, g, script, 0)
      decreases Thenable(script), 0
    {
      ghost var w0 := AsWorld();
      var i := 0;
      while i < |script|
        invariant 0 <= i <= |script| && Valid() && t < |promises| && g < |guards|
        invariant ScriptOk(script, |promises|, i)
        invariant InlineSpec.RunScript(AsWorld(), t, g, script, i) == InlineSpec.RunScript(w0, t, g, script, 0)
      {
        if guards[g] {
          // the closures return at once; an exception reaches the catch block,
          // which returns as well
          if script[i].Raise? {
            return;
          }
        } else {
          guards := guards[g := true];
          match script[i] {
            case CallResolve(y) =>
              ghost var n := |promises|;
              ResolvePromise(t, y);
              ScriptOkGrows(script, n, |promises|, i + 1);
            case CallReject(e) =>
              Settle(t, RejectSide, e);
            case Raise(e) =>
              Settle(t, RejectSide, e);
              return;
          }
        }
        i := i + 1;
      }
    }
  
    /** `processData(index, data)` of the `all` call owning collector `c`. */
    method ProcessData(c: nat, index: nat, data: Value) returns (out: Outcome)
      requires Valid() && c < |collectors|
      modifies this
      ensures (AsWorld(), out) == InlineSpec.ProcessData(old(AsWorld()), c, index, data)
    {
      var col := collectors[c];
      collectors := collectors[c := Collector(col.arr[index := data], col.count + 1, col.length)];
      if col.count + 1 == col.length {
        out := Threw(ResolveNotDefined);
      } else {
        out := Returned(Undefined);
      }
    }

    /** Calls the handler `h` with `arg`. */
    method Invoke(h: Handler, arg: Value) returns (out: Outcome)
      requires Valid() && HandlerOk(h, BoundsOf(AsWorld())) && ValueOk(arg, |promises|)
      modifies this
      ensures (AsWorld(), out) == InlineSpec.Invoke(old(AsWorld()), h, arg)
    {
      match h {
        case User(f) =>
          out := Call(f, arg);
        case OnY(g, t) =>
          if !guards[g] {
            guards := guards[g := true];
            ResolvePromise(t, arg);
          }
          out := Returned(Undefined);
        case OnErr(g, t) =>
          if !guards[g] {
            guards := guards[g := true];
            Settle(t, RejectSide, arg);
          }
          out := Returned(Undefined);
        case ResolveOf(p) =>
          Settle(p, FulfilSide, arg);
          out := Returned(Undefined);
        case RejectOf(p) =>
          Settle(p, RejectSide, arg);
          out := Returned(Undefined);
        case Collect(c, index) =>
          out := ProcessData(c, index, arg);
      }
    }

    /** The timer fires for the first task of the queue: the handler runs with
        the parent's value or reason, its result goes through `resolvePromise`
        for promise2, and an exception it throws rejects promise2. */
    method Step()
      requires Valid() && queue != []
      modifies this
      ensures AsWorld() == InlineSpec.Step(old(AsWorld()))
    {
      var task := queue[0];
      var arg := if task.side == FulfilSide then promises[task.parent].value else promises[task.parent].reason;
      ghost var w0 := AsWorld();
      queue := queue[1..];
      assert TaskOk(w0.queue[0], BoundsOf(w0));
      assert InlineSpec.Valid(AsWorld());
      var out := Invoke(task.handler, arg);
      match out {
        case Returned(x) => ResolvePromise(task.child, x);
        case Threw(e) => Settle(task.child, RejectSide, e);
      }
    }

    /** `Promise.deferred()`: a new pending promise; its `resolve` and `reject`
        are `Settle` on the returned index. */
    method Deferred() returns (p: nat)
      requires Valid()
      modifies this
      ensures (AsWorld(), p) == InlineSpec.Deferred(old(AsWorld()))
    {
      p := New([]);
    }

    /** `Promise.resolve(val)`. */
    method PromiseResolve(v: Value) returns (p: nat)
      requires Valid() && ValueOk(v, |promises|)
      modifies this
      ensures (AsWorld(), p) == InlineSpec.PromiseResolve(old(AsWorld()), v)
    {
      assert ScriptOk([CallResolve(v)], |promises|, 1);
      p := New([CallResolve(v)]);
    }

    /** `Promise.reject(val)`. */
    method PromiseReject(v: Value) returns (p: nat)
      requires Valid() && ValueOk(v, |promises|)
      modifies this
      ensures (AsWorld(), p) == InlineSpec.PromiseReject(old(AsWorld()), v)
    {
      assert ScriptOk([CallReject(v)], |promises|, 1);
      p := New([CallReject(v)]);
    }

    /** The executor of `Promise.race`: `promises[i].then(resolve, reject)` for
        each input in turn, with the closures of promise `r`. */
    method RaceExecutor(r: nat, ps: seq<nat>)
      requires Valid() && r < |promises| && AllIn(ps, |promises|)
      modifies this
      ensures AsWorld() == AttachLoop(old(AsWorld()), ToRace(r), ps, 0)
    {
      ghost var w0 := AsWorld();
      var i := 0;
      while i < |ps|
        invariant 0 <= i <= |ps| && Valid() && r < |promises| && AllIn(ps, |promises|)
        invariant AttachLoop(AsWorld(), ToRace(r), ps, i) == AttachLoop(w0, ToRace(r), ps, 0)
      {
        AttachLoopUnfold(AsWorld(), ToRace(r), ps, i);
        var c := ThenWith(ps[i], ResolveOf(r), RejectOf(r));
        i := i + 1;
      }
    }

    /** `Promise.race(promises)`. */
    method Race(ps: seq<nat>) returns (r: nat)
      requires Valid() && AllIn(ps, |promises|)
      modifies this
      ensures (AsWorld(), r) == InlineSpec.Race(old(AsWorld()), ps)
    {
      ghost var w0 := AsWorld();
      r := |promises|;
      promises := promises + [NewRec];
      assert (AsWorld(), r) == Allocate(w0);
      RaceExecutor(r, ps);
    }

    /** The executor of `Promise.all`: `promises[i].then(data => { processData(i,
        data) }, reject)` for each input in turn, with collector `c` and the
        `reject` of promise `a`. */
    method AllExecutor(a: nat, c: nat, ps: seq<nat>)
      requires Valid() && a < |promises| && c < |collectors| && AllIn(ps, |promises|)
      modifies this
      ensures AsWorld() == AttachLoop(old(AsWorld()), ToAll(a, c), ps, 0)
    {
      ghost var w0 := AsWorld();
      var i := 0;
      while i < |ps|
        invariant 0 <= i <= |ps| && Valid() && a < |promises| && c < |collectors| && AllIn(ps, |promises|)
        invariant AttachLoop(AsWorld(), ToAll(a, c), ps, i) == AttachLoop(w0, ToAll(a, c), ps, 0)
      {
        AttachLoopUnfold(AsWorld(), ToAll(a, c), ps, i);
        var d := ThenWith(ps[i], Collect(c, i), RejectOf(a));
        i := i + 1;
      }
    }

    /** `Promise.all(promises)`: `arr` and `i` are set up first, then the promise. */
    method All(ps: seq<nat>) returns (a: nat)
      requires Valid() && AllIn(ps, |promises|)
      modifies this
      ensures (AsWorld(), a) == InlineSpec.All(old(AsWorld()), ps)
    {
      ghost var w := AsWorld();
      var c := |collectors|;
      collectors := collectors + [Collector(map[], 0, |ps|)];
      ghost var w0 := AsWorld();
      ValidUnderGrows(w0, BoundsOf(w), BoundsOf(w0));
      a := |promises|;
      promises := promises + [NewRec];
      assert (AsWorld(), a) == Allocate(w0);
      AllExecutor(a, c, ps);
    }
  }
}
