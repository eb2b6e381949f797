/**
 * A React state variable paired with one pending-callback slot: `updateState`
 * stores the callback (overwriting any pending one) and schedules the new
 * value; once the new value is committed, an effect that depends on the state
 * hands the value to the pending callback and empties the slot.
 *
 * `Hook` is the abstract value of one such variable: the latest scheduled
 * `state`, the value `committed` by the last render, and the `pending` slot.
 * A commit stands for React's render plus the `[state]` effect; React compares
 * states with `Object.is`, modelled here as value equality.
 */
module StateWithCallback {
  import opened Wrappers

  /** What `updateState` receives: a plain value, or a function of the previous state. */
  datatype NewState<!T> = Value(value: T) | Updater(apply: T -> T)

  datatype Hook<T, C> = Hook(state: T, committed: T, pending: Option<C>)

  /** One call of a callback, with the state it was handed. */
  datatype Invocation<T, C> = Invocation(callback: C, argument: T)

  datatype Committed<T, C> = Committed(hook: Hook<T, C>, invoked: Option<Invocation<T, C>>)

  /** `typeof newState === 'function' ? newState(prevState) : newState` */
  function Resolve<T>(arg: NewState<T>, prev: T): (next: T)
    ensures arg.Value? ==> next == arg.value
    ensures arg.Updater? ==> next == arg.apply(prev)
  {
    match arg
    case Value(v) => v
    case Updater(f) => f(prev)
  }

  /** The variable right after mount: the mount-time run of the effect finds the slot empty. */
  function Mounted<T(==), C>(init: T): (h: Hook<T, C>)
    ensures h.state == init && h.committed == init && h.pending == None
    ensures AfterCommit(h).invoked == None && AfterCommit(h).hook == h
  {
    Hook(init, init, None)
  }

  /** `updateState(newState, cb)`: the slot takes `cb` whatever it held, and the state is resolved. */
  function AfterUpdate<T, C>(h: Hook<T, C>, arg: NewState<T>, cb: Option<C>): (r: Hook<T, C>)
    // latest wins: whatever was pending is replaced, and no callback clears it
    ensures r.pending == cb
    // nothing is committed, so nothing fires, until the next render
    ensures r.committed == h.committed
    ensures r.state == Resolve(arg, h.state)
  {
    h.(state := Resolve(arg, h.state), pending := cb)
  }

  /** Render and run the `[state]` effect. */
  function AfterCommit<T(==), C>(h: Hook<T, C>): (r: Committed<T, C>)
    ensures r.hook.state == h.state && r.hook.committed == h.state
    // a callback is invoked exactly when the state changed and one is pending ...
    ensures r.invoked.Some? <==> h.state != h.committed && h.pending.Some?
    // ... it is the pending one, handed the new state ...
    ensures r.invoked.Some? ==> r.invoked.value == Invocation(h.pending.value, h.state)
    // ... and afterwards the slot is empty; an unchanged state leaves it alone
    ensures r.hook.pending == if h.state == h.committed then h.pending else None
    // a second commit with nothing new in between invokes nothing
    ensures r.hook.state == r.hook.committed
  {
    if h.state == h.committed then Committed(h, None)
    else
      var invoked := if h.pending.Some? then Some(Invocation(h.pending.value, h.state)) else None;
      Committed(h.(committed := h.state, pending := None), invoked)
  }

  /** The object the hook keeps across renders: `useState` plus the `cbRef` slot. */
  class StatefulValue<T(==), C> {
    var state: T
    var committed: T
    var pending: Option<C>

    function Model(): Hook<T, C>
      reads this
    {
      Hook(state, committed, pending)
    }

    constructor (init: T)
      ensures Model() == Mounted(init)
    {
      state, committed, pending := init, init, None;
    }

    method Update(arg: NewState<T>, cb: Option<C>)
      modifies this
      ensures Model() == AfterUpdate(old(Model()), arg, cb)
    {
      pending := cb;
      state := Resolve(arg, state);
    }

    method Commit() returns (invoked: Option<Invocation<T, C>>)
      modifies this
      ensures Committed(Model(), invoked) == AfterCommit(old(Model()))
    {
      invoked := None;
      if state != committed {
        committed := state;
        if pending.Some? {
          invoked := Some(Invocation(pending.value, state));
          pending := None;
        }
      }
    }
  }

  /** One thing that can happen to the variable: an `updateState` call, or a commit. */
  datatype Op<!T, C> = SetState(arg: NewState<T>, cb: Option<C>) | Commit

  function Step<T(==), C>(h: Hook<T, C>, op: Op<T, C>): Committed<T, C> {
    match op
    case SetState(arg, cb) => Committed(AfterUpdate(h, arg, cb), None)
    case Commit => AfterCommit(h)
  }

  function Invoked<T, C>(o: Option<Invocation<T, C>>): seq<Invocation<T, C>> {
    if o.Some? then [o.value] else []
  }

  /** The variable after a run of operations, and the callbacks invoked on the way, in order. */
  function Run<T(==), C>(h: Hook<T, C>, ops: seq<Op<T, C>>): (Hook<T, C>, seq<Invocation<T, C>>)
    decreases |ops|
  {
    if ops == [] then (h, [])
    else
      var c := Step(h, ops[0]);
      var r := Run(c.hook, ops[1..]);
      (r.0, Invoked(c.invoked) + r.1)
  }

  /** How many operations of a run register a callback. */
  function Registered<T, C>(ops: seq<Op<T, C>>): nat
    decreases |ops|
  {
    if ops == [] then 0
    else (if ops[0].SetState? && ops[0].cb.Some? then 1 else 0) + Registered(ops[1..])
  }

  lemma {:induction false} RunAppend<T, C>(h: Hook<T, C>, a: seq<Op<T, C>>, b: seq<Op<T, C>>)
    ensures Run(h, a + b) == (Run(Run(h, a).0, b).0, Run(h, a).1 + Run(Run(h, a).0, b).1)
    decreases |a|
  {
    if a == [] {
      assert a + b == b;
      assert Run(h, a) == (h, []);
      assert [] + Run(h, b).1 == Run(h, b).1;
    } else {
      assert (a + b)[0] == a[0];
      assert (a + b)[1..] == a[1..] + b;
      var c := Step(h, a[0]);
      RunAppend(c.hook, a[1..], b);
      var mid := Run(c.hook, a[1..]);
      assert Run(h, a) == (mid.0, Invoked(c.invoked) + mid.1);
      assert Invoked(c.invoked) + (mid.1 + Run(mid.0, b).1) == (Invoked(c.invoked) + mid.1) + Run(mid.0, b).1;
    }
  }

  /**
   * Fires at most once: a run invokes no more callbacks than it registers,
   * plus the one that may already be pending.
   */
  lemma {:induction false} InvocationsBounded<T, C>(h: Hook<T, C>, ops: seq<Op<T, C>>)
    ensures |Run(h, ops).1| <= Registered(ops) + (if h.pending.Some? then 1 else 0)
    decreases |ops|
  {
    if ops != [] {
      InvocationsBounded(Step(h, ops[0]).hook, ops[1..]);
    }
  }

  /** Once the slot is empty, a run that registers no callback invokes nothing. */
  lemma NothingFiresWithoutRegistration<T, C>(h: Hook<T, C>, ops: seq<Op<T, C>>)
    requires h.pending.None? && Registered(ops) == 0
    ensures Run(h, ops).1 == []
  {
    InvocationsBounded(h, ops);
  }

  /** Some operation of the run registers callback `c`. */
  ghost predicate RegisteredIn<T, C>(ops: seq<Op<T, C>>, c: C) {
    exists i :: 0 <= i < |ops| && ops[i].SetState? && ops[i].cb == Some(c)
  }

  /**
   * Every callback a run invokes was registered by one of its operations,
   * unless it is the callback already pending on a state not yet committed.
   */
  lemma {:induction false} InvokedWereRegistered<T, C>(h: Hook<T, C>, ops: seq<Op<T, C>>)
    ensures forall inv :: inv in Run(h, ops).1 ==>
      (h.state != h.committed && h.pending == Some(inv.callback)) || RegisteredIn(ops, inv.callback)
    decreases |ops|
  {
    if ops != [] {
      var c := Step(h, ops[0]);
      InvokedWereRegistered(c.hook, ops[1..]);
      forall inv | inv in Run(h, ops).1
        ensures (h.state != h.committed && h.pending == Some(inv.callback)) || RegisteredIn(ops, inv.callback)
      {
        if inv in Invoked(c.invoked) {
          assert ops[0].Commit? && h.state != h.committed && h.pending == Some(inv.callback);
        } else {
          assert inv in Run(c.hook, ops[1..]).1;
          if c.hook.state != c.hook.committed && c.hook.pending == Some(inv.callback) {
            assert ops[0].SetState? && ops[0].cb == Some(inv.callback);
          } else {
            var i :| 0 <= i < |ops[1..]| && ops[1..][i].SetState? && ops[1..][i].cb == Some(inv.callback);
            assert ops[i + 1] == ops[1..][i];
          }
        }
      }
    }
  }

  /**
   * A callback left pending on a state equal to the committed one never
   * fires: whatever a later run invokes, one of its own operations
   * registered, and the update that registers it overwrites the slot.
   */
  lemma StalePendingNeverFires<T, C>(h: Hook<T, C>, ops: seq<Op<T, C>>)
    requires h.state == h.committed
    ensures forall inv :: inv in Run(h, ops).1 ==> RegisteredIn(ops, inv.callback)
  {
    InvokedWereRegistered(h, ops);
  }

  /**
   * Latest wins: after a burst of `updateState` calls, the slot holds the
   * callback of the last call (none, if that call passed none), and nothing
   * has been invoked yet.
   */
  lemma {:induction false} LatestCallbackPending<T, C>(h: Hook<T, C>, ops: seq<Op<T, C>>)
    requires |ops| > 0 && forall i :: 0 <= i < |ops| ==> ops[i].SetState?
    ensures Run(h, ops).0.pending == ops[|ops| - 1].cb
    ensures Run(h, ops).0.committed == h.committed
    ensures Run(h, ops).1 == []
    decreases |ops|
  {
    if |ops| > 1 {
      LatestCallbackPending(Step(h, ops[0]).hook, ops[1..]);
    }
  }

  /**
   * The commit that follows such a burst invokes the last call's callback,
   * exactly once and with the new state, when the state changed; otherwise
   * nothing, and that callback stays pending.
   */
  lemma LatestCallbackWins<T, C>(h: Hook<T, C>, ops: seq<Op<T, C>>)
    requires |ops| > 0 && forall i :: 0 <= i < |ops| ==> ops[i].SetState?
    ensures var r := Run(h, ops + [Commit]);
      var last := ops[|ops| - 1].cb;
      var s := Run(h, ops).0.state;
      && (s != h.committed && last.Some? ==> r.1 == [Invocation(last.value, s)] && r.0.pending == None)
      && (s != h.committed && last.None? ==> r.1 == [] && r.0.pending == None)
      && (s == h.committed ==> r.1 == [] && r.0.pending == last)
  {
    LatestCallbackPending(h, ops);
    RunAppend(h, ops, [Commit]);
  }
}
