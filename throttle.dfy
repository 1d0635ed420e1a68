/**
 * `throttle(func, wait, {leading, trailing})` (src/utils/throttle.ts): a
 * wrapper that calls `func` at most once per `wait` milliseconds, with
 * `cancel` and `flush`.
 *
 * The closure variables `timer`, `lastCallTime` and `lastArgs` are the state.
 * `lastThis` is set and cleared together with `lastArgs`, so a pending call `A`
 * carries both the receiver and the arguments.  `Date.now()` is the `now`
 * parameter.  A pending `setTimeout` is the time it was scheduled for, and
 * its callback is the `Fire` operation, which the event loop runs
 * later.  Each operation returns the call `func` was applied to, if any;
 * the wrapper itself returns `func`'s result on it.
 */
module Throttle {
  import opened Wrappers

  /** The `options` argument; `{}` gives leading and trailing calls. */
  datatype Options = Options(leading: bool, trailing: bool)

  const DefaultOptions := Options(true, true)

  /** The closure state. */
  datatype Closure<A> = Closure(timer: Option<int>, lastCallTime: int, lastArgs: Option<A>)

  /** A new state and the call `func` got during the step, if any. */
  datatype Step<A> = Step(closure: Closure<A>, called: Option<A>)

  /** Lines 20-23: no timer, no call yet, nothing pending. */
  function Fresh<A>(): Closure<A>
  {
    Closure(None, 0, None)
  }

  /** Lines 25-37, `invokeFunc(time)`. */
  function Invoke<A>(c: Closure<A>, time: int, wait: int): (r: Step<A>)
    ensures r.called.Some? <==> time - c.lastCallTime >= wait && c.lastArgs.Some?
    ensures r.called.Some? ==> r == Step(c.(lastArgs := None, lastCallTime := time), c.lastArgs)
    ensures r.called.None? ==> r.closure == c
  {
    if time - c.lastCallTime >= wait && c.lastArgs.Some? then
      Step(c.(lastArgs := None, lastCallTime := time), c.lastArgs)
    else Step(c, None)
  }

  /** Lines 39-70, one call of the throttled function with `args` at time `now`. */
  function Calling<A>(c: Closure<A>, now: int, args: A, wait: int, opts: Options): Step<A>
  {
    if c.lastCallTime == 0 && opts.leading then
      Step(c.(lastCallTime := now), Some(args))
    else
      var c1 := c.(lastArgs := Some(args));
      if opts.trailing then
        var remaining := wait - (now - c.lastCallTime);
        if remaining <= 0 then
          var st := Invoke(c1.(timer := None), now, wait);
          Step(st.closure.(lastCallTime := now), st.called)
        else Step(c1.(timer := Some(now + remaining)), None)
      else Step(c1, None)
  }

  /** Lines 64-67, the timer callback running at `time`. */
  function Firing<A>(c: Closure<A>, time: int, wait: int): Step<A>
  {
    var st := Invoke(c, time, wait);
    Step(st.closure.(timer := None), st.called)
  }

  /** Lines 72-80, `cancel()`. */
  function Cancelled<A>(c: Closure<A>): Closure<A>
  {
    c.(timer := None, lastArgs := None, lastCallTime := 0)
  }

  /** Lines 82-94, `flush()` at time `now`. */
  function Flushed<A>(c: Closure<A>, now: int): Step<A>
  {
    if c.lastArgs.Some? then Step(Closure(None, now, None), c.lastArgs)
    else Step(c.(timer := None), None)
  }

  /**
   * What every reachable state satisfies: a pending timer is due exactly
   * `wait` after the last call, has a call to deliver, and exists only with
   * trailing calls on and the leading edge out of reach.
   */
  predicate Inv<A>(c: Closure<A>, wait: int, opts: Options)
  {
    c.timer.Some? ==>
      opts.trailing && c.lastArgs.Some? && c.timer.value == c.lastCallTime + wait
      && !(c.lastCallTime == 0 && opts.leading)
  }

  class Throttled<A> {
    var timer: Option<int>
    var lastCallTime: int
    var lastArgs: Option<A>
    const wait: int
    const options: Options

    function State(): Closure<A>
      reads this
    {
      Closure(timer, lastCallTime, lastArgs)
    }

    predicate Valid()
      reads this
    {
      Inv(State(), wait, options)
    }

    /** Lines 18-23. */
    constructor (wait: int, options: Options)
      ensures Valid() && State() == Fresh() && this.wait == wait && this.options == options
    {
      timer, lastCallTime, lastArgs := None, 0, None;
      this.wait, this.options := wait, options;
    }

    /** Lines 25-37. */
    method InvokeFunc(time: int) returns (called: Option<A>)
      modifies this
      ensures State() == Invoke(old(State()), time, wait).closure && called == Invoke(old(State()), time, wait).called
    {
      called := None;
      var elapsed := time - lastCallTime;
      if elapsed >= wait {
        if lastArgs.Some? {
          called := lastArgs;
          lastArgs := None;
          lastCallTime := time;
        }
      }
    }

    /** Lines 39-70. */
    method Call(now: int, args: A) returns (called: Option<A>)
      requires Valid()
      modifies this
      ensures Valid()
      ensures State() == Calling(old(State()), now, args, wait, options).closure
      ensures called == Calling(old(State()), now, args, wait, options).called
    {
      CallKeepsInv(State(), now, args, wait, options);
      if lastCallTime == 0 && options.leading {
        lastCallTime := now;
        return Some(args);
      }
      called := None;
      lastArgs := Some(args);
      if options.trailing {
        var remaining := wait - (now - lastCallTime);
        if remaining <= 0 {
          timer := None;
          called := InvokeFunc(now);
          lastCallTime := now;
        } else {
          timer := Some(now + remaining);
        }
      }
    }

    /** Lines 64-67: the event loop runs the pending timer's callback at `time`. */
    method Fire(time: int) returns (called: Option<A>)
      requires Valid() && timer.Some?
      modifies this
      ensures Valid()
      ensures State() == Firing(old(State()), time, wait).closure
      ensures called == Firing(old(State()), time, wait).called
    {
      FireKeepsInv(State(), time, wait, options);
      called := InvokeFunc(time);
      timer := None;
    }

    /** Lines 72-80. */
    method Cancel()
      requires Valid()
      modifies this
      ensures Valid() && State() == Cancelled(old(State()))
    {
      if timer.Some? {
        timer := None;
      }
      lastArgs := None;
      lastCallTime := 0;
    }

    /** Lines 82-94. */
    method Flush(now: int) returns (called: Option<A>)
      requires Valid()
      modifies this
      ensures Valid()
      ensures State() == Flushed(old(State()), now).closure && called == Flushed(old(State()), now).called
    {
      if timer.Some? {
        timer := None;
      }
      called := None;
      if lastArgs.Some? {
        called := lastArgs;
        lastArgs := None;
        lastCallTime := now;
      }
    }
  }

  // ---------------------------------------------------------------------
  // Properties

  /** Every operation keeps the invariant. */
  lemma CallKeepsInv<A>(c: Closure<A>, now: int, args: A, wait: int, opts: Options)
    requires Inv(c, wait, opts)
    ensures Inv(Calling(c, now, args, wait, opts).closure, wait, opts)
  {
  }

  lemma FireKeepsInv<A>(c: Closure<A>, time: int, wait: int, opts: Options)
    ensures Inv(Firing(c, time, wait).closure, wait, opts)
  {
  }

  lemma CancelAndFlushKeepInv<A>(c: Closure<A>, now: int, wait: int, opts: Options)
    ensures Inv(Cancelled(c), wait, opts)
    ensures Inv(Flushed(c, now).closure, wait, opts)
  {
  }

  /** The first call with the leading edge on runs `func` at once and records the time. */
  lemma LeadingEdge<A>(c: Closure<A>, now: int, args: A, wait: int, opts: Options)
    requires c.lastCallTime == 0 && opts.leading
    ensures Calling(c, now, args, wait, opts) == Step(c.(lastCallTime := now), Some(args))
  {
  }

  /**
   * A call past the leading edge with trailing calls on runs `func` with its
   * own arguments when `wait` has passed since the last call (also on a
   * first call with `leading: false`), and otherwise schedules one timer for
   * `lastCallTime + wait` holding the latest arguments.
   */
  lemma TrailingEdge<A>(c: Closure<A>, now: int, args: A, wait: int, opts: Options)
    requires !(c.lastCallTime == 0 && opts.leading) && opts.trailing
    ensures var r := Calling(c, now, args, wait, opts);
      if now - c.lastCallTime >= wait then r == Step(Closure(None, now, None), Some(args))
      else r == Step(Closure(Some(c.lastCallTime + wait), c.lastCallTime, Some(args)), None)
  {
  }

  /** Without trailing calls a call past the leading edge only stores its arguments. */
  lemma NoTrailing<A>(c: Closure<A>, now: int, args: A, wait: int, opts: Options)
    requires !(c.lastCallTime == 0 && opts.leading) && !opts.trailing
    ensures Calling(c, now, args, wait, opts) == Step(c.(lastArgs := Some(args)), None)
  {
  }

  /** A timer that fires when it is due delivers the latest arguments and leaves nothing pending. */
  lemma TimerDelivers<A>(c: Closure<A>, time: int, wait: int, opts: Options)
    requires Inv(c, wait, opts) && c.timer.Some? && time >= c.timer.value
    ensures Firing(c, time, wait) == Step(Closure(None, time, None), c.lastArgs)
    ensures c.lastArgs.Some?
  {
  }

  /** `cancel` clears the timer and the pending call and re-arms the leading edge. */
  lemma CancelReArms<A>(c: Closure<A>, now: int, args: A, wait: int, opts: Options)
    requires opts.leading
    ensures Cancelled(c) == Fresh()
    ensures Calling(Cancelled(c), now, args, wait, opts).called == Some(args)
  {
  }

  /** `flush` calls `func` once with the pending call and clears it; with none pending it only drops the timer. */
  lemma FlushOnce<A>(c: Closure<A>, now: int)
    ensures Flushed(c, now).called == c.lastArgs
    ensures Flushed(c, now).closure.lastArgs.None? && Flushed(c, now).closure.timer.None?
    ensures c.lastArgs.None? ==> Flushed(c, now).closure == c.(timer := None)
    ensures Flushed(Flushed(c, now).closure, now).called.None?
  {
  }

  /** An event the wrapper sees: a call, the timer firing, `cancel` or `flush`. */
  datatype Event<A> = CallAt(now: int, args: A) | FireAt(time: int) | CancelNow | FlushAt(at: int)

  /** The calls `func` receives over a run of events; the timer fires only while one is pending. */
  function Run<A>(c: Closure<A>, events: seq<Event<A>>, wait: int, opts: Options): seq<A>
    decreases |events|
  {
    if |events| == 0 then []
    else
      var st := match events[0]
        case CallAt(now, args) => Calling(c, now, args, wait, opts)
        case FireAt(time) => if c.timer.Some? then Firing(c, time, wait) else Step(c, None)
        case CancelNow => Step(Cancelled(c), None)
        case FlushAt(at) => Flushed(c, at);
      (if st.called.Some? then [st.called.value] else []) + Run(st.closure, events[1..], wait, opts)
  }

  /**
   * With trailing calls off, once a call has been recorded at a non-zero
   * time, further calls and timer events never reach `func`.
   */
  lemma {:induction false} NoTrailingNoCalls<A>(c: Closure<A>, events: seq<Event<A>>, wait: int, opts: Options)
    requires !opts.trailing && c.lastCallTime != 0 && c.timer.None?
    requires forall i :: 0 <= i < |events| ==> events[i].CallAt? || events[i].FireAt?
    decreases |events|
    ensures Run(c, events, wait, opts) == []
  {
    if |events| > 0 {
      assert c.lastArgs.Some? ==> events[0].CallAt? || events[0].FireAt?;
      var rest := events[1..];
      assert forall i :: 0 <= i < |rest| ==> rest[i] == events[i + 1];
      NoTrailingNoCalls(c.(lastArgs := if events[0].CallAt? then Some(events[0].args) else c.lastArgs), rest, wait, opts);
    }
  }
}
