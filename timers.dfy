/** Stand-in for the countdown timer the controllers use. The timer class
    itself is not part of this model; the rules below are assumptions chosen
    to match how the controllers use it:
    - Start sets the remaining time to the full duration and marks the timer
      running; its start hook fires.
    - Stop marks the timer idle. Its stop hook fires when the timer was
      running; whether it also fires on an idle timer is left open as the
      flag `idleStopFires` that every controller that stops a timer carries.
    - Tick subtracts the step from the remaining time while that is positive,
      and stops the timer (firing the stop hook) once it is no longer positive.
    - Progress is the elapsed fraction of the duration, clamped to [0, 1]. */
module Timers {

  datatype Timer = Timer(duration: real, remaining: real, running: bool)

  /** Result of an operation that may fire the timer's stop hook. */
  datatype Outcome = Outcome(timer: Timer, fired: bool)

  /** A timer as constructed: idle, with its configured duration. */
  function Create(duration: real): Timer {
    Timer(duration, duration, false)
  }

  function Start(t: Timer): Timer {
    Timer(t.duration, t.duration, true)
  }

  function Stop(t: Timer, idleStopFires: bool): Outcome {
    Outcome(t.(running := false), t.running || idleStopFires)
  }

  function Tick(t: Timer, dt: real): Outcome {
    if !t.running then Outcome(t, false)
    else
      var rem := if t.remaining > 0.0 then t.remaining - dt else t.remaining;
      if rem <= 0.0 then Outcome(Timer(t.duration, rem, false), true)
      else Outcome(t.(remaining := rem), false)
  }

  function Clamp01(v: real): (r: real)
    ensures 0.0 <= r <= 1.0
    ensures 0.0 <= v <= 1.0 ==> r == v
  {
    if v < 0.0 then 0.0 else if v > 1.0 then 1.0 else v
  }

  function Progress(t: Timer): (r: real)
    ensures 0.0 <= r <= 1.0
    ensures t.duration <= 0.0 ==> r == 1.0
  {
    if t.duration <= 0.0 then 1.0 else Clamp01((t.duration - t.remaining) / t.duration)
  }

  /** Starting restarts the countdown from the full duration, whatever the
      timer was doing, and a freshly started timer has made no progress. */
  lemma StartRestarts(t: Timer)
    ensures Start(t).running && Start(t).duration == t.duration
    ensures Start(t).remaining == t.duration
    ensures t.duration > 0.0 ==> Progress(Start(t)) == 0.0
  {
  }

  /** One tick fires the stop hook exactly when a running timer runs out;
      an idle timer is untouched, and a timer still running after the tick
      has time left. */
  lemma TickFiresWhenDue(t: Timer, dt: real)
    ensures Tick(t, dt).fired ==> t.running && !Tick(t, dt).timer.running
    ensures !t.running ==> Tick(t, dt) == Outcome(t, false)
    ensures t.running && t.remaining > 0.0 ==>
              (Tick(t, dt).fired <==> dt >= t.remaining)
    ensures Tick(t, dt).timer.running ==> Tick(t, dt).timer.remaining > 0.0
    ensures Tick(t, dt).timer.duration == t.duration
  {
  }

  /** Progress never decreases over a tick with a non-negative step. */
  lemma ProgressMonotone(t: Timer, dt: real)
    requires dt >= 0.0
    ensures Progress(Tick(t, dt).timer) >= Progress(t)
  {
    var u := Tick(t, dt).timer;
    if t.duration > 0.0 {
      assert u.remaining <= t.remaining;
      var a := (t.duration - t.remaining) / t.duration;
      var b := (t.duration - u.remaining) / t.duration;
      assert b - a == (t.remaining - u.remaining) / t.duration;
      assert b >= a;
    }
  }

  function Sum(ds: seq<real>): real {
    if ds == [] then 0.0 else ds[0] + Sum(ds[1..])
  }

  ghost predicate NonNegative(ds: seq<real>) {
    forall i :: 0 <= i < |ds| ==> ds[i] >= 0.0
  }

  /** The timer after ticking once per step of `ds`, in order. */
  function TickAll(t: Timer, ds: seq<real>): Timer
    decreases ds
  {
    if ds == [] then t else TickAll(Tick(t, ds[0]).timer, ds[1..])
  }

  /** How many of those ticks fired the stop hook. */
  function FireCount(t: Timer, ds: seq<real>): nat
    decreases ds
  {
    if ds == [] then 0
    else (if Tick(t, ds[0]).fired then 1 else 0) + FireCount(Tick(t, ds[0]).timer, ds[1..])
  }

  lemma {:induction false} SumNonNegative(ds: seq<real>)
    requires NonNegative(ds)
    ensures Sum(ds) >= 0.0
  {
    if ds != [] {
      SumNonNegative(ds[1..]);
    }
  }

  /** Ticking an idle timer changes nothing and fires nothing. */
  lemma {:induction false} IdleStaysIdle(t: Timer, ds: seq<real>)
    requires !t.running
    ensures TickAll(t, ds) == t && FireCount(t, ds) == 0
  {
    if ds != [] {
      IdleStaysIdle(t, ds[1..]);
    }
  }

  /** A running timer with time r left stays running exactly while the steps
      so far sum to less than r, its remaining time is r minus that sum while
      it runs, and its stop hook fires exactly once if and when the sum
      reaches r. */
  lemma {:induction false} RunsUntilElapsed(t: Timer, ds: seq<real>)
    requires t.running && t.remaining > 0.0 && NonNegative(ds)
    ensures TickAll(t, ds).running <==> Sum(ds) < t.remaining
    ensures TickAll(t, ds).running ==> TickAll(t, ds).remaining == t.remaining - Sum(ds)
    ensures FireCount(t, ds) == if Sum(ds) >= t.remaining then 1 else 0
    decreases ds
  {
    if ds != [] {
      var o := Tick(t, ds[0]);
      assert NonNegative(ds[1..]) by {
        forall i | 0 <= i < |ds[1..]| ensures ds[1..][i] >= 0.0 {
          assert ds[1..][i] == ds[i + 1];
        }
      }
      SumNonNegative(ds[1..]);
      if o.fired {
        IdleStaysIdle(o.timer, ds[1..]);
      } else {
        RunsUntilElapsed(o.timer, ds[1..]);
      }
    }
  }

  /** From Start, a timer of positive duration runs until the elapsed steps
      reach the duration, and it stops exactly once. */
  lemma StartedTimerLifetime(t: Timer, ds: seq<real>)
    requires t.duration > 0.0 && NonNegative(ds)
    ensures TickAll(Start(t), ds).running <==> Sum(ds) < t.duration
    ensures FireCount(Start(t), ds) == if Sum(ds) >= t.duration then 1 else 0
  {
    RunsUntilElapsed(Start(t), ds);
  }
}
