/** The later player controller (_Project/Scripts/PlayerController.cs): a
    jump timer and its cooldown, no state machine, and a jump arc shaped by
    the timer's progress. Each frame ticks the two timers; each fixed step
    runs HandleJump and then HandleMovement. */
module ArcPlayer {
  import opened Vectors
  import opened Timers

  const JumpIx: nat := 0
  const JumpCooldownIx: nat := 1
  const TimerCount: nat := 2

  /** The fraction of the jump timer's progress past which the launch speed
      is assigned. */
  const LaunchPoint: real := 0.9

  datatype Settings = Settings(
    moveSpeed: real,
    jumpForce: real,
    jumpDuration: real,
    jumpCooldown: real,
    jumpMaxHeight: real,
    gravityMultiplier: real,
    idleStopFires: bool)

  /** The inspector defaults of the source. */
  const Defaults: Settings := Settings(6.0, 10.0, 0.5, 0.0, 2.0, 3.0, false)

  datatype Snapshot = Snapshot(timers: seq<Timer>, jumpVelocity: real, velocity: Vec3)

  predicate WellFormed(p: Snapshot) {
    |p.timers| == TimerCount
  }

  function Running(p: Snapshot, i: nat): bool
    requires WellFormed(p) && i < TimerCount
  {
    p.timers[i].running
  }

  /** q's timers have the durations of p's. */
  predicate SameDurations(p: Snapshot, q: Snapshot)
    requires WellFormed(p) && WellFormed(q)
  {
    forall k :: 0 <= k < TimerCount ==> q.timers[k].duration == p.timers[k].duration
  }

  /** Each timer keeps its duration, and the jump and its cooldown never run
      together. */
  ghost predicate Consistent(st: Settings, p: Snapshot) {
    WellFormed(p) &&
    p.timers[JumpIx].duration == st.jumpDuration &&
    p.timers[JumpCooldownIx].duration == st.jumpCooldown &&
    !(p.timers[JumpIx].running && p.timers[JumpCooldownIx].running)
  }

  /** The launch speed sqrt(2 * jumpMaxHeight * |g|), as the non-negative
      number whose square it is; the caller supplies it precomputed. */
  ghost predicate IsLaunchSpeed(v: real, jumpMaxHeight: real, gravityY: real) {
    v >= 0.0 && v * v == 2.0 * jumpMaxHeight * (if gravityY < 0.0 then -gravityY else gravityY)
  }

  /** The only hook: stopping the jump timer starts the cooldown. */
  function OnStopped(p: Snapshot, i: nat): (r: Snapshot)
    requires WellFormed(p)
    ensures WellFormed(r)
    ensures SameDurations(p, r)
  {
    if i == JumpIx then p.(timers := p.timers[JumpCooldownIx := Start(p.timers[JumpCooldownIx])])
    else p
  }

  function StopAt(st: Settings, p: Snapshot, i: nat): (r: Snapshot)
    requires WellFormed(p) && i < TimerCount
    ensures WellFormed(r)
    ensures SameDurations(p, r)
  {
    var o := Stop(p.timers[i], st.idleStopFires);
    var q := p.(timers := p.timers[i := o.timer]);
    if o.fired then OnStopped(q, i) else q
  }

  function TickAt(p: Snapshot, i: nat, dt: real): (r: Snapshot)
    requires WellFormed(p) && i < TimerCount
    ensures WellFormed(r)
    ensures SameDurations(p, r)
  {
    var o := Tick(p.timers[i], dt);
    var q := p.(timers := p.timers[i := o.timer]);
    if o.fired then OnStopped(q, i) else q
  }

  function TickFrom(p: Snapshot, dt: real, i: nat): (r: Snapshot)
    requires WellFormed(p) && i <= TimerCount
    ensures WellFormed(r)
    ensures SameDurations(p, r)
    decreases TimerCount - i
  {
    if i == TimerCount then p else TickFrom(TickAt(p, i, dt), dt, i + 1)
  }

  /** HandleTimers. */
  function AfterTimers(p: Snapshot, dt: real): Snapshot
    requires WellFormed(p)
  {
    TickFrom(p, dt, 0)
  }

  /** OnJump. */
  function AfterJumpInput(st: Settings, p: Snapshot, performed: bool, grounded: bool): Snapshot
    requires WellFormed(p)
  {
    if performed && !Running(p, JumpIx) && !Running(p, JumpCooldownIx) && grounded then
      p.(timers := p.timers[JumpIx := Start(p.timers[JumpIx])])
    else if !performed && Running(p, JumpCooldownIx) then
      StopAt(st, p, JumpIx)
    else p
  }

  /** HandleJump with the shaped arc; `launch` is the precomputed launch
      speed. */
  function AfterHandleJump(st: Settings, p: Snapshot, grounded: bool, gravityY: real, launch: real,
                           dt: real): Snapshot
    requires WellFormed(p)
  {
    if !Running(p, JumpIx) && grounded then
      StopAt(st, p.(jumpVelocity := 0.0), JumpIx)
    else
      var t := p.timers[JumpIx];
      var jv :=
        if t.running then
          (if Progress(t) > LaunchPoint then launch
           else p.jumpVelocity + (1.0 - Progress(t)) * st.jumpForce * dt)
        else p.jumpVelocity + gravityY * st.gravityMultiplier * dt;
      p.(jumpVelocity := jv, velocity := p.velocity.(y := jv))
  }

  /** HandleMovement with HandleHorizontalMovement. */
  function AfterHandleMovement(st: Settings, p: Snapshot, direction: Vec3, dt: real): Snapshot {
    if direction != Zero then
      var k := st.moveSpeed * dt;
      p.(velocity := Vec3(direction.x * k, p.velocity.y, direction.z * k))
    else
      p.(velocity := Vec3(0.0, p.velocity.y, 0.0))
  }

  /** FixedUpdate. */
  function AfterFixedStep(st: Settings, p: Snapshot, grounded: bool, gravityY: real, launch: real,
                          dt: real, direction: Vec3): Snapshot
    requires WellFormed(p)
  {
    AfterHandleMovement(st, AfterHandleJump(st, p, grounded, gravityY, launch, dt), direction, dt)
  }

  // ---------------------------------------------------------------------

  /** Landing (grounded, jump idle) zeroes the vertical launch value and
      returns before the body velocity is written; the jump cooldown is left
      alone under the guarded stop rule and restarted under the other. */
  lemma GroundedResets(st: Settings, p: Snapshot, gravityY: real, launch: real, dt: real)
    requires Consistent(st, p) && !p.timers[JumpIx].running
    ensures var r := AfterHandleJump(st, p, true, gravityY, launch, dt);
            r.jumpVelocity == 0.0 && r.velocity == p.velocity &&
            r.timers[JumpIx] == p.timers[JumpIx] &&
            (!st.idleStopFires ==> r.timers == p.timers) &&
            (st.idleStopFires ==> r.timers[JumpCooldownIx] == Start(p.timers[JumpCooldownIx]))
  {
    assert p.timers[JumpIx].(running := false) == p.timers[JumpIx];
    assert p.timers[JumpIx := p.timers[JumpIx]] == p.timers;
  }

  /** Past the launch point the launch speed is assigned, whatever the
      vertical value was: two controllers differing only in it end up equal,
      and the value squared is 2 * jumpMaxHeight * |g|. */
  lemma LaunchAssigned(st: Settings, p: Snapshot, grounded: bool, gravityY: real, launch: real,
                       dt: real, v: real)
    requires WellFormed(p) && p.timers[JumpIx].running && Progress(p.timers[JumpIx]) > LaunchPoint
    ensures var r := AfterHandleJump(st, p, grounded, gravityY, launch, dt);
            r.jumpVelocity == launch &&
            r == AfterHandleJump(st, p.(jumpVelocity := v), grounded, gravityY, launch, dt) &&
            (IsLaunchSpeed(launch, st.jumpMaxHeight, gravityY) ==>
               r.jumpVelocity >= 0.0 &&
               r.jumpVelocity * r.jumpVelocity == 2.0 * st.jumpMaxHeight * (if gravityY < 0.0 then -gravityY else gravityY))
  {
  }

  /** Up to the launch point the vertical value grows by
      (1 - progress) * jumpForce * dt, which is never negative for a
      non-negative force and step, since progress never exceeds 1. */
  lemma ShapedGrowth(st: Settings, p: Snapshot, grounded: bool, gravityY: real, launch: real, dt: real)
    requires WellFormed(p) && p.timers[JumpIx].running && Progress(p.timers[JumpIx]) <= LaunchPoint
    ensures var r := AfterHandleJump(st, p, grounded, gravityY, launch, dt);
            r.jumpVelocity == p.jumpVelocity + (1.0 - Progress(p.timers[JumpIx])) * st.jumpForce * dt &&
            (st.jumpForce >= 0.0 && dt >= 0.0 ==> r.jumpVelocity >= p.jumpVelocity)
  {
    var a := 1.0 - Progress(p.timers[JumpIx]);
    assert a >= 0.0;
    if st.jumpForce >= 0.0 && dt >= 0.0 {
      assert a * st.jumpForce >= 0.0;
      assert a * st.jumpForce * dt >= 0.0;
    }
  }

  /** Airborne with the jump idle, gravity times the multiplier is
      integrated. Whenever the body velocity is written, only its vertical
      component changes, to the new vertical value, and no timer changes. */
  lemma AirborneAndWrite(st: Settings, p: Snapshot, grounded: bool, gravityY: real, launch: real, dt: real)
    requires WellFormed(p)
    ensures var r := AfterHandleJump(st, p, grounded, gravityY, launch, dt);
            (!p.timers[JumpIx].running && !grounded ==>
               r.jumpVelocity == p.jumpVelocity + gravityY * st.gravityMultiplier * dt) &&
            (p.timers[JumpIx].running || !grounded ==>
               r.velocity == Vec3(p.velocity.x, r.jumpVelocity, p.velocity.z) && r.timers == p.timers)
  {
  }

  /** Without input the horizontal velocity is zeroed and the vertical kept;
      with input it is the direction times the move speed and step. */
  lemma MovementBranches(st: Settings, p: Snapshot, direction: Vec3, dt: real)
    ensures var r := AfterHandleMovement(st, p, direction, dt);
            r.velocity.y == p.velocity.y && r.timers == p.timers && r.jumpVelocity == p.jumpVelocity &&
            (direction == Zero ==> r.velocity.x == 0.0 && r.velocity.z == 0.0) &&
            (direction != Zero ==> r.velocity.x == direction.x * (st.moveSpeed * dt) &&
                                   r.velocity.z == direction.z * (st.moveSpeed * dt))
  {
  }

  /** A fixed step's vertical result is HandleJump's: HandleMovement, which
      runs second, keeps the vertical component. */
  lemma FixedStepOrder(st: Settings, p: Snapshot, grounded: bool, gravityY: real, launch: real,
                       dt: real, direction: Vec3)
    requires WellFormed(p)
    ensures var j := AfterHandleJump(st, p, grounded, gravityY, launch, dt);
            var r := AfterFixedStep(st, p, grounded, gravityY, launch, dt, direction);
            r.velocity.y == j.velocity.y && r.jumpVelocity == j.jumpVelocity && r.timers == j.timers
  {
  }

  /** Each frame ticks the jump timer and then the cooldown, so a cooldown
      the jump's end starts is already ticked in that frame. */
  lemma TimersTickInListOrder(p: Snapshot, dt: real)
    requires WellFormed(p)
    ensures AfterTimers(p, dt) == TickAt(TickAt(p, JumpIx, dt), JumpCooldownIx, dt)
  {
    var p1 := TickAt(p, 0, dt);
    var p2 := TickAt(p1, 1, dt);
    assert TickFrom(p2, dt, 2) == p2;
    assert TickFrom(p1, dt, 1) == p2;
  }

  /** The end of the jump during a tick fires the stop hook, which starts
      the cooldown; the cooldown's own end changes nothing else, and a tick
      that does not fire only updates that timer. */
  lemma ExpiryHooks(p: Snapshot, i: nat, dt: real)
    requires WellFormed(p) && i < TimerCount
    ensures var o := Tick(p.timers[i], dt);
            var q := p.(timers := p.timers[i := o.timer]);
            TickAt(p, i, dt) ==
              if o.fired && i == JumpIx then q.(timers := q.timers[JumpCooldownIx := Start(p.timers[JumpCooldownIx])])
              else q
  {
  }

  /** Over a whole frame: a jump that ends in the frame's tick leaves its
      cooldown running, already ticked once, when the step is shorter than
      the cooldown. */
  lemma FrameStartsCooldown(st: Settings, p: Snapshot, dt: real)
    requires Consistent(st, p) && 0.0 <= dt < st.jumpCooldown && Tick(p.timers[JumpIx], dt).fired
    ensures AfterTimers(p, dt).timers[JumpCooldownIx] == Timer(st.jumpCooldown, st.jumpCooldown - dt, true)
  {
    TimersTickInListOrder(p, dt);
    ExpiryHooks(p, JumpIx, dt);
    ExpiryHooks(TickAt(p, JumpIx, dt), JumpCooldownIx, dt);
  }

  /** With a cooldown of zero duration (the default), a jump that ends in a
      frame's tick leaves no cooldown running at the end of that frame. */
  lemma ZeroCooldownEndsSameFrame(st: Settings, p: Snapshot, dt: real)
    requires Consistent(st, p) && st.jumpCooldown <= 0.0 && Tick(p.timers[JumpIx], dt).fired
    ensures !AfterTimers(p, dt).timers[JumpCooldownIx].running
  {
    TimersTickInListOrder(p, dt);
  }

  /** Press and release gating is that of the root controller: a press
      starts the jump only when both timers are idle and the player is
      grounded, a release stops it only while the cooldown runs, and with
      the cooldown running the jump is already idle, so a release never
      changes the jump timer. */
  lemma JumpInputGate(st: Settings, p: Snapshot, performed: bool, grounded: bool)
    requires Consistent(st, p)
    ensures var r := AfterJumpInput(st, p, performed, grounded);
            r.jumpVelocity == p.jumpVelocity &&
            (performed && !p.timers[JumpIx].running && !p.timers[JumpCooldownIx].running && grounded ==>
               r == p.(timers := p.timers[JumpIx := Start(p.timers[JumpIx])])) &&
            (performed && !(!p.timers[JumpIx].running && !p.timers[JumpCooldownIx].running && grounded) ==>
               r == p) &&
            (!performed ==> r.timers[JumpIx] == p.timers[JumpIx]) &&
            (!performed && p.timers[JumpCooldownIx].running ==> r == StopAt(st, p, JumpIx)) &&
            (!performed && p.timers[JumpCooldownIx].running && st.idleStopFires ==>
               r.timers[JumpCooldownIx] == Start(p.timers[JumpCooldownIx])) &&
            (!performed && (!p.timers[JumpCooldownIx].running || !st.idleStopFires) ==> r == p)
  {
    if !performed && p.timers[JumpCooldownIx].running {
      assert p.timers[JumpIx].(running := false) == p.timers[JumpIx];
      assert p.timers[JumpIx := p.timers[JumpIx]] == p.timers;
    }
  }

  lemma {:induction false} TickFromKeeps(st: Settings, p: Snapshot, dt: real, i: nat)
    requires Consistent(st, p) && i <= TimerCount
    ensures Consistent(st, TickFrom(p, dt, i))
    decreases TimerCount - i
  {
    if i < TimerCount {
      TickFromKeeps(st, TickAt(p, i, dt), dt, i + 1);
    }
  }

  lemma StepsKeep(st: Settings, p: Snapshot, performed: bool, grounded: bool, gravityY: real,
                  launch: real, dt: real, direction: Vec3)
    requires Consistent(st, p)
    ensures Consistent(st, AfterJumpInput(st, p, performed, grounded))
    ensures Consistent(st, AfterHandleJump(st, p, grounded, gravityY, launch, dt))
    ensures Consistent(st, AfterFixedStep(st, p, grounded, gravityY, launch, dt, direction))
  {
  }

  // ---------------------------------------------------------------------

  class PlayerController {
    const settings: Settings
    var timers: seq<Timer>
    var jumpVelocity: real
    var velocity: Vec3
    var movement: Vec3

    function Snap(): Snapshot
      reads this
    {
      Snapshot(timers, jumpVelocity, velocity)
    }

    ghost predicate Valid()
      reads this
    {
      Consistent(settings, Snap())
    }

    /** Awake: the two timers, in list order, and the stop hook. */
    constructor (settings: Settings)
      ensures Valid() && this.settings == settings
      ensures timers == [Create(settings.jumpDuration), Create(settings.jumpCooldown)]
      ensures jumpVelocity == 0.0 && velocity == Zero && movement == Zero
    {
      this.settings := settings;
      timers := [Create(settings.jumpDuration), Create(settings.jumpCooldown)];
      jumpVelocity := 0.0;
      velocity, movement := Zero, Zero;
    }

    method StopTimer(i: nat)
      requires WellFormed(Snap()) && i < TimerCount
      modifies this`timers
      ensures Snap() == StopAt(settings, old(Snap()), i)
    {
      var o := Stop(timers[i], settings.idleStopFires);
      timers := timers[i := o.timer];
      if o.fired && i == JumpIx {
        timers := timers[JumpCooldownIx := Start(timers[JumpCooldownIx])];
      }
    }

    method OnJump(performed: bool, grounded: bool)
      requires Valid()
      modifies this`timers
      ensures Valid() && Snap() == AfterJumpInput(settings, old(Snap()), performed, grounded)
    {
      StepsKeep(settings, Snap(), performed, grounded, 0.0, 0.0, 0.0, Zero);
      if performed && !timers[JumpIx].running && !timers[JumpCooldownIx].running && grounded {
        timers := timers[JumpIx := Start(timers[JumpIx])];
      } else if !performed && timers[JumpCooldownIx].running {
        StopTimer(JumpIx);
      }
    }

    /** Update: the input direction is sampled, then the timers are ticked. */
    method Update(dt: real, direction: Vec3)
      requires Valid()
      modifies this`timers, this`movement
      ensures Valid() && movement == direction
      ensures Snap() == AfterTimers(old(Snap()), dt)
    {
      movement := direction;
      HandleTimers(dt);
    }

    method HandleTimers(dt: real)
      requires Valid()
      modifies this`timers
      ensures Valid() && Snap() == AfterTimers(old(Snap()), dt)
    {
      TickFromKeeps(settings, Snap(), dt, 0);
      for i := 0 to TimerCount
        invariant WellFormed(Snap())
        invariant TickFrom(Snap(), dt, i) == TickFrom(old(Snap()), dt, 0)
      {
        var o := Tick(timers[i], dt);
        timers := timers[i := o.timer];
        if o.fired && i == JumpIx {
          timers := timers[JumpCooldownIx := Start(timers[JumpCooldownIx])];
        }
      }
    }

    /** FixedUpdate: HandleJump, then HandleMovement. */
    method FixedUpdate(grounded: bool, gravityY: real, launch: real, dt: real)
      requires Valid() && IsLaunchSpeed(launch, settings.jumpMaxHeight, gravityY)
      modifies this`timers, this`jumpVelocity, this`velocity
      ensures Valid()
      ensures Snap() == AfterFixedStep(settings, old(Snap()), grounded, gravityY, launch, dt, movement)
    {
      HandleJump(grounded, gravityY, launch, dt);
      HandleMovement(dt);
    }

    /** HandleJump. The caller supplies `launch`, which must be the launch
        speed for the current gravity; past the launch point it is the new
        vertical velocity. */
    method HandleJump(grounded: bool, gravityY: real, launch: real, dt: real)
      requires Valid() && IsLaunchSpeed(launch, settings.jumpMaxHeight, gravityY)
      modifies this`timers, this`jumpVelocity, this`velocity
      ensures Valid() && Snap() == AfterHandleJump(settings, old(Snap()), grounded, gravityY, launch, dt)
      ensures old(timers[JumpIx].running) && Progress(old(timers[JumpIx])) > LaunchPoint ==>
                jumpVelocity >= 0.0 && velocity.y == jumpVelocity &&
                jumpVelocity * jumpVelocity ==
                  2.0 * settings.jumpMaxHeight * (if gravityY < 0.0 then -gravityY else gravityY)
    {
      StepsKeep(settings, Snap(), true, grounded, gravityY, launch, dt, Zero);
      if !timers[JumpIx].running && grounded {
        jumpVelocity := 0.0;
        StopTimer(JumpIx);
        return;
      }
      if timers[JumpIx].running {
        var progress := Progress(timers[JumpIx]);
        if progress > LaunchPoint {
          jumpVelocity := launch;
        } else {
          jumpVelocity := jumpVelocity + (1.0 - progress) * settings.jumpForce * dt;
        }
      } else {
        jumpVelocity := jumpVelocity + gravityY * settings.gravityMultiplier * dt;
      }
      velocity := Vec3(velocity.x, jumpVelocity, velocity.z);
    }

    method HandleMovement(dt: real)
      requires Valid()
      modifies this`velocity
      ensures Valid() && Snap() == AfterHandleMovement(settings, old(Snap()), movement, dt)
    {
      if movement != Zero {
        var v := Scale(movement, settings.moveSpeed * dt);
        velocity := Vec3(v.x, velocity.y, v.z);
      } else {
        velocity := Vec3(0.0, velocity.y, 0.0);
      }
    }
  }
}
