/** The player controller with jump, dash and attack (PlayerController.cs),
    and the jump and dash states it drives (StateMachine/JumpState.cs).

    The controller owns five countdown timers, kept in the list order the
    source ticks them in: jump, jump cooldown, dash, dash cooldown, attack.
    Input events start or stop them under boolean guards; timer hooks set the
    vertical and horizontal launch values and chain the cooldowns; a state
    machine over Locomotion, Jump, Dash and Attack reads the timers in its
    guards. The spec functions below describe each operation on a snapshot of
    the controller's data; the class methods are proved to follow them. */
module Player {
  import opened Vectors
  import opened Timers
  import opened StateMachines
  import opened Engine

  datatype PlayerState = Locomotion | Jump | Dash | Attack

  /** The guards of the declared transitions. */
  datatype Guard =
    | JumpTimerRunning
    | DashTimerRunning
    | AttackTimerRunning
    | AttackTimerIdle
    | ReturnToLocomotionState

  const JumpIx: nat := 0
  const JumpCooldownIx: nat := 1
  const DashIx: nat := 2
  const DashCooldownIx: nat := 3
  const AttackIx: nat := 4
  const TimerCount: nat := 5

  /** Configuration; `idleStopFires` is the open timer rule (see Timers). */
  datatype Settings = Settings(
    moveSpeed: real,
    jumpForce: real,
    jumpDuration: real,
    jumpCooldown: real,
    gravityMultiplier: real,
    dashForce: real,
    dashDuration: real,
    dashCooldown: real,
    attackCooldown: real,
    idleStopFires: bool)

  /** The inspector defaults of the source. */
  const Defaults: Settings := Settings(6.0, 10.0, 0.5, 0.0, 3.0, 10.0, 1.0, 2.0, 0.5, false)

  /** The controller data the operations change: the timer list, the two
      launch values and the body velocity. */
  datatype Snapshot = Snapshot(timers: seq<Timer>, jumpVelocity: real, dashVelocity: real, velocity: Vec3)

  predicate WellFormed(p: Snapshot) {
    |p.timers| == TimerCount
  }

  function Running(p: Snapshot, i: nat): bool
    requires WellFormed(p) && i < TimerCount
  {
    p.timers[i].running
  }

  /** What holds of the controller between operations: each timer keeps its
      configured duration, the dash multiplier is the dash force exactly
      while the dash runs and 1 otherwise, and the jump and its cooldown
      never run together. */
  ghost predicate Consistent(st: Settings, p: Snapshot) {
    WellFormed(p) &&
    p.timers[JumpIx].duration == st.jumpDuration &&
    p.timers[JumpCooldownIx].duration == st.jumpCooldown &&
    p.timers[DashIx].duration == st.dashDuration &&
    p.timers[DashCooldownIx].duration == st.dashCooldown &&
    p.timers[AttackIx].duration == st.attackCooldown &&
    p.dashVelocity == (if p.timers[DashIx].running then st.dashForce else 1.0) &&
    !(p.timers[JumpIx].running && p.timers[JumpCooldownIx].running)
  }

  /** q's timers have the durations of p's: only Start, Stop and Tick touch
      a timer, and none of them changes its duration. */
  predicate SameDurations(p: Snapshot, q: Snapshot)
    requires WellFormed(p) && WellFormed(q)
  {
    forall k :: 0 <= k < TimerCount ==> q.timers[k].duration == p.timers[k].duration
  }

  /** The timer list SetupTimers builds. */
  function InitialTimers(st: Settings): seq<Timer> {
    [Create(st.jumpDuration), Create(st.jumpCooldown), Create(st.dashDuration),
     Create(st.dashCooldown), Create(st.attackCooldown)]
  }

  /** The start hooks registered in SetupTimers. */
  function OnStarted(st: Settings, p: Snapshot, i: nat): Snapshot {
    if i == JumpIx then p.(jumpVelocity := st.jumpForce)
    else if i == DashIx then p.(dashVelocity := st.dashForce)
    else p
  }

  /** The stop hooks registered in SetupTimers. */
  function OnStopped(st: Settings, p: Snapshot, i: nat): (r: Snapshot)
    requires WellFormed(p)
    ensures WellFormed(r)
    ensures SameDurations(p, r)
  {
    if i == JumpIx then p.(timers := p.timers[JumpCooldownIx := Start(p.timers[JumpCooldownIx])])
    else if i == DashIx then
      p.(dashVelocity := 1.0, timers := p.timers[DashCooldownIx := Start(p.timers[DashCooldownIx])])
    else p
  }

  function StartAt(st: Settings, p: Snapshot, i: nat): (r: Snapshot)
    requires WellFormed(p) && i < TimerCount
    ensures WellFormed(r)
  {
    OnStarted(st, p.(timers := p.timers[i := Start(p.timers[i])]), i)
  }

  function StopAt(st: Settings, p: Snapshot, i: nat): (r: Snapshot)
    requires WellFormed(p) && i < TimerCount
    ensures WellFormed(r)
    ensures SameDurations(p, r)
  {
    var o := Stop(p.timers[i], st.idleStopFires);
    var q := p.(timers := p.timers[i := o.timer]);
    if o.fired then OnStopped(st, q, i) else q
  }

  function TickAt(st: Settings, p: Snapshot, i: nat, dt: real): (r: Snapshot)
    requires WellFormed(p) && i < TimerCount
    ensures WellFormed(r)
    ensures SameDurations(p, r)
  {
    var o := Tick(p.timers[i], dt);
    var q := p.(timers := p.timers[i := o.timer]);
    if o.fired then OnStopped(st, q, i) else q
  }

  /** Ticking the timers from position i to the end of the list. */
  function TickFrom(st: Settings, p: Snapshot, dt: real, i: nat): (r: Snapshot)
    requires WellFormed(p) && i <= TimerCount
    ensures WellFormed(r)
    ensures SameDurations(p, r)
    decreases TimerCount - i
  {
    if i == TimerCount then p else TickFrom(st, TickAt(st, p, i, dt), dt, i + 1)
  }

  /** HandleTimers: every timer ticked once, in list order. */
  function AfterTimers(st: Settings, p: Snapshot, dt: real): Snapshot
    requires WellFormed(p)
  {
    TickFrom(st, p, dt, 0)
  }

  /** OnAttack. */
  function AfterAttackInput(st: Settings, p: Snapshot): Snapshot
    requires WellFormed(p)
  {
    if !Running(p, AttackIx) then StartAt(st, p, AttackIx) else p
  }

  /** OnJump. */
  function AfterJumpInput(st: Settings, p: Snapshot, performed: bool, grounded: bool): Snapshot
    requires WellFormed(p)
  {
    if performed && !Running(p, JumpIx) && !Running(p, JumpCooldownIx) && grounded then
      StartAt(st, p, JumpIx)
    else if !performed && Running(p, JumpCooldownIx) then
      StopAt(st, p, JumpIx)
    else p
  }

  /** OnDash. */
  function AfterDashInput(st: Settings, p: Snapshot, performed: bool): Snapshot
    requires WellFormed(p)
  {
    if performed && !Running(p, DashIx) && !Running(p, DashCooldownIx) then
      StartAt(st, p, DashIx)
    else if !performed && Running(p, DashIx) then
      StopAt(st, p, DashIx)
    else p
  }

  /** HandleJump, gravity-only variant. */
  function AfterHandleJump(st: Settings, p: Snapshot, grounded: bool, gravityY: real, dt: real): Snapshot
    requires WellFormed(p)
  {
    if !Running(p, JumpIx) && grounded then
      StopAt(st, p.(jumpVelocity := 0.0), JumpIx)
    else
      var jv := if !Running(p, JumpIx) then p.jumpVelocity + gravityY * st.gravityMultiplier * dt
                else p.jumpVelocity;
      p.(jumpVelocity := jv, velocity := p.velocity.(y := jv))
  }

  /** HandleMovement with HandleHorizontalMovement, `direction` being the
      camera-adjusted input direction. */
  function AfterHandleMovement(st: Settings, p: Snapshot, direction: Vec3, dt: real): Snapshot {
    if direction != Zero then
      var k := st.moveSpeed * p.dashVelocity * dt;
      p.(velocity := Vec3(direction.x * k, p.velocity.y, direction.z * k))
    else
      p.(velocity := Vec3(0.0, p.velocity.y, 0.0))
  }

  /** ReturnToLocomotionState. */
  function ReturnToLocomotion(p: Snapshot, grounded: bool): bool
    requires WellFormed(p)
  {
    grounded && !Running(p, AttackIx) && !Running(p, JumpIx) && !Running(p, DashIx)
  }

  /** The guards that hold. Every guard is a side-effect-free read, so
      evaluating them all up front agrees with evaluating them lazily. */
  function Holding(p: Snapshot, grounded: bool): set<Guard>
    requires WellFormed(p)
  {
    (if Running(p, JumpIx) then {JumpTimerRunning} else {}) +
    (if Running(p, DashIx) then {DashTimerRunning} else {}) +
    (if Running(p, AttackIx) then {AttackTimerRunning} else {AttackTimerIdle}) +
    (if ReturnToLocomotion(p, grounded) then {ReturnToLocomotionState} else {})
  }

  /** The machine SetupStateMachine builds. */
  function Table(): Machine<PlayerState, Guard> {
    var m := Empty();
    var m := AddTransition(m, Locomotion, Jump, JumpTimerRunning);
    var m := AddTransition(m, Locomotion, Dash, DashTimerRunning);
    var m := AddTransition(m, Locomotion, Attack, AttackTimerRunning);
    var m := AddTransition(m, Attack, Locomotion, AttackTimerIdle);
    var m := AddAnyTransition(m, Locomotion, ReturnToLocomotionState);
    SetState(m, Locomotion).machine
  }

  /** The current state's fixed-step hook. The Locomotion and Attack state
      classes are not part of this model; their hooks are taken to leave the
      controller data alone. */
  function FixedStep(st: Settings, p: Snapshot, s: PlayerState, grounded: bool, gravityY: real,
                     dt: real, direction: Vec3): Snapshot
    requires WellFormed(p)
  {
    match s
    case Jump => AfterHandleMovement(st, AfterHandleJump(st, p, grounded, gravityY, dt), direction, dt)
    case Dash => AfterHandleMovement(st, p, direction, dt)
    case _ => p
  }

  /** The clip an entered state requests (JumpState and DashState OnEnter). */
  function EnterClips(hooks: seq<Hook<PlayerState>>): seq<Clip> {
    if hooks == [] then []
    else
      var c := match hooks[0]
        case Enter(Jump) => [JumpClip]
        case Enter(Dash) => [DashClip]
        case _ => [];
      c + EnterClips(hooks[1..])
  }

  /** The clips of a suffix are those of its first hook followed by those
      of the rest. */
  lemma ClipsSplit(hooks: seq<Hook<PlayerState>>, k: nat)
    requires k < |hooks|
    ensures EnterClips(hooks[k..]) == EnterClips([hooks[k]]) + EnterClips(hooks[k + 1..])
  {
    assert hooks[k..][1..] == hooks[k + 1..];
  }

  // ---------------------------------------------------------------------
  // Properties of the declared machine.

  /** After setup the machine is in Locomotion; Locomotion's edges go to
      Jump, Dash and Attack in that order, each guarded by that timer
      running; Attack returns to Locomotion when the attack timer is idle;
      the one any-state edge targets Locomotion. */
  lemma TableShape()
    ensures Table().current == Some(Locomotion)
    ensures Outgoing(Table(), Locomotion) ==
            [Transition(Jump, JumpTimerRunning), Transition(Dash, DashTimerRunning),
             Transition(Attack, AttackTimerRunning)]
    ensures Outgoing(Table(), Attack) == [Transition(Locomotion, AttackTimerIdle)]
    ensures Outgoing(Table(), Jump) == [] && Outgoing(Table(), Dash) == []
    ensures Table().any == [Transition(Locomotion, ReturnToLocomotionState)]
  {
  }

  /** The any-state guard holds exactly when the player is grounded and
      none of the attack, jump or dash timers runs. */
  lemma ReturnGuardExact(p: Snapshot, grounded: bool)
    requires WellFormed(p)
    ensures ReturnToLocomotionState in Holding(p, grounded) <==>
            grounded && !p.timers[AttackIx].running && !p.timers[JumpIx].running &&
            !p.timers[DashIx].running
    ensures JumpTimerRunning in Holding(p, grounded) <==> p.timers[JumpIx].running
    ensures DashTimerRunning in Holding(p, grounded) <==> p.timers[DashIx].running
    ensures AttackTimerRunning in Holding(p, grounded) <==> p.timers[AttackIx].running
    ensures AttackTimerIdle in Holding(p, grounded) <==> !p.timers[AttackIx].running
  {
  }

  /** The machine in state c. */
  function TableAt(c: PlayerState): Machine<PlayerState, Guard> {
    Table().(current := Some(c))
  }

  /** Where a frame update goes from each state: the return guard first,
      then the state's own edges in declaration order. */
  lemma PlayerNextState(c: PlayerState, p: Snapshot, grounded: bool)
    requires WellFormed(p)
    ensures var n := NextState(TableAt(c), Holding(p, grounded));
            if ReturnToLocomotion(p, grounded) then n == Some(Locomotion)
            else match c
              case Locomotion =>
                n == (if Running(p, JumpIx) then Some(Jump)
                      else if Running(p, DashIx) then Some(Dash)
                      else if Running(p, AttackIx) then Some(Attack)
                      else None)
              case Attack => n == (if !Running(p, AttackIx) then Some(Locomotion) else None)
              case _ => n == None
  {
    TableShape();
    ReturnGuardExact(p, grounded);
    var h := Holding(p, grounded);
    var m := TableAt(c);
    assert m.any[1..] == [];
    assert FirstMatch(m.any, h) == if ReturnToLocomotionState in h then Some(Locomotion) else None;
    OwnEdges(h);
  }

  /** The first holding edge of each state's own list. */
  lemma OwnEdges(h: set<Guard>)
    ensures FirstMatch(Outgoing(Table(), Locomotion), h) ==
            if JumpTimerRunning in h then Some(Jump)
            else if DashTimerRunning in h then Some(Dash)
            else if AttackTimerRunning in h then Some(Attack)
            else None
    ensures FirstMatch(Outgoing(Table(), Attack), h) == if AttackTimerIdle in h then Some(Locomotion) else None
    ensures FirstMatch(Outgoing(Table(), Jump), h) == None && FirstMatch(Outgoing(Table(), Dash), h) == None
  {
    TableShape();
    var out := Outgoing(Table(), Locomotion);
    assert FirstMatch(out, h) == if JumpTimerRunning in h then Some(Jump) else FirstMatch(out[1..], h);
    assert FirstMatch(out[1..], h) ==
           if DashTimerRunning in h then Some(Dash) else FirstMatch(out[1..][1..], h);
    assert FirstMatch(out[1..][1..], h) ==
           if AttackTimerRunning in h then Some(Attack) else FirstMatch(out[1..][1..][1..], h);
    assert out[1..][1..][1..] == [];
    assert Outgoing(Table(), Attack)[1..] == [];
  }

  /** Whether the any-state edge is checked before or after a state's own
      edges makes no difference to this table: the return guard excludes
      every timer guard of Locomotion, and Attack's own edge has the same
      target as the any-state edge. */
  lemma AnyOrderUnobservable(c: PlayerState, p: Snapshot, grounded: bool)
    requires WellFormed(p)
    ensures NextState(TableAt(c), Holding(p, grounded)) == NextStateAnyLast(TableAt(c), Holding(p, grounded))
  {
    PlayerNextState(c, p, grounded);
    TableShape();
  }

  /** The only way into Locomotion from Jump or Dash is the any-state edge,
      so the player leaves a jump or a dash only once grounded with every
      action timer idle. */
  lemma JumpAndDashLeaveOnlyWhenSettled(c: PlayerState, p: Snapshot, grounded: bool)
    requires WellFormed(p) && (c == Jump || c == Dash)
    ensures NextState(TableAt(c), Holding(p, grounded)).Some? <==> ReturnToLocomotion(p, grounded)
  {
    PlayerNextState(c, p, grounded);
  }

  // ---------------------------------------------------------------------
  // Properties of the input handlers and timer hooks.

  /** OnAttack starts the attack timer when it is idle and changes nothing
      when it already runs. */
  lemma AttackInputGate(st: Settings, p: Snapshot)
    requires WellFormed(p)
    ensures var r := AfterAttackInput(st, p);
            if p.timers[AttackIx].running then r == p
            else r == p.(timers := p.timers[AttackIx := Start(p.timers[AttackIx])])
  {
  }

  /** A jump press starts the jump timer, and so sets the vertical launch
      value to the jump force, only when both jump timers are idle and the
      player is grounded; any other press changes nothing. */
  lemma JumpPressGate(st: Settings, p: Snapshot, grounded: bool)
    requires WellFormed(p)
    ensures var r := AfterJumpInput(st, p, true, grounded);
            if !p.timers[JumpIx].running && !p.timers[JumpCooldownIx].running && grounded then
              r == p.(timers := p.timers[JumpIx := Start(p.timers[JumpIx])], jumpVelocity := st.jumpForce)
            else r == p
  {
  }

  /** A jump release calls Stop on the jump timer only while the cooldown
      runs; otherwise it changes nothing. */
  lemma JumpReleaseGate(st: Settings, p: Snapshot, grounded: bool)
    requires WellFormed(p)
    ensures var r := AfterJumpInput(st, p, false, grounded);
            if p.timers[JumpCooldownIx].running then r == StopAt(st, p, JumpIx)
            else r == p
  {
  }

  /** Because the cooldown only runs once the jump is over, a release never
      cuts a running jump short: with the guarded stop rule it changes
      nothing at all, and with the other rule it only restarts the
      cooldown. */
  lemma ReleaseNeverCutsJump(st: Settings, p: Snapshot, grounded: bool)
    requires Consistent(st, p)
    ensures var r := AfterJumpInput(st, p, false, grounded);
            r.timers[JumpIx] == p.timers[JumpIx] && r.jumpVelocity == p.jumpVelocity &&
            (!st.idleStopFires ==> r == p) &&
            (st.idleStopFires && p.timers[JumpCooldownIx].running ==>
               r.timers[JumpCooldownIx] == Start(p.timers[JumpCooldownIx]))
  {
    if p.timers[JumpCooldownIx].running {
      assert !p.timers[JumpIx].running;
      assert p.timers[JumpIx].(running := false) == p.timers[JumpIx];
    }
  }

  /** A dash press starts the dash timer, which sets the horizontal
      multiplier to the dash force, only when both dash timers are idle; a
      release stops it only while it runs, which restores the multiplier to 1
      and starts the dash cooldown; all else changes nothing. */
  lemma DashInputGate(st: Settings, p: Snapshot, performed: bool)
    requires WellFormed(p)
    ensures var r := AfterDashInput(st, p, performed);
            if performed && !p.timers[DashIx].running && !p.timers[DashCooldownIx].running then
              r == p.(timers := p.timers[DashIx := Start(p.timers[DashIx])], dashVelocity := st.dashForce)
            else if !performed && p.timers[DashIx].running then
              r == p.(dashVelocity := 1.0,
                      timers := p.timers[DashIx := p.timers[DashIx].(running := false)]
                                        [DashCooldownIx := Start(p.timers[DashCooldownIx])])
            else r == p
  {
  }

  /** The hooks: starting the jump sets the launch value, stopping a running
      jump starts its cooldown, starting the dash sets the multiplier and
      stopping a running dash resets it to 1 and starts its cooldown. */
  lemma TimerHooks(st: Settings, p: Snapshot)
    requires WellFormed(p)
    ensures StartAt(st, p, JumpIx).jumpVelocity == st.jumpForce
    ensures StartAt(st, p, DashIx).dashVelocity == st.dashForce
    ensures p.timers[JumpIx].running ==>
              StopAt(st, p, JumpIx).timers[JumpCooldownIx] == Start(p.timers[JumpCooldownIx])
    ensures p.timers[DashIx].running ==>
              StopAt(st, p, DashIx).dashVelocity == 1.0 &&
              StopAt(st, p, DashIx).timers[DashCooldownIx] == Start(p.timers[DashCooldownIx])
  {
  }

  /** A timer that runs out during a tick fires its stop hook: the end of
      the jump starts the jump cooldown, the end of the dash resets the
      multiplier to 1 and starts the dash cooldown, and the other timers'
      ends change nothing else. A tick that does not fire only updates that
      timer. */
  lemma ExpiryHooks(st: Settings, p: Snapshot, i: nat, dt: real)
    requires WellFormed(p) && i < TimerCount
    ensures var o := Tick(p.timers[i], dt);
            var q := p.(timers := p.timers[i := o.timer]);
            TickAt(st, p, i, dt) ==
              if !o.fired then q
              else if i == JumpIx then q.(timers := q.timers[JumpCooldownIx := Start(p.timers[JumpCooldownIx])])
              else if i == DashIx then
                q.(dashVelocity := 1.0, timers := q.timers[DashCooldownIx := Start(p.timers[DashCooldownIx])])
              else q
  {
  }

  /** Over a whole frame: a jump that ends in the frame's tick leaves its
      cooldown running at the end of the frame, already ticked once, when
      the step is shorter than the cooldown; likewise for the dash, whose
      end also resets the multiplier to 1. */
  lemma FrameStartsCooldowns(st: Settings, p: Snapshot, dt: real)
    requires Consistent(st, p) && 0.0 <= dt
    ensures Tick(p.timers[JumpIx], dt).fired && dt < st.jumpCooldown ==>
              AfterTimers(st, p, dt).timers[JumpCooldownIx] == Timer(st.jumpCooldown, st.jumpCooldown - dt, true)
    ensures Tick(p.timers[DashIx], dt).fired && dt < st.dashCooldown ==>
              AfterTimers(st, p, dt).timers[DashCooldownIx] == Timer(st.dashCooldown, st.dashCooldown - dt, true) &&
              AfterTimers(st, p, dt).dashVelocity == 1.0
  {
    TimersTickInListOrder(st, p, dt);
    var p1 := TickAt(st, p, JumpIx, dt);
    var p2 := TickAt(st, p1, JumpCooldownIx, dt);
    var p3 := TickAt(st, p2, DashIx, dt);
    var p4 := TickAt(st, p3, DashCooldownIx, dt);
    var p5 := TickAt(st, p4, AttackIx, dt);
    ExpiryHooks(st, p, JumpIx, dt);
    ExpiryHooks(st, p1, JumpCooldownIx, dt);
    ExpiryHooks(st, p2, DashIx, dt);
    ExpiryHooks(st, p3, DashCooldownIx, dt);
    ExpiryHooks(st, p4, AttackIx, dt);
  }

  /** HandleTimers ticks the five timers once each, in list order. */
  lemma TimersTickInListOrder(st: Settings, p: Snapshot, dt: real)
    requires WellFormed(p)
    ensures AfterTimers(st, p, dt) ==
            TickAt(st, TickAt(st, TickAt(st, TickAt(st, TickAt(st, p,
              JumpIx, dt), JumpCooldownIx, dt), DashIx, dt), DashCooldownIx, dt), AttackIx, dt)
  {
    var p1 := TickAt(st, p, 0, dt);
    var p2 := TickAt(st, p1, 1, dt);
    var p3 := TickAt(st, p2, 2, dt);
    var p4 := TickAt(st, p3, 3, dt);
    var p5 := TickAt(st, p4, 4, dt);
    assert TickFrom(st, p5, dt, 5) == p5;
    assert TickFrom(st, p4, dt, 4) == p5;
    assert TickFrom(st, p3, dt, 3) == p5;
    assert TickFrom(st, p2, dt, 2) == p5;
    assert TickFrom(st, p1, dt, 1) == p5;
  }

  // ---------------------------------------------------------------------
  // The invariant is kept by every operation.

  lemma StopKeeps(st: Settings, p: Snapshot, i: nat)
    requires Consistent(st, p) && i < TimerCount
    ensures Consistent(st, StopAt(st, p, i))
  {
  }

  lemma TickKeeps(st: Settings, p: Snapshot, i: nat, dt: real)
    requires Consistent(st, p) && i < TimerCount
    ensures Consistent(st, TickAt(st, p, i, dt))
  {
  }

  lemma {:induction false} TickFromKeeps(st: Settings, p: Snapshot, dt: real, i: nat)
    requires Consistent(st, p) && i <= TimerCount
    ensures Consistent(st, TickFrom(st, p, dt, i))
    decreases TimerCount - i
  {
    if i < TimerCount {
      TickKeeps(st, p, i, dt);
      TickFromKeeps(st, TickAt(st, p, i, dt), dt, i + 1);
    }
  }

  lemma InputsKeep(st: Settings, p: Snapshot, performed: bool, grounded: bool)
    requires Consistent(st, p)
    ensures Consistent(st, AfterAttackInput(st, p))
    ensures Consistent(st, AfterJumpInput(st, p, performed, grounded))
    ensures Consistent(st, AfterDashInput(st, p, performed))
  {
  }

  lemma FixedStepKeeps(st: Settings, p: Snapshot, s: PlayerState, grounded: bool, gravityY: real,
                       dt: real, direction: Vec3)
    requires Consistent(st, p)
    ensures Consistent(st, FixedStep(st, p, s, grounded, gravityY, dt, direction))
  {
    StopKeeps(st, p.(jumpVelocity := 0.0), JumpIx);
  }

  /** Setup establishes the invariant with both launch values at rest. */
  lemma SetupConsistent(st: Settings)
    ensures Consistent(st, Snapshot(InitialTimers(st), 0.0, 1.0, Zero))
  {
  }

  // ---------------------------------------------------------------------
  // Vertical and horizontal velocity.

  /** HandleJump: grounded with the jump idle, the launch value is zeroed and
      the body velocity is not written; airborne with the jump idle, gravity
      times the multiplier is integrated; while the jump runs the launch value
      is kept. Whenever the body velocity is written only its vertical
      component changes, to the launch value. */
  lemma HandleJumpBranches(st: Settings, p: Snapshot, grounded: bool, gravityY: real, dt: real)
    requires WellFormed(p)
    ensures var r := AfterHandleJump(st, p, grounded, gravityY, dt);
            (!p.timers[JumpIx].running && grounded ==>
               r.jumpVelocity == 0.0 && r.velocity == p.velocity && r.dashVelocity == p.dashVelocity) &&
            (!p.timers[JumpIx].running && !grounded ==>
               r.jumpVelocity == p.jumpVelocity + gravityY * st.gravityMultiplier * dt) &&
            (p.timers[JumpIx].running ==> r.jumpVelocity == p.jumpVelocity && r.timers == p.timers) &&
            ((p.timers[JumpIx].running || !grounded) ==>
               r.velocity == Vec3(p.velocity.x, r.jumpVelocity, p.velocity.z) && r.timers == p.timers)
  {
  }

  /** With the guarded stop rule, landing leaves every timer as it was;
      with the other rule it restarts the jump cooldown on every grounded
      fixed step. */
  lemma LandingAndCooldown(st: Settings, p: Snapshot, gravityY: real, dt: real)
    requires Consistent(st, p) && !p.timers[JumpIx].running
    ensures var r := AfterHandleJump(st, p, true, gravityY, dt);
            (!st.idleStopFires ==> r.timers == p.timers) &&
            (st.idleStopFires ==> r.timers[JumpCooldownIx] == Start(p.timers[JumpCooldownIx]))
  {
    assert p.timers[JumpIx].(running := false) == p.timers[JumpIx];
    assert p.timers[JumpIx := p.timers[JumpIx]] == p.timers;
  }

  /** Horizontal movement keeps the vertical component; with input it moves
      at the move speed times the dash multiplier, which outside a dash is 1
      and during one is the dash force; without input it stops horizontally. */
  lemma HorizontalSpeed(st: Settings, p: Snapshot, direction: Vec3, dt: real)
    requires Consistent(st, p)
    ensures var r := AfterHandleMovement(st, p, direction, dt);
            var k := st.moveSpeed * (if p.timers[DashIx].running then st.dashForce else 1.0) * dt;
            r.velocity.y == p.velocity.y &&
            r.timers == p.timers && r.jumpVelocity == p.jumpVelocity &&
            (direction != Zero ==> r.velocity.x == direction.x * k && r.velocity.z == direction.z * k) &&
            (direction == Zero ==> r.velocity.x == 0.0 && r.velocity.z == 0.0)
  {
  }

  /** The dash state's fixed step never touches the vertical launch value or
      the timers; the jump state's runs HandleJump before HandleMovement. */
  lemma FixedStepHooks(st: Settings, p: Snapshot, grounded: bool, gravityY: real, dt: real, direction: Vec3)
    requires WellFormed(p)
    ensures var r := FixedStep(st, p, Dash, grounded, gravityY, dt, direction);
            r.jumpVelocity == p.jumpVelocity && r.timers == p.timers && r.velocity.y == p.velocity.y
    ensures FixedStep(st, p, Jump, grounded, gravityY, dt, direction) ==
            AfterHandleMovement(st, AfterHandleJump(st, p, grounded, gravityY, dt), direction, dt)
    ensures FixedStep(st, p, Locomotion, grounded, gravityY, dt, direction) == p
  {
  }

  // ---------------------------------------------------------------------
  // The controller object.

  class PlayerController {
    const settings: Settings
    const animator: Animator
    var timers: seq<Timer>
    var jumpVelocity: real
    var dashVelocity: real
    var velocity: Vec3
    var movement: Vec3
    var machine: Machine<PlayerState, Guard>
    var jumpState: JumpState?
    var dashState: DashState?

    function Snap(): Snapshot
      reads this
    {
      Snapshot(timers, jumpVelocity, dashVelocity, velocity)
    }

    ghost predicate Valid()
      reads this, jumpState, dashState
    {
      Consistent(settings, Snap()) &&
      machine.transitions == Table().transitions && machine.any == Table().any &&
      machine.current.Some? && jumpState != null && dashState != null &&
      jumpState.player == this && jumpState.animator == animator &&
      dashState.player == this && dashState.animator == animator
    }

    /** Awake: SetupTimers, then SetupStateMachine. */
    constructor (settings: Settings, animator: Animator)
      ensures Valid() && this.settings == settings && this.animator == animator
      ensures machine == Table() && timers == InitialTimers(settings)
      ensures jumpVelocity == 0.0 && dashVelocity == 1.0
    {
      this.settings := settings;
      this.animator := animator;
      timers := [];
      jumpVelocity, dashVelocity := 0.0, 1.0;
      velocity, movement := Zero, Zero;
      machine := Empty();
      jumpState, dashState := null, null;
      new;
      SetupTimers();
      SetupStateMachine();
    }

    method SetupTimers()
      modifies this`timers
      ensures timers == InitialTimers(settings)
    {
      timers := [Create(settings.jumpDuration), Create(settings.jumpCooldown)];
      timers := timers + [Create(settings.dashDuration), Create(settings.dashCooldown)];
      timers := timers + [Create(settings.attackCooldown)];
    }

    method SetupStateMachine()
      modifies this`machine, this`jumpState, this`dashState
      ensures machine == Table()
      ensures fresh(jumpState) && fresh(dashState)
      ensures jumpState.player == this && jumpState.animator == animator
      ensures dashState.player == this && dashState.animator == animator
    {
      jumpState := new JumpState(this, animator);
      dashState := new DashState(this, animator);
      machine := Empty();
      machine := AddTransition(machine, Locomotion, Jump, JumpTimerRunning);
      machine := AddTransition(machine, Locomotion, Dash, DashTimerRunning);
      machine := AddTransition(machine, Locomotion, Attack, AttackTimerRunning);
      machine := AddTransition(machine, Attack, Locomotion, AttackTimerIdle);
      machine := AddAnyTransition(machine, Locomotion, ReturnToLocomotionState);
      machine := SetState(machine, Locomotion).machine;
    }

    method FireStart(i: nat)
      modifies this`jumpVelocity, this`dashVelocity
      ensures Snap() == OnStarted(settings, old(Snap()), i)
    {
      if i == JumpIx {
        jumpVelocity := settings.jumpForce;
      } else if i == DashIx {
        dashVelocity := settings.dashForce;
      }
    }

    method FireStop(i: nat)
      requires WellFormed(Snap())
      modifies this`timers, this`dashVelocity
      ensures Snap() == OnStopped(settings, old(Snap()), i)
    {
      if i == JumpIx {
        timers := timers[JumpCooldownIx := Start(timers[JumpCooldownIx])];
      } else if i == DashIx {
        dashVelocity := 1.0;
        timers := timers[DashCooldownIx := Start(timers[DashCooldownIx])];
      }
    }

    method StartTimer(i: nat)
      requires WellFormed(Snap()) && i < TimerCount
      modifies this`timers, this`jumpVelocity, this`dashVelocity
      ensures Snap() == StartAt(settings, old(Snap()), i)
    {
      timers := timers[i := Start(timers[i])];
      FireStart(i);
    }

    method StopTimer(i: nat)
      requires WellFormed(Snap()) && i < TimerCount
      modifies this`timers, this`dashVelocity
      ensures Snap() == StopAt(settings, old(Snap()), i)
    {
      var o := Stop(timers[i], settings.idleStopFires);
      timers := timers[i := o.timer];
      if o.fired {
        FireStop(i);
      }
    }

    method OnAttack()
      requires Valid()
      modifies this`timers, this`jumpVelocity, this`dashVelocity
      ensures Valid() && Snap() == AfterAttackInput(settings, old(Snap()))
    {
      InputsKeep(settings, Snap(), true, true);
      if !timers[AttackIx].running {
        StartTimer(AttackIx);
      }
    }

    method OnJump(performed: bool, grounded: bool)
      requires Valid()
      modifies this`timers, this`jumpVelocity, this`dashVelocity
      ensures Valid() && Snap() == AfterJumpInput(settings, old(Snap()), performed, grounded)
    {
      InputsKeep(settings, Snap(), performed, grounded);
      if performed && !timers[JumpIx].running && !timers[JumpCooldownIx].running && grounded {
        StartTimer(JumpIx);
      } else if !performed && timers[JumpCooldownIx].running {
        StopTimer(JumpIx);
      }
    }

    method OnDash(performed: bool)
      requires Valid()
      modifies this`timers, this`jumpVelocity, this`dashVelocity
      ensures Valid() && Snap() == AfterDashInput(settings, old(Snap()), performed)
    {
      InputsKeep(settings, Snap(), performed, true);
      if performed && !timers[DashIx].running && !timers[DashCooldownIx].running {
        StartTimer(DashIx);
      } else if !performed && timers[DashIx].running {
        StopTimer(DashIx);
      }
    }

    method HandleTimers(dt: real)
      requires Valid()
      modifies this`timers, this`dashVelocity
      ensures Valid() && Snap() == AfterTimers(settings, old(Snap()), dt)
    {
      TickFromKeeps(settings, Snap(), dt, 0);
      for i := 0 to TimerCount
        invariant WellFormed(Snap())
        invariant TickFrom(settings, Snap(), dt, i) == TickFrom(settings, old(Snap()), dt, 0)
      {
        var o := Tick(timers[i], dt);
        timers := timers[i := o.timer];
        if o.fired {
          FireStop(i);
        }
      }
    }

    /** Update: the input direction is sampled, the machine steps on the
        guards as they hold before any timer is ticked, the entered states'
        hooks run, and then the timers are ticked. */
    method Update(dt: real, grounded: bool, direction: Vec3) returns (hooks: seq<Hook<PlayerState>>)
      requires Valid()
      modifies this`timers, this`dashVelocity, this`machine, this`movement, animator
      ensures Valid() && movement == direction
      ensures var s := StateMachines.Update(old(machine), Holding(old(Snap()), grounded));
              machine == s.machine && hooks == s.hooks
      ensures Snap() == AfterTimers(settings, old(Snap()), dt)
      ensures animator.requests == old(animator.requests) + EnterClips(hooks)
    {
      movement := direction;
      var s := StateMachines.Update(machine, Holding(Snap(), grounded));
      machine := s.machine;
      hooks := s.hooks;
      RunEnterHooks(hooks);
      HandleTimers(dt);
    }

    /** Runs the OnEnter hook of one entered state. */
    method RunEnterHook(h: Hook<PlayerState>)
      requires Valid()
      modifies animator
      ensures animator.requests == old(animator.requests) + EnterClips([h])
    {
      match h {
        case Enter(Jump) => jumpState.OnEnter();
        case Enter(Dash) => dashState.OnEnter();
        case _ =>
      }
    }

    /** Runs the OnEnter hooks of the entered states (the stand-in machine's
        dispatch). */
    method RunEnterHooks(hooks: seq<Hook<PlayerState>>)
      requires Valid()
      modifies animator
      ensures animator.requests == old(animator.requests) + EnterClips(hooks)
    {
      var k := 0;
      while k < |hooks|
        invariant 0 <= k <= |hooks|
        invariant animator.requests + EnterClips(hooks[k..]) == old(animator.requests) + EnterClips(hooks)
      {
        ClipsSplit(hooks, k);
        RunEnterHook(hooks[k]);
        k := k + 1;
      }
    }

    /** FixedUpdate: the current state's fixed-step hook. */
    method FixedUpdate(grounded: bool, gravityY: real, dt: real)
      requires Valid()
      modifies this`timers, this`jumpVelocity, this`dashVelocity, this`velocity
      ensures Valid()
      ensures Snap() == FixedStep(settings, old(Snap()), machine.current.value, grounded, gravityY, dt, movement)
    {
      match machine.current.value
      case Jump => jumpState.FixedUpdate(grounded, gravityY, dt);
      case Dash => dashState.FixedUpdate(dt);
      case _ =>
    }

    method HandleJump(grounded: bool, gravityY: real, dt: real)
      requires Valid()
      modifies this`timers, this`jumpVelocity, this`dashVelocity, this`velocity
      ensures Valid() && Snap() == AfterHandleJump(settings, old(Snap()), grounded, gravityY, dt)
    {
      StopKeeps(settings, Snap().(jumpVelocity := 0.0), JumpIx);
      if !timers[JumpIx].running && grounded {
        jumpVelocity := 0.0;
        StopTimer(JumpIx);
        return;
      }
      if !timers[JumpIx].running {
        jumpVelocity := jumpVelocity + gravityY * settings.gravityMultiplier * dt;
      }
      velocity := Vec3(velocity.x, jumpVelocity, velocity.z);
    }

    method HandleMovement(dt: real)
      requires Valid()
      modifies this`velocity
      ensures Valid() && Snap() == AfterHandleMovement(settings, old(Snap()), movement, dt)
    {
      if movement != Zero {
        HandleHorizontalMovement(movement, dt);
      } else {
        velocity := Vec3(0.0, velocity.y, 0.0);
      }
    }

    method HandleHorizontalMovement(direction: Vec3, dt: real)
      modifies this`velocity
      ensures velocity == Vec3(direction.x * (settings.moveSpeed * dashVelocity * dt), old(velocity).y,
                               direction.z * (settings.moveSpeed * dashVelocity * dt))
    {
      var v := Scale(direction, settings.moveSpeed * dashVelocity * dt);
      velocity := Vec3(v.x, velocity.y, v.z);
    }
  }

  /** JumpState: requests the jump clip on entry; its fixed step runs
      HandleJump and then HandleMovement. It declares no frame or exit hook. */
  class JumpState {
    const player: PlayerController
    const animator: Animator

    constructor (player: PlayerController, animator: Animator)
      ensures this.player == player && this.animator == animator
    {
      this.player := player;
      this.animator := animator;
    }

    method OnEnter()
      modifies animator
      ensures animator.requests == old(animator.requests) + [JumpClip]
    {
      animator.CrossFade(JumpClip);
    }

    method FixedUpdate(grounded: bool, gravityY: real, dt: real)
      requires player.Valid() && player.jumpState == this
      modifies player`timers, player`jumpVelocity, player`dashVelocity, player`velocity
      ensures player.Valid()
      ensures player.Snap() == AfterHandleMovement(player.settings,
                AfterHandleJump(player.settings, old(player.Snap()), grounded, gravityY, dt),
                player.movement, dt)
    {
      player.HandleJump(grounded, gravityY, dt);
      player.HandleMovement(dt);
    }
  }

  /** DashState (nested in JumpState in the source): requests the dash clip
      on entry; its fixed step runs only HandleMovement. */
  class DashState {
    const player: PlayerController
    const animator: Animator

    constructor (player: PlayerController, animator: Animator)
      ensures this.player == player && this.animator == animator
    {
      this.player := player;
      this.animator := animator;
    }

    method OnEnter()
      modifies animator
      ensures animator.requests == old(animator.requests) + [DashClip]
    {
      animator.CrossFade(DashClip);
    }

    method FixedUpdate(dt: real)
      requires player.Valid() && player.dashState == this
      modifies player`velocity
      ensures player.Valid()
      ensures player.Snap() == AfterHandleMovement(player.settings, old(player.Snap()), player.movement, dt)
    {
      player.HandleMovement(dt);
    }
  }
}
