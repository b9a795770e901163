/** The enemy controller (Enemy.cs): a Wander/Chase/Attack machine guarded
    by the detector's two answers, and an attack gated by a cooldown timer.

    The detector's answers are inputs to each frame (`detect` for
    CanDetectPlayer, `canAttack` for CanAttackPlayer); the player transform
    and health component are passed in at construction instead of being
    read from the detector during Start. */
module Enemies {
  import opened Vectors
  import opened Timers
  import opened StateMachines
  import opened Engine
  import opened EnemyStates

  /** The four guards of Enemy.cs, one per declared transition. */
  datatype Guard = CanDetect | CannotDetect | CanAttack | CannotAttack

  /** Damage one attack deals. */
  const AttackDamage: int := 10

  /** The guards that hold given the detector's two answers. */
  function Holding(detect: bool, canAttack: bool): (r: set<Guard>)
    ensures CanDetect in r <==> detect
    ensures CannotDetect in r <==> !detect
    ensures CanAttack in r <==> canAttack
    ensures CannotAttack in r <==> !canAttack
  {
    (if detect then {CanDetect} else {CannotDetect}) +
    (if canAttack then {CanAttack} else {CannotAttack})
  }

  /** Start: the four transitions in declaration order, then SetState(wander). */
  function Table(): Stepped<EnemyState, Guard> {
    var m := Empty<EnemyState, Guard>();
    var m := AddTransition(m, Wander, Chase, CanDetect);
    var m := AddTransition(m, Chase, Wander, CannotDetect);
    var m := AddTransition(m, Chase, Attack, CanAttack);
    var m := AddTransition(m, Attack, Chase, CannotAttack);
    SetState(m, Wander)
  }

  /** After Start the machine is in Wander, having entered it once; the
      outgoing lists are exactly the declared ones, in declaration order,
      and no any-state transition is registered. */
  lemma TableShape()
    ensures Table().machine.current == Some(Wander)
    ensures Table().hooks == [Enter(Wander)]
    ensures Table().machine.any == []
    ensures Outgoing(Table().machine, Wander) == [Transition(Chase, CanDetect)]
    ensures Outgoing(Table().machine, Chase) ==
              [Transition(Wander, CannotDetect), Transition(Attack, CanAttack)]
    ensures Outgoing(Table().machine, Attack) == [Transition(Chase, CannotAttack)]
  {
  }

  /** The machine of Start with its current state replaced. */
  function TableAt(s: EnemyState): Machine<EnemyState, Guard> {
    Table().machine.(current := Some(s))
  }

  /** Which state a frame update switches to: Wander leaves for Chase
      exactly when the player is detected; Chase returns to Wander when the
      player is lost, which is checked before the attack edge; Attack falls
      back to Chase exactly when the player is out of reach. */
  lemma EnemyNextState(s: EnemyState, detect: bool, canAttack: bool)
    ensures NextState(TableAt(s), Holding(detect, canAttack)) ==
            match s
            case Wander => if detect then Some(Chase) else None
            case Chase => if !detect then Some(Wander) else if canAttack then Some(Attack) else None
            case Attack => if !canAttack then Some(Chase) else None
  {
    TableShape();
    var h := Holding(detect, canAttack);
    var m := TableAt(s);
    assert m.any == [];
    assert FirstMatch(m.any, h) == None;
    match s {
      case Wander =>
        var ts := Outgoing(m, Wander);
        assert ts == [Transition(Chase, CanDetect)];
        assert ts[1..] == [];
      case Chase =>
        var ts := Outgoing(m, Chase);
        assert ts == [Transition(Wander, CannotDetect), Transition(Attack, CanAttack)];
        assert ts[1..] == [Transition(Attack, CanAttack)];
        assert ts[1..][1..] == [];
        assert FirstMatch(ts[1..], h) == if CanAttack in h then Some(Attack) else None;
        assert FirstMatch(ts, h) == if CannotDetect in h then Some(Wander) else FirstMatch(ts[1..], h);
      case Attack =>
        var ts := Outgoing(m, Attack);
        assert ts == [Transition(Chase, CannotAttack)];
        assert ts[1..] == [];
    }
  }

  /** Every frame update keeps the declared table; the machine of Start is
      always one of the TableAt machines. */
  lemma UpdateStaysInTable(s: EnemyState, detect: bool, canAttack: bool)
    ensures var r := StateMachines.Update(TableAt(s), Holding(detect, canAttack));
            r.machine.current.Some? && r.machine == TableAt(r.machine.current.value)
  {
    EnemyNextState(s, detect, canAttack);
  }

  /** The cooldown timer after an attack request. */
  function AttackTimer(t: Timer): Timer {
    if t.running then t else Start(t)
  }

  /** The damage an attack request deals. */
  function AttackHits(t: Timer): seq<int> {
    if t.running then [] else [AttackDamage]
  }

  /** While the cooldown runs an attack changes nothing and deals nothing;
      otherwise it restarts the cooldown from its full duration and deals
      the damage exactly once. */
  lemma AttackGate(t: Timer)
    ensures t.running ==> AttackTimer(t) == t && AttackHits(t) == []
    ensures !t.running ==> AttackTimer(t).running && AttackTimer(t).remaining == t.duration &&
                           AttackHits(t) == [AttackDamage]
    ensures AttackTimer(t).duration == t.duration
  {
  }

  /** A second attack after frames whose steps sum to less than the
      cooldown deals nothing; once they reach it, the second attack hits
      again. */
  lemma AttackCooldown(t: Timer, ds: seq<real>)
    requires !t.running && t.duration > 0.0 && NonNegative(ds)
    ensures AttackHits(TickAll(AttackTimer(t), ds)) ==
            if Sum(ds) < t.duration then [] else [AttackDamage]
  {
    StartedTimerLifetime(t, ds);
  }

  class Enemy {
    const timeBetweenAttacks: real
    const agent: NavAgent
    const animator: Animator
    const health: Health
    const wander: EnemyWanderState
    const chase: EnemyChaseState
    var machine: Machine<EnemyState, Guard>
    var attackTimer: Timer

    ghost predicate Valid()
      reads this
    {
      machine.current.Some? && machine == TableAt(machine.current.value) &&
      attackTimer.duration == timeBetweenAttacks &&
      wander.agent == agent && chase.agent == agent &&
      wander.animator == animator && chase.animator == animator
    }

    /** Start: the cooldown timer, the two shown states, the table, and the
        entry into Wander (whose OnEnter requests the walk clip). */
    constructor (position: Vec3, animator: Animator, agent: NavAgent, player: Target, health: Health,
                 wanderRadius: real, timeBetweenAttacks: real)
      modifies animator
      ensures Valid()
      ensures machine == Table().machine && attackTimer == Create(timeBetweenAttacks)
      ensures this.agent == agent && this.animator == animator && this.health == health
      ensures wander.startPoint == position && wander.wanderRadius == wanderRadius && chase.player == player
      ensures animator.requests == old(animator.requests) + [WalkClip]
    {
      this.timeBetweenAttacks := timeBetweenAttacks;
      this.agent := agent;
      this.animator := animator;
      this.health := health;
      attackTimer := Create(timeBetweenAttacks);
      var w := new EnemyWanderState(position, animator, agent, wanderRadius);
      var c := new EnemyChaseState(animator, agent, player);
      wander := w;
      chase := c;
      var s := Table();
      machine := s.machine;
      new;
      TableShape();
      w.OnEnter();
    }

    /** Update: the machine step (with its hooks) before the cooldown tick. */
    method Update(detect: bool, canAttack: bool, dt: real, unit: Vec3, sample: (Vec3, real, int) -> Vec3)
      returns (hooks: seq<Hook<EnemyState>>)
      requires Valid()
      modifies this`machine, this`attackTimer, agent`goals, animator
      ensures Valid()
      ensures var s := StateMachines.Update(old(machine), Holding(detect, canAttack));
              machine == s.machine && hooks == s.hooks
      ensures attackTimer == Tick(old(attackTimer), dt).timer
      ensures animator.requests == old(animator.requests) + EnterClips(hooks)
      ensures agent.goals == old(agent.goals) +
                HookGoals(hooks, agent.Status(), wander.startPoint, wander.wanderRadius, unit, sample,
                          chase.player.position)
    {
      UpdateStaysInTable(machine.current.value, detect, canAttack);
      var s := StateMachines.Update(machine, Holding(detect, canAttack));
      machine := s.machine;
      hooks := s.hooks;
      RunHooks(hooks, wander, chase, unit, sample);
      attackTimer := Tick(attackTimer, dt).timer;
    }

    /** FixedUpdate only forwards to the machine. */
    method FixedUpdate() returns (hooks: seq<Hook<EnemyState>>)
      requires Valid()
      ensures hooks == [PhysicsUpdate(machine.current.value)]
    {
      hooks := StateMachines.FixedUpdate(machine).hooks;
    }

    /** Attack: nothing while the cooldown runs; otherwise restart it and
        deal the damage. */
    method Attack()
      requires Valid()
      modifies this`attackTimer, health
      ensures Valid()
      ensures attackTimer == AttackTimer(old(attackTimer))
      ensures health.hits == old(health.hits) + AttackHits(old(attackTimer))
    {
      if attackTimer.running {
        return;
      }
      attackTimer := Start(attackTimer);
      health.TakeDamage(AttackDamage);
    }
  }

  /** End to end from Start: the first frame that detects the player
      leaves Wander for Chase, runs only their exit and enter hooks,
      requests the run clip once and issues no destination (the chase state
      starts issuing them from the next frame). */
  lemma FirstDetection(canAttack: bool, s: PathStatus, startPoint: Vec3, wanderRadius: real, unit: Vec3,
                       sample: (Vec3, real, int) -> Vec3, target: Vec3)
    ensures var r := StateMachines.Update(Table().machine, Holding(true, canAttack));
            r.machine.current == Some(Chase) && r.hooks == [Exit(Wander), Enter(Chase)] &&
            EnterClips(r.hooks) == [RunClip] &&
            HookGoals(r.hooks, s, startPoint, wanderRadius, unit, sample, target) == []
  {
    TableShape();
    assert Table().machine == TableAt(Wander);
    EnemyNextState(Wander, true, canAttack);
    var r := StateMachines.Update(Table().machine, Holding(true, canAttack));
    assert r.hooks == [Exit(Wander), Enter(Chase)];
    assert r.hooks[1..][1..] == [];
    assert EnterClips(r.hooks[1..]) == [RunClip] + EnterClips(r.hooks[1..][1..]);
    EnterIssuesNoGoal(r.hooks, s, startPoint, wanderRadius, unit, sample, target);
  }
}
