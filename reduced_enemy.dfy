/** The reduced enemy controller (Scripts/Enemy.cs): a two-state
    Wander/Chase machine guarded by the detector's one answer, with no
    attack state, no cooldown timer and no any-state transition. */
module ReducedEnemies {
  import opened Vectors
  import opened StateMachines
  import opened Engine
  import opened EnemyStates

  datatype Guard = CanDetect | CannotDetect

  function Holding(detect: bool): (r: set<Guard>)
    ensures CanDetect in r <==> detect
    ensures CannotDetect in r <==> !detect
  {
    if detect then {CanDetect} else {CannotDetect}
  }

  /** Start: the two transitions in declaration order, then SetState(wander). */
  function Table(): Stepped<EnemyState, Guard> {
    var m := Empty<EnemyState, Guard>();
    var m := AddTransition(m, Wander, Chase, CanDetect);
    var m := AddTransition(m, Chase, Wander, CannotDetect);
    SetState(m, Wander)
  }

  /** After Start the machine is in Wander, having entered it once, and
      holds exactly the two declared transitions: nothing leaves Attack and
      no any-state transition exists. */
  lemma TableShape()
    ensures Table().machine.current == Some(Wander)
    ensures Table().hooks == [Enter(Wander)]
    ensures Table().machine.any == []
    ensures Outgoing(Table().machine, Wander) == [Transition(Chase, CanDetect)]
    ensures Outgoing(Table().machine, Chase) == [Transition(Wander, CannotDetect)]
    ensures Outgoing(Table().machine, Attack) == []
  {
  }

  function TableAt(s: EnemyState): Machine<EnemyState, Guard> {
    Table().machine.(current := Some(s))
  }

  /** Wander switches to Chase exactly when the player is detected, and
      Chase back to Wander exactly when it is not. */
  lemma ReducedNextState(s: EnemyState, detect: bool)
    requires s != Attack
    ensures NextState(TableAt(s), Holding(detect)) ==
            if s == Wander then (if detect then Some(Chase) else None)
            else (if detect then None else Some(Wander))
  {
    TableShape();
    var m := TableAt(s);
    assert FirstMatch(m.any, Holding(detect)) == None;
    assert Outgoing(m, s)[1..] == [];
  }

  /** The attack state is never entered: from either shown state, a frame
      update ends in Wander or Chase and keeps the table. */
  lemma NeverAttacks(s: EnemyState, detect: bool)
    requires s != Attack
    ensures var r := StateMachines.Update(TableAt(s), Holding(detect));
            r.machine.current.Some? && r.machine.current.value != Attack &&
            r.machine == TableAt(r.machine.current.value) &&
            forall k :: 0 <= k < |r.hooks| ==> r.hooks[k].state != Attack
  {
    ReducedNextState(s, detect);
  }

  class Enemy {
    const agent: NavAgent
    const animator: Animator
    const wander: EnemyWanderState
    const chase: EnemyChaseState
    var machine: Machine<EnemyState, Guard>

    ghost predicate Valid()
      reads this
    {
      machine.current.Some? && machine.current.value != Attack &&
      machine == TableAt(machine.current.value) &&
      wander.agent == agent && chase.agent == agent &&
      wander.animator == animator && chase.animator == animator
    }

    /** Start: the two shown states, the table, and the entry into Wander. */
    constructor (position: Vec3, animator: Animator, agent: NavAgent, player: Target, wanderRadius: real)
      modifies animator
      ensures Valid()
      ensures machine == Table().machine
      ensures this.agent == agent && this.animator == animator
      ensures wander.startPoint == position && wander.wanderRadius == wanderRadius && chase.player == player
      ensures animator.requests == old(animator.requests) + [WalkClip]
    {
      this.agent := agent;
      this.animator := animator;
      var w := new EnemyWanderState(position, animator, agent, wanderRadius);
      var c := new EnemyChaseState(animator, agent, player);
      wander := w;
      chase := c;
      machine := Table().machine;
      new;
      TableShape();
      w.OnEnter();
    }

    /** Update only forwards to the machine (and its hooks). */
    method Update(detect: bool, unit: Vec3, sample: (Vec3, real, int) -> Vec3)
      returns (hooks: seq<Hook<EnemyState>>)
      requires Valid()
      modifies this`machine, agent`goals, animator
      ensures Valid()
      ensures var s := StateMachines.Update(old(machine), Holding(detect));
              machine == s.machine && hooks == s.hooks
      ensures animator.requests == old(animator.requests) + EnterClips(hooks)
      ensures agent.goals == old(agent.goals) +
                HookGoals(hooks, agent.Status(), wander.startPoint, wander.wanderRadius, unit, sample,
                          chase.player.position)
    {
      NeverAttacks(machine.current.value, detect);
      var s := StateMachines.Update(machine, Holding(detect));
      machine := s.machine;
      hooks := s.hooks;
      RunHooks(hooks, wander, chase, unit, sample);
    }

    /** FixedUpdate only forwards to the machine. The full enemy's
        FixedUpdate is the same forwarding; the source repeats it in both
        enemy scripts. */
    method FixedUpdate() returns (hooks: seq<Hook<EnemyState>>)
      requires Valid()
      ensures hooks == [PhysicsUpdate(machine.current.value)]
    {
      hooks := StateMachines.FixedUpdate(machine).hooks;
    }
  }
}
