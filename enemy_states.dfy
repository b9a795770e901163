/** The enemy's wander and chase states (EnemyWanderState.cs,
    EnemyChaseState.cs) and the dispatch of machine hooks to them.

    The random offset and the navigation-mesh sampling are inputs: `unit`
    stands for a point of the unit ball, and `sample` for the function that
    snaps a point to the navigable surface within a search distance and an
    area mask. */
module EnemyStates {
  import opened Vectors
  import opened Engine
  import opened StateMachines

  datatype EnemyState = Wander | Chase | Attack

  /** HasReachedDestination on the status the agent reports. */
  predicate HasReachedDestination(s: PathStatus) {
    !s.pathPending && s.remainingDistance <= s.stoppingDistance &&
    (!s.hasPath || NormSq(s.velocity) == 0.0)
  }

  /** The point the wander state asks the navigation mesh about: the anchor
      plus the random offset scaled to the wander radius. */
  function WanderCandidate(startPoint: Vec3, unit: Vec3, wanderRadius: real): Vec3 {
    Add(Scale(unit, wanderRadius), startPoint)
  }

  /** The NavMesh area mask the wander state samples with. */
  const AreaMask: int := 1

  /** An agent that is still computing a path, is farther than its stopping
      distance, or still moves along a path has not arrived; one that has no
      pending path, is within the stopping distance and either has no path
      or stands still has. */
  lemma ReachedCases(s: PathStatus)
    ensures s.pathPending ==> !HasReachedDestination(s)
    ensures s.remainingDistance > s.stoppingDistance ==> !HasReachedDestination(s)
    ensures s.hasPath && NormSq(s.velocity) > 0.0 ==> !HasReachedDestination(s)
    ensures (!s.pathPending && s.remainingDistance <= s.stoppingDistance &&
             (!s.hasPath || s.velocity == Zero)) ==> HasReachedDestination(s)
  {
  }

  /** Before snapping, the candidate lies within the wander radius of the
      anchor. */
  lemma CandidateWithinRadius(startPoint: Vec3, unit: Vec3, wanderRadius: real)
    requires NormSq(unit) <= 1.0
    ensures NormSq(Sub(WanderCandidate(startPoint, unit, wanderRadius), startPoint)) <= wanderRadius * wanderRadius
  {
    var off := Scale(unit, wanderRadius);
    assert Sub(WanderCandidate(startPoint, unit, wanderRadius), startPoint) == off;
    NormSqScale(unit, wanderRadius);
    assert wanderRadius * wanderRadius >= 0.0;
    assert wanderRadius * wanderRadius * NormSq(unit) <= wanderRadius * wanderRadius * 1.0;
  }

  class EnemyWanderState {
    const agent: NavAgent
    const animator: Animator
    const startPoint: Vec3
    const wanderRadius: real

    /** The anchor is the enemy's position at construction. */
    constructor (enemyPosition: Vec3, animator: Animator, agent: NavAgent, wanderRadius: real)
      ensures startPoint == enemyPosition && this.wanderRadius == wanderRadius
      ensures this.agent == agent && this.animator == animator
    {
      this.agent := agent;
      this.animator := animator;
      startPoint := enemyPosition;
      this.wanderRadius := wanderRadius;
    }

    /** Requests the walk clip and issues no movement goal. */
    method OnEnter()
      modifies animator
      ensures animator.requests == old(animator.requests) + [WalkClip]
    {
      animator.CrossFade(WalkClip);
    }

    /** A new destination only once the current one is reached: the anchor
        plus the random offset, snapped within the wander radius. */
    method Update(unit: Vec3, sample: (Vec3, real, int) -> Vec3)
      modifies agent`goals
      ensures agent.goals == old(agent.goals) +
                WanderGoals(agent.Status(), startPoint, wanderRadius, unit, sample)
    {
      if HasReachedDestination(agent.Status()) {
        var randomDirection := Scale(unit, wanderRadius);
        randomDirection := Add(randomDirection, startPoint);
        var finalPosition := sample(randomDirection, wanderRadius, AreaMask);
        agent.SetDestination(finalPosition);
      }
    }
  }

  /** The destinations one wander update issues. */
  function WanderGoals(s: PathStatus, startPoint: Vec3, wanderRadius: real, unit: Vec3,
                       sample: (Vec3, real, int) -> Vec3): seq<Vec3> {
    if HasReachedDestination(s) then [sample(WanderCandidate(startPoint, unit, wanderRadius), wanderRadius, AreaMask)]
    else []
  }

  class EnemyChaseState {
    const agent: NavAgent
    const animator: Animator
    const player: Target

    /** The target reference is fixed here; only its position is read later. */
    constructor (animator: Animator, agent: NavAgent, player: Target)
      ensures this.agent == agent && this.animator == animator && this.player == player
    {
      this.agent := agent;
      this.animator := animator;
      this.player := player;
    }

    /** Requests the run clip and issues no destination. */
    method OnEnter()
      modifies animator
      ensures animator.requests == old(animator.requests) + [RunClip]
    {
      animator.CrossFade(RunClip);
    }

    /** Exactly one destination per update: the target's current position. */
    method Update()
      modifies agent`goals
      ensures agent.goals == old(agent.goals) + [player.position]
    {
      agent.SetDestination(player.position);
    }
  }

  /** The clips the hooks request: only the wander and chase entries request
      one (the attack state is not part of this model). */
  function EnterClips(hooks: seq<Hook<EnemyState>>): seq<Clip> {
    if hooks == [] then []
    else
      var c := match hooks[0]
        case Enter(Wander) => [WalkClip]
        case Enter(Chase) => [RunClip]
        case _ => [];
      c + EnterClips(hooks[1..])
  }

  /** The destinations the hooks issue: only frame updates of the wander and
      chase states issue any. */
  function HookGoals(hooks: seq<Hook<EnemyState>>, s: PathStatus, startPoint: Vec3, wanderRadius: real,
                     unit: Vec3, sample: (Vec3, real, int) -> Vec3, target: Vec3): seq<Vec3> {
    if hooks == [] then []
    else
      var g := match hooks[0]
        case FrameUpdate(Wander) => WanderGoals(s, startPoint, wanderRadius, unit, sample)
        case FrameUpdate(Chase) => [target]
        case _ => [];
      g + HookGoals(hooks[1..], s, startPoint, wanderRadius, unit, sample, target)
  }

  /** Entering or exiting a state never issues a movement goal. */
  lemma {:induction false} EnterIssuesNoGoal(hooks: seq<Hook<EnemyState>>, s: PathStatus, startPoint: Vec3,
                                             wanderRadius: real, unit: Vec3,
                                             sample: (Vec3, real, int) -> Vec3, target: Vec3)
    requires forall k :: 0 <= k < |hooks| ==> hooks[k].Enter? || hooks[k].Exit?
    ensures HookGoals(hooks, s, startPoint, wanderRadius, unit, sample, target) == []
  {
    if hooks != [] {
      assert forall k :: 0 <= k < |hooks[1..]| ==> hooks[1..][k] == hooks[k + 1];
      EnterIssuesNoGoal(hooks[1..], s, startPoint, wanderRadius, unit, sample, target);
    }
  }

  /** Every chase frame update issues the target's position, so repeated
      chase updates with an unmoved target issue that same goal each time. */
  lemma {:induction false} ChaseRepeats(n: nat, s: PathStatus, startPoint: Vec3, wanderRadius: real,
                                        unit: Vec3, sample: (Vec3, real, int) -> Vec3, target: Vec3)
    ensures HookGoals(seq(n, _ => FrameUpdate(Chase)), s, startPoint, wanderRadius, unit, sample, target) ==
            seq(n, _ => target)
  {
    if n > 0 {
      var hs := seq(n, _ => FrameUpdate(Chase));
      assert hs[1..] == seq(n - 1, _ => FrameUpdate(Chase));
      ChaseRepeats(n - 1, s, startPoint, wanderRadius, unit, sample, target);
      assert seq(n, _ => target) == [target] + seq(n - 1, _ => target);
    }
  }

  /** The clips and goals of a suffix are those of its first hook followed
      by those of the rest. */
  lemma HooksSplit(hooks: seq<Hook<EnemyState>>, k: nat, s: PathStatus, startPoint: Vec3, wanderRadius: real,
                   unit: Vec3, sample: (Vec3, real, int) -> Vec3, target: Vec3)
    requires k < |hooks|
    ensures EnterClips(hooks[k..]) == EnterClips([hooks[k]]) + EnterClips(hooks[k + 1..])
    ensures HookGoals(hooks[k..], s, startPoint, wanderRadius, unit, sample, target) ==
            HookGoals([hooks[k]], s, startPoint, wanderRadius, unit, sample, target) +
            HookGoals(hooks[k + 1..], s, startPoint, wanderRadius, unit, sample, target)
  {
    assert hooks[k..][1..] == hooks[k + 1..];
  }

  /** Runs one hook on the two shown states. */
  method RunHook(h: Hook<EnemyState>, wander: EnemyWanderState, chase: EnemyChaseState,
                 unit: Vec3, sample: (Vec3, real, int) -> Vec3)
    requires wander.agent == chase.agent && wander.animator == chase.animator
    modifies wander.agent`goals, wander.animator
    ensures wander.animator.requests == old(wander.animator.requests) + EnterClips([h])
    ensures wander.agent.goals == old(wander.agent.goals) +
              HookGoals([h], wander.agent.Status(), wander.startPoint, wander.wanderRadius, unit, sample,
                        chase.player.position)
  {
    match h {
      case Enter(Wander) => wander.OnEnter();
      case Enter(Chase) => chase.OnEnter();
      case FrameUpdate(Wander) => wander.Update(unit, sample);
      case FrameUpdate(Chase) => chase.Update();
      case _ =>
    }
  }

  /** Runs the hooks of one machine step on the two shown states (the
      stand-in machine's dispatch). */
  method RunHooks(hooks: seq<Hook<EnemyState>>, wander: EnemyWanderState, chase: EnemyChaseState,
                  unit: Vec3, sample: (Vec3, real, int) -> Vec3)
    requires wander.agent == chase.agent && wander.animator == chase.animator
    modifies wander.agent`goals, wander.animator
    ensures wander.animator.requests == old(wander.animator.requests) + EnterClips(hooks)
    ensures wander.agent.goals == old(wander.agent.goals) +
              HookGoals(hooks, wander.agent.Status(), wander.startPoint, wander.wanderRadius, unit, sample,
                        chase.player.position)
  {
    var status := wander.agent.Status();
    var target := chase.player.position;
    var k := 0;
    while k < |hooks|
      invariant 0 <= k <= |hooks|
      invariant wander.agent.Status() == status && chase.player.position == target
      invariant wander.animator.requests + EnterClips(hooks[k..]) ==
                old(wander.animator.requests) + EnterClips(hooks)
      invariant wander.agent.goals +
                HookGoals(hooks[k..], status, wander.startPoint, wander.wanderRadius, unit, sample, target) ==
                old(wander.agent.goals) +
                HookGoals(hooks, status, wander.startPoint, wander.wanderRadius, unit, sample, target)
    {
      HooksSplit(hooks, k, status, wander.startPoint, wander.wanderRadius, unit, sample, target);
      RunHook(hooks[k], wander, chase, unit, sample);
      k := k + 1;
    }
  }
}
