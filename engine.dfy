/** Engine-side collaborators the controllers and states talk to, reduced to
    what the core reads or the requests it issues. Their real behaviour
    (animation blending, path finding, health bookkeeping) is not modelled:
    each request is only recorded, in order. */
module Engine {
  import opened Vectors

  /** The animation clips the shown states request. */
  datatype Clip = JumpClip | DashClip | WalkClip | RunClip

  /** Records CrossFade requests (fire-and-forget). */
  class Animator {
    var requests: seq<Clip>

    constructor ()
      ensures requests == []
    {
      requests := [];
    }

    method CrossFade(clip: Clip)
      modifies this
      ensures requests == old(requests) + [clip]
    {
      requests := requests + [clip];
    }
  }

  /** The path-following status a navigation agent reports. */
  datatype PathStatus = PathStatus(
    pathPending: bool,
    remainingDistance: real,
    stoppingDistance: real,
    hasPath: bool,
    velocity: Vec3)

  /** A navigation agent: the status it reports and the destinations it has
      been given, in order. */
  class NavAgent {
    var pathPending: bool
    var remainingDistance: real
    var stoppingDistance: real
    var hasPath: bool
    var velocity: Vec3
    var goals: seq<Vec3>

    constructor (stoppingDistance: real)
      ensures this.stoppingDistance == stoppingDistance
      ensures !pathPending && !hasPath && remainingDistance == 0.0
      ensures velocity == Zero && goals == []
    {
      this.stoppingDistance := stoppingDistance;
      pathPending, hasPath, remainingDistance := false, false, 0.0;
      velocity, goals := Zero, [];
    }

    function Status(): PathStatus
      reads this`pathPending, this`remainingDistance, this`stoppingDistance, this`hasPath, this`velocity
    {
      PathStatus(pathPending, remainingDistance, stoppingDistance, hasPath, velocity)
    }

    method SetDestination(p: Vec3)
      modifies this`goals
      ensures goals == old(goals) + [p]
    {
      goals := goals + [p];
    }
  }

  /** A transform the core only reads the position of. */
  class Target {
    var position: Vec3

    constructor (position: Vec3)
      ensures this.position == position
    {
      this.position := position;
    }
  }

  /** The health component: records the damage amounts it is dealt. */
  class Health {
    var hits: seq<int>

    constructor ()
      ensures hits == []
    {
      hits := [];
    }

    method TakeDamage(amount: int)
      modifies this
      ensures hits == old(hits) + [amount]
    {
      hits := hits + [amount];
    }
  }
}
