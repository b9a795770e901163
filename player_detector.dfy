/** The enemy's player detector (Scripts/PlayerDetector.cs): a sticky gate
    in front of a replaceable detection strategy.

    The strategies themselves are not part of this model. What a strategy
    answers when consulted is given by a function `execute` from strategies
    to answers (`Answer`): whether it sees the player, and whether it starts
    the detection timer it is handed. */
module Detection {
  import opened Timers

  /** The strategies a detector can hold: the cone it is set up with, or
      any other one set later (identified only by a number). */
  datatype Strategy = Cone(angle: real, radius: real, innerRadius: real) | Other(id: int)

  /** What the consulted strategy does: its verdict, and whether it starts
      the detection timer. */
  datatype Answer = Answer(detected: bool, startsTimer: bool)

  /** CanDetectPlayer's result: a running timer, or else the strategy's
      verdict. */
  function Detects(t: Timer, a: Answer): bool {
    t.running || a.detected
  }

  /** The detection timer after a query: only a consulted strategy can
      start it. */
  function AfterQuery(t: Timer, a: Answer): Timer {
    if !t.running && a.startsTimer then Start(t) else t
  }

  /** While the timer runs the answer is true and the strategy has no
      effect; while it is idle the answer is exactly the strategy's verdict. */
  lemma QueryGate(t: Timer, a: Answer)
    ensures t.running ==> Detects(t, a) && AfterQuery(t, a) == t
    ensures !t.running ==> (Detects(t, a) <==> a.detected)
    ensures AfterQuery(t, a).duration == t.duration
  {
  }

  /** Once a strategy has started the timer, every query answers true,
      whatever the strategy would say, for as long as the frame steps sum to
      less than the cooldown; after that the strategy is consulted again. */
  lemma StickyWindow(t: Timer, a: Answer, ds: seq<real>, later: Answer)
    requires !t.running && a.startsTimer && t.duration > 0.0 && NonNegative(ds)
    ensures var u := TickAll(AfterQuery(t, a), ds);
            if Sum(ds) < t.duration then Detects(u, later) && AfterQuery(u, later) == u
            else !u.running && (Detects(u, later) <==> later.detected)
  {
    StartedTimerLifetime(t, ds);
  }

  /** After a strategy is installed, the next query on an idle timer is
      decided by that strategy alone, whatever was installed before; while
      the timer runs, swapping the strategy changes neither the answer nor
      the timer. */
  lemma InstalledStrategyDecides(t: Timer, before: Strategy, s: Strategy, execute: Strategy -> Answer)
    ensures !t.running ==> (Detects(t, execute(s)) <==> execute(s).detected)
    ensures !t.running ==> AfterQuery(t, execute(s)) == if execute(s).startsTimer then Start(t) else t
    ensures t.running ==> Detects(t, execute(s)) == Detects(t, execute(before)) &&
                          AfterQuery(t, execute(s)) == AfterQuery(t, execute(before))
  {
  }

  class PlayerDetector {
    const detectionAngle: real
    const detectionRadius: real
    const innerDetectionRadius: real
    const detectionCooldown: real
    var detectionTimer: Timer
    var strategy: Strategy

    ghost predicate Valid()
      reads this
    {
      detectionTimer.duration == detectionCooldown
    }

    /** Start: an idle timer of the cooldown's length and the cone strategy
        built from the three settings. */
    constructor (detectionAngle: real, detectionRadius: real, innerDetectionRadius: real,
                 detectionCooldown: real)
      ensures Valid()
      ensures this.detectionAngle == detectionAngle && this.detectionRadius == detectionRadius
      ensures this.innerDetectionRadius == innerDetectionRadius && this.detectionCooldown == detectionCooldown
      ensures detectionTimer == Create(detectionCooldown)
      ensures strategy == Cone(detectionAngle, detectionRadius, innerDetectionRadius)
    {
      this.detectionAngle := detectionAngle;
      this.detectionRadius := detectionRadius;
      this.innerDetectionRadius := innerDetectionRadius;
      this.detectionCooldown := detectionCooldown;
      detectionTimer := Create(detectionCooldown);
      strategy := Cone(detectionAngle, detectionRadius, innerDetectionRadius);
    }

    /** Update: one tick of the detection timer. */
    method Update(dt: real)
      requires Valid()
      modifies this`detectionTimer
      ensures Valid()
      ensures detectionTimer == Tick(old(detectionTimer), dt).timer
    {
      detectionTimer := Tick(detectionTimer, dt).timer;
    }

    /** CanDetectPlayer: the `||` consults the installed strategy only when
        the timer is idle. `consulted` reports whether it was. */
    method CanDetectPlayer(execute: Strategy -> Answer) returns (detected: bool, consulted: bool)
      requires Valid()
      modifies this`detectionTimer
      ensures Valid()
      ensures consulted <==> !old(detectionTimer.running)
      ensures detected == Detects(old(detectionTimer), execute(strategy))
      ensures detectionTimer == AfterQuery(old(detectionTimer), execute(strategy))
    {
      if detectionTimer.running {
        detected, consulted := true, false;
      } else {
        consulted := true;
        var answer := execute(strategy);
        if answer.startsTimer {
          detectionTimer := Start(detectionTimer);
        }
        detected := answer.detected;
      }
    }

    /** SetDetectionStrategy replaces the strategy and nothing else. */
    method SetDetectionStrategy(s: Strategy)
      modifies this`strategy
      ensures strategy == s
    {
      strategy := s;
    }
  }

  /** A strategy swap followed by a query, composed from the detector's
      two methods: on an idle timer the answer is the new strategy's
      verdict. */
  method SwapThenQuery(d: PlayerDetector, s: Strategy, execute: Strategy -> Answer) returns (detected: bool)
    requires d.Valid() && !d.detectionTimer.running
    modifies d
    ensures d.Valid() && d.strategy == s
    ensures detected == execute(s).detected
    ensures d.detectionTimer == AfterQuery(old(d.detectionTimer), execute(s))
  {
    d.SetDetectionStrategy(s);
    var consulted;
    detected, consulted := d.CanDetectPlayer(execute);
  }
}
