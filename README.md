# First Steps Unity Project — controller layer in Dafny

This project models the discrete controller layer of a small Unity game and
proves properties of it. The layer sits between the engine and the game
objects. It covers:

- **The player controller with jump, dash and attack** (`Player`,
  `player_controller.dfy`). Five countdown timers run in list order: jump,
  jump cooldown, dash, dash cooldown, attack. Input events start or stop
  them under guards. Timer hooks set the vertical launch value and the
  horizontal dash multiplier, and they chain the cooldowns. A state machine
  over Locomotion, Jump, Dash and Attack reads the timers in its guards and
  has one any-state return to Locomotion. The jump and dash states are
  classes whose hooks call back into the controller.
- **The later player controller** (`ArcPlayer`, `arc_player_controller.dfy`).
  It has the jump timer and its cooldown, and a jump arc shaped by the
  timer's progress with a launch point of 0.9.
- **The enemy** (`Enemies`, `enemy.dfy`). A Wander/Chase/Attack machine is
  guarded by the detector's answers, and an attack is gated by a cooldown
  timer. **The reduced enemy** (`ReducedEnemies`, `reduced_enemy.dfy`) is a
  two-state Wander/Chase machine.
- **The enemy's wander and chase states** (`EnemyStates`,
  `enemy_states.dfy`). They decide which movement goal and which animation
  request each hook issues.
- **The player detector** (`Detection`, `player_detector.dfy`). A running
  detection timer short-circuits the detection strategy.

Several classes these files use are not part of this model: the state
machine, the countdown timer, the predicate wrapper, the base states, the
Locomotion/Attack/EnemyAttack states and the cone strategy. Each one that
matters has a small stand-in, and its behaviour is stated as an assumption
in that stand-in's header comment:

- `Timers` holds the countdown timer. Tick stops a timer whose remaining
  time is used up and fires its stop hook. Progress is the elapsed fraction,
  clamped to [0, 1]. It is left open whether Stop on an idle timer fires
  the stop hook: every controller that stops a timer (the two player
  controllers) carries that choice as the setting `idleStopFires`, and the lemmas cover both values.
- `StateMachines` holds the state machine:
  - any-state transitions are checked first, and within a list the
    transition added first wins;
  - a frame update that switches state runs only the exit and enter hooks;
  - a fixed update runs the current state's fixed-step hook.
- `Engine` holds the animator, navigation agent, target transform and
  health component. Each one only records the requests made of it, in order.

Each controller is a `class` whose methods update its fields. Each method is
proved to take the controller's snapshot to the value that a pure function
of the old snapshot gives, and the lemmas prove what the source promises
about that function. The loops over the timer list and over a step's hooks
keep their loops. Floating-point values are modelled as `real`.

In every frame the state machine steps before the timers tick, as
PlayerController.cs:196-198 and Enemy.cs:47-48 do. The guards therefore read
the timers as the previous frame left them.

## Model

| member | source | states |
|---|---|---|
| Vectors.NormSqScale | EnemyWanderState.cs:30 | scaling a vector by k scales its squared length by k² |
| Timers.Progress | _Project/Scripts/PlayerController.cs:120 | progress always lies in [0, 1], and is 1 for a timer of non-positive duration (assumed reading of the unshown timer) |
| Timers.StartRestarts | PlayerController.cs:150 | Start makes the timer run from its full duration whatever it was doing, and a started timer of positive duration has progress 0 |
| Timers.TickFiresWhenDue | PlayerController.cs:209 | a tick fires the stop hook only on a running timer, which it stops; on a timer with time left it fires exactly when the step reaches that time; an idle timer is untouched; a timer still running has time left |
| Timers.ProgressMonotone | _Project/Scripts/PlayerController.cs:120-126 | a tick with a non-negative step never decreases progress |
| Timers.IdleStaysIdle | Enemy.cs:48 | ticking an idle timer any number of times changes nothing and fires nothing |
| Timers.RunsUntilElapsed | Scripts/PlayerDetector.cs:26 | a running timer with time r left stays running exactly while the steps sum to less than r, has r minus that sum left, and fires exactly once if and when the sum reaches r |
| Timers.StartedTimerLifetime | Enemy.cs:60 | after Start, a timer of positive duration runs exactly until the steps reach the duration and fires exactly once then |
| StateMachines.AddTransition | PlayerController.cs:127 | appends the transition to the source state's list and leaves every other list, the any list and the current state as they were |
| StateMachines.AddAnyTransition | PlayerController.cs:128 | appends to the any list and changes nothing else |
| StateMachines.SetState | PlayerController.cs:92 | the target becomes the current state and the transition table is unchanged |
| StateMachines.FirstMatch | PlayerController.cs:86-90 | no target exactly when no guard of the list holds; otherwise the target of the first transition whose guard holds |
| StateMachines.NextState | PlayerController.cs:196 | the first holding any-state transition, else the first holding transition of the current state (its contracts are stated by AnyPreempts, FirstMatch and NoAnyOrderFree) |
| StateMachines.Update | Enemy.cs:47 | a frame update switches to the next state or runs the frame hook (its contracts are stated by UpdateHooks and UpdateKeepsTable) |
| StateMachines.NoAnyOrderFree | Enemy.cs:34-37 | a machine without any-state transitions takes the same transition whichever list is checked first |
| StateMachines.FixedUpdate | PlayerController.cs:201-204 | the machine is unchanged and only the current state's fixed-step hook runs |
| StateMachines.FirstMatchAppend | PlayerController.cs:86-88 | appending a transition never overrides an earlier holding one and is taken exactly when none holds |
| StateMachines.FirstAddedWins | Enemy.cs:35-36 | of two holding transitions out of a state, the one added first is taken |
| StateMachines.AnyPreempts | PlayerController.cs:90 | a holding any-state transition is taken over every transition of the current state |
| StateMachines.UpdateHooks | PlayerController.cs:196 | a switching frame update runs exactly the old state's exit hook and the new state's enter hook; otherwise exactly the current state's frame hook |
| StateMachines.SetStateIdempotent | Enemy.cs:39 | setting a new state enters it once, as the last hook; setting it again does nothing |
| StateMachines.UpdateKeepsTable | Enemy.cs:47 | frame updates never change the transition table |
| Player.TableShape | PlayerController.cs:86-92 | after setup the state is Locomotion; Locomotion's edges go to Jump, Dash and Attack in that order, guarded by those timers running; Attack returns when the attack timer is idle; the only any edge targets Locomotion |
| Player.ReturnGuardExact | PlayerController.cs:95-101 | the return guard holds exactly when grounded with the attack, jump and dash timers all idle; every other guard holds exactly when its timer condition does |
| Player.ReturnToLocomotion | PlayerController.cs:95-101 | the return guard; ReturnGuardExact states exactly when it holds |
| Player.AnyOrderUnobservable | PlayerController.cs:86-90 | for the player's table, checking the any-state edge before or after a state's own edges gives the same next state from every state |
| Player.PlayerNextState | PlayerController.cs:86-90 | the next state from each state: Locomotion when the return guard holds, else Locomotion's edges in declaration order, Attack's return edge, and nothing from Jump or Dash |
| Player.JumpAndDashLeaveOnlyWhenSettled | PlayerController.cs:90 | Jump and Dash are left exactly when the player is grounded with every action timer idle |
| Player.AttackInputGate | PlayerController.cs:146-152 | an attack press starts the attack timer when it is idle and changes nothing when it runs |
| Player.JumpPressGate | PlayerController.cs:171-174 | a jump press starts the jump timer, setting the launch value to the jump force, exactly when both jump timers are idle and the player is grounded; otherwise nothing changes |
| Player.JumpReleaseGate | PlayerController.cs:175-178 | a jump release stops the jump timer exactly when the cooldown runs; otherwise nothing changes |
| Player.ReleaseNeverCutsJump | PlayerController.cs:175-178 | because the cooldown only runs while the jump is idle, a release never changes the jump timer or the launch value; with the guarded stop rule it changes nothing |
| Player.DashInputGate | PlayerController.cs:181-191 | a dash press starts the dash, setting the multiplier to the dash force, exactly when both dash timers are idle; a release stops a running dash, resetting the multiplier to 1 and starting the dash cooldown, and changes no other timer, launch value or velocity; all else changes nothing |
| Player.TimerHooks | PlayerController.cs:108-120 | starting the jump sets the launch value to the jump force; stopping a running jump starts its cooldown; starting the dash sets the multiplier; stopping a running dash resets it to 1 and starts its cooldown |
| Player.ExpiryHooks | PlayerController.cs:109-120 | a timer that runs out during a tick fires its stop hook: the jump's end starts the jump cooldown, the dash's end resets the multiplier to 1 and starts the dash cooldown, other ends change nothing else; a tick that does not fire only updates that timer |
| Player.FrameStartsCooldowns | PlayerController.cs:205-211 | a jump or dash that ends in a frame leaves its cooldown running at the end of that frame, ticked once, when the step is shorter than the cooldown; a dash end also leaves the multiplier at 1 |
| Player.TimersTickInListOrder | PlayerController.cs:205-211 | HandleTimers ticks jump, jump cooldown, dash, dash cooldown and attack once each, in that order |
| Player.TickFrom | PlayerController.cs:205-211 | ticking the rest of the list keeps the list length and every timer's duration |
| Player.StopKeeps | PlayerController.cs:116-120 | stopping any timer keeps the invariant: durations as configured, multiplier is the dash force exactly during a dash and 1 otherwise, and the jump and its cooldown never run together |
| Player.TickKeeps | PlayerController.cs:209 | ticking any one timer keeps the invariant |
| Player.TickFromKeeps | PlayerController.cs:205-211 | ticking the rest of the list keeps the invariant |
| Player.InputsKeep | PlayerController.cs:146-191 | the attack, jump and dash handlers keep the invariant |
| Player.FixedStepKeeps | StateMachine/JumpState.cs:15-33 | every state's fixed step keeps the invariant |
| Player.SetupConsistent | PlayerController.cs:103-125 | the timers set up with their configured durations, both launch values at rest, satisfy the invariant |
| Player.HandleJumpBranches | PlayerController.cs:213-228 | grounded with the jump idle: launch value 0 and no velocity write; airborne and idle: gravity times the multiplier is integrated; jump running: launch value kept; every velocity write replaces only the vertical component |
| Player.LandingAndCooldown | PlayerController.cs:215-220 | landing with the jump idle leaves every timer alone under the guarded stop rule, and restarts the jump cooldown otherwise |
| Player.HorizontalSpeed | PlayerController.cs:255-259 | horizontal movement keeps the vertical component and moves at move speed times the dash force during a dash and times 1 otherwise; no input stops the horizontal motion |
| Player.FixedStepHooks | StateMachine/JumpState.cs:15-33 | the dash state's fixed step never touches the launch value, the timers or the vertical velocity; the jump state's runs HandleJump then HandleMovement; Locomotion's changes nothing, which holds only because the Locomotion state class is taken to do nothing (see Left out) |
| Player.PlayerController.constructor | PlayerController.cs:63-75 | Awake establishes the invariant, builds the list of five timers, and leaves the machine in Locomotion with the declared table |
| Player.PlayerController.SetupTimers | PlayerController.cs:103-125 | the timer list holds the five timers, idle, with their configured durations, in list order |
| Player.PlayerController.SetupStateMachine | PlayerController.cs:77-93 | the machine is the declared table in Locomotion, and the jump and dash states point back at this controller |
| Player.PlayerController.FireStart | PlayerController.cs:108-115 | the start hooks: the jump sets the launch value, the dash the multiplier, the others nothing |
| Player.PlayerController.FireStop | PlayerController.cs:109-120 | the stop hooks: the jump starts its cooldown, the dash resets the multiplier and starts its cooldown, the others nothing |
| Player.PlayerController.StartTimer | PlayerController.cs:173 | starting a timer then runs its start hook |
| Player.PlayerController.StopTimer | PlayerController.cs:177 | stopping a timer runs its stop hook when the stop fires |
| Player.PlayerController.OnAttack | PlayerController.cs:146-152 | the controller follows the attack-press rule and keeps the invariant |
| Player.PlayerController.OnJump | PlayerController.cs:169-179 | the controller follows the jump press/release rule and keeps the invariant |
| Player.PlayerController.OnDash | PlayerController.cs:181-191 | the controller follows the dash press/release rule and keeps the invariant |
| Player.PlayerController.HandleTimers | PlayerController.cs:205-211 | the loop ticks the timers in list order, firing stop hooks as it goes, and keeps the invariant |
| Player.PlayerController.Update | PlayerController.cs:193-200 | the machine steps on the guards as they hold before any timer is ticked, the entered states request their clips, then the timers are ticked |
| Player.PlayerController.RunEnterHooks | PlayerController.cs:196 | each entered Jump or Dash state requests its clip, in hook order |
| Player.PlayerController.FixedUpdate | PlayerController.cs:201-204 | the current state's fixed-step hook runs, and the invariant is kept |
| Player.PlayerController.HandleJump | PlayerController.cs:213-228 | the controller follows the gravity-only vertical rule and keeps the invariant |
| Player.PlayerController.HandleMovement | PlayerController.cs:236-253 | with input the horizontal velocity is set from the direction, otherwise it is zeroed, and the vertical component is kept |
| Player.PlayerController.HandleHorizontalMovement | PlayerController.cs:255-259 | the horizontal velocity is the direction times move speed, dash multiplier and step; the vertical component is kept |
| Player.JumpState.constructor | StateMachine/JumpState.cs:7 | the state holds its controller and animator |
| Player.JumpState.OnEnter | StateMachine/JumpState.cs:9-13 | entering requests only the jump clip |
| Player.JumpState.FixedUpdate | StateMachine/JumpState.cs:15-19 | the fixed step is HandleJump followed by HandleMovement, and keeps the invariant |
| Player.DashState.constructor | StateMachine/JumpState.cs:23 | the state holds its controller and animator |
| Player.DashState.OnEnter | StateMachine/JumpState.cs:25-28 | entering requests only the dash clip |
| Player.DashState.FixedUpdate | StateMachine/JumpState.cs:30-33 | the fixed step is HandleMovement alone; HandleJump is never called |
| ArcPlayer.GroundedResets | _Project/Scripts/PlayerController.cs:110-115 | landing with the jump idle zeroes the launch value and does not write the body velocity; the cooldown is left alone under the guarded stop rule and restarted under the other |
| ArcPlayer.LaunchAssigned | _Project/Scripts/PlayerController.cs:117-123 | past the launch point the launch speed is assigned, not accumulated, so the old value does not matter; its square is 2 · jumpMaxHeight · abs(g) |
| ArcPlayer.ShapedGrowth | _Project/Scripts/PlayerController.cs:124-127 | up to the launch point the value grows by (1 − progress) · jumpForce · dt, which is non-negative for a non-negative force and dt |
| ArcPlayer.AirborneAndWrite | _Project/Scripts/PlayerController.cs:129-134 | airborne and idle, gravity times the multiplier is integrated; every velocity write replaces only the vertical component and changes no timer |
| ArcPlayer.MovementBranches | _Project/Scripts/PlayerController.cs:143-166 | with zero input x and z are zeroed and y is kept; with input x and z are the direction times move speed and step |
| ArcPlayer.FixedStepOrder | _Project/Scripts/PlayerController.cs:95-99 | a fixed step's vertical value, velocity and timers are those HandleJump leaves, since HandleMovement runs after it and keeps them |
| ArcPlayer.TimersTickInListOrder | _Project/Scripts/PlayerController.cs:100-106 | the jump timer ticks before the cooldown in every frame |
| ArcPlayer.ExpiryHooks | _Project/Scripts/PlayerController.cs:61 | the jump's end during a tick starts the cooldown; any other tick only updates its timer |
| ArcPlayer.FrameStartsCooldown | _Project/Scripts/PlayerController.cs:100-106 | a jump that ends in a frame leaves the cooldown running at the end of that frame, ticked once, when the step is shorter than the cooldown |
| ArcPlayer.TickFrom | _Project/Scripts/PlayerController.cs:100-106 | ticking the rest of the list keeps the list length and every timer's duration |
| ArcPlayer.ZeroCooldownEndsSameFrame | _Project/Scripts/PlayerController.cs:28 | with the default zero cooldown, a jump that ends in a frame's tick leaves no cooldown running at the end of that frame |
| ArcPlayer.JumpInputGate | _Project/Scripts/PlayerController.cs:76-86 | a press starts the jump timer only when both timers are idle and the player is grounded, and then changes nothing else in the snapshot; a failed press changes nothing; a release while the cooldown runs is exactly a stop of the jump timer, which changes nothing under the guarded stop rule and restarts the cooldown under the other; a release never changes the jump timer |
| ArcPlayer.TickFromKeeps | _Project/Scripts/PlayerController.cs:100-106 | ticking the timers keeps the durations and keeps the jump and its cooldown from running together |
| ArcPlayer.StepsKeep | _Project/Scripts/PlayerController.cs:76-135 | the jump input, HandleJump and the fixed step keep that invariant |
| ArcPlayer.PlayerController.constructor | _Project/Scripts/PlayerController.cs:48-62 | Awake builds the jump timer and its cooldown, idle, in list order, and establishes the invariant |
| ArcPlayer.PlayerController.StopTimer | _Project/Scripts/PlayerController.cs:61 | stopping the jump timer starts the cooldown when the stop fires |
| ArcPlayer.PlayerController.OnJump | _Project/Scripts/PlayerController.cs:76-86 | the controller follows the jump press/release rule and keeps the invariant |
| ArcPlayer.PlayerController.Update | _Project/Scripts/PlayerController.cs:88-94 | the direction is sampled, then the two timers are ticked in order |
| ArcPlayer.PlayerController.HandleTimers | _Project/Scripts/PlayerController.cs:100-106 | the loop ticks the timers in list order and keeps the invariant |
| ArcPlayer.PlayerController.FixedUpdate | _Project/Scripts/PlayerController.cs:95-99 | HandleJump then HandleMovement, given the launch speed for the current gravity |
| ArcPlayer.PlayerController.HandleJump | _Project/Scripts/PlayerController.cs:108-135 | the controller follows the shaped-arc vertical rule and keeps the invariant; given the launch speed for the current gravity, a step past the launch point leaves a non-negative vertical velocity whose square is 2 · jumpMaxHeight · abs(g) |
| ArcPlayer.PlayerController.HandleMovement | _Project/Scripts/PlayerController.cs:143-166 | the controller follows the movement rule |
| EnemyStates.ReachedCases | EnemyWanderState.cs:40-45 | a pending path, a distance beyond the stopping distance, or motion along a path each mean not arrived; no pending path within the stopping distance, with no path or standing still, means arrived |
| EnemyStates.HasReachedDestination | EnemyWanderState.cs:40-45 | the arrival test; ReachedCases states when it holds and when it does not |
| EnemyStates.CandidateWithinRadius | EnemyWanderState.cs:30-33 | before snapping, the candidate lies within the wander radius of the anchor |
| EnemyStates.EnemyWanderState.constructor | EnemyWanderState.cs:13-18 | the anchor is the enemy's position at construction; it is a constant and never changes |
| EnemyStates.EnemyWanderState.OnEnter | EnemyWanderState.cs:20-24 | entering requests only the walk clip and issues no goal |
| EnemyStates.EnemyWanderState.Update | EnemyWanderState.cs:26-38 | a destination is issued exactly when the current one is reached: the snapped point near the anchor, searched within the wander radius; otherwise the goals are untouched |
| EnemyStates.EnemyChaseState.constructor | EnemyChaseState.cs:11-15 | the target reference is fixed at construction |
| EnemyStates.EnemyChaseState.OnEnter | EnemyChaseState.cs:17-21 | entering requests only the run clip and issues no goal |
| EnemyStates.EnemyChaseState.Update | EnemyChaseState.cs:23-26 | every update issues exactly one destination, the target's current position |
| EnemyStates.EnterIssuesNoGoal | EnemyWanderState.cs:20-24 | enter and exit hooks never issue a movement goal |
| EnemyStates.ChaseRepeats | EnemyChaseState.cs:25 | n chase updates with an unmoved target issue that same goal n times |
| EnemyStates.RunHooks | Enemy.cs:47 | a step's hooks request exactly the clips of the entered states and issue exactly the goals of the frame hooks, in order |
| Enemies.Holding | Enemy.cs:34-37 | each guard holds exactly when its detector condition does |
| Enemies.TableShape | Enemy.cs:34-39 | after Start the state is Wander, entered once; the edges are the four declared ones in order; no any edge exists |
| Enemies.EnemyNextState | Enemy.cs:34-37 | Wander→Chase exactly on detection; Chase→Wander on loss, checked before Chase→Attack on reach; Attack→Chase exactly when out of reach |
| Enemies.UpdateStaysInTable | Enemy.cs:47 | frame updates keep the declared table and a current state |
| Enemies.AttackGate | Enemy.cs:56-62 | while the cooldown runs an attack changes nothing and deals nothing; otherwise it restarts the cooldown and deals 10 damage once |
| Enemies.AttackCooldown | Enemy.cs:58-61 | a second attack within the cooldown's length deals nothing; once the frames reach it, the next attack hits again |
| Enemies.FirstDetection | Enemy.cs:34-39 | from Start, the first detecting frame moves to Chase, runs only Wander's exit and Chase's enter, requests the run clip once and issues no goal |
| Enemies.Enemy.constructor | Enemy.cs:25-40 | Start builds the cooldown timer, the two states and the table, and enters Wander, which requests the walk clip |
| Enemies.Enemy.Update | Enemy.cs:45-49 | the machine step and its hooks run before the cooldown tick |
| Enemies.Enemy.FixedUpdate | Enemy.cs:51-54 | only the current state's fixed-step hook runs |
| Enemies.Enemy.Attack | Enemy.cs:56-62 | the cooldown gate: the controller follows the attack rule, dealing damage through the health component |
| ReducedEnemies.Holding | Scripts/Enemy.cs:28-29 | each guard holds exactly when its detection condition does |
| ReducedEnemies.TableShape | Scripts/Enemy.cs:23-31 | after Start the state is Wander; exactly the two declared edges exist; nothing leaves Attack and no any edge exists |
| ReducedEnemies.ReducedNextState | Scripts/Enemy.cs:28-29 | Wander→Chase exactly on detection, Chase→Wander exactly without it |
| ReducedEnemies.NeverAttacks | Scripts/Enemy.cs:23-31 | no frame update ever enters or runs the attack state |
| ReducedEnemies.Enemy.constructor | Scripts/Enemy.cs:21-32 | Start builds the two states and the table and enters Wander |
| ReducedEnemies.Enemy.Update | Scripts/Enemy.cs:37-40 | only the machine step and its hooks |
| ReducedEnemies.Enemy.FixedUpdate | Scripts/Enemy.cs:42-45 | only the current state's fixed-step hook |
| Detection.QueryGate | Scripts/PlayerDetector.cs:28-31 | while the timer runs the answer is true and the strategy has no effect; while it is idle the answer is exactly the strategy's verdict |
| Detection.StickyWindow | Scripts/PlayerDetector.cs:30 | once a strategy starts the timer, every query answers true whatever the strategy says until the frames reach the cooldown; after that the strategy decides again |
| Detection.PlayerDetector.constructor | Scripts/PlayerDetector.cs:19-24 | an idle timer of the cooldown's length and the cone strategy from the three settings |
| Detection.PlayerDetector.Update | Scripts/PlayerDetector.cs:26 | one tick of the detection timer and nothing else |
| Detection.PlayerDetector.CanDetectPlayer | Scripts/PlayerDetector.cs:28-31 | the installed strategy is consulted exactly when the timer is idle; the answer is true while the timer runs and otherwise that strategy's verdict, and the timer is started only by that strategy |
| Detection.PlayerDetector.SetDetectionStrategy | Scripts/PlayerDetector.cs:33 | the strategy is replaced and nothing else changes; the next query consults the new one (see SwapThenQuery) |
| Detection.SwapThenQuery | Scripts/PlayerDetector.cs:28-33 | after a swap, a query on an idle timer answers the new strategy's verdict and leaves the timer as that strategy decides |
| Detection.InstalledStrategyDecides | Scripts/PlayerDetector.cs:30-33 | on an idle timer the answer and the timer depend only on the installed strategy; while the timer runs, swapping the strategy changes neither |

## Left out

- Camera and Cinemachine setup, rotation toward the movement direction, and the `SmoothDamp` speed smoothing are not modelled (PlayerController.cs:65-68, PlayerController.cs:261-271). They are engine numerics outside the controller logic.
- The camera-relative direction is not modelled. HandleMovement receives the already adjusted direction as `movement`, and "magnitude greater than zero" is modelled as "direction is not the zero vector".
- The player's `Attack` is not modelled (PlayerController.cs:154-167). It is a physics overlap query with tag checks.
- Grounding is not modelled. The ground check is a boolean input.
- Gravity and the step lengths come in as parameters (`gravityY`, `dt`).
- Input binding is not modelled: the input reader, `Start`'s enabling of player actions, and the `OnEnable`/`OnDisable` subscriptions. This is event plumbing; the handlers are called directly.
- `UpdateAnimator`, the animator's `SetFloat` and every `Debug.Log` are not modelled. They are fire-and-forget engine side effects. `CrossFade` is recorded as a request list.
- Navigation-mesh sampling and `Random.insideUnitSphere` are not modelled. They become inputs: the offset is a vector `unit`, bounded by length 1 where a lemma needs it, and the snapped point is an opaque function `sample`.
- ArcPlayer.PlayerController.HandleJump: requires that the launch speed exists, i.e. 2 · jumpMaxHeight · abs(g) is not negative. A negative jump height, for which the source's square root gives NaN, is not modelled.
- Floating-point arithmetic is modelled as `real`. Single-precision rounding is not modelled.
- The square root in the later HandleJump is a parameter `launch`. `IsLaunchSpeed` characterises it as the non-negative value whose square is 2 · jumpMaxHeight · abs(g).
- The unshown state machine checks any-state transitions first, and that order is an assumption. For the player's table the order is proved unobservable (`Player.AnyOrderUnobservable`). Neither enemy has an any-state transition (`Enemies.TableShape`, `ReducedEnemies.TableShape`, `StateMachines.NoAnyOrderFree`).
- The unshown state machine, countdown timer and predicate wrapper exist only as the stand-ins `StateMachines` and `Timers`. Their rules are assumptions. The stop rule on an idle timer is the `idleStopFires` setting, and the lemmas cover both values.
- The unshown base state is taken to have no frame, fixed-step or exit behaviour of its own. The Locomotion, Attack and EnemyAttack state classes are not part of this model, and their hooks are taken to change nothing. The enemy model therefore never calls `Enemy.Attack` from a state.
- The cone detection strategy is not part of this model. What a strategy answers when consulted, and whether it starts the detection timer, is given by a function `execute` from strategies to answers. Strategies other than the cone are identified by a number.
- `CanAttackPlayer` and the player's health component are not among the detector's shown members. The enemy takes the first as a per-frame boolean and the second as a `Health` object passed in.
- Enemies.Enemy.Update: the detector's own effect (a strategy starting its timer during a guard evaluation) is not composed into the enemy's frame. The enemy takes one `detect` answer per frame, even though Chase's two guards may query the detector separately. `Detection` models that effect on its own.
- The Unity `Start` ordering that lets the enemy read the detector's player transform is not modelled. The target and the health component are constructor parameters.
- The scoring UI coroutine, the collectible data asset, the entity factory interface, the ground checker's sphere cast and the platform collision parenting have no controller logic and are not modelled. The state and strategy interfaces only give the shape of the abstractions used here.
