/** Stand-in for the unshown generic state machine the controllers build.
    States are the values of a controller's state enumeration and guards are
    named conditions; a controller says which of its guards hold by passing
    the set of holding guards. The rules are assumptions about the class that
    is not part of this model:
    - the any-state list is evaluated before the current state's own list,
      and within a list the transition added first wins;
    - SetState does nothing when the target already is the current state,
      and otherwise exits the old state and enters the new one;
    - on a frame update that switches state, only the exit and enter hooks
      run; the frame hook runs when the state does not change;
    - a fixed update only runs the current state's fixed-step hook. */
module StateMachines {

  datatype Option<T> = None | Some(value: T)

  datatype Transition<S, G> = Transition(to: S, guard: G)

  datatype Machine<S, G> = Machine(
    current: Option<S>,
    transitions: map<S, seq<Transition<S, G>>>,
    any: seq<Transition<S, G>>)

  /** The lifecycle hooks a step invokes, in order. */
  datatype Hook<S> = Enter(state: S) | Exit(state: S) | FrameUpdate(state: S) | PhysicsUpdate(state: S)

  datatype Stepped<S, G> = Stepped(machine: Machine<S, G>, hooks: seq<Hook<S>>)

  /** A freshly constructed machine: no current state, no transitions. */
  function Empty<S, G>(): Machine<S, G> {
    Machine(None, map[], [])
  }

  /** The outgoing list of `s`, empty when none was ever added. */
  function Outgoing<S, G>(m: Machine<S, G>, s: S): seq<Transition<S, G>> {
    if s in m.transitions then m.transitions[s] else []
  }

  function AddTransition<S(!new), G>(m: Machine<S, G>, from: S, to: S, guard: G): (r: Machine<S, G>)
    ensures r.current == m.current && r.any == m.any
    ensures Outgoing(r, from) == Outgoing(m, from) + [Transition(to, guard)]
    ensures forall s :: s != from ==> Outgoing(r, s) == Outgoing(m, s)
  {
    m.(transitions := m.transitions[from := Outgoing(m, from) + [Transition(to, guard)]])
  }

  function AddAnyTransition<S, G>(m: Machine<S, G>, to: S, guard: G): (r: Machine<S, G>)
    ensures r.current == m.current && r.transitions == m.transitions
    ensures r.any == m.any + [Transition(to, guard)]
  {
    m.(any := m.any + [Transition(to, guard)])
  }

  function SetState<S, G>(m: Machine<S, G>, s: S): (r: Stepped<S, G>)
    ensures r.machine.current == Some(s)
    ensures r.machine.transitions == m.transitions && r.machine.any == m.any
  {
    if m.current == Some(s) then Stepped(m, [])
    else
      var exits := if m.current.Some? then [Exit(m.current.value)] else [];
      Stepped(m.(current := Some(s)), exits + [Enter(s)])
  }

  /** `k` is the first position of `ts` whose guard holds. */
  ghost predicate FirstHolding<S, G>(ts: seq<Transition<S, G>>, holds: set<G>, k: int) {
    0 <= k < |ts| && ts[k].guard in holds &&
    forall j :: 0 <= j < k ==> ts[j].guard !in holds
  }

  /** The target of the first transition in `ts` whose guard holds. */
  function FirstMatch<S, G>(ts: seq<Transition<S, G>>, holds: set<G>): (r: Option<S>)
    ensures r.None? <==> forall k :: 0 <= k < |ts| ==> ts[k].guard !in holds
    ensures r.Some? ==> exists k :: FirstHolding(ts, holds, k) && r.value == ts[k].to
  {
    if ts == [] then None
    else if ts[0].guard in holds then
      assert FirstHolding(ts, holds, 0);
      Some(ts[0].to)
    else
      var r := FirstMatch(ts[1..], holds);
      assert forall k :: 1 <= k < |ts| ==> ts[k] == ts[1..][k - 1];
      assert r.Some? ==> exists k :: FirstHolding(ts, holds, k) && r.value == ts[k].to by {
        if r.Some? {
          var k :| FirstHolding(ts[1..], holds, k) && r.value == ts[1..][k].to;
          assert FirstHolding(ts, holds, k + 1);
        }
      }
      r
  }

  /** The state the next frame update switches to, if any. */
  function NextState<S, G>(m: Machine<S, G>, holds: set<G>): Option<S> {
    if m.current.None? then None
    else
      match FirstMatch(m.any, holds)
      case Some(s) => Some(s)
      case None => FirstMatch(Outgoing(m, m.current.value), holds)
  }

  /** The other evaluation order: the current state's own list first, the
      any-state list after it. Only used to show where the order matters. */
  function NextStateAnyLast<S, G>(m: Machine<S, G>, holds: set<G>): Option<S> {
    if m.current.None? then None
    else
      match FirstMatch(Outgoing(m, m.current.value), holds)
      case Some(s) => Some(s)
      case None => FirstMatch(m.any, holds)
  }

  /** Without any-state transitions the evaluation order is unobservable. */
  lemma NoAnyOrderFree<S, G>(m: Machine<S, G>, holds: set<G>)
    requires m.any == []
    ensures NextState(m, holds) == NextStateAnyLast(m, holds)
  {
  }

  /** One frame update: take the first holding transition, or run the
      current state's frame hook. A machine with no state does nothing. */
  function Update<S, G>(m: Machine<S, G>, holds: set<G>): Stepped<S, G> {
    if m.current.None? then Stepped(m, [])
    else
      var cur := m.current.value;
      match NextState(m, holds)
      case Some(to) =>
        if to == cur then Stepped(m, [FrameUpdate(cur)]) else SetState(m, to)
      case None => Stepped(m, [FrameUpdate(cur)])
  }

  /** One fixed update: only the current state's fixed-step hook. */
  function FixedUpdate<S, G>(m: Machine<S, G>): (r: Stepped<S, G>)
    ensures r.machine == m
    ensures m.current.Some? ==> r.hooks == [PhysicsUpdate(m.current.value)]
    ensures m.current.None? ==> r.hooks == []
  {
    Stepped(m, if m.current.Some? then [PhysicsUpdate(m.current.value)] else [])
  }

  /** Appending a transition never overrides an earlier holding one, and it
      is taken when no earlier one holds. */
  lemma {:induction false} FirstMatchAppend<S, G>(ts: seq<Transition<S, G>>, t: Transition<S, G>, holds: set<G>)
    ensures FirstMatch(ts + [t], holds) ==
            if FirstMatch(ts, holds).Some? then FirstMatch(ts, holds)
            else if t.guard in holds then Some(t.to) else None
  {
    if ts != [] {
      assert (ts + [t])[1..] == ts[1..] + [t];
      FirstMatchAppend(ts[1..], t, holds);
    }
  }

  /** Of two holding transitions out of the current state, the one added
      first is taken, provided no any-state transition holds. */
  lemma FirstAddedWins<S(!new), G>(m: Machine<S, G>, from: S, a: S, ga: G, b: S, gb: G, holds: set<G>)
    requires m.current == Some(from) && Outgoing(m, from) == []
    requires forall k :: 0 <= k < |m.any| ==> m.any[k].guard !in holds
    requires ga in holds && gb in holds
    ensures NextState(AddTransition(AddTransition(m, from, a, ga), from, b, gb), holds) == Some(a)
  {
    var m2 := AddTransition(AddTransition(m, from, a, ga), from, b, gb);
    assert Outgoing(m2, from) == [Transition(a, ga), Transition(b, gb)];
  }

  /** A holding any-state transition preempts every transition of the
      current state. */
  lemma AnyPreempts<S, G>(m: Machine<S, G>, holds: set<G>, s: S)
    requires m.current.Some? && FirstMatch(m.any, holds) == Some(s)
    ensures NextState(m, holds) == Some(s)
  {
  }

  /** A frame update that changes state exits the old state and enters the
      new one exactly once, and runs no frame hook in that tick; otherwise
      it runs exactly the current state's frame hook. */
  lemma UpdateHooks<S, G>(m: Machine<S, G>, holds: set<G>)
    requires m.current.Some?
    ensures var r := Update(m, holds);
            var n := NextState(m, holds);
            if n.Some? && n.value != m.current.value then
              r.machine.current == n && r.hooks == [Exit(m.current.value), Enter(n.value)]
            else
              r.machine == m && r.hooks == [FrameUpdate(m.current.value)]
  {
  }

  /** Setting the same state twice enters it once; the second call does
      nothing. */
  lemma SetStateIdempotent<S, G>(m: Machine<S, G>, s: S)
    requires m.current != Some(s)
    ensures var r1 := SetState(m, s);
            var r2 := SetState(r1.machine, s);
            r2.machine == r1.machine && r2.hooks == [] &&
            r1.hooks[|r1.hooks| - 1] == Enter(s) &&
            forall k :: 0 <= k < |r1.hooks| - 1 ==> !r1.hooks[k].Enter?
  {
  }

  /** Transitions and hooks never change the declared transition table. */
  lemma UpdateKeepsTable<S, G>(m: Machine<S, G>, holds: set<G>)
    ensures Update(m, holds).machine.transitions == m.transitions
    ensures Update(m, holds).machine.any == m.any
  {
  }
}
