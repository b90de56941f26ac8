/**
 * Identities, states and transitions of a state graph.
 *
 * A transition is built as a `MutableTransition`, to which initial states may
 * be appended while a graph is being assembled, and is then frozen into an
 * immutable `Transition` that carries the same id, initial states and final
 * state.
 */
module Transitions {

  /** The name of a state; two ids are the same state when their names agree. */
  datatype StateId = StateId(name: string)

  /** The name of a transition, unique within one graph. */
  datatype TransitionId = TransitionId(name: string)

  /** A position in a graph, identified by its id and carrying nothing else. */
  datatype State = State(id: StateId)

  /** A transition while its graph is being built. */
  datatype MutableTransition = MutableTransition(
    id: TransitionId,
    initialStates: seq<StateId>,
    finalState: StateId
  )

  /** A frozen transition, as handed to a machine at run time. */
  datatype Transition = Transition(
    id: TransitionId,
    initialStates: seq<StateId>,
    finalState: StateId
  )

  /** Appends `s` as the last initial state; nothing else changes. */
  function AddInitialState(t: MutableTransition, s: StateId): (r: MutableTransition)
    ensures r.id == t.id && r.finalState == t.finalState
    ensures |r.initialStates| == |t.initialStates| + 1
    ensures forall i :: 0 <= i < |t.initialStates| ==> r.initialStates[i] == t.initialStates[i]
    ensures r.initialStates[|t.initialStates|] == s
  {
    t.(initialStates := t.initialStates + [s])
  }

  /** Freezes a builder into the immutable transition for the same edge. */
  function ToImmutable(t: MutableTransition): (r: Transition)
    ensures r.id == t.id && r.finalState == t.finalState
    ensures |r.initialStates| == |t.initialStates|
    ensures forall i :: 0 <= i < |t.initialStates| ==> r.initialStates[i] == t.initialStates[i]
  {
    Transition(t.id, t.initialStates, t.finalState)
  }

  /** Appends every state of `ss`, in order, one `AddInitialState` at a time. */
  function AddInitialStates(t: MutableTransition, ss: seq<StateId>): (r: MutableTransition)
    ensures r.id == t.id && r.finalState == t.finalState
    ensures r.initialStates == t.initialStates + ss
    decreases |ss|
  {
    if ss == [] then t
    else AddInitialStates(AddInitialState(t, ss[0]), ss[1..])
  }

  /** Freezing loses nothing: two builders that freeze alike were alike. */
  lemma ToImmutableInjective(a: MutableTransition, b: MutableTransition)
    ensures ToImmutable(a) == ToImmutable(b) <==> a == b
  {
  }

  /**
   * Building a transition from no initial states by appending `ss` and then
   * freezing it gives the transition constructed directly from `ss`.
   */
  lemma BuildThenFreeze(id: TransitionId, ss: seq<StateId>, final: StateId)
    ensures ToImmutable(AddInitialStates(MutableTransition(id, [], final), ss))
         == Transition(id, ss, final)
  {
  }

  /** No state id occurs twice in `ss`. */
  predicate NoDuplicates(ss: seq<StateId>)
  {
    forall i, j :: 0 <= i < j < |ss| ==> ss[i] != ss[j]
  }

  /** The edge leaves its initial states: the final state is not among them. */
  predicate ChangesState(initialStates: seq<StateId>, finalState: StateId)
  {
    finalState !in initialStates
  }

  /**
   * The structural invariants a graph's transitions are expected to keep:
   * at least one initial state, none repeated, and the final state not among
   * them. The transition builder does not enforce them; they are stated
   * so that the lemmas below can say when they survive an update.
   */
  predicate ValidEdge(initialStates: seq<StateId>, finalState: StateId)
  {
    && |initialStates| > 0
    && NoDuplicates(initialStates)
    && ChangesState(initialStates, finalState)
  }

  /** The structural invariants of a builder. */
  predicate WellFormed(t: MutableTransition)
  {
    ValidEdge(t.initialStates, t.finalState)
  }

  /** The structural invariants of a frozen transition. */
  predicate WellFormedTransition(t: Transition)
  {
    ValidEdge(t.initialStates, t.finalState)
  }

  lemma {:induction false} NoDuplicatesAppend(ss: seq<StateId>, s: StateId)
    ensures NoDuplicates(ss + [s]) <==> NoDuplicates(ss) && s !in ss
  {
    var ss' := ss + [s];
    if NoDuplicates(ss') {
      forall i, j | 0 <= i < j < |ss|
        ensures ss[i] != ss[j]
      {
        assert ss'[i] == ss[i] && ss'[j] == ss[j];
      }
      forall k | 0 <= k < |ss|
        ensures ss[k] != s
      {
        assert ss'[k] == ss[k] && ss'[|ss|] == s;
      }
    }
    if NoDuplicates(ss) && s !in ss {
      forall i, j | 0 <= i < j < |ss'|
        ensures ss'[i] != ss'[j]
      {
        if j < |ss| {
          assert ss'[i] == ss[i] && ss'[j] == ss[j];
        } else {
          assert ss'[i] == ss[i] && ss'[j] == s;
        }
      }
    }
  }

  /**
   * Appending an initial state keeps a well-formed transition well formed
   * exactly when the new state is neither already initial nor the final state.
   */
  lemma AddInitialStateKeepsWellFormed(t: MutableTransition, s: StateId)
    requires WellFormed(t)
    ensures WellFormed(AddInitialState(t, s)) <==> s !in t.initialStates && s != t.finalState
  {
    NoDuplicatesAppend(t.initialStates, s);
    assert s in AddInitialState(t, s).initialStates;
  }

  /** Freezing keeps the structural invariants, in both directions. */
  lemma ToImmutableKeepsWellFormed(t: MutableTransition)
    ensures WellFormedTransition(ToImmutable(t)) <==> WellFormed(t)
  {
  }
}
