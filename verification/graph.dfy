/**
 * State graphs: the transitions of one kind of subject, in construction order.
 */
module Graphs {
  import opened Wrappers
  import opened Transitions

  /** The name under which a graph is loaded. */
  datatype GraphId = GraphId(name: string)

  /** A loaded graph: its transitions, in the order they were declared. */
  datatype Graph = Graph(transitions: seq<Transition>)

  /** `ts[i]` is the first transition of `ts` named `tid`. */
  ghost predicate FirstWithId(ts: seq<Transition>, tid: TransitionId, i: int)
  {
    && 0 <= i < |ts|
    && ts[i].id == tid
    && forall j :: 0 <= j < i ==> ts[j].id != tid
  }

  /** No two transitions of `g` share a name. */
  ghost predicate UniqueIds(g: Graph)
  {
    forall i, j :: 0 <= i < j < |g.transitions| ==> g.transitions[i].id != g.transitions[j].id
  }

  /** Every transition of `g` moves its subject to a different state. */
  ghost predicate AllChangeState(g: Graph)
  {
    forall i :: 0 <= i < |g.transitions| ==>
      Transitions.ChangesState(g.transitions[i].initialStates, g.transitions[i].finalState)
  }

  /** The first transition of `ts` named `tid`, if there is one. */
  function FindIn(ts: seq<Transition>, tid: TransitionId): (r: Option<Transition>)
    ensures r.None? <==> forall i :: 0 <= i < |ts| ==> ts[i].id != tid
    ensures r.Some? ==> exists i :: FirstWithId(ts, tid, i) && ts[i] == r.value
  {
    if ts == [] then None
    else if ts[0].id == tid then
      assert FirstWithId(ts, tid, 0);
      Some(ts[0])
    else
      assert forall i :: FirstWithId(ts[1..], tid, i) ==> FirstWithId(ts, tid, i + 1);
      FindIn(ts[1..], tid)
  }

  /**
   * Looks a transition up by name: absent exactly when no transition has that
   * name, otherwise the first one in declaration order that has it.
   */
  function GetTransition(g: Graph, tid: TransitionId): (r: Option<Transition>)
    ensures r.None? <==> forall i :: 0 <= i < |g.transitions| ==> g.transitions[i].id != tid
    ensures r.Some? ==> exists i :: FirstWithId(g.transitions, tid, i) && g.transitions[i] == r.value
  {
    FindIn(g.transitions, tid)
  }

  /** With unique names, the transition found is exactly the one named `tid`. */
  lemma GetTransitionUnique(g: Graph, i: int)
    requires UniqueIds(g)
    requires 0 <= i < |g.transitions|
    ensures GetTransition(g, g.transitions[i].id) == Some(g.transitions[i])
  {
  }

  /** The transitions of `ts` that may start in state `s`, in their order. */
  function TransitionsFrom(ts: seq<Transition>, s: StateId): (r: seq<Transition>)
    ensures |r| <= |ts|
    ensures forall t :: t in r <==> t in ts && s in t.initialStates
  {
    if ts == [] then []
    else
      var rest := TransitionsFrom(ts[1..], s);
      assert forall t :: t in ts <==> t == ts[0] || t in ts[1..];
      if s in ts[0].initialStates then [ts[0]] + rest else rest
  }

  /**
   * The transitions from a state keep the graph's declaration order:
   * filtering a concatenation filters each part and concatenates the results.
   */
  lemma {:induction false} TransitionsFromAppend(a: seq<Transition>, b: seq<Transition>, s: StateId)
    ensures TransitionsFrom(a + b, s) == TransitionsFrom(a, s) + TransitionsFrom(b, s)
  {
    if a == [] {
      assert a + b == b;
    } else {
      assert (a + b)[1..] == a[1..] + b;
      TransitionsFromAppend(a[1..], b, s);
    }
  }

  /** A single transition is kept exactly when it may start in `s`. */
  lemma TransitionsFromSingle(t: Transition, s: StateId)
    ensures TransitionsFrom([t], s) == (if s in t.initialStates then [t] else [])
  {
  }
}
