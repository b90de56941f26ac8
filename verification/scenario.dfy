/**
 * The machine on the smallest useful graph: states `pending` and `active`,
 * one transition `activate: [pending] -> active`, a subject keeping its state
 * in its `status` property, and a guard that always passes.
 */
module Scenarios {
  import opened Wrappers
  import opened Transitions
  import opened Subjects
  import opened Mediators
  import opened Graphs
  import opened StateMachines

  function Activate(): Transition
  {
    Transition(TransitionId("activate"), [StateId("pending")], StateId("active"))
  }

  function Pending(): StateMachine
  {
    var subject := Subject(ClassName("Order"), {}, map["status" := "pending"]);
    StateMachine(PropertyMediator("status"), Graph([Activate()]), subject)
  }

  /**
   * `activate` evaluates positively from `pending`, applying it moves the
   * subject to `active`, and applying it a second time fails because
   * `active` is not one of its initial states.
   */
  lemma ActivateOnce()
    ensures Evaluate(Pending(), (s, t) => true, TransitionId("activate")).Valid?
    ensures Apply(Pending(), (s, t) => true, TransitionId("activate")).Ok?
    ensures GetCurrentState(Apply(Pending(), (s, t) => true, TransitionId("activate")).value)
         == State(StateId("active"))
    ensures Apply(Apply(Pending(), (s, t) => true, TransitionId("activate")).value,
                  (s, t) => true, TransitionId("activate")).Err?
  {
  }

  /** Asking for a transition the graph does not have is refused. */
  lemma UnknownTransitionRefused()
    ensures Evaluate(Pending(), (s, t) => true, TransitionId("archive")) == Invalid(UnknownTransition)
    ensures Apply(Pending(), (s, t) => true, TransitionId("archive"))
         == Err(CannotTransition(Invalid(UnknownTransition)))
  {
  }
}
