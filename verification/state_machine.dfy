/**
 * The state machine: one subject, the graph it moves through and the mediator
 * that reads and writes its state. A machine is a transient value built per
 * subject; applying a transition yields the machine over the updated subject.
 */
module StateMachines {
  import opened Wrappers
  import opened Transitions
  import opened Subjects
  import opened Mediators
  import opened Graphs

  /** A guard: user code deciding whether a transition may fire on a subject. */
  type Guard = (Subject, Transition) -> bool

  /** Why an evaluation is negative. */
  datatype Refusal = UnknownTransition | NotFromCurrentState | GuardRejected

  /** Whether a transition may be applied to the subject now, and if not, why. */
  datatype Evaluation = Valid | Invalid(reason: Refusal)

  /** The one failure `Apply` declares, carrying the negative evaluation. */
  datatype CannotTransition = CannotTransition(evaluation: Evaluation)

  datatype StateMachine = StateMachine(mediator: Mediator, graph: Graph, subject: Subject)

  /** The subject the machine was built for. */
  function GetSubject(m: StateMachine): Subject
  {
    m.subject
  }

  /** The graph the machine moves through. */
  function GetGraph(m: StateMachine): Graph
  {
    m.graph
  }

  /** The subject's current state, as its mediator reports it; never absent. */
  function GetCurrentState(m: StateMachine): (s: State)
    ensures s.id == m.mediator.read(m.subject)
  {
    State(m.mediator.read(m.subject))
  }

  /**
   * Evaluates transition `tid` against the subject without changing anything.
   * It is positive exactly when the graph's first transition named `tid`
   * starts in the current state and its guard accepts the subject.
   */
  function Evaluate(m: StateMachine, guard: Guard, tid: TransitionId): (e: Evaluation)
    ensures e.Valid? <==>
      exists i :: FirstWithId(m.graph.transitions, tid, i)
        && m.mediator.read(m.subject) in m.graph.transitions[i].initialStates
        && guard(m.subject, m.graph.transitions[i])
    ensures e == Invalid(UnknownTransition) <==>
      forall i :: 0 <= i < |m.graph.transitions| ==> m.graph.transitions[i].id != tid
  {
    match GetTransition(m.graph, tid)
    case None => Invalid(UnknownTransition)
    case Some(t) =>
      if m.mediator.read(m.subject) !in t.initialStates then Invalid(NotFromCurrentState)
      else if !guard(m.subject, t) then Invalid(GuardRejected)
      else Valid
  }

  /**
   * Applies transition `tid`: on a positive evaluation the mediator writes the
   * transition's final state onto the subject; otherwise the call fails with
   * `CannotTransition` and nothing is written.
   */
  function Apply(m: StateMachine, guard: Guard, tid: TransitionId): (r: Result<StateMachine, CannotTransition>)
    ensures r.Ok? <==> Evaluate(m, guard, tid).Valid?
    ensures r.Err? ==> r.error == CannotTransition(Evaluate(m, guard, tid))
    ensures r.Ok? ==> r.value.graph == m.graph && r.value.mediator == m.mediator
    ensures r.Ok? ==>
      exists i :: FirstWithId(m.graph.transitions, tid, i)
        && r.value.subject == m.mediator.write(m.subject, m.graph.transitions[i].finalState)
  {
    var e := Evaluate(m, guard, tid);
    if e.Valid? then
      var t := GetTransition(m.graph, tid).value;
      Ok(m.(subject := m.mediator.write(m.subject, t.finalState)))
    else
      Err(CannotTransition(e))
  }

  /** The transitions of the graph that may start in the current state. */
  function GetAvailableTransitions(m: StateMachine): (r: seq<Transition>)
    ensures forall t :: t in r ==> t in m.graph.transitions
    ensures forall t :: t in r <==> t in m.graph.transitions && GetCurrentState(m).id in t.initialStates
  {
    TransitionsFrom(m.graph.transitions, m.mediator.read(m.subject))
  }

  /**
   * With a lawful mediator, a successful apply leaves the subject in the
   * applied transition's final state and of the same class as before.
   */
  lemma ApplyReachesFinalState(m: StateMachine, guard: Guard, tid: TransitionId)
    requires Lawful(m.mediator)
    requires Apply(m, guard, tid).Ok?
    ensures var m' := Apply(m, guard, tid).value;
      && GetSubject(m').cls == GetSubject(m).cls
      && GetSubject(m').ancestors == GetSubject(m).ancestors
      && GetGraph(m') == GetGraph(m)
      && exists i :: FirstWithId(m.graph.transitions, tid, i)
           && GetCurrentState(m') == State(m.graph.transitions[i].finalState)
  {
  }

  /**
   * Applying is not idempotent: when every transition of the graph changes
   * state, a transition that was just applied cannot be applied again, since
   * the subject now sits in its final state, which is not one of its initial
   * states.
   */
  lemma ApplyTwiceFails(m: StateMachine, guard: Guard, tid: TransitionId)
    requires Lawful(m.mediator)
    requires AllChangeState(m.graph)
    ensures Apply(m, guard, tid).Ok? ==>
      Apply(Apply(m, guard, tid).value, guard, tid) == Err(CannotTransition(Invalid(NotFromCurrentState)))
  {
  }

  /** A transition that evaluates positively is among the available ones. */
  lemma EvaluateValidIsAvailable(m: StateMachine, guard: Guard, tid: TransitionId)
    ensures Evaluate(m, guard, tid).Valid? ==>
      exists t :: t in GetAvailableTransitions(m) && t.id == tid && guard(m.subject, t)
  {
    if Evaluate(m, guard, tid).Valid? {
      var i :| FirstWithId(m.graph.transitions, tid, i)
        && m.mediator.read(m.subject) in m.graph.transitions[i].initialStates
        && guard(m.subject, m.graph.transitions[i]);
      assert m.graph.transitions[i] in GetAvailableTransitions(m);
    }
  }

  /**
   * Conversely, in a graph with unique transition names, an available
   * transition whose guard accepts the subject evaluates positively.
   */
  lemma AvailableGuardedIsValid(m: StateMachine, guard: Guard, t: Transition)
    requires UniqueIds(m.graph)
    requires t in GetAvailableTransitions(m)
    requires guard(m.subject, t)
    ensures Evaluate(m, guard, t.id).Valid?
  {
  }
}
