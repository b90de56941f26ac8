/**
 * The mutable transition's unit tests, stated as lemmas over the fixture
 * `activate: [pending] -> active`.
 */
module MutableTransitionTests {
  import opened Transitions

  /** The fixture every test starts from. */
  function MakeTransition(): MutableTransition
  {
    MutableTransition(TransitionId("activate"), [StateId("pending")], StateId("active"))
  }

  lemma TestToImmutable()
    ensures var t := MakeTransition();
      && ToImmutable(t).id.name == t.id.name
      && ToImmutable(t).finalState.name == t.finalState.name
      && ToImmutable(t).initialStates == t.initialStates
  {
  }

  lemma TestGetFinalState()
    ensures MakeTransition().finalState.name == "active"
  {
  }

  lemma TestAddInitialState()
    ensures var t := AddInitialState(MakeTransition(), StateId("inactive"));
      && |t.initialStates| == 2
      && t.initialStates[1].name == "inactive"
  {
  }

  lemma TestGetId()
    ensures MakeTransition().id.name == "activate"
  {
  }

  lemma TestGetInitialStates()
    ensures |MakeTransition().initialStates| == 1
    ensures MakeTransition().initialStates[0].name == "pending"
  {
  }
}
