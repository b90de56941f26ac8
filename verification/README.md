# IronBound State: transitions, machine contract and factory dispatch

A Dafny model of three pieces of the IronBound State finite-state-machine
library (PHP):

- **Transitions** (`transition.dfy`). A `MutableTransition` is a builder: an id, an
  ordered list of initial `StateId`s and one final `StateId`. `AddInitialState`
  appends one initial state. `ToImmutable` freezes the builder into a
  `Transition` with the same id, initial states and final state. The
  library's unit tests for the builder are restated as lemmas in
  `mutable_transition_test.dfy`.
- **The state machine** (`state_machine.dfy`). A machine is an immutable record of
  a mediator, a graph and a subject. The mediator reads and writes the
  subject's state; the graph is a `seq<Transition>` in declaration order.
  - `Evaluate` is a pure function of the machine. It is positive exactly when
    the graph's first transition with the requested id starts in the current
    state and the guard accepts the subject.
  - `Apply` returns either the machine over the updated subject or
    `CannotTransition`, which carries the negative evaluation.
  - `GetAvailableTransitions` lists the graph's transitions that start in the
    current state.
  - `scenario.dfy` runs the machine on the graph `activate: [pending] -> active`.
- **Factory dispatch** (`factory.dfy`). `Make` consults the supports test first
  and fails with `UnsupportedSubject` when it is false. Otherwise it obtains a
  mediator and a graph for the same `GraphId` and wraps them with the
  subject. `MakeTraced` records the calls `Make` makes on those
  collaborators. `ClassTest(c)` accepts exactly the instances of class `c`.

Supporting modules:
- `wrappers.dfy`: `Option` and `Result`.
- `subject.dfy`: subjects tagged with a class and their ancestor classes, plus
  the `IsInstanceOf` relation. As in PHP's `instanceof` with a class name held
  in a string, names are matched with ASCII case folded and one leading `\`
  dropped.
- `mediator.dfy`: the `Mediator` as a pair of opaque read/write functions.
  - `Lawful` states the mediator laws: a written state reads back, and the class
    is untouched.
  - `PropertyMediator` is one lawful mediator, which keeps the state in a
    property.
- `graph.dfy`: `GraphId`, `Graph`, lookup of a transition by id
  (`GetTransition`), and `TransitionsFrom`. The library's graph classes are not
  part of this model beyond these lookups.

The guard is a function-valued parameter `(Subject, Transition) -> bool`. The
mediator factory and the graph loader are function-valued fields
`GraphId -> Mediator` and `GraphId -> Graph` of the factory.

The `StateMachine` interface declares no failure for `evaluate`, and only
`CannotTransition` for `apply`. The model keeps to that interface: a
transition id absent from the graph gives the negative evaluation
`Invalid(UnknownTransition)`, so `Apply` on such an id fails with
`CannotTransition`; the Left out section below records how this differs from
the library's concrete machine.

## Model

| member | source | states |
|---|---|---|
| Transitions.AddInitialState | tests/Transition/MutableTransitionTest.php:45-54 | appending adds exactly one initial state, at the end of the list; the earlier entries keep their order, and the id and final state are unchanged |
| Transitions.ToImmutable | tests/Transition/MutableTransitionTest.php:24-35 | freezing keeps the id and the final state, and keeps the initial states element by element, in order |
| Transitions.AddInitialStates | tests/Transition/MutableTransitionTest.php:45-54 | appending a list of states one at a time extends the initial states by exactly that list, in order |
| Transitions.BuildThenFreeze | tests/Transition/MutableTransitionTest.php:24-54 | building from no initial states by appending a list and then freezing gives the transition constructed directly from that list |
| Transitions.ToImmutableInjective | tests/Transition/MutableTransitionTest.php:24-35 | two builders freeze to the same transition if and only if they are equal, so freezing loses nothing |
| Transitions.AddInitialStateKeepsWellFormed | tests/Transition/MutableTransitionTest.php:45-54 | on a transition with a non-empty, duplicate-free initial list that excludes the final state, appending `s` keeps those invariants if and only if `s` is neither already initial nor the final state |
| Transitions.ToImmutableKeepsWellFormed | tests/Transition/MutableTransitionTest.php:24-35 | the frozen transition keeps those invariants if and only if the builder did |
| MutableTransitionTests.TestToImmutable | tests/Transition/MutableTransitionTest.php:24-35 | on the fixture, the frozen transition has the builder's id name, final state name and initial states |
| MutableTransitionTests.TestGetFinalState | tests/Transition/MutableTransitionTest.php:37-43 | the fixture's final state is `active` |
| MutableTransitionTests.TestAddInitialState | tests/Transition/MutableTransitionTest.php:45-54 | after appending `inactive` to the fixture there are two initial states, and the one at index 1 is `inactive` |
| MutableTransitionTests.TestGetId | tests/Transition/MutableTransitionTest.php:56-60 | the fixture reports the id `activate` it was built with |
| MutableTransitionTests.TestGetInitialStates | tests/Transition/MutableTransitionTest.php:62-79 | the fixture has exactly one initial state, `pending` |
| StateMachines.GetCurrentState | src/StateMachine.php:38-43 | the current state is always a `State` value, never absent, and is the state the mediator reads from the subject |
| StateMachines.Evaluate | src/StateMachine.php:54-61 | evaluation declares no failure; it is positive if and only if the graph's first transition with the given id starts in the current state and its guard accepts the subject; it reports an unknown transition if and only if no transition has that id |
| StateMachines.Apply | src/StateMachine.php:45-52 | apply succeeds if and only if the evaluation is positive; its only failure is `CannotTransition`, carrying that evaluation; on success the graph and mediator are unchanged and the subject gets the transition's final state written by the mediator |
| StateMachines.GetAvailableTransitions | src/StateMachine.php:63-68 | every available transition is a transition of the machine's graph, and a graph transition is available if and only if it starts in the current state |
| Graphs.TransitionsFromAppend | src/StateMachine.php:63-68 | the transitions from a state keep the graph's order: filtering a concatenation gives the filtered parts, concatenated in the same order |
| Graphs.TransitionsFromSingle | src/StateMachine.php:63-68 | a single transition is listed exactly when it may start in the given state; with the law above, this fixes the available list as the in-order filter of the graph |
| StateMachines.ApplyReachesFinalState | src/StateMachine.php:29-52 | with a lawful mediator, after a successful apply the current state is the transition's final state; the graph and the subject's class are unchanged |
| StateMachines.ApplyTwiceFails | src/StateMachine.php:45-52 | with a lawful mediator, in a graph whose transitions all change state, re-applying a just-applied transition fails with `CannotTransition` because the subject is not in one of its initial states |
| StateMachines.EvaluateValidIsAvailable | src/StateMachine.php:54-68 | a positively evaluated transition is among the available transitions, and its guard accepts the subject |
| StateMachines.AvailableGuardedIsValid | src/StateMachine.php:54-68 | in a graph with unique transition ids, an available transition whose guard accepts the subject evaluates positively |
| Scenarios.ActivateOnce | src/StateMachine.php:38-61 | on `activate: [pending] -> active` from `pending`, evaluation is positive, apply succeeds, the current state becomes `active`, and a second apply fails |
| Scenarios.UnknownTransitionRefused | src/StateMachine.php:45-61 | under this model's encoding of an unknown id (the interface declares no separate failure for it), an id the graph lacks evaluates to `Invalid(UnknownTransition)` and apply fails with `CannotTransition` carrying that evaluation |
| Factory.Make | src/Factory/ConcreteStateMachineFactory.php:47-57 | `Make` fails if and only if the subject is unsupported, and then with `UnsupportedSubject`; on success the machine's subject is the given subject, and its mediator and graph are the ones made for the given graph id |
| Factory.MakeTraced | src/Factory/ConcreteStateMachineFactory.php:47-57 | an unsupported subject is refused with an empty call record; otherwise exactly two calls are recorded, the mediator factory's and then the loader's, both for the given graph id, and the machine's mediator and graph are the values those recorded calls return |
| Factory.UnsupportedIgnoresCollaborators | src/Factory/ConcreteStateMachineFactory.php:49-54 | for an unsupported subject, the outcome and the (empty) call record are the same whatever the mediator factory and loader are |
| Factory.MakeDependsOnGraphIdOnly | src/Factory/ConcreteStateMachineFactory.php:47-57 | two factories that agree on whether the subject is supported and on the mediator and graph for the given id make the same machine, whatever they do for other ids |
| Factory.ClassTest | src/Factory/ConcreteStateMachineFactory.php:73-88 | the returned test accepts a subject if and only if it is an instance of the class |
| Factory.ClassTestFactory | src/Factory/ConcreteStateMachineFactory.php:59-88 | a factory built on `ClassTest(c)` supports, and makes machines for, exactly the instances of `c` |
| Factory.ClassTestSpellings | src/Factory/ConcreteStateMachineFactory.php:84-87 | a class test for `\App\Order` or for `app\order` accepts an object of class `App\Order`; one for `App\Order` rejects an object of class `App\Invoice` |
| Subjects.InstanceOfIgnoresSpelling | src/Factory/ConcreteStateMachineFactory.php:84-87 | whether an object is an instance of a class does not change when the class name is folded to lower case, or when one leading `\` is added to a name that does not already start with one |
| Subjects.LeadingBackslashSameClass | src/Factory/ConcreteStateMachineFactory.php:84-87 | prefixing a name with `\` denotes the same class if and only if the name does not itself start with `\`, since only one is dropped |
| Subjects.OrderSpellings | src/Factory/ConcreteStateMachineFactory.php:84-87 | an object of class `App\Order` is an instance of `app\order` and of `\App\Order`; one of class `App\Invoice` is not an instance of `App\Order` |

## Left out

- The loader, the mediator factory and the mediator: their implementations are outside the modelled code. They are opaque function values, and the mediator laws are an explicit `Lawful` precondition where a property needs them.
- Guard bodies and transition side effects: arbitrary user code. The guard is an opaque parameter; side effects are not modelled, and `Apply` writes the final state directly.
- Runtime class introspection: `instanceof` on arbitrary objects is modelled by a class tag and a set of ancestor class names on the subject. Names are compared with ASCII case folded and one leading `\` dropped; class aliases and autoloading are not modelled.
- Object identity and in-place mutation: the subject is a value, so `Apply` returns a new machine over the updated subject. That `Evaluate` changes nothing, and that repeated evaluations agree, holds by construction: it is a pure function that returns no machine.
- StateMachines.Evaluate: an unknown transition id yields `Invalid(UnknownTransition)`. In the library, the graph lookup fails with its own `UnknownTransition` error, which the concrete machine lets propagate. The `StateMachine` interface declares no such failure, and the concrete machine is not part of this model.
- StateMachines.Apply: for the same reason, an unknown id fails with `CannotTransition` carrying `Invalid(UnknownTransition)` rather than with a separate `UnknownTransition` error.
- The layout and messages of `Evaluation` and of the exceptions: only positivity, plus a three-way reason tag, is modelled.
- The `State` resolution check of the concrete machine (an unknown or malformed stored state): the concrete machine is not part of this model; `GetCurrentState` wraps whatever id the mediator reads.
- Structural invariants of transitions (non-empty, duplicate-free initial states; final state not initial): the transition builder does not enforce them. They are the optional predicates `ValidEdge`, `UniqueIds` and `AllChangeState`, assumed only by the lemmas that name them.
- StateMachines.GetSubject and StateMachines.GetGraph: plain accessors without a contract of their own; their promises are stated through `Factory.Make` (the subject and graph a machine was made with) and `StateMachines.Apply` (the graph is unchanged).
- Factory.Supports: applies the injected test to the subject and has no contract of its own; what it decides is stated through `Factory.Make`, `Factory.MakeTraced` and `Factory.ClassTestFactory`. Being a pure function, it cannot change the factory.
- Factory.MakeTraced: a collaborator call whose result is discarded has no observable effect in a pure model, so the record lists the calls whose results become parts of the machine.
- Concurrency and persistence of subjects: neither appears in the modelled code.
