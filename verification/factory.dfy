/**
 * The concrete state machine factory: decides whether it handles a subject,
 * and if so assembles a machine from a mediator and a graph, both obtained
 * for the same graph id.
 */
module Factory {
  import opened Wrappers
  import opened Subjects
  import opened Mediators
  import opened Graphs
  import opened StateMachines

  /** Decides whether a factory handles a subject. */
  type SupportsTest = Subject -> bool

  /** The failure `Make` raises for a subject it does not handle. */
  datatype FactoryError = UnsupportedSubject

  /** A call `Make` makes on one of the factory's collaborators. */
  datatype Call = MediatorMade(mediatorFor: GraphId) | GraphLoaded(graph: GraphId)

  /**
   * A factory: the mediator factory and the graph loader it was given, both
   * keyed by graph id and otherwise opaque, and its supports test.
   */
  datatype ConcreteStateMachineFactory = ConcreteStateMachineFactory(
    mediatorFactory: GraphId -> Mediator,
    loader: GraphId -> Graph,
    test: SupportsTest
  )

  /** What `Make` returns together with the collaborator calls it made, in order. */
  datatype Made = Made(result: Result<StateMachine, FactoryError>, calls: seq<Call>)

  /** Whether the factory handles `subject`: its test, applied to the subject. */
  function Supports(f: ConcreteStateMachineFactory, subject: Subject): bool
  {
    f.test(subject)
  }

  /** Asks the mediator factory for `graphId`'s mediator, recording the call. */
  function MakeMediator(f: ConcreteStateMachineFactory, graphId: GraphId): (Mediator, Call)
  {
    (f.mediatorFactory(graphId), MediatorMade(graphId))
  }

  /** Asks the loader for graph `graphId`, recording the call. */
  function LoadGraph(f: ConcreteStateMachineFactory, graphId: GraphId): (Graph, Call)
  {
    (f.loader(graphId), GraphLoaded(graphId))
  }

  /**
   * Builds the state machine for `subject` over graph `graphId`. An
   * unsupported subject is refused with `UnsupportedSubject`; otherwise the
   * machine wraps the subject with the mediator and the graph made for that
   * one graph id.
   */
  function Make(f: ConcreteStateMachineFactory, subject: Subject, graphId: GraphId): (r: Result<StateMachine, FactoryError>)
    ensures r.Err? <==> !Supports(f, subject)
    ensures r.Ok? ==>
      && GetSubject(r.value) == subject
      && r.value.mediator == f.mediatorFactory(graphId)
      && GetGraph(r.value) == f.loader(graphId)
  {
    MakeTraced(f, subject, graphId).result
  }

  /**
   * `Make` with the calls it makes on its collaborators recorded, in order.
   * An unsupported subject is refused with no call made. Otherwise exactly
   * two calls are made, the mediator factory's and then the loader's, both
   * for `graphId`, and the machine's mediator and graph are what those
   * recorded calls return.
   */
  function MakeTraced(f: ConcreteStateMachineFactory, subject: Subject, graphId: GraphId): (r: Made)
    ensures r.result.Err? <==> !Supports(f, subject)
    ensures r.result.Err? ==> r.calls == []
    ensures r.result.Ok? ==>
      && |r.calls| == 2
      && r.calls[0].MediatorMade? && r.calls[1].GraphLoaded?
      && r.calls[0].mediatorFor == graphId && r.calls[1].graph == graphId
      && r.result.value.mediator == f.mediatorFactory(r.calls[0].mediatorFor)
      && r.result.value.graph == f.loader(r.calls[1].graph)
      && r.result.value.subject == subject
  {
    if !Supports(f, subject) then
      Made(Err(UnsupportedSubject), [])
    else
      var (mediator, madeMediator) := MakeMediator(f, graphId);
      var (graph, loadedGraph) := LoadGraph(f, graphId);
      Made(Ok(StateMachine(mediator, graph, subject)), [madeMediator, loadedGraph])
  }

  /** A support test accepting exactly the instances of class `c`. */
  function ClassTest(c: ClassName): (test: SupportsTest)
    ensures forall s :: test(s) <==> IsInstanceOf(s, c)
  {
    s => IsInstanceOf(s, c)
  }

  /**
   * An unsupported subject is refused whatever the mediator factory and the
   * loader are: the outcome depends on the supports test alone.
   */
  lemma UnsupportedIgnoresCollaborators(f: ConcreteStateMachineFactory, g: ConcreteStateMachineFactory,
                                        subject: Subject, graphId: GraphId)
    requires !Supports(f, subject) && f.test == g.test
    ensures MakeTraced(f, subject, graphId) == MakeTraced(g, subject, graphId) == Made(Err(UnsupportedSubject), [])
  {
  }

  /**
   * Only the given graph id is consulted: two factories that agree on the
   * subject's support and on that one id's mediator and graph make the same
   * machine, however they differ on every other id.
   */
  lemma MakeDependsOnGraphIdOnly(f: ConcreteStateMachineFactory, g: ConcreteStateMachineFactory,
                                 subject: Subject, graphId: GraphId)
    requires f.test(subject) == g.test(subject)
    requires f.mediatorFactory(graphId) == g.mediatorFactory(graphId)
    requires f.loader(graphId) == g.loader(graphId)
    ensures Make(f, subject, graphId) == Make(g, subject, graphId)
  {
  }

  /** A factory built on `ClassTest(c)` makes machines for instances of `c` only. */
  lemma ClassTestFactory(mediatorFactory: GraphId -> Mediator, loader: GraphId -> Graph,
                         c: ClassName, subject: Subject, graphId: GraphId)
    ensures var f := ConcreteStateMachineFactory(mediatorFactory, loader, ClassTest(c));
      && (Supports(f, subject) <==> IsInstanceOf(subject, c))
      && (Make(f, subject, graphId).Ok? <==> IsInstanceOf(subject, c))
  {
  }

  /**
   * A class test written `\App\Order` or `app\order` accepts an object of
   * class `App\Order`, and rejects one of class `App\Invoice`.
   */
  lemma ClassTestSpellings()
    ensures var order := Subject(ClassName("App\\Order"), {}, map[]);
      && ClassTest(ClassName("\\App\\Order"))(order)
      && ClassTest(ClassName("app\\order"))(order)
      && !ClassTest(ClassName("App\\Order"))(Subject(ClassName("App\\Invoice"), {}, map[]))
  {
    OrderSpellings();
  }
}
