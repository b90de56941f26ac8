/**
 * State mediators: the seam between the engine's state ids and wherever a
 * subject keeps its state.
 */
module Mediators {
  import opened Transitions
  import opened Subjects

  /**
   * A mediator reads a subject's current state id and writes a new one.
   * Its internals are not part of this model, so both directions are
   * arbitrary function values.
   */
  datatype Mediator = Mediator(
    read: Subject -> StateId,
    write: (Subject, StateId) -> Subject
  )

  /**
   * The laws a mediator is expected to keep: reading back a written state
   * yields that state, and writing changes neither the subject's class nor
   * its ancestry.
   */
  ghost predicate Lawful(m: Mediator)
  {
    forall s: Subject, x: StateId ::
      m.read(m.write(s, x)) == x
      && m.write(s, x).cls == s.cls
      && m.write(s, x).ancestors == s.ancestors
  }

  /** The state id stored in property `prop`, or the empty name when unset. */
  function ReadProperty(prop: string, s: Subject): StateId
  {
    StateId(if prop in s.props then s.props[prop] else "")
  }

  /** Stores a state id's name in property `prop`. */
  function WriteProperty(prop: string, s: Subject, x: StateId): Subject
  {
    s.(props := s.props[prop := x.name])
  }

  /** A mediator that keeps the state name in one property of the subject. */
  function PropertyMediator(prop: string): (m: Mediator)
    ensures Lawful(m)
    ensures forall s: Subject, x: StateId :: prop in m.write(s, x).props
  {
    Mediator(s => ReadProperty(prop, s), (s, x) => WriteProperty(prop, s, x))
  }
}
