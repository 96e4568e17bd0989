/** The system mixin: a system is its attributes plus a state, and `copy`
    yields a deep copy carrying a new state. As values, copies share
    nothing with the original or with each other. */
module BaseSystem {
  import opened LinAlg

  /** A system: everything but the state (`attributes`), and the state. */
  datatype System<A> = System(attributes: A, state: Vector)

  /** System.copy(state): a deep copy whose state is replaced. */
  function Copy<A>(sys: System<A>, state: Vector): (c: System<A>)
    ensures c.state == state
    ensures c.attributes == sys.attributes
  {
    sys.(state := state)
  }

  /** A copy with the system's own state is the system itself; copying a
      copy is a copy of the original. */
  lemma CopyIdentities<A>(sys: System<A>, s1: Vector, s2: Vector)
    ensures Copy(sys, sys.state) == sys
    ensures Copy(Copy(sys, s1), s2) == Copy(sys, s2)
    ensures Copy(sys, s1) == Copy(sys, s2) <==> s1 == s2
  {
    assert Copy(sys, s1).state == s1 && Copy(sys, s2).state == s2;
  }
}
