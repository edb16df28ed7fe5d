/** Observed states of a provider session (src/providers.rs). */
module Lifecycle {

  datatype LifecycleState = Starting | Running | Exited | Lost | Unknown | Quarantined {
    predicate IsTerminal() {
      Exited? || Lost? || Quarantined?
    }

    predicate Allows(next: LifecycleState) {
      this == next || ((Starting? || Running? || Unknown?) && !next.Starting?)
    }
  }

  /** Exactly the ended states are terminal; from them nothing else follows, and from the others anything but a new start. */
  lemma TerminalStatesAreFinal(from: LifecycleState, to: LifecycleState)
    ensures from.IsTerminal() <==> from in {Exited, Lost, Quarantined}
    ensures from.Allows(to) <==> from == to || (from in {Starting, Running, Unknown} && to != Starting)
    ensures from.IsTerminal() && from.Allows(to) ==> to == from
  {
  }
}
