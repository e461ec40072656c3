/** A journal of the events a machine lets be seen. What the log says is folded into a digest, event by
    event, and a law says which event may come when the log says so much. A law speaks of the log alone,
    not of the machine's state. */
module Journals {
  import opened Common

  datatype Rules<!D, !E> = Rules(blank: D, absorb: (D, E) -> D, lawful: (D, E) -> bool)

  function Digested<D, E>(r: Rules<D, E>, log: seq<E>): D {
    if log == [] then r.blank else r.absorb(Digested(r, log[..|log| - 1]), log[|log| - 1])
  }

  predicate AllLawful<D, E>(r: Rules<D, E>, log: seq<E>) {
    log == [] || (AllLawful(r, log[..|log| - 1]) && r.lawful(Digested(r, log[..|log| - 1]), log[|log| - 1]))
  }

  /** In a lawful log every event was lawful when it came. */
  lemma {:induction false} LawfulAt<D, E>(r: Rules<D, E>, log: seq<E>, k: nat)
    requires AllLawful(r, log) && k < |log|
    ensures AllLawful(r, log[..k]) && r.lawful(Digested(r, log[..k]), log[k])
    decreases |log|
  {
    var n := |log| - 1;
    if k < n {
      LawfulAt(r, log[..n], k);
      assert log[..n][..k] == log[..k];
    }
  }

  /** Everything noted so far, what it says, and whether every event was lawful. */
  datatype Notes<!D, !E> = Notes(log: seq<E>, now: D, lawful: bool)

  /** The log says just this. */
  ghost predicate Genuine<D(!new), E(!new)>(r: Rules<D, E>, n: Notes<D, E>) {
    forall s: Seal | Unsealed(s) :: n.now == Digested(r, n.log) && n.lawful == AllLawful(r, n.log)
  }

  lemma GenuineSays<D(!new), E(!new)>(r: Rules<D, E>, n: Notes<D, E>)
    requires Genuine(r, n)
    ensures n.now == Digested(r, n.log) && n.lawful == AllLawful(r, n.log)
  {
    assert Unsealed(Seal);
  }

  lemma GenuineGrows<D(!new), E(!new)>(r: Rules<D, E>, n: Notes<D, E>, e: E)
    requires Genuine(r, n)
    ensures Genuine(r, Notes(n.log + [e], r.absorb(n.now, e), n.lawful && r.lawful(n.now, e)))
  {
    assert Unsealed(Seal) && (n.log + [e])[..|n.log|] == n.log;
  }
}
