/** Runs of a labelled transition system.

  A concurrent component is described by a `Machine`: which labelled steps a
  state enables and the one state each label leads to.  Whatever the environment
  decides (an I/O result, which task the scheduler picks, the time that passes)
  is part of the label, so quantifying over label sequences quantifies over
  every schedule and every outcome.
 */
module Runs {
  datatype Machine<!S, !L> = Machine(enabled: (S, L) -> bool, apply: (S, L) -> S)

  /** Every label is enabled in the state its predecessors lead to. */
  predicate Valid<S, L>(m: Machine<S, L>, s: S, steps: seq<L>)
  {
    steps == [] || (m.enabled(s, steps[0]) && Valid(m, m.apply(s, steps[0]), steps[1..]))
  }

  function Final<S, L>(m: Machine<S, L>, s: S, steps: seq<L>): S
  {
    if steps == [] then s else Final(m, m.apply(s, steps[0]), steps[1..])
  }

  ghost predicate Inductive<S(!new), L(!new)>(m: Machine<S, L>, inv: S -> bool)
  {
    forall s, l :: inv(s) && m.enabled(s, l) ==> inv(m.apply(s, l))
  }

  lemma {:induction false} Preserved<S(!new), L(!new)>(m: Machine<S, L>, inv: S -> bool, s: S, steps: seq<L>)
    requires Inductive(m, inv) && inv(s) && Valid(m, s, steps)
    ensures inv(Final(m, s, steps))
  {
    if steps == [] {
    } else {
      Preserved(m, inv, m.apply(s, steps[0]), steps[1..]);
    }
  }

  /** A run can be extended by any label its last state enables. */
  lemma {:induction false} Extend<S, L>(m: Machine<S, L>, s: S, steps: seq<L>, l: L)
    requires Valid(m, s, steps) && m.enabled(Final(m, s, steps), l)
    ensures Valid(m, s, steps + [l])
    ensures Final(m, s, steps + [l]) == m.apply(Final(m, s, steps), l)
  {
    if steps == [] {
    } else {
      assert (steps + [l])[1..] == steps[1..] + [l];
      Extend(m, m.apply(s, steps[0]), steps[1..], l);
    }
  }

  lemma {:induction false} Concat<S, L>(m: Machine<S, L>, s: S, first: seq<L>, second: seq<L>)
    requires Valid(m, s, first) && Valid(m, Final(m, s, first), second)
    ensures Valid(m, s, first + second)
    ensures Final(m, s, first + second) == Final(m, Final(m, s, first), second)
  {
    if first == [] {
      assert first + second == second;
    } else {
      assert (first + second)[1..] == first[1..] + second;
      Concat(m, m.apply(s, first[0]), first[1..], second);
    }
  }

  /** `Extend` as a way to write a run down step by step. */
  lemma Advance<S, L>(m: Machine<S, L>, s: S, steps: seq<L>, l: L) returns (longer: seq<L>)
    requires Valid(m, s, steps) && m.enabled(Final(m, s, steps), l)
    ensures longer == steps + [l] && Valid(m, s, longer)
    ensures Final(m, s, longer) == m.apply(Final(m, s, steps), l)
  {
    Extend(m, s, steps, l);
    longer := steps + [l];
  }
}
