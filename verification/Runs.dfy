/** Runs of any state machine that is given by what a step makes of a state, if it can be taken there. */
module Runs {
  import opened Wrappers

  /** The steps can be taken one after another, and lead from one state to the other. */
  ghost predicate Leads<S(!new), T(!new)>(take: (S, T) -> Option<S>, s: S, steps: seq<T>, s': S)
    decreases |steps|
  {
    if steps == [] then s' == s
    else take(s, steps[0]).Some? && Leads(take, take(s, steps[0]).value, steps[1..], s')
  }

  lemma {:induction false} LeadsOn<S(!new), T(!new)>(take: (S, T) -> Option<S>, s: S, a: seq<T>, mid: S, b: seq<T>, end: S)
    requires Leads(take, s, a, mid) && Leads(take, mid, b, end)
    ensures Leads(take, s, a + b, end)
    decreases |a|
  {
    if a == [] {
      assert a + b == b;
    } else {
      assert (a + b)[1..] == a[1..] + b;
      LeadsOn(take, take(s, a[0]).value, a[1..], mid, b, end);
    }
  }

  lemma Then<S(!new), T(!new)>(take: (S, T) -> Option<S>, s: S, steps: seq<T>, mid: S, step: T, s': S)
    requires Leads(take, s, steps, mid) && take(mid, step) == Some(s')
    ensures Leads(take, s, steps + [step], s')
  {
    assert [step][1..] == [];
    LeadsOn(take, s, steps, mid, [step], s');
  }
}
