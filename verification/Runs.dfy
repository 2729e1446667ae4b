/** Runs of a transition system whose step may be disabled. */
module Runs {
  import opened Wrappers

  function Run<S, A>(step: (S, A) -> Option<S>, s: S, acts: seq<A>): Option<S>
    decreases |acts|
  {
    if acts == [] then Some(s)
    else
      match step(s, acts[0])
      case None => None
      case Some(t) => Run(step, t, acts[1..])
  }

  lemma {:induction false} RunConcat<S, A>(step: (S, A) -> Option<S>, s: S, p: seq<A>, q: seq<A>)
    ensures Run(step, s, p + q) == match Run(step, s, p) case None => None case Some(t) => Run(step, t, q)
    decreases |p|
  {
    if p == [] {
      assert p + q == q;
    } else {
      assert (p + q)[1..] == p[1..] + q;
      match step(s, p[0])
      case None =>
      case Some(t) => RunConcat(step, t, p[1..], q);
    }
  }

  lemma RunSnoc<S, A>(step: (S, A) -> Option<S>, s: S, acts: seq<A>, a: A)
    ensures Run(step, s, acts + [a]) == match Run(step, s, acts) case None => None case Some(t) => step(t, a)
  {
    RunConcat(step, s, acts, [a]);
    match Run(step, s, acts)
    case None =>
    case Some(t) =>
      match step(t, a)
      case None =>
      case Some(u) => assert Run(step, u, [a][1..]) == Some(u);
  }
}
