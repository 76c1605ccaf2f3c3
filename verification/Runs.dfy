/**
  Runs of a labelled transition system.

  A machine is given by a partial step function: step(s, l) is None when the label l (the
  choice of the scheduler) is not enabled in s, and otherwise the state after it. A schedule
  is a sequence of labels, so "for every interleaving" is "for every sequence of labels".
*/
module Runs {
  datatype Option<+T> = None | Some(value: T)

  function Exec<S, L>(step: (S, L) -> Option<S>, s: S, ls: seq<L>): Option<S> {
    if ls == [] then Some(s)
    else match step(s, ls[0])
         case None => None
         case Some(s') => Exec(step, s', ls[1..])
  }

  /** The number of labels of one kind in a schedule. */
  function Count<L>(ls: seq<L>, kind: L -> bool): nat {
    if ls == [] then 0 else (if kind(ls[0]) then 1 else 0) + Count(ls[1..], kind)
  }

  ghost predicate Reaches<S(!new), L(!new)>(step: (S, L) -> Option<S>, s: S, s': S) {
    exists ls :: Exec(step, s, ls) == Some(s')
  }

  /** Running a schedule and then another one is running their concatenation. */
  lemma {:induction false} ExecConcat<S, L>(step: (S, L) -> Option<S>, s: S, a: seq<L>, b: seq<L>)
    ensures Exec(step, s, a + b)
         == match Exec(step, s, a) case None => None case Some(s') => Exec(step, s', b)
  {
    if a == [] {
      assert a + b == b;
    } else {
      assert (a + b)[1..] == a[1..] + b;
      match step(s, a[0])
      case None =>
      case Some(s') => ExecConcat(step, s', a[1..], b);
    }
  }

  /** A run followed by one more step. */
  lemma ExecSnoc<S, L>(step: (S, L) -> Option<S>, s0: S, ls: seq<L>, s: S, l: L, s': S)
    requires Exec(step, s0, ls) == Some(s) && step(s, l) == Some(s')
    ensures Exec(step, s0, ls + [l]) == Some(s')
  {
    ExecConcat(step, s0, ls, [l]);
    assert Exec(step, s', []) == Some(s');
    assert Exec(step, s, [l]) == Some(s');
  }

  lemma ReachesSelf<S(!new), L(!new)>(step: (S, L) -> Option<S>, s: S)
    ensures Reaches(step, s, s)
  {
    assert Exec(step, s, []) == Some(s);
  }

  lemma ReachesStep<S(!new), L(!new)>(step: (S, L) -> Option<S>, s: S, l: L, s': S)
    requires step(s, l) == Some(s')
    ensures Reaches(step, s, s')
  {
    assert Exec(step, s', []) == Some(s');
    assert Exec(step, s, [l]) == Some(s');
  }

  lemma ReachesTrans<S(!new), L(!new)>(step: (S, L) -> Option<S>, s: S, m: S, t: S)
    requires Reaches(step, s, m) && Reaches(step, m, t)
    ensures Reaches(step, s, t)
  {
    var a :| Exec(step, s, a) == Some(m);
    var b :| Exec(step, m, b) == Some(t);
    ExecConcat(step, s, a, b);
    assert Exec(step, s, a + b) == Some(t);
  }
}
