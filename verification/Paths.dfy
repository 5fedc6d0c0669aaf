/** Runs of any step relation, and the ways of arguing along them. */
module Paths {
  ghost predicate IsPath<S(!new), A(!new)>(step: (S, A, S) -> bool, tr: seq<S>, acts: seq<A>) {
    && |tr| == |acts| + 1
    && forall j {:trigger acts[j]} :: 0 <= j < |acts| ==> step(tr[j], acts[j], tr[j + 1])
  }

  ghost predicate Preserves<S(!new), A(!new)>(step: (S, A, S) -> bool, inv: S -> bool) {
    forall s, a, t :: inv(s) && step(s, a, t) ==> inv(t)
  }

  /** An invariant of the first state holds in every state. */
  lemma {:induction false} Invariant<S(!new), A(!new)>(
      step: (S, A, S) -> bool, inv: S -> bool, tr: seq<S>, acts: seq<A>, j: nat)
    requires IsPath(step, tr, acts) && Preserves(step, inv)
    requires j <= |acts| && inv(tr[0])
    ensures inv(tr[j])
  {
    if j > 0 {
      Invariant(step, inv, tr, acts, j - 1);
      assert step(tr[j - 1], acts[j - 1], tr[j - 1 + 1]);
    }
  }

  /** A state property that only an `event` step can end still holds later, unless such a step came between. */
  lemma {:induction false} Until<S(!new), A(!new)>(step: (S, A, S) -> bool, inv: S -> bool, owed: S -> bool,
      event: (S, S) -> bool, tr: seq<S>, acts: seq<A>, i: nat, j: nat)
    requires IsPath(step, tr, acts) && Preserves(step, inv)
    requires forall s, a, t :: inv(s) && owed(s) && step(s, a, t) ==> event(s, t) || owed(t)
    requires i <= j <= |acts| && inv(tr[i]) && owed(tr[i])
    ensures inv(tr[j])
    ensures owed(tr[j]) || exists k :: i <= k < j && event(tr[k], tr[k + 1])
    decreases j - i
  {
    if i < j {
      Until(step, inv, owed, event, tr, acts, i, j - 1);
      assert step(tr[j - 1], acts[j - 1], tr[j - 1 + 1]);
      if owed(tr[j - 1]) {
        assert event(tr[j - 1], tr[j - 1 + 1]) || owed(tr[j]);
      }
    }
  }

  /** What is wanted now was caused by an earlier step, and nothing has ended it since. */
  lemma {:induction false} Traced<S(!new), A(!new)>(step: (S, A, S) -> bool, inv: S -> bool, want: S -> bool,
      cause: (S, A) -> bool, ends: (S, S) -> bool, tr: seq<S>, acts: seq<A>, j: nat)
      returns (i: nat)
    requires IsPath(step, tr, acts) && Preserves(step, inv) && inv(tr[0])
    requires forall s, a, t :: inv(s) && step(s, a, t) && want(t) ==> !ends(s, t) && (cause(s, a) || want(s))
    requires j <= |acts| && !want(tr[0]) && want(tr[j])
    ensures i < j && cause(tr[i], acts[i])
    ensures forall k :: i <= k < j ==> !ends(tr[k], tr[k + 1])
  {
    Invariant(step, inv, tr, acts, j - 1);
    assert step(tr[j - 1], acts[j - 1], tr[j - 1 + 1]);
    if cause(tr[j - 1], acts[j - 1]) {
      i := j - 1;
    } else {
      i := Traced(step, inv, want, cause, ends, tr, acts, j - 1);
    }
  }

  /** What each of the first j steps contributes, in order. */
  ghost function Gathered<S, A, X>(more: (S, A) -> seq<X>, tr: seq<S>, acts: seq<A>, j: nat): seq<X>
    requires j <= |acts| < |tr|
  {
    if j == 0 then [] else Gathered(more, tr, acts, j - 1) + more(tr[j - 1], acts[j - 1])
  }

  lemma {:induction false} GathersAll<S(!new), A(!new), X(!new)>(step: (S, A, S) -> bool, inv: S -> bool,
      of: S -> seq<X>, more: (S, A) -> seq<X>, tr: seq<S>, acts: seq<A>, j: nat)
    requires IsPath(step, tr, acts) && Preserves(step, inv) && inv(tr[0]) && of(tr[0]) == [] && j <= |acts|
    requires forall s, a, t :: inv(s) && step(s, a, t) ==> of(t) == of(s) + more(s, a)
    ensures of(tr[j]) == Gathered(more, tr, acts, j)
  {
    if j > 0 {
      GathersAll(step, inv, of, more, tr, acts, j - 1);
      Invariant(step, inv, tr, acts, j - 1);
      assert step(tr[j - 1], acts[j - 1], tr[j - 1 + 1]);
    }
  }

  /** What the first j actions make of x. */
  ghost function Fold<A, X>(f: (X, A) -> X, x: X, acts: seq<A>, j: nat): X
    requires j <= |acts|
  {
    if j == 0 then x else f(Fold(f, x, acts, j - 1), acts[j - 1])
  }

  lemma {:induction false} FoldsAll<S(!new), A(!new), X(!new)>(step: (S, A, S) -> bool, inv: S -> bool,
      ok: S -> bool, of: S -> X, f: (X, A) -> X, tr: seq<S>, acts: seq<A>, j: nat)
    requires IsPath(step, tr, acts) && Preserves(step, inv) && inv(tr[0]) && j <= |acts| && ok(tr[j])
    requires forall s, a, t :: inv(s) && step(s, a, t) && ok(t) ==> ok(s) && of(t) == f(of(s), a)
    ensures of(tr[j]) == Fold(f, of(tr[0]), acts, j)
  {
    if j > 0 {
      Invariant(step, inv, tr, acts, j - 1);
      assert step(tr[j - 1], acts[j - 1], tr[j - 1 + 1]);
      FoldsAll(step, inv, ok, of, f, tr, acts, j - 1);
    }
  }

  /** What holds at i still holds at j if every step of the kinds taken between keeps it. */
  lemma {:induction false} Keeps<S(!new), A(!new)>(step: (S, A, S) -> bool, inv: S -> bool, may: A -> bool,
      p: S -> bool, tr: seq<S>, acts: seq<A>, i: nat, j: nat)
    requires IsPath(step, tr, acts) && Preserves(step, inv) && i <= j <= |acts| && inv(tr[i]) && p(tr[i])
    requires forall k :: i <= k < j ==> may(acts[k])
    requires forall s, a, t :: inv(s) && p(s) && may(a) && step(s, a, t) ==> p(t)
    ensures inv(tr[j]) && p(tr[j])
    decreases j - i
  {
    if i < j {
      Keeps(step, inv, may, p, tr, acts, i, j - 1);
      assert step(tr[j - 1], acts[j - 1], tr[j - 1 + 1]);
    }
  }

  /** Sum of a per-step amount along a run. */
  ghost function Sum<S, A>(amount: (S, A) -> nat, tr: seq<S>, acts: seq<A>): nat
    requires |tr| == |acts| + 1
    decreases |acts|
  {
    if acts == [] then 0 else amount(tr[0], acts[0]) + Sum(amount, tr[1..], acts[1..])
  }

  lemma Tail<S(!new), A(!new)>(step: (S, A, S) -> bool, tr: seq<S>, acts: seq<A>)
    requires IsPath(step, tr, acts) && acts != []
    ensures step(tr[0], acts[0], tr[1])
    ensures IsPath(step, tr[1..], acts[1..])
  {
    assert step(tr[0], acts[0], tr[0 + 1]);
    forall j {:trigger acts[1..][j]} | 0 <= j < |acts[1..]|
      ensures step(tr[1..][j], acts[1..][j], tr[1..][j + 1])
    {
      assert acts[1..][j] == acts[j + 1];
    }
  }

  lemma Suffix<S(!new), A(!new)>(step: (S, A, S) -> bool, tr: seq<S>, acts: seq<A>, i: nat)
    requires IsPath(step, tr, acts) && i <= |acts|
    ensures IsPath(step, tr[i..], acts[i..])
  {
    forall j {:trigger acts[i..][j]} | 0 <= j < |acts[i..]|
      ensures step(tr[i..][j], acts[i..][j], tr[i..][j + 1])
    {
      assert acts[i..][j] == acts[i + j];
      assert step(tr[i + j], acts[i + j], tr[i + j + 1]);
    }
  }

  lemma Cons<S(!new), A(!new)>(step: (S, A, S) -> bool, s: S, a: A, tr: seq<S>, acts: seq<A>)
    requires IsPath(step, tr, acts) && step(s, a, tr[0])
    ensures IsPath(step, [s] + tr, [a] + acts) && ([s] + tr)[|[a] + acts|] == tr[|acts|]
  {
    forall j {:trigger ([a] + acts)[j]} | 0 <= j < |[a] + acts|
      ensures step(([s] + tr)[j], ([a] + acts)[j], ([s] + tr)[j + 1])
    {
      if j > 0 {
        assert ([a] + acts)[j] == acts[j - 1];
        assert step(tr[j - 1], acts[j - 1], tr[j - 1 + 1]);
      }
    }
  }

  ghost predicate IsWay<S(!new), A(!new)>(step: (S, A, S) -> bool, may: A -> bool, s: S, goal: S -> bool,
      tr: seq<S>, acts: seq<A>)
  {
    IsPath(step, tr, acts) && tr[0] == s && (forall k :: 0 <= k < |acts| ==> may(acts[k])) && goal(tr[|acts|])
  }

  /** By steps of the kinds allowed, a state that meets `goal` can be reached. */
  ghost predicate Leads<S(!new), A(!new)>(step: (S, A, S) -> bool, may: A -> bool, s: S, goal: S -> bool) {
    exists tr: seq<S>, acts: seq<A> :: IsWay(step, may, s, goal, tr, acts)
  }

  lemma IsThere<S(!new), A(!new)>(step: (S, A, S) -> bool, may: A -> bool, s: S, goal: S -> bool)
    requires goal(s)
    ensures Leads(step, may, s, goal)
  {
    var none: seq<A> := [];
    assert IsWay(step, may, s, goal, [s], none);
  }

  lemma OneStepEarlier<S(!new), A(!new)>(step: (S, A, S) -> bool, may: A -> bool, s: S, a: A, t: S, goal: S -> bool)
    requires step(s, a, t) && may(a) && Leads(step, may, t, goal)
    ensures Leads(step, may, s, goal)
  {
    var tr, acts :| IsWay(step, may, t, goal, tr, acts);
    Cons(step, s, a, tr, acts);
    assert IsWay(step, may, s, goal, [s] + tr, [a] + acts);
  }

  lemma Snoc<S(!new), A(!new)>(step: (S, A, S) -> bool, tr: seq<S>, acts: seq<A>, a: A, t: S)
    requires IsPath(step, tr, acts) && step(tr[|acts|], a, t)
    ensures IsPath(step, tr + [t], acts + [a]) && (tr + [t])[0] == tr[0] && (tr + [t])[|acts + [a]|] == t
  {
    forall j {:trigger (acts + [a])[j]} | 0 <= j < |acts + [a]|
      ensures step((tr + [t])[j], (acts + [a])[j], (tr + [t])[j + 1])
    {
      if j < |acts| {
        assert (acts + [a])[j] == acts[j];
        assert step(tr[j], acts[j], tr[j + 1]);
      }
    }
  }

  /** A potential that every step pays from, up to what it earns, bounds what a whole run can pay. */
  lemma {:induction false} Potential<S(!new), A(!new)>(step: (S, A, S) -> bool, inv: S -> bool, phi: S -> nat,
      pays: (S, A) -> nat, earns: (S, A) -> nat, tr: seq<S>, acts: seq<A>)
    requires IsPath(step, tr, acts) && Preserves(step, inv) && inv(tr[0])
    requires forall s, a, t :: inv(s) && step(s, a, t) ==> phi(t) + pays(s, a) <= phi(s) + earns(s, a)
    ensures phi(tr[|acts|]) + Sum(pays, tr, acts) <= phi(tr[0]) + Sum(earns, tr, acts)
    decreases |acts|
  {
    if acts != [] {
      Tail(step, tr, acts);
      Potential(step, inv, phi, pays, earns, tr[1..], acts[1..]);
    }
  }
}
