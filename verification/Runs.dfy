/** Runs of a step relation, and induction along them. */
module Runs {
  ghost predicate Path<S(!new), E(!new)>(step: (S, E, S) -> bool, ss: seq<S>, es: seq<E>) {
    |ss| == |es| + 1 && forall k: nat | k < |es| :: step(ss[k], es[k], ss[k + 1])
  }

  lemma {:induction false} Along<S(!new), E(!new)>(
    step: (S, E, S) -> bool, inv: S -> bool, ss: seq<S>, es: seq<E>, i: nat, k: nat)
    requires Path(step, ss, es) && i <= k < |ss| && inv(ss[i])
    requires forall s, e, s' | inv(s) && step(s, e, s') :: inv(s')
    ensures inv(ss[k])
    decreases k - i
  {
    if i < k {
      assert step(ss[i], es[i], ss[i + 1]);
      Along(step, inv, ss, es, i + 1, k);
    }
  }

  // The beginning of a run, as a run of what its steps are known to be.
  lemma Beginning<S(!new), E(!new)>(step: (S, E, S) -> bool, ss: seq<S>, es: seq<E>, k: nat)
    requires |ss| == |es| + 1 && k < |ss| && forall m: nat | m < k :: step(ss[m], es[m], ss[m + 1])
    ensures Path(step, ss[..k + 1], es[..k])
  {
  }

  lemma TwoSteps<S(!new), E(!new)>(step: (S, E, S) -> bool, a: S, e: E, b: S, f: E, c: S)
    requires step(a, e, b) && step(b, f, c)
    ensures Path(step, [a, b, c], [e, f])
  {
  }

  // One run goes on where another one ends.
  lemma Joined<S(!new), E(!new)>(step: (S, E, S) -> bool, ss: seq<S>, es: seq<E>, ts: seq<S>, fs: seq<E>)
    requires Path(step, ss, es) && Path(step, ts, fs) && ts[0] == ss[|es|]
    ensures Path(step, ss + ts[1..], es + fs)
  {
    var all, events := ss + ts[1..], es + fs;
    forall k: nat | k < |events| ensures step(all[k], events[k], all[k + 1]) {
      if k < |es| {
        assert step(ss[k], es[k], ss[k + 1]);
      } else {
        assert step(ts[k - |es|], fs[k - |es|], ts[k - |es| + 1]);
      }
    }
  }

  lemma OneMoreStep<S(!new), E(!new)>(step: (S, E, S) -> bool, ss: seq<S>, es: seq<E>, e: E, s': S)
    requires Path(step, ss, es) && step(ss[|es|], e, s')
    ensures Path(step, ss + [s'], es + [e])
  {
  }

  lemma FiveSteps<S(!new), E(!new)>(
    step: (S, E, S) -> bool, s0: S, a: E, s1: S, b: E, s2: S, c: E, s3: S, d: E, s4: S, e: E, s5: S)
    requires step(s0, a, s1) && step(s1, b, s2) && step(s2, c, s3) && step(s3, d, s4) && step(s4, e, s5)
    ensures Path(step, [s0, s1, s2, s3, s4, s5], [a, b, c, d, e])
  {
  }

  lemma SixSteps<S(!new), E(!new)>(
    step: (S, E, S) -> bool, s0: S, a: E, s1: S, b: E, s2: S, c: E, s3: S, d: E, s4: S, e: E, s5: S, f: E, s6: S)
    requires step(s0, a, s1) && step(s1, b, s2) && step(s2, c, s3) && step(s3, d, s4) && step(s4, e, s5)
    requires step(s5, f, s6)
    ensures Path(step, [s0, s1, s2, s3, s4, s5, s6], [a, b, c, d, e, f])
  {
  }
}
