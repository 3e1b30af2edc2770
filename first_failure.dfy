/** Handlers that check their input one condition after the other and
    answer with the error of the first condition that fails: the checks are
    an ordered list of (passed, error) pairs, and the answer of a group of
    checks is characterised by the position of its first failure. */
module FirstFailure {
  import opened Wrappers

  /** The position of the first failed check, or the number of checks
      when all pass. */
  function FirstFailed<E>(checks: seq<(bool, E)>): (k: nat)
    ensures k <= |checks|
    ensures forall j :: 0 <= j < k ==> checks[j].0
    ensures k < |checks| ==> !checks[k].0
  {
    if checks == [] then 0
    else if !checks[0].0 then 0
    else 1 + FirstFailed(checks[1..])
  }

  /** The first failed check of two lists of checks made one after the
      other is the first failed check of the first list, if any, and
      otherwise that of the second. */
  lemma {:induction false} FirstFailedAppend<E>(a: seq<(bool, E)>, b: seq<(bool, E)>)
    ensures FirstFailed(a + b) == if FirstFailed(a) < |a| then FirstFailed(a) else |a| + FirstFailed(b)
  {
    if a != [] {
      assert (a + b)[1..] == a[1..] + b;
      FirstFailedAppend(a[1..], b);
    } else {
      assert a + b == b;
    }
  }

  /** The outcome of a group of checks: the error of its first failed
      check, or success. */
  predicate RefusesAsFirstFailure<T, E(==)>(r: Result<T, E>, cs: seq<(bool, E)>) {
    var k := FirstFailed(cs);
    && (r.Success? <==> k == |cs|)
    && (k < |cs| ==> r.Failure? && r.error == cs[k].1)
  }

  /** Two outcomes of groups of checks made one after the other: the
      combined outcome is the first failure of the combined checks. */
  lemma Sequenced<A, B, C, E>(ra: Result<A, E>, rb: Result<B, E>, r: Result<C, E>,
                              a: seq<(bool, E)>, b: seq<(bool, E)>)
    requires RefusesAsFirstFailure(ra, a) && RefusesAsFirstFailure(rb, b)
    requires ra.Failure? ==> r.Failure? && r.error == ra.error
    requires ra.Success? ==> (r.Success? <==> rb.Success?) && (rb.Failure? ==> r.Failure? && r.error == rb.error)
    ensures RefusesAsFirstFailure(r, a + b)
  {
    FirstFailedAppend(a, b);
    if FirstFailed(a) == |a| && FirstFailed(b) < |b| {
      assert (a + b)[|a| + FirstFailed(b)] == b[FirstFailed(b)];
    }
  }

  /** Two groups of checks that produce nothing but a verdict, made one
      after the other: the first refusal wins. */
  function Then<E>(a: Result<(), E>, b: Result<(), E>): Result<(), E> {
    if a.Failure? then a else b
  }

  lemma ThenSequenced<E>(a: Result<(), E>, b: Result<(), E>, ca: seq<(bool, E)>, cb: seq<(bool, E)>)
    requires RefusesAsFirstFailure(a, ca) && RefusesAsFirstFailure(b, cb)
    ensures RefusesAsFirstFailure(Then(a, b), ca + cb)
  {
    Sequenced(a, b, Then(a, b), ca, cb);
  }

  /** Four groups of checks made one after the other. */
  lemma ThenChain<E>(a: Result<(), E>, b: Result<(), E>, c: Result<(), E>, d: Result<(), E>,
                     ca: seq<(bool, E)>, cb: seq<(bool, E)>, cc: seq<(bool, E)>, cd: seq<(bool, E)>)
    requires RefusesAsFirstFailure(a, ca) && RefusesAsFirstFailure(b, cb)
    requires RefusesAsFirstFailure(c, cc) && RefusesAsFirstFailure(d, cd)
    ensures RefusesAsFirstFailure(Then(a, Then(b, Then(c, d))), ca + (cb + (cc + cd)))
  {
    ThenSequenced(c, d, cc, cd);
    ThenSequenced(b, Then(c, d), cb, cc + cd);
    ThenSequenced(a, Then(b, Then(c, d)), ca, cb + (cc + cd));
  }
}
