/** Exactly which requests and configurations the early-exit loop serves. */
module SpecLimits {
  import opened Model
  import opened SpecRun
  import opened Scripts
  import opened SpecSteps
  import opened SpecEos
  import opened SpecRedraw
  import opened SpecStale
  import opened SpecDecline

  predicate SpecAdmits(c: SpecConfig, greedy: bool, ignoreEos: bool, recurrent: bool) {
    !ignoreEos && (c.specK == 0 || greedy) && CutsSafely(c, greedy, recurrent)
  }

  /** Every request with given flags returns something, for every drafter, callback, stop set
      and budget, exactly when the configuration has no error return for them. */
  lemma SpecReturnsExact(c: SpecConfig, greedy: bool, ignoreEos: bool, recurrent: bool)
    ensures (forall q: Request | Flagged(q, greedy, ignoreEos, recurrent) :: SpecReturns(q, c)) <==>
            !SpecErrs(c, greedy)
  {
    if SpecErrs(c, greedy) {
      var q := DeclineFails(c, ignoreEos, recurrent);
    } else {
      forall q: Request, drafter, base, rng0, maxTokens | Flagged(q, greedy, ignoreEos, recurrent)
        ensures SpecRunOf(q, c, drafter, base, rng0, maxTokens).SpecOk?
      {
        NeverSpecErrs(q, c, drafter, base, rng0, maxTokens);
      }
    }
  }

  /** What a configuration returns for requests with given flags is always their plain output,
      exactly when it admits the flags; and it always returns their plain output exactly when
      besides it has no error return for them. */
  lemma SpecExact(c: SpecConfig, greedy: bool, ignoreEos: bool, recurrent: bool)
    ensures (forall q: Request | Flagged(q, greedy, ignoreEos, recurrent) :: SpecServes(q, c)) <==>
            SpecAdmits(c, greedy, ignoreEos, recurrent)
    ensures (forall q: Request | Flagged(q, greedy, ignoreEos, recurrent) :: SpecAnswers(q, c)) <==>
            SpecAdmits(c, greedy, ignoreEos, recurrent) && !SpecErrs(c, greedy)
  {
    SpecReturnsExact(c, greedy, ignoreEos, recurrent);
    if SpecAdmits(c, greedy, ignoreEos, recurrent) {
      forall q: Request | Flagged(q, greedy, ignoreEos, recurrent) ensures SpecServes(q, c) {
        Admitted(q, c);
      }
    } else {
      var q := NotAdmitted(c, greedy, ignoreEos, recurrent);
    }
  }

  lemma Admitted(q: Request, c: SpecConfig)
    requires SpecAdmits(c, q.greedy, q.ignoreEos, q.target.recurrent)
    ensures SpecServes(q, c)
  {
    assert q.(ignoreEos := false) == q;
    forall drafter, base, rng0, maxTokens
      ensures var r := SpecRunOf(q, c, drafter, base, rng0, maxTokens);
              r.SpecOk? ==> r.tokens == Plain(q, base, [], rng0, maxTokens)
    {
      SpecRunDelivers(q, c, drafter, base, rng0, maxTokens);
    }
  }

  lemma NotAdmitted(c: SpecConfig, greedy: bool, ignoreEos: bool, recurrent: bool) returns (q: Request)
    requires !SpecAdmits(c, greedy, ignoreEos, recurrent)
    ensures Flagged(q, greedy, ignoreEos, recurrent) && !SpecServes(q, c)
  {
    if ignoreEos {
      q := EosFails(c, greedy, recurrent);
    } else if c.specK > 0 && !greedy {
      q := RedrawFails(c, recurrent);
    } else {
      q := StaleFails(c);
    }
  }
}
