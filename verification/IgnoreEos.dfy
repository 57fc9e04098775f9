/** What it costs that the early-exit loop does not read `ignoreEos`. */
module IgnoreEos {
  import opened Model
  import opened Scripts
  import opened SpecEos

  ghost predicate PlainIgnoresFlag(q: Request) {
    forall base, rng0, maxTokens: nat {:trigger Plain(q, base, [], rng0, maxTokens)} ::
      Plain(q.(ignoreEos := false), base, [], rng0, maxTokens) == Plain(q, base, [], rng0, maxTokens)
  }

  /** What not reading `ignoreEos` costs: plain decoding without the flag is plain decoding
      with it, for every request that carries it, exactly when the flag is off. */
  lemma IgnoreEosExact(flag: bool)
    ensures (forall q: Request | q.ignoreEos == flag :: PlainIgnoresFlag(q)) <==> !flag
  {
    if flag {
      var w := EosScript(true, false);
      var q := w.Spoken();
      SpokenSpeaks(w);
      EosPlain(q, w, true, false);
      EosUnignored(q);
      assert !PlainIgnoresFlag(q);
    } else {
      forall q: Request | q.ignoreEos == flag ensures PlainIgnoresFlag(q) {
        assert q.(ignoreEos := false) == q;
      }
    }
  }

  lemma EosUnignored(q: Request)
    requires q.greedy && q.eos == 1 && q.argmax(q.target.head(NOWHERE)) == 1
    ensures Plain(q.(ignoreEos := false), NOWHERE, [], 0, 1) == []
  {
  }
}
