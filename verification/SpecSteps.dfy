/** What it means for the early-exit loop to serve a request, and the steps of its scripted runs. */
module SpecSteps {
  import opened Model
  import opened MtpVerify
  import opened MtpRoutes
  import opened MtpRounds
  import opened SpecRun
  import opened Scripts

  /** No run of the request is an error. */
  ghost predicate SpecReturns(q: Request, c: SpecConfig) {
    forall drafter, base, rng0, maxTokens {:trigger SpecRunOf(q, c, drafter, base, rng0, maxTokens)} ::
      SpecRunOf(q, c, drafter, base, rng0, maxTokens).SpecOk?
  }

  /** Every run of the request that returns anything returns the plain output. */
  ghost predicate SpecServes(q: Request, c: SpecConfig) {
    forall drafter, base, rng0, maxTokens {:trigger SpecRunOf(q, c, drafter, base, rng0, maxTokens)} ::
      var r := SpecRunOf(q, c, drafter, base, rng0, maxTokens);
      r.SpecOk? ==> r.tokens == Plain(q, base, [], rng0, maxTokens)
  }

  /** Every run of the request returns its plain output. */
  ghost predicate SpecAnswers(q: Request, c: SpecConfig) {
    SpecReturns(q, c) && SpecServes(q, c)
  }

  function Drafting(tok: Token): Drafter {
    Drafter((n: nat, i: nat) => tok, (n: nat, i: nat) => [], (n: nat, i: nat) => [])
  }

  lemma DraftsNine(k: nat)
    requires k > 0
    ensures DraftsOf(Drafting(9), 0, k)[0] == 9 && DraftsOf(Drafting(9), 1, k)[0] == 9
  {
  }

  /** A round whose first draft is not the target's token. */
  lemma RejectedRound(p: Request, c: SpecConfig, base: State, first: Token, drafts: seq<Token>, gen: seq<Token>,
                      rng: Rng, remaining: nat, tok: Token, rng': Rng)
    returns (r: SpecRound, after: State)
    requires drafts != [] && remaining > 0 && !p.ignoreEos && tok != drafts[0]
    requires Choose(p, p.target.head(Feed(p.target, base, first)), gen, rng) == (tok, rng')
    ensures SpecRoundOf(p, c, base, first, drafts, gen, rng, remaining) == (r, after)
    ensures r.SpecNext? && r.v == Verdict(0, 0, false, Some(tok), gen, rng', remaining)
    ensures r.forced == if p.greedy then Some(tok) else None
    ensures !c.SequentialVerify() ==>
              after == CommittedState(p.target, c, base, SpecWindow(first, drafts, WithoutRow(p, c)), 1)
  {
    r, after := SpecRoundOf(p, c, base, first, drafts, gen, rng, remaining).0,
                SpecRoundOf(p, c, base, first, drafts, gen, rng, remaining).1;
    var s := Feed(p.target, base, first);
    var v := Verdict(0, 0, false, Some(tok), gen, rng', remaining);
    assert VerdictAt(p, s, drafts, |drafts|, gen, rng, remaining) == v by {
      assert At(p.target, s, drafts, 0) == s;
    }
    var window := SpecWindow(first, drafts, WithoutRow(p, c));
    assert window[..1] == [] + [first];
    FeedAllSnoc(p.target, base, [], first);
    assert drafts[..0] == [];
  }

  /** From a loop state on, the run is `run`. */
  ghost predicate SpecRuns(p: Request, c: SpecConfig, drafter: Drafter, now: State, gen: seq<Token>, rng: Rng,
                           remaining: nat, rounds: nat, forced: Option<Token>, logits: Logits, run: SpecResult)
  {
    RunSpec(p, c, drafter, now, gen, rng, remaining, rounds, forced, logits) == run
  }

  ghost predicate SpecRunsAfter(p: Request, c: SpecConfig, drafter: Drafter, now: State, first: Token, gen: seq<Token>,
                                rng: Rng, remaining: nat, rounds: nat, run: SpecResult)
  {
    remaining > 0 && RunRound(p, c, drafter, now, first, gen, rng, remaining, rounds) == run
  }

  /** A round that goes on hands the run to what follows it. */
  lemma RoundRuns(p: Request, c: SpecConfig, drafter: Drafter, now: State, first: Token, gen: seq<Token>, rng: Rng,
                  remaining: nat, rounds: nat, drafts: seq<Token>, r: SpecRound, after: State, run: SpecResult)
    requires remaining > 0 && drafts == DraftsOf(drafter, rounds, Min(c.specK, remaining))
    requires SpecRoundOf(p, c, now, first, drafts, gen, rng, remaining) == (r, after) && r.SpecNext?
    requires SpecRuns(p, c, drafter, after, r.v.gen, r.v.rng, r.v.remaining, rounds + 1, r.forced, r.logits, run)
    ensures SpecRunsAfter(p, c, drafter, now, first, gen, rng, remaining, rounds, run)
  {
  }

  /** A run that goes past its first token is what follows that token. */
  lemma FirstToken(q: Request, c: SpecConfig, drafter: Drafter, base: State, rng0: Rng, maxTokens: nat, first: Token,
                   rng: Rng, run: SpecResult)
    requires !q.ignoreEos && maxTokens > 1 && Choose(q, q.target.head(base), [], rng0) == (first, rng)
    requires !ShouldStop(q, first) && q.keepGoing([first])
    requires SpecRunsAfter(q, c, drafter, base, first, [first], rng, maxTokens - 1, 0, run)
    ensures SpecRunOf(q, c, drafter, base, rng0, maxTokens) == run
  {
    assert q.(ignoreEos := false) == q;
    assert [] + [first] == [first];
  }

  /** A run that goes past its first round is what follows that round. */
  lemma RunOpens(q: Request, c: SpecConfig, drafter: Drafter, base: State, rng0: Rng, maxTokens: nat, first: Token,
                 rng: Rng, drafts: seq<Token>, r: SpecRound, after: State, run: SpecResult)
    requires !q.ignoreEos && maxTokens > 1 && Choose(q, q.target.head(base), [], rng0) == (first, rng)
    requires !ShouldStop(q, first) && q.keepGoing([first])
    requires drafts == DraftsOf(drafter, 0, Min(c.specK, maxTokens - 1))
    requires SpecRoundOf(q, c, base, first, drafts, [first], rng, maxTokens - 1) == (r, after) && r.SpecNext?
    requires SpecRuns(q, c, drafter, after, r.v.gen, r.v.rng, r.v.remaining, 1, r.forced, r.logits, run)
    ensures SpecRunOf(q, c, drafter, base, rng0, maxTokens) == run
  {
    RoundRuns(q, c, drafter, base, first, [first], rng, maxTokens - 1, 0, drafts, r, after, run);
    FirstToken(q, c, drafter, base, rng0, maxTokens, first, rng, run);
  }

  lemma Differs(q: Request, c: SpecConfig, drafter: Drafter, rng0: Rng, maxTokens: nat, out: seq<Token>)
    requires SpecRunOf(q, c, drafter, NOWHERE, rng0, maxTokens) == SpecOk(out)
    requires out != Plain(q, NOWHERE, [], rng0, maxTokens)
    ensures !SpecServes(q, c)
  {
  }
}
