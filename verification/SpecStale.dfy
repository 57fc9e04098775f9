/** Recurrent state cut back by length. */
module SpecStale {
  import opened Model
  import opened MtpVerify
  import opened MtpRoutes
  import opened SpecRun
  import opened Scripts
  import opened SpecSteps

  /** A target that predicts how many tokens its recurrent state has seen. */
  function Counter(): Target {
    Target(true, (s: State, t) => [], (s: State, t) => [0.0], (r, i) => r + i, (s: State) => s.rec)
  }

  function StaleRequest(): Request {
    Request(Counter(), true, false, 7, {}, l => if |l| == 2 then 2 else 1, (l, t) => 1, (l, t) => l,
            (l, ctx, rng) => (1, rng), gen => true)
  }

  lemma {:induction false} CounterCounts(s: State, toks: seq<Token>)
    ensures |FeedAll(Counter(), s, toks).rec| == |s.rec| + |toks|
  {
    if toks != [] { CounterCounts(s, toks[..|toks| - 1]); }
  }

  lemma StaleChoice(q: Request, s: State, first: Token, gen: seq<Token>)
    requires q == StaleRequest()
    ensures Choose(q, q.target.head(Feed(q.target, s, first)), gen, 0) == (if |s.rec| == 1 then 2 else 1, 0)
  {
    assert |Feed(q.target, s, first).rec| == |s.rec| + 1;
  }

  /** After the first round's cut the counter has seen the rejected drafts too. */
  lemma StaleAfter(c: SpecConfig, q: Request, drafts: seq<Token>)
    requires q == StaleRequest() && !c.needsSequential && 0 < |drafts|
    requires WithoutRow(q, c) ==> |drafts| > 1
    ensures |CommittedState(q.target, c, NOWHERE, SpecWindow(1, drafts, WithoutRow(q, c)), 1).rec| > 1
  {
    CounterCounts(NOWHERE, SpecWindow(1, drafts, WithoutRow(q, c)));
  }

  lemma StaleLast(q: Request, c: SpecConfig, after: State, logits: Logits)
    requires q == StaleRequest()
    ensures SpecRuns(q, c, Drafting(9), after, [1, 1], 0, 1, 2, Some(1), logits, SpecOk([1, 1, 1]))
  {
    assert [1, 1] + [1] == [1, 1, 1];
  }

  lemma StaleSecond(q: Request, c: SpecConfig, after: State, logits: Logits)
    requires q == StaleRequest() && !c.needsSequential && c.specK > 0 && |after.rec| > 1
    ensures SpecRuns(q, c, Drafting(9), after, [1], 0, 2, 1, Some(1), logits, SpecOk([1, 1, 1]))
  {
    var drafts := DraftsOf(Drafting(9), 1, Min(c.specK, 1));
    assert [1] + [1] == [1, 1];
    DraftsNine(1);
    StaleChoice(q, after, 1, [1, 1]);
    var r, state := RejectedRound(q, c, after, 1, drafts, [1, 1], 0, 1, 1, 0);
    StaleLast(q, c, state, r.logits);
    RoundRuns(q, c, Drafting(9), after, 1, [1, 1], 0, 1, 1, drafts, r, state, SpecOk([1, 1, 1]));
  }

  /** The first round rejects, and leaves a counter that has seen its drafts. */
  lemma StaleFirst(q: Request, c: SpecConfig, drafts: seq<Token>)
    returns (r: SpecRound, after: State)
    requires q == StaleRequest() && !CutsSafely(c, true, true) && drafts == DraftsOf(Drafting(9), 0, Min(c.specK, 2))
    ensures SpecRoundOf(q, c, NOWHERE, 1, drafts, [1], 0, 2) == (r, after)
    ensures r.SpecNext? && r.v == Verdict(0, 0, false, Some(1), [1], 0, 2) && r.forced == Some(1)
    ensures |after.rec| > 1
  {
    DraftsNine(|drafts|);
    StaleChoice(q, NOWHERE, 1, [1]);
    r, after := RejectedRound(q, c, NOWHERE, 1, drafts, [1], 0, 2, 1, 0);
    StaleAfter(c, q, drafts);
  }

  lemma StalePlain(q: Request)
    requires q == StaleRequest()
    ensures Plain(q, NOWHERE, [], 0, 3) == [1, 1, 2]
  {
    var s1 := Feed(q.target, NOWHERE, 1);
    var s2 := Feed(q.target, s1, 1);
    assert [] + [1] == [1] && [1] + [1] == [1, 1] && [1, 1] + [2] == [1, 1, 2];
    StaleChoice(q, NOWHERE, 1, [1]);
    StaleChoice(q, s1, 1, [1, 1]);
    EmitCases(q, s2, 2, 0, [1, 1], 1);
    EmitCases(q, s1, 1, 0, [1], 2);
    EmitCases(q, NOWHERE, 1, 0, [], 3);
  }

  lemma StaleRun(q: Request, c: SpecConfig)
    requires q == StaleRequest() && !CutsSafely(c, true, true)
    ensures !SpecServes(q, c)
  {
    var drafts := DraftsOf(Drafting(9), 0, Min(c.specK, 2));
    var r, after := StaleFirst(q, c, drafts);
    StaleSecond(q, c, after, r.logits);
    StaleChoice(q, NOWHERE, 1, []);
    RunOpens(q, c, Drafting(9), NOWHERE, 0, 3, 1, 0, drafts, r, after, SpecOk([1, 1, 1]));
    StalePlain(q);
    Differs(q, c, Drafting(9), 0, 3, [1, 1, 1]);
  }

  /** A batch window cut back by length leaves its drafts in the recurrent state. */
  lemma StaleFails(c: SpecConfig) returns (q: Request)
    requires !CutsSafely(c, true, true)
    ensures q.greedy && !q.ignoreEos && q.target.recurrent && !SpecServes(q, c)
  {
    q := StaleRequest();
    StaleRun(q, c);
  }

}
