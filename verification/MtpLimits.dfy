/** For each shortcut of the in-model loop, a run that takes it and returns something else than
    plain decoding. */
module MtpLimits {
  import opened Model
  import opened MtpVerify
  import opened MtpRoutes
  import opened MtpRounds
  import opened MtpRun
  import opened Scripts

  /** No run of the request is an error, whatever drafts an obedient drafter gives. */
  ghost predicate MtpReturns(q: Request, c: Config) {
    forall drafter, base, rng0, maxTokens {:trigger RunOf(q, c, drafter, base, rng0, maxTokens)} ::
      Obeys(drafter) ==> RunOf(q, c, drafter, base, rng0, maxTokens).Done?
  }

  /** Every run of the request that returns anything returns the plain output. */
  ghost predicate MtpServes(q: Request, c: Config) {
    forall drafter, base, rng0, maxTokens {:trigger RunOf(q, c, drafter, base, rng0, maxTokens)} ::
      Obeys(drafter) ==>
        var run := RunOf(q, c, drafter, base, rng0, maxTokens);
        run.Done? ==> run.tokens == Plain(q, base, [], rng0, maxTokens)
  }

  /** Every run of the request returns its plain output. */
  ghost predicate MtpAnswers(q: Request, c: Config) {
    MtpReturns(q, c) && MtpServes(q, c)
  }

  /** A run that returns something else. */
  lemma FailsDoesNotServe(q: Request, c: Config, drafter: (nat, nat) -> seq<Token>, maxTokens: nat, run: Run)
    requires Obeys(drafter) && RunOf(q, c, drafter, NOWHERE, 0, maxTokens) == run
    requires run.Done? && run.tokens != Plain(q, NOWHERE, [], 0, maxTokens)
    ensures !MtpServes(q, c)
  {
  }

  /** From a loop state on, the run is `run`. */
  ghost predicate MtpRuns(q: Request, c: Config, drafter: (nat, nat) -> seq<Token>, gen: seq<Token>, current: Token,
                          rng: Rng, remaining: nat, rounds: nat, confidence: nat, unread: seq<Token>, resume: Token,
                          run: Run)
  {
    RunFrom(q, c, drafter, NOWHERE, gen, current, rng, remaining, rounds, confidence, unread, resume) == run
  }

  // ---- Turns of a scripted run ----

  function FullVerdict(drafts: seq<Token>, k: nat, gen: seq<Token>, rng: Rng, remaining: nat): Verdict
    requires k <= |drafts| && k < remaining
  {
    Verdict(|drafts|, k, false, None, gen + drafts[..k], rng, remaining - k)
  }

  /** All drafts match: the ones below the limit go out. */
  lemma FullJudged(q: Request, w: Script, drafts: seq<Token>, k: nat, gen: seq<Token>, rng: Rng, remaining: nat,
                   v: Verdict)
    requires Speaks(q, w)
    requires 0 < k <= |drafts| && k < remaining && |gen| + k < w.most
    requires Matches(w, |gen|, |gen|, drafts, k, |drafts|) && v == FullVerdict(drafts, k, gen, rng, remaining)
    ensures VerdictAt(q, Before(q.target, gen), drafts, k, gen, rng, remaining) == v
  {
    var s := Before(q.target, gen);
    JudgeEnds(q, s, drafts, k, v.gen, rng, v.remaining, v);
    JudgeSkips(q, w, s, drafts, k, |drafts|, |gen|, v.gen, rng, v.remaining, v);
    JudgeEmits(q, w, s, drafts, k, k, gen, rng, remaining, v);
  }

  /** What stands after a full window with `n` tokens fed and `out` of them emitted. */
  function AfterWindow(w: Script, c: Config, k: nat, draftK: nat, n: nat, out: nat): Token
    requires k <= draftK
  {
    if WithoutBonus(c, k, draftK) then w.Best(n) else w.Says(n, out)
  }

  lemma FullNext(q: Request, w: Script, c: Config, k: nat, draftK: nat, now: State, v: Verdict, next: Token)
    requires Speaks(q, w) && k <= draftK && v.mismatch == None
    requires next == AfterWindow(w, c, k, draftK, |now.kv|, |v.gen|)
    ensures NextOf(q, c, k, draftK, now, v) == (next, v.rng)
  {
  }

  /** Where a round starts, and where it has fed `m` of its drafts. */
  ghost function Before(t: Target, gen: seq<Token>): (s: State)
    ensures |s.kv| == |gen|
  {
    PositionAfter(t, NOWHERE, gen, 0);
    FeedAll(t, NOWHERE, gen)
  }

  ghost function After(t: Target, gen: seq<Token>, drafts: seq<Token>, m: nat): (s: State)
    requires m <= |drafts|
    ensures |s.kv| == |gen| + m
  {
    PositionAfter(t, Before(t, gen), drafts[..m], 0);
    FeedAll(t, Before(t, gen), drafts[..m])
  }

  /** A turn, given its verdict and what it goes on with. */
  lemma JudgedTurn(q: Request, c: Config, drafter: (nat, nat) -> seq<Token>, gen: seq<Token>, current: Token, rng: Rng,
                   remaining: nat, rounds: nat, confidence: nat, resume: Token, k: nat, drafts: seq<Token>, v: Verdict,
                   next: Token, t: MtpTurn, run: Run)
    requires !RoundFree(q, current, gen, remaining) && 0 < k <= |drafts| && v.accepted <= |drafts|
    requires Asked(c, remaining, confidence) == (k, |drafts| - k) && drafts == drafter(rounds, |drafts|)
    requires VerdictAt(q, Before(q.target, gen + [current]), drafts, k, gen + [current], rng, remaining - 1) == v
    requires !CutFails(c, k, |drafts|, v.accepted) && v.emitted <= v.accepted
    requires !v.Ended() ==>
               NextOf(q, c, k, |drafts|, After(q.target, gen + [current], drafts, v.accepted), v) == (next, v.rng)
    requires t == if v.Ended() then TurnDone(v.gen)
                  else TurnNext(v.gen, v.rng, v.remaining, next, drafts[v.emitted..v.accepted],
                                NextConfidence(c, |drafts| - k, k, |drafts|, v.accepted, confidence))
    requires run == if v.Ended() then Done(v.gen, drafts[v.emitted..v.accepted])
                    else RunFrom(q, c, drafter, NOWHERE, t.gen, next, v.rng, v.remaining, rounds + 1, t.confidence,
                                 t.runway, next)
    ensures MtpRuns(q, c, drafter, gen, current, rng, remaining, rounds, confidence, [], resume, run)
  {
    RoundIs(q, c, NOWHERE, drafts, k, confidence, gen + [current], rng, remaining - 1, v, next, v.rng);
    TurnRuns(q, c, drafter, NOWHERE, gen, current, rng, remaining, rounds, confidence, resume, k, drafts, t,
             drafts[v.emitted..v.accepted], run);
  }

  /** The verdict and the next token of a round whose drafts all match. */
  lemma FullRound(q: Request, w: Script, c: Config, drafts: seq<Token>, k: nat, gen: seq<Token>, rng: Rng,
                  remaining: nat, v: Verdict, next: Token)
    requires Speaks(q, w) && 0 < k <= |drafts| && k < remaining && |gen| + k < w.most
    requires Matches(w, |gen|, |gen|, drafts, k, |drafts|) && v == FullVerdict(drafts, k, gen, rng, remaining)
    requires next == AfterWindow(w, c, k, |drafts|, |gen| + |drafts|, |gen| + k)
    ensures VerdictAt(q, Before(q.target, gen), drafts, k, gen, rng, remaining) == v
    ensures NextOf(q, c, k, |drafts|, After(q.target, gen, drafts, |drafts|), v) == (next, rng)
  {
    FullJudged(q, w, drafts, k, gen, rng, remaining, v);
    FullNext(q, w, c, k, |drafts|, After(q.target, gen, drafts, |drafts|), v, next);
  }

  lemma MatchedTurn(q: Request, c: Config, drafter: (nat, nat) -> seq<Token>, gen: seq<Token>, current: Token, rng: Rng,
                    remaining: nat, rounds: nat, confidence: nat, resume: Token, k: nat, drafts: seq<Token>,
                    next: Token, out: seq<Token>, runway: seq<Token>, confidence': nat, v: Verdict, run: Run)
    requires 0 < k <= |drafts| && out == gen + [current] + drafts[..k] && runway == drafts[k..]
    requires confidence' == NextConfidence(c, |drafts| - k, k, |drafts|, |drafts|, confidence)
    requires !RoundFree(q, current, gen, remaining) && k < remaining - 1
    requires Asked(c, remaining, confidence) == (k, |drafts| - k) && drafts == drafter(rounds, |drafts|)
    requires v == Verdict(|drafts|, k, false, None, out, rng, remaining - 1 - k)
    requires VerdictAt(q, Before(q.target, gen + [current]), drafts, k, gen + [current], rng, remaining - 1) == v
    requires NextOf(q, c, k, |drafts|, After(q.target, gen + [current], drafts, |drafts|), v) == (next, rng)
    requires MtpRuns(q, c, drafter, out, next, rng, remaining - 1 - k, rounds + 1, confidence', runway, next, run)
    ensures MtpRuns(q, c, drafter, gen, current, rng, remaining, rounds, confidence, [], resume, run)
  {
    assert drafts[k..|drafts|] == runway;
    JudgedTurn(q, c, drafter, gen, current, rng, remaining, rounds, confidence, resume, k, drafts, v, next,
               TurnNext(out, rng, remaining - 1 - k, next, runway, confidence'), run);
  }

  /** A turn whose drafts all match: those past the limit are the runway. */
  lemma FullTurn(q: Request, w: Script, c: Config, drafter: (nat, nat) -> seq<Token>, gen: seq<Token>, current: Token,
                 rng: Rng, remaining: nat, rounds: nat, confidence: nat, resume: Token, k: nat, drafts: seq<Token>,
                 next: Token, out: seq<Token>, runway: seq<Token>, confidence': nat, run: Run)
    requires 0 < k <= |drafts| && out == gen + [current] + drafts[..k] && runway == drafts[k..]
    requires confidence' == NextConfidence(c, |drafts| - k, k, |drafts|, |drafts|, confidence)
    requires Speaks(q, w) && !w.Stops(current) && remaining > 1 && k < remaining - 1 && |gen| + 1 + k < w.most
    requires Asked(c, remaining, confidence) == (k, |drafts| - k) && drafts == drafter(rounds, |drafts|)
    requires Matches(w, |gen| + 1, |gen| + 1, drafts, k, |drafts|)
    requires next == AfterWindow(w, c, k, |drafts|, |gen| + 1 + |drafts|, |gen| + 1 + k)
    requires MtpRuns(q, c, drafter, out, next, rng, remaining - 1 - k, rounds + 1, confidence', runway, next, run)
    ensures MtpRuns(q, c, drafter, gen, current, rng, remaining, rounds, confidence, [], resume, run)
  {
    var v := Verdict(|drafts|, k, false, None, out, rng, remaining - 1 - k);
    FullRound(q, w, c, drafts, k, gen + [current], rng, remaining - 1, v, next);
    GoesOn(q, w, current, gen, remaining);
    MatchedTurn(q, c, drafter, gen, current, rng, remaining, rounds, confidence, resume, k, drafts, next, out, runway,
                confidence', v, run);
  }

  lemma GoesOn(q: Request, w: Script, current: Token, gen: seq<Token>, remaining: nat)
    requires Speaks(q, w) && !w.Stops(current) && remaining > 1 && |gen| + 1 < w.most
    ensures !RoundFree(q, current, gen, remaining)
  {
  }

  /** The last token of the budget goes out and ends the run. */
  lemma LastTurn(q: Request, c: Config, drafter: (nat, nat) -> seq<Token>, gen: seq<Token>, current: Token, rng: Rng,
                 remaining: nat, rounds: nat, confidence: nat, resume: Token, run: Run)
    requires remaining > 0 && RoundFree(q, current, gen, remaining)
    requires run == Done(if ShouldStop(q, current) then gen else gen + [current], [])
    ensures MtpRuns(q, c, drafter, gen, current, rng, remaining, rounds, confidence, [], resume, run)
  {
    var t := TurnOf(q, c, drafter, NOWHERE, gen, current, rng, remaining, rounds, confidence);
    RunTurns(q, c, drafter, NOWHERE, gen, current, rng, remaining, rounds, confidence, resume, t);
  }

  lemma RunStarts(q: Request, w: Script, c: Config, drafter: (nat, nat) -> seq<Token>, maxTokens: nat, first: Token,
                  run: Run)
    requires Speaks(q, w) && maxTokens > 0 && !c.execution.VulkanFullpath? && first == w.Says(0, 0)
    requires MtpRuns(q, c, drafter, [], first, 0, maxTokens, 0, 0, [], first, run)
    ensures RunOf(q, c, drafter, NOWHERE, 0, maxTokens) == run
  {
    assert Choose(q, q.target.head(NOWHERE), [], 0) == (first, 0);
  }

  function Always(tok: Token): (nat, nat) -> seq<Token> {
    (n: nat, k: nat) => Repeat(tok, k)
  }

  // ---- A round without a bonus row, sampling ----

  function NoBonusScript(c: Config, ignoreEos: bool, recurrent: bool): Script {
    var k := Max(c.specK, 1);
    Script(recurrent, false, ignoreEos, 6, {}, (p: nat) => 5, (p: nat) => 5,
           (p: nat, n: nat) => if p <= k then 1 else 2, k + 3)
  }

  lemma NoBonusSays(c: Config, ignoreEos: bool, recurrent: bool)
    requires NoBonusPossible(c)
    ensures var w, k := NoBonusScript(c, ignoreEos, recurrent), Max(c.specK, 1);
            && w.Says(0, 0) == 1 && !w.Stops(1) && !w.Stops(5) && !w.Stops(2)
            && Matches(w, 1, 1, Repeat(1, k), k, k) && AfterWindow(w, c, k, k, 1 + k, 1 + k) == 5
            && Asked(c, k + 2, 0) == (k, 0)
  {
  }

  lemma NoBonusPlain(q: Request, c: Config, ignoreEos: bool, recurrent: bool)
    requires Speaks(q, NoBonusScript(c, ignoreEos, recurrent))
    ensures var k := Max(c.specK, 1); Plain(q, NOWHERE, [], 0, k + 2) != Repeat(1, k + 1) + [5]
  {
    var w, k := NoBonusScript(c, ignoreEos, recurrent), Max(c.specK, 1);
    var toks, out := Repeat(1, k + 1) + [2], Repeat(1, k + 1) + [5];
    assert toks[k + 1] != out[k + 1];
    PlainDiffers(q, w, toks, 0, k + 2, out);
  }

  lemma NoBonusRun(q: Request, w: Script, c: Config, ignoreEos: bool, recurrent: bool, k: nat)
    requires NoBonusPossible(c) && k == Max(c.specK, 1)
    requires w == NoBonusScript(c, ignoreEos, recurrent) && Speaks(q, w)
    ensures RunOf(q, c, Always(1), NOWHERE, 0, k + 2) == Done(Repeat(1, k + 1) + [5], [])
  {
    var run, confidence := Done(Repeat(1, k + 1) + [5], []), NextConfidence(c, 0, k, k, k, 0);
    NoBonusSays(c, ignoreEos, recurrent);
    LastTurn(q, c, Always(1), Repeat(1, k + 1), 5, 0, 1, 1, confidence, 5, run);
    assert [] + [1] + Repeat(1, k)[..k] == Repeat(1, k + 1);
    FullTurn(q, w, c, Always(1), [], 1, 0, k + 2, 0, 0, 1, k, Repeat(1, k), 5, Repeat(1, k + 1), [], confidence, run);
    RunStarts(q, w, c, Always(1), k + 2, 1, run);
  }

  /** A full window without its bonus row is followed by the argmax, not by a draw. */
  lemma NoBonusFails(c: Config, ignoreEos: bool, recurrent: bool) returns (q: Request)
    requires NoBonusPossible(c)
    ensures !q.greedy && q.ignoreEos == ignoreEos && q.target.recurrent == recurrent && !MtpServes(q, c)
  {
    var w, k := NoBonusScript(c, ignoreEos, recurrent), Max(c.specK, 1);
    q := w.Spoken();
    SpokenSpeaks(w);
    NoBonusDiffers(q, w, c, ignoreEos, recurrent, k);
  }

  lemma NoBonusDiffers(q: Request, w: Script, c: Config, ignoreEos: bool, recurrent: bool, k: nat)
    requires NoBonusPossible(c) && k == Max(c.specK, 1)
    requires w == NoBonusScript(c, ignoreEos, recurrent) && Speaks(q, w)
    ensures !MtpServes(q, c)
  {
    NoBonusRun(q, w, c, ignoreEos, recurrent, k);
    NoBonusPlain(q, c, ignoreEos, recurrent);
    FailsDoesNotServe(q, c, Always(1), k + 2, Done(Repeat(1, k + 1) + [5], []));
  }

  // ---- A replay, sampling or with an ignored EOS ----

  function ReplayScript(greedy: bool, ignoreEos: bool): Script {
    Script(true, greedy, ignoreEos, 5, {}, (p: nat) => if p == 2 then 5 else 1, (p: nat) => 2,
           (p: nat, n: nat) => if p == 2 then 2 else 1, 3)
  }

  /** One good draft, then bad ones. */
  function OneGood(): (nat, nat) -> seq<Token> {
    (n: nat, k: nat) => if k == 0 then [] else [1] + Repeat(9, k - 1)
  }

  lemma OneGoodObeys()
    ensures Obeys(OneGood())
  {
    forall n: nat, k: nat ensures |OneGood()(n, k)| == k {
      if k > 0 { assert OneGood()(n, k) == [1] + Repeat(9, k - 1); }
    }
  }

  /** A window long enough for a replay to cut it after one accepted draft. */
  function ReplayWindow(c: Config): nat {
    if c.noBonusOverride == Some(true) then 3 else 2
  }

  lemma ReplayAsks(c: Config)
    requires ReplayPossible(c, true)
    ensures var k := ReplayWindow(c);
            && Asked(c, k + 1, 0) == (k, 0) && Replays(c, true, k, k, 1) && !CutFails(c, k, k, 1)
            && !c.execution.VulkanFullpath?
  {
  }

  lemma ReplayJudged(q: Request, w: Script, k: nat, drafts: seq<Token>, v: Verdict)
    requires Speaks(q, w) && w.most == 3 && k > 1 && drafts == [1] + Repeat(9, k - 1)
    requires w.Says(1, 1) == 1 && w.Says(2, 2) == 2 && !w.Stops(1)
    requires v == Verdict(1, 1, false, Some(2), [1, 1], 0, k - 1)
    ensures VerdictAt(q, Before(q.target, [1]), drafts, k, [1], 0, k) == v
  {
    assert [1] + drafts[..1] == [1, 1];
    JudgeMisses(q, w, Before(q.target, [1]), drafts, k, 1, [1, 1], 0, k - 1);
    JudgeEmits(q, w, Before(q.target, [1]), drafts, k, 1, [1], 0, k, v);
  }

  lemma ReplayNext(q: Request, w: Script, c: Config, k: nat, now: State, v: Verdict)
    requires Speaks(q, w) && w.raw(2) == 5 && |now.kv| == 2 && v.accepted == 1 && v.mismatch.Some?
    requires Replays(c, q.target.recurrent, k, k, 1)
    ensures NextOf(q, c, k, k, now, v) == (5, v.rng)
  {
  }

  lemma ReplayRun(q: Request, w: Script, c: Config, greedy: bool, ignoreEos: bool, k: nat, run: Run)
    requires ReplayPossible(c, true) && !(greedy && !ignoreEos) && k == ReplayWindow(c)
    requires w == ReplayScript(greedy, ignoreEos) && Speaks(q, w) && q.target.recurrent
    requires run == Done(if ignoreEos then [1, 1, 5] else [1, 1], [])
    ensures RunOf(q, c, OneGood(), NOWHERE, 0, k + 1) == run
  {
    ReplayAsks(c);
    var drafts, v := [1] + Repeat(9, k - 1), Verdict(1, 1, false, Some(2), [1, 1], 0, k - 1);
    var confidence := NextConfidence(c, 0, k, k, 1, 0);
    assert [1, 1] + [5] == [1, 1, 5] && [] + [1] == [1];
    LastTurn(q, c, OneGood(), [1, 1], 5, 0, k - 1, 1, confidence, 5, run);
    ReplayJudged(q, w, k, drafts, v);
    ReplayNext(q, w, c, k, After(q.target, [1], drafts, 1), v);
    GoesOn(q, w, 1, [], k + 1);
    JudgedTurn(q, c, OneGood(), [], 1, 0, k + 1, 0, 0, 1, k, drafts, v, 5,
               TurnNext([1, 1], 0, k - 1, 5, [], confidence), run);
    RunStarts(q, w, c, OneGood(), k + 1, 1, run);
  }

  lemma ReplayPlain(q: Request, w: Script, greedy: bool, ignoreEos: bool, budget: nat, out: seq<Token>)
    requires !(greedy && !ignoreEos) && w == ReplayScript(greedy, ignoreEos) && Speaks(q, w) && budget >= 3
    requires out == if ignoreEos then [1, 1, 5] else [1, 1]
    ensures Plain(q, NOWHERE, [], 0, budget) != out
  {
    var toks := [1, 1, 2];
    assert |out| >= 3 ==> out[2] != toks[2];
    PlainDiffers(q, w, toks, 0, budget, out);
  }

  /** After a replay the raw argmax goes out where a draw, or the best token but the EOS, should. */
  lemma ReplayFails(c: Config, greedy: bool, ignoreEos: bool) returns (q: Request)
    requires ReplayPossible(c, true) && !(greedy && !ignoreEos)
    ensures q.greedy == greedy && q.ignoreEos == ignoreEos && q.target.recurrent && !MtpServes(q, c)
  {
    var w, k := ReplayScript(greedy, ignoreEos), ReplayWindow(c);
    var out: seq<Token> := if ignoreEos then [1, 1, 5] else [1, 1];
    q := w.Spoken();
    SpokenSpeaks(w);
    ReplayDiffers(q, w, c, greedy, ignoreEos, k, out);
  }

  lemma ReplayDiffers(q: Request, w: Script, c: Config, greedy: bool, ignoreEos: bool, k: nat, out: seq<Token>)
    requires ReplayPossible(c, true) && !(greedy && !ignoreEos) && k == ReplayWindow(c)
    requires w == ReplayScript(greedy, ignoreEos) && Speaks(q, w) && q.target.recurrent
    requires out == if ignoreEos then [1, 1, 5] else [1, 1]
    ensures !MtpServes(q, c)
  {
    ReplayRun(q, w, c, greedy, ignoreEos, k, Done(out, []));
    ReplayPlain(q, w, greedy, ignoreEos, k + 1, out);
    OneGoodObeys();
    FailsDoesNotServe(q, c, OneGood(), k + 1, Done(out, []));
  }

  // ---- A runway, sampling ----

  function RunwayScript(k: nat, ignoreEos: bool, recurrent: bool): Script {
    Script(recurrent, false, ignoreEos, 6, {}, (p: nat) => 1, (p: nat) => 1,
           (p: nat, n: nat) => if p == 2 * k + 3 then (if n == p then 2 else 3) else 1, 3 * k + 10)
  }

  lemma RepeatSplits(tok: Token, n: nat, k: nat)
    ensures Repeat(tok, n) + [tok] + Repeat(tok, k)[..k] == Repeat(tok, n + 1 + k) && Repeat(tok, k)[k..] == []
    ensures Repeat(tok, n) + [tok] + Repeat(tok, k + 1)[..k] == Repeat(tok, n + 1 + k)
    ensures Repeat(tok, k + 1)[k..] == [tok] && Repeat(tok, n) + [tok] == Repeat(tok, n + 1)
  {
  }

  lemma RunwayAsks(c: Config, k: nat, extra: nat)
    requires c.execution.DeviceResident? && k == Max(c.specK, 1) && 0 < extra <= Min(RunwayDepth(c), 2)
    ensures Asked(c, k + extra + 1, extra) == (k, extra)
  {
  }

  /** The first turn of a runway run: no runway yet, but the next one may have one. */
  lemma FirstTurn(q: Request, w: Script, c: Config, drafter: (nat, nat) -> seq<Token>, k: nat, tok: Token,
                  remaining: nat, drafts: seq<Token>, out: seq<Token>, run: Run)
    requires c.execution.DeviceResident? && RunwayDepth(c) > 0 && k == Max(c.specK, 1)
    requires Speaks(q, w) && !w.Stops(tok) && remaining > k + 2 && k + 1 < w.most
    requires |drafts| == k && drafts == drafter(0, k) && Matches(w, 1, 1, drafts, k, k)
    requires AfterWindow(w, c, k, k, 1 + k, 1 + k) == tok && out == [] + [tok] + drafts[..k] && drafts[k..] == []
    requires MtpRuns(q, c, drafter, out, tok, 0, remaining - 1 - k, 1, 1, [], tok, run)
    ensures MtpRuns(q, c, drafter, [], tok, 0, remaining, 0, 0, [], tok, run)
  {
    FirstAsks(c, k, remaining);
    FullTurn(q, w, c, drafter, [], tok, 0, remaining, 0, 0, tok, k, drafts, tok, out, [], 1, run);
  }

  lemma FirstAsks(c: Config, k: nat, remaining: nat)
    requires c.execution.DeviceResident? && RunwayDepth(c) > 0 && k == Max(c.specK, 1) && remaining > k + 2
    ensures Asked(c, remaining, 0) == (k, 0) && NextConfidence(c, 0, k, k, k, 0) == 1
  {
  }

  /** The second turn: one draft past the limit, which goes out from the runway. */
  lemma SecondTurn(q: Request, w: Script, c: Config, drafter: (nat, nat) -> seq<Token>, k: nat, tok: Token,
                   gen: seq<Token>, remaining: nat, drafts: seq<Token>, out: seq<Token>, next: Token, run: Run)
    requires c.execution.DeviceResident? && RunwayDepth(c) > 0 && k == Max(c.specK, 1)
    requires Speaks(q, w) && !w.Stops(tok) && remaining > k + 2 && |gen| + k + 3 < w.most
    requires Asked(c, remaining, 1) == (k, 1) && |drafts| == k + 1 && drafts == drafter(1, k + 1)
    requires Matches(w, |gen| + 1, |gen| + 1, drafts, k, k + 1)
    requires next == w.Says(|gen| + k + 2, |gen| + 1 + k) && out == gen + [tok] + drafts[..k] && drafts[k..] == [tok]
    requires MtpRuns(q, c, drafter, out + [tok], next, 0, remaining - 2 - k, 2, 2, [], next, run)
    ensures MtpRuns(q, c, drafter, gen, tok, 0, remaining, 1, 1, [], tok, run)
  {
    PopsOne(q, w, c, drafter, out, next, remaining - 1 - k, 2, 2, tok, next, run);
    SecondRound(q, w, c, drafter, k, tok, gen, remaining, drafts, out, next, run);
  }

  lemma SecondRound(q: Request, w: Script, c: Config, drafter: (nat, nat) -> seq<Token>, k: nat, tok: Token,
                    gen: seq<Token>, remaining: nat, drafts: seq<Token>, out: seq<Token>, next: Token, run: Run)
    requires c.execution.DeviceResident? && 0 < k < remaining - 1
    requires Speaks(q, w) && !w.Stops(tok) && |gen| + k + 3 < w.most
    requires Asked(c, remaining, 1) == (k, 1) && |drafts| == k + 1 && drafts == drafter(1, k + 1)
    requires Matches(w, |gen| + 1, |gen| + 1, drafts, k, k + 1)
    requires next == w.Says(|gen| + k + 2, |gen| + 1 + k) && out == gen + [tok] + drafts[..k] && drafts[k..] == [tok]
    requires MtpRuns(q, c, drafter, out, next, 0, remaining - 1 - k, 2, 2, [tok], next, run)
    ensures MtpRuns(q, c, drafter, gen, tok, 0, remaining, 1, 1, [], tok, run)
  {
    SecondAsks(w, c, k, |gen|);
    FullTurn(q, w, c, drafter, gen, tok, 0, remaining, 1, 1, tok, k, drafts, next, out, [tok], 2, run);
  }

  lemma SecondAsks(w: Script, c: Config, k: nat, n: nat)
    requires c.execution.DeviceResident? && k > 0
    ensures NextConfidence(c, 1, k, k + 1, k + 1, 1) == 2
    ensures AfterWindow(w, c, k, k + 1, n + 1 + (k + 1), n + 1 + k) == w.Says(n + k + 2, n + 1 + k)
  {
  }

  lemma PopsOne(q: Request, w: Script, c: Config, drafter: (nat, nat) -> seq<Token>, gen: seq<Token>, current: Token,
                remaining: nat, rounds: nat, confidence: nat, token: Token, resume: Token, run: Run)
    requires Speaks(q, w) && !w.Stops(token) && remaining > 1 && |gen| + 1 < w.most
    requires MtpRuns(q, c, drafter, gen + [token], resume, 0, remaining - 1, rounds, confidence, [], resume, run)
    ensures MtpRuns(q, c, drafter, gen, current, 0, remaining, rounds, confidence, [token], resume, run)
  {
    assert |gen + [token]| == |gen| + 1;
    RunPops(q, c, drafter, NOWHERE, gen, current, 0, remaining, rounds, confidence, [token], resume);
  }

  /** What the first turn of a runway run needs of its script. */
  predicate FirstFacts(c: Config, w: Script, k: nat, tok: Token) {
    && k == Max(c.specK, 1) && RunwayDepth(c) > 0 && c.execution.DeviceResident? && k + 1 < w.most
    && !w.Stops(tok) && w.Says(0, 0) == tok
    && Matches(w, 1, 1, Repeat(tok, k), k, k) && AfterWindow(w, c, k, k, 1 + k, 1 + k) == tok
  }

  lemma RunwayOpens(q: Request, w: Script, c: Config, drafter: (nat, nat) -> seq<Token>, k: nat, tok: Token,
                    remaining: nat, left: nat, drafts: seq<Token>, run: Run)
    requires FirstFacts(c, w, k, tok) && Speaks(q, w) && remaining > k + 2
    requires drafts == drafter(0, k) == Repeat(tok, k) && left == remaining - 1 - k
    requires MtpRuns(q, c, drafter, Repeat(tok, k + 1), tok, 0, left, 1, 1, [], tok, run)
    ensures MtpRuns(q, c, drafter, [], tok, 0, remaining, 0, 0, [], tok, run)
  {
    RepeatSplits(tok, 0, k);
    FirstTurn(q, w, c, drafter, k, tok, remaining, drafts, Repeat(tok, k + 1), run);
  }

  lemma RunwayFirst(q: Request, w: Script, c: Config, drafter: (nat, nat) -> seq<Token>, k: nat, tok: Token,
                    remaining: nat, left: nat, run: Run)
    requires FirstFacts(c, w, k, tok) && Speaks(q, w) && remaining > k + 2 && drafter(0, k) == Repeat(tok, k)
    requires left == remaining - 1 - k && MtpRuns(q, c, drafter, Repeat(tok, k + 1), tok, 0, left, 1, 1, [], tok, run)
    ensures RunOf(q, c, drafter, NOWHERE, 0, remaining) == run
  {
    RunwayOpens(q, w, c, drafter, k, tok, remaining, left, Repeat(tok, k), run);
    RunStarts(q, w, c, drafter, remaining, tok, run);
  }

  /** What its second turn needs. */
  predicate SecondFacts(c: Config, w: Script, k: nat, tok: Token, next: Token, remaining: nat) {
    && k == Max(c.specK, 1) && RunwayDepth(c) > 0 && c.execution.DeviceResident? && 2 * k + 4 < w.most
    && !w.Stops(tok) && Matches(w, k + 2, k + 2, Repeat(tok, k + 1), k, k + 1)
    && w.Says(2 * k + 3, 2 * k + 2) == next && remaining > k + 2 && Asked(c, remaining, 1) == (k, 1)
  }

  lemma RunwaySecond(q: Request, w: Script, c: Config, drafter: (nat, nat) -> seq<Token>, k: nat, tok: Token,
                     next: Token, remaining: nat, left: nat, run: Run)
    requires remaining > 1 && SecondFacts(c, w, k, tok, next, remaining) && Speaks(q, w)
    requires drafter(1, k + 1) == Repeat(tok, k + 1) && left == remaining - 2 - k
    requires MtpRuns(q, c, drafter, Repeat(tok, 2 * k + 3), next, 0, left, 2, 2, [], next, run)
    ensures MtpRuns(q, c, drafter, Repeat(tok, k + 1), tok, 0, remaining, 1, 1, [], tok, run)
  {
    SecondSplits(tok, k);
    SecondTurn(q, w, c, drafter, k, tok, Repeat(tok, k + 1), remaining, Repeat(tok, k + 1), Repeat(tok, 2 * k + 2),
               next, run);
  }

  lemma SecondSplits(tok: Token, k: nat)
    ensures Repeat(tok, k + 1) + [tok] + Repeat(tok, k + 1)[..k] == Repeat(tok, 2 * k + 2)
    ensures Repeat(tok, k + 1)[k..] == [tok] && Repeat(tok, 2 * k + 2) + [tok] == Repeat(tok, 2 * k + 3)
  {
  }

  lemma RunwaySays(c: Config, w: Script, k: nat, ignoreEos: bool, recurrent: bool)
    requires RunwayDepth(c) > 0 && !NoBonusPossible(c) && k == Max(c.specK, 1)
    requires w == RunwayScript(k, ignoreEos, recurrent)
    ensures FirstFacts(c, w, k, 1) && SecondFacts(c, w, k, 1, 3, k + 3) && !w.Stops(3)
  {
  }

  /** A sampling run with a runway: what follows the runway was drawn without it in context. */
  lemma RunwayRun(q: Request, w: Script, c: Config, k: nat, run: Run)
    requires FirstFacts(c, w, k, 1) && SecondFacts(c, w, k, 1, 3, k + 3) && !w.Stops(3)
    requires Speaks(q, w) && run == Done(Repeat(1, 2 * k + 3) + [3], [])
    ensures RunOf(q, c, Always(1), NOWHERE, 0, 2 * k + 4) == run
  {
    LastTurn(q, c, Always(1), Repeat(1, 2 * k + 3), 3, 0, 1, 2, 2, 3, run);
    RunwaySecond(q, w, c, Always(1), k, 1, 3, k + 3, 1, run);
    RunwayFirst(q, w, c, Always(1), k, 1, 2 * k + 4, k + 3, run);
  }

  lemma RunwayPlain(q: Request, w: Script, k: nat, ignoreEos: bool, recurrent: bool)
    requires w == RunwayScript(k, ignoreEos, recurrent) && Speaks(q, w)
    ensures Plain(q, NOWHERE, [], 0, 2 * k + 4) != Repeat(1, 2 * k + 3) + [3]
  {
    var toks, out := Repeat(1, 2 * k + 3) + [2], Repeat(1, 2 * k + 3) + [3];
    assert toks[2 * k + 3] != out[2 * k + 3];
    PlainDiffers(q, w, toks, 0, 2 * k + 4, out);
  }

  /** The token behind a runway is drawn without the runway in its context. */
  lemma RunwayFails(c: Config, ignoreEos: bool, recurrent: bool) returns (q: Request)
    requires RunwayDepth(c) > 0 && !NoBonusPossible(c)
    ensures !q.greedy && q.ignoreEos == ignoreEos && q.target.recurrent == recurrent && !MtpServes(q, c)
  {
    var k := Max(c.specK, 1);
    var w := RunwayScript(k, ignoreEos, recurrent);
    q := w.Spoken();
    SpokenSpeaks(w);
    RunwayDiffers(q, w, c, ignoreEos, recurrent, k);
  }

  lemma RunwayDiffers(q: Request, w: Script, c: Config, ignoreEos: bool, recurrent: bool, k: nat)
    requires RunwayDepth(c) > 0 && !NoBonusPossible(c) && k == Max(c.specK, 1)
    requires w == RunwayScript(k, ignoreEos, recurrent) && Speaks(q, w)
    ensures !MtpServes(q, c)
  {
    RunwaySays(c, w, k, ignoreEos, recurrent);
    RunwayRun(q, w, c, k, Done(Repeat(1, 2 * k + 3) + [3], []));
    RunwayPlain(q, w, k, ignoreEos, recurrent);
    FailsDoesNotServe(q, c, Always(1), 2 * k + 4, Done(Repeat(1, 2 * k + 3) + [3], []));
  }

  // ---- A stop past the emit limit ----

  function StopScript(k: nat, ignoreEos: bool, recurrent: bool, eos: Token, stops: set<Token>, tok: Token,
                      stop: Token): Script {
    var raw := (p: nat) => if p == 3 * k + 5 then stop else tok;
    Script(recurrent, true, ignoreEos, eos, stops, raw, raw, (p: nat, n: nat) => tok, 3 * k + 10)
  }

  /** Right in every position, the stop in the third round included. */
  function StopDrafts(tok: Token, stop: Token): (nat, nat) -> seq<Token> {
    (n: nat, k: nat) => if n == 2 && k > 0 then Repeat(tok, k - 1) + [stop] else Repeat(tok, k)
  }

  lemma StopDraftsObey(tok: Token, stop: Token)
    ensures Obeys(StopDrafts(tok, stop))
  {
    forall n: nat, k: nat ensures |StopDrafts(tok, stop)(n, k)| == k {
      var drafts := StopDrafts(tok, stop)(n, k);
      if n == 2 && k > 0 {
        assert drafts == Repeat(tok, k - 1) + [stop];
      } else {
        assert drafts == Repeat(tok, k);
      }
    }
  }

  /** What the third turn needs. */
  predicate ThirdFacts(c: Config, w: Script, k: nat, tok: Token, stop: Token) {
    && k == Max(c.specK, 1) && c.execution.DeviceResident? && 3 * k + 4 < w.most && !w.Stops(tok) && w.Stops(stop)
    && Matches(w, 2 * k + 4, 2 * k + 4, Repeat(tok, k + 1) + [stop], k, k + 1)
    && w.Says(3 * k + 5, 3 * k + 4) == stop && Asked(c, k + 3, 2) == (k, 2)
  }

  lemma StopSaysFirst(c: Config, w: Script, k: nat, ignoreEos: bool, recurrent: bool, eos: Token, stops: set<Token>,
                      tok: Token, stop: Token)
    requires RunwayDepth(c) > 1 && k == Max(c.specK, 1)
    requires w == StopScript(k, ignoreEos, recurrent, eos, stops, tok, stop) && w.Stops(stop) && !w.Stops(tok)
    ensures FirstFacts(c, w, k, tok) && SecondFacts(c, w, k, tok, tok, 2 * k + 5)
  {
  }

  lemma StopSaysThird(c: Config, w: Script, k: nat, ignoreEos: bool, recurrent: bool, eos: Token, stops: set<Token>,
                      tok: Token, stop: Token)
    requires RunwayDepth(c) > 1 && k == Max(c.specK, 1)
    requires w == StopScript(k, ignoreEos, recurrent, eos, stops, tok, stop) && w.Stops(stop) && !w.Stops(tok)
    ensures ThirdFacts(c, w, k, tok, stop)
  {
    RunwayAsks(c, k, 2);
  }

  /** The `m` drafts before a stop match, those from `k` on without going out. */
  lemma StopJudged(q: Request, w: Script, gen: seq<Token>, drafts: seq<Token>, k: nat, m: nat, rng: Rng,
                   remaining: nat, v: Verdict)
    requires Speaks(q, w) && k <= m < |drafts| && 0 < k < remaining && |gen| + k < w.most
    requires Matches(w, |gen|, |gen|, drafts, k, m)
    requires w.Says(|gen| + m, |gen| + k) == drafts[m] && w.Stops(drafts[m])
    requires v == Verdict(m, k, true, None, gen + drafts[..k], rng, remaining - k)
    ensures VerdictAt(q, Before(q.target, gen), drafts, k, gen, rng, remaining) == v
  {
    var s := Before(q.target, gen);
    JudgeStops(q, w, s, drafts, k, m, v.gen, rng, v.remaining);
    JudgeSkips(q, w, s, drafts, k, m, |gen|, v.gen, rng, v.remaining, v);
    JudgeEmits(q, w, s, drafts, k, k, gen, rng, remaining, v);
  }

  /** The third turn's drafts: all but the last match, and the last one stops. */
  ghost predicate StopsThird(w: Script, c: Config, drafter: (nat, nat) -> seq<Token>, gen: seq<Token>, tok: Token,
                             k: nat, drafts: seq<Token>, out: seq<Token>, run: Run)
  {
    && c.execution.DeviceResident? && k == Max(c.specK, 1) && Asked(c, k + 3, 2) == (k, 2)
    && !w.Stops(tok) && out == gen + [tok] && |out| + k < w.most
    && |drafts| == k + 2 && drafts == drafter(2, k + 2) && Matches(w, |out|, |out|, drafts, k, k + 1)
    && w.Says(|out| + k + 1, |out| + k) == drafts[k + 1] && w.Stops(drafts[k + 1])
    && run == Done(out + drafts[..k], drafts[k..k + 1])
  }

  /** The third turn: a stop two past the limit ends it, one accepted draft short. */
  lemma StopTurn(q: Request, w: Script, c: Config, drafter: (nat, nat) -> seq<Token>, gen: seq<Token>, tok: Token,
                 k: nat, drafts: seq<Token>, out: seq<Token>, run: Run)
    requires Speaks(q, w) && StopsThird(w, c, drafter, gen, tok, k, drafts, out, run)
    ensures MtpRuns(q, c, drafter, gen, tok, 0, k + 3, 2, 2, [], tok, run)
  {
    var v := Verdict(k + 1, k, true, None, out + drafts[..k], 0, 2);
    StopJudged(q, w, out, drafts, k, k + 1, 0, k + 2, v);
    GoesOn(q, w, tok, gen, k + 3);
    StoppedTurn(q, c, drafter, gen, tok, k, drafts, v, run);
  }

  lemma StoppedTurn(q: Request, c: Config, drafter: (nat, nat) -> seq<Token>, gen: seq<Token>, tok: Token, k: nat,
                    drafts: seq<Token>, v: Verdict, run: Run)
    requires c.execution.DeviceResident? && 0 < k && Asked(c, k + 3, 2) == (k, 2)
    requires !RoundFree(q, tok, gen, k + 3) && |drafts| == k + 2 && drafts == drafter(2, k + 2)
    requires v.accepted == k + 1 && v.emitted == k && v.stopped && run == Done(v.gen, drafts[k..k + 1])
    requires VerdictAt(q, Before(q.target, gen + [tok]), drafts, k, gen + [tok], 0, k + 2) == v
    ensures MtpRuns(q, c, drafter, gen, tok, 0, k + 3, 2, 2, [], tok, run)
  {
    JudgedTurn(q, c, drafter, gen, tok, 0, k + 3, 2, 2, tok, k, drafts, v, tok, TurnDone(v.gen), run);
  }

  lemma LastDrafts(tok: Token, stop: Token, k: nat)
    requires k > 0
    ensures var last := Repeat(tok, k + 1) + [stop];
            && last == StopDrafts(tok, stop)(2, k + 2) && last[k..k + 1] == [tok] && last[k + 1] == stop
            && Repeat(tok, 2 * k + 4) + last[..k] == Repeat(tok, 3 * k + 4)
            && Repeat(tok, 2 * k + 4) == Repeat(tok, 2 * k + 3) + [tok]
  {
    assert (Repeat(tok, k + 1) + [stop])[..k] == Repeat(tok, k);
  }

  lemma ThirdDrafts(w: Script, c: Config, tok: Token, stop: Token, k: nat, drafter: (nat, nat) -> seq<Token>, run: Run)
    requires ThirdFacts(c, w, k, tok, stop) && run == Done(Repeat(tok, 3 * k + 4), [tok])
    requires drafter == StopDrafts(tok, stop)
    ensures StopsThird(w, c, drafter, Repeat(tok, 2 * k + 3), tok, k, Repeat(tok, k + 1) + [stop],
                       Repeat(tok, 2 * k + 4), run)
  {
    LastDrafts(tok, stop, k);
  }

  lemma RunwayThird(q: Request, w: Script, c: Config, tok: Token, stop: Token, k: nat, run: Run)
    requires ThirdFacts(c, w, k, tok, stop) && Speaks(q, w) && run == Done(Repeat(tok, 3 * k + 4), [tok])
    ensures MtpRuns(q, c, StopDrafts(tok, stop), Repeat(tok, 2 * k + 3), tok, 0, k + 3, 2, 2, [], tok, run)
  {
    var drafter := StopDrafts(tok, stop);
    ThirdDrafts(w, c, tok, stop, k, drafter, run);
    StopTurn(q, w, c, drafter, Repeat(tok, 2 * k + 3), tok, k, Repeat(tok, k + 1) + [stop], Repeat(tok, 2 * k + 4),
             run);
  }

  lemma StopPlain(q: Request, w: Script, k: nat, ignoreEos: bool, recurrent: bool, eos: Token, stops: set<Token>,
                  tok: Token, stop: Token)
    requires w == StopScript(k, ignoreEos, recurrent, eos, stops, tok, stop) && Speaks(q, w) && !w.Stops(tok)
    ensures Plain(q, NOWHERE, [], 0, 3 * k + 6) != Repeat(tok, 3 * k + 4)
  {
    PlainDiffers(q, w, Repeat(tok, 3 * k + 5), 0, 3 * k + 6, Repeat(tok, 3 * k + 4));
  }

  /** The scripts at hand. */
  ghost predicate Stopping(w: Script, c: Config, k: nat, tok: Token, stop: Token) {
    && RunwayDepth(c) > 1 && k == Max(c.specK, 1) && w.Stops(stop) && !w.Stops(tok)
    && w == StopScript(k, w.ignoreEos, w.recurrent, w.eos, w.stops, tok, stop)
  }

  /** Two turns that go on before the last one. */
  lemma StopOutput(q: Request, w: Script, c: Config, drafter: (nat, nat) -> seq<Token>, tok: Token, k: nat, run: Run)
    requires FirstFacts(c, w, k, tok) && SecondFacts(c, w, k, tok, tok, 2 * k + 5) && Speaks(q, w)
    requires drafter(0, k) == Repeat(tok, k) && drafter(1, k + 1) == Repeat(tok, k + 1)
    requires MtpRuns(q, c, drafter, Repeat(tok, 2 * k + 3), tok, 0, k + 3, 2, 2, [], tok, run)
    ensures RunOf(q, c, drafter, NOWHERE, 0, 3 * k + 6) == run
  {
    RunwaySecond(q, w, c, drafter, k, tok, tok, 2 * k + 5, k + 3, run);
    RunwayFirst(q, w, c, drafter, k, tok, 3 * k + 6, 2 * k + 5, run);
  }

  lemma StopRun(q: Request, w: Script, c: Config, tok: Token, stop: Token, k: nat, run: Run)
    requires Stopping(w, c, k, tok, stop) && Speaks(q, w) && run == Done(Repeat(tok, 3 * k + 4), [tok])
    ensures RunOf(q, c, StopDrafts(tok, stop), NOWHERE, 0, 3 * k + 6) == run
  {
    StopSaysFirst(c, w, k, w.ignoreEos, w.recurrent, w.eos, w.stops, tok, stop);
    StopSaysThird(c, w, k, w.ignoreEos, w.recurrent, w.eos, w.stops, tok, stop);
    RunwayThird(q, w, c, tok, stop, k, run);
    StopOutput(q, w, c, StopDrafts(tok, stop), tok, k, run);
  }

  /** The run a stop cuts short: one accepted token never goes out. */
  lemma StopCutsShort(q: Request, w: Script, c: Config, tok: Token, stop: Token, k: nat)
    requires Stopping(w, c, k, tok, stop) && Speaks(q, w)
    ensures RunOf(q, c, StopDrafts(tok, stop), NOWHERE, 0, 3 * k + 6) == Done(Repeat(tok, 3 * k + 4), [tok])
    ensures !MtpServes(q, c)
  {
    var run := Done(Repeat(tok, 3 * k + 4), [tok]);
    StopRun(q, w, c, tok, stop, k, run);
    StopPlain(q, w, k, w.ignoreEos, w.recurrent, w.eos, w.stops, tok, stop);
    StopDraftsObey(tok, stop);
    FailsDoesNotServe(q, c, StopDrafts(tok, stop), 3 * k + 6, run);
  }

  /** A stop in a runway of two or more drafts keeps an accepted token back. */
  lemma StopFails(c: Config, ignoreEos: bool, recurrent: bool, eos: Token, stops: set<Token>, tok: Token, stop: Token)
    returns (q: Request)
    requires RunwayDepth(c) > 1
    requires IsStop(ignoreEos, eos, stops, stop) && !IsStop(ignoreEos, eos, stops, tok)
    ensures q.greedy && q.ignoreEos == ignoreEos && q.target.recurrent == recurrent
    ensures q.eos == eos && q.stopTokens == stops && !MtpServes(q, c)
  {
    var w := StopScript(Max(c.specK, 1), ignoreEos, recurrent, eos, stops, tok, stop);
    q := w.Spoken();
    SpokenSpeaks(w);
    StopCutsShort(q, w, c, tok, stop, Max(c.specK, 1));
  }
}
