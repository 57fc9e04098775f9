/** What the early-exit speculative loop computes, engine state included, as a function of the
    request, the configuration and the drafter, and that function against plain decoding. */
module SpecRun {
  import opened Model
  import opened EngineState
  import opened MtpVerify
  import opened MtpRoutes
  import opened MtpRounds

  datatype SpecConfig = SpecConfig(specK: nat, needsSequential: bool, forceBatch: bool, noBonusRequested: bool)
  {
    predicate SequentialVerify() { needsSequential && !forceBatch }
  }

  /** The early-exit drafter: its tokens, and the junk its steps leave in the engine. */
  datatype Drafter = Drafter(token: (nat, nat) -> Token, row: (nat, nat) -> Row, rec: (nat, nat) -> Rec)

  /** A round's result: the next round starts from a forced token or from logits. */
  datatype SpecRound = SpecFailed | SpecDone(v: Verdict) | SpecNext(v: Verdict, forced: Option<Token>, logits: Logits)

  datatype SpecResult = SpecError | SpecOk(tokens: seq<Token>)

  // ---- The run ----

  /** Drafts the batch window holds. */
  function WindowDrafts(k: nat, noBonus: bool): nat {
    if noBonus && k > 0 then k - 1 else k
  }

  /** The window of a batch round; without its bonus row the last draft is left out. */
  function SpecWindow(first: Token, drafts: seq<Token>, noBonus: bool): (window: seq<Token>)
    ensures |window| == 1 + WindowDrafts(|drafts|, noBonus)
  {
    [first] + if noBonus && drafts != [] then drafts[..|drafts| - 1] else drafts
  }

  /** Where a batch round leaves the engine: recurrent state is cut back only in the class
      that is verified sequentially. */
  function CommittedState(t: Target, c: SpecConfig, base: State, window: seq<Token>, n: nat): State
    requires n <= |window|
  {
    if c.needsSequential then FeedAll(t, base, window[..n]) else CutTo(t, base, window, n)
  }

  predicate WithoutRow(p: Request, c: SpecConfig) {
    p.greedy && c.noBonusRequested
  }

  ghost function SequentialRoundOf(p: Request, s: State, drafts: seq<Token>, v: Verdict): (SpecRound, State)
    requires v.accepted <= |drafts|
  {
    var now := FeedAll(p.target, s, drafts[..v.accepted]);
    var forced := if !p.greedy then None
                  else if v.accepted == |drafts| then Some(p.argmax(p.target.head(now)))
                  else v.mismatch;
    (if v.Ended() then SpecDone(v) else SpecNext(v, forced, p.target.head(now)), now)
  }

  ghost function BatchRoundOf(p: Request, c: SpecConfig, base: State, first: Token, drafts: seq<Token>, v: Verdict):
    (SpecRound, State)
    requires v.accepted <= |drafts|
  {
    var s, window := Feed(p.target, base, first), SpecWindow(first, drafts, WithoutRow(p, c));
    if WithoutRow(p, c) && v.accepted == |drafts| then
      var now := FeedAll(p.target, s, drafts);
      (if v.remaining == 0 then SpecDone(v)
       else if v.stopped || drafts == [] then SpecFailed
       else SpecNext(v, Some(GreedyNext(p, now)), p.target.head(now)),
       now)
    else
      var row := p.target.head(FeedAll(p.target, base, window[..1 + v.accepted]));
      (if v.Ended() then SpecDone(v) else SpecNext(v, if p.greedy then Some(p.argmax(row)) else None, row),
       CommittedState(p.target, c, base, window, 1 + v.accepted))
  }

  /** The round after `first`, and the state a continuing round leaves. */
  ghost function SpecRoundOf(p: Request, c: SpecConfig, base: State, first: Token, drafts: seq<Token>, gen: seq<Token>,
                             rng: Rng, remaining: nat): (r: (SpecRound, State))
    requires remaining > 0
    ensures r.0.SpecNext? ==> 0 < r.0.v.remaining <= remaining
  {
    var s := Feed(p.target, base, first);
    var v := VerdictAt(p, s, drafts, |drafts|, gen, rng, remaining);
    if c.SequentialVerify() then SequentialRoundOf(p, s, drafts, v) else BatchRoundOf(p, c, base, first, drafts, v)
  }

  function DraftsOf(drafter: Drafter, round: nat, k: nat): seq<Token> {
    seq<Token>(k, i requires 0 <= i < k => drafter.token(round, i))
  }

  /** The loop, from an engine state and either a forced first token or pending logits. */
  ghost function RunSpec(p: Request, c: SpecConfig, drafter: Drafter, now: State, gen: seq<Token>, rng: Rng,
                         remaining: nat, rounds: nat, forced: Option<Token>, logits: Logits): SpecResult
    decreases remaining, 1
  {
    if remaining == 0 then SpecOk(gen)
    else
      var (first, rng') := if forced.Some? then (forced.value, rng) else Choose(p, logits, gen, rng);
      if ShouldStop(p, first) then SpecOk(gen)
      else if !p.keepGoing(gen + [first]) || remaining == 1 then SpecOk(gen + [first])
      else RunRound(p, c, drafter, now, first, gen + [first], rng', remaining - 1, rounds)
  }

  ghost function RunRound(p: Request, c: SpecConfig, drafter: Drafter, now: State, first: Token, gen: seq<Token>,
                          rng: Rng, remaining: nat, rounds: nat): SpecResult
    requires remaining > 0
    decreases remaining + 1, 0
  {
    var drafts := DraftsOf(drafter, rounds, Min(c.specK, remaining));
    var (r, after) := SpecRoundOf(p, c, now, first, drafts, gen, rng, remaining);
    match r
    case SpecFailed => SpecError
    case SpecDone(v) => SpecOk(v.gen)
    case SpecNext(v, forced, logits) =>
      RunSpec(p, c, drafter, after, v.gen, v.rng, v.remaining, rounds + 1, forced, logits)
  }

  /** A whole run. The loop never looks at `ignoreEos`. */
  ghost function SpecRunOf(q: Request, c: SpecConfig, drafter: Drafter, base: State, rng0: Rng,
                           maxTokens: nat): SpecResult {
    RunSpec(q.(ignoreEos := false), c, drafter, base, [], rng0, maxTokens, 0, None, q.target.head(base))
  }

  // ---- The run against plain decoding ----

  /** No batch window is cut back by its length while it holds recurrent state. */
  predicate CutsSafely(c: SpecConfig, greedy: bool, recurrent: bool) {
    recurrent && !c.needsSequential ==> c.specK <= if greedy && c.noBonusRequested then 1 else 0
  }

  /** No draft is ever drawn twice, or drawing it twice makes no difference. */
  ghost predicate DrawsOnce(p: Request, c: SpecConfig) {
    c.specK == 0 || Deterministic(p)
  }

  lemma CommitsPrefix(p: Request, c: SpecConfig, base: State, first: Token, drafts: seq<Token>, accepted: nat)
    requires CutsSafely(c, p.greedy, p.target.recurrent) && |drafts| <= c.specK
    requires accepted <= |drafts| && (WithoutRow(p, c) && drafts != [] ==> accepted < |drafts|)
    ensures var window := SpecWindow(first, drafts, WithoutRow(p, c));
            && FeedAll(p.target, base, window[..1 + accepted])
                 == FeedAll(p.target, Feed(p.target, base, first), drafts[..accepted])
            && CommittedState(p.target, c, base, window, 1 + accepted)
               == FeedAll(p.target, base, window[..1 + accepted])
  {
    var window := SpecWindow(first, drafts, WithoutRow(p, c));
    assert window == [first] + drafts[..|window| - 1];
    CommittedPrefix(p.target, base, first, drafts, window, accepted);
    CutWindow(p.target, base, window, 1 + accepted);
    assert window[..|window|] == window;
  }

  /** A continuing round leaves the engine on the accepted drafts and hands on the rest of
      the plain run. */
  ghost predicate Continues(p: Request, s: State, drafts: seq<Token>, r: SpecRound, now: State, goal: seq<Token>) {
    r.SpecNext? ==>
      && r.v.accepted <= |drafts| && now == FeedAll(p.target, s, drafts[..r.v.accepted])
      && (r.forced == None ==> r.logits == p.target.head(now))
      && goal == if r.forced.Some? then Emit(p, now, r.forced.value, r.v.rng, r.v.gen, r.v.remaining)
                 else Plain(p, now, r.v.gen, r.v.rng, r.v.remaining)
  }

  lemma VerdictContinues(p: Request, c: SpecConfig, s: State, drafts: seq<Token>, gen: seq<Token>, rng: Rng,
                         remaining: nat, v: Verdict, now: State, forced: Option<Token>)
    requires remaining > 0 && !p.ignoreEos && |drafts| <= c.specK && DrawsOnce(p, c)
    requires v == VerdictAt(p, s, drafts, |drafts|, gen, rng, remaining) && !v.Ended()
    requires now == FeedAll(p.target, s, drafts[..v.accepted])
    requires forced == if p.greedy then Some(GreedyNext(p, now)) else None
    ensures Continues(p, s, drafts, SpecNext(v, forced, p.target.head(now)), now, Plain(p, s, gen, rng, remaining))
  {
    VerdictSound(p, s, drafts, |drafts|, gen, rng, remaining);
    AtIsFeedAll(p.target, s, drafts, v.accepted);
    if v.mismatch.Some? {
      var r0 :| Choose(p, p.target.head(now), v.gen, r0) == (v.mismatch.value, v.rng);
      if !p.greedy {
        var (tok, rng') := Choose(p, p.target.head(now), v.gen, v.rng);
        EmitAnyRng(p, now, tok, v.rng, rng', v.gen, v.remaining);
      }
    }
  }

  lemma RoundContinues(p: Request, c: SpecConfig, base: State, first: Token, drafts: seq<Token>, gen: seq<Token>,
                       rng: Rng, remaining: nat)
    requires remaining > 0 && !p.ignoreEos && |drafts| <= c.specK && DrawsOnce(p, c)
    requires CutsSafely(c, p.greedy, p.target.recurrent)
    ensures var s, (r, now) := Feed(p.target, base, first), SpecRoundOf(p, c, base, first, drafts, gen, rng, remaining);
            && Continues(p, s, drafts, r, now, Plain(p, s, gen, rng, remaining))
            && (r.SpecDone? ==> r.v.gen == Plain(p, s, gen, rng, remaining))
  {
    var s := Feed(p.target, base, first);
    var v := VerdictAt(p, s, drafts, |drafts|, gen, rng, remaining);
    var now := FeedAll(p.target, s, drafts[..v.accepted]);
    VerdictEnds(p, s, drafts, gen, rng, remaining, v);
    if !v.Ended() {
      VerdictContinues(p, c, s, drafts, gen, rng, remaining, v, now,
                       if p.greedy then Some(GreedyNext(p, now)) else None);
    }
    RoundIs(p, c, base, first, drafts, gen, rng, remaining, v, now);
  }

  lemma VerdictEnds(p: Request, s: State, drafts: seq<Token>, gen: seq<Token>, rng: Rng, remaining: nat, v: Verdict)
    requires remaining > 0 && v == VerdictAt(p, s, drafts, |drafts|, gen, rng, remaining)
    ensures v.Ended() ==> v.gen == Plain(p, s, gen, rng, remaining)
    ensures v.accepted == |drafts| ==> drafts[..v.accepted] == drafts
    ensures !v.Ended() ==> (v.mismatch.Some? <==> v.accepted < |drafts|)
    ensures !v.Ended() && p.greedy && v.mismatch.Some? ==>
              v.mismatch == Some(GreedyNext(p, FeedAll(p.target, s, drafts[..v.accepted])))
  {
    VerdictSound(p, s, drafts, |drafts|, gen, rng, remaining);
    AtIsFeedAll(p.target, s, drafts, v.accepted);
  }

  /** What a round of a safe configuration hands on. */
  lemma RoundIs(p: Request, c: SpecConfig, base: State, first: Token, drafts: seq<Token>, gen: seq<Token>, rng: Rng,
                remaining: nat, v: Verdict, now: State)
    requires remaining > 0 && |drafts| <= c.specK && CutsSafely(c, p.greedy, p.target.recurrent) && !p.ignoreEos
    requires v == VerdictAt(p, Feed(p.target, base, first), drafts, |drafts|, gen, rng, remaining)
    requires now == FeedAll(p.target, Feed(p.target, base, first), drafts[..v.accepted])
    requires v.accepted == |drafts| ==> drafts[..v.accepted] == drafts
    requires !v.Ended() ==> (v.mismatch.Some? <==> v.accepted < |drafts|)
    requires !v.Ended() && p.greedy && v.mismatch.Some? ==> v.mismatch == Some(GreedyNext(p, now))
    ensures var (r, now') := SpecRoundOf(p, c, base, first, drafts, gen, rng, remaining);
            && (r.SpecDone? ==> v.Ended() && r.v == v)
            && (r.SpecNext? ==>
                  && !v.Ended() && now' == now
                  && r == SpecNext(v, if p.greedy then Some(GreedyNext(p, now)) else None, p.target.head(now)))
  {
    if !c.SequentialVerify() && !(WithoutRow(p, c) && v.accepted == |drafts|) {
      CommitsPrefix(p, c, base, first, drafts, v.accepted);
    }
  }

  /** Every loop state whose engine is coherent answers with the plain run. */
  lemma {:induction false} RunSpecFaithful(p: Request, c: SpecConfig, drafter: Drafter, now: State, gen: seq<Token>,
                                           rng: Rng, remaining: nat, rounds: nat, forced: Option<Token>, logits: Logits,
                                           goal: seq<Token>)
    requires !p.ignoreEos && CutsSafely(c, p.greedy, p.target.recurrent) && DrawsOnce(p, c)
    requires forced == None ==> logits == p.target.head(now)
    requires goal == if forced.Some? then Emit(p, now, forced.value, rng, gen, remaining)
                     else Plain(p, now, gen, rng, remaining)
    ensures var r := RunSpec(p, c, drafter, now, gen, rng, remaining, rounds, forced, logits);
            r.SpecOk? ==> r.tokens == goal
    decreases remaining
  {
    if remaining > 0 {
      var (first, rng') := if forced.Some? then (forced.value, rng) else Choose(p, logits, gen, rng);
      if !ShouldStop(p, first) { EmitCases(p, now, first, rng', gen, remaining); }
      if !ShouldStop(p, first) && p.keepGoing(gen + [first]) && remaining > 1 {
        var drafts := DraftsOf(drafter, rounds, Min(c.specK, remaining - 1));
        RoundContinues(p, c, now, first, drafts, gen + [first], rng', remaining - 1);
        var (r, after) := SpecRoundOf(p, c, now, first, drafts, gen + [first], rng', remaining - 1);
        if r.SpecNext? {
          RunSpecFaithful(p, c, drafter, after, r.v.gen, r.v.rng, r.v.remaining, rounds + 1, r.forced, r.logits, goal);
        }
      }
    }
  }

  /** For every drafter, callback, stop set, depth and budget: a run that draws no draft twice
      to a difference, and cuts no recurrent window by length, returns the plain output of
      the request without `ignoreEos`. */
  lemma SpecRunDelivers(q: Request, c: SpecConfig, drafter: Drafter, base: State, rng0: Rng, maxTokens: nat)
    requires CutsSafely(c, q.greedy, q.target.recurrent) && DrawsOnce(q, c)
    ensures var r := SpecRunOf(q, c, drafter, base, rng0, maxTokens);
            r.SpecOk? ==> r.tokens == Plain(q.(ignoreEos := false), base, [], rng0, maxTokens)
  {
    var p := q.(ignoreEos := false);
    assert Deterministic(q) == Deterministic(p);
    RunSpecFaithful(p, c, drafter, base, [], rng0, maxTokens, 0, None, q.target.head(base),
                    Plain(p, base, [], rng0, maxTokens));
  }

  /** The client declines some output of at most `limit` tokens. */
  ghost predicate Declines(p: Request, limit: nat) {
    exists toks :: |toks| <= limit && !p.keepGoing(toks)
  }

  /** The configurations with an error return of their own. */
  predicate SpecErrs(c: SpecConfig, greedy: bool) {
    greedy && c.noBonusRequested && !c.SequentialVerify()
  }

  /** A run fails only when its windows have no bonus row and no draft, or the client can
      decline. */
  lemma {:induction false} RunSpecErrs(p: Request, c: SpecConfig, drafter: Drafter, now: State, gen: seq<Token>,
                                       rng: Rng, remaining: nat, rounds: nat, forced: Option<Token>, logits: Logits)
    requires !p.ignoreEos && RunSpec(p, c, drafter, now, gen, rng, remaining, rounds, forced, logits).SpecError?
    ensures SpecErrs(c, p.greedy)
    ensures c.specK == 0 || Declines(p, |gen| + remaining)
    decreases remaining, 1
  {
    var (first, rng') := if forced.Some? then (forced.value, rng) else Choose(p, logits, gen, rng);
    RunRoundErrs(p, c, drafter, now, first, gen + [first], rng', remaining - 1, rounds);
  }

  lemma {:induction false} RunRoundErrs(p: Request, c: SpecConfig, drafter: Drafter, now: State, first: Token,
                                        gen: seq<Token>, rng: Rng, remaining: nat, rounds: nat)
    requires !p.ignoreEos && remaining > 0
    requires RunRound(p, c, drafter, now, first, gen, rng, remaining, rounds).SpecError?
    ensures SpecErrs(c, p.greedy)
    ensures c.specK == 0 || Declines(p, |gen| + remaining)
    decreases remaining + 1, 0
  {
    var drafts := DraftsOf(drafter, rounds, Min(c.specK, remaining));
    RoundErrs(p, c, now, first, drafts, gen, rng, remaining);
    var (r, after) := SpecRoundOf(p, c, now, first, drafts, gen, rng, remaining);
    if r.SpecNext? {
      RunSpecErrs(p, c, drafter, after, r.v.gen, r.v.rng, r.v.remaining, rounds + 1, r.forced, r.logits);
    }
  }

  lemma RoundErrs(p: Request, c: SpecConfig, base: State, first: Token, drafts: seq<Token>, gen: seq<Token>, rng: Rng,
                  remaining: nat)
    requires remaining > 0
    ensures var r := SpecRoundOf(p, c, base, first, drafts, gen, rng, remaining).0;
            && (r.SpecNext? ==> |r.v.gen| + r.v.remaining == |gen| + remaining)
            && (r.SpecFailed? ==>
                  && SpecErrs(c, p.greedy)
                  && (drafts == [] || Declines(p, |gen| + remaining)))
  {
    var s := Feed(p.target, base, first);
    var v := VerdictAt(p, s, drafts, |drafts|, gen, rng, remaining);
    VerdictSound(p, s, drafts, |drafts|, gen, rng, remaining);
    if v.stopped && v.accepted == |drafts| && drafts != [] {
      JudgeDeclines(p, Along(p, s, drafts), drafts, |drafts|, 0, gen, rng, remaining);
    }
  }

  /** A stop after full acceptance is the client's. */
  lemma {:induction false} JudgeDeclines(q: Request, logits: seq<Logits>, drafts: seq<Token>, limit: nat, i: nat,
                                         gen: seq<Token>, rng: Rng, remaining: nat)
    requires i < |drafts| <= |logits| && remaining > 0
    requires var v := Judge(q, logits, drafts, limit, i, gen, rng, remaining); v.stopped && v.accepted == |drafts|
    ensures var v := Judge(q, logits, drafts, limit, i, gen, rng, remaining); !q.keepGoing(v.gen)
    decreases |drafts| - i
  {
    var (target, rng') := Choose(q, logits[i], gen, rng);
    if i + 1 < |drafts| {
      if i >= limit { JudgeDeclines(q, logits, drafts, limit, i + 1, gen, rng', remaining); }
      else if q.keepGoing(gen + [drafts[i]]) && remaining > 1 {
        JudgeDeclines(q, logits, drafts, limit, i + 1, gen + [drafts[i]], rng', remaining - 1);
      }
    }
  }

  /** Without that error return a run always returns. */
  lemma NeverSpecErrs(q: Request, c: SpecConfig, drafter: Drafter, base: State, rng0: Rng, maxTokens: nat)
    requires !SpecErrs(c, q.greedy)
    ensures SpecRunOf(q, c, drafter, base, rng0, maxTokens).SpecOk?
  {
    var p, logits := q.(ignoreEos := false), q.target.head(base);
    if RunSpec(p, c, drafter, base, [], rng0, maxTokens, 0, None, logits).SpecError? {
      RunSpecErrs(p, c, drafter, base, [], rng0, maxTokens, 0, None, logits);
    }
  }
}
