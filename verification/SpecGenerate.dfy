/** The early-exit speculative loop: sequential-incremental and batch verify, with and
    without a bonus row. It computes the run of `SpecRun`. */
module SpecGenerate {
  import opened Model
  import opened EngineState
  import opened MtpVerify
  import opened MtpRoutes
  import opened MtpRounds
  import opened SpecRun

  /** Checkpoint, draft on the target itself, roll back. */
  method DraftAndRestore(e: Engine, drafter: Drafter, round: nat, k: nat) returns (drafts: seq<Token>, ckpt: Checkpoint)
    requires e.Valid()
    modifies e
    ensures e.Valid() && e.Now() == old(e.Now()) && drafts == DraftsOf(drafter, round, k)
    ensures ckpt == Checkpoint(|e.Now().kv|, e.Now().rec)
  {
    ghost var before := e.Now();
    ckpt := e.Save();
    drafts := [];
    for i := 0 to k
      invariant e.Valid() && drafts == DraftsOf(drafter, round, i)
      invariant ckpt.len <= e.len && e.rows[..ckpt.len] == before.kv
    {
      e.ForwardDraft(drafter.row(round, i), drafter.rec(round, i));
      drafts := drafts + [drafter.token(round, i)];
    }
    e.Restore(ckpt);
  }

  /** Where a finished round leaves the engine: on the accepted drafts or one short. */
  ghost predicate RoundSettled(p: Request, c: SpecConfig, s: State, drafts: seq<Token>, r: SpecRound, now: State) {
    CutsSafely(c, p.greedy, p.target.recurrent) && r.SpecDone? ==>
      && r.v.accepted <= |drafts|
      && (|| now == FeedAll(p.target, s, drafts[..r.v.accepted])
          || (r.v.accepted > 0 && now == FeedAll(p.target, s, drafts[..r.v.accepted - 1])))
  }

  method SequentialVerify(e: Engine, p: Request, c: SpecConfig, first: Token, drafts: seq<Token>, gen: seq<Token>,
                          rng: Rng, remaining: nat)
    returns (r: SpecRound)
    requires e.Valid() && e.target == p.target && remaining > 0 && !p.ignoreEos && c.SequentialVerify()
    modifies e
    ensures e.Valid()
    ensures var (round, after) := SpecRoundOf(p, c, old(e.Now()), first, drafts, gen, rng, remaining);
            r == round && (r.SpecNext? ==> e.Now() == after)
    ensures RoundSettled(p, c, Feed(p.target, old(e.Now()), first), drafts, r, e.Now())
  {
    ghost var base := e.Now();
    ghost var s := Feed(p.target, base, first);
    var v, fed := SequentialJudge(e, p, first, drafts, gen, rng, remaining, base, s);
    VerdictSound(p, s, drafts, |drafts|, gen, rng, remaining);
    AtIsFeedAll(p.target, s, drafts, v.accepted);
    if v.Ended() {
      if v.accepted > 0 { AtIsFeedAll(p.target, s, drafts, v.accepted - 1); }
      r := SpecDone(v);
    } else if v.accepted == |drafts| {
      FedStep(p, base, first, drafts, |drafts|);
      var logits := e.Forward(WindowToken(first, drafts, |drafts|));
      assert e.Now() == At(p.target, s, drafts, |drafts|);
      r := SpecNext(v, if p.greedy then Some(p.argmax(logits)) else None, logits);
    } else {
      assert e.Now() == At(p.target, s, drafts, v.accepted);
      r := SpecNext(v, if p.greedy then v.mismatch else None, p.target.head(e.Now()));
    }
    SequentialIs(p, c, base, first, drafts, v, r, e.Now(), gen, rng, remaining);
  }

  lemma SequentialIs(p: Request, c: SpecConfig, base: State, first: Token, drafts: seq<Token>, v: Verdict, r: SpecRound,
                     now: State, gen: seq<Token>, rng: Rng, remaining: nat)
    requires remaining > 0 && c.SequentialVerify() && v.accepted <= |drafts|
    requires v == VerdictAt(p, Feed(p.target, base, first), drafts, |drafts|, gen, rng, remaining)
    requires !v.Ended() ==> now == FeedAll(p.target, Feed(p.target, base, first), drafts[..v.accepted])
    requires r == if v.Ended() then SpecDone(v)
                  else SpecNext(v, if !p.greedy then None
                                   else if v.accepted == |drafts| then Some(p.argmax(p.target.head(now)))
                                   else v.mismatch,
                                p.target.head(now))
    ensures SpecRoundOf(p, c, base, first, drafts, gen, rng, remaining).0 == r
    ensures !v.Ended() ==> SpecRoundOf(p, c, base, first, drafts, gen, rng, remaining).1 == now
  {
  }

  /** Leaves the batch window on its committed prefix: by replay in the sequential class, by
      length alone elsewhere. */
  method CommitBatch(e: Engine, p: Request, c: SpecConfig, ckpt: Checkpoint, window: seq<Token>, k: nat, accepted: nat,
                     noBonus: bool, logits: seq<Logits>, ghost base: State)
    returns (row: Logits)
    requires e.Valid() && e.target == p.target && e.Now() == FeedAll(p.target, base, window)
    requires ckpt == Checkpoint(|base.kv|, base.rec)
    requires accepted <= k && accepted < |window| == 1 + WindowDrafts(k, noBonus)
    requires WindowLogits(p.target, base, window, logits)
    modifies e
    ensures e.Valid()
    ensures e.Now() == CommittedState(p.target, c, base, window, 1 + accepted)
    ensures row == p.target.head(FeedAll(p.target, base, window[..1 + accepted]))
  {
    var committed := 1 + accepted;
    var current := noBonus && committed == |window|;
    var plan := PlanAfterRound(c.needsSequential, true, k, accepted, current);
    CutWindow(p.target, base, window, committed);
    CutWindow(p.target, base, window, 0);
    assert window[..|window|] == window;
    row := logits[accepted];
    if plan.replay {
      var _ := ReplayCommitted(e, p, ckpt, window, committed, base);
      row := p.target.head(e.Now());
    } else {
      e.SetLen(ckpt.len + committed);
      assert e.rows[..e.len] == FeedAll(p.target, base, window).kv[..|base.kv| + committed];
    }
  }

  /** Feeds the batch window and judges its drafts. */
  method JudgeBatch(e: Engine, p: Request, first: Token, drafts: seq<Token>, noBonus: bool, gen: seq<Token>, rng: Rng,
                    remaining: nat)
    returns (window: seq<Token>, logits: seq<Logits>, v: Verdict)
    requires e.Valid() && e.target == p.target && remaining > 0
    modifies e
    ensures e.Valid() && e.Now() == FeedAll(p.target, old(e.Now()), window)
    ensures window == SpecWindow(first, drafts, noBonus) == [first] + drafts[..|window| - 1]
    ensures |window| == 1 + WindowDrafts(|drafts|, noBonus)
    ensures WindowLogits(p.target, old(e.Now()), window, logits)
    ensures v == VerdictAt(p, Feed(p.target, old(e.Now()), first), drafts, |drafts|, gen, rng, remaining)
    ensures v.mismatch.Some? ==> v.accepted < |drafts|
  {
    ghost var base := e.Now();
    window := SpecWindow(first, drafts, noBonus);
    assert window == [first] + drafts[..|window| - 1];
    logits := e.ForwardWindow(window);
    WindowAlong(p, base, first, drafts, window, logits);
    v := JudgeWindow(p, logits[..|drafts|], drafts, |drafts|, gen, rng, remaining);
    VerdictSound(p, Feed(p.target, base, first), drafts, |drafts|, gen, rng, remaining);
  }

  lemma BatchIs(p: Request, c: SpecConfig, base: State, first: Token, drafts: seq<Token>, v: Verdict, row: Logits,
                now: State, gen: seq<Token>, rng: Rng, remaining: nat)
    requires remaining > 0 && !c.SequentialVerify() && v.accepted <= |drafts|
    requires v == VerdictAt(p, Feed(p.target, base, first), drafts, |drafts|, gen, rng, remaining)
    requires !(WithoutRow(p, c) && v.accepted == |drafts|)
    requires var window := SpecWindow(first, drafts, WithoutRow(p, c));
             && row == p.target.head(FeedAll(p.target, base, window[..1 + v.accepted]))
             && now == CommittedState(p.target, c, base, window, 1 + v.accepted)
    ensures var r := if v.Ended() then SpecDone(v)
                     else SpecNext(v, if p.greedy then Some(p.argmax(row)) else None, row);
            SpecRoundOf(p, c, base, first, drafts, gen, rng, remaining) == (r, now)
  {
  }

  lemma CloseIs(p: Request, c: SpecConfig, base: State, first: Token, drafts: seq<Token>, v: Verdict, r: SpecRound,
                now: State, gen: seq<Token>, rng: Rng, remaining: nat)
    requires remaining > 0 && !c.SequentialVerify() && WithoutRow(p, c) && v.accepted == |drafts|
    requires v == VerdictAt(p, Feed(p.target, base, first), drafts, |drafts|, gen, rng, remaining)
    requires r == if v.remaining == 0 then SpecDone(v)
                  else if v.stopped || drafts == [] then SpecFailed
                  else SpecNext(v, Some(GreedyNext(p, now)), p.target.head(now))
    requires r.SpecNext? ==> now == FeedAll(p.target, Feed(p.target, base, first), drafts)
    ensures SpecRoundOf(p, c, base, first, drafts, gen, rng, remaining).0 == r
    ensures r.SpecNext? ==> SpecRoundOf(p, c, base, first, drafts, gen, rng, remaining).1 == now
  {
  }

  method BatchVerify(e: Engine, p: Request, c: SpecConfig, ckpt: Checkpoint, first: Token, drafts: seq<Token>,
                     gen: seq<Token>, rng: Rng, remaining: nat)
    returns (r: SpecRound)
    requires e.Valid() && e.target == p.target && remaining > 0 && !p.ignoreEos && !c.SequentialVerify()
    requires ckpt == Checkpoint(|e.Now().kv|, e.Now().rec) && |drafts| <= c.specK
    modifies e
    ensures e.Valid()
    ensures var (round, after) := SpecRoundOf(p, c, old(e.Now()), first, drafts, gen, rng, remaining);
            r == round && (r.SpecNext? ==> e.Now() == after)
    ensures RoundSettled(p, c, Feed(p.target, old(e.Now()), first), drafts, r, e.Now())
  {
    ghost var base := e.Now();
    ghost var s := Feed(p.target, base, first);
    var k, noBonus := |drafts|, WithoutRow(p, c);
    var window, logits, v := JudgeBatch(e, p, first, drafts, noBonus, gen, rng, remaining);
    if noBonus && v.accepted == k {
      assert drafts[..k] == drafts;
      r := CloseNoBonus(e, p, c, first, drafts, v, base, s);
      CloseIs(p, c, base, first, drafts, v, r, e.Now(), gen, rng, remaining);
      return;
    }
    r := SettleBatch(e, p, c, ckpt, first, drafts, window, logits, v, base, gen, rng, remaining);
  }

  /** A round that ends inside its window. */
  method SettleBatch(e: Engine, p: Request, c: SpecConfig, ckpt: Checkpoint, first: Token, drafts: seq<Token>,
                     window: seq<Token>, logits: seq<Logits>, v: Verdict, ghost base: State, ghost gen: seq<Token>,
                     ghost rng: Rng, ghost remaining: nat)
    returns (r: SpecRound)
    requires e.Valid() && e.target == p.target && remaining > 0 && !c.SequentialVerify()
    requires ckpt == Checkpoint(|base.kv|, base.rec) && |drafts| <= c.specK
    requires window == SpecWindow(first, drafts, WithoutRow(p, c)) && e.Now() == FeedAll(p.target, base, window)
    requires WindowLogits(p.target, base, window, logits)
    requires v.accepted <= |drafts| && !(WithoutRow(p, c) && v.accepted == |drafts|)
    requires v == VerdictAt(p, Feed(p.target, base, first), drafts, |drafts|, gen, rng, remaining)
    modifies e
    ensures e.Valid()
    ensures SpecRoundOf(p, c, base, first, drafts, gen, rng, remaining) == (r, e.Now())
    ensures RoundSettled(p, c, Feed(p.target, base, first), drafts, r, e.Now())
  {
    var row := CommitBatch(e, p, c, ckpt, window, |drafts|, v.accepted, WithoutRow(p, c), logits, base);
    BatchIs(p, c, base, first, drafts, v, row, e.Now(), gen, rng, remaining);
    if CutsSafely(c, p.greedy, p.target.recurrent) { CommitsPrefix(p, c, base, first, drafts, v.accepted); }
    r := if v.Ended() then SpecDone(v) else SpecNext(v, if p.greedy then Some(p.argmax(row)) else None, row);
  }

  /** Full acceptance without a bonus row. The error returns: no drafts to take the last of,
      and a client that declines the last draft with budget left. */
  method CloseNoBonus(e: Engine, p: Request, c: SpecConfig, first: Token, drafts: seq<Token>, v: Verdict,
                      ghost base: State, ghost s: State)
    returns (r: SpecRound)
    requires e.Valid() && e.target == p.target && p.greedy && !p.ignoreEos
    requires s == Feed(p.target, base, first) && e.Now() == FeedAll(p.target, base, SpecWindow(first, drafts, true))
    requires v.accepted == |drafts| && v.mismatch == None
    modifies e
    ensures e.Valid()
    ensures r.SpecFailed? <==> v.remaining != 0 && (v.stopped || drafts == [])
    ensures !r.SpecFailed? ==> r.v == v && (r.SpecDone? <==> v.Ended())
    ensures r.SpecNext? ==>
              && e.Now() == FeedAll(p.target, s, drafts[..v.accepted])
              && r.forced == Some(GreedyNext(p, e.Now()))
    ensures r.SpecNext? ==> r.logits == p.target.head(e.Now())
    ensures r.SpecDone? && drafts != [] ==> e.Now() == FeedAll(p.target, s, drafts[..v.accepted - 1])
    ensures r.SpecDone? && drafts == [] ==> e.Now() == s
  {
    FeedAllCons(p.target, base, first, []);
    assert [first] + [] == [first] && drafts[..|drafts|] == drafts;
    if drafts != [] { FullWindow(p.target, base, first, drafts, SpecWindow(first, drafts, true)); }
    if drafts != [] { FeedAllCons(p.target, base, first, drafts[..|drafts| - 1]); }
    if v.remaining == 0 {
      return SpecDone(v);
    }
    if v.stopped || drafts == [] {
      return SpecFailed;
    }
    var row := e.Forward(drafts[|drafts| - 1]);
    return SpecNext(v, Some(p.argmax(row)), row);
  }

  /** One round after `first` went out, `before` holding what was out ahead of it. */
  method SpecTurn(e: Engine, p: Request, c: SpecConfig, drafter: Drafter, round: nat, first: Token, gen: seq<Token>,
                  rng: Rng, remaining: nat, ghost base: State, ghost before: seq<Token>)
    returns (r: SpecRound)
    requires e.Valid() && e.target == p.target && remaining > 0 && !p.ignoreEos && gen == before + [first]
    requires CutsSafely(c, p.greedy, p.target.recurrent) ==> e.Now() == FeedAll(p.target, base, before)
    modifies e
    ensures e.Valid()
    ensures var drafts := DraftsOf(drafter, round, Min(c.specK, remaining));
            var (it, after) := SpecRoundOf(p, c, old(e.Now()), first, drafts, gen, rng, remaining);
            r == it && (r.SpecNext? ==> e.Now() == after)
    ensures CutsSafely(c, p.greedy, p.target.recurrent) ==>
              && (r.SpecDone? ==> Settled(p.target, base, e.Now(), r.v.gen))
              && (r.SpecNext? ==> e.Now() == FeedAll(p.target, base, r.v.gen))
  {
    var k := Min(c.specK, remaining);
    var drafts, ckpt := DraftAndRestore(e, drafter, round, k);
    ghost var start := e.Now();
    if c.SequentialVerify() {
      r := SequentialVerify(e, p, c, first, drafts, gen, rng, remaining);
    } else {
      r := BatchVerify(e, p, c, ckpt, first, drafts, gen, rng, remaining);
    }
    if CutsSafely(c, p.greedy, p.target.recurrent) {
      FeedAllSnoc(p.target, base, before, first);
      TurnCaches(p, c, start, base, first, drafts, gen, rng, remaining, r, e.Now());
    }
  }

  /** The engine's tokens after a coherent round. */
  lemma TurnCaches(p: Request, c: SpecConfig, start: State, base: State, first: Token, drafts: seq<Token>,
                   gen: seq<Token>, rng: Rng, remaining: nat, r: SpecRound, now: State)
    requires remaining > 0 && gen != [] && |drafts| <= c.specK && CutsSafely(c, p.greedy, p.target.recurrent)
    requires Feed(p.target, start, first) == FeedAll(p.target, base, gen)
    requires r == SpecRoundOf(p, c, start, first, drafts, gen, rng, remaining).0
    requires r.SpecNext? ==> now == SpecRoundOf(p, c, start, first, drafts, gen, rng, remaining).1
    requires RoundSettled(p, c, Feed(p.target, start, first), drafts, r, now)
    ensures r.SpecDone? ==> Settled(p.target, base, now, r.v.gen)
    ensures r.SpecNext? ==> now == FeedAll(p.target, base, r.v.gen)
  {
    var s := Feed(p.target, start, first);
    VerdictSound(p, s, drafts, |drafts|, gen, rng, remaining);
    if r.SpecDone? {
      RoundSettles(p.target, base, gen, drafts, r.v.accepted, now);
    } else if r.SpecNext? {
      NextCaches(p, c, start, first, drafts, gen, rng, remaining);
      FeedAllConcat(p.target, base, gen, drafts[..r.v.accepted]);
    }
  }

  lemma NextCaches(p: Request, c: SpecConfig, start: State, first: Token, drafts: seq<Token>, gen: seq<Token>, rng: Rng,
                   remaining: nat)
    requires remaining > 0 && |drafts| <= c.specK && CutsSafely(c, p.greedy, p.target.recurrent)
    ensures var (r, now) := SpecRoundOf(p, c, start, first, drafts, gen, rng, remaining);
            r.SpecNext? ==>
              && r.v == VerdictAt(p, Feed(p.target, start, first), drafts, |drafts|, gen, rng, remaining)
              && now == FeedAll(p.target, Feed(p.target, start, first), drafts[..r.v.accepted])
  {
    var v := VerdictAt(p, Feed(p.target, start, first), drafts, |drafts|, gen, rng, remaining);
    assert drafts[..|drafts|] == drafts;
    if !c.SequentialVerify() && !(WithoutRow(p, c) && v.accepted == |drafts|) {
      CommitsPrefix(p, c, start, first, drafts, v.accepted);
    }
  }

  /** From a loop state on, the run is `run`. */
  ghost predicate Runs(p: Request, c: SpecConfig, drafter: Drafter, now: State, gen: seq<Token>, rng: Rng,
                       remaining: nat, rounds: nat, forced: Option<Token>, logits: Logits, run: SpecResult)
  {
    RunSpec(p, c, drafter, now, gen, rng, remaining, rounds, forced, logits) == run
  }

  ghost predicate RunsRound(p: Request, c: SpecConfig, drafter: Drafter, now: State, first: Token, gen: seq<Token>,
                            rng: Rng, remaining: nat, rounds: nat, run: SpecResult)
    requires remaining > 0
  {
    RunRound(p, c, drafter, now, first, gen, rng, remaining, rounds) == run
  }

  /** One pass: the first token stops, ends the run or opens a round. */
  lemma RunStep(p: Request, c: SpecConfig, drafter: Drafter, now: State, gen: seq<Token>, rng: Rng, remaining: nat,
                rounds: nat, forced: Option<Token>, logits: Logits, run: SpecResult)
    requires remaining > 0 && Runs(p, c, drafter, now, gen, rng, remaining, rounds, forced, logits, run)
    ensures var (first, rng') := if forced.Some? then (forced.value, rng) else Choose(p, logits, gen, rng);
            if ShouldStop(p, first) then run == SpecOk(gen)
            else if !p.keepGoing(gen + [first]) || remaining == 1 then run == SpecOk(gen + [first])
            else RunsRound(p, c, drafter, now, first, gen + [first], rng', remaining - 1, rounds, run)
  {
  }

  /** A round by its result, in the run. */
  lemma RunRoundIs(p: Request, c: SpecConfig, drafter: Drafter, now: State, first: Token, gen: seq<Token>, rng: Rng,
                   remaining: nat, rounds: nat, r: SpecRound, after: State, run: SpecResult)
    requires remaining > 0 && RunsRound(p, c, drafter, now, first, gen, rng, remaining, rounds, run)
    requires var drafts := DraftsOf(drafter, rounds, Min(c.specK, remaining));
             var (it, state) := SpecRoundOf(p, c, now, first, drafts, gen, rng, remaining);
             r == it && (r.SpecNext? ==> after == state)
    ensures match r
            case SpecFailed => run == SpecError
            case SpecDone(v) => run == SpecOk(v.gen)
            case SpecNext(v, forced, logits) =>
              Runs(p, c, drafter, after, v.gen, v.rng, v.remaining, rounds + 1, forced, logits, run)
  {
  }

  /** The same round, as a step of the run. */
  method RunTurn(e: Engine, p: Request, c: SpecConfig, drafter: Drafter, round: nat, first: Token, gen: seq<Token>,
                 rng: Rng, remaining: nat, ghost base: State, ghost before: seq<Token>, ghost run: SpecResult)
    returns (r: SpecRound)
    requires e.Valid() && e.target == p.target && remaining > 0 && !p.ignoreEos && gen == before + [first]
    requires CutsSafely(c, p.greedy, p.target.recurrent) ==> e.Now() == FeedAll(p.target, base, before)
    requires RunsRound(p, c, drafter, e.Now(), first, gen, rng, remaining, round, run)
    modifies e
    ensures e.Valid()
    ensures r.SpecFailed? ==> run == SpecError
    ensures r.SpecDone? ==> run == SpecOk(r.v.gen)
    ensures r.SpecNext? ==>
              Runs(p, c, drafter, e.Now(), r.v.gen, r.v.rng, r.v.remaining, round + 1, r.forced, r.logits, run)
    ensures r.SpecNext? ==> r.v.remaining <= remaining
    ensures CutsSafely(c, p.greedy, p.target.recurrent) ==>
              && (r.SpecDone? ==> Settled(p.target, base, e.Now(), r.v.gen))
              && (r.SpecNext? ==> e.Now() == FeedAll(p.target, base, r.v.gen))
  {
    ghost var now := e.Now();
    r := SpecTurn(e, p, c, drafter, round, first, gen, rng, remaining, base, before);
    RunRoundIs(p, c, drafter, now, first, gen, rng, remaining, round, r, e.Now(), run);
  }

  /** Generation. The loop never looks at `ignoreEos`, so it serves the request without it. */
  method Generate(e: Engine, q: Request, c: SpecConfig, drafter: Drafter, start: Logits, rng0: Rng, maxTokens: nat)
    returns (r: SpecResult)
    requires e.Valid() && e.target == q.target && start == q.target.head(e.Now())
    modifies e
    ensures e.Valid()
    ensures r == SpecRunOf(q, c, drafter, old(e.Now()), rng0, maxTokens)
    ensures r.SpecOk? && CutsSafely(c, q.greedy, q.target.recurrent) ==>
              Settled(q.target, old(e.Now()), e.Now(), r.tokens)
    ensures r.SpecOk? && CutsSafely(c, q.greedy, q.target.recurrent) && DrawsOnce(q, c) ==>
              r.tokens == Plain(q.(ignoreEos := false), old(e.Now()), [], rng0, maxTokens)
  {
    var p := q.(ignoreEos := false);
    ghost var base := e.Now();
    ghost var run := SpecRunOf(q, c, drafter, base, rng0, maxTokens);
    if CutsSafely(c, q.greedy, q.target.recurrent) && DrawsOnce(q, c) {
      SpecRunDelivers(q, c, drafter, base, rng0, maxTokens);
    }
    var gen: seq<Token>, rng, remaining, rounds := [], rng0, maxTokens, 0;
    var logits, forced := start, None;
    while remaining > 0
      invariant e.Valid()
      invariant CutsSafely(c, p.greedy, p.target.recurrent) ==> e.Now() == FeedAll(p.target, base, gen)
      invariant Runs(p, c, drafter, e.Now(), gen, rng, remaining, rounds, forced, logits, run)
    {
      RunStep(p, c, drafter, e.Now(), gen, rng, remaining, rounds, forced, logits, run);
      var first;
      if forced.Some? {
        first := forced.value;
      } else {
        var (token, rng') := Choose(p, logits, gen, rng);
        first, rng := token, rng';
      }
      if ShouldStop(p, first) {
        return SpecOk(gen);
      }
      assert (gen + [first])[..|gen|] == gen;
      if !q.keepGoing(gen + [first]) || remaining == 1 {
        return SpecOk(gen + [first]);
      }
      var out := RunTurn(e, p, c, drafter, rounds, first, gen + [first], rng, remaining - 1, base, gen, run);
      match out {
        case SpecFailed =>
          return SpecError;
        case SpecDone(v) =>
          return SpecOk(v.gen);
        case SpecNext(v, forced', logits') =>
          gen, rng, remaining := v.gen, v.rng, v.remaining;
          forced, logits, rounds := forced', logits', rounds + 1;
      }
    }
    return SpecOk(gen);
  }
}
