/** The DFlash, DSpark and external-drafter loops against plain decoding. */
module DrafterLoops {
  import opened Model
  import opened EngineState
  import opened Rounds
  import opened MtpVerify
  import opened MtpRounds
  import opened DrafterRounds
  import opened DraftedRun

  /** A round's report. `fed` drafts are cached, and the correction is set unless the round ended. */
  datatype Drafted = Drafted(gen: seq<Token>, remaining: nat, ended: bool, correction: Option<Token>, rng: Rng,
                             emitted: nat, fed: nat)

  /** The contract of every round: it reports the target's verdict and correction, and leaves
      in the engine what its commit keeps of the drafts it says it fed. */
  ghost predicate DraftedDone(q: Request, kind: Commit, base: State, current: Token, drafts: seq<Token>,
                              gen: seq<Token>, rng: Rng, remaining: nat, o: Drafted, now: State)
  {
    remaining > 0 &&
    var s := Feed(q.target, base, current);
    var v := VerdictAt(q, s, drafts, |drafts|, gen, rng, remaining);
    && o.gen == v.gen && o.remaining == v.remaining && o.emitted == v.accepted && (o.ended <==> v.Ended())
    && (!o.ended ==>
          && o.fed == o.emitted && o.correction.Some?
          && (o.correction.value, o.rng) == CorrectionOf(q, s, drafts, v))
    && o.fed <= |drafts|
    && (kind.Length? || kind.Lanes? || kind.Prefixes? ==> o.fed == o.emitted)
    && (kind.Tokenwise? ==> o.fed <= o.emitted <= o.fed + 1)
    && now == KeptState(q.target, kind, s, drafts, o.fed)
  }

  lemma {:induction false} JudgeSlice(q: Request, logits: seq<Logits>, drafts: seq<Token>, limit: nat, i: nat,
                                      gen: seq<Token>, rng: Rng, remaining: nat)
    requires i <= |drafts| <= |logits| && remaining > 0
    ensures Judge(q, logits, drafts, limit, i, gen, rng, remaining) ==
            Judge(q, logits[..|drafts|], drafts, limit, i, gen, rng, remaining)
    decreases |drafts| - i
  {
    if i < |drafts| {
      var (target, rng') := Choose(q, logits[i], gen, rng);
      if i >= limit { JudgeSlice(q, logits, drafts, limit, i + 1, gen, rng', remaining); }
      else if remaining > 1 { JudgeSlice(q, logits, drafts, limit, i + 1, gen + [drafts[i]], rng', remaining - 1); }
    }
  }

  /** Both phases on a verified window, bonus row included. */
  method JudgeTwoPhase(q: Request, logits: seq<Logits>, drafts: seq<Token>, gen0: seq<Token>, rng0: Rng,
                       remaining0: nat, ghost s: State)
    returns (a: Agreement, o: Outcome)
    requires |logits| == |drafts| + 1 && remaining0 > 0
    requires logits[..|drafts|] == Along(q, s, drafts)
    ensures a.accepted <= |drafts|
    ensures PhasesMatch(q, VerdictAt(q, s, drafts, |drafts|, gen0, rng0, remaining0), a, o, logits[|drafts|])
    ensures Sound(q, s, VerdictAt(q, s, drafts, |drafts|, gen0, rng0, remaining0), drafts, |drafts|, gen0, rng0,
                  remaining0)
  {
    JudgeSlice(q, logits, drafts, |drafts|, 0, gen0, rng0, remaining0);
    VerdictSound(q, s, drafts, |drafts|, gen0, rng0, remaining0);
    if q.greedy {
      var targets := Targets(q, logits);
      var n := GreedyMatchedPrefix(drafts, targets);
      a := Agreement(n, Some(targets[n]), false, rng0);
      GreedyMatches(q, logits, drafts, gen0, rng0, remaining0);
    } else {
      a := SampleWindowPrefix(q, logits, drafts, gen0, rng0);
      SampledMatches(q, logits, drafts, 0, gen0, rng0, remaining0);
    }
    o := EmitAccepted(q, drafts, a.accepted, gen0, remaining0);
  }

  predicate Proper(p: nat, n: nat) { 1 <= p < n }

  function ProperPrefixes(n: nat): set<nat> {
    set p: nat | p < n && Proper(p, n)
  }

  /** Runs the window, on the side for a lane commit, and reads its logits along the drafts. */
  method OpenDrafted(e: Engine, q: Request, kind: Commit, current: Token, drafts: seq<Token>, window: seq<Token>)
    returns (logits: seq<Logits>, commit: WindowCommit, snaps: map<nat, Payload>)
    requires e.Valid() && e.target == q.target && !kind.Tokenwise? && window == [current] + drafts
    modifies e
    ensures e.Valid() && |logits| == |window|
    ensures var s := Feed(q.target, old(e.Now()), current);
      logits[..|drafts|] == Along(q, s, drafts) && logits[|drafts|] == q.target.head(FeedAll(q.target, s, drafts))
    ensures kind.Lanes? ==>
              && e.Now() == old(e.Now()) && commit.basePos == old(e.len) && |commit.rows| == |commit.recs| == |window|
              && old(e.Now()).kv + commit.rows == FeedAll(e.target, old(e.Now()), window).kv
              && forall n | 1 <= n <= |window| :: commit.recs[n - 1] == FeedAll(e.target, old(e.Now()), window[..n]).rec
    ensures !kind.Lanes? ==>
              && e.Now() == FeedAll(e.target, old(e.Now()), window)
              && forall n | 1 <= n < |window| ::
                   n in snaps && snaps[n] == PayloadAfter(e.target, old(e.Now()), window, n, false)
  {
    ghost var base := e.Now();
    assert drafts[..|drafts|] == drafts;
    commit, snaps := WindowCommit(0, [], []), map[];
    if kind.Lanes? {
      logits, commit := e.ForwardPure(window);
      forall n | 1 <= n <= |window| ensures commit.recs[n - 1] == FeedAll(e.target, base, window[..n]).rec {
        var i := n - 1;
        assert commit.recs[i] == FeedAll(e.target, base, window[..i + 1]).rec;
      }
    } else {
      logits, snaps := e.ForwardWindowSnapshots(window, ProperPrefixes(|window|), false);
      forall n | 1 <= n < |window| ensures n in snaps {
        assert Proper(n, |window|);
      }
    }
    WindowAlong(q, base, current, drafts, window, logits);
  }

  /** What is kept of a window is its current token and what is kept of the drafts after it. */
  lemma KeptWindow(t: Target, kind: Commit, base: State, current: Token, drafts: seq<Token>, n: nat)
    requires n <= |drafts|
    ensures KeptState(t, kind, base, [current] + drafts, 1 + n) == KeptState(t, kind, Feed(t, base, current), drafts, n)
  {
    var window := [current] + drafts;
    CommittedPrefix(t, base, current, drafts, window, n);
    FeedAllCons(t, base, current, drafts);
  }

  /** Matching phases and a kept prefix are a round's report. */
  lemma WindowDone(q: Request, kind: Commit, base: State, current: Token, drafts: seq<Token>, gen0: seq<Token>,
                   rng0: Rng, remaining0: nat, a: Agreement, out: Outcome, fed: nat, now: State)
    requires remaining0 > 0 && !kind.Tokenwise? && a.accepted <= |drafts|
    requires var s := Feed(q.target, base, current);
             var v := VerdictAt(q, s, drafts, |drafts|, gen0, rng0, remaining0);
             PhasesMatch(q, v, a, out, q.target.head(FeedAll(q.target, s, drafts)))
    requires fed == if kind.Device? then a.accepted else out.emitted
    requires fed <= |drafts| && now == KeptState(q.target, kind, Feed(q.target, base, current), drafts, fed)
    ensures DraftedDone(q, kind, base, current, drafts, gen0, rng0, remaining0,
                        Drafted(out.gen, out.remaining, a.stopped || out.stopped || out.remaining == 0,
                                a.correction, a.rng, out.emitted, fed), now)
  {
  }

  /** Verifies `[current] + drafts` as one window and commits what the loop keeps of it. */
  method WindowDrafted(e: Engine, q: Request, kind: Commit, current: Token, drafts: seq<Token>, gen0: seq<Token>,
                       rng0: Rng, remaining0: nat)
    returns (o: Drafted)
    requires e.Valid() && e.target == q.target && drafts != [] && remaining0 > 0 && !kind.Tokenwise?
    modifies e
    ensures e.Valid()
    ensures DraftedDone(q, kind, old(e.Now()), current, drafts, gen0, rng0, remaining0, o, e.Now())
  {
    ghost var base := e.Now();
    ghost var s := Feed(q.target, base, current);
    var window, baseLen := [current] + drafts, e.len;
    var logits, commit, snaps := OpenDrafted(e, q, kind, current, drafts, window);
    var a, out := JudgeTwoPhase(q, logits, drafts, gen0, rng0, remaining0, s);
    var fed := if kind.Device? then a.accepted else out.emitted;
    KeepPrefix(e, kind, commit, snaps, window, 1 + fed, baseLen, base);
    KeptWindow(q.target, kind, base, current, drafts, fed);
    WindowDone(q, kind, base, current, drafts, gen0, rng0, remaining0, a, out, fed, e.Now());
    o := Drafted(out.gen, out.remaining, a.stopped || out.stopped || out.remaining == 0, a.correction, a.rng,
                 out.emitted, fed);
  }

  /** Leaves the engine on the first `n` tokens of the window. */
  method KeepPrefix(e: Engine, kind: Commit, commit: WindowCommit, snaps: map<nat, Payload>, window: seq<Token>, n: nat,
                    baseLen: nat, ghost base: State)
    requires e.Valid() && 0 < n <= |window| && baseLen == |base.kv| && !kind.Tokenwise?
    requires kind.Lanes? ==>
               && e.Now() == base && commit.basePos == baseLen && |commit.rows| == |commit.recs| == |window|
               && base.kv + commit.rows == FeedAll(e.target, base, window).kv
               && commit.recs[n - 1] == FeedAll(e.target, base, window[..n]).rec
    requires !kind.Lanes? ==>
               && e.Now() == FeedAll(e.target, base, window)
               && (n < |window| ==> n in snaps && snaps[n] == PayloadAfter(e.target, base, window, n, false))
    modifies e
    ensures e.Valid()
    ensures e.Now() == KeptState(e.target, kind, base, window, n)
  {
    CutWindow(e.target, base, window, n);
    assert window[..|window|] == window;
    if kind.Lanes? {
      CommitLanes(e.target, base, window, commit, n);
      var ok := e.CommitWindow(commit, n);
    } else if n < |window| {
      if kind.Length? {
        e.SetLen(baseLen + n);
      } else {
        if !e.target.recurrent { FeedAllNotRecurrent(e.target, base, window); }
        e.RestorePrefix(baseLen, n, snaps[n]);
      }
      assert e.rows[..e.len] == FeedAll(e.target, base, window).kv[..|base.kv| + n];
    }
  }

  /** A verdict reached token by token, `fed` drafts in, is a round's report. */
  lemma TokenwiseDone(q: Request, base: State, current: Token, drafts: seq<Token>, gen0: seq<Token>, rng0: Rng,
                      remaining0: nat, v: Verdict, now: State, fed: nat, correction: Option<Token>, rng: Rng)
    requires remaining0 > 0
    requires v == VerdictAt(q, Feed(q.target, base, current), drafts, |drafts|, gen0, rng0, remaining0)
    requires fed <= v.accepted <= fed + 1 && now == At(q.target, Feed(q.target, base, current), drafts, fed)
    requires !v.Ended() ==>
               && fed == v.accepted && correction.Some?
               && (correction.value, rng) == if v.mismatch.Some? then (v.mismatch.value, v.rng)
                                             else Choose(q, q.target.head(now), v.gen, v.rng)
    ensures DraftedDone(q, Tokenwise, base, current, drafts, gen0, rng0, remaining0,
                        Drafted(v.gen, v.remaining, v.Ended(), correction, rng, v.accepted, fed), now)
  {
    AtIsFeedAll(q.target, Feed(q.target, base, current), drafts, fed);
    assert drafts[..|drafts|] == drafts;
  }

  /** The external drafter's sequential verify. */
  method TokenwiseDrafted(e: Engine, q: Request, current: Token, drafts: seq<Token>, gen0: seq<Token>, rng0: Rng,
                          remaining0: nat)
    returns (o: Drafted)
    requires e.Valid() && e.target == q.target && drafts != [] && remaining0 > 0
    modifies e
    ensures e.Valid()
    ensures DraftedDone(q, Tokenwise, old(e.Now()), current, drafts, gen0, rng0, remaining0, o, e.Now())
  {
    ghost var base := e.Now();
    ghost var s := Feed(q.target, base, current);
    var v, fed := SequentialJudge(e, q, current, drafts, gen0, rng0, remaining0, base, s);
    var correction, rng := v.mismatch, v.rng;
    if !v.Ended() && v.accepted == |drafts| {
      FedStep(q, base, current, drafts, |drafts|);
      var logits := e.Forward(WindowToken(current, drafts, |drafts|));
      var (target, rng') := Choose(q, logits, v.gen, v.rng);
      correction, rng, fed := Some(target), rng', fed + 1;
    }
    VerdictSound(q, s, drafts, |drafts|, gen0, rng0, remaining0);
    TokenwiseDone(q, base, current, drafts, gen0, rng0, remaining0, v, e.Now(), fed - 1, correction, rng);
    o := Drafted(v.gen, v.remaining, v.Ended(), correction, rng, v.accepted, fed - 1);
  }

  /** Plain target decoding after a burst of drafted rounds. */
  method FinishWithTarget(e: Engine, q: Request, current: Token, gen0: seq<Token>, rng0: Rng, remaining0: nat)
    returns (gen: seq<Token>)
    requires e.Valid() && e.target == q.target
    modifies e
    ensures e.Valid()
    ensures gen == Plain(q, Feed(q.target, old(e.Now()), current), gen0, rng0, remaining0)
    ensures gen0 <= gen
    ensures var s := Feed(q.target, old(e.Now()), current);
            || e.Now() == FeedAll(q.target, s, gen[|gen0|..])
            || (|gen| > |gen0| && e.Now() == FeedAll(q.target, s, gen[|gen0|..|gen| - 1]))
  {
    var logits := e.Forward(current);
    ghost var s := e.Now();
    ghost var more: seq<Token> := [];
    var rng, remaining := rng0, remaining0;
    gen := gen0;
    while remaining > 0
      invariant e.Valid() && logits == q.target.head(e.Now())
      invariant gen == gen0 + more && e.Now() == FeedAll(q.target, s, more)
      invariant Plain(q, e.Now(), gen, rng, remaining) == Plain(q, s, gen0, rng0, remaining0)
    {
      var (token, rng') := Choose(q, logits, gen, rng);
      if ShouldStop(q, token) {
        return;
      }
      EmitCases(q, e.Now(), token, rng', gen, remaining);
      FeedAllSnoc(q.target, s, more, token);
      gen, rng, remaining := gen + [token], rng', remaining - 1;
      if !q.keepGoing(gen) || remaining == 0 {
        assert gen[|gen0|..|gen| - 1] == more;
        return;
      }
      more := more + [token];
      logits := e.Forward(token);
    }
  }

  lemma SettleFrom(t: Target, base: State, gen0: seq<Token>, gen: seq<Token>, now: State)
    requires gen0 <= gen
    requires var s := FeedAll(t, base, gen0);
             || now == FeedAll(t, s, gen[|gen0|..])
             || (|gen| > |gen0| && now == FeedAll(t, s, gen[|gen0|..|gen| - 1]))
    ensures Settled(t, base, now, gen)
  {
    FeedAllConcat(t, base, gen0, gen[|gen0|..]);
    assert gen0 + gen[|gen0|..] == gen;
    if |gen| > |gen0| {
      FeedAllConcat(t, base, gen0, gen[|gen0|..|gen| - 1]);
      assert gen0 + gen[|gen0|..|gen| - 1] == gen[..|gen| - 1];
    }
  }

  method DraftedRound(e: Engine, q: Request, kind: Commit, current: Token, drafts: seq<Token>, gen0: seq<Token>,
                      rng0: Rng, remaining0: nat)
    returns (o: Drafted)
    requires e.Valid() && e.target == q.target && drafts != [] && remaining0 > 0
    modifies e
    ensures e.Valid()
    ensures DraftedDone(q, kind, old(e.Now()), current, drafts, gen0, rng0, remaining0, o, e.Now())
  {
    if kind.Tokenwise? {
      o := TokenwiseDrafted(e, q, current, drafts, gen0, rng0, remaining0);
    } else {
      o := WindowDrafted(e, q, kind, current, drafts, gen0, rng0, remaining0);
    }
  }

  /** All that is out but the current token is cached. */
  ghost predicate Cached(t: Target, base: State, now: State, gen: seq<Token>, current: Token) {
    gen != [] && gen[|gen| - 1] == current && now == FeedAll(t, base, gen[..|gen| - 1])
  }

  /** What a turn leaves cached when its window was not cut to a stale state: at the end of a
      run the cache is settled unless the device path kept drafts it accepted and did not emit. */
  ghost predicate TurnCached(t: Target, kind: Commit, base: State, turn: DraftedTurn, now: State) {
    match turn
    case TurnEnds(tokens) => kind.Device? || Settled(t, base, now, tokens)
    case TurnGoes(gen, current, _, _) => Cached(t, base, now, gen, current)
  }

  lemma TurnCaches(q: Request, kind: Commit, base: State, start: State, gen: seq<Token>, current: Token,
                   drafts: seq<Token>, rng: Rng, remaining: nat, o: Drafted, now: State)
    requires remaining > 0 && Cached(q.target, base, start, gen, current) && (kind.Length? ==> !q.target.recurrent)
    requires DraftedDone(q, kind, start, current, drafts, gen, rng, remaining, o, now)
    ensures TurnCached(q.target, kind, base, DraftedTurnOf(q, kind, start, gen, current, drafts, rng, remaining).0, now)
  {
    var s := Feed(q.target, start, current);
    var v := VerdictAt(q, s, drafts, |drafts|, gen, rng, remaining);
    VerdictSound(q, s, drafts, |drafts|, gen, rng, remaining);
    KeptIsPrefix(q.target, kind, s, drafts, o.fed);
    FeedAllSnoc(q.target, base, gen[..|gen| - 1], current);
    assert gen[..|gen| - 1] + [current] == gen;
    KeptCaches(q, kind, base, s, gen, drafts, v, o.fed, now);
  }

  lemma KeptCaches(q: Request, kind: Commit, base: State, s: State, gen: seq<Token>, drafts: seq<Token>, v: Verdict,
                   fed: nat, now: State)
    requires gen != [] && s == FeedAll(q.target, base, gen) && fed <= |drafts| && v.accepted <= |drafts|
    requires v.gen == gen + drafts[..v.accepted] && now == FeedAll(q.target, s, drafts[..fed])
    requires (kind.Device? && v.Ended()) || fed <= v.accepted <= fed + 1
    requires !v.Ended() ==> fed == v.accepted
    ensures TurnCached(q.target, kind, base, TurnAfter(q, s, drafts, v), now)
  {
    if fed <= v.accepted <= fed + 1 { RoundSettles(q.target, base, gen, drafts, v.accepted, now); }
    if !v.Ended() {
      var (token, _) := CorrectionOf(q, s, drafts, v);
      assert (v.gen + [token])[..|v.gen|] == v.gen;
      FeedAllConcat(q.target, base, gen, drafts[..v.accepted]);
    }
  }

  /** A round, and the emission of its correction. */
  method Turn(e: Engine, q: Request, kind: Commit, current: Token, drafts: seq<Token>, gen: seq<Token>, rng: Rng,
              remaining: nat, ghost base: State)
    returns (turn: DraftedTurn)
    requires e.Valid() && e.target == q.target && drafts != [] && remaining > 0
    modifies e
    ensures e.Valid()
    ensures var (it, now) := DraftedTurnOf(q, kind, old(e.Now()), gen, current, drafts, rng, remaining);
            turn == it && (turn.TurnGoes? ==> e.Now() == now)
    ensures Cached(q.target, base, old(e.Now()), gen, current) && (kind.Length? ==> !q.target.recurrent) ==>
              TurnCached(q.target, kind, base, turn, e.Now())
  {
    ghost var start := e.Now();
    var o := DraftedRound(e, q, kind, current, drafts, gen, rng, remaining);
    if Cached(q.target, base, start, gen, current) && (kind.Length? ==> !q.target.recurrent) {
      TurnCaches(q, kind, base, start, gen, current, drafts, rng, remaining, o, e.Now());
    }
    if o.ended || ShouldStop(q, o.correction.value) {
      return TurnEnds(o.gen);
    }
    var token := o.correction.value;
    if !q.keepGoing(o.gen + [token]) {
      return TurnEnds(o.gen + [token]);
    }
    return TurnGoes(o.gen + [token], token, o.rng, o.remaining - 1);
  }

  /** Every round commits a settled cache. */
  ghost predicate Settles(plan: DraftPlan, recurrent: bool) {
    && KeepsState(plan, recurrent)
    && forall n {:trigger plan.kinds(n)} | plan.Drafts(n) :: !plan.kinds(n).Device?
  }

  /** A run that ends with a turn does not depend on the state. */
  lemma RunEnds(q: Request, plan: DraftPlan, drafter: (nat, nat) -> seq<Token>, turn: DraftedTurn, s: State, s': State,
                rounds: nat)
    requires turn.TurnEnds? || s == s'
    ensures RunOn(q, plan, drafter, turn, s, rounds) == RunOn(q, plan, drafter, turn, s', rounds)
  {
  }

  /** A turn as a step of the run. */
  method TakeTurn(e: Engine, q: Request, plan: DraftPlan, drafter: (nat, nat) -> seq<Token>, gen: seq<Token>,
                  current: Token, drafts: seq<Token>, rng: Rng, remaining: nat, rounds: nat, ghost base: State,
                  ghost run: DraftedResult)
    returns (turn: DraftedTurn)
    requires e.Valid() && e.target == q.target && remaining > 0 && plan.Drafts(rounds)
    requires drafts == DraftsFor(drafter, rounds, remaining) && drafts != []
    requires KeepsState(plan, q.target.recurrent) ==> Cached(q.target, base, e.Now(), gen, current)
    requires RunDrafted(q, plan, drafter, e.Now(), gen, current, rng, remaining, rounds) == run
    modifies e
    ensures e.Valid()
    ensures turn.TurnGoes? ==> turn.remaining < remaining
    ensures RunOn(q, plan, drafter, turn, e.Now(), rounds) == run
    ensures Settles(plan, q.target.recurrent) && turn.TurnEnds? ==> Settled(q.target, base, e.Now(), turn.tokens)
    ensures KeepsState(plan, q.target.recurrent) && turn.TurnGoes? ==>
              Cached(q.target, base, e.Now(), turn.gen, turn.current)
  {
    ghost var (it, now') := DraftedTurnOf(q, plan.kinds(rounds), e.Now(), gen, current, drafts, rng, remaining);
    TurnRuns(q, plan, drafter, e.Now(), gen, current, rng, remaining, rounds, drafts, it, now', run);
    turn := Turn(e, q, plan.kinds(rounds), current, drafts, gen, rng, remaining, base);
    RunEnds(q, plan, drafter, turn, now', e.Now(), rounds);
  }

  method HandOver(e: Engine, q: Request, gen: seq<Token>, current: Token, rng: Rng, remaining: nat, ghost base: State)
    returns (tokens: seq<Token>)
    requires e.Valid() && e.target == q.target
    modifies e
    ensures e.Valid()
    ensures tokens == Plain(q, Feed(q.target, old(e.Now()), current), gen, rng, remaining)
    ensures Cached(q.target, base, old(e.Now()), gen, current) ==> Settled(q.target, base, e.Now(), tokens)
  {
    ghost var start := e.Now();
    tokens := FinishWithTarget(e, q, current, gen, rng, remaining);
    if Cached(q.target, base, start, gen, current) {
      FeedAllSnoc(q.target, base, gen[..|gen| - 1], current);
      assert gen[..|gen| - 1] + [current] == gen;
      SettleFrom(q.target, base, gen, tokens, e.Now());
    }
  }

  /** Rounds until the budget, a stop, the client, an empty draft or the burst ends them. */
  method DraftedLoop(e: Engine, q: Request, plan: DraftPlan, drafter: (nat, nat) -> seq<Token>, first: Token, rng0: Rng,
                     remaining0: nat, ghost base: State)
    returns (tokens: seq<Token>)
    requires e.Valid() && e.target == q.target && e.Now() == base
    modifies e
    ensures e.Valid()
    ensures tokens == RunDrafted(q, plan, drafter, base, [first], first, rng0, remaining0, 0).tokens
    ensures Settles(plan, q.target.recurrent) ==> Settled(q.target, base, e.Now(), tokens)
  {
    ghost var run := RunDrafted(q, plan, drafter, base, [first], first, rng0, remaining0, 0);
    var gen, current, rng, remaining: nat, rounds := [first], first, rng0, remaining0, 0;
    while remaining > 0
      invariant e.Valid() && plan.Drafts(rounds)
      invariant KeepsState(plan, q.target.recurrent) ==> Cached(q.target, base, e.Now(), gen, current)
      invariant RunDrafted(q, plan, drafter, e.Now(), gen, current, rng, remaining, rounds) == run
    {
      var drafts := DraftsFor(drafter, rounds, remaining);
      if drafts == [] {
        return gen;
      }
      var turn := TakeTurn(e, q, plan, drafter, gen, current, drafts, rng, remaining, rounds, base, run);
      if turn.TurnEnds? {
        return turn.tokens;
      }
      RunGoesOn(q, plan, drafter, turn.gen, turn.current, turn.rng, turn.remaining, e.Now(), rounds, run);
      gen, current, rng, remaining := turn.gen, turn.current, turn.rng, turn.remaining;
      rounds := rounds + 1;
      if plan.HandsOver(rounds) {
        tokens := HandOver(e, q, gen, current, rng, remaining, base);
        return;
      }
    }
    return gen;
  }

  /** The target's own first token opens the run, or is all of it. */
  method Decode(e: Engine, q: Request, plan: DraftPlan, drafter: (nat, nat) -> seq<Token>, start: Logits, rng0: Rng,
                maxTokens: nat)
    returns (tokens: seq<Token>)
    requires e.Valid() && e.target == q.target && start == q.target.head(e.Now())
    modifies e
    ensures e.Valid()
    ensures tokens == DraftedRunOf(q, plan, drafter, old(e.Now()), rng0, maxTokens).tokens
    ensures Settles(plan, q.target.recurrent) ==> Settled(q.target, old(e.Now()), e.Now(), tokens)
  {
    if maxTokens == 0 {
      return [];
    }
    var (first, rng) := Choose(q, start, [], rng0);
    if ShouldStop(q, first) {
      return [];
    }
    assert [first][..0] == [];
    if !q.keepGoing([first]) {
      return [first];
    }
    tokens := DraftedLoop(e, q, plan, drafter, first, rng, maxTokens - 1, e.Now());
  }

  /** Generation by a separate drafter, handing over to the target after the plan's burst of
      rounds if it has one. A round without drafts ends the run early. */
  method Generate(e: Engine, q: Request, plan: DraftPlan, drafter: (nat, nat) -> seq<Token>, start: Logits, rng0: Rng,
                  maxTokens: nat)
    returns (tokens: seq<Token>)
    requires e.Valid() && e.target == q.target && start == q.target.head(e.Now())
    modifies e
    ensures e.Valid()
    ensures tokens == DraftedRunOf(q, plan, drafter, old(e.Now()), rng0, maxTokens).tokens
    ensures Settles(plan, q.target.recurrent) ==> Settled(q.target, old(e.Now()), e.Now(), tokens)
    ensures KeepsState(plan, q.target.recurrent) && !Starves(plan, drafter, maxTokens) ==>
              tokens == Plain(q, old(e.Now()), [], rng0, maxTokens)
  {
    ghost var base := e.Now();
    tokens := Decode(e, q, plan, drafter, start, rng0, maxTokens);
    if KeepsState(plan, q.target.recurrent) {
      DraftedRunDelivers(q, plan, drafter, base, rng0, maxTokens);
    }
  }
}
