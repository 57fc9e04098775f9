/** What the in-model multi-token-prediction loop computes, as a function of the request, the
    configuration and the drafter, and that function against plain decoding. */
module MtpRun {
  import opened Model
  import opened MtpVerify
  import opened MtpRoutes
  import opened MtpRounds

  // ---- The run ----

  /** How far the next runway may reach. */
  function NextConfidence(c: Config, extra: nat, k: nat, draftK: nat, accepted: nat, confidence: nat): nat {
    if extra > 0 then (if accepted > k then Max(confidence + (accepted - k), 1) else 0)
    else if accepted == draftK then (if c.runway then Max(confidence, 1) else confidence)
    else 0
  }

  /** What one pass of the loop without a runway leads to. */
  datatype MtpTurn =
    | TurnFailed
    | TurnDone(tokens: seq<Token>)
    | TurnNext(gen: seq<Token>, rng: Rng, remaining: nat, next: Token, runway: seq<Token>, confidence: nat)

  /** The round after `gen` went out, judged from the target's own predictions. */
  ghost function RoundOf(q: Request, c: Config, base: State, drafts: seq<Token>, k: nat, confidence: nat,
                         gen: seq<Token>, rng: Rng, remaining: nat): (t: MtpTurn)
    requires 0 < k <= |drafts| && remaining > 0
    ensures t.TurnNext? ==> 0 < t.remaining <= remaining
  {
    var s := FeedAll(q.target, base, gen);
    var v := VerdictAt(q, s, drafts, k, gen, rng, remaining);
    if CutFails(c, k, |drafts|, v.accepted) then TurnFailed
    else if v.Ended() then TurnDone(v.gen)
    else
      var (next, rng') := NextOf(q, c, k, |drafts|, FeedAll(q.target, s, drafts[..v.accepted]), v);
      TurnNext(v.gen, rng', v.remaining, next, drafts[v.emitted..v.accepted],
               NextConfidence(c, |drafts| - k, k, |drafts|, v.accepted, confidence))
  }

  /** Drafts the round accepted but did not emit. */
  ghost function HeldOf(q: Request, base: State, drafts: seq<Token>, k: nat, gen: seq<Token>, rng: Rng,
                        remaining: nat): seq<Token>
    requires remaining > 0
  {
    var v := VerdictAt(q, FeedAll(q.target, base, gen), drafts, k, gen, rng, remaining);
    drafts[v.emitted..v.accepted]
  }

  /** How many drafts a turn asks for: to emit, and to verify beyond those. */
  function Asked(c: Config, remaining: nat, confidence: nat): (nat, nat)
    requires remaining > 1
  {
    var k := EffectiveK(c, remaining - 1);
    (k, RunwayExtra(c, k, remaining - 1, confidence))
  }

  /** The current token stops the run or is the last one out: there is no round. */
  predicate RoundFree(q: Request, current: Token, gen: seq<Token>, remaining: nat) {
    ShouldStop(q, current) || !q.keepGoing(gen + [current]) || remaining <= 1
  }

  ghost function TurnOf(q: Request, c: Config, drafter: (nat, nat) -> seq<Token>, base: State, gen: seq<Token>,
                        current: Token, rng: Rng, remaining: nat, rounds: nat, confidence: nat): (t: MtpTurn)
    requires remaining > 0
    ensures t.TurnNext? ==> 0 < t.remaining < remaining
  {
    if RoundFree(q, current, gen, remaining) then TurnDone(if ShouldStop(q, current) then gen else gen + [current])
    else
      var (k, extra) := Asked(c, remaining, confidence);
      var drafts := drafter(rounds, k + extra);
      if |drafts| != k + extra then TurnFailed
      else RoundOf(q, c, base, drafts, k, confidence, gen + [current], rng, remaining - 1)
  }

  /** What a run returns, and the accepted drafts that a stop kept from going out. */
  datatype Run = Error | Done(tokens: seq<Token>, undelivered: seq<Token>)

  ghost function UndeliveredOf(q: Request, c: Config, drafter: (nat, nat) -> seq<Token>, base: State, gen: seq<Token>,
                               current: Token, rng: Rng, remaining: nat, rounds: nat, confidence: nat): seq<Token>
    requires remaining > 0
  {
    if RoundFree(q, current, gen, remaining) then []
    else
      var (k, extra) := Asked(c, remaining, confidence);
      HeldOf(q, base, drafter(rounds, k + extra), k, gen + [current], rng, remaining - 1)
  }

  /** The loop from a state with `unread` runway tokens, `resume` standing behind them. */
  ghost function RunFrom(q: Request, c: Config, drafter: (nat, nat) -> seq<Token>, base: State, gen: seq<Token>,
                         current: Token, rng: Rng, remaining: nat, rounds: nat, confidence: nat, unread: seq<Token>,
                         resume: Token): Run
    decreases remaining, 1
  {
    if remaining == 0 then Done(gen, [])
    else if unread != [] then
      var token := unread[0];
      if ShouldStop(q, token) then Done(gen, [])
      else if !q.keepGoing(gen + [token]) || remaining == 1 then Done(gen + [token], [])
      else RunFrom(q, c, drafter, base, gen + [token], if |unread| == 1 then resume else token, rng, remaining - 1,
                   rounds, confidence, unread[1..], resume)
    else RunTurn(q, c, drafter, base, gen, current, rng, remaining, rounds, confidence)
  }

  /** The loop from a state without a runway. */
  ghost function RunTurn(q: Request, c: Config, drafter: (nat, nat) -> seq<Token>, base: State, gen: seq<Token>,
                         current: Token, rng: Rng, remaining: nat, rounds: nat, confidence: nat): Run
    requires remaining > 0
    decreases remaining, 0
  {
    match TurnOf(q, c, drafter, base, gen, current, rng, remaining, rounds, confidence)
    case TurnFailed => Error
    case TurnDone(tokens) =>
      Done(tokens, UndeliveredOf(q, c, drafter, base, gen, current, rng, remaining, rounds, confidence))
    case TurnNext(gen', rng', remaining', next, runway, confidence') =>
      RunFrom(q, c, drafter, base, gen', next, rng', remaining', rounds + 1, confidence', runway, next)
  }

  lemma RunPops(q: Request, c: Config, drafter: (nat, nat) -> seq<Token>, base: State, gen: seq<Token>, current: Token,
                rng: Rng, remaining: nat, rounds: nat, confidence: nat, unread: seq<Token>, resume: Token)
    requires remaining > 0 && unread != []
    ensures RunFrom(q, c, drafter, base, gen, current, rng, remaining, rounds, confidence, unread, resume) ==
            if ShouldStop(q, unread[0]) then Done(gen, [])
            else if !q.keepGoing(gen + [unread[0]]) || remaining == 1 then Done(gen + [unread[0]], [])
            else RunFrom(q, c, drafter, base, gen + [unread[0]], if |unread| == 1 then resume else unread[0], rng,
                         remaining - 1, rounds, confidence, unread[1..], resume)
  {
  }

  lemma RunTurns(q: Request, c: Config, drafter: (nat, nat) -> seq<Token>, base: State, gen: seq<Token>, current: Token,
                 rng: Rng, remaining: nat, rounds: nat, confidence: nat, resume: Token, t: MtpTurn)
    requires remaining > 0 && t == TurnOf(q, c, drafter, base, gen, current, rng, remaining, rounds, confidence)
    ensures var run := RunFrom(q, c, drafter, base, gen, current, rng, remaining, rounds, confidence, [], resume);
            && (t.TurnFailed? ==> run.Error?)
            && (t.TurnDone? ==>
                  run == Done(t.tokens, UndeliveredOf(q, c, drafter, base, gen, current, rng, remaining, rounds,
                                                      confidence)))
            && (t.TurnNext? ==>
                  run == RunFrom(q, c, drafter, base, t.gen, t.next, t.rng, t.remaining, rounds + 1, t.confidence,
                                 t.runway, t.next))
  {
  }

  /** A round by its verdict and next token. */
  lemma RoundIs(q: Request, c: Config, base: State, drafts: seq<Token>, k: nat, confidence: nat, gen: seq<Token>,
                rng: Rng, remaining: nat, v: Verdict, next: Token, rng': Rng)
    requires 0 < k <= |drafts| && remaining > 0 && v.accepted <= |drafts|
    requires VerdictAt(q, FeedAll(q.target, base, gen), drafts, k, gen, rng, remaining) == v
    requires !CutFails(c, k, |drafts|, v.accepted)
    requires !v.Ended() ==>
               NextOf(q, c, k, |drafts|, FeedAll(q.target, FeedAll(q.target, base, gen), drafts[..v.accepted]), v)
                 == (next, rng')
    ensures v.emitted <= v.accepted && HeldOf(q, base, drafts, k, gen, rng, remaining) == drafts[v.emitted..v.accepted]
    ensures RoundOf(q, c, base, drafts, k, confidence, gen, rng, remaining) ==
            if v.Ended() then TurnDone(v.gen)
            else TurnNext(v.gen, rng', v.remaining, next, drafts[v.emitted..v.accepted],
                          NextConfidence(c, |drafts| - k, k, |drafts|, v.accepted, confidence))
  {
  }

  lemma TurnIsRound(q: Request, c: Config, drafter: (nat, nat) -> seq<Token>, base: State, gen: seq<Token>,
                    current: Token, rng: Rng, remaining: nat, rounds: nat, confidence: nat, k: nat, extra: nat,
                    drafts: seq<Token>, t: MtpTurn, held: seq<Token>)
    requires !RoundFree(q, current, gen, remaining) && Asked(c, remaining, confidence) == (k, extra)
    requires k > 0 && |drafts| == k + extra && drafts == drafter(rounds, k + extra)
    requires t == RoundOf(q, c, base, drafts, k, confidence, gen + [current], rng, remaining - 1)
    requires held == HeldOf(q, base, drafts, k, gen + [current], rng, remaining - 1)
    ensures TurnOf(q, c, drafter, base, gen, current, rng, remaining, rounds, confidence) == t
    ensures UndeliveredOf(q, c, drafter, base, gen, current, rng, remaining, rounds, confidence) == held
  {
  }

  /** A turn with a round: the run is the one that goes on from it. */
  lemma TurnRuns(q: Request, c: Config, drafter: (nat, nat) -> seq<Token>, base: State, gen: seq<Token>, current: Token,
                 rng: Rng, remaining: nat, rounds: nat, confidence: nat, resume: Token, k: nat, drafts: seq<Token>,
                 t: MtpTurn, held: seq<Token>, run: Run)
    requires !RoundFree(q, current, gen, remaining) && 0 < k <= |drafts|
    requires Asked(c, remaining, confidence) == (k, |drafts| - k) && drafts == drafter(rounds, |drafts|)
    requires t == RoundOf(q, c, base, drafts, k, confidence, gen + [current], rng, remaining - 1) && !t.TurnFailed?
    requires held == HeldOf(q, base, drafts, k, gen + [current], rng, remaining - 1)
    requires run == if t.TurnDone? then Done(t.tokens, held)
                    else RunFrom(q, c, drafter, base, t.gen, t.next, t.rng, t.remaining, rounds + 1, t.confidence,
                                 t.runway, t.next)
    ensures RunFrom(q, c, drafter, base, gen, current, rng, remaining, rounds, confidence, [], resume) == run
  {
    TurnIsRound(q, c, drafter, base, gen, current, rng, remaining, rounds, confidence, k, |drafts| - k, drafts, t,
                held);
    RunTurns(q, c, drafter, base, gen, current, rng, remaining, rounds, confidence, resume, t);
  }

  /** A whole run after `base`. */
  ghost function RunOf(q: Request, c: Config, drafter: (nat, nat) -> seq<Token>, base: State, rng0: Rng,
                       maxTokens: nat): Run
  {
    if maxTokens == 0 then Done([], [])
    else if c.execution.VulkanFullpath? && !q.greedy then Error
    else
      var (first, rng) := Choose(q, q.target.head(base), [], rng0);
      RunFrom(q, c, drafter, base, [], first, rng, maxTokens, 0, 0, [], first)
  }

  // ---- What a configuration can do ----

  /** Some round may get back by replay, whose next token is a raw argmax. */
  predicate ReplayPossible(c: Config, recurrent: bool) {
    recurrent && !c.cuda && Checkpointed(c) && c.specK > if c.noBonusOverride == Some(true) then 2 else 1
  }

  /** Some round may have no bonus row, so that its next token is a greedy one. */
  predicate NoBonusPossible(c: Config) {
    WindowExecution(c) &&
    if c.noBonusOverride.Some? then c.noBonusOverride.value else c.execution.DeviceResident? && c.specK > 1
  }

  /** The most drafts a round may verify beyond the ones it emits. */
  function RunwayDepth(c: Config): nat {
    if !c.runway || !c.execution.DeviceResident? then 0
    else if c.runwayMaxExtra.Some? then c.runwayMaxExtra.value
    else Max(2 * Max(c.specK, 1), 2)
  }

  /** The requests for which every source of a next token is the request's own sampler. */
  predicate Lossless(q: Request, c: Config) {
    && (ReplayPossible(c, q.target.recurrent) ==> q.greedy && !q.ignoreEos)
    && (NoBonusPossible(c) ==> q.greedy)
    && (RunwayDepth(c) > 0 ==> q.greedy)
  }

  /** A run that returned `tokens` and kept `undelivered` back, against the plain run: what is
      missing is exactly `undelivered`, and only a stop right behind it, drafted past the
      emit limit and within the budget, can keep anything back. */
  ghost predicate Delivered(q: Request, c: Config, base: State, limit: nat, run: Run, goal: seq<Token>) {
    run.Done? ==>
      && |run.tokens| <= limit
      && run.tokens <= goal <= run.tokens + run.undelivered
      && (run.tokens == goal <==> run.undelivered == [])
      && (run.undelivered != [] ==>
            && |run.undelivered| < RunwayDepth(c)
            && |run.tokens + run.undelivered| < limit
            && !ShouldStop(q, run.undelivered[0])
            && ShouldStop(q, GreedyNext(q, FeedAll(q.target, base, run.tokens + run.undelivered))))
  }

  // ---- The run against plain decoding ----

  /** The loop's state: everything on the runway is the plain run's own continuation. */
  ghost predicate LoopState(q: Request, c: Config, base: State, gen: seq<Token>, current: Token, rng: Rng,
                            remaining: nat, unread: seq<Token>, resume: Token, goal: seq<Token>)
  {
    if unread == [] then goal == Emit(q, FeedAll(q.target, base, gen), current, rng, gen, remaining)
    else
      && q.greedy && RunwayDepth(c) > 0
      && goal == Plain(q, FeedAll(q.target, base, gen), gen, rng, remaining)
      && GreedyRun(q, base, gen + unread, |gen|, |gen + unread|)
      && resume == GreedyNext(q, FeedAll(q.target, base, gen + unread))
  }

  /** Reading the runway: its head is the plain run's next token. */
  lemma RunwayHead(q: Request, c: Config, base: State, gen: seq<Token>, current: Token, rng: Rng, remaining: nat,
                   unread: seq<Token>, resume: Token, goal: seq<Token>)
    requires LoopState(q, c, base, gen, current, rng, remaining, unread, resume, goal)
    requires unread != [] && remaining > 0
    ensures !ShouldStop(q, unread[0])
    ensures goal == Emit(q, FeedAll(q.target, base, gen), unread[0], rng, gen, remaining)
  {
    var all := gen + unread;
    assert all[|gen|] == unread[0] && all[..|gen|] == gen;
    assert Picked(q, base, all, |gen|);
    AtIsFeedAll(q.target, base, all, |gen|);
  }

  /** Emitting the runway's head leaves a loop state with the rest of it. */
  lemma RunwayStep(q: Request, c: Config, base: State, gen: seq<Token>, current: Token, rng: Rng, remaining: nat,
                   unread: seq<Token>, resume: Token, goal: seq<Token>)
    requires LoopState(q, c, base, gen, current, rng, remaining, unread, resume, goal)
    requires unread != [] && remaining > 1 && q.keepGoing(gen + [unread[0]])
    ensures LoopState(q, c, base, gen + [unread[0]], if |unread| == 1 then resume else unread[0], rng, remaining - 1,
                      unread[1..], resume, goal)
  {
    var gen', rest := gen + [unread[0]], unread[1..];
    assert gen' + rest == gen + unread;
    RunwayHead(q, c, base, gen, current, rng, remaining, unread, resume, goal);
    EmitCases(q, FeedAll(q.target, base, gen), unread[0], rng, gen, remaining);
    FeedAllSnoc(q.target, base, gen, unread[0]);
    if rest == [] { assert gen' == gen + unread; }
  }

  /** Drafts fed after what was generated are a run over the whole token list. */
  lemma Rebase(q: Request, base: State, gen0: seq<Token>, drafts: seq<Token>, lo: nat, hi: nat)
    requires lo <= hi <= |drafts|
    requires GreedyRun(q, FeedAll(q.target, base, gen0), drafts, lo, hi)
    ensures GreedyRun(q, base, gen0 + drafts[..hi], |gen0| + lo, |gen0| + hi)
  {
    var all, s := gen0 + drafts[..hi], FeedAll(q.target, base, gen0);
    forall j | |gen0| + lo <= j < |gen0| + hi
      ensures Picked(q, base, all, j)
    {
      var i := j - |gen0|;
      assert Picked(q, s, drafts, i);
      assert all[j] == drafts[i] && all[..j] == gen0 + drafts[..i];
      AtIsFeedAll(q.target, base, all, j);
      AtIsFeedAll(q.target, s, drafts, i);
      FeedAllConcat(q.target, base, gen0, drafts[..i]);
    }
  }

  /** Wherever a lossless round took its next token from, it is the target's choice. */
  lemma NextIsTargets(q: Request, c: Config, s: State, drafts: seq<Token>, k: nat, v: Verdict, goal: seq<Token>)
    requires Lossless(q, c) && !v.Ended() && v.emitted <= v.accepted <= |drafts|
    requires 0 < k <= |drafts| && k <= Max(c.specK, 1) && (k < |drafts| ==> q.greedy && c.execution.DeviceResident?)
    requires Faithful(q, s, v, drafts, goal)
    ensures var now := FeedAll(q.target, s, drafts[..v.accepted]);
            var (next, rng) := NextOf(q, c, k, |drafts|, now, v);
            && (v.accepted == v.emitted ==> goal == Emit(q, now, next, rng, v.gen, v.remaining))
            && (v.accepted > v.emitted ==> next == GreedyNext(q, now) && rng == v.rng)
  {
    AtIsFeedAll(q.target, s, drafts, v.accepted);
  }

  /** A continuing round hands the loop a state: the emitted drafts are out, the accepted
      rest is the runway, and the next token is the target's. */
  lemma RoundContinues(q: Request, c: Config, base: State, gen: seq<Token>, drafts: seq<Token>, k: nat, remaining: nat,
                       v: Verdict, goal: seq<Token>)
    requires Lossless(q, c) && Accounted(v, drafts, k, gen, remaining) && !v.Ended()
    requires 0 < k <= |drafts| && k <= Max(c.specK, 1)
    requires k < |drafts| ==> c.execution.DeviceResident? && RunwayDepth(c) > 0
    requires Faithful(q, FeedAll(q.target, base, gen), v, drafts, goal)
    ensures var now := FeedAll(q.target, FeedAll(q.target, base, gen), drafts[..v.accepted]);
            var (next, rng) := NextOf(q, c, k, |drafts|, now, v);
            LoopState(q, c, base, v.gen, next, rng, v.remaining, drafts[v.emitted..v.accepted], next, goal)
  {
    var s := FeedAll(q.target, base, gen);
    assert v.gen + drafts[v.emitted..v.accepted] == gen + drafts[..v.accepted];
    FeedAllConcat(q.target, base, gen, drafts[..v.accepted]);
    NextIsTargets(q, c, s, drafts, k, v, goal);
    if v.emitted < v.accepted {
      AtIsFeedAll(q.target, s, drafts, v.emitted);
      FeedAllConcat(q.target, base, gen, drafts[..v.emitted]);
      Rebase(q, base, gen, drafts, v.emitted, v.accepted);
    }
  }

  /** Verified drafts that end in a stop are all the plain run has left to emit. */
  lemma {:induction false} UndeliveredTail(q: Request, s: State, drafts: seq<Token>, lo: nat, hi: nat, gen: seq<Token>,
                                           rng: Rng, remaining: nat)
    requires lo <= hi <= |drafts| && q.greedy && GreedyRun(q, s, drafts, lo, hi)
    requires ShouldStop(q, GreedyNext(q, At(q.target, s, drafts, hi)))
    ensures Plain(q, At(q.target, s, drafts, lo), gen, rng, remaining) <= gen + drafts[lo..hi]
    decreases hi - lo
  {
    if lo < hi && remaining > 0 {
      var at, tok := At(q.target, s, drafts, lo), drafts[lo];
      assert Picked(q, s, drafts, lo);
      EmitCases(q, at, tok, rng, gen, remaining);
      assert gen + drafts[lo..hi] == gen + [tok] + drafts[lo + 1..hi];
      if q.keepGoing(gen + [tok]) && remaining > 1 {
        UndeliveredTail(q, s, drafts, lo + 1, hi, gen + [tok], rng, remaining - 1);
      }
    }
  }

  /** A finished round's output is a prefix of the plain run, all of it exactly when no
      accepted draft was held back; behind the held ones stands a stop, itself a draft. */
  lemma RoundFinishes(q: Request, s: State, drafts: seq<Token>, v: Verdict, goal: seq<Token>)
    requires v.Ended() && v.emitted <= v.accepted <= |drafts|
    requires Faithful(q, s, v, drafts, goal)
    ensures v.gen <= goal <= v.gen + drafts[v.emitted..v.accepted]
    ensures v.gen == goal <==> v.accepted == v.emitted
    ensures v.emitted < v.accepted ==>
              && v.accepted < |drafts| && !ShouldStop(q, drafts[v.emitted])
              && ShouldStop(q, GreedyNext(q, At(q.target, s, drafts, v.accepted)))
  {
    if v.emitted < v.accepted {
      UndeliveredTail(q, s, drafts, v.emitted, v.accepted, v.gen, v.rng, v.remaining);
      var at, tok := At(q.target, s, drafts, v.emitted), drafts[v.emitted];
      assert Picked(q, s, drafts, v.emitted);
      EmitCases(q, at, tok, v.rng, v.gen, v.remaining);
      if q.keepGoing(v.gen + [tok]) && v.remaining > 1 {
        PlainExtends(q, Feed(q.target, at, tok), v.gen + [tok], v.rng, v.remaining - 1);
      }
    }
  }

  /** The held drafts of a finished round are the run's undelivered ones. */
  lemma RoundDelivers(q: Request, c: Config, base: State, gen: seq<Token>, drafts: seq<Token>, k: nat, remaining: nat,
                      v: Verdict, goal: seq<Token>)
    requires Accounted(v, drafts, k, gen, remaining) && v.Ended() && v.emitted <= v.accepted
    requires 0 < k <= |drafts| <= remaining && |drafts| - k <= RunwayDepth(c)
    requires Faithful(q, FeedAll(q.target, base, gen), v, drafts, goal)
    ensures Delivered(q, c, base, |gen| + remaining, Done(v.gen, drafts[v.emitted..v.accepted]), goal)
  {
    var s, held := FeedAll(q.target, base, gen), drafts[v.emitted..v.accepted];
    RoundFinishes(q, s, drafts, v, goal);
    assert v.gen + held == gen + drafts[..v.accepted];
    AtIsFeedAll(q.target, s, drafts, v.accepted);
    FeedAllConcat(q.target, base, gen, drafts[..v.accepted]);
    assert held != [] ==> held[0] == drafts[v.emitted];
  }

  lemma AskedBounds(c: Config, remaining: nat, confidence: nat)
    requires remaining > 1
    ensures var (k, extra) := Asked(c, remaining, confidence);
            && 0 < k <= Max(c.specK, 1) && k + extra <= remaining - 1 && extra <= RunwayDepth(c)
            && (extra > 0 ==> k < remaining - 1 && c.execution.DeviceResident?)
  {
  }

  lemma AllDelivered(q: Request, c: Config, base: State, limit: nat, tokens: seq<Token>, goal: seq<Token>)
    requires tokens == goal && |tokens| <= limit
    ensures Delivered(q, c, base, limit, Done(tokens, []), goal)
  {
    assert tokens + [] == tokens;
  }

  /** A pass ends the run as it should or hands on a loop state. */
  ghost predicate TurnGood(q: Request, c: Config, base: State, limit: nat, t: MtpTurn, held: seq<Token>,
                           goal: seq<Token>)
  {
    && (t.TurnDone? ==> Delivered(q, c, base, limit, Done(t.tokens, held), goal))
    && (t.TurnNext? ==>
          && |t.gen| + t.remaining == limit
          && LoopState(q, c, base, t.gen, t.next, t.rng, t.remaining, t.runway, t.next, goal))
  }

  lemma RoundFaithful(q: Request, c: Config, base: State, drafts: seq<Token>, k: nat, confidence: nat, gen: seq<Token>,
                      rng: Rng, remaining: nat, limit: nat, goal: seq<Token>)
    requires Lossless(q, c) && remaining > 0 && limit == |gen| + remaining
    requires goal == Plain(q, FeedAll(q.target, base, gen), gen, rng, remaining)
    requires 0 < k <= |drafts| <= remaining && k <= Max(c.specK, 1) && |drafts| - k <= RunwayDepth(c)
    requires k < |drafts| ==> k < remaining && c.execution.DeviceResident?
    ensures var t := RoundOf(q, c, base, drafts, k, confidence, gen, rng, remaining);
            var held := HeldOf(q, base, drafts, k, gen, rng, remaining);
            TurnGood(q, c, base, limit, t, held, goal)
  {
    var s := FeedAll(q.target, base, gen);
    var v := VerdictAt(q, s, drafts, k, gen, rng, remaining);
    VerdictSound(q, s, drafts, k, gen, rng, remaining);
    if v.Ended() {
      RoundDelivers(q, c, base, gen, drafts, k, remaining, v, goal);
    } else {
      RoundContinues(q, c, base, gen, drafts, k, remaining, v, goal);
    }
  }

  /** One pass without a runway: it ends the run as it should or hands on a loop state. */
  lemma TurnFaithful(q: Request, c: Config, drafter: (nat, nat) -> seq<Token>, base: State, gen: seq<Token>,
                     current: Token, rng: Rng, remaining: nat, rounds: nat, confidence: nat, goal: seq<Token>)
    requires Lossless(q, c) && remaining > 0
    requires goal == Emit(q, FeedAll(q.target, base, gen), current, rng, gen, remaining)
    ensures var t := TurnOf(q, c, drafter, base, gen, current, rng, remaining, rounds, confidence);
            var held := UndeliveredOf(q, c, drafter, base, gen, current, rng, remaining, rounds, confidence);
            TurnGood(q, c, base, |gen| + remaining, t, held, goal)
  {
    if RoundFree(q, current, gen, remaining) {
      FreeTurnFaithful(q, c, base, gen, current, rng, remaining, goal);
    } else {
      var (k, extra) := Asked(c, remaining, confidence);
      AskedBounds(c, remaining, confidence);
      var drafts := drafter(rounds, k + extra);
      if |drafts| == k + extra {
        GoalAfter(q, base, gen, current, rng, remaining);
        RoundTurnFaithful(q, c, base, drafts, k, confidence, gen, current, rng, remaining, goal);
        TurnIsRound(q, c, drafter, base, gen, current, rng, remaining, rounds, confidence, k, extra, drafts,
                    RoundOf(q, c, base, drafts, k, confidence, gen + [current], rng, remaining - 1),
                    HeldOf(q, base, drafts, k, gen + [current], rng, remaining - 1));
      }
    }
  }

  lemma RoundTurnFaithful(q: Request, c: Config, base: State, drafts: seq<Token>, k: nat, confidence: nat,
                          gen: seq<Token>, current: Token, rng: Rng, remaining: nat, goal: seq<Token>)
    requires Lossless(q, c) && remaining > 1
    requires 0 < k <= |drafts| < remaining && k <= Max(c.specK, 1) && |drafts| - k <= RunwayDepth(c)
    requires k < |drafts| ==> c.execution.DeviceResident?
    requires goal == Plain(q, FeedAll(q.target, base, gen + [current]), gen + [current], rng, remaining - 1)
    ensures TurnGood(q, c, base, |gen| + remaining,
                     RoundOf(q, c, base, drafts, k, confidence, gen + [current], rng, remaining - 1),
                     HeldOf(q, base, drafts, k, gen + [current], rng, remaining - 1), goal)
  {
    RoundFaithful(q, c, base, drafts, k, confidence, gen + [current], rng, remaining - 1, |gen| + remaining, goal);
  }

  lemma GoalAfter(q: Request, base: State, gen: seq<Token>, current: Token, rng: Rng, remaining: nat)
    requires !RoundFree(q, current, gen, remaining)
    ensures Emit(q, FeedAll(q.target, base, gen), current, rng, gen, remaining) ==
            Plain(q, FeedAll(q.target, base, gen + [current]), gen + [current], rng, remaining - 1)
  {
    EmitCases(q, FeedAll(q.target, base, gen), current, rng, gen, remaining);
    FeedAllSnoc(q.target, base, gen, current);
  }

  /** A stop, or the last token out. */
  lemma FreeTurnFaithful(q: Request, c: Config, base: State, gen: seq<Token>, current: Token, rng: Rng, remaining: nat,
                         goal: seq<Token>)
    requires remaining > 0 && RoundFree(q, current, gen, remaining)
    requires goal == Emit(q, FeedAll(q.target, base, gen), current, rng, gen, remaining)
    ensures var tokens := if ShouldStop(q, current) then gen else gen + [current];
            Delivered(q, c, base, |gen| + remaining, Done(tokens, []), goal)
  {
    if !ShouldStop(q, current) { EmitCases(q, FeedAll(q.target, base, gen), current, rng, gen, remaining); }
    AllDelivered(q, c, base, |gen| + remaining, if ShouldStop(q, current) then gen else gen + [current], goal);
  }

  /** Every loop state's run delivers the plain run, up to a stop past the emit limit. */
  lemma {:induction false} RunFaithful(q: Request, c: Config, drafter: (nat, nat) -> seq<Token>, base: State,
                                       gen: seq<Token>, current: Token, rng: Rng, remaining: nat, rounds: nat,
                                       confidence: nat, unread: seq<Token>, resume: Token, goal: seq<Token>)
    requires Lossless(q, c) && LoopState(q, c, base, gen, current, rng, remaining, unread, resume, goal)
    ensures Delivered(q, c, base, |gen| + remaining,
                      RunFrom(q, c, drafter, base, gen, current, rng, remaining, rounds, confidence, unread, resume),
                      goal)
    decreases remaining
  {
    if remaining == 0 {
      AllDelivered(q, c, base, |gen|, gen, goal);
    } else if unread != [] {
      var token := unread[0];
      RunwayHead(q, c, base, gen, current, rng, remaining, unread, resume, goal);
      EmitCases(q, FeedAll(q.target, base, gen), token, rng, gen, remaining);
      if !q.keepGoing(gen + [token]) || remaining == 1 {
        AllDelivered(q, c, base, |gen| + remaining, gen + [token], goal);
      } else {
        RunwayStep(q, c, base, gen, current, rng, remaining, unread, resume, goal);
        RunFaithful(q, c, drafter, base, gen + [token], if |unread| == 1 then resume else token, rng, remaining - 1,
                    rounds, confidence, unread[1..], resume, goal);
      }
    } else {
      TurnFaithful(q, c, drafter, base, gen, current, rng, remaining, rounds, confidence, goal);
      var t := TurnOf(q, c, drafter, base, gen, current, rng, remaining, rounds, confidence);
      if t.TurnNext? {
        RunFaithful(q, c, drafter, base, t.gen, t.next, t.rng, t.remaining, rounds + 1, t.confidence, t.runway, t.next,
                    goal);
      }
    }
  }

  /** For every drafter, callback, stop set, depth and budget, a lossless run delivers the
      plain run except for what a stop past the emit limit keeps back. */
  lemma RunDelivers(q: Request, c: Config, drafter: (nat, nat) -> seq<Token>, base: State, rng0: Rng, maxTokens: nat)
    requires Lossless(q, c)
    ensures Delivered(q, c, base, maxTokens, RunOf(q, c, drafter, base, rng0, maxTokens),
                      Plain(q, base, [], rng0, maxTokens))
  {
    if maxTokens == 0 {
      AllDelivered(q, c, base, 0, [], []);
    } else if !(c.execution.VulkanFullpath? && !q.greedy) {
      var (first, rng) := Choose(q, q.target.head(base), [], rng0);
      RunFaithful(q, c, drafter, base, [], first, rng, maxTokens, 0, 0, [], first, Plain(q, base, [], rng0, maxTokens));
    }
  }

  /** A runway of at most one draft loses nothing. */
  lemma ShallowRunDelivers(q: Request, c: Config, drafter: (nat, nat) -> seq<Token>, base: State, rng0: Rng,
                           maxTokens: nat)
    requires Lossless(q, c) && RunwayDepth(c) <= 1
    ensures var run := RunOf(q, c, drafter, base, rng0, maxTokens);
            run.Done? ==> run.tokens == Plain(q, base, [], rng0, maxTokens)
  {
    RunDelivers(q, c, drafter, base, rng0, maxTokens);
  }

  /** A plain run that fills its budget is returned whole. */
  lemma FullRunDelivers(q: Request, c: Config, drafter: (nat, nat) -> seq<Token>, base: State, rng0: Rng,
                        maxTokens: nat)
    requires Lossless(q, c) && |Plain(q, base, [], rng0, maxTokens)| == maxTokens
    ensures var run := RunOf(q, c, drafter, base, rng0, maxTokens);
            run.Done? ==> run.tokens == Plain(q, base, [], rng0, maxTokens)
  {
    RunDelivers(q, c, drafter, base, rng0, maxTokens);
  }

  /** The configurations with an error return of their own: the Vulkan full path does not
      sample, and batch prefill outside the checkpointed class cannot cut a window back, which
      only windows of one token never need. */
  predicate Errs(c: Config, greedy: bool) {
    || (c.execution.VulkanFullpath? && !greedy)
    || (c.execution.BatchPrefill? && !c.needsSequential && !(c.noBonusOverride == Some(true) && c.specK <= 1))
  }

  /** A drafter that gives as many drafts as it is asked for. */
  ghost predicate Obeys(drafter: (nat, nat) -> seq<Token>) {
    forall n: nat, k: nat :: |drafter(n, k)| == k
  }

  /** A run fails only in such a configuration, or on a draft of the wrong length. */
  lemma {:induction false} RunErrs(q: Request, c: Config, drafter: (nat, nat) -> seq<Token>, base: State,
                                   gen: seq<Token>, current: Token, rng: Rng, remaining: nat, rounds: nat,
                                   confidence: nat, unread: seq<Token>, resume: Token)
    requires RunFrom(q, c, drafter, base, gen, current, rng, remaining, rounds, confidence, unread, resume).Error?
    ensures Errs(c, q.greedy) || exists n, k :: 0 < k < remaining && |drafter(n, k)| != k
    decreases remaining
  {
    if unread != [] {
      RunErrs(q, c, drafter, base, gen + [unread[0]], if |unread| == 1 then resume else unread[0], rng, remaining - 1,
              rounds, confidence, unread[1..], resume);
    } else {
      var t := TurnOf(q, c, drafter, base, gen, current, rng, remaining, rounds, confidence);
      if t.TurnNext? {
        RunErrs(q, c, drafter, base, t.gen, t.next, t.rng, t.remaining, rounds + 1, t.confidence, t.runway, t.next);
      } else {
        AskedBounds(c, remaining, confidence);
      }
    }
  }

  /** Without an error return of its configuration, a run whose drafter obeys returns. */
  lemma NeverErrs(q: Request, c: Config, drafter: (nat, nat) -> seq<Token>, base: State, rng0: Rng, maxTokens: nat)
    requires !Errs(c, q.greedy) && Obeys(drafter)
    ensures RunOf(q, c, drafter, base, rng0, maxTokens).Done?
  {
    if maxTokens > 0 {
      var (first, rng) := Choose(q, q.target.head(base), [], rng0);
      var run := RunFrom(q, c, drafter, base, [], first, rng, maxTokens, 0, 0, [], first);
      if run.Error? { RunErrs(q, c, drafter, base, [], first, rng, maxTokens, 0, 0, [], first); }
    }
  }
}
