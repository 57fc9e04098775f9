/** What the loops with a separate drafter compute, engine state included, as a function of
    the request, the commits and the drafter, and that function against plain decoding. */
module DraftedRun {
  import opened Model
  import opened EngineState
  import opened MtpVerify
  import opened MtpRounds

  /** How a round commits its verified window: by cache length alone (prefill verify), by the
      window's recorded lanes (batched decode chain), by recorded prefix states (DSpark and
      the device verify), or by having fed token by token. */
  datatype Commit = Length | Lanes | Prefixes | Device | Tokenwise

  /** The commit of each round, and the number of rounds after which the target goes on alone. */
  datatype DraftPlan = DraftPlan(kinds: nat -> Commit, burst: Option<nat>)
  {
    /** The loop can come to draft in round `n`. */
    predicate Drafts(n: nat) {
      burst.Some? ==> n < 1 || n < burst.value
    }

    predicate HandsOver(rounds: nat) {
      burst.Some? && rounds >= burst.value
    }
  }

  /** What a commit keeps of tokens fed from `base`, `n` of them in the cache. */
  function KeptState(t: Target, kind: Commit, base: State, toks: seq<Token>, n: nat): State
    requires n <= |toks|
  {
    if kind.Length? then CutTo(t, base, toks, n) else FeedAll(t, base, toks[..n])
  }

  /** The token after the accepted drafts: the mismatch, or a choice from the bonus row. */
  function CorrectionOf(q: Request, s: State, drafts: seq<Token>, v: Verdict): (Token, Rng) {
    if v.mismatch.Some? then (v.mismatch.value, v.rng)
    else Choose(q, q.target.head(FeedAll(q.target, s, drafts)), v.gen, v.rng)
  }

  /** A round that ends the run, or goes on with all of `gen` but its last token `current` cached. */
  datatype DraftedTurn = TurnEnds(tokens: seq<Token>)
                       | TurnGoes(gen: seq<Token>, current: Token, rng: Rng, remaining: nat)

  datatype DraftedResult = DraftedResult(tokens: seq<Token>, starved: bool)

  /** The drafts of a round, cut to the budget. */
  function DraftsFor(drafter: (nat, nat) -> seq<Token>, round: nat, remaining: nat): (drafts: seq<Token>)
    ensures |drafts| <= remaining
  {
    var drafts := drafter(round, remaining);
    if |drafts| > remaining then drafts[..remaining] else drafts
  }

  /** The correction goes out after the verdict's drafts, unless one of them ends the run. */
  ghost function TurnAfter(q: Request, s: State, drafts: seq<Token>, v: Verdict): DraftedTurn {
    if v.Ended() then TurnEnds(v.gen)
    else
      var (token, rng) := CorrectionOf(q, s, drafts, v);
      if ShouldStop(q, token) || v.remaining == 0 then TurnEnds(v.gen)
      else if !q.keepGoing(v.gen + [token]) then TurnEnds(v.gen + [token])
      else TurnGoes(v.gen + [token], token, rng, v.remaining - 1)
  }

  /** One round and the emission of its correction; the state is that of a round that goes on. */
  ghost function DraftedTurnOf(q: Request, kind: Commit, now: State, gen: seq<Token>, current: Token,
                               drafts: seq<Token>, rng: Rng, remaining: nat): (r: (DraftedTurn, State))
    requires remaining > 0
    ensures r.0.TurnGoes? ==> r.0.remaining < remaining
  {
    var s := Feed(q.target, now, current);
    var v := VerdictAt(q, s, drafts, |drafts|, gen, rng, remaining);
    (TurnAfter(q, s, drafts, v), KeptState(q.target, kind, s, drafts, v.accepted))
  }

  /** The loop once `gen` is out and all of it but its last token `current` is cached. */
  ghost function RunDrafted(q: Request, plan: DraftPlan, drafter: (nat, nat) -> seq<Token>, now: State, gen: seq<Token>,
                            current: Token, rng: Rng, remaining: nat, rounds: nat): DraftedResult
    decreases remaining, 2
  {
    if remaining == 0 then DraftedResult(gen, false)
    else
      var drafts := DraftsFor(drafter, rounds, remaining);
      if drafts == [] then DraftedResult(gen, true)
      else RunTurn(q, plan, drafter, now, gen, current, drafts, rng, remaining, rounds)
  }

  ghost function RunTurn(q: Request, plan: DraftPlan, drafter: (nat, nat) -> seq<Token>, now: State, gen: seq<Token>,
                         current: Token, drafts: seq<Token>, rng: Rng, remaining: nat, rounds: nat): DraftedResult
    requires remaining > 0
    decreases remaining, 1
  {
    var (turn, now') := DraftedTurnOf(q, plan.kinds(rounds), now, gen, current, drafts, rng, remaining);
    RunOn(q, plan, drafter, turn, now', rounds)
  }

  ghost function RunOn(q: Request, plan: DraftPlan, drafter: (nat, nat) -> seq<Token>, turn: DraftedTurn, now: State,
                       rounds: nat): DraftedResult
    decreases if turn.TurnGoes? then turn.remaining + 1 else 0, 0
  {
    match turn
    case TurnEnds(tokens) => DraftedResult(tokens, false)
    case TurnGoes(gen, current, rng, remaining) =>
      if plan.HandsOver(rounds + 1) then
        DraftedResult(Plain(q, Feed(q.target, now, current), gen, rng, remaining), false)
      else RunDrafted(q, plan, drafter, now, gen, current, rng, remaining, rounds + 1)
  }

  /** A whole run: the target's own first token, then drafted rounds. */
  ghost function DraftedRunOf(q: Request, plan: DraftPlan, drafter: (nat, nat) -> seq<Token>, base: State, rng0: Rng,
                              maxTokens: nat): DraftedResult
  {
    if maxTokens == 0 then DraftedResult([], false)
    else
      var (first, rng) := Choose(q, q.target.head(base), [], rng0);
      if ShouldStop(q, first) then DraftedResult([], false)
      else if !q.keepGoing([first]) then DraftedResult([first], false)
      else RunDrafted(q, plan, drafter, base, [first], first, rng, maxTokens - 1, 0)
  }

  /** A round by its result, in the run. */
  lemma TurnRuns(q: Request, plan: DraftPlan, drafter: (nat, nat) -> seq<Token>, now: State, gen: seq<Token>,
                 current: Token, rng: Rng, remaining: nat, rounds: nat, drafts: seq<Token>, turn: DraftedTurn,
                 now': State, run: DraftedResult)
    requires remaining > 0 && drafts == DraftsFor(drafter, rounds, remaining) && drafts != []
    requires DraftedTurnOf(q, plan.kinds(rounds), now, gen, current, drafts, rng, remaining) == (turn, now')
    requires RunDrafted(q, plan, drafter, now, gen, current, rng, remaining, rounds) == run
    ensures RunOn(q, plan, drafter, turn, now', rounds) == run
  {
    assert RunTurn(q, plan, drafter, now, gen, current, drafts, rng, remaining, rounds) == run;
  }

  /** A run that goes on does so with the target or with another round. */
  lemma RunGoesOn(q: Request, plan: DraftPlan, drafter: (nat, nat) -> seq<Token>, gen: seq<Token>, current: Token,
                  rng: Rng, remaining: nat, now: State, rounds: nat, run: DraftedResult)
    requires RunOn(q, plan, drafter, TurnGoes(gen, current, rng, remaining), now, rounds) == run
    ensures run == if plan.HandsOver(rounds + 1)
                   then DraftedResult(Plain(q, Feed(q.target, now, current), gen, rng, remaining), false)
                   else RunDrafted(q, plan, drafter, now, gen, current, rng, remaining, rounds + 1)
  {
  }

  // ---- The run against plain decoding ----

  /** No round cuts a recurrent window by its length. */
  ghost predicate KeepsState(plan: DraftPlan, recurrent: bool) {
    recurrent ==> forall n {:trigger plan.kinds(n)} | plan.Drafts(n) :: !plan.kinds(n).Length?
  }

  /** A round the loop can reach was asked for drafts and had none. */
  ghost predicate Starves(plan: DraftPlan, drafter: (nat, nat) -> seq<Token>, maxTokens: nat) {
    exists n: nat, k: nat :: plan.Drafts(n) && k > 0 && n + k < maxTokens && drafter(n, k) == []
  }

  lemma KeptIsPrefix(t: Target, kind: Commit, base: State, toks: seq<Token>, n: nat)
    requires n <= |toks| && (kind.Length? ==> !t.recurrent)
    ensures KeptState(t, kind, base, toks, n) == FeedAll(t, base, toks[..n])
  {
    CutWindow(t, base, toks, n);
  }

  /** A turn's promise: the plain output, or a state from which plain decoding reaches it. */
  ghost predicate TurnFaithful(q: Request, turn: DraftedTurn, now: State, goal: seq<Token>) {
    match turn
    case TurnEnds(tokens) => tokens == goal
    case TurnGoes(gen, current, rng, remaining) => goal == Plain(q, Feed(q.target, now, current), gen, rng, remaining)
  }

  /** The correction is the token the plain run goes on with. */
  lemma CorrectionFaithful(q: Request, s: State, drafts: seq<Token>, gen: seq<Token>, rng: Rng, remaining: nat,
                           v: Verdict)
    requires remaining > 0 && v == VerdictAt(q, s, drafts, |drafts|, gen, rng, remaining)
    ensures v.Ended() ==> Plain(q, s, gen, rng, remaining) == v.gen
    ensures !v.Ended() ==>
              var (token, rng') := CorrectionOf(q, s, drafts, v);
              && v.remaining > 0
              && Plain(q, s, gen, rng, remaining) ==
                 Emit(q, FeedAll(q.target, s, drafts[..v.accepted]), token, rng', v.gen, v.remaining)
  {
    VerdictSound(q, s, drafts, |drafts|, gen, rng, remaining);
    AtIsFeedAll(q.target, s, drafts, v.accepted);
    assert drafts[..|drafts|] == drafts;
  }

  lemma DraftedTurnFaithful(q: Request, kind: Commit, now: State, gen: seq<Token>, current: Token, drafts: seq<Token>,
                            rng: Rng, remaining: nat)
    requires remaining > 0 && (kind.Length? ==> !q.target.recurrent)
    ensures var (turn, now') := DraftedTurnOf(q, kind, now, gen, current, drafts, rng, remaining);
            TurnFaithful(q, turn, now', Plain(q, Feed(q.target, now, current), gen, rng, remaining))
  {
    var s := Feed(q.target, now, current);
    var v := VerdictAt(q, s, drafts, |drafts|, gen, rng, remaining);
    CorrectionFaithful(q, s, drafts, gen, rng, remaining, v);
    TurnAfterFaithful(q, s, drafts, v, Plain(q, s, gen, rng, remaining));
    KeptIsPrefix(q.target, kind, s, drafts, v.accepted);
  }

  lemma TurnAfterFaithful(q: Request, s: State, drafts: seq<Token>, v: Verdict, goal: seq<Token>)
    requires v.accepted <= |drafts|
    requires v.Ended() ==> goal == v.gen
    requires !v.Ended() ==>
               var (token, rng) := CorrectionOf(q, s, drafts, v);
               && v.remaining > 0
               && goal == Emit(q, FeedAll(q.target, s, drafts[..v.accepted]), token, rng, v.gen, v.remaining)
    ensures TurnFaithful(q, TurnAfter(q, s, drafts, v), FeedAll(q.target, s, drafts[..v.accepted]), goal)
  {
    if !v.Ended() {
      var (token, rng) := CorrectionOf(q, s, drafts, v);
      if !ShouldStop(q, token) {
        EmitCases(q, FeedAll(q.target, s, drafts[..v.accepted]), token, rng, v.gen, v.remaining);
      }
    }
  }

  /** From every loop state the run is plain decoding's, or the first part of it. */
  lemma {:induction false} RunDraftedFaithful(q: Request, plan: DraftPlan, drafter: (nat, nat) -> seq<Token>,
                                              now: State, gen: seq<Token>, current: Token, rng: Rng, remaining: nat,
                                              rounds: nat)
    requires KeepsState(plan, q.target.recurrent) && plan.Drafts(rounds)
    ensures var run := RunDrafted(q, plan, drafter, now, gen, current, rng, remaining, rounds);
            var goal := Plain(q, Feed(q.target, now, current), gen, rng, remaining);
            run.tokens <= goal && (!run.starved ==> run.tokens == goal)
    decreases remaining
  {
    var drafts := DraftsFor(drafter, rounds, remaining);
    PlainExtends(q, Feed(q.target, now, current), gen, rng, remaining);
    if remaining > 0 && drafts != [] {
      var run := RunDrafted(q, plan, drafter, now, gen, current, rng, remaining, rounds);
      var (turn, now') := DraftedTurnOf(q, plan.kinds(rounds), now, gen, current, drafts, rng, remaining);
      DraftedTurnFaithful(q, plan.kinds(rounds), now, gen, current, drafts, rng, remaining);
      TurnRuns(q, plan, drafter, now, gen, current, rng, remaining, rounds, drafts, turn, now', run);
      if turn.TurnGoes? && !plan.HandsOver(rounds + 1) {
        RunDraftedFaithful(q, plan, drafter, now', turn.gen, turn.current, turn.rng, turn.remaining, rounds + 1);
      }
    }
  }

  /** A run starves only in a round it can reach, asked for at least one draft. */
  lemma {:induction false} RunDraftedStarves(q: Request, plan: DraftPlan, drafter: (nat, nat) -> seq<Token>, now: State,
                                             gen: seq<Token>, current: Token, rng: Rng, remaining: nat, rounds: nat,
                                             maxTokens: nat)
    requires plan.Drafts(rounds) && rounds + remaining < maxTokens
    requires RunDrafted(q, plan, drafter, now, gen, current, rng, remaining, rounds).starved
    ensures Starves(plan, drafter, maxTokens)
    decreases remaining
  {
    var drafts := DraftsFor(drafter, rounds, remaining);
    if drafts == [] {
      assert drafter(rounds, remaining) == [];
    } else {
      var (turn, now') := DraftedTurnOf(q, plan.kinds(rounds), now, gen, current, drafts, rng, remaining);
      var run := RunDrafted(q, plan, drafter, now, gen, current, rng, remaining, rounds);
      TurnRuns(q, plan, drafter, now, gen, current, rng, remaining, rounds, drafts, turn, now', run);
      RunDraftedStarves(q, plan, drafter, now', turn.gen, turn.current, turn.rng, turn.remaining, rounds + 1,
                        maxTokens);
    }
  }

  /** For every drafter, sampler, callback, stop set and burst, when no recurrent window is cut
      by length: a run returns the plain output, or the first part of it when a round it
      reached had no drafts. */
  lemma DraftedRunDelivers(q: Request, plan: DraftPlan, drafter: (nat, nat) -> seq<Token>, base: State, rng0: Rng,
                           maxTokens: nat)
    requires KeepsState(plan, q.target.recurrent)
    ensures var run := DraftedRunOf(q, plan, drafter, base, rng0, maxTokens);
            var goal := Plain(q, base, [], rng0, maxTokens);
            && run.tokens <= goal
            && (!Starves(plan, drafter, maxTokens) ==> !run.starved)
            && (!run.starved ==> run.tokens == goal)
  {
    if maxTokens > 0 {
      var (first, rng) := Choose(q, q.target.head(base), [], rng0);
      assert [] + [first] == [first];
      if !ShouldStop(q, first) && q.keepGoing([first]) {
        EmitCases(q, base, first, rng, [], maxTokens);
        RunDraftedFaithful(q, plan, drafter, base, [first], first, rng, maxTokens - 1, 0);
        if DraftedRunOf(q, plan, drafter, base, rng0, maxTokens).starved {
          RunDraftedStarves(q, plan, drafter, base, [first], first, rng, maxTokens - 1, 0, maxTokens);
        }
      }
    }
  }
}
