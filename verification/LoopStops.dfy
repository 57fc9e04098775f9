/** Every loop keeps the stop rule and obeys the client, in every run, whether or not the run is
    the plain one. */
module LoopStops {
  import opened Model
  import opened StopRule
  import opened MtpVerify
  import opened MtpRoutes
  import opened MtpRounds
  import opened MtpRun
  import Spec = SpecRun
  import Drafted = DraftedRun

  /** A round emits no draft that stops, and none after the client declined. */
  lemma {:induction false} JudgeProper(q: Request, logits: seq<Logits>, drafts: seq<Token>, limit: nat, i: nat,
                                       gen: seq<Token>, rng: Rng, remaining: nat)
    requires i <= |drafts| <= |logits| && remaining > 0 && Open(q, 0, gen)
    ensures var v := Judge(q, logits, drafts, limit, i, gen, rng, remaining);
            Proper(q, 0, v.gen) && (!v.Ended() ==> Open(q, 0, v.gen))
    decreases |drafts| - i
  {
    if i < |drafts| {
      var (target, rng') := Choose(q, logits[i], gen, rng);
      if target == drafts[i] && !ShouldStop(q, drafts[i]) {
        var gen' := gen + [drafts[i]];
        ProperSnoc(q, 0, gen, drafts[i]);
        if i >= limit {
          JudgeProper(q, logits, drafts, limit, i + 1, gen, rng', remaining);
        } else if q.keepGoing(gen') && remaining > 1 {
          JudgeProper(q, logits, drafts, limit, i + 1, gen', rng', remaining - 1);
        }
      }
    }
  }

  // ---- The in-model loop ----

  lemma TurnProper(q: Request, c: Config, drafter: (nat, nat) -> seq<Token>, base: State, gen: seq<Token>,
                   current: Token, rng: Rng, remaining: nat, rounds: nat, confidence: nat)
    requires remaining > 0 && Open(q, 0, gen)
    ensures var t := TurnOf(q, c, drafter, base, gen, current, rng, remaining, rounds, confidence);
            && (t.TurnDone? ==> Proper(q, 0, t.tokens))
            && (t.TurnNext? ==> Open(q, 0, t.gen))
  {
    if !ShouldStop(q, current) { ProperSnoc(q, 0, gen, current); }
    if !RoundFree(q, current, gen, remaining) {
      AskedBounds(c, remaining, confidence);
      var (k, extra) := Asked(c, remaining, confidence);
      var drafts := drafter(rounds, k + extra);
      JudgeProper(q, Along(q, FeedAll(q.target, base, gen + [current]), drafts), drafts, k, 0, gen + [current], rng,
                  remaining - 1);
    }
  }

  lemma {:induction false} RunProper(q: Request, c: Config, drafter: (nat, nat) -> seq<Token>, base: State,
                                     gen: seq<Token>, current: Token, rng: Rng, remaining: nat, rounds: nat,
                                     confidence: nat, unread: seq<Token>, resume: Token, run: Run)
    requires Open(q, 0, gen)
    requires run == RunFrom(q, c, drafter, base, gen, current, rng, remaining, rounds, confidence, unread, resume)
    ensures run.Done? ==> Proper(q, 0, run.tokens)
    decreases remaining
  {
    if remaining == 0 {
    } else if unread != [] {
      var token := unread[0];
      if !ShouldStop(q, token) { ProperSnoc(q, 0, gen, token); }
      if !ShouldStop(q, token) && q.keepGoing(gen + [token]) && remaining > 1 {
        RunProper(q, c, drafter, base, gen + [token], if |unread| == 1 then resume else token, rng, remaining - 1,
                  rounds, confidence, unread[1..], resume, run);
      }
    } else {
      var t := TurnOf(q, c, drafter, base, gen, current, rng, remaining, rounds, confidence);
      TurnProper(q, c, drafter, base, gen, current, rng, remaining, rounds, confidence);
      RunTurns(q, c, drafter, base, gen, current, rng, remaining, rounds, confidence, resume, t);
      if t.TurnNext? {
        RunProper(q, c, drafter, base, t.gen, t.next, t.rng, t.remaining, rounds + 1, t.confidence, t.runway, t.next,
                  run);
      }
    }
  }

  /** Every run of the in-model loop. */
  lemma MtpProper(q: Request, c: Config, drafter: (nat, nat) -> seq<Token>, base: State, rng0: Rng, maxTokens: nat)
    ensures var run := RunOf(q, c, drafter, base, rng0, maxTokens); run.Done? ==> Proper(q, 0, run.tokens)
  {
    if maxTokens > 0 {
      var (first, rng) := Choose(q, q.target.head(base), [], rng0);
      var run := RunFrom(q, c, drafter, base, [], first, rng, maxTokens, 0, 0, [], first);
      RunProper(q, c, drafter, base, [], first, rng, maxTokens, 0, 0, [], first, run);
    }
  }

  // ---- The early-exit loop ----

  lemma SpecRoundProper(p: Request, c: Spec.SpecConfig, base: State, first: Token, drafts: seq<Token>, gen: seq<Token>,
                        rng: Rng, remaining: nat)
    requires remaining > 0 && Open(p, 0, gen)
    ensures var r := Spec.SpecRoundOf(p, c, base, first, drafts, gen, rng, remaining).0;
            && (r.SpecDone? ==> Proper(p, 0, r.v.gen))
            && (r.SpecNext? ==> Open(p, 0, r.v.gen))
  {
    JudgeProper(p, Along(p, Feed(p.target, base, first), drafts), drafts, |drafts|, 0, gen, rng, remaining);
  }

  lemma {:induction false} SpecRunProper(p: Request, c: Spec.SpecConfig, drafter: Spec.Drafter, now: State,
                                         gen: seq<Token>, rng: Rng, remaining: nat, rounds: nat,
                                         forced: Option<Token>, logits: Logits)
    requires Open(p, 0, gen)
    ensures var r := Spec.RunSpec(p, c, drafter, now, gen, rng, remaining, rounds, forced, logits);
            r.SpecOk? ==> Proper(p, 0, r.tokens)
    decreases remaining
  {
    if remaining > 0 {
      var (first, rng') := if forced.Some? then (forced.value, rng) else Choose(p, logits, gen, rng);
      if !ShouldStop(p, first) { ProperSnoc(p, 0, gen, first); }
      if !ShouldStop(p, first) && p.keepGoing(gen + [first]) && remaining > 1 {
        var drafts := Spec.DraftsOf(drafter, rounds, Min(c.specK, remaining - 1));
        SpecRoundProper(p, c, now, first, drafts, gen + [first], rng', remaining - 1);
        var (r, after) := Spec.SpecRoundOf(p, c, now, first, drafts, gen + [first], rng', remaining - 1);
        if r.SpecNext? {
          SpecRunProper(p, c, drafter, after, r.v.gen, r.v.rng, r.v.remaining, rounds + 1, r.forced, r.logits);
        }
      }
    }
  }

  /** Every run of the early-exit loop, which stops at an EOS even when it is to be ignored. */
  lemma SpecProper(q: Request, c: Spec.SpecConfig, drafter: Spec.Drafter, base: State, rng0: Rng, maxTokens: nat)
    ensures var r := Spec.SpecRunOf(q, c, drafter, base, rng0, maxTokens);
            r.SpecOk? ==> Proper(q, 0, r.tokens) && q.eos !in r.tokens
  {
    SpecRunProper(q.(ignoreEos := false), c, drafter, base, [], rng0, maxTokens, 0, None, q.target.head(base));
  }

  // ---- The loops with a separate drafter ----

  lemma DraftedTurnProper(q: Request, kind: Drafted.Commit, now: State, gen: seq<Token>, current: Token,
                          drafts: seq<Token>, rng: Rng, remaining: nat)
    requires remaining > 0 && Open(q, 0, gen)
    ensures var t := Drafted.DraftedTurnOf(q, kind, now, gen, current, drafts, rng, remaining).0;
            && (t.TurnEnds? ==> Proper(q, 0, t.tokens))
            && (t.TurnGoes? ==> Open(q, 0, t.gen))
  {
    var s := Feed(q.target, now, current);
    var v := VerdictAt(q, s, drafts, |drafts|, gen, rng, remaining);
    JudgeProper(q, Along(q, s, drafts), drafts, |drafts|, 0, gen, rng, remaining);
    if !v.Ended() {
      var (token, _) := Drafted.CorrectionOf(q, s, drafts, v);
      if !ShouldStop(q, token) { ProperSnoc(q, 0, v.gen, token); }
    }
  }

  lemma {:induction false} RoundsProper(q: Request, plan: Drafted.DraftPlan, drafter: (nat, nat) -> seq<Token>,
                                        now: State, gen: seq<Token>, current: Token, rng: Rng, remaining: nat,
                                        rounds: nat)
    requires Open(q, 0, gen)
    ensures Proper(q, 0, Drafted.RunDrafted(q, plan, drafter, now, gen, current, rng, remaining, rounds).tokens)
    decreases remaining, 1
  {
    var drafts := Drafted.DraftsFor(drafter, rounds, remaining);
    if remaining > 0 && drafts != [] {
      var kind := plan.kinds(rounds);
      var (turn, after) := Drafted.DraftedTurnOf(q, kind, now, gen, current, drafts, rng, remaining);
      DraftedTurnProper(q, kind, now, gen, current, drafts, rng, remaining);
      RoundsGoOn(q, plan, drafter, turn, after, rounds);
    }
  }

  lemma {:induction false} RoundsGoOn(q: Request, plan: Drafted.DraftPlan, drafter: (nat, nat) -> seq<Token>,
                                      turn: Drafted.DraftedTurn, now: State, rounds: nat)
    requires if turn.TurnEnds? then Proper(q, 0, turn.tokens) else Open(q, 0, turn.gen)
    ensures Proper(q, 0, Drafted.RunOn(q, plan, drafter, turn, now, rounds).tokens)
    decreases if turn.TurnGoes? then turn.remaining + 1 else 0, 0
  {
    if turn.TurnGoes? {
      if plan.HandsOver(rounds + 1) {
        PlainProper(q, Feed(q.target, now, turn.current), 0, turn.gen, turn.rng, turn.remaining);
      } else {
        RoundsProper(q, plan, drafter, now, turn.gen, turn.current, turn.rng, turn.remaining, rounds + 1);
      }
    }
  }

  /** Every run of the loops with a separate drafter. */
  lemma DraftedProper(q: Request, plan: Drafted.DraftPlan, drafter: (nat, nat) -> seq<Token>, base: State, rng0: Rng,
                      maxTokens: nat)
    ensures Proper(q, 0, Drafted.DraftedRunOf(q, plan, drafter, base, rng0, maxTokens).tokens)
  {
    if maxTokens > 0 {
      var (first, rng) := Choose(q, q.target.head(base), [], rng0);
      if !ShouldStop(q, first) {
        ProperSnoc(q, 0, [], first);
        assert [] + [first] == [first];
        if q.keepGoing([first]) {
          RoundsProper(q, plan, drafter, base, [first], first, rng, maxTokens - 1, 0);
        }
      }
    }
  }
}
