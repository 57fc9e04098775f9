/** Two-phase rounds of the loops with a separate drafter: find how far the target agrees,
    then replay that prefix through the emit bookkeeping. */
module DrafterRounds {
  import opened Model
  import opened EngineState
  import opened Rounds
  import opened MtpVerify
  import opened MtpRounds

  /** What the first phase finds: the agreeing prefix and the token after it, or a stop. */
  datatype Agreement = Agreement(accepted: nat, correction: Option<Token>, stopped: bool, rng: Rng)

  /** First phase with a sampler: one draw per position, the drafts accepted so far in context. */
  function Agree(q: Request, logits: seq<Logits>, drafts: seq<Token>, i: nat, ctx: seq<Token>, rng: Rng): Agreement
    requires i <= |drafts| < |logits|
    decreases |drafts| - i
  {
    var (target, rng') := Choose(q, logits[i], ctx, rng);
    if i == |drafts| || target != drafts[i] then Agreement(i, Some(target), false, rng')
    else if ShouldStop(q, drafts[i]) then Agreement(i, None, true, rng')
    else Agree(q, logits, drafts, i + 1, ctx + [drafts[i]], rng')
  }

  method SampleWindowPrefix(q: Request, logits: seq<Logits>, drafts: seq<Token>, gen: seq<Token>, rng0: Rng)
    returns (a: Agreement)
    requires |drafts| < |logits|
    ensures a == Agree(q, logits, drafts, 0, gen, rng0)
  {
    var ctx, rng := gen, rng0;
    for i := 0 to |drafts|
      invariant Agree(q, logits, drafts, i, ctx, rng) == Agree(q, logits, drafts, 0, gen, rng0)
    {
      var (target, rng') := Choose(q, logits[i], ctx, rng);
      rng := rng';
      if target != drafts[i] {
        return Agreement(i, Some(target), false, rng);
      }
      if ShouldStop(q, drafts[i]) {
        return Agreement(i, None, true, rng);
      }
      ctx := ctx + [drafts[i]];
    }
    var (bonus, rng') := Choose(q, logits[|drafts|], ctx, rng);
    return Agreement(|drafts|, Some(bonus), false, rng');
  }

  /** First phase when greedy: the longest match, stop tokens and all. */
  function AgreeGreedy(q: Request, targets: seq<Token>, drafts: seq<Token>, rng: Rng): Agreement
    requires |drafts| < |targets|
  {
    var n := MatchedPrefix(drafts, targets);
    Agreement(n, Some(targets[n]), false, rng)
  }

  function Targets(q: Request, logits: seq<Logits>): seq<Token> {
    seq(|logits|, i requires 0 <= i < |logits| => GreedyToken(q, logits[i]))
  }

  /** The two phases together report what one-pass judging reports. */
  ghost predicate PhasesMatch(q: Request, v: Verdict, a: Agreement, o: Outcome, bonus: Logits) {
    && o.gen == v.gen && o.remaining == v.remaining && o.emitted == v.accepted
    && (v.Ended() <==> a.stopped || o.stopped || o.remaining == 0)
    && (!v.Ended() ==>
          && a.accepted == v.accepted && a.correction.Some?
          && if v.mismatch.Some? then (a.correction, a.rng) == (v.mismatch, v.rng)
             else (a.correction.value, a.rng) == Choose(q, bonus, v.gen, v.rng))
  }

  lemma {:induction false} SampledMatches(q: Request, logits: seq<Logits>, drafts: seq<Token>, i: nat, gen: seq<Token>,
                                          rng: Rng, remaining: nat)
    requires i <= |drafts| < |logits| && remaining > 0
    ensures var a := Agree(q, logits, drafts, i, gen, rng);
            && i <= a.accepted <= |drafts|
            && PhasesMatch(q, Judge(q, logits, drafts, |drafts|, i, gen, rng, remaining), a,
                       OnePass(q, drafts[..a.accepted], drafts[..a.accepted], i, gen, remaining), logits[|drafts|])
    decreases |drafts| - i
  {
    if i < |drafts| {
      var (target, rng') := Choose(q, logits[i], gen, rng);
      if target == drafts[i] && !ShouldStop(q, drafts[i]) {
        AgreeBounds(q, logits, drafts, i + 1, gen + [drafts[i]], rng');
        if remaining > 1 {
          SampledMatches(q, logits, drafts, i + 1, gen + [drafts[i]], rng', remaining - 1);
        }
      }
    }
  }

  lemma {:induction false} AgreeBounds(q: Request, logits: seq<Logits>, drafts: seq<Token>, i: nat, ctx: seq<Token>,
                                       rng: Rng)
    requires i <= |drafts| < |logits|
    ensures i <= Agree(q, logits, drafts, i, ctx, rng).accepted <= |drafts|
    decreases |drafts| - i
  {
    if i < |drafts| {
      var (target, rng') := Choose(q, logits[i], ctx, rng);
      if target == drafts[i] && !ShouldStop(q, drafts[i]) {
        AgreeBounds(q, logits, drafts, i + 1, ctx + [drafts[i]], rng');
      }
    }
  }

  /** Greedy judging with sampling interleaved is one-pass judging of the argmax list. */
  lemma {:induction false} GreedyIsOnePass(q: Request, logits: seq<Logits>, drafts: seq<Token>, i: nat, gen: seq<Token>,
                                           rng: Rng, remaining: nat)
    requires q.greedy && i <= |drafts| < |logits| && remaining > 0
    ensures var v := Judge(q, logits, drafts, |drafts|, i, gen, rng, remaining);
            var targets := Targets(q, logits);
            var o := OnePass(q, drafts, targets, i, gen, remaining);
            && o == Outcome(v.gen, v.remaining, v.stopped, v.accepted) && v.accepted <= |drafts| && v.rng == rng
            && (!v.Ended() ==> v.mismatch == if v.accepted < |drafts| then Some(targets[v.accepted]) else None)
    decreases |drafts| - i
  {
    if i < |drafts| && GreedyToken(q, logits[i]) == drafts[i] && !ShouldStop(q, drafts[i]) && remaining > 1 {
      GreedyIsOnePass(q, logits, drafts, i + 1, gen + [drafts[i]], rng, remaining - 1);
    }
  }

  lemma GreedyMatches(q: Request, logits: seq<Logits>, drafts: seq<Token>, gen: seq<Token>, rng: Rng, remaining: nat)
    requires q.greedy && |drafts| < |logits| && remaining > 0
    ensures var a := AgreeGreedy(q, Targets(q, logits), drafts, rng);
            && a.accepted <= |drafts|
            && PhasesMatch(q, Judge(q, logits, drafts, |drafts|, 0, gen, rng, remaining), a,
                       OnePass(q, drafts[..a.accepted], drafts[..a.accepted], 0, gen, remaining), logits[|drafts|])
  {
    GreedyIsOnePass(q, logits, drafts, 0, gen, rng, remaining);
    TwoPhaseEqualsOnePass(q, drafts, Targets(q, logits), gen, remaining);
  }

  /** Second phase. */
  method EmitAccepted(q: Request, drafts: seq<Token>, accepted: nat, gen0: seq<Token>, remaining0: nat)
    returns (o: Outcome)
    requires accepted <= |drafts| && remaining0 > 0
    ensures o == OnePass(q, drafts[..accepted], drafts[..accepted], 0, gen0, remaining0)
  {
    var round := new GreedyRound();
    var gen, remaining := gen0, remaining0;
    var i := 0;
    ghost var prefix := drafts[..accepted];
    while i < accepted
      invariant i <= accepted && remaining > 0
      invariant round.accepted == round.emitted == i && !round.stopped
      invariant OnePass(q, prefix, prefix, i, gen, remaining) == OnePass(q, prefix, prefix, 0, gen0, remaining0)
    {
      var action := round.Observe(i, drafts[i], drafts[i], accepted, q);
      if !action.EmitToken? { break; }
      gen := gen + [drafts[i]];
      var more;
      more, remaining := round.AfterEmit(q.keepGoing(gen), remaining);
      if !more { break; }
      i := i + 1;
    }
    o := Outcome(gen, remaining, round.stopped, round.emitted);
  }
}
