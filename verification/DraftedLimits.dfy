/**
 * Exactly which drafters and commits the loops with a separate drafter serve, with a run
 * that falls short for each empty draft and one that strays for each length cut.
 */
module DraftedLimits {
  import opened Model
  import opened MtpVerify
  import opened MtpRounds
  import opened DraftedRun
  import opened Scripts

  /** Every run of the request returns the plain output. */
  ghost predicate DraftedServes(q: Request, plan: DraftPlan, drafter: (nat, nat) -> seq<Token>) {
    forall base, rng0, maxTokens {:trigger DraftedRunOf(q, plan, drafter, base, rng0, maxTokens)} ::
      DraftedRunOf(q, plan, drafter, base, rng0, maxTokens).tokens == Plain(q, base, [], rng0, maxTokens)
  }

  /** The drafter has a draft whenever the loop can ask it for one. */
  ghost predicate NeverStarves(plan: DraftPlan, drafter: (nat, nat) -> seq<Token>) {
    forall n: nat, k: nat {:trigger drafter(n, k)} | plan.Drafts(n) && k > 0 :: drafter(n, k) != []
  }

  // ---- Requests that tell one token after so many ----

  /** What the target counts: the rows of its cache, or the steps of its recurrent state. */
  function Size(s: State, steps: bool): nat {
    if steps then |s.rec| else |s.kv|
  }

  function Teller(tell: nat -> Token, steps: bool, greedy: bool, ignoreEos: bool, recurrent: bool): Request {
    Request(Target(recurrent, (s: State, t) => [], (s: State, t) => [0.0], (r, i) => r + i,
                   (s: State) => seq(Size(s, steps), _ => 0.0)),
            greedy, ignoreEos, 7, {}, logits => tell(|logits|), (logits, t) => tell(|logits|), (logits, t) => logits,
            (logits, ctx, rng) => (tell(|logits|), rng), gen => true)
  }

  /** The request tells by size, never stops and has a client that never declines. */
  ghost predicate Tells(q: Request, tell: nat -> Token, steps: bool) {
    && (forall s: State, gen, rng: Rng {:trigger Choose(q, q.target.head(s), gen, rng)} ::
          Choose(q, q.target.head(s), gen, rng) == (tell(Size(s, steps)), rng))
    && (forall p {:trigger tell(p)} :: !ShouldStop(q, tell(p)))
    && (forall gen {:trigger q.keepGoing(gen)} :: q.keepGoing(gen))
    && (forall s: State, tok {:trigger Feed(q.target, s, tok)} ::
          Size(Feed(q.target, s, tok), steps) == Size(s, steps) + 1)
  }

  lemma TellerTells(tell: nat -> Token, steps: bool, greedy: bool, ignoreEos: bool, recurrent: bool)
    requires (forall p {:trigger tell(p)} :: tell(p) != 7) && (steps ==> recurrent)
    ensures var q := Teller(tell, steps, greedy, ignoreEos, recurrent);
            Tells(q, tell, steps) && Flagged(q, greedy, ignoreEos, recurrent)
  {
  }

  lemma {:induction false} SizeAfter(q: Request, tell: nat -> Token, steps: bool, s: State, toks: seq<Token>)
    requires Tells(q, tell, steps)
    ensures Size(FeedAll(q.target, s, toks), steps) == Size(s, steps) + |toks|
  {
    if toks != [] { SizeAfter(q, tell, steps, s, toks[..|toks| - 1]); }
  }

  /** Plain decoding tells one token after the other, up to its budget. */
  lemma {:induction false} PlainTells(q: Request, tell: nat -> Token, steps: bool, s: State, gen: seq<Token>, rng: Rng,
                                      budget: nat)
    requires Tells(q, tell, steps)
    ensures var out := Plain(q, s, gen, rng, budget);
            && |out| == |gen| + budget && gen <= out
            && forall i | |gen| <= i < |out| :: out[i] == tell(Size(s, steps) + i - |gen|)
    decreases budget
  {
    if budget > 0 {
      var tok := tell(Size(s, steps));
      EmitCases(q, s, tok, rng, gen, budget);
      PlainTells(q, tell, steps, Feed(q.target, s, tok), gen + [tok], rng, budget - 1);
      var out := Plain(q, s, gen, rng, budget);
      assert out[|gen|] == (gen + [tok])[|gen|];
    }
  }

  /** A round whose first draft is not the target's token emits the target's. */
  lemma RejectedTurn(q: Request, tell: nat -> Token, steps: bool, kind: Commit, now: State, gen: seq<Token>,
                     current: Token, drafts: seq<Token>, rng: Rng, remaining: nat, tok: Token)
    requires Tells(q, tell, steps) && remaining > 0
    requires drafts != [] && tok == tell(Size(now, steps) + 1) != drafts[0]
    ensures DraftedTurnOf(q, kind, now, gen, current, drafts, rng, remaining) ==
            (TurnGoes(gen + [tok], tok, rng, remaining - 1),
             KeptState(q.target, kind, Feed(q.target, now, current), drafts, 0))
  {
    var s := Feed(q.target, now, current);
    assert At(q.target, s, drafts, 0) == s;
    assert VerdictAt(q, s, drafts, |drafts|, gen, rng, remaining)
           == Verdict(0, 0, false, Some(tok), gen, rng, remaining);
  }

  /** What such a round keeps: its current token, and after a length cut, with the counting
      recurrent state, the steps of its drafts too. */
  lemma KeptSize(q: Request, tell: nat -> Token, steps: bool, kind: Commit, s: State, drafts: seq<Token>)
    requires Tells(q, tell, steps)
    ensures Size(KeptState(q.target, kind, s, drafts, 0), steps) ==
            Size(s, steps) + if steps && kind.Length? then |drafts| else 0
  {
    SizeAfter(q, tell, steps, s, drafts);
    SizeAfter(q, tell, steps, s, drafts[..0]);
  }

  /** From a state on the run is `run`. */
  ghost predicate DraftedRuns(q: Request, plan: DraftPlan, drafter: (nat, nat) -> seq<Token>, now: State,
                              gen: seq<Token>, current: Token, remaining: nat, rounds: nat, run: DraftedResult)
  {
    RunDrafted(q, plan, drafter, now, gen, current, 0, remaining, rounds) == run
  }

  /** A run starts with the target's own token. */
  lemma RunStarts(q: Request, tell: nat -> Token, steps: bool, plan: DraftPlan, drafter: (nat, nat) -> seq<Token>,
                  m: nat, first: Token, run: DraftedResult)
    requires Tells(q, tell, steps) && m > 0 && first == tell(0)
    requires DraftedRuns(q, plan, drafter, NOWHERE, [first], first, m - 1, 0, run)
    ensures DraftedRunOf(q, plan, drafter, NOWHERE, 0, m) == run
  {
    assert Choose(q, q.target.head(NOWHERE), [], 0) == (tell(0), 0);
  }

  // ---- What the drafter does not propose ----

  function Other(drafts: seq<Token>): Token {
    if drafts != [] && drafts[0] == 1 then 2 else 1
  }

  /** Another token than the drafter's for position `p`, in a run of `m` tokens. */
  function Refusal(drafter: (nat, nat) -> seq<Token>, m: nat, p: nat): Token {
    if 0 < p < m then Other(drafter(p - 1, m - p)) else 1
  }

  /** The target refuses the drafts of the first rounds, up to position `last`. */
  ghost predicate Refuses(tell: nat -> Token, drafter: (nat, nat) -> seq<Token>, m: nat, last: nat) {
    forall p: nat {:trigger tell(p)} | p <= last :: tell(p) == Refusal(drafter, m, p)
  }

  lemma RefusesDraft(tell: nat -> Token, drafter: (nat, nat) -> seq<Token>, m: nat, last: nat, i: nat,
                     drafts: seq<Token>)
    requires Refuses(tell, drafter, m, last) && i < last && i + 1 < m
    requires drafts == DraftsFor(drafter, i, m - 1 - i) && drafts != []
    ensures tell(i + 1) != drafts[0]
  {
    assert drafts[0] == drafter(i, m - 1 - i)[0];
  }

  /** One refusing round of a run. */
  lemma RefusedTurn(q: Request, tell: nat -> Token, steps: bool, plan: DraftPlan, drafter: (nat, nat) -> seq<Token>,
                    m: nat, last: nat, i: nat, now: State, gen: seq<Token>, current: Token, drafts: seq<Token>,
                    run: DraftedResult)
    returns (tok: Token, now': State)
    requires Tells(q, tell, steps) && Refuses(tell, drafter, m, last) && i < last && i + 1 < m && Size(now, steps) == i
    requires drafts == DraftsFor(drafter, i, m - 1 - i) && drafts != []
    requires DraftedRuns(q, plan, drafter, now, gen, current, m - 1 - i, i, run)
    ensures RunOn(q, plan, drafter, TurnGoes(gen + [tok], tok, 0, m - 2 - i), now', i) == run
    ensures Size(now', steps) == i + 1 + if steps && plan.kinds(i).Length? then |drafts| else 0
  {
    var s := Feed(q.target, now, current);
    tok, now' := tell(i + 1), KeptState(q.target, plan.kinds(i), s, drafts, 0);
    RefusesDraft(tell, drafter, m, last, i, drafts);
    RejectedTurn(q, tell, steps, plan.kinds(i), now, gen, current, drafts, 0, m - 1 - i, tok);
    KeptSize(q, tell, steps, plan.kinds(i), s, drafts);
    var turn := TurnGoes(gen + [tok], tok, 0, m - 2 - i);
    TurnRuns(q, plan, drafter, now, gen, current, 0, m - 1 - i, i, drafts, turn, now', run);
  }

  /** One that another round follows. */
  lemma RefusedOn(q: Request, tell: nat -> Token, steps: bool, plan: DraftPlan, drafter: (nat, nat) -> seq<Token>,
                  m: nat, last: nat, i: nat, now: State, gen: seq<Token>, current: Token, drafts: seq<Token>,
                  run: DraftedResult)
    returns (tok: Token, now': State, gen': seq<Token>)
    requires Tells(q, tell, steps) && Refuses(tell, drafter, m, last) && i < last && i + 1 < m && Size(now, steps) == i
    requires drafts == DraftsFor(drafter, i, m - 1 - i) && drafts != []
    requires DraftedRuns(q, plan, drafter, now, gen, current, m - 1 - i, i, run)
    requires !plan.HandsOver(i + 1) && (steps ==> !plan.kinds(i).Length?)
    ensures DraftedRuns(q, plan, drafter, now', gen', tok, m - 2 - i, i + 1, run)
    ensures Size(now', steps) == i + 1 && |gen'| == |gen| + 1
  {
    tok, now' := RefusedTurn(q, tell, steps, plan, drafter, m, last, i, now, gen, current, drafts, run);
    gen' := gen + [tok];
    RunGoesOn(q, plan, drafter, gen', tok, 0, m - 2 - i, now', i, run);
  }

  // ---- An empty draft ----

  function Refusing(drafter: (nat, nat) -> seq<Token>, m: nat): nat -> Token {
    p => Refusal(drafter, m, p)
  }

  lemma EmptyDraft(q: Request, plan: DraftPlan, drafter: (nat, nat) -> seq<Token>, now: State, gen: seq<Token>,
                   current: Token, remaining: nat, rounds: nat, run: DraftedResult)
    requires DraftsFor(drafter, rounds, remaining) == []
    requires DraftedRuns(q, plan, drafter, now, gen, current, remaining, rounds, run)
    ensures run.tokens == gen
  {
  }

  /** A run that refuses every draft comes to the empty one, if it was not starved before. */
  lemma {:induction false} StarvedRun(q: Request, tell: nat -> Token, plan: DraftPlan,
                                      drafter: (nat, nat) -> seq<Token>, m: nat, n: nat, i: nat, now: State,
                                      gen: seq<Token>, current: Token, run: DraftedResult)
    requires i <= n < m - 1 && plan.Drafts(n) && drafter(n, m - 1 - n) == []
    requires Tells(q, tell, false) && Refuses(tell, drafter, m, m) && |now.kv| == i && |gen| == i + 1
    requires DraftedRuns(q, plan, drafter, now, gen, current, m - 1 - i, i, run)
    ensures |run.tokens| < m
    decreases n - i
  {
    var drafts := DraftsFor(drafter, i, m - 1 - i);
    if drafts == [] {
      EmptyDraft(q, plan, drafter, now, gen, current, m - 1 - i, i, run);
    } else {
      StarvedLater(plan, drafter, m, n, i);
      var tok, now', gen' := RefusedOn(q, tell, false, plan, drafter, m, m, i, now, gen, current, drafts, run);
      StarvedRun(q, tell, plan, drafter, m, n, i + 1, now', gen', tok, run);
    }
  }

  lemma StarvedLater(plan: DraftPlan, drafter: (nat, nat) -> seq<Token>, m: nat, n: nat, i: nat)
    requires i <= n < m - 1 && plan.Drafts(n) && drafter(n, m - 1 - n) == [] && DraftsFor(drafter, i, m - 1 - i) != []
    ensures i < n && !plan.HandsOver(i + 1)
  {
  }

  lemma StarvedOutput(q: Request, tell: nat -> Token, plan: DraftPlan, drafter: (nat, nat) -> seq<Token>, m: nat,
                      n: nat, first: Token)
    requires n < m - 1 && plan.Drafts(n) && drafter(n, m - 1 - n) == []
    requires Tells(q, tell, false) && Refuses(tell, drafter, m, m) && first == tell(0)
    ensures |DraftedRunOf(q, plan, drafter, NOWHERE, 0, m).tokens| < m
  {
    var run := RunDrafted(q, plan, drafter, NOWHERE, [first], first, 0, m - 1, 0);
    StarvedRun(q, tell, plan, drafter, m, n, 0, NOWHERE, [first], first, run);
    RunStarts(q, tell, false, plan, drafter, m, first, run);
  }

  lemma Starved(q: Request, tell: nat -> Token, plan: DraftPlan, drafter: (nat, nat) -> seq<Token>, m: nat, n: nat)
    requires n < m - 1 && plan.Drafts(n) && drafter(n, m - 1 - n) == []
    requires Tells(q, tell, false) && Refuses(tell, drafter, m, m)
    ensures !DraftedServes(q, plan, drafter)
  {
    StarvedOutput(q, tell, plan, drafter, m, n, tell(0));
    PlainTells(q, tell, false, NOWHERE, [], 0, m);
    assert DraftedRunOf(q, plan, drafter, NOWHERE, 0, m).tokens != Plain(q, NOWHERE, [], 0, m);
  }

  /** An empty draft the loop can come to ends some run early. */
  lemma StarvedFails(plan: DraftPlan, drafter: (nat, nat) -> seq<Token>, n: nat, k: nat, greedy: bool, ignoreEos: bool,
                     recurrent: bool) returns (q: Request)
    requires plan.Drafts(n) && k > 0 && drafter(n, k) == []
    ensures Flagged(q, greedy, ignoreEos, recurrent) && !DraftedServes(q, plan, drafter)
  {
    var tell := Refusing(drafter, n + k + 1);
    q := Teller(tell, false, greedy, ignoreEos, recurrent);
    TellerTells(tell, false, greedy, ignoreEos, recurrent);
    Starved(q, tell, plan, drafter, n + k + 1, n);
  }

  // ---- Recurrent state cut back by length ----

  /** Refuses the drafts up to round `n`, in a run of `n + 3` tokens; the token after that round
      is 1, and from a state of more steps it would be 2. */
  function Straying(drafter: (nat, nat) -> seq<Token>, n: nat): nat -> Token {
    (p: nat) => if p <= n + 1 then Refusal(drafter, n + 3, p) else if p == n + 2 then 1 else 2
  }

  ghost predicate Strays(tell: nat -> Token, drafter: (nat, nat) -> seq<Token>, n: nat) {
    Refuses(tell, drafter, n + 3, n + 1) && tell(n + 2) == 1
        && forall p: nat {:trigger tell(p)} | p > n + 2 :: tell(p) == 2
  }

  /** The last token of a run, whatever its round makes of its one draft. */
  lemma LastToken(q: Request, tell: nat -> Token, plan: DraftPlan, drafter: (nat, nat) -> seq<Token>, now: State,
                  gen: seq<Token>, current: Token, rounds: nat, tok: Token)
    requires Tells(q, tell, true) && tok == tell(|now.rec| + 1) && drafter(rounds, 1) != []
    ensures RunDrafted(q, plan, drafter, now, gen, current, 0, 1, rounds).tokens == gen + [tok]
  {
    var drafts := DraftsFor(drafter, rounds, 1);
    var s := Feed(q.target, now, current);
    if drafts[0] == tok {
      assert At(q.target, s, drafts, 0) == s;
      assert VerdictAt(q, s, drafts, 1, gen, 0, 1) == Verdict(1, 1, false, None, gen + [tok], 0, 0);
    } else {
      RejectedTurn(q, tell, true, plan.kinds(rounds), now, gen, current, drafts, 0, 1, tok);
    }
  }

  /** From a state with more steps than tokens the run goes on with 2. */
  lemma StrayTurn(q: Request, tell: nat -> Token, n: nat, plan: DraftPlan, drafter: (nat, nat) -> seq<Token>,
                  now: State, gen: seq<Token>, current: Token, run: DraftedResult)
    requires Tells(q, tell, true) && tell(|now.rec| + 1) == 2 && plan.Drafts(n) && NeverStarves(plan, drafter)
    requires RunOn(q, plan, drafter, TurnGoes(gen, current, 0, 1), now, n) == run
    ensures run.tokens == gen + [2]
  {
    if plan.HandsOver(n + 1) {
      PlainTells(q, tell, true, Feed(q.target, now, current), gen, 0, 1);
      assert run.tokens[|gen|] == 2;
    } else {
      assert plan.Drafts(n + 1);
      LastToken(q, tell, plan, drafter, now, gen, current, n + 1, 2);
    }
  }

  /** The round of the first length cut. */
  lemma CutRound(q: Request, tell: nat -> Token, plan: DraftPlan, drafter: (nat, nat) -> seq<Token>, n: nat, now: State,
                 gen: seq<Token>, current: Token, drafts: seq<Token>, run: DraftedResult)
    requires plan.Drafts(n) && NeverStarves(plan, drafter) && plan.kinds(n).Length?
    requires Tells(q, tell, true) && Strays(tell, drafter, n) && |now.rec| == n && |gen| == n + 1
    requires drafts == DraftsFor(drafter, n, 2) && drafts != []
    requires DraftedRuns(q, plan, drafter, now, gen, current, 2, n, run)
    ensures |run.tokens| == n + 3 && run.tokens[n + 2] == 2
  {
    var tok, now' := RefusedTurn(q, tell, true, plan, drafter, n + 3, n + 1, n, now, gen, current, drafts, run);
    StrayTurn(q, tell, n, plan, drafter, now', gen + [tok], tok, run);
  }

  /** A round before it. */
  lemma UncutRound(q: Request, tell: nat -> Token, plan: DraftPlan, drafter: (nat, nat) -> seq<Token>, n: nat, i: nat,
                   now: State, gen: seq<Token>, current: Token, drafts: seq<Token>, run: DraftedResult)
    returns (tok: Token, now': State, gen': seq<Token>)
    requires i < n && plan.Drafts(n) && FirstLength(plan, n) && Tells(q, tell, true) && Strays(tell, drafter, n)
    requires |now.rec| == i && |gen| == i + 1 && drafts == DraftsFor(drafter, i, n + 2 - i) && drafts != []
    requires DraftedRuns(q, plan, drafter, now, gen, current, n + 2 - i, i, run)
    ensures DraftedRuns(q, plan, drafter, now', gen', tok, n + 1 - i, i + 1, run)
    ensures |now'.rec| == i + 1 && |gen'| == i + 2
  {
    tok, now', gen' := RefusedOn(q, tell, true, plan, drafter, n + 3, n + 1, i, now, gen, current, drafts, run);
  }

  /** A run that refuses every draft strays behind the first length cut. */
  lemma {:induction false} StrayedRun(q: Request, tell: nat -> Token, plan: DraftPlan,
                                      drafter: (nat, nat) -> seq<Token>, n: nat, i: nat, now: State, gen: seq<Token>,
                                      current: Token, run: DraftedResult)
    requires i <= n && plan.Drafts(n) && NeverStarves(plan, drafter) && FirstLength(plan, n)
    requires Tells(q, tell, true) && Strays(tell, drafter, n) && |now.rec| == i && |gen| == i + 1
    requires DraftedRuns(q, plan, drafter, now, gen, current, n + 2 - i, i, run)
    ensures |run.tokens| == n + 3 && run.tokens[n + 2] == 2
    decreases n - i
  {
    var drafts := NextDrafts(plan, drafter, i, n + 2 - i);
    if i == n {
      CutRound(q, tell, plan, drafter, n, now, gen, current, drafts, run);
    } else {
      var tok, now', gen' := UncutRound(q, tell, plan, drafter, n, i, now, gen, current, drafts, run);
      StrayedRun(q, tell, plan, drafter, n, i + 1, now', gen', tok, run);
    }
  }

  lemma NextDrafts(plan: DraftPlan, drafter: (nat, nat) -> seq<Token>, n: nat, k: nat) returns (drafts: seq<Token>)
    requires NeverStarves(plan, drafter) && plan.Drafts(n) && k > 0
    ensures drafts == DraftsFor(drafter, n, k) && drafts != []
  {
    drafts := DraftsFor(drafter, n, k);
  }

  ghost predicate FirstLength(plan: DraftPlan, n: nat) {
    plan.kinds(n).Length? && forall j: nat {:trigger plan.kinds(j)} | j < n :: !plan.kinds(j).Length?
  }

  lemma {:induction false} FirstCut(plan: DraftPlan, n: nat) returns (first: nat)
    requires plan.kinds(n).Length?
    ensures first <= n && FirstLength(plan, first)
    decreases n
  {
    if j: nat :| j < n && plan.kinds(j).Length? {
      first := FirstCut(plan, j);
    } else {
      first := n;
    }
  }

  lemma StrayedOutput(q: Request, tell: nat -> Token, plan: DraftPlan, drafter: (nat, nat) -> seq<Token>, n: nat,
                      first: Token)
    returns (out: seq<Token>)
    requires plan.Drafts(n) && NeverStarves(plan, drafter) && FirstLength(plan, n)
    requires Tells(q, tell, true) && Strays(tell, drafter, n) && first == tell(0)
    ensures DraftedRunOf(q, plan, drafter, NOWHERE, 0, n + 3).tokens == out && |out| == n + 3 && out[n + 2] == 2
  {
    var run := RunDrafted(q, plan, drafter, NOWHERE, [first], first, 0, n + 2, 0);
    StrayedRun(q, tell, plan, drafter, n, 0, NOWHERE, [first], first, run);
    RunStarts(q, tell, true, plan, drafter, n + 3, first, run);
    out := run.tokens;
  }

  lemma Strayed(q: Request, tell: nat -> Token, plan: DraftPlan, drafter: (nat, nat) -> seq<Token>, n: nat)
    requires plan.Drafts(n) && NeverStarves(plan, drafter) && FirstLength(plan, n)
    requires Tells(q, tell, true) && Strays(tell, drafter, n)
    ensures !DraftedServes(q, plan, drafter)
  {
    var out := StrayedOutput(q, tell, plan, drafter, n, tell(0));
    PlainTells(q, tell, true, NOWHERE, [], 0, n + 3);
    assert Plain(q, NOWHERE, [], 0, n + 3)[n + 2] == 1;
  }

  /** A length cut of recurrent state that the loop can come to changes the output of some run. */
  lemma LengthCutFails(plan: DraftPlan, drafter: (nat, nat) -> seq<Token>, n: nat, greedy: bool, ignoreEos: bool)
    returns (q: Request)
    requires plan.Drafts(n) && plan.kinds(n).Length? && NeverStarves(plan, drafter)
    ensures Flagged(q, greedy, ignoreEos, true) && !DraftedServes(q, plan, drafter)
  {
    var cut := FirstCut(plan, n);
    var tell := Straying(drafter, cut);
    q := Teller(tell, true, greedy, ignoreEos, true);
    TellerTells(tell, true, greedy, ignoreEos, true);
    Strayed(q, tell, plan, drafter, cut);
  }

  // ---- Exactly when ----

  /** A drafter and commits serve every request with given flags, for every sampler, callback,
      stop set and budget, exactly when no round the loop can come to has an empty draft
      and none cuts a recurrent window by its length. */
  lemma DraftedExact(plan: DraftPlan, drafter: (nat, nat) -> seq<Token>, greedy: bool, ignoreEos: bool, recurrent: bool)
    ensures (forall q: Request | Flagged(q, greedy, ignoreEos, recurrent) :: DraftedServes(q, plan, drafter)) <==>
            NeverStarves(plan, drafter) && KeepsState(plan, recurrent)
  {
    if !NeverStarves(plan, drafter) {
      var n: nat, k: nat :| plan.Drafts(n) && k > 0 && drafter(n, k) == [];
      var q := StarvedFails(plan, drafter, n, k, greedy, ignoreEos, recurrent);
    } else if !KeepsState(plan, recurrent) {
      var n: nat :| plan.Drafts(n) && plan.kinds(n).Length?;
      var q := LengthCutFails(plan, drafter, n, greedy, ignoreEos);
    } else {
      forall q: Request | Flagged(q, greedy, ignoreEos, recurrent) ensures DraftedServes(q, plan, drafter) {
        Served(q, plan, drafter);
      }
    }
  }

  lemma Served(q: Request, plan: DraftPlan, drafter: (nat, nat) -> seq<Token>)
    requires NeverStarves(plan, drafter) && KeepsState(plan, q.target.recurrent)
    ensures DraftedServes(q, plan, drafter)
  {
    forall base, rng0, maxTokens
      ensures DraftedRunOf(q, plan, drafter, base, rng0, maxTokens).tokens == Plain(q, base, [], rng0, maxTokens)
    {
      DraftedRunDelivers(q, plan, drafter, base, rng0, maxTokens);
    }
  }
}
