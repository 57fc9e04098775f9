/** Exactly which configurations of the in-model loop answer every request, and with what. */
module MtpExactness {
  import opened Model
  import opened MtpVerify
  import opened MtpRoutes
  import opened MtpRounds
  import opened MtpRun
  import opened Scripts
  import opened MtpLimits

  // ---- An error return ----

  function ErrScript(greedy: bool, ignoreEos: bool, recurrent: bool): Script {
    Script(recurrent, greedy, ignoreEos, 5, {}, (p: nat) => 1, (p: nat) => 1, (p: nat, n: nat) => 1, 9)
  }

  /** A round whose first draft is not the target's token accepts nothing. */
  lemma NothingAccepted(q: Request, w: Script, drafts: seq<Token>, k: nat, gen: seq<Token>, remaining: nat)
    requires Speaks(q, w) && drafts != [] && remaining > 0 && w.Says(|gen|, |gen|) != drafts[0]
    ensures VerdictAt(q, Before(q.target, gen), drafts, k, gen, 0, remaining).accepted == 0
  {
    JudgeMisses(q, w, Before(q.target, gen), drafts, k, 0, gen, 0, remaining);
  }

  lemma ErrAsks(c: Config)
    requires Errs(c, true)
    ensures var k := Min(Max(c.specK, 1), 2); Asked(c, 3, 0) == (k, 0) && CutFails(c, k, k, 0)
    ensures !c.execution.VulkanFullpath?
  {
  }

  /** The window of the first round would have to be cut back to its first token. */
  lemma CutErrs(q: Request, w: Script, c: Config)
    requires Errs(c, true) && w == ErrScript(w.greedy, w.ignoreEos, w.recurrent) && Speaks(q, w)
    ensures RunOf(q, c, Always(9), NOWHERE, 0, 3).Error?
  {
    var k := Min(Max(c.specK, 1), 2);
    ErrAsks(c);
    GoesOn(q, w, 1, [], 3);
    NothingAccepted(q, w, Repeat(9, k), k, [] + [1], 2);
    RunTurns(q, c, Always(9), NOWHERE, [], 1, 0, 3, 0, 0, 1, TurnFailed);
    RunStarts(q, w, c, Always(9), 3, 1, Error);
  }

  /** Where there is an error return, some request comes to it under an obedient drafter. */
  lemma ErrFails(c: Config, greedy: bool, ignoreEos: bool, recurrent: bool) returns (q: Request)
    requires Errs(c, greedy)
    ensures Flagged(q, greedy, ignoreEos, recurrent) && !MtpReturns(q, c)
  {
    var w := ErrScript(greedy, ignoreEos, recurrent);
    q := w.Spoken();
    SpokenSpeaks(w);
    if !c.execution.VulkanFullpath? { CutErrs(q, w, c); }
    assert Obeys(Always(9)) && RunOf(q, c, Always(9), NOWHERE, 0, 3).Error?;
  }

  // ---- Exactly when ----

  /** The flags of a request and its target under which the configuration is exact. */
  predicate MtpAdmits(c: Config, greedy: bool, ignoreEos: bool, recurrent: bool) {
    && (ReplayPossible(c, recurrent) ==> greedy && !ignoreEos)
    && (NoBonusPossible(c) ==> greedy)
    && (RunwayDepth(c) > 0 ==> greedy)
    && RunwayDepth(c) <= 1
  }

  /** Every request with given flags returns something, for every obedient drafter, callback,
      stop set, depth and budget, exactly when the configuration has no error return for them. */
  lemma ReturnsExact(c: Config, greedy: bool, ignoreEos: bool, recurrent: bool)
    ensures (forall q | Flagged(q, greedy, ignoreEos, recurrent) :: MtpReturns(q, c)) <==> !Errs(c, greedy)
  {
    if Errs(c, greedy) {
      var q := ErrFails(c, greedy, ignoreEos, recurrent);
    } else {
      forall q | Flagged(q, greedy, ignoreEos, recurrent) ensures MtpReturns(q, c) {
        AlwaysReturns(q, c);
      }
    }
  }

  lemma AlwaysReturns(q: Request, c: Config)
    requires !Errs(c, q.greedy)
    ensures MtpReturns(q, c)
  {
    forall drafter, base, rng0, maxTokens | Obeys(drafter)
      ensures RunOf(q, c, drafter, base, rng0, maxTokens).Done?
    {
      NeverErrs(q, c, drafter, base, rng0, maxTokens);
    }
  }

  /** What a configuration returns for requests with given flags is always their plain output,
      exactly when it admits the flags; and it always returns their plain output exactly when
      besides it has no error return for them. */
  lemma MtpExact(c: Config, greedy: bool, ignoreEos: bool, recurrent: bool)
    ensures (forall q | Flagged(q, greedy, ignoreEos, recurrent) :: MtpServes(q, c)) <==>
            MtpAdmits(c, greedy, ignoreEos, recurrent)
    ensures (forall q | Flagged(q, greedy, ignoreEos, recurrent) :: MtpAnswers(q, c)) <==>
            MtpAdmits(c, greedy, ignoreEos, recurrent) && !Errs(c, greedy)
  {
    ReturnsExact(c, greedy, ignoreEos, recurrent);
    if MtpAdmits(c, greedy, ignoreEos, recurrent) {
      forall q | Flagged(q, greedy, ignoreEos, recurrent) ensures MtpServes(q, c) {
        ShallowServes(q, c);
      }
    } else {
      var q := DoesNotAdmit(c, greedy, ignoreEos, recurrent);
    }
  }

  lemma DoesNotAdmit(c: Config, greedy: bool, ignoreEos: bool, recurrent: bool) returns (q: Request)
    requires !MtpAdmits(c, greedy, ignoreEos, recurrent)
    ensures Flagged(q, greedy, ignoreEos, recurrent) && !MtpServes(q, c)
  {
    if ReplayPossible(c, recurrent) && !(greedy && !ignoreEos) {
      q := ReplayFails(c, greedy, ignoreEos);
    } else if NoBonusPossible(c) && !greedy {
      q := NoBonusFails(c, ignoreEos, recurrent);
    } else if RunwayDepth(c) > 0 && !greedy {
      q := RunwayFails(c, ignoreEos, recurrent);
    } else {
      q := StopFails(c, ignoreEos, recurrent, 0, {1}, 2, 1);
    }
  }

  lemma ShallowServes(q: Request, c: Config)
    requires Lossless(q, c) && RunwayDepth(c) <= 1
    ensures MtpServes(q, c)
  {
    forall drafter, base, rng0, maxTokens
      ensures var run := RunOf(q, c, drafter, base, rng0, maxTokens);
              run.Done? ==> run.tokens == Plain(q, base, [], rng0, maxTokens)
    {
      ShallowRunDelivers(q, c, drafter, base, rng0, maxTokens);
    }
  }

  ghost predicate StopsLike(q: Request, ignoreEos: bool, eos: Token, stops: set<Token>) {
    q.greedy && q.ignoreEos == ignoreEos && q.eos == eos && q.stopTokens == stops
  }

  /** On the device, greedy requests with given stops are all answered exactly when the runway
      is at most one draft deep, or no token stops, or every token does. */
  lemma RunwayExact(c: Config, ignoreEos: bool, eos: Token, stops: set<Token>)
    requires c.execution.DeviceResident?
    ensures (forall q | StopsLike(q, ignoreEos, eos, stops) :: MtpAnswers(q, c)) <==>
            || RunwayDepth(c) <= 1
            || (forall tok: Token :: !IsStop(ignoreEos, eos, stops, tok))
            || (forall tok: Token :: IsStop(ignoreEos, eos, stops, tok))
  {
    if RunwayDepth(c) > 1 && exists tok: Token, stop: Token ::
         IsStop(ignoreEos, eos, stops, stop) && !IsStop(ignoreEos, eos, stops, tok) {
      var tok: Token, stop: Token :| IsStop(ignoreEos, eos, stops, stop) && !IsStop(ignoreEos, eos, stops, tok);
      var q := StopFails(c, ignoreEos, false, eos, stops, tok, stop);
      assert StopsLike(q, ignoreEos, eos, stops);
    } else {
      forall q | StopsLike(q, ignoreEos, eos, stops) ensures MtpAnswers(q, c) {
        NothingHeldBack(q, c);
        AlwaysReturns(q, c);
      }
    }
  }

  lemma NothingHeldBack(q: Request, c: Config)
    requires c.execution.DeviceResident? && q.greedy
    requires RunwayDepth(c) <= 1 || (forall tok: Token, stop: Token :: !(ShouldStop(q, stop) && !ShouldStop(q, tok)))
    ensures MtpServes(q, c)
  {
    forall drafter, base, rng0, maxTokens
      ensures var run := RunOf(q, c, drafter, base, rng0, maxTokens);
              run.Done? ==> run.tokens == Plain(q, base, [], rng0, maxTokens)
    {
      RunDelivers(q, c, drafter, base, rng0, maxTokens);
    }
  }
}
