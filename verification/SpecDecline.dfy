/** A client that declines the last draft of a full window without a bonus row. */
module SpecDecline {
  import opened Model
  import opened MtpVerify
  import opened MtpRoutes
  import opened MtpRounds
  import opened SpecRun
  import opened Scripts
  import opened SpecSteps

  /** Always the same token, until the client has had the first window. */
  function DeclineScript(c: SpecConfig, ignoreEos: bool, recurrent: bool): Script {
    Script(recurrent, true, ignoreEos, 5, {}, (p: nat) => 1, (p: nat) => 1, (p: nat, n: nat) => 1, Max(c.specK, 1) + 1)
  }

  /** The client declines the last draft. */
  lemma JudgeDeclined(p: Request, w: Script, s: State, drafts: seq<Token>, gen: seq<Token>, remaining: nat, v: Verdict)
    requires Speaks(p, w) && drafts != [] && remaining > 1 && |drafts| <= |gen| + 1 == w.most
    requires var tok := drafts[|drafts| - 1]; w.Says(|s.kv| + |drafts| - 1, |gen|) == tok && !w.Stops(tok)
    requires v == Verdict(|drafts|, |drafts|, true, None, gen + [drafts[|drafts| - 1]], 0, remaining - 1)
    ensures Judge(p, Along(p, s, drafts), drafts, |drafts|, |drafts| - 1, gen, 0, remaining) == v
  {
    PositionAfter(p.target, s, drafts, |drafts| - 1);
  }

  /** The verdict on a window whose drafts all match, the last of them declined. */
  lemma LastDeclined(p: Request, w: Script, s: State, drafts: seq<Token>, gen: seq<Token>, remaining: nat, v: Verdict)
    requires Speaks(p, w) && |drafts| < remaining && (drafts != [] ==> |gen| + |drafts| == w.most)
    requires Matches(w, |s.kv|, |gen|, drafts, |drafts|, |drafts|)
    requires v == Verdict(|drafts|, |drafts|, drafts != [], None, gen + drafts, 0, remaining - |drafts|)
    ensures VerdictAt(p, s, drafts, |drafts|, gen, 0, remaining) == v
  {
    var k := |drafts|;
    if k == 0 {
      JudgeEnds(p, s, drafts, k, gen, 0, remaining, v);
    } else {
      var out := gen + drafts[..k - 1];
      assert out + [drafts[k - 1]] == gen + drafts;
      JudgeDeclined(p, w, s, drafts, out, remaining - (k - 1), v);
      JudgeEmits(p, w, s, drafts, k, k - 1, gen, 0, remaining, v);
    }
  }

  lemma DeclinedRound(p: Request, w: Script, c: SpecConfig, drafts: seq<Token>)
    requires SpecErrs(c, p.greedy) && Speaks(p, w) && w == DeclineScript(c, false, w.recurrent)
    requires drafts == DraftsOf(Drafting(1), 0, c.specK)
    ensures SpecRoundOf(p, c, NOWHERE, 1, drafts, [1], 0, c.specK + 2).0 == SpecFailed
  {
    var s := Feed(p.target, NOWHERE, 1);
    LastDeclined(p, w, s, drafts, [1], c.specK + 2,
                 Verdict(c.specK, c.specK, drafts != [], None, [1] + drafts, 0, 2));
  }

  /** Wherever the error return is, some greedy request comes to it. */
  lemma DeclineFails(c: SpecConfig, ignoreEos: bool, recurrent: bool) returns (q: Request)
    requires SpecErrs(c, true)
    ensures Flagged(q, true, ignoreEos, recurrent) && !SpecReturns(q, c)
  {
    var w := DeclineScript(c, ignoreEos, recurrent);
    q := w.Spoken();
    var p, w' := q.(ignoreEos := false), w.(ignoreEos := false);
    assert p == w'.Spoken();
    SpokenSpeaks(w');
    DeclineRun(q, p, w', c);
  }

  lemma DeclineRun(q: Request, p: Request, w: Script, c: SpecConfig)
    requires p == q.(ignoreEos := false) && SpecErrs(c, p.greedy) && Speaks(p, w)
    requires w == DeclineScript(c, false, w.recurrent)
    ensures SpecRunOf(q, c, Drafting(1), NOWHERE, 0, c.specK + 3) == SpecError
    ensures !SpecReturns(q, c)
  {
    var drafts := DraftsOf(Drafting(1), 0, c.specK);
    DeclinedRound(p, w, c, drafts);
    assert [] + [1] == [1];
    assert SpecRunsAfter(p, c, Drafting(1), NOWHERE, 1, [1], 0, c.specK + 2, 0, SpecError);
  }
}
