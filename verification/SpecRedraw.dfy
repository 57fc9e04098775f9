/** A rejected draft drawn again. */
module SpecRedraw {
  import opened Model
  import opened MtpRoutes
  import opened SpecRun
  import opened Scripts
  import opened SpecSteps

  /** A sampler that counts its draws. */
  function CountingRequest(recurrent: bool): Request {
    Request(Ruler(recurrent), false, false, 7, {}, l => 1, (l, t) => 1, (l, t) => l,
            (l, ctx, rng) => (if rng == 0 then 1 else if rng == 1 then 2 else 3, rng + 1), gen => true)
  }

  lemma RedrawRun(q: Request, c: SpecConfig, recurrent: bool)
    requires c.specK > 0 && q == CountingRequest(recurrent)
    ensures !SpecServes(q, c)
  {
    var drafts := DraftsOf(Drafting(9), 0, Min(c.specK, 1));
    DraftsNine(1);
    var r, after := RejectedRound(q, c, NOWHERE, 1, drafts, [1], 1, 1, 2, 2);
    RedrawSecond(q, c, recurrent, after, r.logits);
    RunOpens(q, c, Drafting(9), NOWHERE, 0, 2, 1, 1, drafts, r, after, SpecOk([1, 3]));
    RedrawPlain(q, recurrent);
    Differs(q, c, Drafting(9), 0, 2, [1, 3]);
  }

  lemma RedrawSecond(q: Request, c: SpecConfig, recurrent: bool, after: State, logits: Logits)
    requires q == CountingRequest(recurrent)
    ensures SpecRuns(q, c, Drafting(9), after, [1], 2, 1, 1, None, logits, SpecOk([1, 3]))
  {
    assert [1] + [3] == [1, 3];
  }

  lemma RedrawPlain(q: Request, recurrent: bool)
    requires q == CountingRequest(recurrent)
    ensures Plain(q, NOWHERE, [], 0, 2) == [1, 2]
  {
    assert [] + [1] == [1] && [1] + [2] == [1, 2];
    EmitCases(q, NOWHERE, 1, 1, [], 2);
    EmitCases(q, Feed(q.target, NOWHERE, 1), 2, 2, [1], 1);
  }

  /** A rejected draft costs a draw: the next token comes from the generator after it. */
  lemma RedrawFails(c: SpecConfig, recurrent: bool) returns (q: Request)
    requires c.specK > 0
    ensures !q.greedy && !q.ignoreEos && q.target.recurrent == recurrent && !SpecServes(q, c)
  {
    q := CountingRequest(recurrent);
    RedrawRun(q, c, recurrent);
  }

}
