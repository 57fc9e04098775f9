/** An EOS to be ignored: the early-exit loop stops at it. */
module SpecEos {
  import opened Model
  import opened SpecRun
  import opened Scripts
  import opened SpecSteps

  function EosScript(greedy: bool, recurrent: bool): Script {
    Script(recurrent, greedy, true, 1, {}, (p: nat) => 1, (p: nat) => 2, (p: nat, n: nat) => 1, 9)
  }

  /** The loop stops at an EOS that plain decoding ignores. */
  lemma EosFails(c: SpecConfig, greedy: bool, recurrent: bool) returns (q: Request)
    ensures q.greedy == greedy && q.ignoreEos && q.target.recurrent == recurrent && !SpecServes(q, c)
  {
    var w := EosScript(greedy, recurrent);
    q := w.Spoken();
    SpokenSpeaks(w);
    EosRun(q, c);
    EosPlain(q, w, greedy, recurrent);
    Differs(q, c, Drafting(9), 0, 1, []);
  }

  lemma EosRun(q: Request, c: SpecConfig)
    requires q.eos == 1 && q.argmax(q.target.head(NOWHERE)) == 1
    requires forall l, ctx, rng :: q.draw(l, ctx, rng).0 == 1
    ensures SpecRunOf(q, c, Drafting(9), NOWHERE, 0, 1) == SpecOk([])
  {
    var p := q.(ignoreEos := false);
    var (first, rng) := Choose(p, p.target.head(NOWHERE), [], 0);
    assert first == 1 && ShouldStop(p, 1);
  }

  lemma EosPlain(q: Request, w: Script, greedy: bool, recurrent: bool)
    requires w == EosScript(greedy, recurrent) && Speaks(q, w)
    ensures Plain(q, NOWHERE, [], 0, 1) != []
  {
    PlainDiffers(q, w, [if greedy then 2 else 1], 0, 1, []);
  }

}
