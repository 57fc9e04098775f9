/** Target-only decoding, the loop every speculative loop has to agree with, and the
    reuse of a finished run's cache by the next turn. */
module PlainDecode {
  import opened Model
  import opened EngineState
  import opened StopRule

  method FinishGeneration(e: Engine, q: Request, start: Logits, rng0: Rng, maxTokens: nat)
    returns (gen: seq<Token>)
    requires e.Valid() && e.target == q.target && start == q.target.head(e.Now())
    modifies e
    ensures e.Valid()
    ensures gen == Plain(q, old(e.Now()), [], rng0, maxTokens)
    ensures IsRun(q, old(e.Now()), [], rng0, maxTokens, gen)
    ensures Settled(q.target, old(e.Now()), e.Now(), gen)
  {
    ghost var base := e.Now();
    ghost var goal := Plain(q, base, [], rng0, maxTokens);
    PlainExact(q, base, [], rng0, maxTokens, goal);
    gen := [];
    var logits, rng := start, rng0;
    for i := 0 to maxTokens
      invariant e.Valid() && logits == q.target.head(e.Now())
      invariant e.Now() == FeedAll(q.target, base, gen)
      invariant Plain(q, e.Now(), gen, rng, maxTokens - i) == goal
    {
      var (tok, rng') := Choose(q, logits, gen, rng);
      if ShouldStop(q, tok) {
        return;
      }
      FeedAllSnoc(q.target, base, gen, tok);
      assert (gen + [tok])[..|gen|] == gen;
      gen, rng := gen + [tok], rng';
      if !q.keepGoing(gen) {
        return;
      }
      logits := e.Forward(tok);
    }
  }

  /** Prefill from scratch, or of the uncached part only, then plain decoding. */
  method GenerateWithTokens(e: Engine, q: Request, prompt: seq<Token>, resumeFrom: Option<nat>, rng: Rng,
                            maxTokens: nat)
    returns (gen: seq<Token>)
    requires e.Valid() && e.target == q.target
    requires resumeFrom.Some? ==> resumeFrom.value <= |prompt|
    modifies e
    ensures e.Valid()
    ensures resumeFrom.Some? ==>
              gen == Plain(q, FeedAll(q.target, old(e.Now()), prompt[resumeFrom.value..]), [], rng, maxTokens)
    ensures resumeFrom == None || old(e.Now()) == FeedAll(q.target, e.Blank(), prompt[..resumeFrom.value]) ==>
              && gen == Plain(q, FeedAll(q.target, e.Blank(), prompt), [], rng, maxTokens)
              && Settled(q.target, FeedAll(q.target, e.Blank(), prompt), e.Now(), gen)
  {
    var tokens := prompt;
    if resumeFrom.Some? {
      tokens := prompt[resumeFrom.value..];
      FeedAllConcat(q.target, e.Blank(), prompt[..resumeFrom.value], tokens);
      assert prompt[..resumeFrom.value] + tokens == prompt;
    } else {
      e.Clear();
    }
    var _ := e.ForwardWindow(tokens);
    gen := FinishGeneration(e, q, q.target.head(e.Now()), rng, maxTokens);
  }

  /** A settled cache is the run of a prefix of the tokens it was settled with, and at most one
      of them short. */
  lemma SettledTokens(t: Target, blank: State, prompt: seq<Token>, final: State, out: seq<Token>)
    requires blank.kv == [] && Settled(t, FeedAll(t, blank, prompt), final, out)
    ensures |final.kv| <= |prompt + out| <= |final.kv| + 1
    ensures final == FeedAll(t, blank, (prompt + out)[..|final.kv|])
  {
    var kept := if final == FeedAll(t, FeedAll(t, blank, prompt), out) then out else out[..|out| - 1];
    FeedAllConcat(t, blank, prompt, kept);
    FeedAllRows(t, blank, prompt + kept, 0);
    assert (prompt + out)[..|prompt + kept|] == prompt + kept;
  }

  /** Feeding the uncached rest of a prompt reaches the whole prompt's state. */
  lemma ResumeState(t: Target, blank: State, cached: State, known: seq<Token>, prompt: seq<Token>)
    requires |cached.kv| <= |known| && known <= prompt
    requires cached == FeedAll(t, blank, known[..|cached.kv|])
    ensures FeedAll(t, cached, prompt[|cached.kv|..]) == FeedAll(t, blank, prompt)
  {
    var n := |cached.kv|;
    assert known[..n] == prompt[..n];
    FeedAllConcat(t, blank, prompt[..n], prompt[n..]);
    assert prompt[..n] + prompt[n..] == prompt;
  }
}
