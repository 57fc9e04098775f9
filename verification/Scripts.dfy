/** Requests that speak by position, and what the judging loop and plain decoding make of
    them: the material of every counterexample. */
module Scripts {
  import opened Model
  import opened MtpVerify
  import opened MtpRoutes

  /** The flags of a request and of its target. */
  predicate Flagged(q: Request, greedy: bool, ignoreEos: bool, recurrent: bool) {
    q.greedy == greedy && q.ignoreEos == ignoreEos && q.target.recurrent == recurrent
  }

  /** A target that predicts how many tokens it has consumed. */
  function Ruler(recurrent: bool): Target {
    Target(recurrent, (s: State, t) => [], (s: State, t) => [], (r, i) => r,
           (s: State) => seq(|s.kv|, _ => 0.0))
  }

  /** A request over the ruler: at position `p` the argmax is `raw(p)`, the best token but the
      EOS is `alt(p)`, a sampler with `n` tokens in context draws `pick(p, n)`, and the client
      goes on below `most` tokens. */
  datatype Script = Script(recurrent: bool, greedy: bool, ignoreEos: bool, eos: Token, stops: set<Token>,
                           raw: nat -> Token, alt: nat -> Token, pick: (nat, nat) -> Token, most: nat)
  {
    function Spoken(): Request {
      Request(Ruler(recurrent), greedy, ignoreEos, eos, stops,
              logits => raw(|logits|), (logits, t) => alt(|logits|), (logits, t) => logits,
              (logits, ctx, rng) => (pick(|logits|, |ctx|), rng), gen => |gen| < most)
    }

    function Best(p: nat): Token {
      if ignoreEos && raw(p) == eos then alt(p) else raw(p)
    }

    function Says(p: nat, n: nat): Token {
      if greedy then Best(p) else pick(p, n)
    }

    predicate Stops(tok: Token) {
      IsStop(ignoreEos, eos, stops, tok)
    }
  }

  const NOWHERE: State := State([], [])

  function Repeat(tok: Token, n: nat): seq<Token> {
    seq(n, _ => tok)
  }

  /** The request does what the script says. */
  ghost predicate Speaks(q: Request, w: Script) {
    && (forall s: State, gen, rng: Rng {:trigger Choose(q, q.target.head(s), gen, rng)} ::
          Choose(q, q.target.head(s), gen, rng) == (w.Says(|s.kv|, |gen|), rng))
    && (forall s: State {:trigger GreedyNext(q, s)} :: GreedyNext(q, s) == w.Best(|s.kv|))
    && (forall s: State {:trigger q.argmax(q.target.head(s))} :: q.argmax(q.target.head(s)) == w.raw(|s.kv|))
    && (forall tok {:trigger ShouldStop(q, tok)} :: ShouldStop(q, tok) <==> w.Stops(tok))
    && (forall gen {:trigger q.keepGoing(gen)} :: q.keepGoing(gen) <==> |gen| < w.most)
  }

  lemma SpokenSpeaks(w: Script)
    ensures Speaks(w.Spoken(), w)
  {
  }

  lemma PositionAfter(t: Target, s: State, toks: seq<Token>, i: nat)
    requires i <= |toks|
    ensures |FeedAll(t, s, toks).kv| == |s.kv| + |toks|
    ensures |At(t, s, toks, i).kv| == |s.kv| + i
  {
    FeedAllRows(t, s, toks, 0);
    FeedAllRows(t, s, toks[..i], 0);
    AtIsFeedAll(t, s, toks, i);
  }

  /** The first `m` drafts are what the script says from position `p` on, with `n` tokens out
      before them, and none of them stops. */
  predicate Matches(w: Script, p: nat, n: nat, drafts: seq<Token>, limit: nat, m: nat)
    requires m <= |drafts|
  {
    forall j | 0 <= j < m :: w.Says(p + j, n + Min(j, limit)) == drafts[j] && !w.Stops(drafts[j])
  }

  /** Judging emits the drafts that match below the limit. */
  lemma {:induction false} JudgeEmits(q: Request, w: Script, s: State, drafts: seq<Token>, limit: nat, m: nat,
                                      gen: seq<Token>, rng: Rng, remaining: nat, end: Verdict)
    requires Speaks(q, w)
    requires m <= limit <= |drafts| && m < remaining && |gen| + m < w.most
    requires Matches(w, |s.kv|, |gen|, drafts, limit, m)
    requires Judge(q, Along(q, s, drafts), drafts, limit, m, gen + drafts[..m], rng, remaining - m) == end
    ensures Judge(q, Along(q, s, drafts), drafts, limit, 0, gen, rng, remaining) == end
  {
    if m > 0 {
      assert gen + drafts[..m - 1] + [drafts[m - 1]] == gen + drafts[..m];
      JudgeHits(q, w, s, drafts, limit, m - 1, gen + drafts[..m - 1], rng, remaining - (m - 1), end);
      JudgeEmits(q, w, s, drafts, limit, m - 1, gen, rng, remaining, end);
    } else {
      assert gen + drafts[..0] == gen;
    }
  }

  /** It accepts those past the limit without emitting them. `n` tokens were out before
      the first draft. */
  lemma {:induction false} JudgeSkips(q: Request, w: Script, s: State, drafts: seq<Token>, limit: nat, m: nat, n: nat,
                                      gen: seq<Token>, rng: Rng, remaining: nat, end: Verdict)
    requires Speaks(q, w)
    requires limit <= m <= |drafts| && remaining > 0 && |gen| == n + limit
    requires Matches(w, |s.kv|, n, drafts, limit, m)
    requires Judge(q, Along(q, s, drafts), drafts, limit, m, gen, rng, remaining) == end
    ensures Judge(q, Along(q, s, drafts), drafts, limit, limit, gen, rng, remaining) == end
  {
    if m > limit {
      JudgeHits(q, w, s, drafts, limit, m - 1, gen, rng, remaining, end);
      JudgeSkips(q, w, s, drafts, limit, m - 1, n, gen, rng, remaining, end);
    }
  }

  lemma JudgeHits(q: Request, w: Script, s: State, drafts: seq<Token>, limit: nat, i: nat, gen: seq<Token>, rng: Rng,
                  remaining: nat, end: Verdict)
    requires Speaks(q, w)
    requires i < |drafts| && remaining > 0 && w.Says(|s.kv| + i, |gen|) == drafts[i] && !w.Stops(drafts[i])
    requires i < limit ==> |gen| + 1 < w.most && remaining > 1
    requires end == if i < limit
                    then Judge(q, Along(q, s, drafts), drafts, limit, i + 1, gen + [drafts[i]], rng, remaining - 1)
                    else Judge(q, Along(q, s, drafts), drafts, limit, i + 1, gen, rng, remaining)
    ensures Judge(q, Along(q, s, drafts), drafts, limit, i, gen, rng, remaining) == end
  {
    PositionAfter(q.target, s, drafts, i);
  }

  lemma JudgeEnds(q: Request, s: State, drafts: seq<Token>, limit: nat, gen: seq<Token>, rng: Rng, remaining: nat,
                  end: Verdict)
    requires limit <= |drafts| && remaining > 0 && end == Verdict(|drafts|, limit, false, None, gen, rng, remaining)
    ensures Judge(q, Along(q, s, drafts), drafts, limit, |drafts|, gen, rng, remaining) == end
  {
  }

  /** Where the script says something else, judging ends with it. */
  lemma JudgeMisses(q: Request, w: Script, s: State, drafts: seq<Token>, limit: nat, i: nat, gen: seq<Token>, rng: Rng,
                    remaining: nat)
    requires Speaks(q, w)
    requires i < |drafts| && remaining > 0 && w.Says(|s.kv| + i, |gen|) != drafts[i]
    ensures Judge(q, Along(q, s, drafts), drafts, limit, i, gen, rng, remaining) ==
            Verdict(i, Min(i, limit), false, Some(w.Says(|s.kv| + i, |gen|)), gen, rng, remaining)
  {
    PositionAfter(q.target, s, drafts, i);
  }

  lemma JudgeStops(q: Request, w: Script, s: State, drafts: seq<Token>, limit: nat, i: nat, gen: seq<Token>, rng: Rng,
                   remaining: nat)
    requires Speaks(q, w)
    requires i < |drafts| && remaining > 0 && w.Says(|s.kv| + i, |gen|) == drafts[i] && w.Stops(drafts[i])
    ensures Judge(q, Along(q, s, drafts), drafts, limit, i, gen, rng, remaining) ==
            Verdict(i, Min(i, limit), true, None, gen, rng, remaining)
  {
    PositionAfter(q.target, s, drafts, i);
  }

  /** With the first `n` tokens out, plain decoding comes to `out`. */
  ghost predicate ComesTo(q: Request, toks: seq<Token>, rng: Rng, budget: nat, n: nat, out: seq<Token>)
  {
    && n <= |toks| && n <= budget
    && Plain(q, FeedAll(q.target, NOWHERE, toks[..n]), toks[..n], rng, budget - n) == out
  }

  /** Plain decoding says the script. */
  lemma {:induction false} PlainSays(q: Request, w: Script, toks: seq<Token>, rng: Rng, budget: nat, n: nat,
                                     out: seq<Token>)
    requires Speaks(q, w)
    requires n <= |toks| <= budget && |toks| <= w.most && ComesTo(q, toks, rng, budget, n, out)
    requires forall p | 0 <= p < |toks| :: w.Says(p, p) == toks[p] && !w.Stops(toks[p])
    ensures toks <= out
    decreases |toks| - n
  {
    if n == |toks| {
      SaidAll(q, toks, rng, budget, out);
    } else {
      PlainStep(q, w, toks, rng, budget, n, out);
      if n + 1 < w.most { PlainSays(q, w, toks, rng, budget, n + 1, out); }
    }
  }

  lemma SaidAll(q: Request, toks: seq<Token>, rng: Rng, budget: nat, out: seq<Token>)
    requires |toks| <= budget && ComesTo(q, toks, rng, budget, |toks|, out)
    ensures toks <= out
  {
    assert toks[..|toks|] == toks;
    PlainExtends(q, FeedAll(q.target, NOWHERE, toks), toks, rng, budget - |toks|);
  }

  lemma PlainStep(q: Request, w: Script, toks: seq<Token>, rng: Rng, budget: nat, n: nat, out: seq<Token>)
    requires Speaks(q, w)
    requires n < |toks| <= budget && |toks| <= w.most && w.Says(n, n) == toks[n] && !w.Stops(toks[n])
    requires ComesTo(q, toks, rng, budget, n, out)
    ensures if n + 1 < w.most then ComesTo(q, toks, rng, budget, n + 1, out) else out == toks[..n + 1] == toks
  {
    var s := FeedAll(q.target, NOWHERE, toks[..n]);
    PositionAfter(q.target, NOWHERE, toks[..n], n);
    assert toks[..n] + [toks[n]] == toks[..n + 1];
    FeedAllStep(q.target, NOWHERE, toks, n);
    EmitCases(q, s, toks[n], rng, toks[..n], budget - n);
  }

  /** An output that leaves the script at token `n` is not the plain one. */
  lemma PlainDiffers(q: Request, w: Script, toks: seq<Token>, rng: Rng, budget: nat, out: seq<Token>)
    requires Speaks(q, w)
    requires toks != [] && |toks| <= budget && |toks| <= w.most
    requires forall p | 0 <= p < |toks| :: w.Says(p, p) == toks[p] && !w.Stops(toks[p])
    requires !(toks <= out)
    ensures Plain(q, NOWHERE, [], rng, budget) != out
  {
    assert toks[..0] == [];
    PlainSays(q, w, toks, rng, budget, 0, Plain(q, NOWHERE, [], rng, budget));
  }
}
