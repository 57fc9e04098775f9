/** What a generation is, in terms of the request's own fields: which tokens may go out, in
    which order, and what ends it. */
module StopRule {
  import opened Model

  /** From index `n` on, no token that stops and none after the client declined. */
  ghost predicate Proper(q: Request, n: nat, out: seq<Token>) {
    && (forall i | n <= i < |out| :: out[i] !in q.stopTokens && (out[i] == q.eos ==> q.ignoreEos))
    && (forall i | n < i < |out| :: q.keepGoing(out[..i]))
  }

  /** The same, and the client has not declined what is out now. */
  ghost predicate Open(q: Request, n: nat, out: seq<Token>) {
    Proper(q, n, out) && (|out| > n ==> q.keepGoing(out))
  }

  lemma ProperSnoc(q: Request, n: nat, out: seq<Token>, tok: Token)
    requires Open(q, n, out) && !ShouldStop(q, tok)
    ensures Proper(q, n, out + [tok])
  {
    forall i | n < i < |out + [tok]| ensures q.keepGoing((out + [tok])[..i]) {
      assert (out + [tok])[..i] == if i == |out| then out else out[..i];
    }
  }

  /** A plain run puts out no stop token, no EOS unless it is ignored, and nothing after the
      client declined. */
  lemma {:induction false} PlainProper(q: Request, s: State, n: nat, gen: seq<Token>, rng: Rng, budget: nat)
    requires Open(q, n, gen)
    ensures Proper(q, n, Plain(q, s, gen, rng, budget))
    decreases budget
  {
    if budget > 0 {
      var (tok, rng') := Choose(q, q.target.head(s), gen, rng);
      if !ShouldStop(q, tok) {
        ProperSnoc(q, n, gen, tok);
        if q.keepGoing(gen + [tok]) { PlainProper(q, Feed(q.target, s, tok), n, gen + [tok], rng', budget - 1); }
      }
    }
  }

  /** The state of the generator once `out[n..]` has been chosen and fed, from `s` on. */
  function RngAfter(q: Request, s: State, n: nat, out: seq<Token>, rng: Rng): Rng
    decreases |out| - n
  {
    if n >= |out| then rng
    else RngAfter(q, Feed(q.target, s, out[n]), n + 1, out, Choose(q, q.target.head(s), out[..n], rng).1)
  }

  /** What the target chooses behind `out`, `out[n..]` fed from `s` on. */
  function NextAfter(q: Request, s: State, n: nat, out: seq<Token>, rng: Rng): Token
    requires n <= |out|
  {
    Choose(q, q.target.head(FeedAll(q.target, s, out[n..])), out, RngAfter(q, s, n, out, rng)).0
  }

  lemma NextLater(q: Request, s: State, n: nat, out: seq<Token>, rng: Rng)
    requires n < |out|
    ensures NextAfter(q, s, n, out, rng) ==
            NextAfter(q, Feed(q.target, s, out[n]), n + 1, out, Choose(q, q.target.head(s), out[..n], rng).1)
  {
    assert out[n..] == [out[n]] + out[n + 1..];
    FeedAllCons(q.target, s, out[n], out[n + 1..]);
  }

  /** Why a run is over: its budget is spent, its client declined, or a stop comes next. */
  ghost predicate Over(q: Request, s: State, n: nat, out: seq<Token>, rng: Rng, budget: nat)
    requires n <= |out|
  {
    || |out| == n + budget
    || (|out| > n && !q.keepGoing(out))
    || (var next := NextAfter(q, s, n, out, rng); next in q.stopTokens || (next == q.eos && !q.ignoreEos))
  }

  /** A plain run is over for one of these reasons, and for no other. */
  lemma {:induction false} PlainEnds(q: Request, s: State, gen: seq<Token>, rng: Rng, budget: nat, out: seq<Token>)
    requires out == Plain(q, s, gen, rng, budget)
    ensures |gen| <= |out| <= |gen| + budget && out[..|gen|] == gen
    ensures Over(q, s, |gen|, out, rng, budget)
    decreases budget
  {
    PlainExtends(q, s, gen, rng, budget);
    if budget > 0 {
      var (tok, rng') := Choose(q, q.target.head(s), gen, rng);
      if ShouldStop(q, tok) {
        assert out[|gen|..] == [] && out == gen;
      } else if q.keepGoing(gen + [tok]) {
        EndsLater(q, s, gen, tok, rng, rng', budget, out);
      }
    }
  }

  lemma {:induction false} EndsLater(q: Request, s: State, gen: seq<Token>, tok: Token, rng: Rng, rng': Rng,
                                     budget: nat, out: seq<Token>)
    requires budget > 0 && Choose(q, q.target.head(s), gen, rng) == (tok, rng') && q.keepGoing(gen + [tok])
    requires out == Plain(q, Feed(q.target, s, tok), gen + [tok], rng', budget - 1)
    ensures |gen| < |out| && out[..|gen|] == gen && Over(q, s, |gen|, out, rng, budget)
    decreases budget, 0
  {
    PlainEnds(q, Feed(q.target, s, tok), gen + [tok], rng', budget - 1, out);
    assert out[..|gen| + 1][..|gen|] == gen && out[|gen|] == out[..|gen| + 1][|gen|];
    NextLater(q, s, |gen|, out, rng);
  }

  /** Every token that goes out is the one chosen at its place. */
  lemma {:induction false} PlainChooses(q: Request, s: State, gen: seq<Token>, rng: Rng, budget: nat, out: seq<Token>,
                                        i: nat)
    requires out == Plain(q, s, gen, rng, budget) && |gen| <= i < |out|
    ensures out[i] == NextAfter(q, s, |gen|, out[..i], rng)
    decreases budget
  {
    PlainExtends(q, s, gen, rng, budget);
    var (tok, rng') := Choose(q, q.target.head(s), gen, rng);
    var gen' := gen + [tok];
    if q.keepGoing(gen') { PlainExtends(q, Feed(q.target, s, tok), gen', rng', budget - 1); }
    assert gen' <= out;
    if i == |gen| {
      assert out[..i] == gen && gen[|gen|..] == [];
    } else {
      PlainChooses(q, Feed(q.target, s, tok), gen', rng', budget - 1, out, i);
      assert out[..i][..|gen|] == gen && out[..i][|gen|] == tok;
      NextLater(q, s, |gen|, out[..i], rng);
    }
  }

  ghost predicate ChosenAt(q: Request, s: State, n: nat, out: seq<Token>, rng: Rng, i: nat)
    requires n <= i < |out|
  {
    out[i] == NextAfter(q, s, n, out[..i], rng)
  }

  /** All of a run: it goes on from `gen` within its budget, every token is the one chosen at
      its place, none stops or follows a declined one, and it is over. */
  ghost predicate IsRun(q: Request, s: State, gen: seq<Token>, rng: Rng, budget: nat, out: seq<Token>) {
    && gen <= out && |out| <= |gen| + budget
    && (forall i | |gen| <= i < |out| :: ChosenAt(q, s, |gen|, out, rng, i))
    && Proper(q, |gen|, out)
    && Over(q, s, |gen|, out, rng, budget)
  }

  /** Plain decoding returns the one sequence that is such a run. */
  lemma PlainExact(q: Request, s: State, gen: seq<Token>, rng: Rng, budget: nat, out: seq<Token>)
    ensures out == Plain(q, s, gen, rng, budget) <==> IsRun(q, s, gen, rng, budget, out)
  {
    if out == Plain(q, s, gen, rng, budget) {
      PlainEnds(q, s, gen, rng, budget, out);
      PlainProper(q, s, |gen|, gen, rng, budget);
      forall i | |gen| <= i < |out| ensures ChosenAt(q, s, |gen|, out, rng, i) {
        PlainChooses(q, s, gen, rng, budget, out, i);
      }
    } else if IsRun(q, s, gen, rng, budget, out) {
      RunIsPlain(q, s, gen, rng, budget, out);
    }
  }

  lemma {:induction false} RunIsPlain(q: Request, s: State, gen: seq<Token>, rng: Rng, budget: nat, out: seq<Token>)
    requires IsRun(q, s, gen, rng, budget, out)
    ensures out == Plain(q, s, gen, rng, budget)
    decreases budget
  {
    if budget > 0 {
      var (tok, rng') := Choose(q, q.target.head(s), gen, rng);
      assert gen[|gen|..] == [];
      if out == gen {
        assert out[|gen|..] == [];
      } else {
        assert ChosenAt(q, s, |gen|, out, rng, |gen|);
        assert out[..|gen|] == gen && out[|gen|] == tok;
        var gen' := gen + [tok];
        assert out[..|gen'|] == gen';
        if q.keepGoing(gen') {
          RunLater(q, s, gen, tok, rng, rng', budget, out);
          RunIsPlain(q, Feed(q.target, s, tok), gen', rng', budget - 1, out);
        } else {
          assert |out| == |gen'|;
        }
      }
    }
  }

  lemma ChosenLater(q: Request, s: State, n: nat, tok: Token, rng: Rng, out: seq<Token>, i: nat)
    requires n < i < |out| && out[n] == tok && ChosenAt(q, s, n, out, rng, i)
    ensures ChosenAt(q, Feed(q.target, s, tok), n + 1, out, Choose(q, q.target.head(s), out[..n], rng).1, i)
  {
    assert out[..i][..n] == out[..n] && out[..i][n] == tok;
    NextLater(q, s, n, out[..i], rng);
  }

  lemma OverLater(q: Request, s: State, n: nat, tok: Token, rng: Rng, budget: nat, out: seq<Token>)
    requires budget > 0 && n < |out| && out[n] == tok && Over(q, s, n, out, rng, budget)
    requires |out| == n + 1 ==> q.keepGoing(out)
    ensures Over(q, Feed(q.target, s, tok), n + 1, out, Choose(q, q.target.head(s), out[..n], rng).1, budget - 1)
  {
    NextLater(q, s, n, out, rng);
  }

  /** Past its first token, a run is one of the state after it. */
  lemma RunLater(q: Request, s: State, gen: seq<Token>, tok: Token, rng: Rng, rng': Rng, budget: nat, out: seq<Token>)
    requires budget > 0 && IsRun(q, s, gen, rng, budget, out) && gen + [tok] <= out && q.keepGoing(gen + [tok])
    requires Choose(q, q.target.head(s), gen, rng) == (tok, rng')
    ensures IsRun(q, Feed(q.target, s, tok), gen + [tok], rng', budget - 1, out)
  {
    assert out[..|gen|] == gen && out[|gen|] == tok;
    assert |out| == |gen| + 1 ==> out == gen + [tok];
    OverLater(q, s, |gen|, tok, rng, budget, out);
    var s', n := Feed(q.target, s, tok), |gen| + 1;
    forall i | n <= i < |out| ensures ChosenAt(q, s', n, out, rng', i) {
      ChosenLater(q, s, |gen|, tok, rng, out, i);
    }
  }

  /** A sampler that can keep from the EOS. */
  ghost predicate AvoidsEos(q: Request) {
    if q.greedy then forall logits :: q.argmaxExcluding(logits, q.eos) != q.eos
    else forall logits, ctx, rng {:trigger q.draw(q.suppress(logits, q.eos), ctx, rng)} ::
           q.draw(q.suppress(logits, q.eos), ctx, rng).0 != q.eos
  }

  /** Ignoring the EOS keeps it out of the output, and changes no greedy choice but the EOS. */
  lemma IgnoredEosIsNotChosen(q: Request, logits: Logits, ctx: seq<Token>, rng: Rng)
    requires q.ignoreEos && AvoidsEos(q)
    ensures Choose(q, logits, ctx, rng).0 != q.eos
    ensures q.greedy && q.argmax(logits) != q.eos ==> Choose(q, logits, ctx, rng).0 == q.argmax(logits)
  {
  }

  lemma IgnoredEosStaysIn(q: Request, s: State, gen: seq<Token>, rng: Rng, budget: nat, out: seq<Token>, i: nat)
    requires q.ignoreEos && AvoidsEos(q) && out == Plain(q, s, gen, rng, budget) && |gen| <= i < |out|
    ensures out[i] != q.eos
  {
    PlainChooses(q, s, gen, rng, budget, out, i);
    IgnoredEosIsNotChosen(q, q.target.head(FeedAll(q.target, s, out[..i][|gen|..])), out[..i],
                          RngAfter(q, s, |gen|, out[..i], rng));
  }
}
