/** The target model as the decoding loops see it: a causal sequence state, the
    logits that state predicts, and the sampling request of one generation. */
module Model {

  /** A `u32` vocabulary id. */
  type Token = t: nat | t < 0x1_0000_0000

  /** Float buffers; no loop does arithmetic on them. */
  type Row = seq<real>
  type Rec = seq<real>
  type RecInput = seq<real>
  type Logits = seq<real>

  type Rng = nat

  datatype Option<+T> = None | Some(value: T)

  /** One K/V row per position consumed, plus the recurrent (conv and delta) state. */
  datatype State = State(kv: seq<Row>, rec: Rec)

  /** A target network. Every field is arbitrary, and both the next row and the
      logits read the recurrent state, so a stale one changes what follows. */
  datatype Target = Target(
    recurrent: bool,
    rowOf: (State, Token) -> Row,
    inputOf: (State, Token) -> RecInput,
    recStep: (Rec, RecInput) -> Rec,
    head: State -> Logits)

  function RecAfter(t: Target, s: State, tok: Token): Rec {
    if t.recurrent then t.recStep(s.rec, t.inputOf(s, tok)) else s.rec
  }

  function Feed(t: Target, s: State, tok: Token): State {
    State(s.kv + [t.rowOf(s, tok)], RecAfter(t, s, tok))
  }

  function FeedAll(t: Target, s: State, toks: seq<Token>): State {
    if toks == [] then s
    else Feed(t, FeedAll(t, s, toks[..|toks| - 1]), toks[|toks| - 1])
  }

  lemma FeedAllSnoc(t: Target, s: State, toks: seq<Token>, tok: Token)
    ensures FeedAll(t, s, toks + [tok]) == Feed(t, FeedAll(t, s, toks), tok)
  {
    assert (toks + [tok])[..|toks|] == toks;
  }

  lemma FeedAllStep(t: Target, s: State, toks: seq<Token>, i: nat)
    requires i < |toks|
    ensures FeedAll(t, s, toks[..i + 1]) == Feed(t, FeedAll(t, s, toks[..i]), toks[i])
  {
    assert toks[..i + 1] == toks[..i] + [toks[i]];
    FeedAllSnoc(t, s, toks[..i], toks[i]);
  }

  lemma {:induction false} FeedAllConcat(t: Target, s: State, a: seq<Token>, b: seq<Token>)
    ensures FeedAll(t, s, a + b) == FeedAll(t, FeedAll(t, s, a), b)
    decreases |b|
  {
    if b == [] {
      assert a + b == a;
    } else {
      var b', last := b[..|b| - 1], b[|b| - 1];
      assert a + b == (a + b') + [last];
      FeedAllSnoc(t, s, a + b', last);
      FeedAllConcat(t, s, a, b');
    }
  }

  lemma FeedAllCons(t: Target, s: State, tok: Token, b: seq<Token>)
    ensures FeedAll(t, s, [tok] + b) == FeedAll(t, Feed(t, s, tok), b)
  {
    FeedAllConcat(t, s, [tok], b);
    FeedAllSnoc(t, s, [], tok);
    assert [] + [tok] == [tok];
  }

  /** The state before token `i` of a run: `FeedAll` by index. */
  function At(t: Target, s: State, toks: seq<Token>, i: nat): State
    requires i <= |toks|
  {
    if i == 0 then s else Feed(t, At(t, s, toks, i - 1), toks[i - 1])
  }

  lemma {:induction false} AtIsFeedAll(t: Target, s: State, toks: seq<Token>, i: nat)
    requires i <= |toks|
    ensures At(t, s, toks, i) == FeedAll(t, s, toks[..i])
    decreases i
  {
    if i > 0 {
      AtIsFeedAll(t, s, toks, i - 1);
      FeedAllStep(t, s, toks, i - 1);
    }
  }

  /** Causality: a longer run keeps the rows of every shorter one, so a cache can be
      cut back by its length alone. */
  lemma {:induction false} FeedAllRows(t: Target, s: State, toks: seq<Token>, i: nat)
    requires i <= |toks|
    ensures |FeedAll(t, s, toks).kv| == |s.kv| + |toks|
    ensures FeedAll(t, s, toks).kv[..|s.kv| + i] == FeedAll(t, s, toks[..i]).kv
    decreases |toks|
  {
    if i == |toks| {
      assert toks[..i] == toks;
      if toks != [] { FeedAllRows(t, s, toks[..i - 1], i - 1); }
    } else {
      var init := toks[..|toks| - 1];
      FeedAllRows(t, s, init, i);
      assert init[..i] == toks[..i];
    }
  }

  lemma {:induction false} FeedAllNotRecurrent(t: Target, s: State, toks: seq<Token>)
    requires !t.recurrent
    ensures FeedAll(t, s, toks).rec == s.rec
  {
    if toks != [] { FeedAllNotRecurrent(t, s, toks[..|toks| - 1]); }
  }

  /** One generation: the target, the sampler and the client. `keepGoing` is the
      callback's answer after the tokens generated so far. */
  datatype Request = Request(
    target: Target,
    greedy: bool,
    ignoreEos: bool,
    eos: Token,
    stopTokens: set<Token>,
    argmax: Logits -> Token,
    argmaxExcluding: (Logits, Token) -> Token,
    suppress: (Logits, Token) -> Logits,
    draw: (Logits, seq<Token>, Rng) -> (Token, Rng),
    keepGoing: seq<Token> -> bool)

  /** The tokens that end a generation: the stop set, and the EOS unless it is ignored. */
  predicate IsStop(ignoreEos: bool, eos: Token, stops: set<Token>, tok: Token) {
    tok in stops || (!ignoreEos && tok == eos)
  }

  predicate ShouldStop(q: Request, tok: Token) {
    IsStop(q.ignoreEos, q.eos, q.stopTokens, tok)
  }

  /** Argmax, with an ignored EOS replaced by the best other token. */
  function GreedyToken(q: Request, logits: Logits): Token {
    var best := q.argmax(logits);
    if q.ignoreEos && best == q.eos then q.argmaxExcluding(logits, q.eos) else best
  }

  /** The token the target emits after `ctx`, and the generator state it leaves. */
  function Choose(q: Request, logits: Logits, ctx: seq<Token>, rng: Rng): (Token, Rng) {
    if q.greedy then (GreedyToken(q, logits), rng)
    else q.draw(if q.ignoreEos then q.suppress(logits, q.eos) else logits, ctx, rng)
  }

  /** What plain decoding returns from a state on: choose, stop or emit, feed, repeat. */
  function Plain(q: Request, s: State, gen: seq<Token>, rng: Rng, budget: nat): seq<Token>
    decreases budget, 1
  {
    if budget == 0 then gen
    else
      var (tok, rng') := Choose(q, q.target.head(s), gen, rng);
      Emit(q, s, tok, rng', gen, budget)
  }

  /** The rest of a plain run once its next token has been chosen. */
  function Emit(q: Request, s: State, tok: Token, rng: Rng, gen: seq<Token>, budget: nat): seq<Token>
    decreases budget, 0
  {
    if budget == 0 || ShouldStop(q, tok) then gen
    else if !q.keepGoing(gen + [tok]) then gen + [tok]
    else Plain(q, Feed(q.target, s, tok), gen + [tok], rng, budget - 1)
  }

  /** A plain run only appends, and by no more than its budget. */
  lemma {:induction false} PlainExtends(q: Request, s: State, gen: seq<Token>, rng: Rng, budget: nat)
    ensures gen <= Plain(q, s, gen, rng, budget)
    ensures |Plain(q, s, gen, rng, budget)| <= |gen| + budget
    decreases budget
  {
    if budget > 0 {
      var (tok, rng') := Choose(q, q.target.head(s), gen, rng);
      if !ShouldStop(q, tok) && q.keepGoing(gen + [tok]) {
        PlainExtends(q, Feed(q.target, s, tok), gen + [tok], rng', budget - 1);
      }
    }
  }

  /** Emitting a token ends the run when the client declines it or it was the last one. */
  lemma EmitCases(q: Request, s: State, tok: Token, rng: Rng, gen: seq<Token>, budget: nat)
    requires budget > 0 && !ShouldStop(q, tok)
    ensures Emit(q, s, tok, rng, gen, budget) ==
            if q.keepGoing(gen + [tok]) && budget > 1
            then Plain(q, Feed(q.target, s, tok), gen + [tok], rng, budget - 1)
            else gen + [tok]
  {
  }

  /** A sampler whose token does not depend on the generator state. */
  ghost predicate Deterministic(q: Request) {
    q.greedy || forall logits, ctx, r, r' :: q.draw(logits, ctx, r).0 == q.draw(logits, ctx, r').0
  }

  /** Under such a sampler the generator state does not matter to a run. */
  lemma {:induction false} PlainAnyRng(q: Request, s: State, gen: seq<Token>, r: Rng, r': Rng, budget: nat)
    requires Deterministic(q)
    ensures Plain(q, s, gen, r, budget) == Plain(q, s, gen, r', budget)
    decreases budget, 1
  {
    if budget > 0 {
      var (tok, next) := Choose(q, q.target.head(s), gen, r);
      var (tok', next') := Choose(q, q.target.head(s), gen, r');
      EmitAnyRng(q, s, tok, next, next', gen, budget);
    }
  }

  lemma {:induction false} EmitAnyRng(q: Request, s: State, tok: Token, r: Rng, r': Rng, gen: seq<Token>, budget: nat)
    requires Deterministic(q)
    ensures Emit(q, s, tok, r, gen, budget) == Emit(q, s, tok, r', gen, budget)
    decreases budget, 0
  {
    if budget > 0 && !ShouldStop(q, tok) && q.keepGoing(gen + [tok]) {
      PlainAnyRng(q, Feed(q.target, s, tok), gen + [tok], r, r', budget - 1);
    }
  }

  /** A finished run's cache holds all it generated, or all but the last token. */
  ghost predicate Settled(t: Target, base: State, now: State, gen: seq<Token>) {
    || now == FeedAll(t, base, gen)
    || (gen != [] && now == FeedAll(t, base, gen[..|gen| - 1]))
  }
}
