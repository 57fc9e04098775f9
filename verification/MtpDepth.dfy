/** How much a stop can hold back: the runway doubles round by round until it reaches its full
    depth, and a stop at its end keeps all but that draft from going out. */
module MtpDepth {
  import opened Model
  import opened MtpVerify
  import opened MtpRoutes
  import opened MtpRounds
  import opened MtpRun
  import opened Scripts
  import opened MtpLimits

  /** How many tokens are out when the first full runway is asked for: with runways of `x`
      drafts now and `g` tokens out. */
  function FullAt(k: nat, depth: nat, x: nat, g: nat): (at: nat)
    requires x > 0
    ensures at >= g
    decreases depth - x
  {
    if x >= depth then g else FullAt(k, depth, 2 * x, g + 1 + k + x)
  }

  /** The round of that, when this is round `n`. */
  function FullRoundAt(depth: nat, x: nat, n: nat): (r: nat)
    requires x > 0
    ensures r >= n
    decreases depth - x
  {
    if x >= depth then n else FullRoundAt(depth, 2 * x, n + 1)
  }

  /** Always `tok`, and `stop` at position `p`. */
  function DeepScript(p: nat, ignoreEos: bool, recurrent: bool, eos: Token, stops: set<Token>, tok: Token,
                      stop: Token): Script {
    var raw := (at: nat) => if at == p then stop else tok;
    Script(recurrent, true, ignoreEos, eos, stops, raw, raw, (at: nat, n: nat) => tok, p + 9)
  }

  /** Always right, the stop at the end of round `r` included. */
  function DeepDrafts(tok: Token, stop: Token, r: nat): (nat, nat) -> seq<Token> {
    (n: nat, k: nat) => if n == r && k > 0 then Repeat(tok, k - 1) + [stop] else Repeat(tok, k)
  }

  lemma DeepDraftsObey(tok: Token, stop: Token, r: nat)
    ensures Obeys(DeepDrafts(tok, stop, r))
  {
    forall n: nat, k: nat ensures |DeepDrafts(tok, stop, r)(n, k)| == k {
      var drafts := DeepDrafts(tok, stop, r)(n, k);
      if n == r && k > 0 {
        assert drafts == Repeat(tok, k - 1) + [stop];
      } else {
        assert drafts == Repeat(tok, k);
      }
    }
  }

  /** The configuration, and a script that says `tok` everywhere but at `p`, where it stops. */
  ghost predicate Deep(c: Config, w: Script, k: nat, depth: nat, p: nat, tok: Token, stop: Token) {
    && c.execution.DeviceResident? && k == Max(c.specK, 1) && depth == RunwayDepth(c) > 0
    && w.greedy && w.most == p + 9 && !w.Stops(tok) && w.Stops(stop)
    && (forall at: nat, n: nat {:trigger w.Says(at, n)} :: w.Says(at, n) == if at == p then stop else tok)
    && (forall at: nat {:trigger w.Best(at)} :: w.Best(at) == if at == p then stop else tok)
  }

  lemma DeepSays(c: Config, w: Script, p: nat, tok: Token, stop: Token)
    requires c.execution.DeviceResident? && RunwayDepth(c) > 0 && w.Stops(stop) && !w.Stops(tok)
    requires w == DeepScript(p, w.ignoreEos, w.recurrent, w.eos, w.stops, tok, stop)
    ensures Deep(c, w, Max(c.specK, 1), RunwayDepth(c), p, tok, stop)
  {
  }

  lemma DeepMatches(c: Config, w: Script, k: nat, depth: nat, p: nat, tok: Token, stop: Token, at: nat,
                    drafts: seq<Token>, m: nat)
    requires Deep(c, w, k, depth, p, tok, stop) && m <= |drafts| && at + m <= p
    requires forall j | 0 <= j < m :: drafts[j] == tok
    ensures Matches(w, at, at, drafts, k, m)
  {
  }

  /** A turn in front of the last one: its runway is as deep as the confidence goes. */
  lemma AsksDeep(c: Config, k: nat, depth: nat, x: nat, remaining: nat)
    requires c.execution.DeviceResident? && k == Max(c.specK, 1) && depth == RunwayDepth(c) > 0 && x > 0
    requires remaining >= k + depth + 1
    ensures Asked(c, remaining, x) == (k, Min(x, depth))
    ensures x < depth ==> NextConfidence(c, x, k, k + x, k + x, x) == 2 * x
  {
  }

  /** All of a runway goes out. */
  lemma {:induction false} PopsAll(q: Request, w: Script, c: Config, drafter: (nat, nat) -> seq<Token>,
                                   gen: seq<Token>, tok: Token, remaining: nat, rounds: nat, confidence: nat, x: nat,
                                   out: seq<Token>, run: Run)
    requires Speaks(q, w) && !w.Stops(tok) && remaining > x && |gen| + x < w.most && out == gen + Repeat(tok, x)
    requires MtpRuns(q, c, drafter, out, tok, 0, remaining - x, rounds, confidence, [], tok, run)
    ensures MtpRuns(q, c, drafter, gen, tok, 0, remaining, rounds, confidence, Repeat(tok, x), tok, run)
    decreases x
  {
    var unread := Repeat(tok, x);
    if x == 0 {
      assert out == gen;
    } else {
      var gen' := gen + [tok];
      assert unread[1..] == Repeat(tok, x - 1) && out == gen' + Repeat(tok, x - 1);
      PopsAll(q, w, c, drafter, gen', tok, remaining - 1, rounds, confidence, x - 1, out, run);
      RunPops(q, c, drafter, NOWHERE, gen, tok, 0, remaining, rounds, confidence, unread, tok);
    }
  }

  lemma RepeatsJoin(tok: Token, g: nat, k: nat, x: nat)
    ensures Repeat(tok, k + x)[k..] == Repeat(tok, x) && Repeat(tok, k + x)[..k] == Repeat(tok, k)
    ensures Repeat(tok, g) + [tok] + Repeat(tok, k) == Repeat(tok, g + 1 + k)
    ensures Repeat(tok, g + 1 + k) + Repeat(tok, x) == Repeat(tok, g + 1 + k + x)
  {
  }

  /** A turn that doubles the confidence. */
  lemma ClimbTurn(q: Request, w: Script, c: Config, drafter: (nat, nat) -> seq<Token>, k: nat, depth: nat, p: nat,
                  tok: Token, stop: Token, x: nat, g: nat, n: nat, remaining: nat, drafts: seq<Token>, run: Run)
    requires Deep(c, w, k, depth, p, tok, stop) && Speaks(q, w) && 0 < x < depth && g + 1 + k + x < p
    requires remaining >= k + depth + 1 && drafts == drafter(n, k + x) && drafts == Repeat(tok, k + x)
    requires MtpRuns(q, c, drafter, Repeat(tok, g + 1 + k), tok, 0, remaining - 1 - k, n + 1, 2 * x, Repeat(tok, x),
                     tok, run)
    ensures MtpRuns(q, c, drafter, Repeat(tok, g), tok, 0, remaining, n, x, [], tok, run)
  {
    AsksDeep(c, k, depth, x, remaining);
    RepeatsJoin(tok, g, k, x);
    DeepMatches(c, w, k, depth, p, tok, stop, g + 1, drafts, k + x);
    FullTurn(q, w, c, drafter, Repeat(tok, g), tok, 0, remaining, n, x, tok, k, drafts, tok, Repeat(tok, g + 1 + k),
             Repeat(tok, x), 2 * x, run);
  }

  lemma TopJudged(q: Request, w: Script, c: Config, k: nat, depth: nat, p: nat, tok: Token, stop: Token, g: nat,
                  drafts: seq<Token>, out: seq<Token>, v: Verdict)
    requires Deep(c, w, k, depth, p, tok, stop) && Speaks(q, w) && p == g + k + depth
    requires drafts == Repeat(tok, k + depth - 1) + [stop] && out == Repeat(tok, g) + [tok]
    requires v == Verdict(k + depth - 1, k, true, None, out + drafts[..k], 0, depth)
    ensures VerdictAt(q, Before(q.target, out), drafts, k, out, 0, k + depth) == v
  {
    DeepMatches(c, w, k, depth, p, tok, stop, g + 1, drafts, k + depth - 1);
    StopJudged(q, w, out, drafts, k, k + depth - 1, 0, k + depth, v);
  }

  /** The last turn: a stop at the end of a full runway. */
  lemma TopTurn(q: Request, w: Script, c: Config, drafter: (nat, nat) -> seq<Token>, k: nat, depth: nat, p: nat,
                tok: Token, stop: Token, x: nat, gen: seq<Token>, n: nat, drafts: seq<Token>, v: Verdict, run: Run)
    requires Deep(c, w, k, depth, p, tok, stop) && Speaks(q, w) && depth <= x && p == |gen| + k + depth
    requires drafts == drafter(n, k + depth) && |drafts| == k + depth
    requires v.accepted == k + depth - 1 && v.emitted == k && v.stopped
    requires VerdictAt(q, Before(q.target, gen + [tok]), drafts, k, gen + [tok], 0, k + depth) == v
    requires run == Done(v.gen, drafts[k..k + depth - 1])
    ensures MtpRuns(q, c, drafter, gen, tok, 0, k + depth + 1, n, x, [], tok, run)
  {
    AsksDeep(c, k, depth, x, k + depth + 1);
    GoesOn(q, w, tok, gen, k + depth + 1);
    JudgedTurn(q, c, drafter, gen, tok, 0, k + depth + 1, n, x, tok, k, drafts, v, tok, TurnDone(v.gen), run);
  }

  /** The drafts of `DeepDrafts`. */
  ghost predicate Guides(drafter: (nat, nat) -> seq<Token>, tok: Token, stop: Token, r: nat) {
    forall n: nat, k: nat {:trigger drafter(n, k)} ::
      drafter(n, k) == if n == r && k > 0 then Repeat(tok, k - 1) + [stop] else Repeat(tok, k)
  }

  lemma TopDrafts(tok: Token, k: nat, depth: nat, g: nat, stop: Token, drafts: seq<Token>)
    requires depth > 0 && drafts == Repeat(tok, k + depth - 1) + [stop]
    ensures drafts[..k] == Repeat(tok, k) && drafts[k..k + depth - 1] == Repeat(tok, depth - 1)
    ensures Repeat(tok, g) + [tok] + Repeat(tok, k) == Repeat(tok, g + 1 + k)
  {
    RepeatsJoin(tok, g, k, depth - 1);
  }

  lemma AtTop(q: Request, w: Script, c: Config, drafter: (nat, nat) -> seq<Token>, k: nat, depth: nat, p: nat,
              tok: Token, stop: Token, x: nat, g: nat, r: nat, left: nat, run: Run)
    requires Deep(c, w, k, depth, p, tok, stop) && Speaks(q, w) && x >= depth && p == g + k + depth
    requires left == k + depth + 1
    requires Guides(drafter, tok, stop, r) && run == Done(Repeat(tok, g + 1 + k), Repeat(tok, depth - 1))
    ensures MtpRuns(q, c, drafter, Repeat(tok, g), tok, 0, left, r, x, [], tok, run)
  {
    var gen, drafts := Repeat(tok, g), Repeat(tok, k + depth - 1) + [stop];
    assert drafter(r, k + depth) == drafts;
    TopDrafts(tok, k, depth, g, stop, drafts);
    var v := Verdict(k + depth - 1, k, true, None, gen + [tok] + drafts[..k], 0, depth);
    TopJudged(q, w, c, k, depth, p, tok, stop, g, drafts, gen + [tok], v);
    TopTurn(q, w, c, drafter, k, depth, p, tok, stop, x, gen, r, drafts, v, run);
  }

  lemma BelowTop(q: Request, w: Script, c: Config, drafter: (nat, nat) -> seq<Token>, k: nat, depth: nat, p: nat,
                 tok: Token, stop: Token, x: nat, g: nat, n: nat, remaining: nat, x': nat, g': nat, left: nat, run: Run)
    requires Deep(c, w, k, depth, p, tok, stop) && Speaks(q, w) && 0 < x < depth && g' < p
    requires x' == 2 * x && g' == g + 1 + k + x && left == remaining - 1 - k - x
    requires drafter(n, k + x) == Repeat(tok, k + x) && remaining >= 2 + k + x + k + depth
    requires MtpRuns(q, c, drafter, Repeat(tok, g'), tok, 0, left, n + 1, x', [], tok, run)
    ensures MtpRuns(q, c, drafter, Repeat(tok, g), tok, 0, remaining, n, x, [], tok, run)
  {
    RepeatsJoin(tok, g, k, x);
    PopsAll(q, w, c, drafter, Repeat(tok, g + 1 + k), tok, remaining - 1 - k, n + 1, 2 * x, x,
            Repeat(tok, g + 1 + k + x), run);
    ClimbTurn(q, w, c, drafter, k, depth, p, tok, stop, x, g, n, remaining, Repeat(tok, k + x), run);
  }

  /** Round `n` starts with `g` tokens out and `left` to go; round `r` starts with `top` out and
      is the one with the full runway, its stop at `p`. */
  predicate Climbing(k: nat, depth: nat, p: nat, x: nat, g: nat, n: nat, top: nat, r: nat, left: nat) {
    && x > 0 && top == FullAt(k, depth, x, g) && r == FullRoundAt(depth, x, n)
    && p == top + k + depth && left == top - g + k + depth + 1
  }

  lemma ClimbsNoMore(k: nat, depth: nat, p: nat, x: nat, g: nat, n: nat, top: nat, r: nat, left: nat)
    requires x >= depth && Climbing(k, depth, p, x, g, n, top, r, left)
    ensures left == k + depth + 1 && top == g && r == n && p == g + k + depth
  {
  }

  lemma ClimbsOn(k: nat, depth: nat, p: nat, x: nat, g: nat, n: nat, top: nat, r: nat, left: nat)
    returns (x': nat, g': nat, left': nat)
    requires x < depth && Climbing(k, depth, p, x, g, n, top, r, left)
    ensures x' == 2 * x && g' == g + 1 + k + x && left' == left - 1 - k - x
    ensures left >= 2 + k + x + k + depth && g' < p && n < r
    ensures Climbing(k, depth, p, x', g', n + 1, top, r, left')
  {
    x', g', left' := 2 * x, g + 1 + k + x, left - 1 - k - x;
  }

  /** From any confidence up to the top. */
  lemma {:induction false} Climb(q: Request, w: Script, c: Config, drafter: (nat, nat) -> seq<Token>, k: nat,
                                 depth: nat, p: nat, tok: Token, stop: Token, x: nat, g: nat, n: nat, top: nat, r: nat,
                                 left: nat, run: Run)
    requires Deep(c, w, k, depth, p, tok, stop) && Speaks(q, w) && Guides(drafter, tok, stop, r)
    requires Climbing(k, depth, p, x, g, n, top, r, left)
    requires run == Done(Repeat(tok, top + 1 + k), Repeat(tok, depth - 1))
    ensures MtpRuns(q, c, drafter, Repeat(tok, g), tok, 0, left, n, x, [], tok, run)
    decreases depth - x
  {
    if x >= depth {
      ClimbsNoMore(k, depth, p, x, g, n, top, r, left);
      AtTop(q, w, c, drafter, k, depth, p, tok, stop, x, g, n, left, run);
    } else {
      var x', g', left' := ClimbsOn(k, depth, p, x, g, n, top, r, left);
      Climb(q, w, c, drafter, k, depth, p, tok, stop, x', g', n + 1, top, r, left', run);
      BelowTop(q, w, c, drafter, k, depth, p, tok, stop, x, g, n, left, x', g', left', run);
    }
  }

  /** The whole run: the first round has no runway and leaves a confidence of one. */
  lemma DeepRun(q: Request, w: Script, c: Config, drafter: (nat, nat) -> seq<Token>, k: nat, depth: nat, p: nat,
                tok: Token, stop: Token, top: nat, r: nat, run: Run)
    requires Deep(c, w, k, depth, p, tok, stop) && Speaks(q, w) && Guides(drafter, tok, stop, r)
    requires top == FullAt(k, depth, 1, k + 1) && r == FullRoundAt(depth, 1, 1) && p == top + k + depth
    requires run == Done(Repeat(tok, top + 1 + k), Repeat(tok, depth - 1))
    ensures RunOf(q, c, drafter, NOWHERE, 0, top + k + depth + 1) == run
  {
    var left := top - (k + 1) + k + depth + 1;
    Climb(q, w, c, drafter, k, depth, p, tok, stop, 1, k + 1, 1, top, r, left, run);
    DeepOpens(c, w, k, depth, p, tok, stop);
    RunwayFirst(q, w, c, drafter, k, tok, left + k + 1, left, run);
  }

  lemma DeepOpens(c: Config, w: Script, k: nat, depth: nat, p: nat, tok: Token, stop: Token)
    requires Deep(c, w, k, depth, p, tok, stop) && p > 2 * k + 1
    ensures FirstFacts(c, w, k, tok)
  {
    DeepMatches(c, w, k, depth, p, tok, stop, 1, Repeat(tok, k), k);
  }

  /** The bound on what a run keeps back is reached: with any stop set that stops some token but
      not all, some greedy request loses one token less than the runway is deep. */
  lemma DepthReached(c: Config, ignoreEos: bool, recurrent: bool, eos: Token, stops: set<Token>, tok: Token,
                     stop: Token)
    returns (q: Request, drafter: (nat, nat) -> seq<Token>, maxTokens: nat)
    requires RunwayDepth(c) > 0
    requires IsStop(ignoreEos, eos, stops, stop) && !IsStop(ignoreEos, eos, stops, tok)
    ensures q.greedy && q.ignoreEos == ignoreEos && q.target.recurrent == recurrent
    ensures q.eos == eos && q.stopTokens == stops && Obeys(drafter)
    ensures var run := RunOf(q, c, drafter, NOWHERE, 0, maxTokens);
            run.Done? && |run.undelivered| == RunwayDepth(c) - 1
  {
    var k, depth := Max(c.specK, 1), RunwayDepth(c);
    var top, r := FullAt(k, depth, 1, k + 1), FullRoundAt(depth, 1, 1);
    var w := DeepScript(top + k + depth, ignoreEos, recurrent, eos, stops, tok, stop);
    q, drafter, maxTokens := w.Spoken(), DeepDrafts(tok, stop, r), top + k + depth + 1;
    SpokenSpeaks(w);
    DeepSays(c, w, top + k + depth, tok, stop);
    DeepDraftsObey(tok, stop, r);
    DeepRun(q, w, c, drafter, k, depth, top + k + depth, tok, stop, top, r,
            Done(Repeat(tok, top + 1 + k), Repeat(tok, depth - 1)));
  }
}
