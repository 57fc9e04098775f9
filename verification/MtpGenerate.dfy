/** The in-model multi-token-prediction loop, under every verify execution and with the
    verified runway: it computes the run of `MtpRun`. */
module MtpGenerate {
  import opened Model
  import opened EngineState
  import opened MtpRoutes
  import opened MtpRounds
  import opened MtpRun

  datatype AfterPop = More | Resume(next: Token)

  /** Verified drafts waiting to be emitted, and the token to resume from after them. */
  class VerifiedRunway {
    const tokens: seq<Token>
    const next: Token
    var cursor: nat

    ghost predicate Valid()
      reads this
    {
      cursor <= |tokens|
    }

    function Unread(): seq<Token>
      reads this
      requires Valid()
    {
      tokens[cursor..]
    }

    constructor (tokens: seq<Token>, next: Token)
      ensures Valid() && Unread() == tokens && this.next == next
    {
      this.tokens, this.next, this.cursor := tokens, next, 0;
    }

    method PopEmit() returns (token: Token, after: AfterPop)
      requires Valid() && Unread() != []
      modifies this
      ensures Valid() && old(Unread()) == [token] + Unread()
      ensures after == if Unread() == [] then Resume(next) else More
    {
      token := tokens[cursor];
      cursor := cursor + 1;
      after := if cursor < |tokens| then More else Resume(next);
    }
  }

  /** One round under the configured execution. */
  method RunExecution(e: Engine, q: Request, c: Config, current: Token, drafts: seq<Token>, emitLimit: nat,
                      gen0: seq<Token>, rng0: Rng, remaining0: nat)
    returns (r: RoundResult)
    requires e.Valid() && e.target == q.target && remaining0 > 0
    requires 0 < emitLimit <= |drafts|
    requires emitLimit < |drafts| ==> emitLimit < remaining0 && c.execution.DeviceResident?
    modifies e
    ensures e.Valid()
    ensures RoundDone(q, c, Feed(q.target, old(e.Now()), current), drafts, emitLimit, gen0, rng0, remaining0, r,
                      e.Now())
  {
    match c.execution {
      case BatchDecodeChain => r := ChainRound(e, q, c, current, drafts, gen0, rng0, remaining0);
      case VulkanFullpath => r := VulkanRound(e, q, c, current, drafts, gen0, rng0, remaining0);
      case Sequential => r := SequentialRound(e, q, c, current, drafts, gen0, rng0, remaining0);
      case BatchPrefill | DeviceResident =>
        r := WindowRound(e, q, c, current, drafts, emitLimit, gen0, rng0, remaining0);
    }
  }

  /** What the loop makes of a round's report. */
  function TurnFrom(c: Config, drafts: seq<Token>, k: nat, confidence: nat, r: RoundResult): MtpTurn
    requires k <= |drafts| && (!r.Failed? ==> r.v.emitted <= r.v.accepted <= |drafts|)
  {
    match r
    case Failed => TurnFailed
    case Finished(v) => TurnDone(v.gen)
    case Continue(v, next, rng) =>
      TurnNext(v.gen, rng, v.remaining, next, drafts[v.emitted..v.accepted],
               NextConfidence(c, |drafts| - k, k, |drafts|, v.accepted, confidence))
  }

  lemma TurnFromRound(q: Request, c: Config, base: State, drafts: seq<Token>, k: nat, confidence: nat, gen: seq<Token>,
                      rng: Rng, remaining: nat, r: RoundResult, now: State)
    requires 0 < k <= |drafts| && remaining > 0
    requires RoundDone(q, c, FeedAll(q.target, base, gen), drafts, k, gen, rng, remaining, r, now)
    ensures !r.Failed? ==> r.v.emitted <= r.v.accepted <= |drafts|
    ensures TurnFrom(c, drafts, k, confidence, r) == RoundOf(q, c, base, drafts, k, confidence, gen, rng, remaining)
  {
  }

  lemma RoundCaches(q: Request, c: Config, base: State, drafts: seq<Token>, k: nat, gen: seq<Token>, rng: Rng,
                    remaining: nat, r: RoundResult, now: State)
    requires 0 < k <= |drafts| && remaining > 0 && r.Continue?
    requires RoundDone(q, c, FeedAll(q.target, base, gen), drafts, k, gen, rng, remaining, r, now)
    ensures r.v.emitted <= r.v.accepted <= |drafts|
    ensures now == FeedAll(q.target, base, r.v.gen + drafts[r.v.emitted..r.v.accepted])
    ensures k == |drafts| ==> r.v.emitted == r.v.accepted
  {
    ContinuesAt(q, c, FeedAll(q.target, base, gen), drafts, k, gen, rng, remaining, r, now);
    AcceptedCached(q.target, base, gen, drafts, r.v.emitted, r.v.accepted);
  }

  /** Where a continuing round leaves the engine, and what it emitted. */
  lemma ContinuesAt(q: Request, c: Config, s: State, drafts: seq<Token>, k: nat, gen: seq<Token>, rng: Rng,
                    remaining: nat, r: RoundResult, now: State)
    requires 0 < k <= |drafts| && remaining > 0 && r.Continue?
    requires RoundDone(q, c, s, drafts, k, gen, rng, remaining, r, now)
    ensures r.v.emitted <= r.v.accepted <= |drafts| && (k == |drafts| ==> r.v.emitted == r.v.accepted)
    ensures now == FeedAll(q.target, s, drafts[..r.v.accepted]) && r.v.gen == gen + drafts[..r.v.emitted]
  {
  }

  lemma AcceptedCached(t: Target, base: State, gen: seq<Token>, drafts: seq<Token>, emitted: nat, accepted: nat)
    requires emitted <= accepted <= |drafts|
    ensures FeedAll(t, FeedAll(t, base, gen), drafts[..accepted]) ==
            FeedAll(t, base, gen + drafts[..emitted] + drafts[emitted..accepted])
  {
    FeedAllConcat(t, base, gen, drafts[..accepted]);
    assert gen + drafts[..emitted] + drafts[emitted..accepted] == gen + drafts[..accepted];
  }

  lemma FinishedSettles(q: Request, c: Config, base: State, drafts: seq<Token>, gen: seq<Token>, rng: Rng,
                        remaining: nat, r: RoundResult, now: State)
    requires drafts != [] && gen != [] && remaining > 0 && r.Finished?
    requires RoundDone(q, c, FeedAll(q.target, base, gen), drafts, |drafts|, gen, rng, remaining, r, now)
    ensures Settled(q.target, base, now, r.v.gen)
  {
    RoundSettles(q.target, base, gen, drafts, r.v.accepted, now);
  }

  /** Emits the current token and runs a round after it. */
  method RoundTurn(e: Engine, q: Request, c: Config, current: Token, drafts: seq<Token>, k: nat, confidence: nat,
                   gen: seq<Token>, rng: Rng, remaining: nat, ghost base: State, ghost before: seq<Token>)
    returns (t: MtpTurn)
    requires e.Valid() && e.target == q.target && remaining > 0
    requires e.Now() == FeedAll(q.target, base, before) && gen == before + [current]
    requires 0 < k <= |drafts| && (k < |drafts| ==> k < remaining && c.execution.DeviceResident?)
    modifies e
    ensures e.Valid()
    ensures t == RoundOf(q, c, base, drafts, k, confidence, gen, rng, remaining)
    ensures t.TurnNext? ==> e.Now() == FeedAll(q.target, base, t.gen + t.runway)
    ensures t.TurnNext? && k == |drafts| ==> t.runway == []
    ensures t.TurnDone? && k == |drafts| ==> Settled(q.target, base, e.Now(), t.tokens)
  {
    FeedAllSnoc(q.target, base, before, current);
    var r := RunExecution(e, q, c, current, drafts, k, gen, rng, remaining);
    TurnFromRound(q, c, base, drafts, k, confidence, gen, rng, remaining, r, e.Now());
    if r.Continue? { RoundCaches(q, c, base, drafts, k, gen, rng, remaining, r, e.Now()); }
    if r.Finished? && k == |drafts| { FinishedSettles(q, c, base, drafts, gen, rng, remaining, r, e.Now()); }
    t := TurnFrom(c, drafts, k, confidence, r);
  }

  /** A pass with no runway: stop, or emit the current token, draft and verify. */
  method CurrentTurn(e: Engine, q: Request, c: Config, drafter: (nat, nat) -> seq<Token>, rounds: nat, confidence: nat,
                     current: Token, gen: seq<Token>, rng: Rng, remaining: nat, ghost base: State)
    returns (t: MtpTurn)
    requires e.Valid() && e.target == q.target && remaining > 0
    requires e.Now() == FeedAll(q.target, base, gen)
    modifies e
    ensures e.Valid()
    ensures t == TurnOf(q, c, drafter, base, gen, current, rng, remaining, rounds, confidence)
    ensures t.TurnNext? ==> e.Now() == FeedAll(q.target, base, t.gen + t.runway)
    ensures t.TurnNext? && !c.runway ==> t.runway == []
    ensures t.TurnDone? && !c.runway ==> Settled(q.target, base, e.Now(), t.tokens)
  {
    if ShouldStop(q, current) {
      return TurnDone(gen);
    }
    var gen' := gen + [current];
    if !q.keepGoing(gen') || remaining == 1 {
      assert gen'[..|gen'| - 1] == gen;
      return TurnDone(gen');
    }
    var (k, extra) := Asked(c, remaining, confidence);
    AskedBounds(c, remaining, confidence);
    var drafts := drafter(rounds, k + extra);
    if |drafts| != k + extra {
      return TurnFailed;
    }
    t := RoundTurn(e, q, c, current, drafts, k, confidence, gen', rng, remaining - 1, base, gen);
    ghost var held := HeldOf(q, base, drafts, k, gen', rng, remaining - 1);
    TurnIsRound(q, c, drafter, base, gen, current, rng, remaining, rounds, confidence, k, extra, drafts, t, held);
  }

  datatype RunResult = RunFailed | RunDone(tokens: seq<Token>)

  /** The loop answers what the run answers. */
  predicate Returns(r: RunResult, run: Run) {
    r == if run.Error? then RunFailed else RunDone(run.tokens)
  }

  /** A pass with a runway: its head goes out without touching the engine. `over` holds the
      tokens of a run that ends here. */
  method RunwayTurn(runway: VerifiedRunway, q: Request, gen: seq<Token>, remaining: nat, ghost c: Config,
                    ghost drafter: (nat, nat) -> seq<Token>, ghost base: State, ghost current: Token, ghost rng: Rng,
                    ghost rounds: nat, ghost confidence: nat)
    returns (token: Token, after: AfterPop, over: Option<seq<Token>>)
    requires runway.Valid() && runway.Unread() != [] && remaining > 0
    modifies runway
    ensures runway.Valid() && old(runway.Unread()) == [token] + runway.Unread()
    ensures after == if runway.Unread() == [] then Resume(runway.next) else More
    ensures var run := RunFrom(q, c, drafter, base, gen, current, rng, remaining, rounds, confidence,
                               old(runway.Unread()), runway.next);
            if over.Some? then run == Done(over.value, [])
            else run == RunFrom(q, c, drafter, base, gen + [token], if after.Resume? then after.next else token, rng,
                                remaining - 1, rounds, confidence, runway.Unread(), runway.next)
  {
    RunPops(q, c, drafter, base, gen, current, rng, remaining, rounds, confidence, runway.Unread(), runway.next);
    ghost var unread := runway.Unread();
    token, after := runway.PopEmit();
    assert token == unread[0] && runway.Unread() == unread[1..];
    over := None;
    if ShouldStop(q, token) {
      over := Some(gen);
    } else if !q.keepGoing(gen + [token]) || remaining == 1 {
      over := Some(gen + [token]);
    }
  }

  /** Generation. `drafter` answers round by round with any tokens at all. */
  method Generate(e: Engine, q: Request, c: Config, drafter: (nat, nat) -> seq<Token>, start: Logits, rng0: Rng,
                  maxTokens: nat)
    returns (r: RunResult)
    requires e.Valid() && e.target == q.target && start == q.target.head(e.Now())
    modifies e
    ensures e.Valid()
    ensures Returns(r, RunOf(q, c, drafter, old(e.Now()), rng0, maxTokens))
    ensures r.RunDone? && !c.runway ==> Settled(q.target, old(e.Now()), e.Now(), r.tokens)
    ensures Lossless(q, c) ==>
              Delivered(q, c, old(e.Now()), maxTokens, RunOf(q, c, drafter, old(e.Now()), rng0, maxTokens),
                        Plain(q, old(e.Now()), [], rng0, maxTokens))
  {
    ghost var base := e.Now();
    if Lossless(q, c) { RunDelivers(q, c, drafter, base, rng0, maxTokens); }
    if maxTokens == 0 {
      return RunDone([]);
    }
    if c.execution.VulkanFullpath? && !q.greedy {
      return RunFailed;
    }
    var (first, rng) := Choose(q, start, [], rng0);
    r := Loop(e, q, c, drafter, first, rng, maxTokens, base);
  }

  /** The loop, from the target's first token on. */
  method Loop(e: Engine, q: Request, c: Config, drafter: (nat, nat) -> seq<Token>, first: Token, rng0: Rng,
              maxTokens: nat, ghost base: State)
    returns (r: RunResult)
    requires e.Valid() && e.target == q.target && e.Now() == base
    modifies e
    ensures e.Valid()
    ensures Returns(r, RunFrom(q, c, drafter, base, [], first, rng0, maxTokens, 0, 0, [], first))
    ensures r.RunDone? && !c.runway ==> Settled(q.target, base, e.Now(), r.tokens)
  {
    var current, rng := first, rng0;
    var gen: seq<Token>, remaining, rounds, confidence: nat := [], maxTokens, 0, 0;
    var runway: VerifiedRunway? := null;
    ghost var unread: seq<Token>, resume := [], first;
    ghost var run := RunFrom(q, c, drafter, base, [], first, rng0, maxTokens, 0, 0, [], first);
    while remaining > 0
      invariant e.Valid() && e.Now() == FeedAll(q.target, base, gen + unread)
      invariant runway == null <==> unread == []
      invariant runway != null ==> fresh(runway) && runway.Valid() && runway.Unread() == unread && runway.next == resume
      invariant unread != [] ==> c.runway
      invariant RunFrom(q, c, drafter, base, gen, current, rng, remaining, rounds, confidence, unread, resume) == run
    {
      if runway == null {
        assert gen + unread == gen;
        var t := CurrentTurn(e, q, c, drafter, rounds, confidence, current, gen, rng, remaining, base);
        RunTurns(q, c, drafter, base, gen, current, rng, remaining, rounds, confidence, resume, t);
        match t {
          case TurnFailed =>
            return RunFailed;
          case TurnDone(tokens) =>
            return RunDone(tokens);
          case TurnNext(gen', rng', remaining', next, tokens, confidence') =>
            if tokens != [] { runway := new VerifiedRunway(tokens, next); }
            unread, resume := tokens, next;
            gen, rng, remaining, current := gen', rng', remaining', next;
            rounds, confidence := rounds + 1, confidence';
        }
      } else {
        var token, after, over := RunwayTurn(runway, q, gen, remaining, c, drafter, base, current, rng, rounds,
                                             confidence);
        if over.Some? {
          return RunDone(over.value);
        }
        assert gen + [token] + unread[1..] == gen + unread;
        gen, remaining, unread := gen + [token], remaining - 1, unread[1..];
        match after {
          case More => current := token;
          case Resume(next) => runway, current := null, next;
        }
      }
    }
    assert gen + unread == gen || c.runway;
    return RunDone(gen);
  }
}
