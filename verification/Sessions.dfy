/** Sessions: turns taken by any of the loops, each resuming the state captured after the one
    before it when its prompt allows. */
module Sessions {
  import opened Model
  import opened EngineState
  import opened PlainDecode
  import Mtp = MtpGenerate
  import MtpConfig = MtpRoutes
  import MtpRun
  import Spec = SpecGenerate
  import SpecRun
  import Drafted = DrafterLoops
  import DraftedRun
  import opened StopRule
  import opened LoopStops

  /** The loop a turn is generated by, with its drafter where it has one. */
  datatype Route = Standard
                 | InModel(mtp: MtpConfig.Config, heads: (nat, nat) -> seq<Token>)
                 | EarlyExit(spec: SpecRun.SpecConfig, exits: SpecRun.Drafter)
                 | SeparateDrafter(plan: DraftedRun.DraftPlan, drafts: (nat, nat) -> seq<Token>)

  /** One turn: what is asked, and how it is to be generated. */
  datatype Ask = Ask(q: Request, route: Route, prompt: seq<Token>, rng: Rng, maxTokens: nat)

  /** What is kept of a turn: its tokens, how many of them are cached, and the cache. */
  datatype SequenceState = SequenceState(tokens: seq<Token>, cachedLen: nat, snapshot: State)

  /** The route leaves a settled cache behind. */
  ghost predicate Settles(q: Request, route: Route) {
    match route
    case Standard => true
    case InModel(c, _) => !c.runway
    case EarlyExit(c, _) => SpecRun.CutsSafely(c, q.greedy, q.target.recurrent)
    case SeparateDrafter(plan, _) => Drafted.Settles(plan, q.target.recurrent)
  }

  /** The route has no error return for the request. */
  ghost predicate Unfailing(q: Request, route: Route) {
    match route
    case Standard => true
    case InModel(c, heads) => !MtpRun.Errs(c, q.greedy) && MtpRun.Obeys(heads)
    case EarlyExit(c, _) => !SpecRun.SpecErrs(c, q.greedy)
    case SeparateDrafter(_, _) => true
  }

  /** The route returns the plain output, when it returns any. */
  ghost predicate Exact(q: Request, route: Route, maxTokens: nat) {
    && Settles(q, route)
    && match route
       case Standard => true
       case InModel(c, _) => MtpRun.Lossless(q, c)
       case EarlyExit(c, _) => SpecRun.DrawsOnce(q, c) && !q.ignoreEos
       case SeparateDrafter(plan, drafter) => !DraftedRun.Starves(plan, drafter, maxTokens)
  }

  /** A resumed turn that is not drafted by the model's own heads or a drafter is generated
      by the plain loop: the early-exit loop only starts from a whole prompt. */
  function Resumed(route: Route): Route {
    if route.EarlyExit? then Standard else route
  }

  /** What the route's own loop returns from a state on; `None` is an error return. */
  ghost function RunRoute(q: Request, route: Route, s: State, rng: Rng, maxTokens: nat): Option<seq<Token>> {
    match route
    case Standard => Some(Plain(q, s, [], rng, maxTokens))
    case InModel(c, heads) =>
      var run := MtpRun.RunOf(q, c, heads, s, rng, maxTokens); if run.Done? then Some(run.tokens) else None
    case EarlyExit(c, exits) =>
      var run := SpecRun.SpecRunOf(q, c, exits, s, rng, maxTokens); if run.SpecOk? then Some(run.tokens) else None
    case SeparateDrafter(plan, drafts) =>
      Some(DraftedRun.DraftedRunOf(q, plan, drafts, s, rng, maxTokens).tokens)
  }

  /** The captured state is the cache of a prefix of its tokens. */
  ghost predicate Coherent(t: Target, blank: State, s: SequenceState) {
    && s.cachedLen == |s.snapshot.kv| <= |s.tokens|
    && s.snapshot == FeedAll(t, blank, s.tokens[..s.cachedLen])
  }

  /** A captured state, if there is one, can be resumed. */
  ghost predicate Resumable(t: Target, blank: State, state: Option<SequenceState>) {
    state.Some? ==> Coherent(t, blank, state.value)
  }

  /** A captured state serves prompts that extend its tokens past what it caches. */
  predicate CanResume(state: Option<SequenceState>, prompt: seq<Token>) {
    state.Some? && state.value.tokens <= prompt && state.value.cachedLen < |prompt|
  }

  /** A settled cache, kept and fed the rest of any later prompt, reaches that prompt's state. */
  lemma KeptResumes(t: Target, blank: State, prompt: seq<Token>, out: seq<Token>, now: State, next: seq<Token>)
    requires blank.kv == [] && Settled(t, FeedAll(t, blank, prompt), now, out) && prompt + out <= next
    ensures |now.kv| <= |prompt + out|
    ensures FeedAll(t, now, next[|now.kv|..]) == FeedAll(t, blank, next)
  {
    SettledTokens(t, blank, prompt, now, out);
    ResumeState(t, blank, now, prompt + out, next);
  }

  /** Keeps the turn's tokens and the cache, unless the cache is empty or outgrew them. A
      settled cache never has: it is kept, and can be resumed. */
  method Capture(e: Engine, tokens: seq<Token>, ghost prompt: seq<Token>, ghost out: seq<Token>)
    returns (state: Option<SequenceState>)
    requires e.Valid() && tokens == prompt + out
    ensures state.Some? <==> 0 < e.len <= |tokens|
    ensures state.Some? ==>
              && state.value.tokens == tokens && state.value.snapshot == e.Now()
              && state.value.cachedLen == |e.Now().kv|
    ensures Settled(e.target, FeedAll(e.target, e.Blank(), prompt), e.Now(), out) ==>
              && (state.Some? <==> 0 < e.len) && (|tokens| > 1 ==> state.Some?)
              && Resumable(e.target, e.Blank(), state)
  {
    state := if 0 < e.len <= |tokens| then Some(SequenceState(tokens, e.len, e.Now())) else None;
    if Settled(e.target, FeedAll(e.target, e.Blank(), prompt), e.Now(), out) {
      SettledTokens(e.target, e.Blank(), prompt, e.Now(), out);
    }
  }

  /** Generation from the logits of a prefilled prompt, by the given loop. */
  method Decode(e: Engine, q: Request, route: Route, start: Logits, rng: Rng, maxTokens: nat)
    returns (out: Option<seq<Token>>)
    requires e.Valid() && e.target == q.target && start == q.target.head(e.Now())
    modifies e
    ensures e.Valid()
    ensures out == RunRoute(q, route, old(e.Now()), rng, maxTokens)
    ensures out.Some? && Settles(q, route) ==> Settled(q.target, old(e.Now()), e.Now(), out.value)
  {
    match route {
      case Standard =>
        var gen := FinishGeneration(e, q, start, rng, maxTokens);
        out := Some(gen);
      case InModel(c, drafter) =>
        var r := Mtp.Generate(e, q, c, drafter, start, rng, maxTokens);
        out := if r.RunDone? then Some(r.tokens) else None;
      case EarlyExit(c, drafter) =>
        var r := Spec.Generate(e, q, c, drafter, start, rng, maxTokens);
        out := if r.SpecOk? then Some(r.tokens) else None;
      case SeparateDrafter(plan, drafter) =>
        var gen := Drafted.Generate(e, q, plan, drafter, start, rng, maxTokens);
        out := Some(gen);
    }
  }

  /** A route without an error return for the request returns something. */
  lemma RouteReturns(q: Request, route: Route, s: State, rng: Rng, maxTokens: nat)
    requires Unfailing(q, route)
    ensures RunRoute(q, route, s, rng, maxTokens).Some?
  {
    match route
    case Standard =>
    case InModel(c, heads) => MtpRun.NeverErrs(q, c, heads, s, rng, maxTokens);
    case EarlyExit(c, exits) => SpecRun.NeverSpecErrs(q, c, exits, s, rng, maxTokens);
    case SeparateDrafter(_, _) =>
  }

  /** What an exact route returns is the plain output. */
  lemma RouteExact(q: Request, route: Route, s: State, rng: Rng, maxTokens: nat)
    requires Exact(q, route, maxTokens)
    ensures var out := RunRoute(q, route, s, rng, maxTokens); out.Some? ==> out.value == Plain(q, s, [], rng, maxTokens)
  {
    match route
    case Standard =>
    case InModel(c, heads) => MtpRun.ShallowRunDelivers(q, c, heads, s, rng, maxTokens);
    case EarlyExit(c, exits) =>
      assert q.(ignoreEos := false) == q;
      SpecRun.SpecRunDelivers(q, c, exits, s, rng, maxTokens);
    case SeparateDrafter(plan, drafts) =>
      DraftedRun.DraftedRunDelivers(q, plan, drafts, s, rng, maxTokens);
  }

  /** Whatever the route returns keeps the stop rule and obeys the client. */
  lemma RouteProper(q: Request, route: Route, s: State, rng: Rng, maxTokens: nat)
    ensures var out := RunRoute(q, route, s, rng, maxTokens); out.Some? ==> Proper(q, 0, out.value)
  {
    match route
    case Standard => PlainProper(q, s, 0, [], rng, maxTokens);
    case InModel(c, heads) => MtpProper(q, c, heads, s, rng, maxTokens);
    case EarlyExit(c, exits) => SpecProper(q, c, exits, s, rng, maxTokens);
    case SeparateDrafter(plan, drafts) => DraftedProper(q, plan, drafts, s, rng, maxTokens);
  }

  /** Puts the engine on the prompt, from a captured state that serves it or from nothing. */
  method Prefill(e: Engine, prompt: seq<Token>, state: Option<SequenceState>)
    returns (resumed: bool)
    requires e.Valid()
    modifies e
    ensures e.Valid()
    ensures resumed <==> state.Some? && state.value.tokens <= prompt && state.value.cachedLen < |prompt|
    ensures Resumable(e.target, e.Blank(), state) ==> e.Now() == FeedAll(e.target, e.Blank(), prompt)
  {
    resumed := CanResume(state, prompt);
    if resumed {
      var s := state.value;
      e.Load(s.snapshot);
      if Coherent(e.target, e.Blank(), s) { ResumeState(e.target, e.Blank(), s.snapshot, s.tokens, prompt); }
      var _ := e.ForwardWindow(prompt[s.cachedLen..]);
    } else {
      e.Clear();
      var _ := e.ForwardWindow(prompt);
    }
  }

  /** The turn's answer is what its loop returns from the state of its whole prompt in an empty
      cache, except that a resumed early-exit turn is decoded plainly. There is one where the
      route has no error return; it is the plain output where the route is exact, and always
      keeps the stop rule. */
  ghost predicate Replayed(t: Target, blank: State, ask: Ask, resumed: bool, out: Option<seq<Token>>) {
    var s := FeedAll(t, blank, ask.prompt);
    && (resumed && ask.route.EarlyExit? ==> out == Some(Plain(ask.q, s, [], ask.rng, ask.maxTokens)))
    && (!resumed || !ask.route.EarlyExit? ==> out == RunRoute(ask.q, ask.route, s, ask.rng, ask.maxTokens))
    && (Unfailing(ask.q, ask.route) ==> out.Some?)
    && (out.Some? && Exact(ask.q, ask.route, ask.maxTokens) ==>
          out.value == Plain(ask.q, s, [], ask.rng, ask.maxTokens))
    && (out.Some? ==> Proper(ask.q, 0, out.value))
  }

  lemma RouteReplays(t: Target, blank: State, ask: Ask, resumed: bool, out: Option<seq<Token>>)
    requires out == RunRoute(ask.q, if resumed then Resumed(ask.route) else ask.route, FeedAll(t, blank, ask.prompt),
                             ask.rng, ask.maxTokens)
    ensures Replayed(t, blank, ask, resumed, out)
  {
    var s, route := FeedAll(t, blank, ask.prompt), if resumed then Resumed(ask.route) else ask.route;
    if Unfailing(ask.q, ask.route) { RouteReturns(ask.q, route, s, ask.rng, ask.maxTokens); }
    if Exact(ask.q, ask.route, ask.maxTokens) { RouteExact(ask.q, route, s, ask.rng, ask.maxTokens); }
    RouteProper(ask.q, route, s, ask.rng, ask.maxTokens);
  }

  /** One turn. Whether it resumes, starts afresh or fails, from a resumable state it gives
      its fresh replay, and when its loop settles its cache it hands a resumable state on. */
  method Answer(e: Engine, ask: Ask, state: Option<SequenceState>)
    returns (resumed: bool, out: Option<seq<Token>>, state': Option<SequenceState>)
    requires e.Valid() && e.target == ask.q.target
    modifies e
    ensures e.Valid()
    ensures resumed <==> state.Some? && state.value.tokens <= ask.prompt && state.value.cachedLen < |ask.prompt|
    ensures out == None ==> state' == state
    ensures out.Some? && state'.Some? ==> state'.value.tokens == ask.prompt + out.value
    ensures Resumable(e.target, e.Blank(), state) ==> Replayed(e.target, e.Blank(), ask, resumed, out)
    ensures Resumable(e.target, e.Blank(), state) && Settles(ask.q, ask.route) ==>
              && Resumable(e.target, e.Blank(), state')
              && (out.Some? && |ask.prompt + out.value| > 1 ==> state'.Some?)
  {
    resumed := Prefill(e, ask.prompt, state);
    var route := if resumed then Resumed(ask.route) else ask.route;
    out := Decode(e, ask.q, route, e.target.head(e.Now()), ask.rng, ask.maxTokens);
    if Resumable(e.target, e.Blank(), state) { RouteReplays(e.target, e.Blank(), ask, resumed, out); }
    if out == None {
      return resumed, None, state;
    }
    state' := Capture(e, ask.prompt + out.value, ask.prompt, out.value);
  }

  /** The first `n` turns are generated by loops that settle their caches. */
  ghost predicate AllSettle(asks: seq<Ask>, n: nat)
  {
    n <= |asks| && forall i | 0 <= i < n :: Settles(asks[i].q, asks[i].route)
  }

  /** Prompt and answer of the last of the first `n` turns that has one. */
  function Transcript(asks: seq<Ask>, outs: seq<Option<seq<Token>>>, n: nat): Option<seq<Token>>
    requires n <= |asks| && n <= |outs|
  {
    if n == 0 then None
    else if outs[n - 1].Some? then Some(asks[n - 1].prompt + outs[n - 1].value)
    else Transcript(asks, outs, n - 1)
  }

  /** A turn resumes only behind the transcript of the turn last answered, and whenever its
      prompt goes on from there. */
  predicate ResumesFrom(last: Option<seq<Token>>, prompt: seq<Token>, resumed: bool) {
    && (resumed ==> last.Some? && last.value <= prompt)
    && (last.Some? && |last.value| > 1 && last.value < prompt ==> resumed)
  }

  /** The state kept is one of the transcript last answered. */
  ghost predicate Kept(t: Target, blank: State, last: Option<seq<Token>>, state: Option<SequenceState>) {
    && Resumable(t, blank, state)
    && (state.Some? ==> last == Some(state.value.tokens))
    && (last.Some? && |last.value| > 1 ==> state.Some?)
  }

  lemma {:induction false} SameTranscript(asks: seq<Ask>, outs: seq<Option<seq<Token>>>, more: Option<seq<Token>>,
                                          n: nat)
    requires n <= |asks| && n <= |outs|
    ensures Transcript(asks, outs + [more], n) == Transcript(asks, outs, n)
  {
    if n > 0 { SameTranscript(asks, outs, more, n - 1); }
  }

  /** Turn `i` of a session: its answer is its fresh replay, and it resumed where it could. */
  ghost predicate Told(t: Target, blank: State, asks: seq<Ask>, outs: seq<Option<seq<Token>>>, resumed: seq<bool>,
                       i: nat)
    requires i < |asks| && i < |outs| && i < |resumed|
  {
    && Replayed(t, blank, asks[i], resumed[i], outs[i])
    && ResumesFrom(Transcript(asks, outs, i), asks[i].prompt, resumed[i])
  }

  lemma ToldLater(t: Target, blank: State, asks: seq<Ask>, outs: seq<Option<seq<Token>>>, resumed: seq<bool>, i: nat,
                  out: Option<seq<Token>>, again: bool)
    requires i < |asks| && i < |outs| && i < |resumed| && Told(t, blank, asks, outs, resumed, i)
    ensures Told(t, blank, asks, outs + [out], resumed + [again], i)
  {
    SameTranscript(asks, outs, out, i);
  }

  lemma ToldNow(t: Target, blank: State, asks: seq<Ask>, outs: seq<Option<seq<Token>>>, resumed: seq<bool>,
                state: Option<SequenceState>, out: Option<seq<Token>>, again: bool)
    requires |outs| == |resumed| < |asks| && Kept(t, blank, Transcript(asks, outs, |outs|), state)
    requires Replayed(t, blank, asks[|outs|], again, out) && (again <==> CanResume(state, asks[|outs|].prompt))
    ensures Told(t, blank, asks, outs + [out], resumed + [again], |outs|)
  {
    SameTranscript(asks, outs, out, |outs|);
  }

  /** A turn whose loop settles its cache keeps a state of the new transcript. */
  lemma KeptNext(t: Target, blank: State, asks: seq<Ask>, outs: seq<Option<seq<Token>>>, state: Option<SequenceState>,
                 out: Option<seq<Token>>, state': Option<SequenceState>)
    requires |outs| < |asks| && Kept(t, blank, Transcript(asks, outs, |outs|), state) && Resumable(t, blank, state')
    requires out == None ==> state' == state
    requires out.Some? ==>
               var tokens := asks[|outs|].prompt + out.value;
               && (state'.Some? ==> state'.value.tokens == tokens) && (|tokens| > 1 ==> state'.Some?)
    ensures Kept(t, blank, Transcript(asks, outs + [out], |outs| + 1), state')
  {
    SameTranscript(asks, outs, out, |outs|);
  }

  /** A whole session: resuming is invisible in every turn after turns that settled their
      caches, whatever loops they mix and whichever of them resume, start afresh or fail. */
  method Converse(e: Engine, asks: seq<Ask>) returns (outs: seq<Option<seq<Token>>>, resumed: seq<bool>)
    requires e.Valid() && forall i | 0 <= i < |asks| :: asks[i].q.target == e.target
    modifies e
    ensures |outs| == |resumed| == |asks|
    ensures forall i | 0 <= i < |asks| && AllSettle(asks, i) :: Told(e.target, e.Blank(), asks, outs, resumed, i)
  {
    outs, resumed := [], [];
    var state: Option<SequenceState> := None;
    for i := 0 to |asks|
      invariant e.Valid() && |outs| == |resumed| == i
      invariant AllSettle(asks, i) ==> Kept(e.target, e.Blank(), Transcript(asks, outs, i), state)
      invariant forall j | 0 <= j < i && AllSettle(asks, j) :: Told(e.target, e.Blank(), asks, outs, resumed, j)
    {
      var again, out, state';
      again, out, state' := Answer(e, asks[i], state);
      if AllSettle(asks, i) { ToldNow(e.target, e.Blank(), asks, outs, resumed, state, out, again); }
      forall j | 0 <= j < i && AllSettle(asks, j)
        ensures Told(e.target, e.Blank(), asks, outs + [out], resumed + [again], j)
      {
        ToldLater(e.target, e.Blank(), asks, outs, resumed, j, out, again);
      }
      if AllSettle(asks, i + 1) {
        assert AllSettle(asks, i) && Settles(asks[i].q, asks[i].route);
        KeptNext(e.target, e.Blank(), asks, outs, state, out, state');
      }
      outs, resumed, state := outs + [out], resumed + [again], state';
    }
  }
}
