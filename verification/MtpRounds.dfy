/** One draft-verify-commit round under each of the five verify executions. */
module MtpRounds {
  import opened Model
  import opened EngineState
  import opened Rounds
  import opened MtpVerify
  import opened MtpRoutes

  /** What a round reports: its verdict and the next current token, or an error return. */
  datatype RoundResult = Failed | Finished(v: Verdict) | Continue(v: Verdict, next: Token, rng: Rng)

  /** The verdict on `drafts` after `s`, from the target's own predictions. */
  ghost function VerdictAt(q: Request, s: State, drafts: seq<Token>, emitLimit: nat, gen: seq<Token>, rng: Rng,
                           remaining: nat): Verdict
    requires remaining > 0
  {
    Judge(q, Along(q, s, drafts), drafts, emitLimit, 0, gen, rng, remaining)
  }

  /** A verdict that adds up and, unless a sampler ran past the emit limit, stands for the plain run. */
  ghost predicate Sound(q: Request, s: State, v: Verdict, drafts: seq<Token>, emitLimit: nat, gen0: seq<Token>,
                        rng0: Rng, remaining0: nat)
  {
    && Accounted(v, drafts, emitLimit, gen0, remaining0)
    && (q.greedy ==> v.rng == rng0)
    && (emitLimit == |drafts| || q.greedy ==> Faithful(q, s, v, drafts, Plain(q, s, gen0, rng0, remaining0)))
  }

  /** The next token and generator state a continuing round hands on: a replay's raw argmax,
      the greedy token after the last draft was fed on its own, the mismatch, or a draw
      from the bonus row. */
  function NextOf(q: Request, c: Config, emitLimit: nat, draftK: nat, now: State, v: Verdict): (Token, Rng) {
    if v.mismatch.Some? then
      (if Replays(c, q.target.recurrent, emitLimit, draftK, v.accepted) then q.argmax(q.target.head(now))
       else v.mismatch.value,
       v.rng)
    else if WithoutBonus(c, emitLimit, draftK) then (GreedyNext(q, now), v.rng)
    else Choose(q, q.target.head(now), v.gen, v.rng)
  }

  /** The contract of every execution: the verdict is the target's, the error return and the
      next token are the ones the configuration calls for, and the engine ends on exactly
      the committed prefix (a sequential round that ends on an emit is one short). */
  ghost predicate RoundDone(q: Request, c: Config, s: State, drafts: seq<Token>, emitLimit: nat, gen0: seq<Token>,
                            rng0: Rng, remaining0: nat, r: RoundResult, now: State)
    requires remaining0 > 0 && emitLimit <= |drafts|
  {
    var v := VerdictAt(q, s, drafts, emitLimit, gen0, rng0, remaining0);
    && (r.Failed? <==> CutFails(c, emitLimit, |drafts|, v.accepted))
    && (!r.Failed? ==>
          && r.v == v && Sound(q, s, v, drafts, emitLimit, gen0, rng0, remaining0)
          && (r.Finished? <==> v.Ended())
          && (r.Continue? ==>
                && now == FeedAll(q.target, s, drafts[..v.accepted])
                && (r.next, r.rng) == NextOf(q, c, emitLimit, |drafts|, now, v))
          && (r.Finished? ==>
                || now == FeedAll(q.target, s, drafts[..v.accepted])
                || (c.execution.Sequential? && v.accepted > 0 &&
                    now == FeedAll(q.target, s, drafts[..v.accepted - 1]))))
  }

  lemma VerdictSound(q: Request, s: State, drafts: seq<Token>, emitLimit: nat, gen: seq<Token>, rng: Rng,
                     remaining: nat)
    requires remaining > 0 && emitLimit <= |drafts|
    requires emitLimit < |drafts| ==> emitLimit < remaining
    ensures Sound(q, s, VerdictAt(q, s, drafts, emitLimit, gen, rng, remaining), drafts, emitLimit, gen, rng, remaining)
  {
    assert gen == gen + drafts[..0];
    JudgeAccounted(q, Along(q, s, drafts), drafts, emitLimit, 0, gen, gen, rng, remaining);
    if emitLimit == |drafts| || q.greedy {
      JudgeFaithful(q, s, Along(q, s, drafts), drafts, emitLimit, 0, gen, rng, remaining);
    }
  }

  /** The window up to the committed token is the current token and the accepted drafts. */
  lemma CommittedPrefix(t: Target, base: State, current: Token, drafts: seq<Token>, window: seq<Token>, accepted: nat)
    requires accepted < |window| <= |drafts| + 1 && window == [current] + drafts[..|window| - 1]
    ensures window[..1 + accepted] == [current] + drafts[..accepted]
    ensures FeedAll(t, base, window[..1 + accepted]) == FeedAll(t, Feed(t, base, current), drafts[..accepted])
  {
    FeedAllCons(t, base, current, drafts[..accepted]);
  }

  /** Batched decode chain: the forward leaves the engine alone and the accepted lanes are
      committed afterwards. */
  method ChainRound(e: Engine, q: Request, c: Config, current: Token, drafts: seq<Token>, gen0: seq<Token>, rng0: Rng,
                    remaining0: nat)
    returns (r: RoundResult)
    requires !WindowExecution(c)
    requires e.Valid() && e.target == q.target && drafts != [] && remaining0 > 0
    modifies e
    ensures e.Valid() && !r.Failed?
    ensures RoundDone(q, c, Feed(q.target, old(e.Now()), current), drafts, |drafts|, gen0, rng0, remaining0, r, e.Now())
  {
    ghost var base := e.Now();
    ghost var s := Feed(q.target, base, current);
    var window := Window(current, drafts, false);
    assert drafts[..|drafts|] == drafts;
    var logits, commit := e.ForwardPure(window);
    WindowAlong(q, base, current, drafts, window, logits);
    var v := JudgeWindow(q, logits[..|drafts|], drafts, |drafts|, gen0, rng0, remaining0);
    VerdictSound(q, s, drafts, |drafts|, gen0, rng0, remaining0);
    var ok := e.CommitWindow(commit, 1 + v.accepted);
    CommitLanes(q.target, base, window, commit, 1 + v.accepted);
    CommittedPrefix(q.target, base, current, drafts, window, v.accepted);
    if v.Ended() {
      return Finished(v);
    }
    if v.accepted == |drafts| {
      var (next, rng) := Choose(q, logits[|drafts|], v.gen, v.rng);
      return Continue(v, next, rng);
    }
    return Continue(v, v.mismatch.value, v.rng);
  }

  lemma CommitLanes(t: Target, base: State, window: seq<Token>, commit: WindowCommit, n: nat)
    requires 0 < n <= |window| == |commit.rows| == |commit.recs|
    requires base.kv + commit.rows == FeedAll(t, base, window).kv
    requires commit.recs[n - 1] == FeedAll(t, base, window[..n]).rec
    ensures State(base.kv + commit.rows[..n], commit.recs[n - 1]) == FeedAll(t, base, window[..n])
  {
    CutWindow(t, base, window, n);
    assert base.kv + commit.rows[..n] == (base.kv + commit.rows)[..|base.kv| + n];
  }

  method CommitFullpath(e: Engine, saved: Checkpoint, window: seq<Token>, committed: nat, ghost base: State)
    requires e.Valid() && e.Now() == FeedAll(e.target, base, window) && 0 < committed <= |window|
    requires saved == Checkpoint(|base.kv|, base.rec)
    modifies e
    ensures e.Valid() && e.Now() == FeedAll(e.target, base, window[..committed])
  {
    assert window[..|window|] == window;
    if committed < |window| {
      CutWindow(e.target, base, window, 0);
      assert window[..0] == [];
      e.Restore(saved);
      assert e.Now().kv == FeedAll(e.target, base, window).kv[..|base.kv|];
      var _ := e.ForwardWindow(window[..committed]);
    }
  }

  /** Vulkan full path: a cut-back restores the saved sequence state and prefills the
      committed prefix again. */
  method VulkanRound(e: Engine, q: Request, c: Config, current: Token, drafts: seq<Token>, gen0: seq<Token>, rng0: Rng,
                     remaining0: nat)
    returns (r: RoundResult)
    requires !WindowExecution(c)
    requires e.Valid() && e.target == q.target && drafts != [] && remaining0 > 0
    modifies e
    ensures e.Valid() && !r.Failed?
    ensures RoundDone(q, c, Feed(q.target, old(e.Now()), current), drafts, |drafts|, gen0, rng0, remaining0, r, e.Now())
  {
    ghost var base := e.Now();
    ghost var s := Feed(q.target, base, current);
    var window := Window(current, drafts, false);
    assert drafts[..|drafts|] == drafts;
    var saved := e.Save();
    var logits := e.ForwardWindow(window);
    WindowAlong(q, base, current, drafts, window, logits);
    var v := JudgeWindow(q, logits[..|drafts|], drafts, |drafts|, gen0, rng0, remaining0);
    VerdictSound(q, s, drafts, |drafts|, gen0, rng0, remaining0);
    CommittedPrefix(q.target, base, current, drafts, window, v.accepted);
    CommitFullpath(e, saved, window, 1 + v.accepted, base);
    if v.Ended() {
      return Finished(v);
    }
    if v.accepted == |drafts| {
      var (next, rng) := Choose(q, logits[|drafts|], v.gen, v.rng);
      return Continue(v, next, rng);
    }
    return Continue(v, v.mismatch.value, v.rng);
  }

  /** Puts the engine on the committed prefix along the planned route. */
  method CutBack(e: Engine, q: Request, c: Config, ckpt: Option<Checkpoint>, snaps: map<nat, Payload>,
                 window: seq<Token>, k: nat, accepted: nat, noBonus: bool, baseLen: nat, ghost base: State)
    returns (ok: bool, replayed: Option<Token>)
    requires WindowExecution(c)
    requires e.Valid() && e.target == q.target && e.Now() == FeedAll(q.target, base, window)
    requires 0 < k && accepted < |window| && |window| == (if noBonus then k else k + 1) && accepted <= k
    requires baseLen == |base.kv|
    requires Recoverable(c, q.target, base, window, k, noBonus, ckpt, snaps)
    modifies e
    ensures e.Valid()
    ensures ok <==> c.execution.DeviceResident? || 1 + accepted == |window| || c.needsSequential
    ensures ok ==> e.Now() == FeedAll(q.target, base, window[..1 + accepted])
    ensures ok ==>
              (replayed.Some? <==>
                 Checkpointed(c) && q.target.recurrent && !c.cuda && 0 < accepted && 1 + accepted < |window|)
    ensures replayed.Some? ==> replayed.value == q.argmax(q.target.head(e.Now()))
  {
    var committed := 1 + accepted;
    RouteAvailable(c, q.target.recurrent, k, accepted, noBonus);
    var route := PlanRoute(c, q.target.recurrent, k, accepted, noBonus, |window|, committed in snaps, ckpt.Some?);
    ok, replayed := route.Some?, None;
    assert window[..|window|] == window;
    if ok {
      match route.value {
        case Keep =>
        case CheckpointReplay =>
          CutWindow(q.target, base, window, 0);
          var next := ReplayCommitted(e, q, ckpt.value, window, committed, base);
          replayed := Some(next);
        case CheckpointSnapshot =>
          RestoreCommitted(e, ckpt, snaps[committed], window, committed, OneStep(c), baseLen, base);
        case Snapshot =>
          RestoreCommitted(e, None, snaps[committed], window, committed, OneStep(c), baseLen, base);
      }
    }
  }

  predicate OneStep(c: Config) {
    c.execution.BatchPrefill? && c.oneStepSnapshots
  }

  /** Everything a window round needs to cut its window back. */
  ghost predicate Recoverable(c: Config, t: Target, base: State, window: seq<Token>, k: nat, noBonus: bool,
                              ckpt: Option<Checkpoint>, snaps: map<nat, Payload>)
    requires 0 < k && |window| == (if noBonus then k else k + 1)
  {
    && ckpt == (if Checkpointed(c) then Some(Checkpoint(|base.kv|, base.rec)) else None)
    && snaps.Keys == SnapshotPrefixes(c, t.recurrent, k, noBonus)
    && forall p | p in snaps :: snaps[p] == PayloadAfter(t, base, window, p, OneStep(c))
  }

  /** Takes the checkpoint its class calls for and feeds the window. */
  method OpenWindow(e: Engine, q: Request, c: Config, current: Token, drafts: seq<Token>, noBonus: bool)
    returns (window: seq<Token>, ckpt: Option<Checkpoint>, logits: seq<Logits>, snaps: map<nat, Payload>)
    requires e.Valid() && e.target == q.target && drafts != []
    modifies e
    ensures e.Valid() && window == Window(current, drafts, noBonus)
    ensures e.Now() == FeedAll(q.target, old(e.Now()), window)
    ensures |logits| == |window| && logits[..|drafts|] == Along(q, Feed(q.target, old(e.Now()), current), drafts)
    ensures !noBonus ==>
              logits[|drafts|] == q.target.head(FeedAll(q.target, Feed(q.target, old(e.Now()), current), drafts))
    ensures Recoverable(c, q.target, old(e.Now()), window, |drafts|, noBonus, ckpt, snaps)
  {
    ghost var base := e.Now();
    window := Window(current, drafts, noBonus);
    assert window == [current] + drafts[..|window| - 1];
    ckpt := None;
    if Checkpointed(c) {
      var saved := e.Save();
      ckpt := Some(saved);
    }
    var prefixes := SnapshotPrefixes(c, q.target.recurrent, |drafts|, noBonus);
    logits, snaps := e.ForwardWindowSnapshots(window, prefixes, OneStep(c));
    WindowAlong(q, base, current, drafts, window, logits);
  }

  /** After full acceptance without a bonus row the window is one draft short of the
      committed tokens; one greedy step feeds it. */
  method FeedLastDraft(e: Engine, q: Request, c: Config, current: Token, drafts: seq<Token>, v: Verdict,
                       ghost base: State)
    returns (r: RoundResult)
    requires e.Valid() && e.target == q.target && drafts != []
    requires e.Now() == FeedAll(q.target, base, Window(current, drafts, true))
    requires v.accepted == |drafts| && v.mismatch == None
    modifies e
    ensures e.Valid() && !r.Failed? && r.v == v && (r.Finished? <==> v.Ended())
    ensures e.Now() == FeedAll(q.target, Feed(q.target, base, current), drafts[..v.accepted])
    ensures r.Continue? ==> (r.next, r.rng) == (GreedyNext(q, e.Now()), v.rng)
  {
    FullWindow(q.target, base, current, drafts, Window(current, drafts, true));
    var row := e.Forward(drafts[|drafts| - 1]);
    r := if v.Ended() then Finished(v) else Continue(v, GreedyToken(q, row), v.rng);
  }

  /** Cuts the window back to the committed tokens and picks the next one. */
  method SettleWindow(e: Engine, q: Request, c: Config, ckpt: Option<Checkpoint>, snaps: map<nat, Payload>,
                      current: Token, drafts: seq<Token>, emitLimit: nat, logits: seq<Logits>, v: Verdict,
                      noBonus: bool, baseLen: nat, ghost base: State)
    returns (r: RoundResult)
    requires WindowExecution(c)
    requires e.Valid() && e.target == q.target && drafts != [] && baseLen == |base.kv|
    requires v.accepted <= |drafts| && (noBonus ==> v.accepted < |drafts|)
    requires v.mismatch.Some? ==> v.accepted < |drafts|
    requires !v.Ended() && v.mismatch == None ==> v.accepted == |drafts|
    requires emitLimit <= |drafts| && noBonus == NoBonus(c, |drafts| - emitLimit, |drafts|)
    requires e.Now() == FeedAll(q.target, base, Window(current, drafts, noBonus))
    requires !noBonus ==> |logits| > |drafts|
    requires !noBonus ==> logits[|drafts|] == q.target.head(FeedAll(q.target, Feed(q.target, base, current), drafts))
    requires Recoverable(c, q.target, base, Window(current, drafts, noBonus), |drafts|, noBonus, ckpt, snaps)
    modifies e
    ensures e.Valid()
    ensures r.Failed? <==> CutFails(c, emitLimit, |drafts|, v.accepted)
    ensures !r.Failed? ==>
              && r.v == v && (r.Finished? <==> v.Ended())
              && e.Now() == FeedAll(q.target, Feed(q.target, base, current), drafts[..v.accepted])
              && (r.Continue? ==> (r.next, r.rng) == NextOf(q, c, emitLimit, |drafts|, e.Now(), v))
  {
    var k, window := |drafts|, Window(current, drafts, noBonus);
    assert window == [current] + drafts[..|window| - 1];
    CommittedPrefix(q.target, base, current, drafts, window, v.accepted);
    var ok, replayed := CutBack(e, q, c, ckpt, snaps, window, k, v.accepted, noBonus, baseLen, base);
    if !ok {
      return Failed;
    }
    if v.Ended() {
      return Finished(v);
    }
    assert drafts[..k] == drafts;
    NextSettled(q, c, emitLimit, drafts, e.Now(), v, noBonus, replayed);
    if v.accepted == k {
      var (next, rng) := Choose(q, logits[k], v.gen, v.rng);
      return Continue(v, next, rng);
    }
    return Continue(v, if replayed.Some? then replayed.value else v.mismatch.value, v.rng);
  }

  /** The next token after the cut: a replay's argmax, the mismatch, or the bonus row's choice. */
  lemma NextSettled(q: Request, c: Config, emitLimit: nat, drafts: seq<Token>, now: State, v: Verdict, noBonus: bool,
                    replayed: Option<Token>)
    requires WindowExecution(c) && v.accepted <= |drafts| && emitLimit <= |drafts|
    requires noBonus == NoBonus(c, |drafts| - emitLimit, |drafts|) && (noBonus ==> v.accepted < |drafts|)
    requires v.mismatch.Some? <==> v.accepted < |drafts|
    requires !CutFails(c, emitLimit, |drafts|, v.accepted)
    requires replayed.Some? <==>
               && Checkpointed(c) && q.target.recurrent && !c.cuda
               && 0 < v.accepted && 1 + v.accepted < WindowLen(c, emitLimit, |drafts|)
    requires replayed.Some? ==> replayed.value == q.argmax(q.target.head(now))
    ensures NextOf(q, c, emitLimit, |drafts|, now, v) ==
            if v.accepted == |drafts| then Choose(q, q.target.head(now), v.gen, v.rng)
            else (if replayed.Some? then replayed.value else v.mismatch.value, v.rng)
  {
  }

  /** Batch-prefill and device-resident rounds: the window advances the engine, and the
      rejected tail is cut back by snapshot, checkpoint or replay. */
  method WindowRound(e: Engine, q: Request, c: Config, current: Token, drafts: seq<Token>, emitLimit: nat,
                     gen0: seq<Token>, rng0: Rng, remaining0: nat)
    returns (r: RoundResult)
    requires WindowExecution(c)
    requires e.Valid() && e.target == q.target && remaining0 > 0
    requires 0 < emitLimit <= |drafts|
    requires emitLimit < |drafts| ==> emitLimit < remaining0
    modifies e
    ensures e.Valid()
    ensures RoundDone(q, c, Feed(q.target, old(e.Now()), current), drafts, emitLimit, gen0, rng0, remaining0, r,
                      e.Now())
  {
    ghost var base := e.Now();
    ghost var s := Feed(q.target, base, current);
    var k, baseLen := |drafts|, e.len;
    var noBonus := NoBonus(c, k - emitLimit, k);
    var window, ckpt, logits, snaps := OpenWindow(e, q, c, current, drafts, noBonus);
    var v := JudgeWindow(q, logits[..k], drafts, emitLimit, gen0, rng0, remaining0);
    VerdictSound(q, s, drafts, emitLimit, gen0, rng0, remaining0);
    if v.accepted == k && noBonus {
      r := FeedLastDraft(e, q, c, current, drafts, v, base);
      return;
    }
    r := SettleWindow(e, q, c, ckpt, snaps, current, drafts, emitLimit, logits, v, noBonus, baseLen, base);
  }

  lemma FullWindow(t: Target, base: State, current: Token, drafts: seq<Token>, window: seq<Token>)
    requires drafts != [] && window == [current] + drafts[..|drafts| - 1]
    ensures Feed(t, FeedAll(t, base, window), drafts[|drafts| - 1]) ==
            FeedAll(t, Feed(t, base, current), drafts[..|drafts|])
  {
    FeedAllCons(t, base, current, drafts[..|drafts| - 1]);
    FeedAllStep(t, Feed(t, base, current), drafts, |drafts| - 1);
  }

  function WindowToken(current: Token, drafts: seq<Token>, i: nat): Token
    requires i <= |drafts|
  {
    if i == 0 then current else drafts[i - 1]
  }

  /** The engine after `i` tokens of the window `[current] + drafts` have been fed to `base`. */
  ghost function Fed(t: Target, base: State, current: Token, drafts: seq<Token>, i: nat): State
    requires i <= |drafts| + 1
  {
    if i == 0 then base else At(t, Feed(t, base, current), drafts, i - 1)
  }

  lemma FedStep(q: Request, base: State, current: Token, drafts: seq<Token>, i: nat)
    requires i <= |drafts|
    ensures Feed(q.target, Fed(q.target, base, current, drafts, i), WindowToken(current, drafts, i)) ==
            Fed(q.target, base, current, drafts, i + 1)
    ensures i < |drafts| ==>
              Along(q, Feed(q.target, base, current), drafts)[i]
                  == q.target.head(Fed(q.target, base, current, drafts, i + 1))
  {
  }

  /** From draft `i` on, judging comes to `verdict`. */
  ghost predicate Judges(q: Request, along: seq<Logits>, drafts: seq<Token>, i: nat, gen: seq<Token>, rng: Rng,
                         remaining: nat, verdict: Verdict)
  {
    && i <= |drafts| <= |along| && remaining > 0
    && Judge(q, along, drafts, |drafts|, i, gen, rng, remaining) == verdict
  }

  lemma JudgesOne(q: Request, along: seq<Logits>, drafts: seq<Token>, i: nat, gen: seq<Token>, rng: Rng, remaining: nat,
                  verdict: Verdict)
    requires i < |drafts| <= |along| && remaining > 0 && Judges(q, along, drafts, i, gen, rng, remaining, verdict)
    ensures var (target, rng') := Choose(q, along[i], gen, rng);
            var gen' := gen + [drafts[i]];
            if target != drafts[i] then verdict == Verdict(i, i, false, Some(target), gen, rng', remaining)
            else if ShouldStop(q, drafts[i]) then verdict == Verdict(i, i, true, None, gen, rng', remaining)
            else if !q.keepGoing(gen') then verdict == Verdict(i + 1, i + 1, true, None, gen', rng', remaining - 1)
            else if remaining == 1 then verdict == Verdict(i + 1, i + 1, false, None, gen', rng', 0)
            else Judges(q, along, drafts, i + 1, gen', rng', remaining - 1, verdict)
  {
  }

  /** Feeds window token `i` and judges draft `i` by what it predicts. */
  method FeedAndJudge(e: Engine, round: GreedyRound, q: Request, current: Token, drafts: seq<Token>, i: nat,
                      gen0: seq<Token>, rng0: Rng, remaining0: nat, ghost base: State, ghost s: State,
                      ghost verdict: Verdict)
    returns (more: bool, gen: seq<Token>, rng: Rng, remaining: nat)
    requires e.Valid() && e.target == q.target && i < |drafts| && remaining0 > 0
    requires s == Feed(q.target, base, current) && e.Now() == Fed(q.target, base, current, drafts, i)
    requires round.accepted == round.emitted == i && !round.stopped && round.mismatch == None
    requires Judges(q, Along(q, s, drafts), drafts, i, gen0, rng0, remaining0, verdict)
    modifies e, round
    ensures e.Valid() && e.Now() == Fed(q.target, base, current, drafts, i + 1)
    ensures more ==>
              && remaining > 0 && Judges(q, Along(q, s, drafts), drafts, i + 1, gen, rng, remaining, verdict)
              && round.accepted == round.emitted == i + 1 && !round.stopped && round.mismatch == None
    ensures !more ==>
              && verdict == Verdict(round.accepted, round.emitted, round.stopped, round.mismatch, gen, rng, remaining)
              && i <= round.accepted <= i + 1 && (round.mismatch.Some? ==> round.accepted == i)
              && (round.mismatch.Some? || round.stopped || remaining == 0)
  {
    FedStep(q, base, current, drafts, i);
    JudgesOne(q, Along(q, s, drafts), drafts, i, gen0, rng0, remaining0, verdict);
    var logits := e.Forward(WindowToken(current, drafts, i));
    more, gen, rng, remaining := JudgeOne(round, q, logits, drafts[i], i, |drafts|, gen0, rng0, remaining0);
  }

  /** Feeds and judges one token at a time; what was fed is the committed prefix, or one
      token less when the last emit ended the round or its bonus is still to come. */
  method SequentialJudge(e: Engine, q: Request, current: Token, drafts: seq<Token>, gen0: seq<Token>, rng0: Rng,
                         remaining0: nat, ghost base: State, ghost s: State)
    returns (v: Verdict, fed: nat)
    requires e.Valid() && e.target == q.target && remaining0 > 0
    requires e.Now() == base && s == Feed(q.target, base, current)
    modifies e
    ensures e.Valid()
    ensures v == VerdictAt(q, s, drafts, |drafts|, gen0, rng0, remaining0)
    ensures fed <= |drafts| + 1 && e.Now() == Fed(q.target, base, current, drafts, fed)
    ensures v.accepted <= fed <= v.accepted + 1 && (v.Ended() ==> fed > 0)
    ensures v.mismatch.Some? ==> fed == v.accepted + 1
    ensures v.mismatch == None && !v.Ended() ==> fed == v.accepted == |drafts|
  {
    var k := |drafts|;
    ghost var along := Along(q, s, drafts);
    ghost var verdict := VerdictAt(q, s, drafts, k, gen0, rng0, remaining0);
    var round := new GreedyRound();
    var gen, rng, remaining := gen0, rng0, remaining0;
    var i := 0;
    fed := 0;
    while i < k
      invariant e.Valid() && i == fed <= k && remaining > 0
      invariant e.Now() == Fed(q.target, base, current, drafts, fed)
      invariant round.accepted == round.emitted == i && !round.stopped && round.mismatch == None
      invariant Judges(q, along, drafts, i, gen, rng, remaining, verdict)
    {
      var more;
      more, gen, rng, remaining := FeedAndJudge(e, round, q, current, drafts, i, gen, rng, remaining, base, s, verdict);
      fed := fed + 1;
      if !more { break; }
      i := i + 1;
    }
    v := Verdict(round.accepted, round.emitted, round.stopped, round.mismatch, gen, rng, remaining);
  }

  /** Sequential rounds never need to cut back. */
  method SequentialRound(e: Engine, q: Request, c: Config, current: Token, drafts: seq<Token>, gen0: seq<Token>,
                         rng0: Rng, remaining0: nat)
    returns (r: RoundResult)
    requires c.execution.Sequential?
    requires e.Valid() && e.target == q.target && drafts != [] && remaining0 > 0
    modifies e
    ensures e.Valid() && !r.Failed?
    ensures RoundDone(q, c, Feed(q.target, old(e.Now()), current), drafts, |drafts|, gen0, rng0, remaining0, r, e.Now())
  {
    ghost var base := e.Now();
    ghost var s := Feed(q.target, base, current);
    var v, fed := SequentialJudge(e, q, current, drafts, gen0, rng0, remaining0, base, s);
    VerdictSound(q, s, drafts, |drafts|, gen0, rng0, remaining0);
    AtIsFeedAll(q.target, s, drafts, v.accepted);
    if v.Ended() {
      if v.accepted > 0 { AtIsFeedAll(q.target, s, drafts, v.accepted - 1); }
      return Finished(v);
    }
    if v.accepted == |drafts| {
      var logits := e.Forward(WindowToken(current, drafts, |drafts|));
      var (next, rng) := Choose(q, logits, v.gen, v.rng);
      return Continue(v, next, rng);
    }
    return Continue(v, v.mismatch.value, v.rng);
  }

  /** Without a runway the engine ends on the generated tokens, or one short of them. */
  lemma RoundSettles(t: Target, base: State, gen0: seq<Token>, drafts: seq<Token>, accepted: nat, now: State)
    requires accepted <= |drafts| && gen0 != []
    requires var s := FeedAll(t, base, gen0);
             || now == FeedAll(t, s, drafts[..accepted])
             || (accepted > 0 && now == FeedAll(t, s, drafts[..accepted - 1]))
    ensures Settled(t, base, now, gen0 + drafts[..accepted])
  {
    var gen := gen0 + drafts[..accepted];
    FeedAllConcat(t, base, gen0, drafts[..accepted]);
    if accepted > 0 {
      FeedAllConcat(t, base, gen0, drafts[..accepted - 1]);
      assert gen[..|gen| - 1] == gen0 + drafts[..accepted - 1];
    }
  }
}
