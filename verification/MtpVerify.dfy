/** Judging one verify window against the drafts, and the routes that put the engine back
    on the committed prefix afterwards. */
module MtpVerify {
  import opened Model
  import opened EngineState
  import opened Rounds

  /** The target's greedy choice after `s`. */
  function GreedyNext(q: Request, s: State): Token {
    GreedyToken(q, q.target.head(s))
  }

  /** Draft `j`, fed after `s` and the drafts before it, is what greedy decoding picks, and
      does not stop. */
  ghost predicate Picked(q: Request, s: State, drafts: seq<Token>, j: nat)
    requires j < |drafts|
  {
    drafts[j] == GreedyNext(q, At(q.target, s, drafts, j)) && !ShouldStop(q, drafts[j])
  }

  ghost predicate GreedyRun(q: Request, s: State, drafts: seq<Token>, lo: nat, hi: nat)
    requires lo <= hi <= |drafts|
  {
    forall j | lo <= j < hi :: Picked(q, s, drafts, j)
  }

  /** A verdict on `drafts` fed after `s`, given that `gen0` is already out. */
  datatype Verdict = Verdict(accepted: nat, emitted: nat, stopped: bool, mismatch: Option<Token>,
                             gen: seq<Token>, rng: Rng, remaining: nat)
  {
    predicate Ended() { stopped || remaining == 0 }
  }

  /** The verdict's own bookkeeping, whatever the sampler. */
  ghost predicate Accounted(v: Verdict, drafts: seq<Token>, emitLimit: nat, gen0: seq<Token>, remaining0: nat) {
    && v.accepted <= |drafts|
    && v.emitted == (if v.accepted < emitLimit then v.accepted else emitLimit)
    && v.emitted <= remaining0
    && v.gen == gen0 + drafts[..v.emitted]
    && v.remaining == remaining0 - v.emitted
    && (v.mismatch.Some? ==> v.accepted < |drafts| && !v.Ended())
    && (!v.Ended() && v.mismatch == None ==> v.accepted == |drafts|)
  }

  /** The verdict against the plain run it stands for. Accepted drafts that were not
      emitted are the target's next choices, still undelivered. */
  ghost predicate Faithful(q: Request, s: State, v: Verdict, drafts: seq<Token>, goal: seq<Token>)
    requires v.emitted <= v.accepted <= |drafts|
  {
    var at := At(q.target, s, drafts, v.emitted);
    if v.accepted == v.emitted && v.Ended() then goal == v.gen
    else if v.accepted == v.emitted && v.mismatch.Some? then
      && goal == Emit(q, at, v.mismatch.value, v.rng, v.gen, v.remaining)
      && (exists r :: Choose(q, q.target.head(at), v.gen, r) == (v.mismatch.value, v.rng))
    else
      && goal == Plain(q, at, v.gen, v.rng, v.remaining)
      && v.remaining > 0
      && (v.emitted < v.accepted ==> q.greedy)
      && GreedyRun(q, s, drafts, v.emitted, v.accepted)
      && (v.mismatch.Some? ==> v.mismatch.value == GreedyNext(q, At(q.target, s, drafts, v.accepted)))
      && (v.stopped ==>
            v.accepted < |drafts| && ShouldStop(q, GreedyNext(q, At(q.target, s, drafts, v.accepted))))
  }

  /** Judging position by position: draw the target's token, compare, stop, emit. */
  function Judge(q: Request, logits: seq<Logits>, drafts: seq<Token>, emitLimit: nat, i: nat, gen: seq<Token>, rng: Rng,
                 remaining: nat): (v: Verdict)
    requires i <= |drafts| <= |logits| && remaining > 0
    ensures i <= v.accepted <= |drafts| && v.emitted <= v.accepted && v.remaining <= remaining
    ensures !v.Ended() && v.mismatch == None ==> v.accepted == |drafts|
    decreases |drafts| - i
  {
    var emitted := if i < emitLimit then i else emitLimit;
    if i == |drafts| then Verdict(i, emitted, false, None, gen, rng, remaining)
    else
      var (target, rng') := Choose(q, logits[i], gen, rng);
      if target != drafts[i] then Verdict(i, emitted, false, Some(target), gen, rng', remaining)
      else if ShouldStop(q, drafts[i]) then Verdict(i, emitted, true, None, gen, rng', remaining)
      else if i >= emitLimit then Judge(q, logits, drafts, emitLimit, i + 1, gen, rng', remaining)
      else
        var gen' := gen + [drafts[i]];
        if !q.keepGoing(gen') then Verdict(i + 1, i + 1, true, None, gen', rng', remaining - 1)
        else if remaining == 1 then Verdict(i + 1, i + 1, false, None, gen', rng', 0)
        else Judge(q, logits, drafts, emitLimit, i + 1, gen', rng', remaining - 1)
  }

  /** The logits the target predicts before each draft, fed after `s`. */
  ghost function Along(q: Request, s: State, drafts: seq<Token>): seq<Logits> {
    seq(|drafts|, i requires 0 <= i < |drafts| => q.target.head(At(q.target, s, drafts, i)))
  }

  lemma WindowAlongAt(q: Request, base: State, current: Token, drafts: seq<Token>, window: seq<Token>, i: nat)
    requires i < |window| <= |drafts| + 1 && window == [current] + drafts[..|window| - 1]
    ensures FeedAll(q.target, base, window[..i + 1]) == FeedAll(q.target, Feed(q.target, base, current), drafts[..i])
  {
    assert window[..i + 1] == [current] + drafts[..i];
    FeedAllCons(q.target, base, current, drafts[..i]);
  }

  /** A window fed from `base` predicts along its drafts, whether or not it has a bonus row. */
  lemma WindowAlong(q: Request, base: State, current: Token, drafts: seq<Token>, window: seq<Token>,
                    logits: seq<Logits>)
    requires 0 < |window| && |drafts| <= |window| <= |drafts| + 1 && window == [current] + drafts[..|window| - 1]
    requires WindowLogits(q.target, base, window, logits)
    ensures logits[..|drafts|] == Along(q, Feed(q.target, base, current), drafts)
    ensures |window| == |drafts| + 1 ==>
              logits[|drafts|] == q.target.head(FeedAll(q.target, Feed(q.target, base, current), drafts))
  {
    forall i | 0 <= i < |drafts|
      ensures logits[i] == Along(q, Feed(q.target, base, current), drafts)[i]
    {
      WindowAlongAt(q, base, current, drafts, window, i);
      AtIsFeedAll(q.target, Feed(q.target, base, current), drafts, i);
    }
    if |window| == |drafts| + 1 {
      WindowAlongAt(q, base, current, drafts, window, |drafts|);
      assert drafts[..|drafts|] == drafts;
    }
  }

  /** Judges one position and emits the draft if it is due. */
  method JudgeOne(round: GreedyRound, q: Request, row: Logits, draft: Token, index: nat, emitLimit: nat,
                  gen0: seq<Token>, rng0: Rng, remaining0: nat)
    returns (more: bool, gen: seq<Token>, rng: Rng, remaining: nat)
    requires remaining0 > 0 && !round.stopped && round.mismatch == None
    modifies round
    ensures var (target, r) := Choose(q, row, gen0, rng0);
            var hit := target == draft && !ShouldStop(q, draft);
            var emit := hit && index < emitLimit;
            && rng == r
            && gen == (if emit then gen0 + [draft] else gen0)
            && remaining == (if emit then remaining0 - 1 else remaining0)
            && more == (hit && (emit ==> q.keepGoing(gen) && remaining > 0))
            && round.accepted == old(round.accepted) + (if hit then 1 else 0)
            && round.emitted == old(round.emitted) + (if emit then 1 else 0)
            && round.mismatch == (if target != draft then Some(target) else None)
            && round.stopped == (target == draft && (ShouldStop(q, draft) || (emit && !q.keepGoing(gen))))
  {
    gen, remaining := gen0, remaining0;
    var (target, r) := Choose(q, row, gen0, rng0);
    rng := r;
    var action := round.Observe(index, draft, target, emitLimit, q);
    match action {
      case Reject | Stop => more := false;
      case AcceptWithoutEmit => more := true;
      case EmitToken =>
        gen := gen + [draft];
        more, remaining := round.AfterEmit(q.keepGoing(gen), remaining);
    }
  }

  method JudgeWindow(q: Request, logits: seq<Logits>, drafts: seq<Token>, emitLimit: nat, gen0: seq<Token>, rng0: Rng,
                     remaining0: nat)
    returns (v: Verdict)
    requires |drafts| <= |logits| && remaining0 > 0
    ensures v == Judge(q, logits, drafts, emitLimit, 0, gen0, rng0, remaining0)
  {
    var round := new GreedyRound();
    var gen, rng, remaining := gen0, rng0, remaining0;
    var i := 0;
    while i < |drafts|
      invariant i <= |drafts| && remaining > 0
      invariant round.accepted == i && round.emitted == (if i < emitLimit then i else emitLimit)
      invariant !round.stopped && round.mismatch == None
      invariant Judge(q, logits, drafts, emitLimit, i, gen, rng, remaining) ==
                Judge(q, logits, drafts, emitLimit, 0, gen0, rng0, remaining0)
    {
      var more;
      more, gen, rng, remaining := JudgeOne(round, q, logits[i], drafts[i], i, emitLimit, gen, rng, remaining);
      if !more { break; }
      i := i + 1;
    }
    v := Verdict(round.accepted, round.emitted, round.stopped, round.mismatch, gen, rng, remaining);
  }

  lemma {:induction false} JudgeAccounted(q: Request, logits: seq<Logits>, drafts: seq<Token>, emitLimit: nat, i: nat,
                                          gen0: seq<Token>, gen: seq<Token>, rng: Rng, remaining: nat)
    requires i <= |drafts| <= |logits| && remaining > 0
    requires emitLimit <= |drafts|
    requires gen == gen0 + drafts[..if i < emitLimit then i else emitLimit]
    ensures var v := Judge(q, logits, drafts, emitLimit, i, gen, rng, remaining);
            && Accounted(v, drafts, emitLimit, gen0, remaining + if i < emitLimit then i else emitLimit)
            && (q.greedy ==> v.rng == rng)
    decreases |drafts| - i
  {
    if i < |drafts| {
      var (target, rng') := Choose(q, logits[i], gen, rng);
      if target == drafts[i] && !ShouldStop(q, drafts[i]) {
        if i >= emitLimit {
          JudgeAccounted(q, logits, drafts, emitLimit, i + 1, gen0, gen, rng', remaining);
        } else {
          var gen' := gen + [drafts[i]];
          assert gen' == gen0 + drafts[..i + 1];
          if q.keepGoing(gen') && remaining > 1 {
            JudgeAccounted(q, logits, drafts, emitLimit, i + 1, gen0, gen', rng', remaining - 1);
          }
        }
      }
    }
  }

  /** Past the emit limit nothing goes out, but every accepted draft is the next greedy choice. */
  lemma {:induction false} JudgeRunway(q: Request, s: State, logits: seq<Logits>, drafts: seq<Token>, emitLimit: nat,
                                       i: nat, gen: seq<Token>, rng: Rng, remaining: nat)
    requires emitLimit <= i <= |drafts| <= |logits| && remaining > 0 && q.greedy
    requires logits == Along(q, s, drafts)
    requires GreedyRun(q, s, drafts, emitLimit, i)
    ensures var v := Judge(q, logits, drafts, emitLimit, i, gen, rng, remaining);
            && v.emitted == emitLimit && i <= v.accepted <= |drafts|
            && v.gen == gen && v.rng == rng && v.remaining == remaining
            && GreedyRun(q, s, drafts, emitLimit, v.accepted)
            && (v.stopped ==>
                  v.accepted < |drafts| && ShouldStop(q, GreedyNext(q, At(q.target, s, drafts, v.accepted))))
            && (v.mismatch.Some? ==>
                  v.accepted < |drafts| && !v.stopped &&
                  v.mismatch.value == GreedyNext(q, At(q.target, s, drafts, v.accepted)))
    decreases |drafts| - i
  {
    if i < |drafts| && GreedyToken(q, logits[i]) == drafts[i] && !ShouldStop(q, drafts[i]) {
      assert Picked(q, s, drafts, i);
      JudgeRunway(q, s, logits, drafts, emitLimit, i + 1, gen, rng, remaining);
    }
  }

  /** At the limit the verdict's emitted part is final. */
  lemma JudgeAtLimit(q: Request, s: State, logits: seq<Logits>, drafts: seq<Token>, emitLimit: nat, gen: seq<Token>,
                     rng: Rng, remaining: nat)
    requires emitLimit <= |drafts| <= |logits| && remaining > 0
    requires logits == Along(q, s, drafts)
    requires emitLimit < |drafts| ==> q.greedy
    ensures var v := Judge(q, logits, drafts, emitLimit, emitLimit, gen, rng, remaining);
            && v.emitted <= v.accepted <= |drafts|
            && Faithful(q, s, v, drafts, Plain(q, At(q.target, s, drafts, emitLimit), gen, rng, remaining))
  {
    if emitLimit < |drafts| { JudgeRunway(q, s, logits, drafts, emitLimit, emitLimit, gen, rng, remaining); }
  }

  /** Along accepted and emitted drafts the verdict tracks the plain run exactly. */
  lemma {:induction false} JudgeFaithful(q: Request, s: State, logits: seq<Logits>, drafts: seq<Token>, emitLimit: nat,
                                         i: nat, gen: seq<Token>, rng: Rng, remaining: nat)
    requires i <= emitLimit <= |drafts| <= |logits| && remaining > 0
    requires logits == Along(q, s, drafts)
    requires emitLimit < |drafts| ==> q.greedy && emitLimit < remaining + i
    ensures var v := Judge(q, logits, drafts, emitLimit, i, gen, rng, remaining);
            && v.emitted <= v.accepted <= |drafts|
            && Faithful(q, s, v, drafts, Plain(q, At(q.target, s, drafts, i), gen, rng, remaining))
    decreases |drafts| - i
  {
    if i == emitLimit {
      JudgeAtLimit(q, s, logits, drafts, emitLimit, gen, rng, remaining);
    } else {
      var at, gen' := At(q.target, s, drafts, i), gen + [drafts[i]];
      var (target, rng') := Choose(q, logits[i], gen, rng);
      assert Plain(q, at, gen, rng, remaining) == Emit(q, at, target, rng', gen, remaining);
      assert Choose(q, q.target.head(at), gen, rng) == (target, rng');
      if target == drafts[i] && !ShouldStop(q, drafts[i]) {
        EmitCases(q, at, drafts[i], rng', gen, remaining);
        if q.keepGoing(gen') && remaining > 1 {
          JudgeFaithful(q, s, logits, drafts, emitLimit, i + 1, gen', rng', remaining - 1);
        }
      }
    }
  }
}
