/** Accept and emit bookkeeping of one verify round. */
module Rounds {
  import opened Model

  datatype RoundAction = Reject | Stop | AcceptWithoutEmit | EmitToken

  class GreedyRound {
    var accepted: nat
    var emitted: nat
    var stopped: bool
    var mismatch: Option<Token>

    constructor ()
      ensures accepted == emitted == 0 && !stopped && mismatch == None
    {
      accepted, emitted, stopped, mismatch := 0, 0, false, None;
    }

    /** Judges one position. A stop token is neither accepted nor emitted; positions from
        `emitLimit` on are accepted only. */
    method Observe(index: nat, draft: Token, target: Token, emitLimit: nat, q: Request)
      returns (action: RoundAction)
      modifies this
      ensures action == if target != draft then Reject
                        else if ShouldStop(q, draft) then Stop
                        else if index >= emitLimit then AcceptWithoutEmit
                        else EmitToken
      ensures mismatch == if action == Reject then Some(target) else old(mismatch)
      ensures stopped == (action == Stop || old(stopped))
      ensures accepted == old(accepted) + if action in {AcceptWithoutEmit, EmitToken} then 1 else 0
      ensures emitted == old(emitted) + if action == EmitToken then 1 else 0
    {
      if target != draft {
        mismatch := Some(target);
        return Reject;
      }
      if ShouldStop(q, draft) {
        stopped := true;
        return Stop;
      }
      accepted := accepted + 1;
      if index >= emitLimit {
        return AcceptWithoutEmit;
      }
      emitted := emitted + 1;
      return EmitToken;
    }

    method AfterEmit(keepGoing: bool, remaining: nat) returns (more: bool, left: nat)
      requires remaining > 0
      modifies this`stopped
      ensures left == remaining - 1
      ensures stopped == (old(stopped) || !keepGoing)
      ensures more == (keepGoing && left != 0)
    {
      left := remaining - 1;
      if !keepGoing {
        stopped := true;
        return false, left;
      }
      return left != 0, left;
    }
  }

  /** Length of the longest common prefix of drafts and targets. */
  function MatchedPrefix(drafts: seq<Token>, targets: seq<Token>): (n: nat)
    ensures n <= |drafts| && n <= |targets|
    ensures drafts[..n] == targets[..n]
    ensures n < |drafts| && n < |targets| ==> drafts[n] != targets[n]
  {
    if drafts == [] || targets == [] || drafts[0] != targets[0] then 0
    else 1 + MatchedPrefix(drafts[1..], targets[1..])
  }

  method GreedyMatchedPrefix(drafts: seq<Token>, targets: seq<Token>) returns (n: nat)
    ensures n == MatchedPrefix(drafts, targets)
  {
    n := 0;
    while n < |drafts| && n < |targets| && drafts[n] == targets[n]
      invariant n <= |drafts| && n <= |targets|
      invariant MatchedPrefix(drafts, targets) == n + MatchedPrefix(drafts[n..], targets[n..])
    {
      assert drafts[n..][1..] == drafts[n + 1..] && targets[n..][1..] == targets[n + 1..];
      n := n + 1;
    }
  }

  /** What a round hands back to its loop. */
  datatype Outcome = Outcome(gen: seq<Token>, remaining: nat, stopped: bool, emitted: nat)

  /** Judging and emitting position by position, from position `i` on. */
  function OnePass(q: Request, drafts: seq<Token>, targets: seq<Token>, i: nat, gen: seq<Token>,
                   remaining: nat): Outcome
    requires i <= |drafts| <= |targets| && remaining > 0
    decreases |drafts| - i
  {
    if i == |drafts| || drafts[i] != targets[i] then Outcome(gen, remaining, false, i)
    else if ShouldStop(q, drafts[i]) then Outcome(gen, remaining, true, i)
    else
      var gen' := gen + [drafts[i]];
      if !q.keepGoing(gen') then Outcome(gen', remaining - 1, true, i + 1)
      else if remaining == 1 then Outcome(gen', 0, false, i + 1)
      else OnePass(q, drafts, targets, i + 1, gen', remaining - 1)
  }

  /** The same judgement split in two: longest match first, then replaying it. */
  function TwoPhase(q: Request, drafts: seq<Token>, targets: seq<Token>, gen: seq<Token>, remaining: nat): Outcome
    requires |drafts| <= |targets| && remaining > 0
  {
    var n := MatchedPrefix(drafts, targets);
    OnePass(q, drafts[..n], drafts[..n], 0, gen, remaining)
  }

  lemma {:induction false} ReplayFrom(q: Request, drafts: seq<Token>, targets: seq<Token>, n: nat, i: nat,
                                      gen: seq<Token>, remaining: nat)
    requires i <= n <= |drafts| <= |targets| && remaining > 0
    requires drafts[..n] == targets[..n] && (n < |drafts| ==> drafts[n] != targets[n])
    ensures OnePass(q, drafts[..n], drafts[..n], i, gen, remaining) == OnePass(q, drafts, targets, i, gen, remaining)
    ensures var o := OnePass(q, drafts, targets, i, gen, remaining);
            !o.stopped && o.remaining > 0 ==> o.emitted == n
    decreases n - i
  {
    if i < n {
      assert drafts[..n][i] == drafts[i] && targets[..n][i] == targets[i];
      var gen' := gen + [drafts[i]];
      if !ShouldStop(q, drafts[i]) && q.keepGoing(gen') && remaining > 1 {
        ReplayFrom(q, drafts, targets, n, i + 1, gen', remaining - 1);
      }
    }
  }

  /** Splitting the round changes nothing a client can see, and when the round goes on,
      everything matched was emitted and the correction is the target at the match's end:
      the first mismatch, or the bonus. */
  lemma TwoPhaseEqualsOnePass(q: Request, drafts: seq<Token>, targets: seq<Token>, gen: seq<Token>, remaining: nat)
    requires |drafts| < |targets| && remaining > 0
    ensures TwoPhase(q, drafts, targets, gen, remaining) == OnePass(q, drafts, targets, 0, gen, remaining)
    ensures var o := OnePass(q, drafts, targets, 0, gen, remaining);
            !o.stopped && o.remaining > 0 ==>
              && o.emitted == MatchedPrefix(drafts, targets)
              && o.gen == gen + drafts[..o.emitted]
              && (o.emitted < |drafts| ==> targets[o.emitted] != drafts[o.emitted])
  {
    ReplayFrom(q, drafts, targets, MatchedPrefix(drafts, targets), 0, gen, remaining);
    OnePassGen(q, drafts, targets, 0, gen, remaining);
  }

  /** A round emits a run of its drafts and pays one unit of budget for each. */
  lemma {:induction false} OnePassGen(q: Request, drafts: seq<Token>, targets: seq<Token>, i: nat, gen: seq<Token>,
                                      remaining: nat)
    requires i <= |drafts| <= |targets| && remaining > 0
    ensures var o := OnePass(q, drafts, targets, i, gen, remaining);
            && i <= o.emitted <= |drafts|
            && o.gen == gen + drafts[i..o.emitted]
            && o.remaining + (o.emitted - i) == remaining
            && drafts[i..o.emitted] == targets[i..o.emitted]
    decreases |drafts| - i
  {
    if i < |drafts| && drafts[i] == targets[i] && !ShouldStop(q, drafts[i]) {
      var gen' := gen + [drafts[i]];
      var o := OnePass(q, drafts, targets, i, gen, remaining);
      if q.keepGoing(gen') && remaining > 1 {
        OnePassGen(q, drafts, targets, i + 1, gen', remaining - 1);
      }
      assert drafts[i..o.emitted] == [drafts[i]] + drafts[i + 1..o.emitted];
      assert targets[i..o.emitted] == [targets[i]] + targets[i + 1..o.emitted];
    }
  }
}
