/** The engine's sequence state: a row buffer whose logical part ends at `len`, and the
    recurrent state. Lowering `len` keeps the rows behind it; raising it exposes them. */
module EngineState {
  import opened Model

  datatype Checkpoint = Checkpoint(len: nat, rec: Rec)

  /** How a verify window recorded the recurrent state after a prefix: not at all
      (attention-only), as the input of its one step, or whole. */
  datatype Payload = NoLayers | OneStep(input: RecInput) | Whole(rec: Rec)

  /** Rows and recurrent states of a window that was run without touching the engine. */
  datatype WindowCommit = WindowCommit(basePos: nat, rows: seq<Row>, recs: seq<Rec>)

  /** The logits a target predicts along a window fed from `s`. */
  ghost predicate WindowLogits(t: Target, s: State, toks: seq<Token>, logits: seq<Logits>) {
    |logits| == |toks| &&
    forall i | 0 <= i < |toks| :: logits[i] == t.head(FeedAll(t, s, toks[..i + 1]))
  }

  function PayloadAfter(t: Target, s: State, toks: seq<Token>, p: nat, oneStep: bool): Payload
    requires 1 <= p <= |toks|
  {
    if !t.recurrent then NoLayers
    else if oneStep && p == 1 then OneStep(t.inputOf(s, toks[0]))
    else Whole(FeedAll(t, s, toks[..p]).rec)
  }

  /** A buffer with one row written at `at`, its end included. */
  function Written(rows: seq<Row>, at: nat, row: Row): (out: seq<Row>)
    requires at <= |rows|
    ensures at < |out| && out[..at] == rows[..at] && out[at] == row
  {
    rows[..at] + [row] + if at < |rows| then rows[at + 1..] else []
  }

  class Engine {
    const target: Target
    const blankRec: Rec
    var rows: seq<Row>
    var len: nat
    var rec: Rec

    ghost predicate Valid()
      reads this
    {
      len <= |rows|
    }

    function Now(): State
      reads this
      requires Valid()
    {
      State(rows[..len], rec)
    }

    function Blank(): State {
      State([], blankRec)
    }

    constructor (target: Target, blankRec: Rec)
      ensures Valid() && this.target == target && Now() == Blank() == State([], blankRec)
    {
      this.target, this.blankRec := target, blankRec;
      this.rows, this.len, this.rec := [], 0, blankRec;
    }

    method Clear()
      modifies this
      ensures Valid() && Now() == Blank() && rows == old(rows)
    {
      len, rec := 0, blankRec;
    }

    method Forward(tok: Token) returns (logits: Logits)
      requires Valid()
      modifies this
      ensures Valid() && Now() == Feed(target, old(Now()), tok)
      ensures logits == target.head(Now())
      ensures rows == Written(old(rows), old(len), target.rowOf(old(Now()), tok)) && len == old(len) + 1
    {
      var s := Now();
      rec := RecAfter(target, s, tok);
      rows := Written(rows, len, target.rowOf(s, tok));
      len := len + 1;
      assert rows[..len] == s.kv + [target.rowOf(s, tok)];
      logits := target.head(Now());
    }

    /** Feeds a whole window and returns one logits row per token. */
    method ForwardWindow(toks: seq<Token>) returns (logits: seq<Logits>)
      requires Valid()
      modifies this
      ensures Valid() && Now() == FeedAll(target, old(Now()), toks)
      ensures WindowLogits(target, old(Now()), toks, logits)
    {
      logits := [];
      ghost var base := Now();
      for i := 0 to |toks|
        invariant Valid() && Now() == FeedAll(target, base, toks[..i])
        invariant |logits| == i
        invariant forall j | 0 <= j < i :: logits[j] == target.head(FeedAll(target, base, toks[..j + 1]))
      {
        FeedAllStep(target, base, toks, i);
        var l := Forward(toks[i]);
        logits := logits + [l];
      }
      assert toks[..|toks|] == toks;
    }

    /** As `ForwardWindow`, recording the recurrent state after each listed prefix. */
    method ForwardWindowSnapshots(toks: seq<Token>, prefixes: set<nat>, oneStep: bool)
      returns (logits: seq<Logits>, snaps: map<nat, Payload>)
      requires Valid()
      requires forall p | p in prefixes :: 1 <= p <= |toks|
      modifies this
      ensures Valid() && Now() == FeedAll(target, old(Now()), toks)
      ensures WindowLogits(target, old(Now()), toks, logits)
      ensures snaps == map p | p in prefixes :: PayloadAfter(target, old(Now()), toks, p, oneStep)
    {
      var base := Now();
      logits := ForwardWindow(toks);
      snaps := map p | p in prefixes :: PayloadAfter(target, base, toks, p, oneStep);
    }

    /** One early-exit draft step: it writes a row and moves the recurrent state, neither of
        them the target's. */
    method ForwardDraft(row: Row, junk: Rec)
      requires Valid()
      modifies this
      ensures Valid() && len == old(len) + 1 && rows[..old(len)] == old(rows[..len])
      ensures rows == Written(old(rows), old(len), row) && rec == junk
    {
      rows := Written(rows, len, row);
      len, rec := len + 1, junk;
    }

    method SetLen(n: nat)
      requires n <= |rows|
      modifies this`len
      ensures Valid() && len == n
    {
      len := n;
    }

    method Save() returns (c: Checkpoint)
      requires Valid()
      ensures c == Checkpoint(len, rec)
    {
      c := Checkpoint(len, rec);
    }

    method Restore(c: Checkpoint)
      requires c.len <= |rows|
      modifies this`len, this`rec
      ensures Valid() && len == c.len && rec == c.rec
    {
      len, rec := c.len, c.rec;
    }

    /** Puts a captured sequence state in place. */
    method Load(s: State)
      modifies this
      ensures Valid() && Now() == s && rows == s.kv
    {
      rows, len, rec := s.kv, |s.kv|, s.rec;
      assert rows[..len] == s.kv;
    }

    /** Puts a window's recorded prefix in place over the rows the window wrote. */
    method RestorePrefix(base: nat, prefixTokens: nat, payload: Payload)
      requires base + prefixTokens <= |rows|
      modifies this`len, this`rec
      ensures Valid() && len == base + prefixTokens
      ensures rec == match payload
                     case NoLayers => old(rec)
                     case OneStep(input) => target.recStep(old(rec), input)
                     case Whole(r) => r
    {
      len := base + prefixTokens;
      match payload {
        case NoLayers =>
        case OneStep(input) => rec := target.recStep(rec, input);
        case Whole(r) => rec := r;
      }
    }

    /** Runs a window on the side: the engine keeps its state, the carrier keeps the rest. */
    method ForwardPure(toks: seq<Token>) returns (logits: seq<Logits>, commit: WindowCommit)
      requires Valid()
      ensures WindowLogits(target, Now(), toks, logits)
      ensures commit.basePos == len && |commit.rows| == |commit.recs| == |toks|
      ensures Now().kv + commit.rows == FeedAll(target, Now(), toks).kv
      ensures forall i | 0 <= i < |toks| :: commit.recs[i] == FeedAll(target, Now(), toks[..i + 1]).rec
    {
      var base := Now();
      FeedAllRows(target, base, toks, 0);
      assert toks[..0] == [];
      var after := FeedAll(target, base, toks);
      assert base.kv + after.kv[len..] == after.kv;
      logits := seq(|toks|, i requires 0 <= i < |toks| => target.head(FeedAll(target, base, toks[..i + 1])));
      commit := WindowCommit(len, after.kv[len..],
                             seq(|toks|, i requires 0 <= i < |toks| => FeedAll(target, base, toks[..i + 1]).rec));
    }

    /** Commits the first `n` lanes of a window; refused when the base has moved. */
    method CommitWindow(commit: WindowCommit, n: nat) returns (ok: bool)
      requires Valid() && |commit.rows| == |commit.recs|
      modifies this
      ensures Valid()
      ensures ok <==> 1 <= n <= |commit.rows| && commit.basePos == old(len)
      ensures ok ==> Now() == State(old(Now()).kv + commit.rows[..n], commit.recs[n - 1])
      ensures ok ==> rows == Now().kv
      ensures !ok ==> rows == old(rows) && len == old(len) && rec == old(rec)
    {
      ok := 1 <= n <= |commit.rows| && commit.basePos == len;
      if ok {
        rows := rows[..len] + commit.rows[..n];
        len, rec := len + n, commit.recs[n - 1];
        assert rows[..len] == rows;
      }
    }
  }

  /** The state a length cut leaves: the prefix's rows, the whole window's recurrent part. */
  function CutTo(t: Target, base: State, toks: seq<Token>, n: nat): State
    requires n <= |toks|
  {
    State(FeedAll(t, base, toks[..n]).kv, FeedAll(t, base, toks).rec)
  }

  /** A window fed from `base`, cut back by length, holds the prefix's rows. */
  lemma CutWindow(t: Target, base: State, toks: seq<Token>, n: nat)
    requires n <= |toks|
    ensures |FeedAll(t, base, toks).kv| == |base.kv| + |toks|
    ensures FeedAll(t, base, toks).kv[..|base.kv| + n] == FeedAll(t, base, toks[..n]).kv
    ensures !t.recurrent ==> FeedAll(t, base, toks).rec == FeedAll(t, base, toks[..n]).rec
  {
    FeedAllRows(t, base, toks, n);
    if !t.recurrent {
      FeedAllNotRecurrent(t, base, toks);
      FeedAllNotRecurrent(t, base, toks[..n]);
    }
  }
}
