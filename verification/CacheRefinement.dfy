/** The f16 cache as the sequence state the loops work on: each engine operation on rows and
    recurrent state is what the buffers do. */
module CacheRefinement {
  import opened Model
  import opened EngineState
  import opened KvCache

  // ---- Rows of the buffers ----

  function Reals(bits: seq<Bits>): Row {
    seq(|bits|, i requires 0 <= i < |bits| => (bits[i] as int) as real)
  }

  /** The bits of position `p`. */
  function Part(buf: seq<Bits>, p: nat, stride: nat): seq<Bits> {
    var start: nat := p * stride;
    if start + stride <= |buf| then buf[start..start + stride] else []
  }

  function Cell(l: Layer, p: nat): Row {
    Reals(Part(l.key, p, l.Stride())) + Reals(Part(l.value, p, l.Stride()))
  }

  /** Keys and values of position `p` in the first `m` layers. */
  function KvRow(layers: seq<Layer>, p: nat, m: nat): Row
    requires m <= |layers|
  {
    if m == 0 then [] else KvRow(layers, p, m - 1) + Cell(layers[m - 1], p)
  }

  function IndexRow(indexer: seq<seq<Bits>>, keyLen: nat, p: nat, m: nat): Row
    requires m <= |indexer|
  {
    if m == 0 then [] else IndexRow(indexer, keyLen, p, m - 1) + Reals(Part(indexer[m - 1], p, keyLen))
  }

  /** Everything the buffers hold for position `p`. */
  function RowAt(c: Cache, p: nat): Row {
    KvRow(c.layers, p, |c.layers|) + IndexRow(c.indexer, c.keyLen, p, |c.indexer|)
  }

  /** The rows of all positions there is room for. */
  function Physical(c: Cache): seq<Row> {
    seq(c.maxSeq, p requires 0 <= p < c.maxSeq => RowAt(c, p))
  }

  function RecOf(states: seq<Option<Ssm>>): Rec {
    if states == [] then []
    else
      var last := states[|states| - 1];
      RecOf(states[..|states| - 1]) + if last.Some? then last.value.conv + last.value.delta else []
  }

  /** The sequence state the cache stands for. */
  function Abs(c: Cache): State
    requires c.len <= c.maxSeq
  {
    State(Physical(c)[..c.len], RecOf(c.ssm))
  }

  // ---- Passes ----

  /** What a pass writes for its `j`-th position in the first `m` layers. */
  function NewCells(c: Cache, ks: seq<seq<Bits>>, vs: seq<seq<Bits>>, j: nat, m: nat): Row
    requires m <= |c.layers| == |ks| == |vs|
  {
    if m == 0 then []
    else
      var stride := c.layers[m - 1].Stride();
      NewCells(c, ks, vs, j, m - 1) + (Reals(Part(ks[m - 1], j, stride)) + Reals(Part(vs[m - 1], j, stride)))
  }

  /** Its whole row, index keys written before it included. */
  function NewRow(c: Cache, ks: seq<seq<Bits>>, vs: seq<seq<Bits>>, j: nat): Row
    requires |c.layers| == |ks| == |vs|
  {
    NewCells(c, ks, vs, j, |c.layers|) + IndexRow(c.indexer, c.keyLen, c.len + j, |c.indexer|)
  }

  lemma MulStep(p: nat, q: nat, s: nat)
    requires p < q
    ensures p * s + s <= q * s
  {
    MulLe(p + 1, q, s);
  }

  lemma PutPart(buf: seq<Bits>, pos: nat, n: nat, bits: seq<Bits>, s: nat, p: nat)
    requires n * s <= |bits| && pos * s + n * s <= |buf|
    ensures Part(Put(buf, pos * s, bits[..n * s]), p, s) ==
            if pos <= p < pos + n then Part(bits, p - pos, s) else Part(buf, p, s)
  {
    var buf' := Put(buf, pos * s, bits[..n * s]);
    PutReads(buf, pos * s, bits[..n * s]);
    if p < pos {
      MulStep(p, pos, s);
      SliceWithin(buf', 0, buf, pos * s, p * s, s);
    } else if p < pos + n {
      PartWithin(buf', pos, n, bits, s, p);
    } else {
      PartBehind(buf, buf', pos, n, s, p);
    }
  }

  lemma MulSplit(p: nat, pos: nat, j: nat, s: nat)
    requires p == pos + j
    ensures p * s == pos * s + j * s
  {
  }

  /** Equal stretches, equal pieces of them. */
  lemma SliceWithin(buf: seq<Bits>, at: nat, bits: seq<Bits>, count: nat, within: nat, s: nat)
    requires count <= |bits| && at + count <= |buf| && buf[at..at + count] == bits[..count] && within + s <= count
    ensures buf[at + within..at + within + s] == bits[within..within + s]
  {
    var a, b := buf[at + within..at + within + s], bits[within..within + s];
    forall j | 0 <= j < s ensures a[j] == b[j] {
      assert buf[at..at + count][within + j] == bits[..count][within + j];
    }
  }

  lemma PartWithin(buf': seq<Bits>, pos: nat, n: nat, bits: seq<Bits>, s: nat, p: nat)
    requires n * s <= |bits| && pos * s + n * s <= |buf'| && pos <= p < pos + n
    requires buf'[pos * s..pos * s + n * s] == bits[..n * s]
    ensures Part(buf', p, s) == Part(bits, p - pos, s)
  {
    var j := p - pos;
    var at: nat, count: nat, within: nat := pos * s, n * s, j * s;
    MulStep(j, n, s);
    MulSplit(p, pos, j, s);
    SliceWithin(buf', at, bits, count, within, s);
    assert p * s == at + within;
  }

  lemma SliceBehind(buf: seq<Bits>, buf': seq<Bits>, cut: nat, at: nat, s: nat)
    requires cut <= at && at + s <= |buf| == |buf'| && buf'[cut..] == buf[cut..]
    ensures buf'[at..at + s] == buf[at..at + s]
  {
    assert buf'[cut..][at - cut..at + s - cut] == buf[cut..][at - cut..at + s - cut];
  }

  lemma PartBehind(buf: seq<Bits>, buf': seq<Bits>, pos: nat, n: nat, s: nat, p: nat)
    requires pos * s + n * s <= |buf| == |buf'| && buf'[pos * s + n * s..] == buf[pos * s + n * s..] && pos + n <= p
    ensures Part(buf', p, s) == Part(buf, p, s)
  {
    MulLe(pos + n, p, s);
    MulSplit(pos + n, pos, n, s);
    if p * s + s <= |buf| { SliceBehind(buf, buf', pos * s + n * s, p * s, s); }
  }

  lemma CellWritten(l: Layer, pos: nat, n: nat, k: seq<Bits>, v: seq<Bits>, maxSeq: nat, p: nat)
    requires RoomyLayer(l, maxSeq) && pos + n <= maxSeq
    requires n * l.Stride() <= |k| && n * l.Stride() <= |v|
    ensures Cell(WriteRows(l, pos, n, k, v), p) ==
            if pos <= p < pos + n
            then Reals(Part(k, p - pos, l.Stride())) + Reals(Part(v, p - pos, l.Stride()))
            else Cell(l, p)
  {
    MulLe(pos + n, maxSeq, l.Stride());
    assert (pos + n) * l.Stride() == pos * l.Stride() + n * l.Stride();
    PutPart(l.key, pos, n, k, l.Stride(), p);
    PutPart(l.value, pos, n, v, l.Stride(), p);
  }

  lemma {:induction false} PassCells(c: Cache, n: nat, ks: seq<seq<Bits>>, vs: seq<seq<Bits>>, p: nat, m: nat)
    requires Roomy(c) && PassFits(c, n, ks, vs) && m <= |c.layers|
    ensures KvRow(Pass(c, n, ks, vs, |c.layers|).layers, p, m) ==
            if c.len <= p < c.len + n then NewCells(c, ks, vs, p - c.len, m) else KvRow(c.layers, p, m)
    decreases m
  {
    if m > 0 {
      PassCells(c, n, ks, vs, p, m - 1);
      assert RoomyLayer(c.layers[m - 1], c.maxSeq);
      CellWritten(c.layers[m - 1], c.len, n, ks[m - 1], vs[m - 1], c.maxSeq, p);
      assert Pass(c, n, ks, vs, |c.layers|).layers[m - 1] == PassLayer(c, n, ks, vs, m - 1);
    }
  }

  lemma PassKeeps(c: Cache, n: nat, ks: seq<seq<Bits>>, vs: seq<seq<Bits>>)
    requires PassFits(c, n, ks, vs) && |c.layers| > 0
    ensures var c' := Pass(c, n, ks, vs, |c.layers|);
            && |c'.layers| == |c.layers| && c'.indexer == c.indexer && c'.keyLen == c.keyLen
            && c'.maxSeq == c.maxSeq && c'.ssm == c.ssm && c'.len == c.len + n
  {
  }

  /** Position `p` holds these cells and these index keys. */
  predicate Holds(c: Cache, p: nat, cells: Row, index: Row) {
    KvRow(c.layers, p, |c.layers|) == cells && IndexRow(c.indexer, c.keyLen, p, |c.indexer|) == index
  }

  /** The pass writes these cells for its `j`-th position, beside these index keys. */
  predicate Writes(c: Cache, ks: seq<seq<Bits>>, vs: seq<seq<Bits>>, j: nat, cells: Row, index: Row)
  {
    && |c.layers| == |ks| == |vs|
    && NewCells(c, ks, vs, j, |c.layers|) == cells && IndexRow(c.indexer, c.keyLen, c.len + j, |c.indexer|) == index
  }

  lemma RowIs(c: Cache, p: nat, cells: Row, index: Row)
    requires Holds(c, p, cells, index)
    ensures RowAt(c, p) == cells + index
  {
  }

  lemma NewRowIs(c: Cache, ks: seq<seq<Bits>>, vs: seq<seq<Bits>>, j: nat, cells: Row, index: Row)
    requires |c.layers| == |ks| == |vs| && Writes(c, ks, vs, j, cells, index)
    ensures NewRow(c, ks, vs, j) == cells + index
  {
  }

  lemma PassHolds(c: Cache, n: nat, ks: seq<seq<Bits>>, vs: seq<seq<Bits>>, p: nat, c': Cache)
    returns (cells: Row, index: Row)
    requires Roomy(c) && PassFits(c, n, ks, vs) && |c.layers| > 0 && c' == Pass(c, n, ks, vs, |c.layers|)
    ensures Holds(c', p, cells, index)
    ensures if c.len <= p < c.len + n then Writes(c, ks, vs, p - c.len, cells, index) else Holds(c, p, cells, index)
  {
    PassKeeps(c, n, ks, vs);
    PassCells(c, n, ks, vs, p, |c.layers|);
    cells, index := KvRow(c'.layers, p, |c'.layers|), IndexRow(c.indexer, c.keyLen, p, |c.indexer|);
  }

  /** A pass puts its rows behind the cached ones and leaves every other row alone. */
  lemma PassRow(c: Cache, n: nat, ks: seq<seq<Bits>>, vs: seq<seq<Bits>>, p: nat, c': Cache)
    requires Roomy(c) && PassFits(c, n, ks, vs) && |c.layers| > 0 && c' == Pass(c, n, ks, vs, |c.layers|)
    ensures c.len <= p < c.len + n ==> RowAt(c', p) == NewRow(c, ks, vs, p - c.len)
    ensures !(c.len <= p < c.len + n) ==> RowAt(c', p) == RowAt(c, p)
  {
    var cells, index := PassHolds(c, n, ks, vs, p, c');
    RowIs(c', p, cells, index);
    if c.len <= p < c.len + n {
      NewRowIs(c, ks, vs, p - c.len, cells, index);
    } else {
      RowIs(c, p, cells, index);
    }
  }

  /** The rows a pass over `n` positions writes. */
  function NewRows(c: Cache, n: nat, ks: seq<seq<Bits>>, vs: seq<seq<Bits>>): seq<Row>
    requires |c.layers| == |ks| == |vs|
  {
    seq(n, j requires 0 <= j < n => NewRow(c, ks, vs, j))
  }

  /** `news` stand at `at`, everything else is as it was. */
  predicate Spliced(now: seq<Row>, was: seq<Row>, at: nat, news: seq<Row>) {
    && |now| == |was| && at + |news| <= |was|
    && forall p | 0 <= p < |now| :: now[p] == if at <= p < at + |news| then news[p - at] else was[p]
  }

  lemma SplicedPrefix(now: seq<Row>, was: seq<Row>, at: nat, news: seq<Row>)
    requires Spliced(now, was, at, news)
    ensures now[..at] == was[..at] && now[..at + |news|] == was[..at] + news
  {
  }

  /** All rows there is room for, after a pass. */
  lemma PassPhysical(c: Cache, n: nat, ks: seq<seq<Bits>>, vs: seq<seq<Bits>>, c': Cache)
    requires Roomy(c) && PassFits(c, n, ks, vs) && |c.layers| > 0 && c' == Pass(c, n, ks, vs, |c.layers|)
    ensures Spliced(Physical(c'), Physical(c), c.len, NewRows(c, n, ks, vs))
  {
    PassKeeps(c, n, ks, vs);
    forall p | 0 <= p < c.maxSeq
      ensures Physical(c')[p] == if c.len <= p < c.len + n then NewRows(c, n, ks, vs)[p - c.len] else Physical(c)[p]
    {
      PassRow(c, n, ks, vs, p, c');
    }
  }

  /** A pass over `n` positions extends the sequence state by exactly its `n` rows. */
  lemma PassRefines(c: Cache, n: nat, ks: seq<seq<Bits>>, vs: seq<seq<Bits>>, c': Cache)
    requires Roomy(c) && PassFits(c, n, ks, vs) && |c.layers| > 0 && c' == Pass(c, n, ks, vs, |c.layers|)
    ensures c'.len == c.len + n <= c'.maxSeq && Abs(c') == State(Abs(c).kv + NewRows(c, n, ks, vs), Abs(c).rec)
  {
    PassKeeps(c, n, ks, vs);
    PassPhysical(c, n, ks, vs, c');
    SplicedPrefix(Physical(c'), Physical(c), c.len, NewRows(c, n, ks, vs));
  }

  // ---- What two caches have in common ----

  lemma {:induction false} SameCells(layers: seq<Layer>, layers': seq<Layer>, p: nat, n: nat, m: nat)
    requires m <= |layers| == |layers'| && p < n
    requires forall i | 0 <= i < m :: SameLayer(layers[i], layers'[i], n) && RoomyLayer(layers[i], n)
    ensures KvRow(layers', p, m) == KvRow(layers, p, m)
    decreases m
  {
    if m > 0 {
      SameCells(layers, layers', p, n, m - 1);
      var l, l' := layers[m - 1], layers'[m - 1];
      assert SameLayer(l, l', n) && RoomyLayer(l, n);
      SamePart(l.key, l'.key, p, n, l.Stride());
      SamePart(l.value, l'.value, p, n, l.Stride());
    }
  }

  lemma SamePart(buf: seq<Bits>, buf': seq<Bits>, p: nat, n: nat, s: nat)
    requires p < n && n * s <= |buf| <= |buf'| && Prefix(buf', n * s) == Prefix(buf, n * s)
    ensures Part(buf', p, s) == Part(buf, p, s)
  {
    MulStep(p, n, s);
    SliceWithin(buf', 0, buf, n * s, p * s, s);
  }

  lemma {:induction false} SameIndex(indexer: seq<seq<Bits>>, indexer': seq<seq<Bits>>, keyLen: nat, p: nat, n: nat,
                                     m: nat)
    requires m <= |indexer| == |indexer'| && p < n
    requires forall i | 0 <= i < m :: SameKeys(indexer[i], indexer'[i], keyLen, n)
    ensures IndexRow(indexer', keyLen, p, m) == IndexRow(indexer, keyLen, p, m)
    decreases m
  {
    if m > 0 {
      SameIndex(indexer, indexer', keyLen, p, n, m - 1);
      SameKey(indexer[m - 1], indexer'[m - 1], keyLen, p, n);
    }
  }

  predicate SameKeys(buf: seq<Bits>, buf': seq<Bits>, keyLen: nat, n: nat) {
    SameRow(buf, buf', n * keyLen) && n * keyLen <= |buf|
  }

  lemma SameKey(buf: seq<Bits>, buf': seq<Bits>, keyLen: nat, p: nat, n: nat)
    requires p < n && SameKeys(buf, buf', keyLen, n)
    ensures Part(buf', p, keyLen) == Part(buf, p, keyLen)
  {
    SamePart(buf, buf', p, n, keyLen);
  }

  /** Caches that agree below a position hold the same rows there. */
  lemma SameRowsBelow(c: Cache, c': Cache, n: nat, p: nat)
    requires Roomy(c) && SameBelow(c, c', n) && p < n <= c.maxSeq
    ensures RowAt(c', p) == RowAt(c, p)
  {
    forall i | 0 <= i < |c.layers| ensures SameLayer(c.layers[i], c'.layers[i], n) && RoomyLayer(c.layers[i], n) {
      assert RoomyLayer(c.layers[i], c.maxSeq);
      MulLe(n, c.maxSeq, c.layers[i].Stride());
    }
    forall i | 0 <= i < |c.indexer| ensures SameKeys(c.indexer[i], c'.indexer[i], c.keyLen, n) {
      assert SameRow(c.indexer[i], c'.indexer[i], n * c.keyLen);
      MulLe(n, c.maxSeq, c.keyLen);
    }
    SameCells(c.layers, c'.layers, p, n, |c.layers|);
    SameIndex(c.indexer, c'.indexer, c.keyLen, p, n, |c.indexer|);
  }

  lemma SameAbs(c: Cache, c': Cache)
    requires Roomy(c) && SameBelow(c, c', c.len) && c'.len == c.len && c'.ssm == c.ssm
    ensures Abs(c') == Abs(c)
  {
    forall p: nat | p < c.len ensures Abs(c').kv[p] == Abs(c).kv[p] {
      SameRowsBelow(c, c', c.len, p);
    }
    assert Abs(c').kv == Abs(c).kv;
  }

  // ---- The engine's operations, on the cache ----

  /** The cache holds what the engine holds: its physical rows, its length, its recurrent part. */
  ghost predicate Mirrors(cache: KVCache, e: Engine)
    reads cache, e
  {
    && cache.Valid() && e.Valid() && e.len == cache.len && e.rec == RecOf(cache.ssm)
    && e.rows <= Physical(cache.Value())
  }

  /** A mirroring cache stands for the engine's state. */
  lemma MirrorsNow(cache: KVCache, e: Engine)
    requires Mirrors(cache, e)
    ensures Abs(cache.Value()) == e.Now()
  {
    var rows := Physical(cache.Value());
    assert e.rows[..e.len] == rows[..e.len];
  }

  /** A pass, layer by layer. */
  method AppendPass(cache: KVCache, n: nat, ks: seq<seq<Bits>>, vs: seq<seq<Bits>>)
    requires cache.Valid() && n > 0 && PassFits(cache.Value(), n, ks, vs)
    modifies cache
    ensures cache.Valid()
    ensures cache.Value() == Pass(old(cache.Value()), n, ks, vs, |old(cache.layers)|)
  {
    ghost var c := cache.Value();
    var pos := cache.len;
    assert Pass(c, n, ks, vs, 0).layers == c.layers;
    for i := 0 to |cache.layers|
      invariant cache.Valid() && |cache.layers| == |c.layers|
      invariant cache.Value() == Pass(c, n, ks, vs, i)
    {
      PassStep(c, n, ks, vs, i);
      cache.AppendRows(i, pos, n, ks[i], vs[i]);
    }
  }

  lemma WrittenMirrors(rows: seq<Row>, was: seq<Row>, now: seq<Row>, at: nat, row: Row)
    requires rows <= was && at <= |rows| && Spliced(now, was, at, [row])
    ensures Written(rows, at, row) <= now
  {
    var rows' := Written(rows, at, row);
    forall p | 0 <= p < |rows'| ensures rows'[p] == now[p] {
      if p < at || p > at { assert rows[p] == was[p]; }
    }
  }

  /** What a one-token pass and the recurrent step make of a mirroring cache. */
  lemma ForwardMirrors(c: Cache, ks: seq<seq<Bits>>, vs: seq<seq<Bits>>, states: seq<Option<Ssm>>, c': Cache,
                       rows: seq<Row>, row: Row)
    requires Roomy(c) && |c.layers| > 0 && PassFits(c, 1, ks, vs) && row == NewRow(c, ks, vs, 0)
    requires c' == Pass(c, 1, ks, vs, |c.layers|).(ssm := states)
    requires rows <= Physical(c) && c.len <= |rows|
    ensures Written(rows, c.len, row) <= Physical(c') && c'.len == c.len + 1
  {
    var passed := Pass(c, 1, ks, vs, |c.layers|);
    PassKeeps(c, 1, ks, vs);
    PassPhysical(c, 1, ks, vs, passed);
    assert NewRows(c, 1, ks, vs) == [row];
    assert Physical(c') == Physical(passed);
    WrittenMirrors(rows, Physical(c), Physical(c'), c.len, row);
  }

  /** One token: the pass's row and the recurrent step are the engine's `Forward`, whenever the
      kernels' results are the target's. */
  method Forward(cache: KVCache, e: Engine, tok: Token, states: seq<Option<Ssm>>, ks: seq<seq<Bits>>,
                 vs: seq<seq<Bits>>)
    returns (logits: Logits)
    requires Mirrors(cache, e) && |cache.layers| > 0 && PassFits(cache.Value(), 1, ks, vs)
    requires NewRow(cache.Value(), ks, vs, 0) == e.target.rowOf(e.Now(), tok)
    requires RecOf(states) == RecAfter(e.target, e.Now(), tok)
    modifies cache, e
    ensures Mirrors(cache, e)
    ensures e.Now() == Feed(e.target, old(e.Now()), tok) && logits == e.target.head(e.Now())
  {
    ghost var c, rows, row := cache.Value(), e.rows, NewRow(cache.Value(), ks, vs, 0);
    AppendPass(cache, 1, ks, vs);
    cache.EditStates(states);
    ForwardMirrors(c, ks, vs, states, cache.Value(), rows, row);
    logits := e.Forward(tok);
  }

  /** One early-exit draft step: whatever the kernels computed, cache and engine hold the same
      row and the same recurrent state, neither of them the target's. */
  method ForwardDraft(cache: KVCache, e: Engine, states: seq<Option<Ssm>>, ks: seq<seq<Bits>>, vs: seq<seq<Bits>>,
                      row: Row)
    requires Mirrors(cache, e) && |cache.layers| > 0 && PassFits(cache.Value(), 1, ks, vs)
    requires row == NewRow(cache.Value(), ks, vs, 0)
    modifies cache, e
    ensures Mirrors(cache, e) && e.len == old(e.len) + 1
    ensures e.rows == Written(old(e.rows), old(e.len), row) && e.rec == RecOf(states)
  {
    ghost var c, rows := cache.Value(), e.rows;
    AppendPass(cache, 1, ks, vs);
    cache.EditStates(states);
    ForwardMirrors(c, ks, vs, states, cache.Value(), rows, row);
    e.ForwardDraft(row, RecOf(states));
  }

  /** The lanes of a window that a commit keeps are what a pass over them would write. */
  predicate Lanes(c: Cache, commit: WindowCommit, n: nat, ks: seq<seq<Bits>>, vs: seq<seq<Bits>>,
                  states: seq<Option<Ssm>>)
  {
    && PassFits(c, n, ks, vs) && n <= |commit.rows| == |commit.recs| && 0 < n
    && NewRows(c, n, ks, vs) == commit.rows[..n] && RecOf(states) == commit.recs[n - 1]
  }

  lemma LanesCommitted(c: Cache, commit: WindowCommit, n: nat, ks: seq<seq<Bits>>, vs: seq<seq<Bits>>,
                       states: seq<Option<Ssm>>, c': Cache)
    requires Roomy(c) && |c.layers| > 0 && Lanes(c, commit, n, ks, vs, states)
    requires c' == Pass(c, n, ks, vs, |c.layers|).(ssm := states)
    ensures c'.len <= c'.maxSeq && Abs(c') == State(Abs(c).kv + commit.rows[..n], commit.recs[n - 1])
  {
    var passed := Pass(c, n, ks, vs, |c.layers|);
    PassRefines(c, n, ks, vs, passed);
    assert Physical(c') == Physical(passed);
  }

  /** Commits the first `n` lanes: no lanes, too many, a moved base or a full cache is refused
      before anything is written. */
  method CommitWindow(cache: KVCache, e: Engine, commit: WindowCommit, n: nat, states: seq<Option<Ssm>>,
                      ks: seq<seq<Bits>>, vs: seq<seq<Bits>>)
    returns (ok: bool)
    requires Mirrors(cache, e) && |cache.layers| > 0 && |commit.rows| == |commit.recs|
    requires 1 <= n <= |commit.rows| && commit.basePos == cache.len && cache.len + n <= cache.maxSeq
             ==> Lanes(cache.Value(), commit, n, ks, vs, states)
    modifies cache, e
    ensures Mirrors(cache, e)
    ensures ok <==> 1 <= n <= |commit.rows| && commit.basePos == old(cache.len) && old(cache.len) + n <= cache.maxSeq
    ensures ok ==> e.Now() == State(old(e.Now()).kv + commit.rows[..n], commit.recs[n - 1])
    ensures !ok ==> cache.Value() == old(cache.Value())
    ensures !ok ==> e.rows == old(e.rows) && e.len == old(e.len) && e.rec == old(e.rec)
  {
    ok := 1 <= n <= |commit.rows| && commit.basePos == cache.len && cache.len + n <= cache.maxSeq;
    if ok {
      ghost var c := cache.Value();
      MirrorsNow(cache, e);
      AppendPass(cache, n, ks, vs);
      cache.EditStates(states);
      LanesCommitted(c, commit, n, ks, vs, states, cache.Value());
      var _ := e.CommitWindow(commit, n);
      LoadedMirrors(cache, e, e.Now());
    }
  }

  lemma {:induction false} RecZeroed(states: seq<Option<Ssm>>, zeroed: seq<Option<Ssm>>)
    requires |zeroed| == |states| && forall i | 0 <= i < |states| :: zeroed[i] == Zeroed(states[i])
    ensures RecOf(zeroed) == seq(|RecOf(states)|, _ => 0.0)
  {
    if states != [] {
      RecZeroed(states[..|states| - 1], zeroed[..|states| - 1]);
    }
  }

  lemma SamePhysical(c: Cache, c': Cache)
    requires c' == c.(len := c'.len, ssm := c'.ssm)
    ensures Physical(c') == Physical(c)
  {
  }

  /** Clearing leaves the empty sequence, whatever was cached: the engine starts with all
      recurrent state zero. */
  method Clear(cache: KVCache, e: Engine)
    requires Mirrors(cache, e) && e.blankRec == seq(|e.rec|, _ => 0.0)
    modifies cache, e
    ensures Mirrors(cache, e) && e.Now() == e.Blank()
  {
    ghost var c := cache.Value();
    cache.Clear();
    RecZeroed(c.ssm, cache.ssm);
    SamePhysical(c, cache.Value());
    e.Clear();
  }

  /** A length change reads or hides rows in both. */
  method SetLen(cache: KVCache, e: Engine, n: nat)
    requires Mirrors(cache, e) && n <= |e.rows|
    modifies cache`len, e`len
    ensures Mirrors(cache, e) && e.len == n
  {
    ghost var c := cache.Value();
    cache.SetLength(n);
    e.SetLen(n);
    assert Physical(cache.Value()) == Physical(c);
  }

  /** The cache's checkpoint keeps what the engine's does. */
  ghost predicate Keeps(ckpt: CacheCheckpoint, saved: Checkpoint) {
    && ckpt.len == saved.len
    && exists states :: ckpt.ssm == CheckpointSsm(states, {}) && RecOf(states) == saved.rec
  }

  method Save(cache: KVCache, e: Engine) returns (ckpt: CacheCheckpoint, saved: Checkpoint)
    requires Mirrors(cache, e)
    ensures Keeps(ckpt, saved)
  {
    ckpt := cache.Save();
    saved := e.Save();
    assert ckpt.ssm == CheckpointSsm(cache.ssm, {}) && RecOf(cache.ssm) == saved.rec;
  }

  lemma RestoredStates(current: seq<Option<Ssm>>, states: seq<Option<Ssm>>)
    ensures RestoredSsm(current, CheckpointSsm(states, {})) == states
  {
    forall i | 0 <= i < |states| ensures RestoredSsm(current, CheckpointSsm(states, {}))[i] == states[i] {
      RestoreSsmExact(current, states, {}, i);
    }
  }

  /** Restoring a checkpoint, whatever both held meanwhile, makes them agree on it. */
  method Restore(cache: KVCache, e: Engine, ckpt: CacheCheckpoint, saved: Checkpoint)
    requires Mirrors(cache, e) && Keeps(ckpt, saved) && saved.len <= |e.rows|
    modifies cache, e`len, e`rec
    ensures Mirrors(cache, e)
    ensures e.len == saved.len && e.rec == saved.rec
  {
    ghost var c := cache.Value();
    ghost var states :| ckpt.ssm == CheckpointSsm(states, {}) && RecOf(states) == saved.rec;
    RestoredStates(cache.ssm, states);
    cache.Restore(ckpt);
    e.Restore(saved);
    assert Physical(cache.Value()) == Physical(c);
  }

  /** A recorded window prefix goes over the rows the window wrote. */
  method RestorePrefix(cache: KVCache, e: Engine, base: nat, prefixTokens: nat, payload: Payload,
                       states: seq<Option<Ssm>>)
    requires Mirrors(cache, e) && base + prefixTokens <= |e.rows|
    requires RecOf(states) == match payload
                              case NoLayers => e.rec
                              case OneStep(input) => e.target.recStep(e.rec, input)
                              case Whole(r) => r
    modifies cache, e`len, e`rec
    ensures Mirrors(cache, e) && e.len == base + prefixTokens && e.rec == RecOf(states)
  {
    ghost var c := cache.Value();
    cache.SetLength(base + prefixTokens);
    cache.EditStates(states);
    e.RestorePrefix(base, prefixTokens, payload);
    assert Physical(cache.Value()) == Physical(c);
  }

  lemma SnapshotAbs(now: Cache, c: Cache)
    requires Roomy(c) && Roomy(now) && SameBelow(c, now, 0) && Fits(now, TakeSnapshot(c))
    ensures var c' := RestoredCache(now, TakeSnapshot(c)); c'.len <= c'.maxSeq && Abs(c') == Abs(c)
  {
    var c' := RestoredCache(now, TakeSnapshot(c));
    RestoreExact(now, TakeSnapshot(c));
    SnapshotShows(c);
    ViewRows(c, c');
    SameAbs(c, c');
  }

  /** Equal to a reader, equal below the length. */
  lemma ViewRows(c: Cache, c': Cache)
    requires Roomy(c) && Roomy(c') && SameBelow(c, c', 0) && View(c') == View(c)
    ensures SameBelow(c, c', c.len)
  {
    forall i | 0 <= i < |c.layers| ensures SameLayer(c.layers[i], c'.layers[i], c.len) {
      assert SameLayer(c.layers[i], c'.layers[i], 0) && View(c').rows[i] == View(c).rows[i];
    }
    forall i | 0 <= i < |c.indexer| ensures SameRow(c.indexer[i], c'.indexer[i], c.len * c.keyLen) {
      assert SameRow(c.indexer[i], c'.indexer[i], 0) && View(c').indexer[i] == View(c).indexer[i];
    }
  }

  lemma LoadedMirrors(cache: KVCache, e: Engine, s: State)
    requires cache.Valid() && e.Valid() && Abs(cache.Value()) == s && e.Now() == s && e.rows == s.kv
    ensures Mirrors(cache, e)
  {
    assert |e.Now().kv| == e.len && |Abs(cache.Value()).kv| == cache.len;
  }

  /** A snapshot taken of `c` and accepted by any later cache of its layout is the engine's
      captured state. */
  method RestoreSnapshot(cache: KVCache, e: Engine, s: Snapshot, captured: State, ghost c: Cache)
    returns (ok: bool)
    requires cache.Valid() && Roomy(c) && SameBelow(c, cache.Value(), 0) && s == TakeSnapshot(c) && captured == Abs(c)
    modifies cache, e
    ensures ok <==> |old(cache.ssm)| == |c.ssm|
    ensures ok ==> Mirrors(cache, e) && e.Now() == captured
    ensures !ok ==> cache.Value() == old(cache.Value())
    ensures !ok ==> e.rows == old(e.rows) && e.len == old(e.len) && e.rec == old(e.rec)
  {
    ghost var before := cache.Value();
    SnapshotFits(c, before);
    ok := cache.RestoreSnapshot(s);
    if ok {
      SnapshotAbs(before, c);
      e.Load(captured);
      LoadedMirrors(cache, e, captured);
    }
  }
}
