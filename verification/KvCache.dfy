/** The F16 key/value cache: buffers written in place, truncation by length, snapshots and
    speculative checkpoints. */
module KvCache {
  import opened Model

  /** Raw f16 bits. */
  type Bits = b: nat | b < 0x1_0000

  datatype Layer = Layer(heads: nat, headDim: nat, key: seq<Bits>, value: seq<Bits>) {
    function Stride(): nat { heads * headDim }
  }

  /** Recurrent state of one layer. */
  datatype Ssm = Ssm(conv: seq<real>, delta: seq<real>, kernel: nat, channels: nat)

  /** Every field of the cache. */
  datatype Cache = Cache(layers: seq<Layer>, ssm: seq<Option<Ssm>>, maxSeq: nat, len: nat,
                         indexer: seq<seq<Bits>>, keyLen: nat, topK: nat)

  /** What a reader can see: the rows below the length, and the recurrent states. */
  datatype Contents = Contents(rows: seq<(seq<Bits>, seq<Bits>)>, indexer: seq<seq<Bits>>, ssm: seq<Option<Ssm>>,
                               len: nat)

  function Prefix(buf: seq<Bits>, n: nat): seq<Bits> {
    if n <= |buf| then buf[..n] else buf
  }

  function View(c: Cache): Contents {
    Contents(seq(|c.layers|, i requires 0 <= i < |c.layers| =>
               var n := c.len * c.layers[i].Stride(); (Prefix(c.layers[i].key, n), Prefix(c.layers[i].value, n))),
             seq(|c.indexer|, i requires 0 <= i < |c.indexer| => Prefix(c.indexer[i], c.len * c.keyLen)),
             c.ssm, c.len)
  }

  /** A cache built in f16 holds room for every position from the start. */
  predicate RoomyLayer(l: Layer, maxSeq: nat) {
    maxSeq * l.Stride() <= |l.key| && maxSeq * l.Stride() <= |l.value|
  }

  predicate Roomy(c: Cache) {
    && c.len <= c.maxSeq
    && (forall i | 0 <= i < |c.layers| :: RoomyLayer(c.layers[i], c.maxSeq))
    && (forall i | 0 <= i < |c.indexer| :: |c.indexer[i]| == c.maxSeq * c.keyLen)
  }

  lemma MulLe(a: nat, b: nat, s: nat)
    requires a <= b
    ensures a * s <= b * s
  {
  }

  function Grown(buf: seq<Bits>, n: nat): seq<Bits> {
    if |buf| < n then buf + seq(n - |buf|, _ => 0) else buf
  }

  function Put(buf: seq<Bits>, at: nat, bits: seq<Bits>): seq<Bits>
    requires at + |bits| <= |buf|
  {
    buf[..at] + bits + buf[at + |bits|..]
  }

  function WriteRows(l: Layer, pos: nat, n: nat, k: seq<Bits>, v: seq<Bits>): Layer
    requires n * l.Stride() <= |k| && n * l.Stride() <= |v|
  {
    var start, count := pos * l.Stride(), n * l.Stride();
    l.(key := Put(Grown(l.key, start + count), start, k[..count]),
       value := Put(Grown(l.value, start + count), start, v[..count]))
  }

  /** One write, truncation or edit of the cache. */
  datatype Op =
    | Append(layer: nat, pos: nat, n: nat, k: seq<Bits>, v: seq<Bits>)
    | Replace(layer: nat, pos: nat, n: nat, k: seq<Bits>, v: seq<Bits>)
    | SetLen(n: nat)
    | EditSsm(states: seq<Option<Ssm>>)
    | WriteIndexer(layer: nat, pos: nat, row: seq<Bits>)

  /** The assertions and bounds the operation runs under. */
  predicate Allowed(c: Cache, op: Op) {
    match op
    case Append(i, pos, n, k, v) =>
      i < |c.layers| && pos + n <= c.maxSeq && n * c.layers[i].Stride() <= |k| && n * c.layers[i].Stride() <= |v|
    case Replace(i, pos, n, k, v) =>
      i < |c.layers| && pos + n <= c.maxSeq && n * c.layers[i].Stride() <= |k| && n * c.layers[i].Stride() <= |v|
    case SetLen(n) => n <= c.maxSeq
    case EditSsm(_) => true
    case WriteIndexer(i, pos, row) =>
      i < |c.indexer| && pos < c.maxSeq && |row| == c.keyLen && pos * c.keyLen + c.keyLen <= |c.indexer[i]|
  }

  /** The length follows the last layer's appends. */
  function Step(c: Cache, op: Op): Cache
    requires Allowed(c, op)
  {
    match op
    case Append(i, pos, n, k, v) =>
      var c' := c.(layers := c.layers[i := WriteRows(c.layers[i], pos, n, k, v)]);
      if i == |c.layers| - 1 && pos + n > c.len then c'.(len := pos + n) else c'
    case Replace(i, pos, n, k, v) => c.(layers := c.layers[i := WriteRows(c.layers[i], pos, n, k, v)])
    case SetLen(n) => c.(len := n)
    case EditSsm(states) => c.(ssm := states)
    case WriteIndexer(i, pos, row) => c.(indexer := c.indexer[i := Put(c.indexer[i], pos * c.keyLen, row)])
  }

  ghost predicate AllowedRun(c: Cache, ops: seq<Op>)
    decreases |ops|
  {
    ops == [] || (Allowed(c, ops[0]) && AllowedRun(Step(c, ops[0]), ops[1..]))
  }

  ghost function Run(c: Cache, ops: seq<Op>): Cache
    requires AllowedRun(c, ops)
    decreases |ops|
  {
    if ops == [] then c else Run(Step(c, ops[0]), ops[1..])
  }

  lemma WriteKeeps(l: Layer, pos: nat, n: nat, k: seq<Bits>, v: seq<Bits>, below: nat)
    requires n * l.Stride() <= |k| && n * l.Stride() <= |v| && below <= pos
    requires below * l.Stride() <= |l.key| && below * l.Stride() <= |l.value|
    ensures var l' := WriteRows(l, pos, n, k, v);
            && l'.Stride() == l.Stride() && |l'.key| >= |l.key| && |l'.value| >= |l.value|
            && Prefix(l'.key, below * l.Stride()) == Prefix(l.key, below * l.Stride())
            && Prefix(l'.value, below * l.Stride()) == Prefix(l.value, below * l.Stride())
  {
    MulLe(below, pos, l.Stride());
  }

  /** A write puts exactly its bits at its place. */
  lemma PutReads(buf: seq<Bits>, at: nat, bits: seq<Bits>)
    requires at + |bits| <= |buf|
    ensures |Put(buf, at, bits)| == |buf|
    ensures Put(buf, at, bits)[at..at + |bits|] == bits
    ensures Put(buf, at, bits)[..at] == buf[..at]
    ensures Put(buf, at, bits)[at + |bits|..] == buf[at + |bits|..]
  {
  }

  predicate SameLayer(l: Layer, l': Layer, n: nat) {
    && l'.heads == l.heads && l'.headDim == l.headDim && |l'.key| >= |l.key| && |l'.value| >= |l.value|
    && Prefix(l'.key, n * l.Stride()) == Prefix(l.key, n * l.Stride())
    && Prefix(l'.value, n * l.Stride()) == Prefix(l.value, n * l.Stride())
  }

  predicate SameRow(b: seq<Bits>, b': seq<Bits>, n: nat) {
    |b'| == |b| && Prefix(b', n) == Prefix(b, n)
  }

  /** Same layout, buffers no smaller, and the same rows below position `n`. */
  predicate SameBelow(c: Cache, c': Cache, n: nat) {
    && c'.maxSeq == c.maxSeq && c'.keyLen == c.keyLen && c'.topK == c.topK
    && |c'.layers| == |c.layers| && (forall i | 0 <= i < |c.layers| :: SameLayer(c.layers[i], c'.layers[i], n))
    && |c'.indexer| == |c.indexer|
    && (forall i | 0 <= i < |c.indexer| :: SameRow(c.indexer[i], c'.indexer[i], n * c.keyLen))
  }

  /** The operation touches nothing below position `n`. */
  predicate Above(op: Op, n: nat) {
    match op
    case Append(_, pos, _, _, _) => n <= pos
    case Replace(_, pos, _, _, _) => n <= pos
    case SetLen(m) => n <= m
    case EditSsm(_) => true
    case WriteIndexer(_, pos, _) => n <= pos
  }

  lemma WriteStepKeeps(c: Cache, c': Cache, i: nat, l: Layer, n: nat)
    requires Roomy(c) && i < |c.layers| && SameLayer(c.layers[i], l, n)
    requires c' == c.(layers := c.layers[i := l])
    ensures Roomy(c') && SameBelow(c, c', n)
  {
    forall j | 0 <= j < |c.layers|
      ensures SameLayer(c.layers[j], c'.layers[j], n) && RoomyLayer(c'.layers[j], c.maxSeq)
    {
      assert RoomyLayer(c.layers[j], c.maxSeq);
    }
  }

  lemma StepKeeps(c: Cache, op: Op, n: nat)
    requires Roomy(c) && n <= c.maxSeq && Allowed(c, op) && Above(op, n)
    ensures Roomy(Step(c, op)) && SameBelow(c, Step(c, op), n)
  {
    if op.Append? || op.Replace? {
      var l := c.layers[op.layer];
      assert RoomyLayer(l, c.maxSeq);
      MulLe(n, c.maxSeq, l.Stride());
      WriteKeeps(l, op.pos, op.n, op.k, op.v, n);
      var l' := WriteRows(l, op.pos, op.n, op.k, op.v);
      WriteStepKeeps(c, c.(layers := c.layers[op.layer := l']), op.layer, l', n);
    } else if op.WriteIndexer? {
      MulLe(n, op.pos, c.keyLen);
    }
  }

  lemma {:induction false} RunKeeps(c: Cache, ops: seq<Op>, n: nat)
    requires Roomy(c) && n <= c.maxSeq && AllowedRun(c, ops)
    requires forall op | op in ops :: Above(op, n)
    ensures Roomy(Run(c, ops)) && SameBelow(c, Run(c, ops), n)
    decreases |ops|
  {
    if ops != [] {
      StepKeeps(c, ops[0], n);
      RunKeeps(Step(c, ops[0]), ops[1..], n);
      SameBelowTrans(c, Step(c, ops[0]), Run(c, ops), n);
    }
  }

  lemma SameBelowTrans(a: Cache, b: Cache, c: Cache, n: nat)
    requires SameBelow(a, b, n) && SameBelow(b, c, n)
    ensures SameBelow(a, c, n)
  {
    forall i | 0 <= i < |a.layers| ensures SameLayer(a.layers[i], c.layers[i], n) {
      assert SameLayer(a.layers[i], b.layers[i], n) && SameLayer(b.layers[i], c.layers[i], n);
    }
    forall i | 0 <= i < |a.indexer| ensures SameRow(a.indexer[i], c.indexer[i], n * a.keyLen) {
      assert SameRow(a.indexer[i], b.indexer[i], n * a.keyLen) && SameRow(b.indexer[i], c.indexer[i], n * a.keyLen);
    }
  }

  /** Equal below a length, equal to a reader of that length. */
  lemma SameView(c: Cache, c': Cache)
    requires SameBelow(c, c', c.len) && c'.len == c.len && c'.ssm == c.ssm
    ensures View(c') == View(c)
  {
    forall i | 0 <= i < |c.layers| ensures View(c').rows[i] == View(c).rows[i] {
      assert SameLayer(c.layers[i], c'.layers[i], c.len);
    }
    forall i | 0 <= i < |c.indexer| ensures View(c').indexer[i] == View(c).indexer[i] {
      assert SameRow(c.indexer[i], c'.indexer[i], c.len * c.keyLen);
    }
  }

  /** The keys and values of one pass over `n` positions, layer by layer. */
  predicate PassFits(c: Cache, n: nat, ks: seq<seq<Bits>>, vs: seq<seq<Bits>>) {
    && c.len + n <= c.maxSeq && |ks| == |vs| == |c.layers|
    && forall i | 0 <= i < |c.layers| :: n * c.layers[i].Stride() <= |ks[i]| && n * c.layers[i].Stride() <= |vs[i]|
  }

  function PassLayer(c: Cache, n: nat, ks: seq<seq<Bits>>, vs: seq<seq<Bits>>, i: nat): Layer
    requires PassFits(c, n, ks, vs) && i < |c.layers|
  {
    WriteRows(c.layers[i], c.len, n, ks[i], vs[i])
  }

  /** The cache after the first `m` layers of the pass have appended. */
  function Pass(c: Cache, n: nat, ks: seq<seq<Bits>>, vs: seq<seq<Bits>>, m: nat): Cache
    requires PassFits(c, n, ks, vs) && m <= |c.layers|
  {
    c.(layers := seq(|c.layers|, i requires 0 <= i < |c.layers| =>
                   if i < m then PassLayer(c, n, ks, vs, i) else c.layers[i]),
       len := if 0 < m == |c.layers| then c.len + n else c.len)
  }

  /** One append takes the pass one layer further; only the last one moves the length. */
  lemma PassStep(c: Cache, n: nat, ks: seq<seq<Bits>>, vs: seq<seq<Bits>>, m: nat)
    requires PassFits(c, n, ks, vs) && m < |c.layers| && n > 0
    ensures var op := Append(m, c.len, n, ks[m], vs[m]);
      Allowed(Pass(c, n, ks, vs, m), op) && Step(Pass(c, n, ks, vs, m), op) == Pass(c, n, ks, vs, m + 1)
  {
    var op := Append(m, c.len, n, ks[m], vs[m]);
    var was, now := Pass(c, n, ks, vs, m), Pass(c, n, ks, vs, m + 1);
    assert was.layers[m] == c.layers[m];
    assert Step(was, op).layers == now.layers;
  }

  lemma WriteReads(l: Layer, pos: nat, n: nat, k: seq<Bits>, v: seq<Bits>)
    requires n * l.Stride() <= |k| && n * l.Stride() <= |v|
    requires (pos + n) * l.Stride() <= |l.key| && (pos + n) * l.Stride() <= |l.value|
    ensures var l', start, count := WriteRows(l, pos, n, k, v), pos * l.Stride(), n * l.Stride();
      && l'.key[..start + count] == l.key[..start] + k[..count] && l'.key[start + count..] == l.key[start + count..]
      && l'.value[..start + count] == l.value[..start] + v[..count]
      && l'.value[start + count..] == l.value[start + count..]
  {
    var start, count := pos * l.Stride(), n * l.Stride();
    assert (pos + n) * l.Stride() == start + count;
    PutReads(l.key, start, k[..count]);
    PutReads(l.value, start, v[..count]);
  }

  lemma LayerAppends(l: Layer, pos: nat, n: nat, k: seq<Bits>, v: seq<Bits>, maxSeq: nat)
    requires RoomyLayer(l, maxSeq) && pos + n <= maxSeq
    requires n * l.Stride() <= |k| && n * l.Stride() <= |v|
    ensures var l', was, now := WriteRows(l, pos, n, k, v), pos * l.Stride(), (pos + n) * l.Stride();
      && Prefix(l'.key, now) == Prefix(l.key, was) + k[..n * l.Stride()]
      && Prefix(l'.value, now) == Prefix(l.value, was) + v[..n * l.Stride()]
  {
    MulLe(pos + n, maxSeq, l.Stride());
    MulLe(pos, pos + n, l.Stride());
    WriteReads(l, pos, n, k, v);
    assert (pos + n) * l.Stride() == pos * l.Stride() + n * l.Stride();
  }

  /** A whole pass extends what every layer's reader sees by exactly the pass's rows. */
  lemma PassAppends(c: Cache, n: nat, ks: seq<seq<Bits>>, vs: seq<seq<Bits>>, i: nat)
    requires Roomy(c) && PassFits(c, n, ks, vs) && i < |c.layers|
    ensures var was, now, count := View(c), View(Pass(c, n, ks, vs, |c.layers|)), n * c.layers[i].Stride();
      && now.len == was.len + n && now.ssm == was.ssm
      && now.rows[i] == (was.rows[i].0 + ks[i][..count], was.rows[i].1 + vs[i][..count])
  {
    assert RoomyLayer(c.layers[i], c.maxSeq);
    LayerAppends(c.layers[i], c.len, n, ks[i], vs[i], c.maxSeq);
    assert PassLayer(c, n, ks, vs, i).Stride() == c.layers[i].Stride();
  }

  /** A checkpoint keeps the length and the recurrent states; a delta state that lives on
      the device is not copied. */
  datatype SsmCheckpoint = SsmCheckpoint(conv: seq<real>, delta: Option<seq<real>>, kernel: nat, channels: nat)
  datatype CacheCheckpoint = CacheCheckpoint(len: nat, ssm: seq<Option<SsmCheckpoint>>)

  function CheckpointSsm(states: seq<Option<Ssm>>, resident: set<nat>): seq<Option<SsmCheckpoint>> {
    seq(|states|, i requires 0 <= i < |states| =>
      match states[i]
      case None => None
      case Some(s) => Some(SsmCheckpoint(s.conv, if i in resident then None else Some(s.delta), s.kernel, s.channels)))
  }

  function Rebuilt(saved: SsmCheckpoint): Option<Ssm> {
    if saved.delta.Some? then Some(Ssm(saved.conv, saved.delta.value, saved.kernel, saved.channels)) else None
  }

  /** Restoring one layer in place when the shapes agree, rebuilding it otherwise. */
  function RestoredLayer(current: Option<Ssm>, saved: Option<SsmCheckpoint>): Option<Ssm> {
    if saved == None then None
    else if current.Some? && |current.value.conv| == |saved.value.conv| &&
            (saved.value.delta.Some? ==> |current.value.delta| == |saved.value.delta.value|)
    then Some(Ssm(saved.value.conv, if saved.value.delta.Some? then saved.value.delta.value else current.value.delta,
                  saved.value.kernel, saved.value.channels))
    else Rebuilt(saved.value)
  }

  function RestoredSsm(current: seq<Option<Ssm>>, saved: seq<Option<SsmCheckpoint>>): seq<Option<Ssm>> {
    seq(|saved|, i requires 0 <= i < |saved| =>
      if |current| != |saved| then (if saved[i].Some? then Rebuilt(saved[i].value) else None)
      else RestoredLayer(current[i], saved[i]))
  }

  /** Whatever the states became meanwhile, layers without a device-resident delta come back
      exactly, and a resident layer of unchanged shape comes back up to its delta. */
  lemma RestoreSsmExact(current: seq<Option<Ssm>>, states: seq<Option<Ssm>>, resident: set<nat>, i: nat)
    requires i < |states|
    ensures |RestoredSsm(current, CheckpointSsm(states, resident))| == |states|
    ensures i !in resident ==> RestoredSsm(current, CheckpointSsm(states, resident))[i] == states[i]
    ensures i in resident && |current| == |states| && states[i].Some? && current[i].Some? &&
            |current[i].value.conv| == |states[i].value.conv| ==>
              RestoredSsm(current, CheckpointSsm(states, resident))[i] ==
              Some(states[i].value.(delta := current[i].value.delta))
  {
    assert CheckpointSsm(states, resident)[i].Some? == states[i].Some?;
  }

  /** A state of the same shape, all zero. */
  function Zeroed(state: Option<Ssm>): Option<Ssm> {
    if state == None then None
    else Some(state.value.(conv := seq(|state.value.conv|, _ => 0.0), delta := seq(|state.value.delta|, _ => 0.0)))
  }

  /** A recurrent state filled with zeros: there is one where there was one, with the same
      kernel, channels and lengths. */
  predicate Blanked(now: Option<Ssm>, was: Option<Ssm>) {
    && (now.Some? <==> was.Some?)
    && (now.Some? ==>
          && now.value.kernel == was.value.kernel && now.value.channels == was.value.channels
          && now.value.conv == seq(|was.value.conv|, _ => 0.0) && now.value.delta == seq(|was.value.delta|, _ => 0.0))
  }

  function SaveCheckpoint(c: Cache, resident: set<nat>): CacheCheckpoint {
    CacheCheckpoint(c.len, CheckpointSsm(c.ssm, resident))
  }

  function RestoreCheckpoint(c: Cache, ckpt: CacheCheckpoint): Cache {
    c.(len := ckpt.len, ssm := RestoredSsm(c.ssm, ckpt.ssm))
  }

  /** CacheCheckpoint frame theorem: after any run of writes at or above the saved length, length
      changes not below it and arbitrary edits of the recurrent states, restoring gives a
      reader exactly what the cache held when it was saved. */
  lemma CheckpointFrame(c: Cache, ops: seq<Op>)
    requires Roomy(c) && AllowedRun(c, ops)
    requires forall op | op in ops :: Above(op, c.len)
    ensures View(RestoreCheckpoint(Run(c, ops), SaveCheckpoint(c, {}))) == View(c)
  {
    var now := Run(c, ops);
    RunKeeps(c, ops, c.len);
    forall i | 0 <= i < |c.ssm| ensures RestoredSsm(now.ssm, CheckpointSsm(c.ssm, {}))[i] == c.ssm[i] {
      RestoreSsmExact(now.ssm, c.ssm, {}, i);
    }
    assert RestoredSsm(now.ssm, CheckpointSsm(c.ssm, {})) == c.ssm;
    SameView(c, RestoreCheckpoint(now, SaveCheckpoint(c, {})));
  }

  datatype LayerSnapshot = LayerSnapshot(heads: nat, headDim: nat, key: seq<Bits>, value: seq<Bits>)
  datatype Snapshot = Snapshot(layers: seq<LayerSnapshot>, ssm: seq<Option<Ssm>>, maxSeq: nat, len: nat,
                               indexer: seq<seq<Bits>>, keyLen: nat, topK: nat)

  function TakeSnapshot(c: Cache): Snapshot {
    var v := View(c);
    Snapshot(seq(|c.layers|, i requires 0 <= i < |c.layers| =>
               LayerSnapshot(c.layers[i].heads, c.layers[i].headDim, v.rows[i].0, v.rows[i].1)),
             c.ssm, c.maxSeq, c.len, v.indexer, c.keyLen, c.topK)
  }

  /** What a reader of the snapshotted cache saw. */
  function SnapshotView(s: Snapshot): Contents {
    Contents(seq(|s.layers|, i requires 0 <= i < |s.layers| => (s.layers[i].key, s.layers[i].value)), s.indexer, s.ssm,
             s.len)
  }

  predicate FitsLayer(l: Layer, saved: LayerSnapshot, len: nat) {
    && l.heads == saved.heads && l.headDim == saved.headDim
    && |saved.key| == len * l.Stride() && |saved.value| == len * l.Stride()
  }

  /** The checks a snapshot must pass before anything is written. */
  predicate Fits(c: Cache, s: Snapshot) {
    && s.len <= c.maxSeq && s.maxSeq == c.maxSeq && |s.layers| == |c.layers| && |s.ssm| == |c.ssm|
    && |s.indexer| == |c.indexer| && s.keyLen == c.keyLen && s.topK == c.topK
    && (forall i | 0 <= i < |c.layers| :: FitsLayer(c.layers[i], s.layers[i], s.len))
    && (forall i | 0 <= i < |s.indexer| :: |s.indexer[i]| == s.len * s.keyLen)
  }

  function CopyFront(buf: seq<Bits>, saved: seq<Bits>): seq<Bits> {
    if |saved| <= |buf| then saved + buf[|saved|..] else saved
  }

  function RestoredCache(c: Cache, s: Snapshot): Cache
    requires Fits(c, s)
  {
    c.(layers := seq(|c.layers|, i requires 0 <= i < |c.layers| =>
                   c.layers[i].(key := CopyFront(c.layers[i].key, s.layers[i].key),
                                value := CopyFront(c.layers[i].value, s.layers[i].value))),
       indexer := seq(|c.indexer|, i requires 0 <= i < |c.indexer| => CopyFront(c.indexer[i], s.indexer[i])),
       ssm := s.ssm,
       len := s.len)
  }

  lemma CopyFrontKeeps(buf: seq<Bits>, saved: seq<Bits>, n: nat)
    requires |saved| == n <= |buf|
    ensures |CopyFront(buf, saved)| == |buf| && Prefix(CopyFront(buf, saved), n) == saved
  {
  }

  /** An accepted snapshot puts exactly its own contents in front of the reader, into any cache
      of its layout, and shrinks no buffer. */
  lemma RestoreExact(c: Cache, s: Snapshot)
    requires Roomy(c) && Fits(c, s)
    ensures View(RestoredCache(c, s)) == SnapshotView(s)
    ensures Roomy(RestoredCache(c, s)) && SameBelow(c, RestoredCache(c, s), 0)
  {
    var c' := RestoredCache(c, s);
    forall i | 0 <= i < |c.layers|
      ensures View(c').rows[i] == SnapshotView(s).rows[i]
      ensures RoomyLayer(c'.layers[i], c.maxSeq) && SameLayer(c.layers[i], c'.layers[i], 0)
    {
      var l, saved := c.layers[i], s.layers[i];
      assert RoomyLayer(l, c.maxSeq) && FitsLayer(l, saved, s.len);
      MulLe(s.len, c.maxSeq, l.Stride());
      CopyFrontKeeps(l.key, saved.key, s.len * l.Stride());
      CopyFrontKeeps(l.value, saved.value, s.len * l.Stride());
    }
    forall i | 0 <= i < |c.indexer|
      ensures View(c').indexer[i] == s.indexer[i] && |c'.indexer[i]| == |c.indexer[i]|
      ensures SameRow(c.indexer[i], c'.indexer[i], 0)
    {
      MulLe(s.len, c.maxSeq, c.keyLen);
      CopyFrontKeeps(c.indexer[i], s.indexer[i], s.len * c.keyLen);
    }
  }

  /** A cache that accepted a snapshot would be snapshotted as just that. */
  lemma RestoreTakes(c: Cache, s: Snapshot)
    requires Roomy(c) && Fits(c, s)
    ensures TakeSnapshot(RestoredCache(c, s)) == s
  {
    RestoreExact(c, s);
    var c' := RestoredCache(c, s);
    forall i | 0 <= i < |s.layers| ensures TakeSnapshot(c').layers[i] == s.layers[i] {
      assert FitsLayer(c.layers[i], s.layers[i], s.len);
      assert View(c').rows[i] == SnapshotView(s).rows[i];
    }
  }

  lemma SnapshotFits(c: Cache, now: Cache)
    requires Roomy(c) && SameBelow(c, now, 0)
    ensures Fits(now, TakeSnapshot(c)) <==> |now.ssm| == |c.ssm|
  {
    var s := TakeSnapshot(c);
    forall i | 0 <= i < |c.layers| ensures FitsLayer(now.layers[i], s.layers[i], s.len) {
      assert RoomyLayer(c.layers[i], c.maxSeq) && SameLayer(c.layers[i], now.layers[i], 0);
      MulLe(c.len, c.maxSeq, c.layers[i].Stride());
    }
    forall i | 0 <= i < |s.indexer| ensures |s.indexer[i]| == s.len * s.keyLen {
      MulLe(c.len, c.maxSeq, c.keyLen);
    }
  }

  lemma SnapshotShows(c: Cache)
    ensures SnapshotView(TakeSnapshot(c)) == View(c)
  {
    assert SnapshotView(TakeSnapshot(c)).rows == View(c).rows;
  }

  /** Snapshot theorem: after any run at all, the snapshot is accepted exactly when the number
      of recurrent layers is unchanged, and restoring it gives back what was snapshotted. */
  lemma SnapshotRoundTrip(c: Cache, ops: seq<Op>)
    requires Roomy(c) && AllowedRun(c, ops)
    ensures Fits(Run(c, ops), TakeSnapshot(c)) <==> |Run(c, ops).ssm| == |c.ssm|
    ensures Fits(Run(c, ops), TakeSnapshot(c)) ==> View(RestoredCache(Run(c, ops), TakeSnapshot(c))) == View(c)
  {
    RunKeeps(c, ops, 0);
    SnapshotFits(c, Run(c, ops));
    SnapshotShows(c);
    if |Run(c, ops).ssm| == |c.ssm| {
      RestoreExact(Run(c, ops), TakeSnapshot(c));
    }
  }

  /** The cache object. */
  class KVCache {
    const maxSeq: nat
    const keyLen: nat
    const topK: nat
    var layers: seq<Layer>
    var ssm: seq<Option<Ssm>>
    var len: nat
    var indexer: seq<seq<Bits>>

    function Value(): Cache
      reads this
    {
      Cache(layers, ssm, maxSeq, len, indexer, keyLen, topK)
    }

    ghost predicate Valid()
      reads this
    {
      Roomy(Value())
    }

    constructor (maxSeq: nat, shapes: seq<(nat, nat)>, indexerLayers: nat, keyLen: nat, topK: nat)
      ensures Valid() && len == 0 && this.maxSeq == maxSeq && |layers| == |ssm| == |shapes|
      ensures View(Value()) == Contents(seq(|shapes|, _ => ([], [])), seq(indexerLayers, _ => []),
                                        seq(|shapes|, _ => None), 0)
    {
      this.maxSeq, this.keyLen, this.topK, this.len := maxSeq, keyLen, topK, 0;
      this.layers := seq(|shapes|, i requires 0 <= i < |shapes| =>
        var size := maxSeq * (shapes[i].0 * shapes[i].1);
        Layer(shapes[i].0, shapes[i].1, seq(size, _ => 0), seq(size, _ => 0)));
      this.ssm := seq(|shapes|, _ => None);
      this.indexer := seq(indexerLayers, _ => seq(maxSeq * keyLen, _ => 0));
    }

    /** Writes `n` rows of one layer; the last layer's append moves the length. */
    method AppendRows(layer: nat, pos: nat, n: nat, k: seq<Bits>, v: seq<Bits>)
      requires Valid() && Allowed(Value(), Append(layer, pos, n, k, v))
      modifies this
      ensures Valid() && Value() == Step(old(Value()), Append(layer, pos, n, k, v))
    {
      StepKeeps(Value(), Append(layer, pos, n, k, v), 0);
      layers := layers[layer := WriteRows(layers[layer], pos, n, k, v)];
      if layer == |layers| - 1 && pos + n > len {
        len := pos + n;
      }
    }

    method SetLength(n: nat)
      requires Valid() && n <= maxSeq
      modifies this`len
      ensures Valid() && Value() == Step(old(Value()), SetLen(n))
    {
      len := n;
    }

    /** A recurrent layer's step replaces its state. */
    method EditStates(states: seq<Option<Ssm>>)
      requires Valid()
      modifies this`ssm
      ensures Valid() && Value() == Step(old(Value()), EditSsm(states))
    {
      ssm := states;
    }

    /** Zeroes the recurrent states and forgets every position; the buffers stay. */
    method Clear()
      requires Valid()
      modifies this`ssm, this`len
      ensures Valid() && Value() == old(Value()).(len := 0, ssm := ssm) && |ssm| == |old(ssm)|
      ensures forall i | 0 <= i < |ssm| :: ssm[i] == Zeroed(old(ssm)[i])
      ensures forall i | 0 <= i < |ssm| :: Blanked(ssm[i], old(ssm)[i])
    {
      for i := 0 to |ssm|
        invariant |ssm| == |old(ssm)| && len == old(len)
        invariant forall j | 0 <= j < i :: ssm[j] == Zeroed(old(ssm)[j])
        invariant forall j | i <= j < |ssm| :: ssm[j] == old(ssm)[j]
      {
        ssm := ssm[i := Zeroed(ssm[i])];
      }
      len := 0;
    }

    method Save() returns (ckpt: CacheCheckpoint)
      ensures ckpt == SaveCheckpoint(Value(), {})
    {
      ckpt := CacheCheckpoint(len, CheckpointSsm(ssm, {}));
    }

    /** Restores the length at once and the recurrent states layer by layer. */
    method Restore(ckpt: CacheCheckpoint)
      requires Valid() && ckpt.len <= maxSeq
      modifies this
      ensures Valid() && Value() == RestoreCheckpoint(old(Value()), ckpt)
    {
      len := ckpt.len;
      var target: seq<Option<Ssm>> := [];
      for i := 0 to |ckpt.ssm|
        invariant |target| == i && Value() == old(Value()).(len := ckpt.len)
        invariant forall j | 0 <= j < i :: target[j] == RestoredSsm(ssm, ckpt.ssm)[j]
      {
        var saved := ckpt.ssm[i];
        if |ssm| != |ckpt.ssm| {
          target := target + [if saved.Some? then Rebuilt(saved.value) else None];
        } else {
          target := target + [RestoredLayer(ssm[i], saved)];
        }
      }
      ssm := target;
    }

    /** Validates everything first, then copies; a refused snapshot changes nothing. */
    method RestoreSnapshot(s: Snapshot) returns (ok: bool)
      requires Valid()
      modifies this
      ensures Valid()
      ensures ok <==> Fits(old(Value()), s)
      ensures ok ==> Value() == RestoredCache(old(Value()), s)
      ensures !ok ==> Value() == old(Value())
    {
      ok := Fits(Value(), s);
      if !ok { return; }
      ghost var before := Value();
      RestoreExact(before, s);
      for i := 0 to |layers|
        invariant |layers| == |before.layers|
        invariant Value() == before.(layers := layers)
        invariant forall j | 0 <= j < i :: layers[j] == RestoredCache(before, s).layers[j]
        invariant forall j | i <= j < |layers| :: layers[j] == before.layers[j]
      {
        layers := layers[i := layers[i].(key := CopyFront(layers[i].key, s.layers[i].key),
                                         value := CopyFront(layers[i].value, s.layers[i].value))];
      }
      for i := 0 to |indexer|
        invariant layers == RestoredCache(before, s).layers && |indexer| == |before.indexer|
        invariant Value() == before.(layers := layers, indexer := indexer)
        invariant forall j | 0 <= j < i :: indexer[j] == RestoredCache(before, s).indexer[j]
        invariant forall j | i <= j < |indexer| :: indexer[j] == before.indexer[j]
      {
        indexer := indexer[i := CopyFront(indexer[i], s.indexer[i])];
      }
      ssm, len := s.ssm, s.len;
    }
  }
}
