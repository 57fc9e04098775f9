/** The MTP1 sidecar file: a magic, a count, one header record per tensor, then data. */
module SidecarFormat {
  import opened Model
  import opened Words

  const MAGIC: seq<Byte> := [0x4D, 0x54, 0x50, 0x31]
  const MIN_HEADER_BYTES: nat := 28

  type Byte = b: nat | b < 256
  type Bytes = seq<Byte>

  datatype Error =
    | ReadOverflows | UnexpectedEnd | BadMagic | TooManyTensors
    | InvalidUtf8 | DuplicateName | TooManyDims | UnsupportedType(raw: nat)
    | InvalidShape | SizeMismatch | OverlapsHeader | RangeOverflows | RangePastEnd

  /** A value and the position after it. */
  datatype Read<T> = Got(value: T, next: nat) | Fail(error: Error)

  datatype Header = Header(name: Bytes, shape: seq<nat>, kind: nat, offset: nat, size: nat)

  datatype Tensor = Tensor(name: Bytes, shape: seq<nat>, kind: nat, data: Bytes)

  datatype Parsed = Tensors(tensors: seq<Tensor>) | Rejected(error: Error)

  // ---- Tensor sizes ----

  /** Elements per block and bytes per block. */
  datatype Quant = Quant(block: nat, bytes: nat)

  /** The quantization parameters of a type id, or None when the id names no type. */
  function QuantOf(kind: nat): (r: Option<Quant>)
    ensures r.Some? ==> r.value.block > 0 && r.value.bytes > 0
  {
    match kind
    case 0 => Some(Quant(1, 4))
    case 1 => Some(Quant(1, 2))
    case 2 => Some(Quant(32, 18))
    case 3 => Some(Quant(32, 20))
    case 6 => Some(Quant(32, 22))
    case 7 => Some(Quant(32, 24))
    case 8 => Some(Quant(32, 34))
    case 9 => Some(Quant(32, 36))
    case 10 => Some(Quant(256, 84))
    case 11 => Some(Quant(256, 110))
    case 12 => Some(Quant(256, 144))
    case 13 => Some(Quant(256, 176))
    case 14 => Some(Quant(256, 210))
    case 15 => Some(Quant(256, 292))
    case 16 => Some(Quant(256, 66))
    case 17 => Some(Quant(256, 74))
    case 18 => Some(Quant(256, 98))
    case 19 => Some(Quant(256, 50))
    case 20 => Some(Quant(32, 18))
    case 21 => Some(Quant(256, 110))
    case 22 => Some(Quant(256, 82))
    case 23 => Some(Quant(256, 136))
    case 24 => Some(Quant(1, 1))
    case 25 => Some(Quant(1, 2))
    case 26 => Some(Quant(1, 4))
    case 27 => Some(Quant(1, 8))
    case 28 => Some(Quant(1, 8))
    case 29 => Some(Quant(256, 56))
    case 30 => Some(Quant(1, 2))
    case 34 => Some(Quant(256, 54))
    case 35 => Some(Quant(256, 66))
    case 39 => Some(Quant(32, 17))
    case 40 => Some(Quant(64, 36))
    case 41 => Some(Quant(128, 18))
    case 42 => Some(Quant(64, 18))
    case _ => None
  }

  function CheckedMul(a: nat, b: nat): Option<nat> {
    if a * b <= MAX_U64 then Some(a * b) else None
  }

  /** The product of the dimensions, refused as soon as a partial product overflows. */
  function CheckedProduct(shape: seq<nat>): Option<nat> {
    if shape == [] then Some(1)
    else match CheckedProduct(shape[..|shape| - 1])
      case None => None
      case Some(n) => CheckedMul(n, shape[|shape| - 1])
  }

  function TensorSize(shape: seq<nat>, quant: Quant): Option<nat>
    requires quant.block > 0
  {
    var row := if shape == [] then 1 else shape[|shape| - 1];
    if row % quant.block != 0 then None
    else match CheckedProduct(shape)
      case None => None
      case Some(n) => CheckedMul(n / quant.block, quant.bytes)
  }

  function Product(shape: seq<nat>): nat {
    if shape == [] then 1 else Product(shape[..|shape| - 1]) * shape[|shape| - 1]
  }

  /** The checked product is the product, refused exactly when some prefix overflows. */
  lemma {:induction false} CheckedProductExact(shape: seq<nat>)
    ensures CheckedProduct(shape).Some? <==> forall k | 0 <= k <= |shape| :: Product(shape[..k]) <= MAX_U64
    ensures CheckedProduct(shape).Some? ==> CheckedProduct(shape).value == Product(shape)
  {
    assert shape[..|shape|] == shape;
    if shape != [] {
      var front := shape[..|shape| - 1];
      CheckedProductExact(front);
      assert forall k | 0 <= k <= |front| :: front[..k] == shape[..k];
    }
  }

  lemma DivTimes(n: nat, row: nat, block: nat, bytes: nat)
    requires block > 0 && row % block == 0
    ensures n * row % block == 0 && n * row / block * bytes * block == n * row * bytes
  {
    var q := row / block;
    assert row == q * block;
    assert n * row == (n * q) * block;
    Exact(n * q, block);
    assert n * row / block == n * q;
    assert n * q * bytes * block == n * q * block * bytes;
  }

  lemma Exact(m: nat, block: nat)
    requires block > 0
    ensures m * block % block == 0 && m * block / block == m
  {
    var q, r := m * block / block, m * block % block;
    assert (m - q) * block == r;
    AtLeast(m - q, block);
    AtLeast(q - m, block);
  }

  lemma AtLeast(d: int, block: nat)
    ensures d >= 1 ==> d * block >= block
    ensures -d * block == -(d * block)
  {
  }

  /** An accepted size is the tensor's elements at the type's bytes per block, with no
      remainder lost to the division. */
  lemma SizeExact(shape: seq<nat>, quant: Quant, size: nat)
    requires quant.block > 0 && TensorSize(shape, quant) == Some(size)
    ensures size * quant.block == Product(shape) * quant.bytes
  {
    CheckedProductExact(shape);
    if shape != [] {
      DivTimes(Product(shape[..|shape| - 1]), shape[|shape| - 1], quant.block, quant.bytes);
    } else {
      DivTimes(1, 1, quant.block, quant.bytes);
    }
  }

  // ---- Little-endian numbers ----

  /** The value of the bytes from index `i` on, least significant first. */
  function FromLe(b: Bytes, i: nat): nat
    requires i <= |b|
    decreases |b| - i
  {
    if i == |b| then 0 else b[i] + 256 * FromLe(b, i + 1)
  }

  /** `v` without its `i` least significant base-256 digits. */
  function Shifted(v: nat, i: nat): nat {
    if i == 0 then v else Shifted(v, i - 1) / 256
  }

  function ToLe(v: nat, n: nat): (b: Bytes)
    ensures |b| == n
  {
    seq(n, i requires 0 <= i < n => Shifted(v, i) % 256)
  }

  function Range(n: nat): nat {
    if n == 0 then 1 else 256 * Range(n - 1)
  }

  lemma {:induction false} ShiftedOut(v: nat, n: nat, i: nat)
    requires v < Range(n) && i <= n
    ensures Shifted(v, i) < Range(n - i)
  {
    if i > 0 {
      ShiftedOut(v, n, i - 1);
    }
  }

  lemma {:induction false} LeBack(v: nat, n: nat, i: nat)
    requires v < Range(n) && i <= n
    ensures FromLe(ToLe(v, n), i) == Shifted(v, i)
    decreases n - i
  {
    if i == n {
      ShiftedOut(v, n, n);
    } else {
      LeBack(v, n, i + 1);
      assert ToLe(v, n)[i] == Shifted(v, i) % 256;
    }
  }

  lemma {:induction false} FromLeBound(b: Bytes, i: nat)
    requires i <= |b|
    ensures FromLe(b, i) < Range(|b| - i)
    decreases |b| - i
  {
    if i < |b| {
      FromLeBound(b, i + 1);
    }
  }

  lemma Ranges()
    ensures Range(4) == 0x1_0000_0000 && Range(8) == MAX_U64 + 1
  {
    assert Range(4) == 256 * (256 * (256 * (256 * Range(0))));
    assert Range(8) == 256 * (256 * (256 * (256 * Range(4))));
  }

  // ---- Parsing ----

  function ReadAt(bytes: Bytes, pos: nat, len: nat): (r: Read<Bytes>)
    ensures r.Got? ==> pos + len <= |bytes| && r.value == bytes[pos..pos + len] && r.next == pos + len
  {
    if pos + len > MAX_U64 then Fail(ReadOverflows)
    else if pos + len > |bytes| then Fail(UnexpectedEnd)
    else Got(bytes[pos..pos + len], pos + len)
  }

  function NumberAt(bytes: Bytes, pos: nat, width: nat): (r: Read<nat>)
    ensures r.Got? ==> pos + width <= |bytes| && r.next == pos + width
    ensures r.Got? ==> r.value < Range(width)
  {
    match ReadAt(bytes, pos, width)
    case Fail(e) => Fail(e)
    case Got(raw, next) => FromLeBound(raw, 0); Got(FromLe(raw, 0), next)
  }

  function NameAt(bytes: Bytes, pos: nat): (r: Read<Bytes>)
    ensures r.Got? ==> pos + 4 <= r.next <= |bytes| && |r.value| < Range(4)
  {
    match NumberAt(bytes, pos, 4)
    case Fail(e) => Fail(e)
    case Got(len, next) => ReadAt(bytes, next, len)
  }

  /** `k` more dimensions after `done`. */
  function DimsAt(bytes: Bytes, pos: nat, k: nat, done: seq<nat>): (r: Read<seq<nat>>)
    ensures r.Got? ==> r.next == pos + 4 * k && |r.value| == |done| + k
    decreases k
  {
    if k == 0 then Got(done, pos)
    else match NumberAt(bytes, pos, 4)
      case Fail(e) => Fail(e)
      case Got(dim, next) => DimsAt(bytes, next, k - 1, done + [dim])
  }

  function ShapeAt(bytes: Bytes, pos: nat): (r: Read<seq<nat>>)
    ensures r.Got? ==> pos + 4 <= r.next && |r.value| <= 4
  {
    match NumberAt(bytes, pos, 4)
    case Fail(e) => Fail(e)
    case Got(dims, next) => if dims > 4 then Fail(TooManyDims) else DimsAt(bytes, next, dims, [])
  }

  /** The type, offset and size fields, checked against the shape. */
  function ExtentAt(bytes: Bytes, pos: nat, name: Bytes, shape: seq<nat>): (r: Read<Header>)
    ensures r.Got? ==> r.next == pos + 20 && r.value.name == name && r.value.shape == shape
    ensures r.Got? ==> QuantOf(r.value.kind).Some? &&
                       TensorSize(shape, QuantOf(r.value.kind).value) == Some(r.value.size)
  {
    match NumberAt(bytes, pos, 4)
    case Fail(e) => Fail(e)
    case Got(kind, p) =>
      match QuantOf(kind)
      case None => Fail(UnsupportedType(kind))
      case Some(quant) =>
        match NumberAt(bytes, p, 8)
        case Fail(e) => Fail(e)
        case Got(offset, q) =>
          match NumberAt(bytes, q, 8)
          case Fail(e) => Fail(e)
          case Got(size, next) =>
            match TensorSize(shape, quant)
            case None => Fail(InvalidShape)
            case Some(expected) =>
              if size != expected then Fail(SizeMismatch) else Got(Header(name, shape, kind, offset, size), next)
  }

  /** One header record; `utf8` is the library's validity test. */
  function HeaderAt(utf8: Bytes -> bool, bytes: Bytes, pos: nat, names: set<Bytes>): (r: Read<Header>)
    ensures r.Got? ==> pos + MIN_HEADER_BYTES <= r.next
  {
    match NameAt(bytes, pos)
    case Fail(e) => Fail(e)
    case Got(name, p) =>
      if !utf8(name) then Fail(InvalidUtf8)
      else if name in names then Fail(DuplicateName)
      else match ShapeAt(bytes, p)
        case Fail(e) => Fail(e)
        case Got(shape, q) => ExtentAt(bytes, q, name, shape)
  }

  function NamesOf(headers: seq<Header>): set<Bytes> {
    set h | h in headers :: h.name
  }

  lemma NamesGrow(headers: seq<Header>, h: Header)
    ensures NamesOf(headers + [h]) == NamesOf(headers) + {h.name}
  {
    assert forall x :: x in headers + [h] <==> x in headers || x == h;
  }

  lemma HeadersStep(read: (nat, set<Bytes>) -> Read<Header>, pos: nat, k: nat, done: seq<Header>, r: Read<Header>)
    requires k > 0 && read(pos, NamesOf(done)) == r
    ensures r.Fail? ==> HeadersAt(read, pos, k, done) == Fail(r.error)
    ensures r.Got? ==> HeadersAt(read, pos, k, done) == HeadersAt(read, r.next, k - 1, done + [r.value])
  {
  }

  /** `k` more records after `done`, each read knowing the names before it. */
  function HeadersAt(read: (nat, set<Bytes>) -> Read<Header>, pos: nat, k: nat,
                     done: seq<Header>): (r: Read<seq<Header>>)
    decreases k
  {
    if k == 0 then Got(done, pos)
    else match read(pos, NamesOf(done))
      case Fail(e) => Fail(e)
      case Got(h, next) => HeadersAt(read, next, k - 1, done + [h])
  }

  function Reader(utf8: Bytes -> bool, bytes: Bytes): (nat, set<Bytes>) -> Read<Header> {
    (pos: nat, names) => HeaderAt(utf8, bytes, pos, names)
  }

  /** The data of one header, which must lie between the headers and the end. */
  function DataAt(bytes: Bytes, headerEnd: nat, h: Header): Read<Tensor> {
    if h.offset < headerEnd then Fail(OverlapsHeader)
    else if h.offset + h.size > MAX_U64 then Fail(RangeOverflows)
    else if h.offset + h.size > |bytes| then Fail(RangePastEnd)
    else Got(Tensor(h.name, h.shape, h.kind, bytes[h.offset..h.offset + h.size]), h.offset + h.size)
  }

  /** The tensors of the headers from `i` on, after `done`. */
  function Collect(bytes: Bytes, headerEnd: nat, headers: seq<Header>, i: nat, done: seq<Tensor>): Parsed
    requires i <= |headers|
    decreases |headers| - i
  {
    if i == |headers| then Tensors(done)
    else match DataAt(bytes, headerEnd, headers[i])
      case Fail(e) => Rejected(e)
      case Got(t, _) => Collect(bytes, headerEnd, headers, i + 1, done + [t])
  }

  function Parse(utf8: Bytes -> bool, bytes: Bytes): Parsed {
    match ReadAt(bytes, 0, 4)
    case Fail(e) => Rejected(e)
    case Got(magic, p) =>
      if magic != MAGIC then Rejected(BadMagic)
      else match NumberAt(bytes, p, 4)
        case Fail(e) => Rejected(e)
        case Got(count, q) =>
          if count > (|bytes| - q) / MIN_HEADER_BYTES then Rejected(TooManyTensors)
          else match HeadersAt(Reader(utf8, bytes), q, count, [])
            case Fail(e) => Rejected(e)
            case Got(headers, end) => Collect(bytes, end, headers, 0, [])
  }

  // ---- Every accepted file is sound ----

  predicate HeaderSound(utf8: Bytes -> bool, h: Header) {
    && utf8(h.name) && |h.name| < Range(4) && |h.shape| <= 4
    && (forall k | 0 <= k < |h.shape| :: h.shape[k] < Range(4))
    && h.kind < Range(4) && QuantOf(h.kind).Some?
    && TensorSize(h.shape, QuantOf(h.kind).value) == Some(h.size)
  }

  predicate Sound(ok: Header -> bool, headers: seq<Header>) {
    && (forall i | 0 <= i < |headers| :: ok(headers[i]))
    && forall i, j | 0 <= i < j < |headers| :: headers[i].name != headers[j].name
  }

  function Checked(utf8: Bytes -> bool): Header -> bool {
    h => HeaderSound(utf8, h)
  }

  /** What one successful read promises. */
  predicate Reads(ok: Header -> bool, limit: nat, pos: nat, names: set<Bytes>, r: Read<Header>) {
    r.Got? ==> ok(r.value) && r.value.name !in names && pos + MIN_HEADER_BYTES <= r.next <= limit
  }

  /** The tensor carries its header's fields and exactly its slice of the file. */
  predicate Carries(bytes: Bytes, headerEnd: nat, h: Header, t: Tensor) {
    && headerEnd <= h.offset && h.offset + h.size <= |bytes|
    && t == Tensor(h.name, h.shape, h.kind, bytes[h.offset..h.offset + h.size])
  }

  lemma {:induction false} DimsSound(bytes: Bytes, pos: nat, k: nat, done: seq<nat>)
    requires forall i | 0 <= i < |done| :: done[i] < Range(4)
    ensures var r := DimsAt(bytes, pos, k, done); r.Got? ==> forall i | 0 <= i < |r.value| :: r.value[i] < Range(4)
    decreases k
  {
    if k > 0 && NumberAt(bytes, pos, 4).Got? {
      var r := NumberAt(bytes, pos, 4);
      DimsSound(bytes, r.next, k - 1, done + [r.value]);
    }
  }

  lemma ShapeSound(bytes: Bytes, pos: nat)
    ensures var r := ShapeAt(bytes, pos); r.Got? ==> forall i | 0 <= i < |r.value| :: r.value[i] < Range(4)
  {
    var r := NumberAt(bytes, pos, 4);
    if r.Got? {
      DimsSound(bytes, r.next, r.value, []);
    }
  }

  lemma OneHeaderSound(utf8: Bytes -> bool, bytes: Bytes, pos: nat, names: set<Bytes>)
    ensures Reads(Checked(utf8), |bytes|, pos, names, HeaderAt(utf8, bytes, pos, names))
  {
    var n := NameAt(bytes, pos);
    if n.Got? {
      ShapeSound(bytes, n.next);
    }
  }

  lemma SoundGrows(ok: Header -> bool, done: seq<Header>, h: Header)
    requires Sound(ok, done) && ok(h) && h.name !in NamesOf(done)
    ensures Sound(ok, done + [h])
  {
    forall i | 0 <= i < |done| ensures done[i].name != h.name {
      assert done[i] in done;
    }
  }

  lemma {:induction false} HeadersSound(ok: Header -> bool, read: (nat, set<Bytes>) -> Read<Header>, limit: nat,
                                        pos: nat, k: nat, done: seq<Header>)
    requires forall p: nat, names :: Reads(ok, limit, p, names, read(p, names))
    requires Sound(ok, done) && pos <= limit
    ensures var r := HeadersAt(read, pos, k, done);
      r.Got? ==> Sound(ok, r.value) && |r.value| == |done| + k && pos + MIN_HEADER_BYTES * k <= r.next <= limit
    decreases k
  {
    if k > 0 {
      var r := read(pos, NamesOf(done));
      assert Reads(ok, limit, pos, NamesOf(done), r);
      if r.Got? {
        SoundGrows(ok, done, r.value);
        HeadersSound(ok, read, limit, r.next, k - 1, done + [r.value]);
      }
    }
  }

  predicate AllCarry(bytes: Bytes, headerEnd: nat, headers: seq<Header>, tensors: seq<Tensor>) {
    |tensors| <= |headers| && forall i | 0 <= i < |tensors| :: Carries(bytes, headerEnd, headers[i], tensors[i])
  }

  lemma {:induction false} CollectCarries(bytes: Bytes, headerEnd: nat, headers: seq<Header>, i: nat, done: seq<Tensor>)
    requires i == |done| <= |headers| && AllCarry(bytes, headerEnd, headers, done)
    ensures var r := Collect(bytes, headerEnd, headers, i, done);
      r.Tensors? ==> |r.tensors| == |headers| && AllCarry(bytes, headerEnd, headers, r.tensors)
    decreases |headers| - i
  {
    if i < |headers| && DataAt(bytes, headerEnd, headers[i]).Got? {
      CollectCarries(bytes, headerEnd, headers, i + 1, done + [DataAt(bytes, headerEnd, headers[i]).value]);
    }
  }

  /** On arbitrary bytes, every accepted tensor has a fresh valid name, at most four
      dimensions, and is an in-bounds slice after the headers of exactly the size
      that its shape and type demand. */
  lemma ParseSound(utf8: Bytes -> bool, bytes: Bytes) returns (headers: seq<Header>, headerEnd: nat)
    ensures var r := Parse(utf8, bytes);
      r.Tensors? ==>
        && Sound(Checked(utf8), headers) && |headers| == |r.tensors|
        && |headers| < Range(4) && 8 + MIN_HEADER_BYTES * |headers| <= headerEnd <= |bytes|
        && AllCarry(bytes, headerEnd, headers, r.tensors)
  {
    headers, headerEnd := [], 0;
    if Parse(utf8, bytes).Tensors? {
      var count := NumberAt(bytes, 4, 4).value;
      var r := HeadersAt(Reader(utf8, bytes), 8, count, []);
      forall p: nat, names ensures Reads(Checked(utf8), |bytes|, p, names, Reader(utf8, bytes)(p, names)) {
        OneHeaderSound(utf8, bytes, p, names);
      }
      HeadersSound(Checked(utf8), Reader(utf8, bytes), |bytes|, 8, count, []);
      CollectCarries(bytes, r.next, r.value, 0, []);
      return r.value, r.next;
    }
  }

  // ---- The writer, and the round trip ----

  function WriteDims(shape: seq<nat>): Bytes {
    if shape == [] then [] else ToLe(shape[0], 4) + WriteDims(shape[1..])
  }

  function Record(t: Tensor, offset: nat): Bytes {
    (ToLe(|t.name|, 4) + t.name) + ((ToLe(|t.shape|, 4) + WriteDims(t.shape)) +
      (ToLe(t.kind, 4) + (ToLe(offset, 8) + ToLe(|t.data|, 8))))
  }

  /** The records of the tensors from `i` on, whose data starts at `offset`. */
  function Records(ts: seq<Tensor>, i: nat, offset: nat): Bytes
    requires i <= |ts|
    decreases |ts| - i
  {
    if i == |ts| then [] else Record(ts[i], offset) + Records(ts, i + 1, offset + |ts[i].data|)
  }

  function Payload(ts: seq<Tensor>, i: nat): Bytes
    requires i <= |ts|
    decreases |ts| - i
  {
    if i == |ts| then [] else ts[i].data + Payload(ts, i + 1)
  }

  function RecordSize(t: Tensor): nat {
    MIN_HEADER_BYTES + |t.name| + 4 * |t.shape|
  }

  function HeaderSize(ts: seq<Tensor>, i: nat): nat
    requires i <= |ts|
    decreases |ts| - i
  {
    if i == |ts| then 0 else RecordSize(ts[i]) + HeaderSize(ts, i + 1)
  }

  /** Magic, count, records, then the data in the same order. */
  function Encode(ts: seq<Tensor>): Bytes {
    MAGIC + (ToLe(|ts|, 4) + (Records(ts, 0, 8 + HeaderSize(ts, 0)) + Payload(ts, 0)))
  }

  predicate Encodable(utf8: Bytes -> bool, ts: seq<Tensor>) {
    && |ts| < Range(4)
    && (forall i | 0 <= i < |ts| :: HeaderSound(utf8, Header(ts[i].name, ts[i].shape, ts[i].kind, 0, |ts[i].data|)))
    && (forall i, j | 0 <= i < j < |ts| :: ts[i].name != ts[j].name)
  }

  /** `part` stands in `bytes` at `pos`. */
  predicate Stands(bytes: Bytes, pos: nat, part: Bytes) {
    pos + |part| <= |bytes| && forall k | 0 <= k < |part| :: bytes[pos + k] == part[k]
  }

  lemma StandsSplit(bytes: Bytes, pos: nat, a: Bytes, b: Bytes)
    requires Stands(bytes, pos, a + b)
    ensures Stands(bytes, pos, a) && Stands(bytes, pos + |a|, b)
  {
    assert forall k | 0 <= k < |a| :: (a + b)[k] == a[k];
    forall k | 0 <= k < |b| ensures bytes[pos + |a| + k] == b[k] {
      assert (a + b)[|a| + k] == b[k];
    }
  }

  lemma ReadBack(bytes: Bytes, pos: nat, part: Bytes)
    requires Stands(bytes, pos, part) && |bytes| <= MAX_U64
    ensures ReadAt(bytes, pos, |part|) == Got(part, pos + |part|)
  {
    assert bytes[pos..pos + |part|] == part;
  }

  lemma NumberBack(bytes: Bytes, pos: nat, v: nat, width: nat)
    requires Stands(bytes, pos, ToLe(v, width)) && |bytes| <= MAX_U64 && v < Range(width)
    ensures NumberAt(bytes, pos, width) == Got(v, pos + width)
  {
    ReadBack(bytes, pos, ToLe(v, width));
    LeBack(v, width, 0);
  }

  lemma {:induction false} WriteDimsSize(shape: seq<nat>)
    ensures |WriteDims(shape)| == 4 * |shape|
  {
    if shape != [] {
      WriteDimsSize(shape[1..]);
    }
  }

  lemma {:induction false} DimsBack(bytes: Bytes, pos: nat, shape: seq<nat>, i: nat)
    requires i <= |shape| && Stands(bytes, pos, WriteDims(shape[i..])) && |bytes| <= MAX_U64
    requires forall k | 0 <= k < |shape| :: shape[k] < Range(4)
    ensures DimsAt(bytes, pos, |shape| - i, shape[..i]) == Got(shape, pos + 4 * (|shape| - i))
    decreases |shape| - i
  {
    if i == |shape| {
      assert shape[..i] == shape;
    } else {
      StandsSplit(bytes, pos, ToLe(shape[i], 4), WriteDims(shape[i + 1..]));
      assert shape[i..][1..] == shape[i + 1..];
      NumberBack(bytes, pos, shape[i], 4);
      assert shape[..i] + [shape[i]] == shape[..i + 1];
      DimsBack(bytes, pos + 4, shape, i + 1);
    }
  }

  lemma AllDimsBack(bytes: Bytes, pos: nat, shape: seq<nat>)
    requires Stands(bytes, pos, WriteDims(shape)) && |bytes| <= MAX_U64
    requires forall k | 0 <= k < |shape| :: shape[k] < Range(4)
    ensures DimsAt(bytes, pos, |shape|, []) == Got(shape, pos + 4 * |shape|)
  {
    assert shape[0..] == shape && shape[..0] == [];
    DimsBack(bytes, pos, shape, 0);
  }

  lemma NameBack(bytes: Bytes, pos: nat, name: Bytes)
    requires Stands(bytes, pos, ToLe(|name|, 4) + name) && |bytes| <= MAX_U64 && |name| < Range(4)
    ensures NameAt(bytes, pos) == Got(name, pos + 4 + |name|)
  {
    StandsSplit(bytes, pos, ToLe(|name|, 4), name);
    NumberBack(bytes, pos, |name|, 4);
    ReadBack(bytes, pos + 4, name);
  }

  lemma ShapeStep(bytes: Bytes, pos: nat, n: nat, next: nat, dims: Read<seq<nat>>)
    requires NumberAt(bytes, pos, 4) == Got(n, next) && n <= 4
    requires DimsAt(bytes, next, n, []) == dims
    ensures ShapeAt(bytes, pos) == dims
  {
  }

  lemma CountBack(bytes: Bytes, pos: nat, shape: seq<nat>)
    requires Stands(bytes, pos, ToLe(|shape|, 4)) && |bytes| <= MAX_U64 && |shape| <= 4
    ensures NumberAt(bytes, pos, 4) == Got(|shape|, pos + 4)
  {
    Ranges();
    NumberBack(bytes, pos, |shape|, 4);
  }

  lemma ShapeBack(bytes: Bytes, pos: nat, shape: seq<nat>)
    requires Stands(bytes, pos, ToLe(|shape|, 4)) && Stands(bytes, pos + 4, WriteDims(shape)) && |bytes| <= MAX_U64
    requires |shape| <= 4 && forall k | 0 <= k < |shape| :: shape[k] < Range(4)
    ensures ShapeAt(bytes, pos) == Got(shape, pos + 4 + 4 * |shape|)
  {
    CountBack(bytes, pos, shape);
    AllDimsBack(bytes, pos + 4, shape);
    ShapeStep(bytes, pos, |shape|, pos + 4, Got(shape, pos + 4 + 4 * |shape|));
  }

  lemma ExtentBack(utf8: Bytes -> bool, bytes: Bytes, pos: nat, h: Header)
    requires Stands(bytes, pos, ToLe(h.kind, 4) + (ToLe(h.offset, 8) + ToLe(h.size, 8)))
    requires |bytes| <= MAX_U64 && HeaderSound(utf8, h) && h.offset <= MAX_U64 && h.size <= MAX_U64
    ensures ExtentAt(bytes, pos, h.name, h.shape) == Got(h, pos + 20)
  {
    StandsSplit(bytes, pos, ToLe(h.kind, 4), ToLe(h.offset, 8) + ToLe(h.size, 8));
    StandsSplit(bytes, pos + 4, ToLe(h.offset, 8), ToLe(h.size, 8));
    Ranges();
    NumberBack(bytes, pos, h.kind, 4);
    NumberBack(bytes, pos + 4, h.offset, 8);
    NumberBack(bytes, pos + 12, h.size, 8);
  }

  function HeadOf(t: Tensor, offset: nat): Header {
    Header(t.name, t.shape, t.kind, offset, |t.data|)
  }

  lemma RecordLength(t: Tensor, offset: nat)
    ensures |Record(t, offset)| == RecordSize(t)
  {
    WriteDimsSize(t.shape);
  }

  lemma HeaderStep(utf8: Bytes -> bool, bytes: Bytes, pos: nat, names: set<Bytes>, h: Header, p: nat, q: nat, next: nat)
    requires NameAt(bytes, pos) == Got(h.name, p) && utf8(h.name) && h.name !in names
    requires ShapeAt(bytes, p) == Got(h.shape, q)
    requires ExtentAt(bytes, q, h.name, h.shape) == Got(h, next)
    ensures HeaderAt(utf8, bytes, pos, names) == Got(h, next)
  {
  }

  /** The three parts of a record that says `h`, at `pos`. */
  predicate Written(bytes: Bytes, pos: nat, h: Header) {
    var p := pos + 4 + |h.name|;
    var q := p + 4 + 4 * |h.shape|;
    && Stands(bytes, pos, ToLe(|h.name|, 4) + h.name)
    && Stands(bytes, p, ToLe(|h.shape|, 4)) && Stands(bytes, p + 4, WriteDims(h.shape))
    && Stands(bytes, q, ToLe(h.kind, 4) + (ToLe(h.offset, 8) + ToLe(h.size, 8)))
  }

  lemma SplitFour(bytes: Bytes, pos: nat, a: Bytes, b: Bytes, c: Bytes, d: Bytes)
    requires Stands(bytes, pos, a + ((b + c) + d))
    ensures Stands(bytes, pos, a) && Stands(bytes, pos + |a|, b)
    ensures Stands(bytes, pos + |a| + |b|, c) && Stands(bytes, pos + |a| + |b| + |c|, d)
  {
    StandsSplit(bytes, pos, a, (b + c) + d);
    StandsSplit(bytes, pos + |a|, b + c, d);
    StandsSplit(bytes, pos + |a|, b, c);
  }

  lemma RecordWritten(bytes: Bytes, pos: nat, t: Tensor, offset: nat)
    requires Stands(bytes, pos, Record(t, offset))
    ensures Written(bytes, pos, HeadOf(t, offset))
  {
    WriteDimsSize(t.shape);
    SplitFour(bytes, pos, ToLe(|t.name|, 4) + t.name, ToLe(|t.shape|, 4), WriteDims(t.shape),
      ToLe(t.kind, 4) + (ToLe(offset, 8) + ToLe(|t.data|, 8)));
  }

  lemma WrittenBack(utf8: Bytes -> bool, bytes: Bytes, pos: nat, h: Header, names: set<Bytes>)
    requires Written(bytes, pos, h) && |bytes| <= MAX_U64
    requires HeaderSound(utf8, h) && h.name !in names && h.offset <= MAX_U64 && h.size <= MAX_U64
    ensures HeaderAt(utf8, bytes, pos, names) == Got(h, pos + MIN_HEADER_BYTES + |h.name| + 4 * |h.shape|)
  {
    var p := pos + 4 + |h.name|;
    var q := p + 4 + 4 * |h.shape|;
    NameBack(bytes, pos, h.name);
    ShapeBack(bytes, p, h.shape);
    ExtentBack(utf8, bytes, q, h);
    HeaderStep(utf8, bytes, pos, names, h, p, q, q + 20);
  }

  lemma {:induction false} RecordsLength(ts: seq<Tensor>, i: nat, offset: nat)
    requires i <= |ts|
    ensures |Records(ts, i, offset)| == HeaderSize(ts, i)
    decreases |ts| - i
  {
    if i < |ts| {
      RecordLength(ts[i], offset);
      RecordsLength(ts, i + 1, offset + |ts[i].data|);
    }
  }

  /** The count guard never refuses a written file: each record takes its minimum. */
  lemma {:induction false} EnoughRoom(ts: seq<Tensor>, i: nat)
    requires i <= |ts|
    ensures MIN_HEADER_BYTES * (|ts| - i) <= HeaderSize(ts, i)
    decreases |ts| - i
  {
    if i < |ts| {
      EnoughRoom(ts, i + 1);
    }
  }

  lemma EncodableAt(utf8: Bytes -> bool, ts: seq<Tensor>, i: nat, offset: nat)
    requires Encodable(utf8, ts) && i < |ts|
    ensures HeaderSound(utf8, HeadOf(ts[i], offset))
  {
  }

  /** Where the record of tensor `i` begins, and where its data begins. */
  function RecordPos(ts: seq<Tensor>, i: nat): nat
    requires i <= |ts|
  {
    if i == 0 then 8 else RecordPos(ts, i - 1) + RecordSize(ts[i - 1])
  }

  function DataPos(ts: seq<Tensor>, start: nat, i: nat): nat
    requires i <= |ts|
  {
    if i == 0 then start else DataPos(ts, start, i - 1) + |ts[i - 1].data|
  }

  lemma {:induction false} RecordsStand(bytes: Bytes, ts: seq<Tensor>, start: nat, i: nat)
    requires i <= |ts| && Stands(bytes, 8, Records(ts, 0, start))
    ensures Stands(bytes, RecordPos(ts, i), Records(ts, i, DataPos(ts, start, i)))
  {
    if i > 0 {
      RecordsStand(bytes, ts, start, i - 1);
      var offset := DataPos(ts, start, i - 1);
      RecordLength(ts[i - 1], offset);
      StandsSplit(bytes, RecordPos(ts, i - 1), Record(ts[i - 1], offset), Records(ts, i, offset + |ts[i - 1].data|));
    }
  }

  lemma {:induction false} PosEnds(ts: seq<Tensor>, start: nat, i: nat)
    requires i <= |ts|
    ensures RecordPos(ts, i) + HeaderSize(ts, i) == 8 + HeaderSize(ts, 0)
    ensures DataPos(ts, start, i) + |Payload(ts, i)| == start + |Payload(ts, 0)|
  {
    if i > 0 {
      PosEnds(ts, start, i - 1);
    }
  }

  function HeadAt(ts: seq<Tensor>, start: nat, i: nat): Header
    requires i < |ts|
  {
    HeadOf(ts[i], DataPos(ts, start, i))
  }

  /** The headers of the first `i` tensors. */
  function HeadsUpTo(ts: seq<Tensor>, start: nat, i: nat): (hs: seq<Header>)
    requires i <= |ts|
    ensures |hs| == i
  {
    if i == 0 then [] else HeadsUpTo(ts, start, i - 1) + [HeadAt(ts, start, i - 1)]
  }

  lemma {:induction false} HeadsUpToAt(ts: seq<Tensor>, start: nat, i: nat, k: nat)
    requires k < i <= |ts|
    ensures HeadsUpTo(ts, start, i)[k] == HeadAt(ts, start, k)
  {
    if k < i - 1 {
      HeadsUpToAt(ts, start, i - 1, k);
    }
  }

  lemma NameIsNew(utf8: Bytes -> bool, ts: seq<Tensor>, start: nat, i: nat)
    requires Encodable(utf8, ts) && i < |ts|
    ensures ts[i].name !in NamesOf(HeadsUpTo(ts, start, i))
  {
    forall h | h in HeadsUpTo(ts, start, i) ensures h.name != ts[i].name {
      var k :| 0 <= k < i && HeadsUpTo(ts, start, i)[k] == h;
      HeadsUpToAt(ts, start, i, k);
    }
  }

  predicate Steps(read: (nat, set<Bytes>) -> Read<Header>, ts: seq<Tensor>, start: nat, i: nat)
    requires i < |ts|
  {
    read(RecordPos(ts, i), NamesOf(HeadsUpTo(ts, start, i))) == Got(HeadAt(ts, start, i), RecordPos(ts, i + 1))
  }

  lemma HeadStands(bytes: Bytes, ts: seq<Tensor>, start: nat, i: nat)
    requires i < |ts| && Stands(bytes, 8, Records(ts, 0, start))
    ensures Written(bytes, RecordPos(ts, i), HeadAt(ts, start, i))
    ensures DataPos(ts, start, i) + |ts[i].data| <= start + |Payload(ts, 0)|
  {
    var offset := DataPos(ts, start, i);
    RecordsStand(bytes, ts, start, i);
    PosEnds(ts, start, i);
    StandsSplit(bytes, RecordPos(ts, i), Record(ts[i], offset), Records(ts, i + 1, offset + |ts[i].data|));
    RecordWritten(bytes, RecordPos(ts, i), ts[i], offset);
  }

  lemma HeadBack(utf8: Bytes -> bool, bytes: Bytes, ts: seq<Tensor>, start: nat, i: nat)
    requires Encodable(utf8, ts) && i < |ts|
    requires Stands(bytes, 8, Records(ts, 0, start)) && start + |Payload(ts, 0)| <= MAX_U64 && |bytes| <= MAX_U64
    ensures Steps(Reader(utf8, bytes), ts, start, i)
  {
    HeadStands(bytes, ts, start, i);
    EncodableAt(utf8, ts, i, DataPos(ts, start, i));
    NameIsNew(utf8, ts, start, i);
    WrittenBack(utf8, bytes, RecordPos(ts, i), HeadAt(ts, start, i), NamesOf(HeadsUpTo(ts, start, i)));
  }

  lemma {:induction false} HeadersBack(read: (nat, set<Bytes>) -> Read<Header>, ts: seq<Tensor>, start: nat, i: nat)
    requires i <= |ts| && forall k | 0 <= k < |ts| :: Steps(read, ts, start, k)
    ensures HeadersAt(read, RecordPos(ts, i), |ts| - i, HeadsUpTo(ts, start, i)) ==
      Got(HeadsUpTo(ts, start, |ts|), RecordPos(ts, |ts|))
    decreases |ts| - i
  {
    if i < |ts| {
      assert Steps(read, ts, start, i);
      HeadersBack(read, ts, start, i + 1);
    }
  }

  lemma DataBack(bytes: Bytes, headerEnd: nat, t: Tensor, offset: nat)
    requires headerEnd <= offset && Stands(bytes, offset, t.data) && |bytes| <= MAX_U64
    ensures DataAt(bytes, headerEnd, HeadOf(t, offset)) == Got(t, offset + |t.data|)
  {
    assert bytes[offset..offset + |t.data|] == t.data;
  }

  lemma AllHeadersBack(read: (nat, set<Bytes>) -> Read<Header>, ts: seq<Tensor>, start: nat)
    requires forall k | 0 <= k < |ts| :: Steps(read, ts, start, k)
    ensures HeadersAt(read, 8, |ts|, []) == Got(HeadsUpTo(ts, start, |ts|), 8 + HeaderSize(ts, 0))
  {
    HeadersBack(read, ts, start, 0);
    PosEnds(ts, start, |ts|);
  }

  lemma {:induction false} PayloadStands(bytes: Bytes, ts: seq<Tensor>, start: nat, i: nat)
    requires i <= |ts| && Stands(bytes, start, Payload(ts, 0))
    ensures Stands(bytes, DataPos(ts, start, i), Payload(ts, i)) && start <= DataPos(ts, start, i)
  {
    if i > 0 {
      PayloadStands(bytes, ts, start, i - 1);
      StandsSplit(bytes, DataPos(ts, start, i - 1), ts[i - 1].data, Payload(ts, i));
    }
  }

  lemma {:induction false} CollectBack(bytes: Bytes, ts: seq<Tensor>, start: nat, i: nat)
    requires i <= |ts| && Stands(bytes, start, Payload(ts, 0)) && |bytes| <= MAX_U64
    ensures Collect(bytes, start, HeadsUpTo(ts, start, |ts|), i, ts[..i]) == Tensors(ts)
    decreases |ts| - i
  {
    if i == |ts| {
      assert ts[..i] == ts;
    } else {
      PayloadStands(bytes, ts, start, i);
      var offset := DataPos(ts, start, i);
      StandsSplit(bytes, offset, ts[i].data, Payload(ts, i + 1));
      HeadsUpToAt(ts, start, |ts|, i);
      DataBack(bytes, start, ts[i], offset);
      assert ts[..i] + [ts[i]] == ts[..i + 1];
      CollectBack(bytes, ts, start, i + 1);
    }
  }

  /** `b` is laid out as a file of the tensors `ts` whose data begins at `start`. */
  predicate Laid(b: Bytes, ts: seq<Tensor>, start: nat) {
    && start == 8 + HeaderSize(ts, 0) && |b| == start + |Payload(ts, 0)|
    && Stands(b, 0, MAGIC) && Stands(b, 4, ToLe(|ts|, 4))
    && Stands(b, 8, Records(ts, 0, start)) && Stands(b, start, Payload(ts, 0))
  }

  lemma EncodeLaid(ts: seq<Tensor>)
    ensures Laid(Encode(ts), ts, 8 + HeaderSize(ts, 0))
  {
    var b, start := Encode(ts), 8 + HeaderSize(ts, 0);
    var count, records, payload := ToLe(|ts|, 4), Records(ts, 0, start), Payload(ts, 0);
    RecordsLength(ts, 0, start);
    StandsSplit(b, 0, MAGIC, count + (records + payload));
    StandsSplit(b, 4, count, records + payload);
    StandsSplit(b, 8, records, payload);
  }

  lemma ParseStep(utf8: Bytes -> bool, bytes: Bytes, count: nat, headers: seq<Header>, end: nat, r: Parsed)
    requires ReadAt(bytes, 0, 4) == Got(MAGIC, 4) && NumberAt(bytes, 4, 4) == Got(count, 8)
    requires count <= (|bytes| - 8) / MIN_HEADER_BYTES
    requires HeadersAt(Reader(utf8, bytes), 8, count, []) == Got(headers, end)
    requires Collect(bytes, end, headers, 0, []) == r
    ensures Parse(utf8, bytes) == r
  {
  }

  lemma LaidPrefix(b: Bytes, ts: seq<Tensor>, start: nat)
    requires Laid(b, ts, start) && |ts| < Range(4) && |b| <= MAX_U64
    ensures ReadAt(b, 0, 4) == Got(MAGIC, 4) && NumberAt(b, 4, 4) == Got(|ts|, 8)
    ensures |ts| <= (|b| - 8) / MIN_HEADER_BYTES
  {
    ReadBack(b, 0, MAGIC);
    NumberBack(b, 4, |ts|, 4);
    EnoughRoom(ts, 0);
  }

  lemma LaidHeaders(utf8: Bytes -> bool, b: Bytes, ts: seq<Tensor>, start: nat)
    requires Encodable(utf8, ts) && Laid(b, ts, start) && |b| <= MAX_U64
    ensures HeadersAt(Reader(utf8, b), 8, |ts|, []) == Got(HeadsUpTo(ts, start, |ts|), start)
  {
    forall k | 0 <= k < |ts| ensures Steps(Reader(utf8, b), ts, start, k) {
      HeadBack(utf8, b, ts, start, k);
    }
    AllHeadersBack(Reader(utf8, b), ts, start);
  }

  lemma LaidTensors(b: Bytes, ts: seq<Tensor>, start: nat)
    requires Laid(b, ts, start) && |b| <= MAX_U64
    ensures Collect(b, start, HeadsUpTo(ts, start, |ts|), 0, []) == Tensors(ts)
  {
    CollectBack(b, ts, start, 0);
    assert ts[..0] == [];
  }

  lemma LaidParses(utf8: Bytes -> bool, b: Bytes, ts: seq<Tensor>, start: nat)
    requires Encodable(utf8, ts) && Laid(b, ts, start) && |b| <= MAX_U64
    ensures Parse(utf8, b) == Tensors(ts)
  {
    LaidPrefix(b, ts, start);
    LaidHeaders(utf8, b, ts, start);
    LaidTensors(b, ts, start);
    ParseStep(utf8, b, |ts|, HeadsUpTo(ts, start, |ts|), start, Tensors(ts));
  }

  /** Whatever file was accepted, its tensors can be written again. */
  lemma ParsedEncodable(utf8: Bytes -> bool, bytes: Bytes)
    ensures Parse(utf8, bytes).Tensors? ==> Encodable(utf8, Parse(utf8, bytes).tensors)
  {
    var headers, end := ParseSound(utf8, bytes);
    if Parse(utf8, bytes).Tensors? {
      var ts := Parse(utf8, bytes).tensors;
      forall i | 0 <= i < |ts|
        ensures HeaderSound(utf8, Header(ts[i].name, ts[i].shape, ts[i].kind, 0, |ts[i].data|))
        ensures ts[i].name == headers[i].name
      {
        assert Carries(bytes, end, headers[i], ts[i]) && Checked(utf8)(headers[i]);
      }
    }
  }

  /** Parsing a written file gives back the list it was written from exactly when its tensors
      are what the format can hold. */
  lemma RoundTrip(utf8: Bytes -> bool, ts: seq<Tensor>)
    requires |Encode(ts)| <= MAX_U64
    ensures Parse(utf8, Encode(ts)) == Tensors(ts) <==> Encodable(utf8, ts)
  {
    if Encodable(utf8, ts) {
      EncodeLaid(ts);
      LaidParses(utf8, Encode(ts), ts, 8 + HeaderSize(ts, 0));
    } else {
      ParsedEncodable(utf8, Encode(ts));
    }
  }

  /** Whatever file was accepted, writing its tensors and parsing again is stable. */
  lemma EncodeIsCanonical(utf8: Bytes -> bool, bytes: Bytes)
    requires Parse(utf8, bytes).Tensors? && |Encode(Parse(utf8, bytes).tensors)| <= MAX_U64
    ensures Parse(utf8, Encode(Parse(utf8, bytes).tensors)) == Parse(utf8, bytes)
  {
    ParsedEncodable(utf8, bytes);
    RoundTrip(utf8, Parse(utf8, bytes).tensors);
  }

  // ---- By value ----

  lemma FourBytes(v: nat)
    ensures ToLe(v, 4) == [v % 0x100, v / 0x100 % 0x100, v / 0x100 / 0x100 % 0x100, v / 0x100 / 0x100 / 0x100 % 0x100]
  {
    assert Shifted(v, 1) == v / 0x100;
    assert Shifted(v, 2) == v / 0x100 / 0x100;
    assert Shifted(v, 3) == v / 0x100 / 0x100 / 0x100;
  }

  /** The number in four bytes, least significant first. */
  function Word(b: Bytes, at: nat): int
    requires at + 4 <= |b|
  {
    b[at] as int + 0x100 * b[at + 1] as int + 0x1_0000 * b[at + 2] as int + 0x100_0000 * b[at + 3] as int
  }

  lemma FourValue(b: Bytes)
    requires |b| == 4
    ensures FromLe(b, 0) == Word(b, 0)
  {
    assert FromLe(b, 3) == b[3] + 0x100 * FromLe(b, 4);
    assert FromLe(b, 2) == b[2] + 0x100 * FromLe(b, 3);
    assert FromLe(b, 1) == b[1] + 0x100 * FromLe(b, 2);
  }

  /** A written file opens with the letters M, T, P, 1 and the number of tensors, least
      significant byte first. */
  lemma WrittenOpens(ts: seq<Tensor>)
    ensures |Encode(ts)| >= 8
    ensures Encode(ts)[..4] == [77, 84, 80, 49]
    ensures var b := Encode(ts); var n := |ts|;
            && b[4] == n % 0x100 && b[5] == n / 0x100 % 0x100
            && b[6] == n / 0x100 / 0x100 % 0x100 && b[7] == n / 0x100 / 0x100 / 0x100 % 0x100
  {
    var rest := Records(ts, 0, 8 + HeaderSize(ts, 0)) + Payload(ts, 0);
    FourBytes(|ts|);
    assert Encode(ts)[..4] == MAGIC;
    assert Encode(ts)[4..8] == ToLe(|ts|, 4);
  }

  /** An accepted file does too, and holds as many tensors as its count says. */
  lemma AcceptedOpens(utf8: Bytes -> bool, bytes: Bytes)
    requires Parse(utf8, bytes).Tensors?
    ensures |bytes| >= 8 && bytes[..4] == [77, 84, 80, 49]
    ensures |Parse(utf8, bytes).tensors| == Word(bytes, 4)
  {
    var count := NumberAt(bytes, 4, 4).value;
    FourValue(bytes[4..8]);
    HeadersCounted(Reader(utf8, bytes), 8, count, []);
    var r := HeadersAt(Reader(utf8, bytes), 8, count, []);
    CollectCarries(bytes, r.next, r.value, 0, []);
  }

  lemma {:induction false} HeadersCounted(read: (nat, set<Bytes>) -> Read<Header>, pos: nat, k: nat, done: seq<Header>)
    ensures var r := HeadersAt(read, pos, k, done); r.Got? ==> |r.value| == |done| + k
    decreases k
  {
    if k > 0 {
      var r := read(pos, NamesOf(done));
      HeadersStep(read, pos, k, done, r);
      if r.Got? { HeadersCounted(read, r.next, k - 1, done + [r.value]); }
    }
  }

  /** The quantized blocks by their parts: scales and minima first, then high bits and the
      packed weights. */
  lemma BlockLayouts()
    ensures QuantOf(0) == Some(Quant(1, 4)) && QuantOf(1) == Some(Quant(1, 2))
    ensures QuantOf(2) == Some(Quant(32, 2 + 32 * 4 / 8)) && QuantOf(3) == Some(Quant(32, 2 + 2 + 32 * 4 / 8))
    ensures QuantOf(6) == Some(Quant(32, 2 + 32 / 8 + 32 * 4 / 8))
    ensures QuantOf(7) == Some(Quant(32, 2 + 2 + 32 / 8 + 32 * 4 / 8))
    ensures QuantOf(8) == Some(Quant(32, 2 + 32)) && QuantOf(9) == Some(Quant(32, 2 + 2 + 32))
    ensures QuantOf(10) == Some(Quant(256, 2 + 2 + 256 / 16 + 256 * 2 / 8))
    ensures QuantOf(11) == Some(Quant(256, 2 + 12 + 256 / 8 + 256 * 2 / 8))
    ensures QuantOf(12) == Some(Quant(256, 2 + 2 + 12 + 256 * 4 / 8))
    ensures QuantOf(13) == Some(Quant(256, 2 + 2 + 12 + 256 / 8 + 256 * 4 / 8))
    ensures QuantOf(14) == Some(Quant(256, 2 + 256 / 16 + 256 * 4 / 8 + 256 * 2 / 8))
    ensures QuantOf(15) == Some(Quant(256, 4 + 256 + 256 / 16 * 2))
  {
  }
}
