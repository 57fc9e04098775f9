/** The MTP1 reader: a cursor over the file, advanced record by record. */
module SidecarReader {
  import opened Model
  import opened SidecarFormat
  import opened Words

  datatype Result<T> = Ok(value: T) | Err(error: Error)

  /** The cursor's answer is the format's, and after a success the cursor is past it. */
  predicate Follows<T(==)>(expected: Read<T>, r: Result<T>, pos: nat) {
    match expected
    case Got(value, next) => r == Ok(value) && pos == next
    case Fail(e) => r == Err(e)
  }

  class SidecarCursor {
    const bytes: Bytes
    const utf8: Bytes -> bool
    var pos: nat

    constructor (utf8: Bytes -> bool, bytes: Bytes)
      ensures this.bytes == bytes && this.utf8 == utf8 && pos == 0
    {
      this.bytes := bytes;
      this.utf8 := utf8;
      pos := 0;
    }

    method ReadExact(len: nat) returns (r: Result<Bytes>)
      modifies this`pos
      ensures Follows(ReadAt(bytes, old(pos), len), r, pos)
    {
      var end := pos + len;
      if end > MAX_U64 {
        return Err(ReadOverflows);
      }
      if end > |bytes| {
        return Err(UnexpectedEnd);
      }
      r := Ok(bytes[pos..end]);
      pos := end;
    }

    method ReadNumber(width: nat) returns (r: Result<nat>)
      modifies this`pos
      ensures Follows(NumberAt(bytes, old(pos), width), r, pos)
    {
      var raw := ReadExact(width);
      if raw.Err? {
        return Err(raw.error);
      }
      return Ok(FromLe(raw.value, 0));
    }

    method ReadName() returns (r: Result<Bytes>)
      modifies this`pos
      ensures Follows(NameAt(bytes, old(pos)), r, pos)
    {
      var len := ReadNumber(4);
      if len.Err? {
        return Err(len.error);
      }
      r := ReadExact(len.value);
    }

    method ReadShape() returns (r: Result<seq<nat>>)
      modifies this`pos
      ensures Follows(ShapeAt(bytes, old(pos)), r, pos)
    {
      var count := ReadNumber(4);
      if count.Err? {
        return Err(count.error);
      }
      if count.value > 4 {
        return Err(TooManyDims);
      }
      var shape: seq<nat> := [];
      ghost var first := pos;
      for i := 0 to count.value
        invariant DimsAt(bytes, pos, count.value - i, shape) == DimsAt(bytes, first, count.value, [])
      {
        var dim := ReadNumber(4);
        if dim.Err? {
          return Err(dim.error);
        }
        shape := shape + [dim.value];
      }
      return Ok(shape);
    }

    method ReadExtent(name: Bytes, shape: seq<nat>) returns (r: Result<Header>)
      modifies this`pos
      ensures Follows(ExtentAt(bytes, old(pos), name, shape), r, pos)
    {
      var kind := ReadNumber(4);
      if kind.Err? {
        return Err(kind.error);
      }
      var quant := QuantOf(kind.value);
      if quant.None? {
        return Err(UnsupportedType(kind.value));
      }
      var offset := ReadNumber(8);
      if offset.Err? {
        return Err(offset.error);
      }
      var size := ReadNumber(8);
      if size.Err? {
        return Err(size.error);
      }
      var expected := TensorSize(shape, quant.value);
      if expected.None? {
        return Err(InvalidShape);
      }
      if size.value != expected.value {
        return Err(SizeMismatch);
      }
      return Ok(Header(name, shape, kind.value, offset.value, size.value));
    }

    method ReadHeader(names: set<Bytes>) returns (r: Result<Header>)
      modifies this`pos
      ensures Follows(HeaderAt(utf8, bytes, old(pos), names), r, pos)
    {
      var name := ReadName();
      if name.Err? {
        return Err(name.error);
      }
      if !utf8(name.value) {
        return Err(InvalidUtf8);
      }
      if name.value in names {
        return Err(DuplicateName);
      }
      var shape := ReadShape();
      if shape.Err? {
        return Err(shape.error);
      }
      r := ReadExtent(name.value, shape.value);
    }

    /** `read` stands for reading one record of this file. */
    ghost predicate ReadsRecords(read: (nat, set<Bytes>) -> Read<Header>) {
      forall p: nat, names {:trigger HeaderAt(utf8, bytes, p, names)}
          :: read(p, names) == HeaderAt(utf8, bytes, p, names)
    }

    method ReadNext(names: set<Bytes>, ghost read: (nat, set<Bytes>) -> Read<Header>) returns (r: Result<Header>)
      requires ReadsRecords(read)
      modifies this`pos
      ensures Follows(read(old(pos), names), r, pos)
    {
      r := ReadHeader(names);
    }

    method ReadHeaders(count: nat, ghost read: (nat, set<Bytes>) -> Read<Header>) returns (r: Result<seq<Header>>)
      requires ReadsRecords(read)
      modifies this`pos
      ensures Follows(HeadersAt(read, old(pos), count, []), r, pos)
    {
      var headers: seq<Header> := [];
      var names: set<Bytes> := {};
      for i := 0 to count
        invariant names == NamesOf(headers)
        invariant HeadersAt(read, pos, count - i, headers) == HeadersAt(read, old(pos), count, [])
      {
        HeadersStep(read, pos, count - i, headers, read(pos, names));
        var h := ReadNext(names, read);
        if h.Err? {
          return Err(h.error);
        }
        NamesGrow(headers, h.value);
        names := names + {h.value.name};
        headers := headers + [h.value];
      }
      return Ok(headers);
    }

    method ReadTensors(headers: seq<Header>) returns (r: Parsed)
      ensures r == Collect(bytes, pos, headers, 0, [])
    {
      var tensors: seq<Tensor> := [];
      for i := 0 to |headers|
        invariant Collect(bytes, pos, headers, i, tensors) == Collect(bytes, pos, headers, 0, [])
      {
        var h := headers[i];
        if h.offset < pos {
          return Rejected(OverlapsHeader);
        }
        var end := h.offset + h.size;
        if end > MAX_U64 {
          return Rejected(RangeOverflows);
        }
        if end > |bytes| {
          return Rejected(RangePastEnd);
        }
        tensors := tensors + [Tensor(h.name, h.shape, h.kind, bytes[h.offset..end])];
      }
      return Tensors(tensors);
    }

    method ParseFile() returns (r: Parsed)
      requires pos == 0
      modifies this`pos
      ensures r == Parse(utf8, bytes)
    {
      var magic := ReadExact(4);
      if magic.Err? {
        return Rejected(magic.error);
      }
      if magic.value != MAGIC {
        return Rejected(BadMagic);
      }
      var count := ReadNumber(4);
      if count.Err? {
        return Rejected(count.error);
      }
      if count.value > (|bytes| - pos) / MIN_HEADER_BYTES {
        return Rejected(TooManyTensors);
      }
      var headers := ReadHeaders(count.value, Reader(utf8, bytes));
      if headers.Err? {
        return Rejected(headers.error);
      }
      r := ReadTensors(headers.value);
    }
  }
}
