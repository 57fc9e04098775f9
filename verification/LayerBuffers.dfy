/** The two f16 buffers of one cache layer, written in place. */
module LayerBuffers {
  import opened KvCache

  /** A copy of a range leaves everything outside it alone. */
  method CopyRange(buf: array<Bits>, at: nat, bits: seq<Bits>)
    requires at + |bits| <= buf.Length
    modifies buf
    ensures buf[..] == Put(old(buf[..]), at, bits)
  {
    ghost var was := buf[..];
    for i := 0 to |bits|
      invariant buf[..at] == was[..at] && buf[at..at + i] == bits[..i] && buf[at + i..] == was[at + i..]
    {
      buf[at + i] := bits[i];
      assert buf[at..at + i + 1] == buf[at..at + i] + [bits[i]];
    }
    assert buf[..] == buf[..at] + buf[at..at + |bits|] + buf[at + |bits|..];
  }

  /** The buffer itself when it is long enough, a longer one with the same front otherwise. */
  method Grow(buf: array<Bits>, n: nat) returns (out: array<Bits>)
    ensures out[..] == Grown(buf[..], n)
    ensures if n <= buf.Length then out == buf else fresh(out)
  {
    if n <= buf.Length { return buf; }
    out := new Bits[n](_ => 0);
    for i := 0 to buf.Length
      invariant fresh(out) && out.Length == n && out[..i] == buf[..i]
      invariant forall j | i <= j < n :: out[j] == 0
    {
      out[i] := buf[i];
    }
    assert out[..] == buf[..] + seq(n - buf.Length, _ => 0);
  }

  /** Rows are ranges of the buffers. */
  lemma RowsAreRanges(l: Layer, pos: nat, n: nat, k: seq<Bits>, v: seq<Bits>, start: nat, count: nat)
    requires start == pos * l.Stride() && count == n * l.Stride() && count <= |k| && count <= |v|
    ensures WriteRows(l, pos, n, k, v) ==
            l.(key := Put(Grown(l.key, start + count), start, k[..count]),
               value := Put(Grown(l.value, start + count), start, v[..count]))
    ensures RoomyLayer(l, pos + n) ==> start + count <= |l.key| && start + count <= |l.value|
  {
    assert (pos + n) * l.Stride() == start + count;
  }

  class Buffers {
    const heads: nat
    const headDim: nat
    var key: array<Bits>
    var value: array<Bits>

    ghost predicate Valid()
      reads this
    {
      key != value
    }

    function Value(): Layer
      reads this, key, value
    {
      Layer(heads, headDim, key[..], value[..])
    }

    constructor (maxSeq: nat, heads: nat, headDim: nat)
      ensures Valid() && fresh(key) && fresh(value)
      ensures Value().Stride() == heads * headDim && RoomyLayer(Value(), maxSeq)
    {
      this.heads, this.headDim := heads, headDim;
      key := new Bits[maxSeq * (heads * headDim)](_ => 0);
      value := new Bits[maxSeq * (heads * headDim)](_ => 0);
    }

    /** Writes a range of both buffers. With room for it neither buffer is moved. */
    method WriteBits(start: nat, k: seq<Bits>, v: seq<Bits>)
      requires Valid() && |k| == |v|
      modifies this, key, value
      ensures Valid()
      ensures key[..] == Put(Grown(old(key[..]), start + |k|), start, k)
      ensures value[..] == Put(Grown(old(value[..]), start + |k|), start, v)
      ensures if start + |k| <= old(key.Length) then key == old(key) else fresh(key)
      ensures if start + |k| <= old(value.Length) then value == old(value) else fresh(value)
    {
      key := Grow(key, start + |k|);
      value := Grow(value, start + |k|);
      CopyRange(key, start, k);
      CopyRange(value, start, v);
    }

    /** Writes `n` rows at position `pos`. */
    method WriteRange(pos: nat, n: nat, k: seq<Bits>, v: seq<Bits>)
      requires Valid() && n * Value().Stride() <= |k| && n * Value().Stride() <= |v|
      modifies this, key, value
      ensures Valid() && Value() == WriteRows(old(Value()), pos, n, k, v)
      ensures RoomyLayer(old(Value()), pos + n) ==> key == old(key) && value == old(value)
    {
      var stride := Value().Stride();
      var start: nat, count: nat := pos * stride, n * stride;
      RowsAreRanges(Value(), pos, n, k, v, start, count);
      WriteBits(start, k[..count], v[..count]);
    }
  }
}
