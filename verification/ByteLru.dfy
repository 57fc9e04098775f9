/**
 * The byte-budgeted LRU accounting: a map of live entries beside a heap of touches
 * that keeps stale ones until they surface. Its meaning is a plain recency list.
 */
module ByteLru {
  import opened Model
  import opened Words

  function WrappingIncrement(n: U64): U64 { if n == MAX_U64 then 0 else n + 1 }
  function SaturatingAdd(a: U64, b: U64): U64 { if a + b <= MAX_U64 then a + b else MAX_U64 }
  function SaturatingSub(a: U64, b: U64): U64 { if b <= a then a - b else 0 }

  datatype Entry = Entry(bytes: U64, lastTouch: U64)

  datatype Stamp<K> = Stamp(clock: U64, key: K)

  // ---- The recency list, oldest first ----

  datatype Item<K> = Item(key: K, bytes: U64)

  function Total<K>(list: seq<Item<K>>): nat {
    if list == [] then 0 else list[0].bytes + Total(list[1..])
  }

  function Keys<K>(list: seq<Item<K>>): seq<K> {
    if list == [] then [] else [list[0].key] + Keys(list[1..])
  }

  predicate HasKey<K(==)>(list: seq<Item<K>>, key: K) {
    exists i | 0 <= i < |list| :: list[i].key == key
  }

  function Without<K(==)>(list: seq<Item<K>>, key: K): seq<Item<K>> {
    if list == [] then [] else if list[0].key == key then list[1..] else [list[0]] + Without(list[1..], key)
  }

  function Cut<K>(list: seq<Item<K>>, i: nat): (r: seq<Item<K>>)
    requires i < |list|
    ensures |r| == |list| - 1
    ensures forall j | 0 <= j < |r| :: r[j] == list[if j < i then j else j + 1]
  {
    list[..i] + list[i + 1..]
  }

  /** The key becomes the newest. */
  function Moved<K(==)>(list: seq<Item<K>>, key: K, bytes: U64): seq<Item<K>> {
    Without(list, key) + [Item(key, bytes)]
  }

  /** Drops the oldest items until the rest fits. */
  function Fitting<K>(list: seq<Item<K>>, max: nat): seq<Item<K>> {
    if Total(list) <= max then list else Fitting(list[1..], max)
  }

  /** `Fitting` keeps the longest suffix that fits: one item fewer dropped would not fit. */
  lemma {:induction false} FittingIsShortestCut<K>(list: seq<Item<K>>, max: nat) returns (n: nat)
    ensures n <= |list| && Fitting(list, max) == list[n..] && Total(list[n..]) <= max
    ensures forall m | 0 <= m < n :: Total(list[m..]) > max
  {
    if Total(list) <= max {
      assert list[0..] == list;
      n := 0;
    } else {
      var k := FittingIsShortestCut(list[1..], max);
      n := k + 1;
      assert list[1..][k..] == list[n..];
      forall m | 0 <= m < n ensures Total(list[m..]) > max {
        if m == 0 {
          assert list[0..] == list;
        } else {
          assert list[m..] == list[1..][m - 1..];
        }
      }
    }
  }

  lemma {:induction false} TotalConcat<K>(a: seq<Item<K>>, b: seq<Item<K>>)
    ensures Total(a + b) == Total(a) + Total(b)
  {
    if a == [] {
      assert a + b == b;
    } else {
      TotalConcat(a[1..], b);
      assert (a + b)[1..] == a[1..] + b;
    }
  }

  lemma {:induction false} WithoutAt<K>(list: seq<Item<K>>, i: nat)
    requires i < |list| && forall j | 0 <= j < i :: list[j].key != list[i].key
    ensures Without(list, list[i].key) == Cut(list, i)
  {
    if i > 0 {
      WithoutAt(list[1..], i - 1);
      assert Cut(list, i) == [list[0]] + Cut(list[1..], i - 1);
    }
  }

  lemma {:induction false} WithoutNone<K>(list: seq<Item<K>>, key: K)
    requires !HasKey(list, key)
    ensures Without(list, key) == list
  {
    if list != [] {
      assert list[0].key != key;
      assert !HasKey(list[1..], key) by {
        assert forall i | 0 <= i < |list[1..]| :: list[1..][i] == list[i + 1];
      }
      WithoutNone(list[1..], key);
    }
  }

  lemma {:induction false} TotalCut<K>(list: seq<Item<K>>, i: nat)
    requires i < |list|
    ensures Total(Cut(list, i)) == Total(list) - list[i].bytes
  {
    if i == 0 {
      assert Cut(list, 0) == list[1..];
    } else {
      TotalCut(list[1..], i - 1);
      assert Cut(list, i)[1..] == Cut(list[1..], i - 1);
    }
  }

  // ---- How the list lies in the map and the heap ----

  predicate Live<K(==)>(entries: map<K, Entry>, heap: multiset<Stamp<K>>, item: Item<K>) {
    && item.key in entries && entries[item.key].bytes == item.bytes
    && Stamp(entries[item.key].lastTouch, item.key) in heap
  }

  predicate AllLive<K(==)>(entries: map<K, Entry>, heap: multiset<Stamp<K>>, list: seq<Item<K>>) {
    forall i | 0 <= i < |list| :: Live(entries, heap, list[i])
  }

  /** Older items were touched strictly earlier. */
  predicate Ordered<K(==)>(entries: map<K, Entry>, list: seq<Item<K>>) {
    forall i, j | 0 <= i < j < |list| && list[i].key in entries && list[j].key in entries ::
      entries[list[i].key].lastTouch < entries[list[j].key].lastTouch
  }

  ghost predicate Linked<K(!new)>(entries: map<K, Entry>, heap: multiset<Stamp<K>>, clock: nat, list: seq<Item<K>>) {
    && AllLive(entries, heap, list) && Ordered(entries, list)
    && (forall k {:trigger HasKey(list, k)} :: k in entries ==> HasKey(list, k))
    && (forall t :: t in heap ==> t.clock <= clock)
  }

  predicate Earliest<K(==, !new)>(heap: multiset<Stamp<K>>, t: Stamp<K>) {
    t in heap && forall u | u in heap :: t.clock <= u.clock
  }

  lemma {:induction false} HasEarliest<K(!new)>(heap: multiset<Stamp<K>>)
    requires |heap| > 0
    ensures exists t :: Earliest(heap, t)
    decreases |heap|
  {
    var t :| t in heap;
    var rest := heap - multiset{t};
    if |rest| > 0 {
      HasEarliest(rest);
      var u :| Earliest(rest, u);
      var m := if t.clock <= u.clock then t else u;
      assert Earliest(heap, m) by {
        forall v | v in heap ensures m.clock <= v.clock {
          assert v == t || v in rest;
        }
      }
    } else {
      assert Earliest(heap, t) by {
        forall v | v in heap ensures t.clock <= v.clock {
          assert v == t || v in rest;
        }
      }
    }
  }

  /** A live touch that surfaces first belongs to the oldest item. */
  lemma EarliestIsHead<K(!new)>(entries: map<K, Entry>, heap: multiset<Stamp<K>>, clock: nat, list: seq<Item<K>>,
                                t: Stamp<K>)
    requires Linked(entries, heap, clock, list) && Earliest(heap, t)
    requires t.key in entries && entries[t.key].lastTouch == t.clock
    ensures list != [] && list[0].key == t.key && list[0].bytes == entries[t.key].bytes
  {
    assert HasKey(list, t.key);
    var i :| 0 <= i < |list| && list[i].key == t.key;
    assert Live(entries, heap, list[i]) && Live(entries, heap, list[0]);
    assert t.clock <= entries[list[0].key].lastTouch;
  }

  lemma DropHead<K(!new)>(entries: map<K, Entry>, heap: multiset<Stamp<K>>, clock: nat, list: seq<Item<K>>, t: Stamp<K>)
    requires Linked(entries, heap, clock, list) && list != [] && t.key == list[0].key
    ensures Linked(entries - {t.key}, heap - multiset{t}, clock, list[1..])
  {
    DropAt(entries, heap, clock, list, 0);
    assert Cut(list, 0) == list[1..];
    DropTouch(entries - {t.key}, heap, clock, list[1..], t);
  }

  /** A touch that is not the last one of a live key may leave the heap. */
  lemma DropTouch<K(!new)>(entries: map<K, Entry>, heap: multiset<Stamp<K>>, clock: nat, list: seq<Item<K>>,
                           t: Stamp<K>)
    requires Linked(entries, heap, clock, list)
    requires t.key !in entries || entries[t.key].lastTouch != t.clock
    ensures Linked(entries, heap - multiset{t}, clock, list)
  {
    forall i | 0 <= i < |list| ensures Live(entries, heap - multiset{t}, list[i]) {
      assert Live(entries, heap, list[i]);
    }
  }

  lemma DistinctAt<K(!new)>(entries: map<K, Entry>, heap: multiset<Stamp<K>>, clock: nat, list: seq<Item<K>>, i: nat,
                            j: nat)
    requires Linked(entries, heap, clock, list) && i < |list| && j < |list| && i != j
    ensures list[i].key != list[j].key
  {
    assert Live(entries, heap, list[i]) && Live(entries, heap, list[j]);
  }

  lemma CutLive<K(!new)>(entries: map<K, Entry>, heap: multiset<Stamp<K>>, clock: nat, list: seq<Item<K>>, i: nat)
    requires Linked(entries, heap, clock, list) && i < |list|
    ensures AllLive(entries - {list[i].key}, heap, Cut(list, i))
  {
    var less, rest := entries - {list[i].key}, Cut(list, i);
    forall j | 0 <= j < |rest| ensures Live(less, heap, rest[j]) {
      var m := if j < i then j else j + 1;
      assert Live(entries, heap, list[m]);
      DistinctAt(entries, heap, clock, list, i, m);
    }
  }

  lemma CutCovers<K(!new)>(entries: map<K, Entry>, list: seq<Item<K>>, i: nat, k: K)
    requires i < |list| && (k in entries ==> HasKey(list, k))
    ensures k in entries - {list[i].key} ==> HasKey(Cut(list, i), k)
  {
    if k in entries - {list[i].key} {
      var m :| 0 <= m < |list| && list[m].key == k;
      assert Cut(list, i)[if m < i then m else m - 1] == list[m];
    }
  }

  lemma LiveCovered<K(!new)>(entries: map<K, Entry>, heap: multiset<Stamp<K>>, list: seq<Item<K>>, k: K)
    requires AllLive(entries, heap, list) && HasKey(list, k)
    ensures k in entries
  {
    var j :| 0 <= j < |list| && list[j].key == k;
    assert Live(entries, heap, list[j]);
  }

  lemma CutOrdered<K(!new)>(entries: map<K, Entry>, list: seq<Item<K>>, i: nat)
    requires Ordered(entries, list) && i < |list|
    ensures Ordered(entries - {list[i].key}, Cut(list, i))
  {
  }

  /** Removing a key removes its item; its touches stay behind. */
  lemma DropAt<K(!new)>(entries: map<K, Entry>, heap: multiset<Stamp<K>>, clock: nat, list: seq<Item<K>>, i: nat)
    requires Linked(entries, heap, clock, list) && i < |list|
    ensures Linked(entries - {list[i].key}, heap, clock, Cut(list, i))
  {
    var less, rest := entries - {list[i].key}, Cut(list, i);
    CutLive(entries, heap, clock, list, i);
    CutOrdered(entries, list, i);
    forall k ensures k in less ==> HasKey(rest, k) {
      assert k in entries ==> HasKey(list, k);
      CutCovers(entries, list, i, k);
    }
  }

  lemma NothingLive<K(!new)>(entries: map<K, Entry>, heap: multiset<Stamp<K>>, clock: nat, list: seq<Item<K>>)
    requires Linked(entries, heap, clock, list) && |heap| == 0
    ensures list == []
  {
    assert list != [] ==> Live(entries, heap, list[0]);
  }

  lemma Locate<K(!new)>(entries: map<K, Entry>, heap: multiset<Stamp<K>>, clock: nat, list: seq<Item<K>>, key: K)
    returns (i: nat)
    requires Linked(entries, heap, clock, list) && key in entries
    ensures i < |list| && list[i] == Item(key, entries[key].bytes)
    ensures Without(list, key) == Cut(list, i)
  {
    assert HasKey(list, key);
    i :| 0 <= i < |list| && list[i].key == key;
    assert Live(entries, heap, list[i]);
    forall j | 0 <= j < i ensures list[j].key != list[i].key {
      DistinctAt(entries, heap, clock, list, i, j);
    }
    WithoutAt(list, i);
  }

  /** Taking a key out of the map takes its item, if any, out of the list. */
  lemma DropKey<K(!new)>(entries: map<K, Entry>, heap: multiset<Stamp<K>>, clock: nat, list: seq<Item<K>>, key: K)
    requires Linked(entries, heap, clock, list)
    ensures Linked(entries - {key}, heap, clock, Without(list, key))
    ensures Total(list) == Total(Without(list, key)) + if key in entries then entries[key].bytes else 0
  {
    if key in entries {
      var i := Locate(entries, heap, clock, list, key);
      DropAt(entries, heap, clock, list, i);
      TotalCut(list, i);
    } else {
      assert HasKey(list, key) ==> key in entries by {
        if HasKey(list, key) {
          LiveCovered(entries, heap, list, key);
        }
      }
      WithoutNone(list, key);
      assert entries - {key} == entries;
    }
  }

  /** A key touched now is the newest. */
  lemma Append<K(!new)>(entries: map<K, Entry>, heap: multiset<Stamp<K>>, clock: nat, list: seq<Item<K>>, key: K,
                        bytes: U64, now: U64)
    requires Linked(entries, heap, clock, list) && key !in entries && clock < now
    ensures Linked(entries[key := Entry(bytes, now)], heap + multiset{Stamp(now, key)}, now, list + [Item(key, bytes)])
  {
    var more, grown, longer := entries[key := Entry(bytes, now)], heap + multiset{Stamp(now, key)},
        list + [Item(key, bytes)];
    forall i | 0 <= i < |longer| ensures Live(more, grown, longer[i]) {
      if i < |list| {
        assert Live(entries, heap, list[i]);
      }
    }
    forall k ensures k in more ==> HasKey(longer, k) {
      if k in entries {
        assert HasKey(list, k);
        var m :| 0 <= m < |list| && list[m].key == k;
        assert longer[m].key == k;
      } else if k == key {
        assert longer[|list|].key == k;
      }
    }
  }

  /** Popping the live touch that surfaced first takes the head off the list. */
  lemma PopHead<K(!new)>(entries: map<K, Entry>, heap: multiset<Stamp<K>>, clock: nat, list: seq<Item<K>>, t: Stamp<K>)
    requires Linked(entries, heap, clock, list) && Earliest(heap, t)
    requires t.key in entries && entries[t.key].lastTouch == t.clock
    ensures list != [] && list[0].key == t.key && Total(list) == entries[t.key].bytes + Total(list[1..])
    ensures Linked(entries - {t.key}, heap - multiset{t}, clock, list[1..])
  {
    EarliestIsHead(entries, heap, clock, list, t);
    DropHead(entries, heap, clock, list, t);
  }

  /** Touching a key, known or new, moves its item to the end of the list. */
  lemma MoveKey<K(!new)>(entries: map<K, Entry>, heap: multiset<Stamp<K>>, clock: nat, list: seq<Item<K>>, key: K,
                         bytes: U64, now: U64)
    requires Linked(entries, heap, clock, list) && clock < now
    ensures Linked(entries[key := Entry(bytes, now)], heap + multiset{Stamp(now, key)}, now, Moved(list, key, bytes))
    ensures var known := if key in entries then entries[key].bytes else 0;
      known <= Total(list) && Total(Moved(list, key, bytes)) == Total(list) - known + bytes
  {
    DropKey(entries, heap, clock, list, key);
    Append(entries - {key}, heap, clock, Without(list, key), key, bytes, now);
    assert (entries - {key})[key := Entry(bytes, now)] == entries[key := Entry(bytes, now)];
    TotalConcat(Without(list, key), [Item(key, bytes)]);
  }

  class ByteLruPolicy<K(==, !new)> {
    const maxBytes: U64
    var residentBytes: U64
    var clock: U64
    var entries: map<K, Entry>
    var heap: multiset<Stamp<K>>

    /** The list that the map and the heap stand for, the touches so far, and
        whether a byte count ever passed the 64-bit range. */
    ghost var list: seq<Item<K>>
    ghost var touches: nat
    ghost var saturated: bool

    /** The clock has not wrapped and no sum was saturated. */
    ghost predicate Exact() reads this {
      touches <= MAX_U64 && !saturated
    }

    ghost predicate Valid() reads this {
      Exact() ==> clock == touches && residentBytes == Total(list) && Linked(entries, heap, clock, list)
    }

    constructor (maxBytes: U64)
      ensures Valid() && Exact() && list == [] && this.maxBytes == maxBytes
    {
      this.maxBytes := maxBytes;
      residentBytes, clock := 0, 0;
      entries, heap := map[], multiset{};
      list, touches, saturated := [], 0, false;
    }

    /** Discards a touch that is no longer the last one of its key. */
    method DiscardStale(t: Stamp<K>)
      requires Valid() && t in heap
      requires t.key !in entries || entries[t.key].lastTouch != t.clock
      modifies this`heap
      ensures Valid() && heap == old(heap) - multiset{t}
    {
      if Exact() {
        DropTouch(entries, heap, clock, list, t);
      }
      heap := heap - multiset{t};
    }

    /** Removes the key whose last touch surfaced first. */
    method RemoveHead(t: Stamp<K>)
      requires Valid() && Earliest(heap, t)
      requires t.key in entries && entries[t.key].lastTouch == t.clock
      modifies this`heap, this`entries, this`residentBytes, this`list
      ensures Valid() && entries == old(entries) - {t.key}
      ensures Exact() ==> old(list) != [] && t.key == old(list)[0].key && list == old(list)[1..]
    {
      var fewer, rest := entries - {t.key}, heap - multiset{t};
      var less := SaturatingSub(residentBytes, entries[t.key].bytes);
      if Exact() {
        PopHead(entries, heap, clock, list, t);
        list := list[1..];
      }
      entries, heap, residentBytes := fewer, rest, less;
    }

    method PopOldest() returns (r: Option<K>)
      requires Valid()
      modifies this`heap, this`entries, this`residentBytes, this`list
      ensures Valid()
      ensures r.None? ==> entries == old(entries) && residentBytes == old(residentBytes) && heap == multiset{}
      ensures r.Some? ==> r.value in old(entries) && entries == old(entries) - {r.value}
      ensures Exact() ==>
        if old(list) == [] then r == None && list == []
        else r == Some(old(list)[0].key) && list == old(list)[1..]
    {
      while |heap| > 0
        invariant Valid() && entries == old(entries) && list == old(list) && residentBytes == old(residentBytes)
        decreases |heap|
      {
        HasEarliest(heap);
        var t :| t in heap && Earliest(heap, t);
        if t.key in entries && entries[t.key].lastTouch == t.clock {
          RemoveHead(t);
          return Some(t.key);
        }
        DiscardStale(t);
      }
      if Exact() {
        NothingLive(entries, heap, clock, list);
      }
      return None;
    }

    method Remove(key: K) returns (present: bool)
      requires Valid()
      modifies this`entries, this`residentBytes, this`list
      ensures Valid() && present == (key in old(entries)) && entries == old(entries) - {key}
      ensures Exact() ==> present == HasKey(old(list), key) && list == Without(old(list), key)
    {
      if Exact() {
        DropKey(entries, heap, clock, list, key);
        list := Without(list, key);
      }
      if key !in entries {
        assert entries - {key} == entries;
        return false;
      }
      residentBytes := SaturatingSub(residentBytes, entries[key].bytes);
      entries := entries - {key};
      return true;
    }

    /** Makes the key the newest, before any eviction. */
    method Record(key: K, bytes: U64)
      requires Valid()
      modifies this
      ensures Valid() && touches == old(touches) + 1
      ensures saturated == (old(saturated) || Total(Moved(old(list), key, bytes)) > MAX_U64)
      ensures list == Moved(old(list), key, bytes)
    {
      clock := WrappingIncrement(clock);
      if touches < MAX_U64 && !saturated {
        MoveKey(entries, heap, touches, list, key, bytes, clock);
      }
      if key in entries {
        residentBytes := SaturatingAdd(SaturatingSub(residentBytes, entries[key].bytes), bytes);
      } else {
        residentBytes := SaturatingAdd(residentBytes, bytes);
      }
      entries := entries[key := Entry(bytes, clock)];
      heap := heap + multiset{Stamp(clock, key)};
      touches := touches + 1;
      list := Moved(list, key, bytes);
      saturated := saturated || Total(list) > MAX_U64;
    }

    /** Afterwards the list holds the longest recent run that fits, the key touched
        last, and the keys returned are the others, oldest first. */
    method Touch(key: K, bytes: U64) returns (evicted: seq<K>)
      requires Valid()
      modifies this
      ensures Valid() && touches == old(touches) + 1
      ensures saturated == (old(saturated) || Total(Moved(old(list), key, bytes)) > MAX_U64)
      ensures Exact() ==>
        var moved := Moved(old(list), key, bytes);
        && list == Fitting(moved, maxBytes)
        && evicted + Keys(list) == Keys(moved)
        && residentBytes == Total(list) <= maxBytes
    {
      Record(key, bytes);
      evicted := EvictToFit();
    }

    method EvictToFit() returns (evicted: seq<K>)
      requires Valid()
      modifies this`heap, this`entries, this`residentBytes, this`list
      ensures Valid()
      ensures Exact() ==>
        && list == Fitting(old(list), maxBytes)
        && evicted + Keys(list) == Keys(old(list))
        && residentBytes == Total(list) <= maxBytes
    {
      evicted := [];
      while residentBytes > maxBytes
        invariant Valid()
        invariant Exact() ==> Fitting(list, maxBytes) == Fitting(old(list), maxBytes)
        invariant Exact() ==> evicted + Keys(list) == Keys(old(list))
        decreases |entries|
      {
        var oldest := PopOldest();
        if oldest.None? {
          return;
        }
        evicted := evicted + [oldest.value];
      }
    }
  }
}
