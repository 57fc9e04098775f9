/** The residency planner: a greedy selection in rank order under a byte budget. */
module Residency {
  import opened Words

  datatype Candidate = Candidate(id: string, bytes: U64, reuseWeight: U32)

  /** Rank order of two indices: weight down, then bytes up, then position. */
  predicate Ahead(cs: seq<Candidate>, i: nat, j: nat)
    requires i < |cs| && j < |cs|
  {
    || cs[i].reuseWeight > cs[j].reuseWeight
    || (cs[i].reuseWeight == cs[j].reuseWeight && cs[i].bytes < cs[j].bytes)
    || (cs[i].reuseWeight == cs[j].reuseWeight && cs[i].bytes == cs[j].bytes && i < j)
  }

  /** `a` comes before `b`, by rank or by position. */
  predicate Precedes(cs: seq<Candidate>, byRank: bool, a: nat, b: nat)
    requires a < |cs| && b < |cs|
  {
    if byRank then Ahead(cs, a, b) else a < b
  }

  predicate Indices(cs: seq<Candidate>, xs: seq<nat>) {
    forall k | 0 <= k < |xs| :: xs[k] < |cs|
  }

  predicate Sorted(cs: seq<Candidate>, byRank: bool, xs: seq<nat>)
    requires Indices(cs, xs)
  {
    forall k, m | 0 <= k < m < |xs| :: Precedes(cs, byRank, xs[k], xs[m])
  }

  function Insert(cs: seq<Candidate>, byRank: bool, xs: seq<nat>, x: nat): (r: seq<nat>)
    requires Indices(cs, xs) && Sorted(cs, byRank, xs) && x < |cs| && x !in xs
    ensures Indices(cs, r) && Sorted(cs, byRank, r)
    ensures forall y :: y in r <==> y == x || y in xs
  {
    if xs == [] || Precedes(cs, byRank, x, xs[0]) then [x] + xs
    else
      var rest := Insert(cs, byRank, xs[1..], x);
      assert forall k | 0 <= k < |rest| :: Precedes(cs, byRank, xs[0], rest[k]) by {
        assert forall k | 0 <= k < |rest| :: rest[k] in rest;
      }
      [xs[0]] + rest
  }

  /** A sort of distinct indices, by rank or by position. */
  function Sort(cs: seq<Candidate>, byRank: bool, xs: seq<nat>): (r: seq<nat>)
    requires Indices(cs, xs) && Apart(xs)
    ensures Indices(cs, r) && Sorted(cs, byRank, r)
    ensures forall y :: y in r <==> y in xs
  {
    if xs == [] then [] else Insert(cs, byRank, Sort(cs, byRank, xs[1..]), xs[0])
  }

  // ---- What a plan is ----

  /** The bytes of the candidates in `s` among the first `n`. */
  function Bytes(cs: seq<Candidate>, s: set<nat>, n: nat): nat
    requires n <= |cs|
  {
    if n == 0 then 0 else Bytes(cs, s, n - 1) + if n - 1 in s then cs[n - 1].bytes else 0
  }

  /** The members of `s` ranked before `i`. */
  function AheadOf(cs: seq<Candidate>, s: set<nat>, i: nat): set<nat>
    requires i < |cs|
  {
    set j | j in s && j < |cs| && Ahead(cs, j, i)
  }

  /** `i` is chosen exactly when it fits after the chosen candidates ranked before it. */
  predicate Decides(cs: seq<Candidate>, budget: nat, chosen: set<nat>, i: nat)
    requires i < |cs|
  {
    i in chosen <==> Bytes(cs, AheadOf(cs, chosen, i), |cs|) + cs[i].bytes <= budget
  }

  predicate Greedy(cs: seq<Candidate>, budget: nat, chosen: set<nat>) {
    && (forall i | i in chosen :: i < |cs|)
    && forall i | 0 <= i < |cs| :: Decides(cs, budget, chosen, i)
  }

  /** The candidates whose index is in `s`, in input order. */
  function Keep(cs: seq<Candidate>, s: set<nat>): seq<Candidate> {
    if cs == [] then []
    else Keep(cs[..|cs| - 1], s) + if |cs| - 1 in s then [cs[|cs| - 1]] else []
  }

  function Leave(cs: seq<Candidate>, s: set<nat>): set<nat> {
    set i | 0 <= i < |cs| && i !in s
  }

  lemma {:induction false} BytesAdd(cs: seq<Candidate>, s: set<nat>, x: nat, n: nat)
    requires n <= |cs| && x !in s && x < |cs|
    ensures Bytes(cs, s + {x}, n) == Bytes(cs, s, n) + if x < n then cs[x].bytes else 0
  {
    if n > 0 {
      BytesAdd(cs, s, x, n - 1);
    }
  }

  lemma {:induction false} BytesMonotone(cs: seq<Candidate>, s: set<nat>, t: set<nat>, n: nat)
    requires n <= |cs| && s <= t
    ensures Bytes(cs, s, n) <= Bytes(cs, t, n)
  {
    if n > 0 {
      BytesMonotone(cs, s, t, n - 1);
    }
  }

  /** No candidate left out fits in what the plan leaves over. */
  lemma NoSpilledFits(cs: seq<Candidate>, budget: nat, chosen: set<nat>, i: nat)
    requires Greedy(cs, budget, chosen) && i < |cs| && i !in chosen
    ensures Bytes(cs, chosen, |cs|) + cs[i].bytes > budget
  {
    assert Decides(cs, budget, chosen, i);
    BytesMonotone(cs, AheadOf(cs, chosen, i), chosen, |cs|);
  }

  // ---- The rule over the candidates' own fields ----

  /** The bytes of the candidates in `s` that weigh at least as much as candidate `i`, or, when
      `strict`, that weigh more, or as much with fewer bytes, or as much with as many bytes at
      a smaller index; among the first `n`. */
  function BytesBefore(cs: seq<Candidate>, s: set<nat>, i: nat, strict: bool, n: nat): nat
    requires i < |cs| && n <= |cs|
  {
    if n == 0 then 0
    else
      var j := n - 1;
      var before :=
        if !strict then cs[j].reuseWeight >= cs[i].reuseWeight
        else if cs[j].reuseWeight != cs[i].reuseWeight then cs[j].reuseWeight > cs[i].reuseWeight
        else if cs[j].bytes != cs[i].bytes then cs[j].bytes < cs[i].bytes
        else j < i;
      BytesBefore(cs, s, i, strict, n - 1) + if j in s && before then cs[j].bytes else 0
  }

  lemma {:induction false} BytesBeforeRank(cs: seq<Candidate>, s: set<nat>, i: nat, n: nat)
    requires i < |cs| && n <= |cs|
    ensures BytesBefore(cs, s, i, true, n) == Bytes(cs, AheadOf(cs, s, i), n)
    ensures BytesBefore(cs, s, i, true, n) <= BytesBefore(cs, s, i, false, n)
  {
    if n > 0 {
      BytesBeforeRank(cs, s, i, n - 1);
      assert n - 1 in AheadOf(cs, s, i) <==> n - 1 in s && Ahead(cs, n - 1, i);
    }
  }

  /** A candidate is chosen exactly when it fits behind the chosen ones that are hotter, or as
      hot and smaller, or equal in both and earlier; a spilled one does not even fit behind
      the chosen ones that are at least as hot. */
  lemma HottestFirst(cs: seq<Candidate>, budget: nat, chosen: set<nat>, i: nat)
    requires Greedy(cs, budget, chosen) && i < |cs|
    ensures i in chosen <==> BytesBefore(cs, chosen, i, true, |cs|) + cs[i].bytes <= budget
    ensures i !in chosen ==> BytesBefore(cs, chosen, i, false, |cs|) + cs[i].bytes > budget
  {
    assert Decides(cs, budget, chosen, i);
    BytesBeforeRank(cs, chosen, i, |cs|);
  }

  // ---- One plan ----

  /** Two greedy plans agree on the first `p` candidates in rank order. */
  lemma {:induction false} GreedyAgree(cs: seq<Candidate>, budget: nat, a: set<nat>, b: set<nat>, ranked: seq<nat>,
                                       p: nat)
    requires Greedy(cs, budget, a) && Greedy(cs, budget, b)
    requires Indices(cs, ranked) && Sorted(cs, true, ranked) && p <= |ranked|
    requires forall i | 0 <= i < |cs| :: i in ranked
    ensures forall k | 0 <= k < p :: ranked[k] in a <==> ranked[k] in b
  {
    if p > 0 {
      GreedyAgree(cs, budget, a, b, ranked, p - 1);
      var i := ranked[p - 1];
      forall j | 0 <= j < |cs| && Ahead(cs, j, i) ensures j in a <==> j in b {
        assert j in ranked;
        var k :| 0 <= k < |ranked| && ranked[k] == j;
      }
      assert AheadOf(cs, a, i) == AheadOf(cs, b, i);
      assert Decides(cs, budget, a, i) && Decides(cs, budget, b, i);
    }
  }

  /** All indices in rank order. */
  function Ranked(cs: seq<Candidate>): (r: seq<nat>)
    ensures Indices(cs, r) && Sorted(cs, true, r)
    ensures forall i | 0 <= i < |cs| :: i in r
  {
    var all := seq(|cs|, k => k);
    assert forall i | 0 <= i < |cs| :: i in all by {
      forall i | 0 <= i < |cs| ensures i in all {
        assert all[i] == i;
      }
    }
    Sort(cs, true, all)
  }

  /** The greedy rule determines the plan. */
  lemma GreedyUnique(cs: seq<Candidate>, budget: nat, a: set<nat>, b: set<nat>)
    requires Greedy(cs, budget, a) && Greedy(cs, budget, b)
    ensures a == b
  {
    var ranked := Ranked(cs);
    GreedyAgree(cs, budget, a, b, ranked, |ranked|);
    forall i ensures i in a <==> i in b {
      if 0 <= i < |cs| {
        assert i in ranked;
      }
    }
  }

  // ---- The order-preserving split ----

  function Pick(cs: seq<Candidate>, xs: seq<nat>): seq<Candidate>
    requires Indices(cs, xs)
  {
    seq(|xs|, k requires 0 <= k < |xs| => cs[xs[k]])
  }

  function TotalBytes(cs: seq<Candidate>): nat {
    if cs == [] then 0 else TotalBytes(cs[..|cs| - 1]) + cs[|cs| - 1].bytes
  }

  lemma TotalSnoc(cs: seq<Candidate>, c: Candidate)
    ensures TotalBytes(cs + [c]) == TotalBytes(cs) + c.bytes
  {
    assert (cs + [c])[..|cs|] == cs;
  }

  lemma {:induction false} KeepBytes(cs: seq<Candidate>, s: set<nat>)
    ensures TotalBytes(Keep(cs, s)) == Bytes(cs, s, |cs|)
  {
    if cs != [] {
      var front := cs[..|cs| - 1];
      KeepBytes(front, s);
      BytesOfPrefix(cs, s, |cs| - 1);
      TotalSnoc(Keep(front, s), cs[|cs| - 1]);
      assert Keep(front, s) + [] == Keep(front, s);
    }
  }

  lemma {:induction false} BytesOfPrefix(cs: seq<Candidate>, s: set<nat>, n: nat)
    requires n < |cs|
    ensures Bytes(cs, s, n) == Bytes(cs[..|cs| - 1], s, n)
  {
    if n > 0 {
      BytesOfPrefix(cs, s, n - 1);
    }
  }

  /** Ascending indices pick exactly what keeping them in place keeps. */
  lemma {:induction false} PickIsKeep(cs: seq<Candidate>, xs: seq<nat>, s: set<nat>)
    requires Indices(cs, xs) && Sorted(cs, false, xs)
    requires forall i | 0 <= i < |cs| :: i in xs <==> i in s
    ensures Pick(cs, xs) == Keep(cs, s)
  {
    if cs == [] {
      Ends(cs, xs);
    } else {
      var last, front := |cs| - 1, cs[..|cs| - 1];
      var ys := if last in s then xs[..|xs| - 1] else xs;
      LastIndex(cs, xs, last);
      assert Sorted(front, false, ys);
      PickIsKeep(front, ys, s);
      assert Pick(cs, xs) == Pick(front, ys) + if last in s then [cs[last]] else [];
    }
  }

  lemma Ascending(cs: seq<Candidate>, xs: seq<nat>, k: nat, m: nat)
    requires Indices(cs, xs) && Sorted(cs, false, xs) && k <= m < |xs|
    ensures xs[k] <= xs[m]
  {
    assert k == m || Precedes(cs, false, xs[k], xs[m]);
  }

  lemma Ends(cs: seq<Candidate>, xs: seq<nat>)
    requires Indices(cs, xs) && Sorted(cs, false, xs)
    ensures xs != [] ==> xs[0] <= xs[|xs| - 1] < |cs|
  {
    if xs != [] {
      Ascending(cs, xs, 0, |xs| - 1);
    }
  }

  /** The greatest index, when present, is the last of an ascending list. */
  lemma LastIndex(cs: seq<Candidate>, xs: seq<nat>, last: nat)
    requires Indices(cs, xs) && Sorted(cs, false, xs) && |cs| == last + 1
    ensures last in xs ==> xs[|xs| - 1] == last
    ensures last in xs ==> forall i | 0 <= i < last :: i in xs <==> i in xs[..|xs| - 1]
    ensures var ys := if last in xs then xs[..|xs| - 1] else xs; Indices(cs[..last], ys)
  {
    if last in xs {
      var k :| 0 <= k < |xs| && xs[k] == last;
      Ascending(cs, xs, k, |xs| - 1);
      assert xs == xs[..|xs| - 1] + [xs[|xs| - 1]];
      forall m | 0 <= m < |xs| - 1 ensures xs[m] < last {
        assert Precedes(cs, false, xs[m], xs[|xs| - 1]);
      }
    } else {
      forall m | 0 <= m < |xs| ensures xs[m] < last {
        assert xs[m] in xs;
      }
    }
  }

  /** The two halves hold every candidate exactly once. */
  lemma {:induction false} SplitCovers(cs: seq<Candidate>, s: set<nat>)
    ensures multiset(Keep(cs, s)) + multiset(Keep(cs, Leave(cs, s))) == multiset(cs)
  {
    if cs != [] {
      var front := cs[..|cs| - 1];
      SplitCovers(front, s);
      KeepSame(front, Leave(front, s), Leave(cs, s));
      assert cs == front + [cs[|cs| - 1]];
    }
  }

  lemma {:induction false} KeepSame(cs: seq<Candidate>, s: set<nat>, t: set<nat>)
    requires forall i | 0 <= i < |cs| :: i in s <==> i in t
    ensures Keep(cs, s) == Keep(cs, t)
  {
    if cs != [] {
      KeepSame(cs[..|cs| - 1], s, t);
    }
  }

  /** What the loop knows after the first `p` ranked candidates. */
  ghost predicate Decided(cs: seq<Candidate>, budget: nat, ranked: seq<nat>, p: nat, chosen: set<nat>)
    requires Indices(cs, ranked) && p <= |ranked|
  {
    && (forall i | i in chosen :: i in ranked[..p])
    && forall k | 0 <= k < p :: Decides(cs, budget, chosen, ranked[k])
  }

  /** Choosing a later candidate leaves the earlier decisions as they were. */
  lemma DecideNext(cs: seq<Candidate>, budget: nat, ranked: seq<nat>, p: nat, chosen: set<nat>)
    requires Indices(cs, ranked) && Sorted(cs, true, ranked) && p < |ranked|
    requires Decided(cs, budget, ranked, p, chosen)
    ensures ranked[p] !in chosen
    ensures var fits := Bytes(cs, chosen, |cs|) + cs[ranked[p]].bytes <= budget;
      Decided(cs, budget, ranked, p + 1, if fits then chosen + {ranked[p]} else chosen)
  {
    var x := ranked[p];
    var fits := Bytes(cs, chosen, |cs|) + cs[x].bytes <= budget;
    var next := if fits then chosen + {x} else chosen;
    assert ranked[..p + 1] == ranked[..p] + [x];
    forall k | 0 <= k < p ensures Ahead(cs, ranked[k], x) {
      assert Precedes(cs, true, ranked[k], ranked[p]);
    }
    assert x !in chosen;
    assert AheadOf(cs, next, x) == chosen;
    forall k | 0 <= k < p + 1 ensures Decides(cs, budget, next, ranked[k]) {
      if k < p {
        assert Decides(cs, budget, chosen, ranked[k]);
        assert AheadOf(cs, next, ranked[k]) == AheadOf(cs, chosen, ranked[k]);
      }
    }
  }

  lemma DecidedAll(cs: seq<Candidate>, budget: nat, ranked: seq<nat>, chosen: set<nat>)
    requires Indices(cs, ranked) && Decided(cs, budget, ranked, |ranked|, chosen)
    requires forall i | 0 <= i < |cs| :: i in ranked
    ensures Greedy(cs, budget, chosen)
  {
    assert ranked[..|ranked|] == ranked;
    forall i | 0 <= i < |cs| ensures Decides(cs, budget, chosen, i) {
      assert i in ranked;
      var k :| 0 <= k < |ranked| && ranked[k] == i;
    }
  }

  lemma {:induction false} BytesNone(cs: seq<Candidate>, n: nat)
    requires n <= |cs|
    ensures Bytes(cs, {}, n) == 0
  {
    if n > 0 {
      BytesNone(cs, n - 1);
    }
  }

  lemma HalvesNext(cs: seq<Candidate>, ranked: seq<nat>, p: nat, chosen: set<nat>, a: seq<nat>, b: seq<nat>, take: bool)
    requires Indices(cs, ranked) && Sorted(cs, true, ranked) && p < |ranked|
    requires Halves(cs, ranked[..p], chosen, a, b) && ranked[p] !in chosen
    ensures var x := ranked[p];
      Halves(cs, ranked[..p + 1], if take then chosen + {x} else chosen,
             if take then a + [x] else a, if take then b else b + [x])
  {
    var x := ranked[p];
    forall k | 0 <= k < p ensures ranked[k] != x {
      assert Precedes(cs, true, ranked[k], ranked[p]);
    }
    assert ranked[..p + 1] == ranked[..p] + [x];
    assert x !in a && x !in b;
  }

  /** Walks the ranking once, taking each candidate that still fits. */
  method Choose(budget: U64, cs: seq<Candidate>, ranked: seq<nat>)
    returns (selectedRanked: seq<nat>, spilledRanked: seq<nat>, ghost chosen: set<nat>)
    requires Indices(cs, ranked) && Sorted(cs, true, ranked)
    ensures Decided(cs, budget, ranked, |ranked|, chosen)
    ensures Halves(cs, ranked, chosen, selectedRanked, spilledRanked)
    ensures Bytes(cs, chosen, |cs|) <= budget
  {
    var remaining: U64 := budget;
    selectedRanked, spilledRanked, chosen := [], [], {};
    BytesNone(cs, |cs|);
    for p := 0 to |ranked|
      invariant Decided(cs, budget, ranked, p, chosen)
      invariant remaining + Bytes(cs, chosen, |cs|) == budget
      invariant Halves(cs, ranked[..p], chosen, selectedRanked, spilledRanked)
    {
      var x := ranked[p];
      DecideNext(cs, budget, ranked, p, chosen);
      HalvesNext(cs, ranked, p, chosen, selectedRanked, spilledRanked, cs[x].bytes <= remaining);
      if cs[x].bytes <= remaining {
        remaining := remaining - cs[x].bytes;
        selectedRanked := selectedRanked + [x];
        BytesAdd(cs, chosen, x, |cs|);
        chosen := chosen + {x};
      } else {
        spilledRanked := spilledRanked + [x];
      }
    }
    assert ranked[..|ranked|] == ranked;
  }

  /** Every candidate is selected or spilled, in input order, by the greedy rule. */
  method Plan(budget: U64, cs: seq<Candidate>) returns (selected: seq<Candidate>, spilled: seq<Candidate>,
                                                        ghost chosen: set<nat>)
    ensures Greedy(cs, budget, chosen)
    ensures forall i | 0 <= i < |cs| ::
              i in chosen <==> BytesBefore(cs, chosen, i, true, |cs|) + cs[i].bytes <= budget
    ensures selected == Keep(cs, chosen) && spilled == Keep(cs, Leave(cs, chosen))
    ensures TotalBytes(selected) <= budget
  {
    var ranked := Ranked(cs);
    var selectedRanked, spilledRanked;
    selectedRanked, spilledRanked, chosen := Choose(budget, cs, ranked);
    DecidedAll(cs, budget, ranked, chosen);
    forall i | 0 <= i < |cs|
      ensures i in chosen <==> BytesBefore(cs, chosen, i, true, |cs|) + cs[i].bytes <= budget
    {
      HottestFirst(cs, budget, chosen, i);
    }
    selected := Restore(cs, selectedRanked, chosen);
    spilled := Restore(cs, spilledRanked, Leave(cs, chosen));
    KeepBytes(cs, chosen);
  }

  /** Back in input order. */
  method Restore(cs: seq<Candidate>, xs: seq<nat>, ghost s: set<nat>) returns (r: seq<Candidate>)
    requires Indices(cs, xs) && Apart(xs)
    requires forall i | 0 <= i < |cs| :: i in xs <==> i in s
    ensures r == Keep(cs, s)
  {
    var ordered := Sort(cs, false, xs);
    PickIsKeep(cs, ordered, s);
    r := Pick(cs, ordered);
  }

  /** The two lists split what was ranked so far by membership in `chosen`. */
  ghost predicate Halves(cs: seq<Candidate>, seen: seq<nat>, chosen: set<nat>, a: seq<nat>, b: seq<nat>) {
    && Indices(cs, a) && Indices(cs, b)
    && (forall i :: i in a <==> i in seen && i in chosen)
    && (forall i :: i in b <==> i in seen && i !in chosen)
    && Apart(a) && Apart(b)
  }

  predicate Apart(xs: seq<nat>) {
    forall k, m | 0 <= k < m < |xs| :: xs[k] != xs[m]
  }
}
