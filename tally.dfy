/**
 * Python's `collections.Counter` over strings, as used for genre statistics: the counts in
 * first-occurrence order (a dict's insertion order), `most_common(n)` and `max(c, key=c.get)`.
 */
module Tally {
  import opened Prelude

  /** A counter: keys in insertion order with their counts. */
  type Counts = seq<(string, nat)>

  predicate DistinctKeys(c: Counts)
  {
    forall i, j :: 0 <= i < j < |c| ==> c[i].0 != c[j].0
  }

  predicate PositiveCounts(c: Counts)
  {
    forall i :: 0 <= i < |c| ==> c[i].1 > 0
  }

  /** `c[y]` (zero for a missing key, as a Counter answers). */
  function CountOf(c: Counts, y: string): nat
  {
    if c == [] then 0 else if c[0].0 == y then c[0].1 else CountOf(c[1..], y)
  }

  predicate HasKey(c: Counts, y: string)
  {
    exists i :: 0 <= i < |c| && c[i].0 == y
  }

  /** Number of times `x` occurs in `xs`. */
  function Occurrences(xs: seq<string>, x: string): nat
  {
    if xs == [] then 0 else Occurrences(xs[..|xs| - 1], x) + (if xs[|xs| - 1] == x then 1 else 0)
  }

  lemma {:induction false} OccurrencesPositive(xs: seq<string>, x: string)
    ensures Occurrences(xs, x) > 0 <==> x in xs
  {
    if xs != [] {
      OccurrencesPositive(xs[..|xs| - 1], x);
      assert xs == xs[..|xs| - 1] + [xs[|xs| - 1]];
    }
  }

  lemma {:induction false} CountOfAbsent(c: Counts, y: string)
    requires !HasKey(c, y)
    ensures CountOf(c, y) == 0
  {
    if c != [] {
      assert forall i :: 0 <= i < |c[1..]| ==> c[1..][i].0 == c[i + 1].0;
      CountOfAbsent(c[1..], y);
    }
  }

  lemma {:induction false} CountOfAt(c: Counts, i: nat)
    requires i < |c|
    ensures DistinctKeys(c) ==> CountOf(c, c[i].0) == c[i].1
  {
    if i > 0 && DistinctKeys(c) { CountOfAt(c[1..], i - 1); }
  }

  /** A key is in a non-empty counter exactly when it is the first key or a key of the rest. */
  lemma HasKeyCons(c: Counts)
    requires c != []
    ensures forall y :: HasKey(c, y) <==> c[0].0 == y || HasKey(c[1..], y)
  {
    forall y ensures HasKey(c, y) <==> c[0].0 == y || HasKey(c[1..], y) {
      if HasKey(c, y) {
        var i :| 0 <= i < |c| && c[i].0 == y;
        if i > 0 { assert c[1..][i - 1].0 == y; }
      }
      if HasKey(c[1..], y) {
        var i :| 0 <= i < |c[1..]| && c[1..][i].0 == y;
        assert c[i + 1].0 == y;
      }
    }
  }

  /** Putting a new key in front of a counter keeps its keys distinct. */
  lemma DistinctCons(h: (string, nat), t: Counts)
    requires DistinctKeys(t) && !HasKey(t, h.0)
    ensures DistinctKeys([h] + t)
  {
    var r := [h] + t;
    forall i, j | 0 <= i < j < |r| ensures r[i].0 != r[j].0 {
      if i == 0 {
        assert r[j].0 == t[j - 1].0;
      } else {
        assert r[i] == t[i - 1] && r[j] == t[j - 1];
      }
    }
  }

  /** The counter after one more occurrence of `x` (`c[x] += 1`). */
  function Bump(c: Counts, x: string): (r: Counts)
    requires DistinctKeys(c) && PositiveCounts(c)
    ensures DistinctKeys(r) && PositiveCounts(r)
    ensures forall y :: CountOf(r, y) == CountOf(c, y) + (if y == x then 1 else 0)
    ensures forall y :: HasKey(r, y) <==> HasKey(c, y) || y == x
  {
    if c == [] then
      assert [(x, 1)][0].0 == x;
      [(x, 1)]
    else
      HasKeyCons(c);
      assert DistinctKeys(c[1..]) && !HasKey(c[1..], c[0].0) by {
        assert forall i :: 0 <= i < |c[1..]| ==> c[1..][i] == c[i + 1];
      }
      if c[0].0 == x then
        CountOfAbsent(c[1..], x);
        var r := [(x, c[0].1 + 1)] + c[1..];
        assert r[1..] == c[1..];
        HasKeyCons(r);
        DistinctCons(r[0], c[1..]);
        r
      else
        var t := Bump(c[1..], x);
        var r := [c[0]] + t;
        assert r[1..] == t;
        HasKeyCons(r);
        DistinctCons(c[0], t);
        r
  }

  /** `Counter(xs)`: one entry per distinct element, counting its occurrences. */
  function Tally(xs: seq<string>): (c: Counts)
    ensures DistinctKeys(c) && PositiveCounts(c)
    ensures forall y :: CountOf(c, y) == Occurrences(xs, y)
    ensures forall y :: HasKey(c, y) <==> y in xs
  {
    if xs == [] then []
    else
      var init := xs[..|xs| - 1];
      var c := Bump(Tally(init), xs[|xs| - 1]);
      assert xs == init + [xs[|xs| - 1]];
      assert forall y :: y in xs <==> y in init || y == xs[|xs| - 1];
      c
  }

  /** The value that orders counter entries. */
  function CountKey(p: (string, nat)): real { p.1 as real }

  /** `max(c, key=c.get)`: the key with the highest count, the first such key on a tie. */
  function MaxKey(c: Counts): (k: string)
    requires |c| > 0
    ensures HasKey(c, k)
    ensures DistinctKeys(c) ==> forall i :: 0 <= i < |c| ==> c[i].1 <= CountOf(c, k)
    ensures DistinctKeys(c) ==> forall i, j :: 0 <= j < i < |c| && c[i].0 == k ==> c[j].1 < c[i].1
  {
    var i := FirstArgMax(c, CountKey);
    CountOfAt(c, i);
    forall j | 0 <= j < |c| ensures DistinctKeys(c) ==> c[j].1 == CountOf(c, c[j].0) { CountOfAt(c, j); }
    c[i].0
  }

  predicate SortedByCount(s: Counts)
  {
    forall i, j :: 0 <= i < j < |s| ==> s[i].1 >= s[j].1
  }

  /** Inserts `x` after every entry whose count is at least `x`'s: the stable descending order. */
  function InsertByCount(s: Counts, x: (string, nat)): (r: Counts)
    ensures |r| == |s| + 1 && multiset(r) == multiset(s) + multiset{x}
    ensures r[0] == if s != [] && s[0].1 >= x.1 then s[0] else x
  {
    if s == [] then [x]
    else if s[0].1 >= x.1 then
      assert s == [s[0]] + s[1..];
      [s[0]] + InsertByCount(s[1..], x)
    else
      assert s == [s[0]] + s[1..];
      [x] + s
  }

  lemma {:induction false} InsertByCountSorted(s: Counts, x: (string, nat))
    requires SortedByCount(s)
    ensures SortedByCount(InsertByCount(s, x))
  {
    if s != [] && s[0].1 >= x.1 {
      var t := InsertByCount(s[1..], x);
      InsertByCountSorted(s[1..], x);
      assert InsertByCount(s, x) == [s[0]] + t;
      forall j | 0 <= j < |t| ensures s[0].1 >= t[j].1 {
        assert t[j] in multiset(s[1..]) + multiset{x};
        if t[j] in multiset(s[1..]) {
          var m :| 0 <= m < |s[1..]| && s[1..][m] == t[j];
          assert s[m + 1] == t[j];
        }
      }
    }
  }

  /** `sorted(c.items(), key=count, reverse=True)`: a stable sort by descending count. */
  function SortByCount(c: Counts): (s: Counts)
    ensures |s| == |c| && multiset(s) == multiset(c) && SortedByCount(s)
  {
    if c == [] then []
    else
      assert c == c[..|c| - 1] + [c[|c| - 1]];
      var init := SortByCount(c[..|c| - 1]);
      InsertByCountSorted(init, c[|c| - 1]);
      InsertByCount(init, c[|c| - 1])
  }

  /**
   * `c.most_common(n)`: the `n` entries with the highest counts, in descending order of count;
   * every entry left out has a count no higher than every entry taken.
   */
  function MostCommon(c: Counts, n: nat): (r: Counts)
    ensures |r| == Min(n, |c|) && SortedByCount(r)
    ensures multiset(r) <= multiset(c)
    ensures forall i :: 0 <= i < |c| ==> c[i] in r || forall j :: 0 <= j < |r| ==> r[j].1 >= c[i].1
  {
    var s := SortByCount(c);
    PrefixOfSorted(c, s, n);
    Prefix(s, n)
  }

  lemma PrefixOfSorted(c: Counts, s: Counts, n: nat)
    requires multiset(s) == multiset(c) && SortedByCount(s)
    ensures multiset(Prefix(s, n)) <= multiset(c)
    ensures forall i :: 0 <= i < |c| ==> c[i] in Prefix(s, n) || forall j :: 0 <= j < |Prefix(s, n)| ==> Prefix(s, n)[j].1 >= c[i].1
  {
    var r := Prefix(s, n);
    assert s == r + s[|r|..];
    assert multiset(s) == multiset(r) + multiset(s[|r|..]);
    forall k | 0 <= k < |r| ensures s[k] in r { assert r[k] == s[k]; }
    forall i | 0 <= i < |c| && c[i] !in r ensures forall j :: 0 <= j < |r| ==> r[j].1 >= c[i].1 {
      assert c[i] in multiset(c);
      var m :| 0 <= m < |s| && s[m] == c[i];
      assert |r| <= m;
    }
  }

  /**
   * The head of `most_common(n)` is the entry `max(c, key=c.get)` picks: the two ways the
   * web application names a top genre agree.
   */
  lemma {:induction false} SortHeadIsFirstMax(c: Counts)
    requires |c| > 0
    ensures SortByCount(c)[0] == c[FirstArgMax(c, CountKey)]
  {
    if |c| > 1 {
      var init := c[..|c| - 1];
      SortHeadIsFirstMax(init);
      assert init[FirstArgMax(init, CountKey)] == c[FirstArgMax(init, CountKey)];
    }
  }

  lemma MostCommonHeadIsMaxKey(c: Counts, n: nat)
    requires |c| > 0 && n > 0
    ensures MostCommon(c, n)[0].0 == MaxKey(c)
  {
    SortHeadIsFirstMax(c);
  }

  /** `sum(c.values())`. */
  function Total(c: Counts): nat
  {
    if c == [] then 0 else c[0].1 + Total(c[1..])
  }

  lemma {:induction false} BumpSize(c: Counts, x: string)
    requires DistinctKeys(c) && PositiveCounts(c)
    ensures Total(Bump(c, x)) == Total(c) + 1
    ensures |Bump(c, x)| == if HasKey(c, x) then |c| else |c| + 1
  {
    if c != [] && c[0].0 != x {
      assert forall i :: 0 <= i < |c[1..]| ==> c[1..][i] == c[i + 1];
      BumpSize(c[1..], x);
      if HasKey(c, x) {
        var i :| 0 <= i < |c| && c[i].0 == x;
        assert c[1..][i - 1].0 == x;
      }
      if HasKey(c[1..], x) {
        var i :| 0 <= i < |c[1..]| && c[1..][i].0 == x;
        assert c[i + 1].0 == x;
      }
      var t := Bump(c[1..], x);
      assert ([c[0]] + t)[1..] == t;
    } else if c != [] {
      assert c[0].0 == x;
      var r := [(x, c[0].1 + 1)] + c[1..];
      assert r[1..] == c[1..];
    }
  }

  /** The counts add up to the number of elements counted. */
  lemma {:induction false} TallyTotal(xs: seq<string>)
    ensures Total(Tally(xs)) == |xs|
  {
    if xs != [] {
      TallyTotal(xs[..|xs| - 1]);
      BumpSize(Tally(xs[..|xs| - 1]), xs[|xs| - 1]);
    }
  }

  lemma SetSnocCard(init: seq<string>, x: string)
    ensures |set y | y in init + [x]| == |set y | y in init| + (if x in init then 0 else 1)
  {
    var before := set y | y in init;
    assert (set y | y in init + [x]) == before + {x};
    if x in init {
      assert before + {x} == before;
    } else {
      assert x !in before;
    }
  }

  /** One entry per distinct element: `len(Counter(xs)) == len(set(xs))`. */
  lemma {:induction false} TallySize(xs: seq<string>)
    ensures |Tally(xs)| == |set x | x in xs|
  {
    if xs != [] {
      var init, x := xs[..|xs| - 1], xs[|xs| - 1];
      TallySize(init);
      BumpSize(Tally(init), x);
      assert xs == init + [x];
      SetSnocCard(init, x);
      assert HasKey(Tally(init), x) <==> x in init;
    }
  }

  /** Every entry `most_common` returns carries the number of times its key occurs. */
  lemma MostCommonCounts(xs: seq<string>, n: nat)
    ensures forall i :: 0 <= i < |MostCommon(Tally(xs), n)| ==>
      MostCommon(Tally(xs), n)[i].1 == Occurrences(xs, MostCommon(Tally(xs), n)[i].0)
  {
    var c := Tally(xs);
    var r := MostCommon(c, n);
    forall i | 0 <= i < |r| ensures r[i].1 == Occurrences(xs, r[i].0) {
      assert r[i] in multiset(r);
      assert r[i] in multiset(c);
      var m :| 0 <= m < |c| && c[m] == r[i];
      CountOfAt(c, m);
    }
  }
}
