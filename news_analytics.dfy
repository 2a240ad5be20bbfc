/** Reading analytics: totals over the stored reading statistics, the favourite categories
    and the reading-time text. */
module NewsAnalytics {
  import opened Wrappers
  import opened Seqs
  import opened Strings
  import opened Sorting
  import opened Articles

  // ---------------------------------------------------------------------------------------
  // What the `forEach` of `calculateStats` accumulates, as functions of the values seen

  /** How many of the records have category `c` (a category counts only when truthy). */
  function CategoryCount(values: seq<ReadingRecord>, c: string): nat {
    if values == [] then 0
    else CategoryCount(values[..|values| - 1], c)
         + (if Truthy(values[|values| - 1].category) && values[|values| - 1].category.value == c then 1 else 0)
  }

  /** How many records have a truthy category. */
  function CategorizedCount(values: seq<ReadingRecord>): (n: nat)
    ensures n <= |values|
  {
    if values == [] then 0
    else CategorizedCount(values[..|values| - 1]) + (if Truthy(values[|values| - 1].category) then 1 else 0)
  }

  /** The sum of `article.readingTime || 0`. */
  function TimeSum(values: seq<ReadingRecord>): int {
    if values == [] then 0
    else TimeSum(values[..|values| - 1]) + values[|values| - 1].readingTime.GetOr(0)
  }

  /** A JavaScript object from category to count, as its entries in insertion order. */
  type Entries = seq<(string, nat)>

  function Keys(e: Entries): (r: seq<string>)
    ensures |r| == |e| && forall i :: 0 <= i < |e| ==> r[i] == e[i].0
  {
    if e == [] then [] else [e[0].0] + Keys(e[1..])
  }

  /** `categories[c] || 0`. */
  function Lookup(e: Entries, c: string): nat {
    if e == [] then 0 else if e[0].0 == c then e[0].1 else Lookup(e[1..], c)
  }

  /** The sum of all counts. */
  function Total(e: Entries): nat {
    if e == [] then 0 else e[0].1 + Total(e[1..])
  }

  /** `categories[c] = (categories[c] || 0) + 1`: an existing key is updated in place, a new
      one is appended with count 1. */
  function Bump(e: Entries, c: string): (r: Entries)
    requires NoDuplicates(Keys(e))
    ensures NoDuplicates(Keys(r))
    ensures forall k :: k in Keys(r) <==> k in Keys(e) || k == c
    ensures forall k :: Lookup(r, k) == Lookup(e, k) + (if k == c then 1 else 0)
    ensures Total(r) == Total(e) + 1
  {
    if e == [] then [(c, 1)]
    else if e[0].0 == c then
      assert c !in Keys(e[1..]) by {
        assert forall i :: 0 <= i < |e[1..]| ==> Keys(e[1..])[i] == Keys(e)[i + 1];
      }
      LookupAbsent(e[1..], c);
      [(c, e[0].1 + 1)] + e[1..]
    else
      assert NoDuplicates(Keys(e[1..])) by {
        assert forall i :: 0 <= i < |e[1..]| ==> Keys(e[1..])[i] == Keys(e)[i + 1];
      }
      var rest := Bump(e[1..], c);
      assert e[0].0 !in Keys(rest) by {
        assert forall i :: 0 <= i < |e[1..]| ==> Keys(e[1..])[i] == Keys(e)[i + 1];
      }
      assert Keys([e[0]] + rest) == [e[0].0] + Keys(rest);
      [e[0]] + rest
  }

  lemma {:induction false} LookupAbsent(e: Entries, c: string)
    requires c !in Keys(e)
    ensures Lookup(e, c) == 0
  {
    if e != [] {
      assert Keys(e) == [e[0].0] + Keys(e[1..]);
      LookupAbsent(e[1..], c);
    }
  }

  /** The `favoriteCategories` object built from the values seen so far. */
  function Tally(values: seq<ReadingRecord>): (r: Entries)
    ensures NoDuplicates(Keys(r))
  {
    if values == [] then []
    else
      var last := values[|values| - 1];
      var init := Tally(values[..|values| - 1]);
      if Truthy(last.category) then Bump(init, last.category.value) else init
  }

  /** Each category's count is the number of records with that category; the keys are
      distinct and are exactly the categories that occur; the counts sum to the number of
      categorised records, so at most to the number of records. */
  lemma {:induction false} TallyCounts(values: seq<ReadingRecord>)
    ensures forall c :: Lookup(Tally(values), c) == CategoryCount(values, c)
    ensures forall c :: c in Keys(Tally(values)) <==> CategoryCount(values, c) > 0
    ensures Total(Tally(values)) == CategorizedCount(values) <= |values|
  {
    if values != [] {
      var init := values[..|values| - 1];
      TallyCounts(init);
      forall c ensures c in Keys(Tally(values)) <==> CategoryCount(values, c) > 0 {
        if c in Keys(Tally(init)) {
          assert CategoryCount(init, c) > 0;
        } else {
          LookupAbsent(Tally(init), c);
        }
      }
    }
  }

  // ---------------------------------------------------------------------------------------
  // `getTopCategories` and `formatReadingTime`

  /** The comparator `([, a], [, b]) => b - a`: larger counts first. */
  function ByCountDesc(): ((string, nat), (string, nat)) -> bool {
    (a: (string, nat), b: (string, nat)) => a.1 >= b.1
  }

  function Min(a: int, b: int): int { if a <= b then a else b }

  /** `Object.entries(categories).sort(...).slice(0, 5)`. */
  function TopCategories(e: Entries): Entries {
    var sorted := Sort(e, ByCountDesc());
    sorted[..Min(5, |sorted|)]
  }

  /** The top categories: at most five, by non-increasing count, drawn from the entries. */
  lemma TopCategoriesOrdered(e: Entries)
    ensures var r := TopCategories(e);
      && |r| == Min(5, |e|)
      && (forall i :: 0 <= i < |r| - 1 ==> r[i].1 >= r[i + 1].1)
      && (forall x :: x in r ==> x in e)
      && multiset(r) <= multiset(e)
  {
    var sorted := Sort(e, ByCountDesc());
    var r := sorted[..Min(5, |sorted|)];
    SortSorted(e, ByCountDesc());
    assert forall i :: 0 <= i < |r| ==> r[i] == sorted[i];
    forall x | x in r ensures x in e {
      assert x in multiset(sorted);
    }
    assert sorted == r + sorted[|r|..];
    assert multiset(sorted) == multiset(r) + multiset(sorted[|r|..]);
  }

  /** In a list sorted by count, everything before position `k` has at least the count of
      anything from `k` on. */
  lemma PrefixDominates(sorted: Entries, k: nat, x: (string, nat), y: (string, nat))
    requires Sorted(sorted, ByCountDesc()) && k <= |sorted|
    requires x in sorted[..k] && y in sorted[k..]
    ensures x.1 >= y.1
  {
    var i :| 0 <= i < k && sorted[i] == x;
    var j :| k <= j < |sorted| && sorted[j] == y;
    SortedPairwise(sorted, ByCountDesc(), i, j);
  }

  /** No entry left out of the top categories has a larger count than one kept. */
  lemma TopCategoriesBest(e: Entries)
    ensures var r := TopCategories(e);
      forall x, y :: x in r && y in e && multiset(r)[y] < multiset(e)[y] ==> x.1 >= y.1
  {
    var sorted := Sort(e, ByCountDesc());
    var k := Min(5, |sorted|);
    var r := sorted[..k];
    SortSorted(e, ByCountDesc());
    assert sorted == r + sorted[k..];
    forall x, y | x in r && y in e && multiset(r)[y] < multiset(e)[y] ensures x.1 >= y.1 {
      assert multiset(sorted)[y] == multiset(r)[y] + multiset(sorted[k..])[y];
      assert y in sorted[k..];
      PrefixDominates(sorted, k, x, y);
    }
  }

  /** The reading-time text: "m minutes" below an hour, "h h m m" otherwise. */
  datatype ReadingTimeText = Minutes(minutes: int) | HoursMinutes(hours: int, mins: int)

  /** `formatReadingTime(minutes)`. */
  function FormatReadingTime(minutes: int): (r: ReadingTimeText)
    ensures minutes < 60 ==> r == Minutes(minutes)
    ensures minutes >= 60 ==> r.HoursMinutes? && r.hours * 60 + r.mins == minutes
                              && 0 <= r.mins < 60 && r.hours >= 1
  {
    if minutes < 60 then Minutes(minutes) else HoursMinutes(minutes / 60, minutes % 60)
  }

  // ---------------------------------------------------------------------------------------
  // The component

  /** The keys of an object in insertion order: each key once, and only keys of the object. */
  ghost predicate IsKeyOrder(order: seq<string>, stats: map<string, ReadingRecord>) {
    NoDuplicates(order) && (forall k :: k in order <==> k in stats)
  }

  /** `Object.values(stats)` in insertion order. */
  function Values(stats: map<string, ReadingRecord>, order: seq<string>): seq<ReadingRecord>
    requires forall k :: k in order ==> k in stats
  {
    seq(|order|, i requires 0 <= i < |order| => stats[order[i]])
  }

  /** A key order lists as many keys as the object has. */
  lemma {:induction false} KeyOrderLength(order: seq<string>, keys: set<string>)
    requires NoDuplicates(order) && forall k :: k in order <==> k in keys
    ensures |order| == |keys|
  {
    if order != [] {
      var rest := order[1..];
      assert forall i :: 0 <= i < |rest| ==> rest[i] == order[i + 1];
      assert order[0] !in rest;
      KeyOrderLength(rest, keys - {order[0]});
    } else {
      assert keys == {};
    }
  }

  /** Along a key order, `Object.values` lists one record per stored key, and its members are
      exactly the stored records. */
  lemma ValuesExact(stats: map<string, ReadingRecord>, order: seq<string>)
    requires IsKeyOrder(order, stats)
    ensures |Values(stats, order)| == |stats|
    ensures forall r :: r in Values(stats, order) <==> exists k :: k in stats && stats[k] == r
  {
    var v := Values(stats, order);
    KeyOrderLength(order, stats.Keys);
    forall r ensures r in v <==> exists k :: k in stats && stats[k] == r {
      if exists k :: k in stats && stats[k] == r {
        var k :| k in stats && stats[k] == r;
        var i :| 0 <= i < |order| && order[i] == k;
        assert v[i] == r;
      }
    }
  }

  class AnalyticsComponent {
    /** The stored `readingStats` object and the insertion order of its keys. */
    const readingStats: map<string, ReadingRecord>
    const order: seq<string>
    var totalArticlesRead: int
    var favoriteCategories: Entries
    var readingTime: int

    constructor (readingStats: map<string, ReadingRecord>, order: seq<string>)
      requires IsKeyOrder(order, readingStats)
      ensures this.readingStats == readingStats && this.order == order
      ensures totalArticlesRead == 0 && favoriteCategories == [] && readingTime == 0
    {
      this.readingStats := readingStats;
      this.order := order;
      totalArticlesRead, favoriteCategories, readingTime := 0, [], 0;
    }

    /** `calculateStats`: one pass over the stored records. */
    method CalculateStats()
      requires IsKeyOrder(order, readingStats)
      modifies this
      ensures totalArticlesRead == |readingStats|
      ensures readingTime == TimeSum(Values(readingStats, order))
      ensures favoriteCategories == Tally(Values(readingStats, order))
      ensures forall c :: Lookup(favoriteCategories, c) == CategoryCount(Values(readingStats, order), c)
      ensures Total(favoriteCategories) <= totalArticlesRead
    {
      var values := Values(readingStats, order);
      var totalRead := 0;
      var totalTime := 0;
      var categories: Entries := [];
      var i := 0;
      while i < |values|
        invariant 0 <= i <= |values|
        invariant totalRead == i
        invariant totalTime == TimeSum(values[..i])
        invariant categories == Tally(values[..i])
      {
        var article := values[i];
        assert values[..i + 1][..i] == values[..i];
        totalRead := totalRead + 1;
        totalTime := totalTime + article.readingTime.GetOr(0);
        if Truthy(article.category) {
          categories := Bump(categories, article.category.value);
        }
        i := i + 1;
      }
      assert values[..i] == values;
      KeyOrderLength(order, readingStats.Keys);
      TallyCounts(values);
      totalArticlesRead, readingTime, favoriteCategories := totalRead, totalTime, categories;
    }

    /** `getTopCategories`. */
    function GetTopCategories(): Entries
      reads this
    {
      TopCategories(favoriteCategories)
    }
  }
}
