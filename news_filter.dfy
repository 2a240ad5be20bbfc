/** The advanced filter view: source and date-range filters followed by a stable sort,
    over an article list fetched from the API or taken from the bundled sample data. */
module NewsFilter {
  import opened Wrappers
  import opened Seqs
  import opened Strings
  import opened Sorting
  import opened Articles

  /** Milliseconds in a day: `24 * 60 * 60 * 1000`. */
  const DayMs: int := 24 * 60 * 60 * 1000

  /** The `filters` state: every field holds the string the corresponding select produced. */
  datatype Filters = Filters(dateRange: string, source: string, sortBy: string, country: string)

  datatype FilterField = DateRange | Source | SortBy | Country

  /** The filters the view starts with and `clearFilters` restores. */
  const DefaultFilters: Filters := Filters("all", "all", "publishedAt", "us")

  function Field(f: Filters, field: FilterField): string {
    match field
    case DateRange => f.dateRange
    case Source => f.source
    case SortBy => f.sortBy
    case Country => f.country
  }

  /** `{...filters, [filterType]: value}`. */
  function WithField(f: Filters, field: FilterField, value: string): (r: Filters)
    ensures Field(r, field) == value
    ensures forall g :: g != field ==> Field(r, g) == Field(f, g)
  {
    match field
    case DateRange => f.(dateRange := value)
    case Source => f.(source := value)
    case SortBy => f.(sortBy := value)
    case Country => f.(country := value)
  }

  // ---------------------------------------------------------------------------------------
  // The filter and sort steps of `applyFilters`

  /** `article.source?.name === filters.source`. */
  predicate SourceMatches(a: Article, source: string) {
    a.sourceName == Some(source)
  }

  /** How many days back a non-"today" range reaches: 7 for "recent" and "week",
      30 for "month", and 365 for "year" and any other value. */
  function DaysBack(range: string): (d: int)
    ensures d == 7 || d == 30 || d == 365
  {
    if range == "recent" then 7
    else if range == "week" then 7
    else if range == "month" then 30
    else 365
  }

  /** Whether an article passes the date filter. `dayOf` gives the start of the local day
      containing an instant (what `setHours(0, 0, 0, 0)` computes). */
  predicate DateMatches(a: Article, range: string, now: int, dayOf: int -> int) {
    if range == "today" then dayOf(a.publishedAt) == dayOf(now)
    else a.publishedAt >= now - DaysBack(range) * DayMs
  }

  function SourceStep(s: seq<Article>, source: string): seq<Article> {
    if source != "all" then Filter(s, (a: Article) => SourceMatches(a, source)) else s
  }

  function DateStep(s: seq<Article>, range: string, now: int, dayOf: int -> int): seq<Article> {
    if range != "all" then Filter(s, (a: Article) => DateMatches(a, range, now, dayOf)) else s
  }

  /** `a` may come before `b` under the comparator of `filtered.sort`: newest first for
      "publishedAt", `localeCompare` order of `title || ''` or `source?.name || ''` for
      "title" and "source", and every pair tied (the comparator returns 0) otherwise. */
  function Precedes(sortBy: string): (Article, Article) -> bool {
    if sortBy == "publishedAt" then (a: Article, b: Article) => a.publishedAt >= b.publishedAt
    else if sortBy == "title" then (a: Article, b: Article) => StrLe(OrEmpty(a.title), OrEmpty(b.title))
    else if sortBy == "source" then (a: Article, b: Article) => StrLe(OrEmpty(a.sourceName), OrEmpty(b.sourceName))
    else (a: Article, b: Article) => true
  }

  /** The articles that pass both filters, in input order (before sorting). */
  function Selected(articles: seq<Article>, f: Filters, now: int, dayOf: int -> int): seq<Article> {
    DateStep(SourceStep(articles, f.source), f.dateRange, now, dayOf)
  }

  /** The `filteredArticles` that `applyFilters` computes from the full article list. */
  function Filtered(articles: seq<Article>, f: Filters, now: int, dayOf: int -> int): (r: seq<Article>)
    ensures multiset(r) == multiset(Selected(articles, f, now, dayOf))
  {
    Sort(Selected(articles, f, now, dayOf), Precedes(f.sortBy))
  }

  /** An article is kept when it passes every active filter. */
  predicate Keep(a: Article, f: Filters, now: int, dayOf: int -> int) {
    && (f.source == "all" || SourceMatches(a, f.source))
    && (f.dateRange == "all" || DateMatches(a, f.dateRange, now, dayOf))
  }

  // ---------------------------------------------------------------------------------------
  // Properties of the engine

  lemma PrecedesIsTotalPreorder(sortBy: string)
    ensures TotalPreorder(Precedes(sortBy))
  {
    var le := Precedes(sortBy);
    if sortBy != "publishedAt" && (sortBy == "title" || sortBy == "source") {
      var key := if sortBy == "title" then (a: Article) => OrEmpty(a.title)
                 else (a: Article) => OrEmpty(a.sourceName);
      assert forall a, b :: le(a, b) == StrLe(key(a), key(b));
      forall a, b ensures le(a, b) || le(b, a) {
        StrLeTotal(key(a), key(b));
      }
      forall a, b, c | le(a, b) && le(b, c) ensures le(a, c) {
        StrLeTransitive(key(a), key(b), key(c));
      }
    }
  }

  /** Exactly the articles passing every active filter survive, each with all its occurrences. */
  lemma FilteredSelects(articles: seq<Article>, f: Filters, now: int, dayOf: int -> int)
    ensures |Filtered(articles, f, now, dayOf)| <= |articles|
    ensures forall x :: x in Filtered(articles, f, now, dayOf) <==> x in articles && Keep(x, f, now, dayOf)
    ensures forall x :: multiset(Filtered(articles, f, now, dayOf))[x]
                       == if Keep(x, f, now, dayOf) then multiset(articles)[x] else 0
  {
    var src := SourceStep(articles, f.source);
    if f.source != "all" {
      FilterMultiset(articles, (a: Article) => SourceMatches(a, f.source));
    }
    if f.dateRange != "all" {
      FilterMultiset(src, (a: Article) => DateMatches(a, f.dateRange, now, dayOf));
    }
    var sel := Selected(articles, f, now, dayOf);
    assert multiset(Filtered(articles, f, now, dayOf)) == multiset(sel);
    forall x ensures x in Filtered(articles, f, now, dayOf) <==> x in articles && Keep(x, f, now, dayOf) {
      assert x in Filtered(articles, f, now, dayOf) <==> x in multiset(sel);
      assert x in articles <==> x in multiset(articles);
    }
  }

  /** With source "all" and date range "all" only the order changes. */
  lemma UnfilteredIsPermutation(articles: seq<Article>, f: Filters, now: int, dayOf: int -> int)
    requires f.source == "all" && f.dateRange == "all"
    ensures multiset(Filtered(articles, f, now, dayOf)) == multiset(articles)
  {
  }

  /** A selected source keeps exactly the articles of that source. */
  lemma SourceFilterExact(articles: seq<Article>, f: Filters, now: int, dayOf: int -> int)
    requires f.source != "all" && f.dateRange == "all"
    ensures forall x :: x in Filtered(articles, f, now, dayOf) ==> x.sourceName == Some(f.source)
    ensures forall x :: x in articles && x.sourceName == Some(f.source) ==> x in Filtered(articles, f, now, dayOf)
  {
    FilteredSelects(articles, f, now, dayOf);
  }

  /** Any range other than "all" and "today": kept iff published at or after now - d days,
      where d is 7 for "recent" and "week", 30 for "month" and 365 for "year" or any other
      value. */
  lemma WindowFilterExact(articles: seq<Article>, f: Filters, now: int, dayOf: int -> int)
    requires f.source == "all" && f.dateRange != "all" && f.dateRange != "today"
    ensures var d := if f.dateRange == "recent" || f.dateRange == "week" then 7
                     else if f.dateRange == "month" then 30 else 365;
      forall x :: x in Filtered(articles, f, now, dayOf) <==> x in articles && x.publishedAt >= now - d * 86400000
  {
    FilteredSelects(articles, f, now, dayOf);
  }

  /** "today": kept iff the article's day is today's day. */
  lemma TodayFilterExact(articles: seq<Article>, f: Filters, now: int, dayOf: int -> int)
    requires f.source == "all" && f.dateRange == "today"
    ensures forall x :: x in Filtered(articles, f, now, dayOf) <==> x in articles && dayOf(x.publishedAt) == dayOf(now)
  {
    FilteredSelects(articles, f, now, dayOf);
  }

  /** The output is in the order of the selected sort key. */
  lemma FilteredSorted(articles: seq<Article>, f: Filters, now: int, dayOf: int -> int)
    ensures var r := Filtered(articles, f, now, dayOf);
      && (f.sortBy == "publishedAt" ==> forall i :: 0 <= i < |r| - 1 ==> r[i].publishedAt >= r[i + 1].publishedAt)
      && (f.sortBy == "title" ==> forall i :: 0 <= i < |r| - 1 ==> StrLe(OrEmpty(r[i].title), OrEmpty(r[i + 1].title)))
      && (f.sortBy == "source" ==> forall i :: 0 <= i < |r| - 1 ==> StrLe(OrEmpty(r[i].sourceName), OrEmpty(r[i + 1].sourceName)))
  {
    PrecedesIsTotalPreorder(f.sortBy);
    SortSorted(Selected(articles, f, now, dayOf), Precedes(f.sortBy));
  }

  /** The sort is stable: articles the comparator ties keep their input order, and an
      unknown sort key leaves the selection in input order. */
  lemma FilteredStable(articles: seq<Article>, f: Filters, now: int, dayOf: int -> int, x: Article)
    ensures var le := Precedes(f.sortBy);
      Peers(Filtered(articles, f, now, dayOf), le, x) == Peers(Selected(articles, f, now, dayOf), le, x)
    ensures f.sortBy !in {"publishedAt", "title", "source"} ==>
      Filtered(articles, f, now, dayOf) == Selected(articles, f, now, dayOf)
  {
    PrecedesIsTotalPreorder(f.sortBy);
    SortStable(Selected(articles, f, now, dayOf), Precedes(f.sortBy), x);
    if f.sortBy !in {"publishedAt", "title", "source"} {
      SortTrivial(Selected(articles, f, now, dayOf), Precedes(f.sortBy));
    }
  }

  /** Under the title sort, ties are articles with the same title. */
  lemma TitleTiesAreEqualTitles(a: Article, b: Article)
    ensures Precedes("title")(a, b) && Precedes("title")(b, a) <==> OrEmpty(a.title) == OrEmpty(b.title)
  {
    if Precedes("title")(a, b) && Precedes("title")(b, a) {
      StrLeAntisymmetric(OrEmpty(a.title), OrEmpty(b.title));
    }
    if OrEmpty(a.title) == OrEmpty(b.title) {
      StrLeTotal(OrEmpty(a.title), OrEmpty(b.title));
    }
  }

  /** Start of the UTC day: one possible `dayOf`, used in the example below. */
  function UtcDay(t: int): int {
    t / DayMs * DayMs
  }

  /** Articles published at `t` and 25 hours before `t`, filtered for "today" at `t`:
      only the first is kept. */
  lemma TodayExample(t: int, a: Article, b: Article)
    requires a.publishedAt == t && b.publishedAt == t - 25 * 60 * 60 * 1000
    ensures Filtered([a, b], DefaultFilters.(dateRange := "today"), t, UtcDay) == [a]
  {
    var f := DefaultFilters.(dateRange := "today");
    var p := (x: Article) => DateMatches(x, f.dateRange, t, UtcDay);
    assert UtcDay(b.publishedAt) < UtcDay(t);
    assert [a, b][1..] == [b] && [b][1..] == [];
    assert Filter([b], p) == [];
    assert Selected([a, b], f, t, UtcDay) == Filter([a, b], p) == [a];
  }

  // ---------------------------------------------------------------------------------------
  // The list of sources offered in the source select

  /** `articles.map(article => article.source?.name).filter(Boolean)`. */
  function TruthyNames(articles: seq<Article>): (r: seq<string>)
    ensures forall n :: n in r <==> n != "" && exists a :: a in articles && a.sourceName == Some(n)
  {
    if articles == [] then []
    else
      var a := articles[0];
      assert articles == [a] + articles[1..];
      (if Truthy(a.sourceName) then [a.sourceName.value] else []) + TruthyNames(articles[1..])
  }

  /** `[...new Set(names)]`: the source select's options. */
  function SourceList(articles: seq<Article>): seq<string> {
    Distinct(TruthyNames(articles))
  }

  /** The source list has no duplicates and no empty or missing names, and lists every
      named source. */
  lemma SourceListExact(articles: seq<Article>)
    ensures NoDuplicates(SourceList(articles))
    ensures "" !in SourceList(articles)
    ensures forall n :: n in SourceList(articles) <==> n != "" && exists a :: a in articles && a.sourceName == Some(n)
  {
  }

  // ---------------------------------------------------------------------------------------
  // The fallback choice of `fetchArticles`

  /** The articles `fetchArticles` installs: the API's when the status is "ok" and the list
      is non-empty, the sample articles otherwise (including when the fetch threw). */
  function FetchedOrSample(response: Response, sample: seq<Article>): seq<Article> {
    if response.Received? && response.body.status == "ok" && |response.body.articles| > 0
    then response.body.articles
    else sample
  }

  /** The view never installs an empty list unless the sample is empty, and installs the
      API's list exactly when it was usable. */
  lemma FetchedNeverEmpty(response: Response, sample: seq<Article>)
    ensures |sample| > 0 ==> |FetchedOrSample(response, sample)| > 0
    ensures (response.Received? && response.body.status == "ok" && |response.body.articles| > 0)
            ==> FetchedOrSample(response, sample) == response.body.articles
    ensures response.Threw? ==> FetchedOrSample(response, sample) == sample
    ensures !(response.Received? && response.body.status == "ok" && |response.body.articles| > 0)
            ==> FetchedOrSample(response, sample) == sample
  {
  }

  // ---------------------------------------------------------------------------------------
  // The component

  class FilterComponent {
    var articles: seq<Article>
    var filteredArticles: seq<Article>
    var loading: bool
    var filters: Filters
    var sources: seq<string>
    /** `sampleData.articles`, the bundled fallback. */
    const sample: seq<Article>

    constructor (sample: seq<Article>)
      ensures this.sample == sample
      ensures articles == [] && filteredArticles == [] && !loading && sources == []
      ensures filters == DefaultFilters
    {
      this.sample := sample;
      articles, filteredArticles, loading, sources := [], [], false, [];
      filters := DefaultFilters;
    }

    /** `fetchArticles`, with the network outcome as a parameter. The articles are installed
        unfiltered. */
    method FetchArticles(response: Response)
      modifies this
      ensures articles == FetchedOrSample(response, sample)
      ensures filteredArticles == articles
      ensures sources == SourceList(articles)
      ensures !loading && filters == old(filters)
    {
      loading := true;
      articles := FetchedOrSample(response, sample);
      filteredArticles := articles;
      sources := SourceList(articles);
      loading := false;
    }

    /** `componentDidUpdate`: an empty, idle view falls back to the sample data. */
    method OnUpdate()
      modifies this
      ensures old(|articles| == 0 && !loading) ==>
        articles == sample && filteredArticles == sample && sources == SourceList(sample) && !loading
      ensures !old(|articles| == 0 && !loading) ==>
        articles == old(articles) && filteredArticles == old(filteredArticles) && sources == old(sources) && loading == old(loading)
      ensures filters == old(filters)
    {
      if |articles| == 0 && !loading {
        articles, filteredArticles, sources, loading := sample, sample, SourceList(sample), false;
      }
    }

    /** `applyFilters` at instant `now`: always starts from the full article list, so applying
        the same filters again gives the same result. */
    method ApplyFilters(now: int, dayOf: int -> int)
      modifies this`filteredArticles
      ensures filteredArticles == Filtered(articles, filters, now, dayOf)
    {
      var f := filters;
      var filtered := articles;
      if f.source != "all" {
        filtered := Filter(filtered, (a: Article) => SourceMatches(a, f.source));
      }
      if f.dateRange != "all" {
        filtered := Filter(filtered, (a: Article) => DateMatches(a, f.dateRange, now, dayOf));
      }
      filtered := Sort(filtered, Precedes(f.sortBy));
      filteredArticles := filtered;
    }

    /** `handleFilterChange`: a country change refetches (outcome `response`), any other
        change re-applies the filters. */
    method HandleFilterChange(field: FilterField, value: string, now: int, dayOf: int -> int, response: Response)
      modifies this
      ensures filters == WithField(old(filters), field, value)
      ensures field == Country ==>
        articles == FetchedOrSample(response, sample) && filteredArticles == articles && sources == SourceList(articles)
        && !loading
      ensures field != Country ==>
        articles == old(articles) && sources == old(sources) && filteredArticles == Filtered(articles, filters, now, dayOf)
        && loading == old(loading)
    {
      filters := WithField(filters, field, value);
      if field == Country {
        FetchArticles(response);
      } else {
        ApplyFilters(now, dayOf);
      }
    }

    /** `clearFilters`: back to the default filters, then re-apply (no refetch, even when the
        country was different). */
    method ClearFilters(now: int, dayOf: int -> int)
      modifies this
      ensures filters == DefaultFilters
      ensures articles == old(articles) && sources == old(sources) && loading == old(loading)
      ensures filteredArticles == Filtered(articles, DefaultFilters, now, dayOf)
    {
      filters := DefaultFilters;
      ApplyFilters(now, dayOf);
    }
  }
}
