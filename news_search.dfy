/** The search page: a blank query is ignored, an "ok" answer is shown as is, and any other
    outcome falls back to a case-insensitive substring search over the sample articles. */
module NewsSearch {
  import opened Wrappers
  import opened Strings
  import opened Seqs
  import opened Articles

  /** `field?.toLowerCase().includes(query.toLowerCase())`; a missing field is falsy. */
  predicate FieldMatches(field: Option<string>, query: string) {
    field.Some? && Contains(ToLower(field.value), ToLower(query))
  }

  predicate Matches(a: Article, query: string) {
    FieldMatches(a.title, query) || FieldMatches(a.description, query)
  }

  /** The sample-data fallback of `handleSearch`. */
  function SearchFallback(sample: seq<Article>, query: string): (r: seq<Article>)
    ensures |r| <= |sample|
    ensures forall i :: 0 <= i < |r| ==> Matches(r[i], query)
    ensures forall a :: a in r <==> a in sample && Matches(a, query)
  {
    FilterMembers(sample, a => Matches(a, query));
    Filter(sample, a => Matches(a, query))
  }

  /** The fallback keeps exactly the matching sample articles, each as often as it occurs,
      in sample order. */
  lemma SearchFallbackExact(sample: seq<Article>, query: string)
    ensures IsSubsequence(SearchFallback(sample, query), sample)
    ensures forall a ::
      multiset(SearchFallback(sample, query))[a] == (if Matches(a, query) then multiset(sample)[a] else 0)
  {
    FilterSubsequence(sample, a => Matches(a, query));
    FilterMultiset(sample, a => Matches(a, query));
  }

  /** The case of the query does not change the result. */
  lemma SearchIsCaseInsensitive(sample: seq<Article>, query: string)
    ensures SearchFallback(sample, ToLower(query)) == SearchFallback(sample, query)
  {
    ToLowerIdempotent(query);
    FilterCongruent(sample, a => Matches(a, ToLower(query)), a => Matches(a, query));
  }

  class SearchComponent {
    const sample: seq<Article>
    var articles: seq<Article>
    var loading: bool
    var searchQuery: string
    var searchPerformed: bool

    constructor (sample: seq<Article>)
      ensures this.sample == sample
      ensures articles == [] && !loading && searchQuery == "" && !searchPerformed
    {
      this.sample := sample;
      articles, loading, searchQuery, searchPerformed := [], false, "", false;
    }

    /** The input's `onChange`. */
    method SetQuery(q: string)
      modifies this`searchQuery
      ensures searchQuery == q
    {
      searchQuery := q;
    }

    /** `handleSearch`, given the outcome of the request. The fallback filters by the query
        as typed, untrimmed. */
    method HandleSearch(response: Response)
      modifies this
      ensures searchQuery == old(searchQuery)
      ensures Trim(searchQuery) == [] ==>
        articles == old(articles) && loading == old(loading) && searchPerformed == old(searchPerformed)
      ensures Trim(searchQuery) != [] ==> searchPerformed && !loading
      ensures Trim(searchQuery) != [] && response.Received? && response.body.status == "ok" ==>
        articles == response.body.articles
      ensures Trim(searchQuery) != [] && !(response.Received? && response.body.status == "ok") ==>
        articles == SearchFallback(sample, searchQuery)
    {
      if Trim(searchQuery) == [] {
        return;
      }
      loading, searchPerformed := true, true;
      if response.Received? && response.body.status == "ok" {
        articles, loading := response.body.articles, false;
      } else {
        articles, loading := SearchFallback(sample, searchQuery), false;
      }
    }
  }
}
