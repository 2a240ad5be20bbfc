/** The category feed: first load, infinite-scroll pagination, the auto-refresh and
    countdown intervals, and the simulated feed used without a valid API key. */
module News {
  import opened Wrappers
  import opened Articles

  /** Seconds between refreshes; the countdown starts from and wraps to this value. */
  const Period: int := 30

  /** `!apiKey || apiKey === 'undefined' || apiKey === 'dummy_key'`. */
  predicate InvalidKey(apiKey: Option<string>) {
    apiKey.None? || apiKey.value == "" || apiKey.value == "undefined" || apiKey.value == "dummy_key"
  }

  /** `fetchData(url)`: the parsed body unless its status is "error" or the fetch threw, in
      which case the bundled sample body. */
  function FetchData(response: Response, sample: Body): (b: Body)
    ensures response.Threw? ==> b == sample
    ensures response.Received? && response.body.status != "error" ==> b == response.body
    ensures b != sample ==> response.Received? && b == response.body && b.status != "error"
  {
    match response
    case Threw => sample
    case Received(body) => if body.status != "error" then body else sample
  }

  /** Whatever the API answers, a caller never sees an "error" body unless the sample is one. */
  lemma FetchDataNeverError(response: Response, sample: Body)
    requires sample.status != "error"
    ensures FetchData(response, sample).status != "error"
  {
  }

  // ---------------------------------------------------------------------------------------
  // `generateSimulatedNews`

  /** The six templates: title, description and source name. */
  const Templates: seq<(string, string, string)> := [
    ("Breaking: Major Development in Technology Sector",
     "A significant breakthrough has been announced in the technology industry, promising to revolutionize how we interact with digital devices.",
     "Tech News Daily"),
    ("Global Markets React to Economic Policy Changes",
     "Financial markets worldwide are responding to recent policy announcements, with analysts predicting long-term implications for investors.",
     "Business Insider"),
    ("Sports: Championship Game Sets New Records",
     "An incredible performance in last night's championship game has broken several historical records and captivated audiences worldwide.",
     "Sports Central"),
    ("Health & Science: Revolutionary Medical Discovery",
     "Researchers have made a groundbreaking discovery that could lead to new treatments for previously untreatable conditions.",
     "Science Today"),
    ("Entertainment: Award Show Highlights and Controversies",
     "The annual awards ceremony featured stunning performances and unexpected moments that are already trending on social media.",
     "Entertainment Weekly"),
    ("Politics: International Summit Addresses Global Challenges",
     "World leaders gathered for a critical summit to discuss pressing global issues and announce collaborative solutions.",
     "World News")]

  const UrlPrefix := "https://example.com/news/"

  /** The bundled placeholder image the simulated articles point to. */
  const DefaultImage := "dumy.png"

  function DigitChar(n: nat): (c: char)
    requires n < 10
    ensures '0' <= c <= '9'
  {
    ('0' as int + n) as char
  }

  /** The simulated feed at instant `now`; `timeLabel` is `now` as `toLocaleTimeString` shows it. */
  function SimulatedNews(now: int, timeLabel: string): (r: seq<Article>)
    ensures |r| == |Templates| == 6
    ensures forall i :: 0 <= i < |r| ==> r[i].url == UrlPrefix + [DigitChar(i + 1)]
    ensures forall i :: 0 <= i < |r| ==> r[i].publishedAt == now
    ensures forall i :: 0 <= i < |r| ==>
      r[i].title == Some(Templates[i].0 + " (Updated at " + timeLabel + ")")
      && r[i].sourceName == Some(Templates[i].2)
  {
    seq(6, i requires 0 <= i < 6 =>
      Article(Some(Templates[i].0 + " (Updated at " + timeLabel + ")"), Some(Templates[i].1),
              UrlPrefix + [DigitChar(i + 1)], Some(DefaultImage), Some("NewsHub Pro"), now,
              Some(Templates[i].2)))
  }

  /** The simulated articles have pairwise distinct urls `.../news/1` to `.../news/6`. */
  lemma SimulatedUrlsDistinct(now: int, timeLabel: string)
    ensures var r := SimulatedNews(now, timeLabel);
      forall i, j :: 0 <= i < j < |r| ==> r[i].url != r[j].url
  {
    var r := SimulatedNews(now, timeLabel);
    forall i, j | 0 <= i < j < |r| ensures r[i].url != r[j].url {
      assert r[i].url[|UrlPrefix|] == DigitChar(i + 1);
      assert r[j].url[|UrlPrefix|] == DigitChar(j + 1);
    }
  }

  // ---------------------------------------------------------------------------------------
  // Pagination against an API that serves `all` in pages of `size`

  function Min(a: int, b: int): int { if a <= b then a else b }

  /** Page `p` (from 1) of `all`: articles `(p-1)*size` up to `p*size`, fewer at the end. */
  function Page(all: seq<Article>, size: nat, p: nat): seq<Article>
    requires 1 <= p
  {
    var lo := Min((p - 1) * size, |all|);
    var hi := Min(p * size, |all|);
    all[lo..hi]
  }

  /** The list after loading pages 1 to `k`: the mount loads page 1, each `fetchMoreData`
      appends the next page. */
  function Loaded(all: seq<Article>, size: nat, k: nat): seq<Article> {
    if k == 0 then [] else Loaded(all, size, k - 1) + Page(all, size, k)
  }

  lemma {:induction false} LoadedIsPrefix(all: seq<Article>, size: nat, k: nat)
    ensures Loaded(all, size, k) == all[..Min(k * size, |all|)]
  {
    if k > 0 {
      LoadedIsPrefix(all, size, k - 1);
      var lo, hi := Min((k - 1) * size, |all|), Min(k * size, |all|);
      assert k * size == (k - 1) * size + size;
      assert lo <= hi;
      assert all[..lo] + all[lo..hi] == all[..hi];
    }
  }

  /** With `totalResults == |all|`, `hasMore` stays true exactly while fewer than all
      articles are loaded, i.e. while `k * size < |all|`. */
  lemma PaginationStops(all: seq<Article>, size: nat, k: nat)
    ensures (|Loaded(all, size, k)| != |all|) <==> k * size < |all|
  {
    LoadedIsPrefix(all, size, k);
  }

  /** 30 results in pages of 12: after the second load there is more, after the third
      (12 + 12 + 6) there is not. */
  lemma PaginationExample(all: seq<Article>)
    requires |all| == 30
    ensures |Loaded(all, 12, 2)| == 24 && |Loaded(all, 12, 3)| == 30
  {
    LoadedIsPrefix(all, 12, 2);
    LoadedIsPrefix(all, 12, 3);
  }

  // ---------------------------------------------------------------------------------------
  // Intervals

  /** The browser's table of live intervals: `setInterval` hands out positive ids that were
      never handed out before. */
  class IntervalTable {
    var active: set<nat>
    var nextId: nat

    ghost predicate Valid()
      reads this
    {
      nextId > 0 && forall h :: h in active ==> 0 < h < nextId
    }

    constructor ()
      ensures Valid() && active == {}
    {
      active, nextId := {}, 1;
    }

    method SetInterval() returns (h: nat)
      requires Valid()
      modifies this
      ensures Valid()
      ensures h == old(nextId) && 0 < h && nextId > h
      ensures active == old(active) + {h}
    {
      h := nextId;
      active := active + {h};
      nextId := nextId + 1;
    }

    method ClearInterval(h: nat)
      modifies this
      ensures active == old(active) - {h} && nextId == old(nextId)
    {
      active := active - {h};
    }
  }

  function HandleSet(h: Option<nat>): set<nat> {
    if h.Some? then {h.value} else {}
  }

  // ---------------------------------------------------------------------------------------
  // The component

  class FeedComponent {
    const apiKey: Option<string>
    const sample: Body
    const timers: IntervalTable

    var articles: seq<Article>
    var loading: bool
    var page: int
    var totalResults: int
    var autoRefreshEnabled: bool
    var showRefreshNotification: bool
    var countdown: int
    var lastRefresh: Option<int>
    var refreshInterval: Option<nat>
    var countdownInterval: Option<nat>
    /** Every interval id this component has created. */
    ghost var owned: set<nat>

    /** The countdown stays within [0, 30]; of the intervals this component created, exactly
        the ones its two handles name are still live, so at most one of each kind runs. */
    ghost predicate Valid()
      reads this, timers
    {
      && timers.Valid()
      && 0 <= countdown <= Period
      && HandleSet(refreshInterval) + HandleSet(countdownInterval) <= owned
      && (refreshInterval.Some? && countdownInterval.Some? ==> refreshInterval != countdownInterval)
      && timers.active * owned == HandleSet(refreshInterval) + HandleSet(countdownInterval)
      && forall h :: h in owned ==> h < timers.nextId
    }

    /** `hasMore` of the infinite scroll. */
    function HasMore(): bool
      reads this
    {
      |articles| != totalResults
    }

    constructor (apiKey: Option<string>, sample: Body, timers: IntervalTable)
      requires timers.Valid()
      ensures Valid()
      ensures this.apiKey == apiKey && this.sample == sample && this.timers == timers
      ensures articles == [] && loading && page == 1 && totalResults == 0
      ensures autoRefreshEnabled && !showRefreshNotification && countdown == Period
      ensures refreshInterval.None? && countdownInterval.None? && lastRefresh.None?
    {
      this.apiKey, this.sample, this.timers := apiKey, sample, timers;
      articles, loading, page, totalResults := [], true, 1, 0;
      autoRefreshEnabled, showRefreshNotification, countdown := true, false, Period;
      lastRefresh, refreshInterval, countdownInterval := None, None, None;
      owned := {};
    }

    /** `componentDidMount` at instant `now`, with the outcome of the page-1 request. */
    method Mount(response: Response, now: int, timeLabel: string)
      requires Valid()
      modifies this, timers
      ensures Valid()
      ensures InvalidKey(apiKey) ==>
        articles == SimulatedNews(now, timeLabel) && totalResults == |articles| == 6
      ensures !InvalidKey(apiKey) ==>
        articles == FetchData(response, sample).articles && totalResults == FetchData(response, sample).totalResults
      ensures !loading && lastRefresh == Some(now) && page == old(page)
      ensures autoRefreshEnabled == old(autoRefreshEnabled)
      ensures showRefreshNotification == old(showRefreshNotification)
      ensures refreshInterval.Some? && countdownInterval.Some? && countdown == Period
      ensures refreshInterval.value in timers.active && countdownInterval.value in timers.active
      ensures timers.active == old(timers.active) - HandleSet(old(refreshInterval)) - HandleSet(old(countdownInterval))
                               + {refreshInterval.value, countdownInterval.value}
    {
      loading := true;
      if InvalidKey(apiKey) {
        var simulated := SimulatedNews(now, timeLabel);
        articles, totalResults, loading, lastRefresh := simulated, |simulated|, false, Some(now);
        StartAutoRefresh();
        return;
      }
      var data := FetchData(response, sample);
      articles, totalResults, loading, lastRefresh := data.articles, data.totalResults, false, Some(now);
      StartAutoRefresh();
    }

    /** `fetchMoreData`: returns the page number it requests. */
    method FetchMoreData(response: Response) returns (requested: int)
      modifies this
      ensures page == old(page) + 1 && requested == old(page) + 1
      ensures articles == old(articles) + FetchData(response, sample).articles
      ensures old(articles) <= articles
      ensures totalResults == FetchData(response, sample).totalResults
      ensures countdown == old(countdown) && refreshInterval == old(refreshInterval)
      ensures countdownInterval == old(countdownInterval) && owned == old(owned)
      ensures loading == old(loading) && autoRefreshEnabled == old(autoRefreshEnabled)
      ensures lastRefresh == old(lastRefresh) && showRefreshNotification == old(showRefreshNotification)
    {
      requested := page + 1;
      page := page + 1;
      var data := FetchData(response, sample);
      articles := articles + data.articles;
      totalResults := data.totalResults;
    }

    /** `startAutoRefresh`: clear both old intervals, reset the countdown, start two new ones. */
    method StartAutoRefresh()
      requires Valid()
      modifies this, timers
      ensures Valid()
      ensures countdown == Period
      ensures refreshInterval.Some? && countdownInterval.Some?
      ensures timers.active == old(timers.active) - HandleSet(old(refreshInterval)) - HandleSet(old(countdownInterval))
                               + {refreshInterval.value, countdownInterval.value}
      ensures refreshInterval.value !in old(timers.active) && countdownInterval.value !in old(timers.active)
      ensures articles == old(articles) && page == old(page) && totalResults == old(totalResults)
      ensures autoRefreshEnabled == old(autoRefreshEnabled) && loading == old(loading)
      ensures lastRefresh == old(lastRefresh) && showRefreshNotification == old(showRefreshNotification)
    {
      if refreshInterval.Some? {
        timers.ClearInterval(refreshInterval.value);
      }
      if countdownInterval.Some? {
        timers.ClearInterval(countdownInterval.value);
      }
      countdown := Period;
      var c := timers.SetInterval();
      var r := timers.SetInterval();
      countdownInterval, refreshInterval := Some(c), Some(r);
      owned := owned + {c, r};
    }

    /** `stopAutoRefresh`: clear whichever intervals are set and forget them. */
    method StopAutoRefresh()
      requires Valid()
      modifies this, timers
      ensures Valid()
      ensures refreshInterval.None? && countdownInterval.None?
      ensures timers.active == old(timers.active) - HandleSet(old(refreshInterval)) - HandleSet(old(countdownInterval))
      ensures timers.active * owned == {}
      ensures articles == old(articles) && page == old(page) && totalResults == old(totalResults)
      ensures countdown == old(countdown) && autoRefreshEnabled == old(autoRefreshEnabled)
      ensures loading == old(loading) && lastRefresh == old(lastRefresh)
      ensures showRefreshNotification == old(showRefreshNotification)
    {
      if refreshInterval.Some? {
        timers.ClearInterval(refreshInterval.value);
        refreshInterval := None;
      }
      if countdownInterval.Some? {
        timers.ClearInterval(countdownInterval.value);
        countdownInterval := None;
      }
    }

    /** The body of the one-second countdown interval. */
    method CountdownTick()
      requires Valid()
      modifies this
      ensures Valid()
      ensures countdown == if old(countdown) > 0 then old(countdown) - 1 else Period
      ensures articles == old(articles) && page == old(page) && totalResults == old(totalResults)
      ensures loading == old(loading) && autoRefreshEnabled == old(autoRefreshEnabled)
      ensures lastRefresh == old(lastRefresh) && showRefreshNotification == old(showRefreshNotification)
      ensures refreshInterval == old(refreshInterval) && countdownInterval == old(countdownInterval)
      ensures owned == old(owned)
    {
      countdown := if countdown > 0 then countdown - 1 else Period;
    }

    /** `refreshNews` at instant `now`, with the outcome of the page-1 request. */
    method RefreshNews(response: Response, now: int, timeLabel: string)
      requires Valid()
      modifies this
      ensures Valid()
      ensures page == 1 && !loading && showRefreshNotification && lastRefresh == Some(now)
      ensures InvalidKey(apiKey) ==>
        articles == SimulatedNews(now, timeLabel) && totalResults == |articles| == 6
      ensures !InvalidKey(apiKey) ==>
        articles == FetchData(response, sample).articles && totalResults == FetchData(response, sample).totalResults
      ensures countdown == old(countdown) && autoRefreshEnabled == old(autoRefreshEnabled)
      ensures refreshInterval == old(refreshInterval) && countdownInterval == old(countdownInterval)
      ensures owned == old(owned)
    {
      loading := true;
      page := 1;
      if InvalidKey(apiKey) {
        var simulated := SimulatedNews(now, timeLabel);
        articles, totalResults, lastRefresh, loading, showRefreshNotification := simulated, |simulated|, Some(now), false, true;
        return;
      }
      var data := FetchData(response, sample);
      articles, totalResults, loading, lastRefresh, showRefreshNotification := data.articles, data.totalResults, false, Some(now), true;
    }

    /** The body of the three-second timeout that hides the refresh notice. */
    method HideNotification()
      modifies this`showRefreshNotification
      ensures !showRefreshNotification
    {
      showRefreshNotification := false;
    }

    /** The body of the 30-second refresh interval: refresh and reset the countdown, but only
        while auto-refresh is enabled. */
    method RefreshTick(response: Response, now: int, timeLabel: string)
      requires Valid()
      modifies this
      ensures Valid()
      ensures old(autoRefreshEnabled) ==>
        countdown == Period && page == 1 && !loading && showRefreshNotification && lastRefresh == Some(now)
      ensures old(autoRefreshEnabled) && InvalidKey(apiKey) ==>
        articles == SimulatedNews(now, timeLabel) && totalResults == 6
      ensures old(autoRefreshEnabled) && !InvalidKey(apiKey) ==>
        articles == FetchData(response, sample).articles && totalResults == FetchData(response, sample).totalResults
      ensures !old(autoRefreshEnabled) ==>
        countdown == old(countdown) && page == old(page) && articles == old(articles)
        && totalResults == old(totalResults) && lastRefresh == old(lastRefresh)
        && loading == old(loading) && showRefreshNotification == old(showRefreshNotification)
      ensures refreshInterval == old(refreshInterval) && countdownInterval == old(countdownInterval)
      ensures autoRefreshEnabled == old(autoRefreshEnabled) && owned == old(owned)
    {
      if autoRefreshEnabled {
        RefreshNews(response, now, timeLabel);
        countdown := Period;
      }
    }

    /** `toggleAutoRefresh`: flip the flag, then start both intervals when it is on and stop
        both when it is off. */
    method ToggleAutoRefresh()
      requires Valid()
      modifies this, timers
      ensures Valid()
      ensures autoRefreshEnabled == !old(autoRefreshEnabled)
      ensures autoRefreshEnabled ==>
        refreshInterval.Some? && countdownInterval.Some? && countdown == Period
        && refreshInterval.value in timers.active && countdownInterval.value in timers.active
      ensures !autoRefreshEnabled ==>
        refreshInterval.None? && countdownInterval.None? && timers.active * owned == {}
        && countdown == old(countdown)
      ensures autoRefreshEnabled ==>
        timers.active == old(timers.active) - HandleSet(old(refreshInterval)) - HandleSet(old(countdownInterval))
                         + {refreshInterval.value, countdownInterval.value}
      ensures !autoRefreshEnabled ==> timers.active == old(timers.active) - HandleSet(old(refreshInterval)) - HandleSet(old(countdownInterval))
      ensures articles == old(articles) && page == old(page) && totalResults == old(totalResults)
      ensures loading == old(loading) && lastRefresh == old(lastRefresh)
      ensures showRefreshNotification == old(showRefreshNotification)
    {
      autoRefreshEnabled := !autoRefreshEnabled;
      if autoRefreshEnabled {
        StartAutoRefresh();
      } else {
        StopAutoRefresh();
      }
    }

    /** `componentWillUnmount`: no interval of this component is left running. */
    method Unmount()
      requires Valid()
      modifies this, timers
      ensures Valid()
      ensures refreshInterval.None? && countdownInterval.None? && timers.active * owned == {}
      ensures timers.active == old(timers.active) - HandleSet(old(refreshInterval)) - HandleSet(old(countdownInterval))
      ensures articles == old(articles) && page == old(page) && totalResults == old(totalResults)
      ensures countdown == old(countdown) && autoRefreshEnabled == old(autoRefreshEnabled)
      ensures loading == old(loading) && lastRefresh == old(lastRefresh)
      ensures showRefreshNotification == old(showRefreshNotification)
    {
      StopAutoRefresh();
    }
  }

  // ---------------------------------------------------------------------------------------
  // The component against a paginating API

  /** The API's answer to the request for page `p` when it serves `all` in pages of `size`. */
  function ServerPage(all: seq<Article>, size: nat, p: nat): (r: Response)
    requires 1 <= p
    ensures r.Received? && r.body.status == "ok" && r.body.totalResults == |all|
    ensures r.body.articles == all[Min((p - 1) * size, |all|)..Min(p * size, |all|)]
  {
    Received(Body("ok", Page(all, size, p), |all|))
  }

  /** Mounting a fresh feed with a valid key and then scrolling until page `k` is loaded,
      each request answered by that API: the component holds `Loaded(all, size, k)`, and its
      `hasMore` is true exactly while `k * size < |all|`. */
  method ScrollTo(c: FeedComponent, all: seq<Article>, size: nat, k: nat, now: int, timeLabel: string)
    requires c.Valid() && c.page == 1 && !InvalidKey(c.apiKey) && 1 <= k
    modifies c, c.timers
    ensures c.page == k && c.totalResults == |all|
    ensures c.articles == Loaded(all, size, k) == all[..Min(k * size, |all|)]
    ensures c.HasMore() <==> k * size < |all|
  {
    c.Mount(ServerPage(all, size, 1), now, timeLabel);
    assert Loaded(all, size, 0) == [];
    while c.page < k
      invariant 1 <= c.page <= k
      invariant c.articles == Loaded(all, size, c.page) && c.totalResults == |all|
      decreases k - c.page
    {
      var requested := c.FetchMoreData(ServerPage(all, size, c.page + 1));
      assert requested == c.page;
    }
    LoadedIsPrefix(all, size, k);
    PaginationStops(all, size, k);
  }
}
