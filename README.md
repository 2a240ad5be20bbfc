# NewsHub Pro: a verified model of the news reader's state logic

NewsHub Pro is a React single-page news reader. Its components fetch headlines from
NewsAPI. When there is no API key, when the API reports an error or when the network
fails, they fall back to bundled sample articles or to a generated feed. They keep
bookmarks, reading statistics, share counters and settings in the browser's `localStorage`.

This project models the browser-independent logic of those components in Dafny and proves
what it promises:

- the category feed (`News`): the fallback choice between the API body and the sample data;
  the API-key check; the simulated feed; infinite-scroll pagination and `hasMore`; the
  auto-refresh and countdown intervals, of which at most one of each kind is ever live;
- the advanced filter view (`NewsFilter`): the source and date-range filters followed by a
  stable sort on the chosen key; the source list offered in the source select;
- an article card (`NewsItem`): the bookmark toggle and the reading-statistics record
  kept when the article is opened;
- the bookmarks page (`NewsBookmark`): removal by url and clearing;
- the share buttons (`NewsShare`): the per-platform share counters, their totals and their
  persistence;
- the analytics page (`NewsAnalytics`): the totals, the category tally in insertion order,
  the top five categories and the reading-time text;
- the settings page (`NewsSettings`): defaults merged under saved settings, single-key
  updates, reset, import, and the body's theme class;
- the search page (`NewsSearch`): the blank-query guard, the status branch and the
  case-insensitive substring fallback over the sample articles.

Each React component is a `class` whose fields are the component's state. Its handlers are
methods with `modifies` clauses. Each method's `ensures` gives the new value of every field
its frame lets it change, including the ones it leaves unchanged. The one exception is the
interval table's internal id counter, of which only the class invariants speak: it stays above
every live id and every id the component has created.
`localStorage` is one `Storage.Slot<T>` object per key. Each slot holds the parsed value, or
`None` when the key is absent. The browser's interval table is the class
`News.IntervalTable`. The parts that compute values are functions, and lemmas state their
properties. The shared modules hold those functions: `Seqs` (an order-preserving filter,
subsequences, duplicate removal), `Sorting` (a stable insertion sort standing in for
`Array.prototype.sort`) and `Strings` (code-point order, ASCII lower-casing, substring search,
`trim`). `Articles` holds the record types and `Wrappers` the `Option` type.

Inputs from outside the program are parameters:

- the outcome of each `fetch` is a `Response`: `Threw`, or `Received(body)` with the parsed body;
- the current instant is `now`, in milliseconds;
- the local start-of-day function is `dayOf`;
- the locale time text is `timeLabel`;
- the insertion order of an object's keys is `order`;
- the result of `JSON.parse` on an imported file is `parsed`.

One consequence of the bookmark toggle is stated by its contract rather than a property:
`NewsItem.ItemComponent.ToggleBookmark` branches on the card's own `isBookmarked` flag, read
when the card was built. So two cards with the same url can each append a record, and the
stored list then holds that url twice.

## Model

| member | source | states |
|---|---|---|
| News.FetchData | src/components/news/News.js:100-113 | A thrown fetch gives the sample body. A received body other than "error" is returned as is. Any body other than the sample is the received one, with a status other than "error". |
| News.FetchDataNeverError | src/components/news/News.js:105-111 | When the sample is not an "error" body, callers never see a body whose status is "error". |
| News.InvalidKey | src/components/news/News.js:119 | Definition of the key check: a missing or empty key, "undefined" and "dummy_key" count as no key. Mount and RefreshNews branch on it. |
| News.SimulatedNews | src/components/news/News.js:22-64 | The simulated feed has exactly six articles, one per template, in template order. Article i has url `https://example.com/news/<i+1>`, the instant `now`, the template's source, and the template's title followed by ` (Updated at <time>)`. |
| News.SimulatedUrlsDistinct | src/components/news/News.js:56-58 | The six simulated urls are pairwise distinct. |
| News.Page | src/components/news/News.js:134 | Definition of page p of the server list: results (p-1)·size up to p·size, fewer at the end. LoadedIsPrefix works out what it means. |
| News.Loaded | src/components/news/News.js:147-155 | Definition of the list after the mount and k-1 scrolls. LoadedIsPrefix gives it in closed form. |
| News.LoadedIsPrefix | src/components/news/News.js:134-155 | Loading page 1 and appending pages 2..k gives exactly the first min(k·size, N) results of the server's list, in order. |
| News.PaginationStops | src/components/news/News.js:328 | For the pure list `Loaded`, with `totalResults` equal to the list length N: the list differs in length from N after k loads iff k·size < N. ScrollTo carries this over to the component. |
| News.PaginationExample | src/components/news/News.js:328 | For 30 results in pages of 12, two loads give 24 articles (more to load) and three give 30 (none left). |
| News.ScrollTo | src/components/news/News.js:115-155 | Mounting a fresh feed with a valid key and scrolling until page k, each request answered with its page: the component holds exactly `Loaded(all, size, k)`, its page is k, its total is N, and its `hasMore` holds iff k·size < N. |
| News.FeedComponent.constructor | src/components/news/News.js:82-98 | Initial state: no articles, loading, page 1, total 0, auto-refresh on, countdown 30, no notification, no last refresh, both interval handles null. |
| News.FeedComponent.HasMore | src/components/news/News.js:328 | Definition of `hasMore`: the list length differs from `totalResults`. ScrollTo states it in terms of pages. |
| News.FeedComponent.Mount | src/components/news/News.js:115-145 | An invalid key installs the six simulated articles with total 6. Otherwise the page-1 fetch result (after the fallback) is installed. Either way loading ends, the last-refresh time is `now`, and both intervals are started with the countdown at 30. The live-interval table loses this component's old handles, gains the two new ones, and keeps every other interval. The page, the auto-refresh flag and the notification are unchanged. |
| News.FeedComponent.FetchMoreData | src/components/news/News.js:147-155 | The page goes up by one and page+1 is requested. The new list is the old list followed by the fetched articles, so the old list is a prefix. The total becomes the fetched total. Timers, countdown, loading, the auto-refresh flag, the last-refresh time and the notification are unchanged. |
| News.FeedComponent.StartAutoRefresh | src/components/news/News.js:157-183 | Both old intervals are cleared and two fresh ones become live. The countdown is 30. Afterwards exactly one countdown and one refresh interval of this component are live (the class invariant). |
| News.FeedComponent.StopAutoRefresh | src/components/news/News.js:185-194 | Both live intervals are cleared and both handles become null. No interval of this component stays live. Every state field (articles, page, total, countdown, loading, flag, last refresh, notification) is unchanged. |
| News.FeedComponent.CountdownTick | src/components/news/News.js:170-174 | The countdown goes c to c-1 when c > 0 and 0 to 30, so 0 ≤ countdown ≤ 30 is preserved. Every other state field and both handles are unchanged. |
| News.FeedComponent.RefreshTick | src/components/news/News.js:177-182 | When auto-refresh is enabled, the feed refreshes as RefreshNews does (page 1, simulated or fetched articles and total, loading off, notification shown, last refresh `now`) and the countdown resets to 30. When it is disabled, no state field changes. The handles and the flag are unchanged either way. |
| News.FeedComponent.RefreshNews | src/components/news/News.js:196-236 | The page resets to 1, the notification shows and the last-refresh time is `now`. The articles are the simulated feed (total 6) for an invalid key, and the page-1 fetch result otherwise. The countdown and the timers are untouched. |
| News.FeedComponent.HideNotification | src/components/news/News.js:216-218 | The refresh notification is hidden. |
| News.FeedComponent.ToggleAutoRefresh | src/components/news/News.js:238-248 | The enabled flag flips. When enabled, both handles are set and live with the countdown at 30. The live-interval table loses the old handles and gains the new ones. When disabled, both are null, the table loses exactly the old handles, none of this component's intervals is live, and the countdown is unchanged. Every other interval stays live. Articles, page, total, loading, last refresh and notification are unchanged. |
| News.FeedComponent.Unmount | src/components/news/News.js:250-252 | After unmounting, both handles are null. The live-interval table loses exactly this component's handles, so every other interval stays live. Every state field is unchanged. |
| NewsFilter.WithField | src/components/NewsFilter.js:93-97 | Only the named filter field takes the new value. The other three keep theirs. |
| NewsFilter.DaysBack | src/components/NewsFilter.js:135-143 | A range other than "today" reaches back 7, 30 or 365 days. Which range gives which window is stated by WindowFilterExact. |
| NewsFilter.DateMatches | src/components/NewsFilter.js:145-161 | Definition of the date test: the same local day for "today", otherwise published at or after the cutoff. TodayFilterExact and WindowFilterExact state it over a list. |
| NewsFilter.Precedes | src/components/NewsFilter.js:170-179 | Definition of the comparator as an order: newest first, `localeCompare` of `title \|\| ''` or `source?.name \|\| ''`, or all tied. PrecedesIsTotalPreorder shows each is a total preorder. |
| NewsFilter.Selected | src/components/NewsFilter.js:115-167 | Definition of the two filter steps in input order. FilteredSelects states what they keep. |
| NewsFilter.Filtered | src/components/NewsFilter.js:108-183 | The sort only reorders: the result is a permutation of the selected articles. |
| NewsFilter.Keep | src/components/NewsFilter.js:115-167 | Definition of passing every active filter. FilteredSelects shows the result holds exactly the kept articles. |
| NewsFilter.PrecedesIsTotalPreorder | src/components/NewsFilter.js:170-179 | Each of the four comparators (newest first, title order, source order, all tied) is total and transitive. |
| NewsFilter.FilteredSelects | src/components/NewsFilter.js:108-183 | `applyFilters` keeps exactly the articles that pass every active filter, each with all its occurrences, and never lengthens the list. |
| NewsFilter.UnfilteredIsPermutation | src/components/NewsFilter.js:110-126 | With both filters at "all", the result is a permutation of the articles. |
| NewsFilter.SourceFilterExact | src/components/NewsFilter.js:116-123 | A chosen source keeps exactly the articles whose source name equals it. |
| NewsFilter.WindowFilterExact | src/components/NewsFilter.js:135-161 | Any range other than "all" and "today" keeps exactly the articles published at or after now minus d days: d is 7 for "recent" and "week", 30 for "month", and 365 for "year" and every other value. |
| NewsFilter.TodayFilterExact | src/components/NewsFilter.js:130-155 | "today" keeps exactly the articles whose local day is today's. |
| NewsFilter.FilteredSorted | src/components/NewsFilter.js:170-179 | The result is ordered newest first for "publishedAt", by `title \|\| ''` for "title" and by `source?.name \|\| ''` for "source". |
| NewsFilter.FilteredStable | src/components/NewsFilter.js:170-179 | Articles the comparator ties keep their relative order. An unknown sort key leaves the filtered list in input order. |
| NewsFilter.TitleTiesAreEqualTitles | src/components/NewsFilter.js:173-174 | Under the title sort, two articles tie iff their titles (missing read as '') are equal. |
| NewsFilter.TodayExample | src/components/NewsFilter.js:149-155 | Of two articles published now and 25 hours ago, "today" keeps only the first. |
| NewsFilter.TruthyNames | src/components/NewsFilter.js:61 | The mapped and `filter(Boolean)`ed names are exactly the non-empty source names that occur. |
| NewsFilter.SourceList | src/components/NewsFilter.js:61 | Definition of the source select's options. SourceListExact states their properties. |
| NewsFilter.SourceListExact | src/components/NewsFilter.js:61 | The source select lists each non-empty source name exactly once, and no other name. |
| NewsFilter.FetchedNeverEmpty | src/components/NewsFilter.js:47-90 | The API's articles are used iff the status is "ok" and the list is non-empty. In every other case, including a thrown fetch, a non-"ok" status or an empty list, the sample is used. So a non-empty sample means a non-empty list. |
| NewsFilter.FetchedOrSample | src/components/NewsFilter.js:59-89 | Definition of the fallback choice of `fetchArticles`. FetchedNeverEmpty states both directions. |
| NewsFilter.FilterComponent.constructor | src/components/NewsFilter.js:8-29 | Starts with no articles, no sources, not loading, and the default filters. |
| NewsFilter.FilterComponent.FetchArticles | src/components/NewsFilter.js:47-90 | Installs the fetched or sample articles unfiltered, with their source list, and stops loading. The filters are unchanged. |
| NewsFilter.FilterComponent.OnUpdate | src/components/NewsFilter.js:35-45 | An empty, idle view loads the sample articles and their sources. Any other state is left unchanged. |
| NewsFilter.FilterComponent.ApplyFilters | src/components/NewsFilter.js:108-183 | `filteredArticles` becomes the filtered and sorted full list, which the lemmas above characterise. Nothing else changes. |
| NewsFilter.FilterComponent.HandleFilterChange | src/components/NewsFilter.js:92-106 | The named field changes. A country change refetches and ends loading. Any other change re-applies the filters to the unchanged articles and leaves loading as it was. |
| NewsFilter.FilterComponent.ClearFilters | src/components/NewsFilter.js:185-194 | The filters return to the defaults and are re-applied to the unchanged articles, without refetching. Sources and loading are unchanged. |
| NewsItem.WithoutUrlExact | src/components/news/NewsItem.js:39 | Removing a url drops every bookmark with that url. It keeps the rest in order, each with its multiplicity, so duplicates of a kept bookmark stay. A list without that url is unchanged. |
| NewsItem.HasUrl | src/components/news/NewsItem.js:16 | Definition of `bookmarks.some(b => b.url === url)`. |
| NewsItem.WithoutUrl | src/components/news/NewsItem.js:39 | Definition of `bookmarks.filter(b => b.url !== url)`. WithoutUrlExact states what it keeps. |
| NewsItem.BookmarkOf | src/components/news/NewsItem.js:27-36 | The saved record carries the card's url. |
| NewsItem.AddThenRemove | src/components/news/NewsItem.js:38-45 | Adding a bookmark for an absent url makes it bookmarked. Removing the url again restores the list. |
| NewsItem.ReadMore | src/components/news/NewsItem.js:49-67 | An absent url gets a record with reading time 0 and read count 1. A present one gets its read count plus one. Both get the new last-read time, and every other url's record is unchanged. |
| NewsItem.ItemComponent.constructor | src/components/news/NewsItem.js:6-17 | The initial flag is whether stored bookmarks contain this card's url. |
| NewsItem.ItemComponent.CheckIfBookmarked | src/components/news/NewsItem.js:14-17 | Definition: whether the stored list, `[]` when the key is absent, holds this card's url. |
| NewsItem.ItemComponent.ToggleBookmark | src/components/news/NewsItem.js:25-47 | A bookmarked card stores the list without its url. Otherwise the card's record is appended. Afterwards the flag agrees with storage. |
| NewsItem.ItemComponent.HandleReadMore | src/components/news/NewsItem.js:49-67 | Stores the updated statistics object. |
| NewsItem.ToggleTwice | src/components/news/NewsItem.js:25-47 | Toggling an unbookmarked card twice leaves the list that a load reads unchanged, also when the key was absent. When the key was present, the stored value is exactly as before. |
| NewsBookmark.BookmarkComponent.constructor | src/components/NewsBookmark.js:6-11 | The page starts with the stored list, `[]` when the key is absent. |
| NewsBookmark.BookmarkComponent.RemoveBookmark | src/components/NewsBookmark.js:13-17 | State and storage both hold the list without the url. |
| NewsBookmark.BookmarkComponent.ClearAllBookmarks | src/components/NewsBookmark.js:19-22 | The state is empty and the key is removed, so a later load reads `[]`. |
| NewsBookmark.RemoveIdempotent | src/components/NewsBookmark.js:13-17 | Removing a url twice equals removing it once. |
| NewsShare.AddShare | src/components/NewsShare.js:49-90 | An unknown platform changes nothing. A known one records the url, and every other url's record is unchanged. |
| NewsShare.Count | src/components/NewsShare.js:85 | Definition of `shares[platform] \|\| 0`. AddShareCounts states how a share changes it. |
| NewsShare.AddShareCounts | src/components/NewsShare.js:77-87 | A known platform adds exactly one to its own count and to the total, starting from an empty record for a new url. Other platforms' counts are unchanged. |
| NewsShare.AddSharePreservesConsistency | src/components/NewsShare.js:77-87 | Each record's total stays the sum of its per-platform counts. |
| NewsShare.TotalIsSumOfPlatformCounts | src/components/NewsShare.js:95-106 | `getShareCount(url)` equals the sum of the five per-platform answers. |
| NewsShare.ShareCount | src/components/NewsShare.js:95-106 | Definition of `getShareCount`. TotalIsSumOfPlatformCounts relates the total to the per-platform answers. |
| NewsShare.SharesLostAsWritten | src/components/NewsShare.js:13 | With the `'[]'` default, the first share counts 1 in state but 0 after a reload. |
| NewsShare.Stringified | src/components/NewsShare.js:89 | Definition of what survives `JSON.stringify` and a reload: an array loses its url-keyed entries. SharesLostAsWritten and SharesPersist state the consequence. |
| NewsShare.Load | src/components/NewsShare.js:13 | Definition of the corrected load, with default `'{}'`. SharesPersist and LoadsDifferOnlyWhenAbsent state its properties. |
| NewsShare.LoadAsWritten | src/components/NewsShare.js:13 | Definition of the load as written, with default `'[]'`. SharesLostAsWritten shows the share it loses. |
| NewsShare.LoadsDifferOnlyWhenAbsent | src/components/NewsShare.js:13 | The two loads agree iff the key is present. When it is absent, the corrected one reads a plain object and the one as written reads an array. |
| NewsShare.SharesPersist | src/components/NewsShare.js:13 | With the corrected load, the stored table reloads to exactly the state. |
| NewsShare.ShareComponent.constructor | src/components/NewsShare.js:8-15 | The state is the loaded table. |
| NewsShare.ShareComponent.ShareArticle | src/components/NewsShare.js:49-93 | An unknown platform changes neither state nor storage. A known one counts the share and stores the table. Consistency is preserved. |
| NewsShare.ShareComponent.GetShareCount | src/components/NewsShare.js:95-106 | Definition: `getShareCount` on the component's table. |
| NewsAnalytics.CategorizedCount | src/components/NewsAnalytics.js:27-29 | At most one category count per record. |
| NewsAnalytics.CategoryCount | src/components/NewsAnalytics.js:27-28 | Definition of the number of records with a given truthy category. TallyCounts equates it with the tallied count. |
| NewsAnalytics.Bump | src/components/NewsAnalytics.js:28 | The bumped category goes up by one (created at 1), the others are unchanged, the keys stay distinct, and the total goes up by one. |
| NewsAnalytics.Tally | src/components/NewsAnalytics.js:24-30 | The tallied categories are distinct. TallyCounts states each count. |
| NewsAnalytics.TimeSum | src/components/NewsAnalytics.js:26 | Definition of the running sum of `readingTime \|\| 0`. CalculateStats is proved against it. |
| NewsAnalytics.TallyCounts | src/components/NewsAnalytics.js:22-30 | Each category's count is the number of records with that truthy category. The keys are exactly the categories that occur. The counts sum to at most the number of records. |
| NewsAnalytics.TopCategoriesOrdered | src/components/NewsAnalytics.js:39-44 | There are min(5, number of categories) entries, in non-increasing count order, drawn from the tally with no entry repeated beyond its multiplicity there (a sub-multiset). |
| NewsAnalytics.TopCategoriesBest | src/components/NewsAnalytics.js:41-43 | No entry left out of the top five has a larger count than one kept. |
| NewsAnalytics.TopCategories | src/components/NewsAnalytics.js:39-44 | Definition of sort-by-count then `slice(0, 5)`. TopCategoriesOrdered and TopCategoriesBest state its properties. |
| NewsAnalytics.ByCountDesc | src/components/NewsAnalytics.js:42 | Definition of the comparator `b - a` as an order: larger counts first. TopCategoriesOrdered states the resulting order. |
| NewsAnalytics.FormatReadingTime | src/components/NewsAnalytics.js:46-51 | Below 60 the text is in minutes. Otherwise it is hours and minutes with h·60+m equal to the input, 0 ≤ m < 60 and h ≥ 1. |
| NewsAnalytics.KeyOrderLength | src/components/NewsAnalytics.js:24-25 | A duplicate-free key order has one entry per key, so `totalRead` is the number of records. |
| NewsAnalytics.ValuesExact | src/components/NewsAnalytics.js:24 | Along a key order, `Object.values` has one record per stored key, and its members are exactly the stored records. |
| NewsAnalytics.Values | src/components/NewsAnalytics.js:24 | Definition of `Object.values` along a key order. ValuesExact states its size and members. |
| NewsAnalytics.AnalyticsComponent.constructor | src/components/NewsAnalytics.js:4-12 | The totals start at zero with no categories. |
| NewsAnalytics.AnalyticsComponent.CalculateStats | src/components/NewsAnalytics.js:18-37 | The total read is the number of records and the reading time is the sum of `readingTime \|\| 0`. Each category's count is its number of records, and the counts sum to at most the total read. |
| NewsAnalytics.AnalyticsComponent.GetTopCategories | src/components/NewsAnalytics.js:39-44 | Definition: `getTopCategories` on the component's tally. |
| NewsSettings.MergeDefaults | src/components/NewsSettings.js:26 | Saved values win, and every default key is present. |
| NewsSettings.WithSetting | src/components/NewsSettings.js:32 | Exactly one key takes the new value. |
| NewsSettings.MergeIdempotent | src/components/NewsSettings.js:24-29 | Merging the defaults a second time changes nothing. |
| NewsSettings.ThemeClasses | src/components/NewsSettings.js:42-51 | Exactly one of the two theme classes is set: the dark one iff the theme is "dark". The body's other classes are untouched. |
| NewsSettings.SettingsComponent.constructor | src/components/NewsSettings.js:4-22 | The settings are the stored object, `{}` when absent. |
| NewsSettings.SettingsComponent.Mount | src/components/NewsSettings.js:24-29 | The merged settings, which hold every default key, are in both state and storage. |
| NewsSettings.SettingsComponent.ApplyTheme | src/components/NewsSettings.js:42-51 | The body's classes become the theme classes for the given theme. |
| NewsSettings.SettingsComponent.HandleSettingChange | src/components/NewsSettings.js:31-40 | Updates state and storage. Only a "theme" change touches the body's classes. |
| NewsSettings.SettingsComponent.ResetSettings | src/components/NewsSettings.js:53-57 | The defaults are in state and storage. The body's classes become the light-theme classes of the old ones, so every class other than the two theme classes is kept. |
| NewsSettings.SettingsComponent.ImportSettings | src/components/NewsSettings.js:71-87 | A file that fails to parse changes nothing. A parsed file replaces the settings, without merging defaults, and applies its theme. |
| NewsSearch.SearchFallback | src/components/NewsSearch.js:37-40 | The fallback never lengthens the list. It keeps an article iff its lower-cased title or description contains the lower-cased query. |
| NewsSearch.SearchFallbackExact | src/components/NewsSearch.js:37-40 | The fallback is a subsequence of the sample articles and keeps every occurrence of each match. |
| NewsSearch.SearchIsCaseInsensitive | src/components/NewsSearch.js:38-39 | Lower-casing the query does not change the result. |
| NewsSearch.SearchComponent.constructor | src/components/NewsSearch.js:8-16 | Starts with no articles, not loading, an empty query, and no search performed. |
| NewsSearch.SearchComponent.SetQuery | src/components/NewsSearch.js:70 | The query becomes the typed text. |
| NewsSearch.SearchComponent.HandleSearch | src/components/NewsSearch.js:18-54 | A query that is blank after `trim` changes nothing. Otherwise a search is marked performed and loading ends. An "ok" body's articles are shown unchanged. Anything else shows the sample fallback for the untrimmed query. |
| Sorting.SortSorted | src/components/NewsFilter.js:170-179 | Under a total preorder the sort's output is sorted. |
| Sorting.SortStable | src/components/NewsFilter.js:170-179 | Elements tied with a given one keep their relative order. |
| Sorting.Sort | src/components/NewsFilter.js:170-179 | The sort keeps the length and is a permutation of its input. SortSorted and SortStable state the order. |
| Seqs.FilterMultiset | src/components/NewsFilter.js:117-121 | `Array.prototype.filter` keeps every occurrence of a passing element and drops the rest. |
| Seqs.FilterMembers | src/components/news/NewsItem.js:39 | An element survives `filter` iff it occurs and passes the predicate. |
| Seqs.Filter | src/components/NewsFilter.js:117-121 | `filter` never lengthens the list, and every element it keeps passes the predicate. FilterMembers and FilterMultiset state exactly what is kept. |
| Seqs.Distinct | src/components/NewsFilter.js:61 | `[...new Set(xs)]` has no duplicates and the same members. |
| Strings.TrimEmpty | src/components/NewsSearch.js:20 | `trim()` is empty iff every character is JavaScript whitespace. |
| Strings.Trim | src/components/NewsSearch.js:20 | Definition of `trim()` as TrimStart then TrimEnd. TrimEmpty states when the result is empty. |
| Strings.ContainsAt | src/components/NewsSearch.js:38-39 | `includes` holds iff the substring occurs at some position. |
| Strings.Contains | src/components/NewsSearch.js:38-39 | Definition of `includes`. ContainsAt states it as an occurrence at some offset. |
| Strings.ToLowerIdempotent | src/components/NewsSearch.js:38-39 | Lower-casing twice equals lower-casing once. |
| Strings.ToLower | src/components/NewsSearch.js:38-39 | Definition of `toLowerCase` on ASCII letters, character by character. ToLowerIdempotent and SearchIsCaseInsensitive state its properties. |
| Storage.Slot.SetItem | src/components/news/NewsItem.js:40 | After `setItem(v)`, every later load returns v whatever its fallback. |
| Storage.Slot.RemoveItem | src/components/NewsBookmark.js:21 | After `removeItem`, every later load returns its fallback. |
| Storage.Slot.Load | src/components/news/NewsItem.js:15 | Definition of `JSON.parse(getItem(k) \|\| fallback)`. SetItem and RemoveItem state what a load then returns. |

## Left out

- Rendering (JSX, Bootstrap classes, spinners, the `InfiniteScroll` widget) is left out. Only the state that the rendering reads is modelled.
- `src/App.js` and `src/components/Navbar.js` are not part of this model: they only route and present.
- The network is a parameter. Each `fetch` is reduced to its parsed body or `Threw`. URLs, query strings and `encodeURIComponent` are not modelled, and neither is a body whose `json()` fails apart from a thrown fetch.
- A body missing its `articles` field is left out: the model's `Body` always has a list, so the `data.articles || []` default of `fetchMoreData` is not represented.
- Asynchrony is left out. Each handler runs to completion, and the effects of `setState` batching and ordering between awaits are not modelled.
- Real time is left out. Timers fire only when the model calls `CountdownTick`, `RefreshTick` or `HideNotification`. `new Date()` is the parameter `now`, `toLocaleTimeString` is `timeLabel`, and the local start-of-day (`setHours(0, 0, 0, 0)`) is the parameter `dayOf`. Invalid dates (NaN) are not modelled.
- `generateId` uses `Math.random` and is left out. `capitalize` and the `document.title` it sets are left out, and so is `handleImageError`: all three only present.
- The simulated articles' `urlToImage` is the bundled image, modelled as the constant `"dumy.png"` rather than the bundler's URL.
- `Precedes`: `localeCompare` is modelled as lexicographic order on code points (a Dafny `char` is a Unicode scalar value), without locale collation rules; this also differs from UTF-16 code-unit order around surrogate pairs.
- `Strings.ToLower`: `toLowerCase` is modelled only for ASCII letters.
- `Sorting.Sort`: `Array.prototype.sort` in place is modelled as a stable insertion sort on a sequence. The sort is stable as the language requires, but in-place mutation and aliasing are not modelled.
- NewsShare.ShareComponent.ShareArticle: the per-platform share URLs and the `window.open` call are left out. Only which platforms are accepted, and the counting, are modelled.
- `fetchTrendingArticles` in `NewsShare.js` is only a fetch into list state with a sample fallback, and is left out.
- `exportSettings` (a file download) is left out. `importSettings` is modelled from the point where `JSON.parse` has produced settings or thrown; the `FileReader` plumbing and the `alert` are left out.
- JSON is left out. Storage holds parsed values directly. `NewsShare.Stringified` models the one place where serialising loses data.
- NewsShare.ShareComponent.constructor: loads the table with the corrected `'{}'` default (`NewsShare.Load`), not the `'[]'` default that `NewsShare.js:13` has. So the component models the corrected program: after an empty slot, one share and a reload, it counts 1 where the program as written counts 0. The code as written is `NewsShare.LoadAsWritten`, and `NewsShare.SharesLostAsWritten` shows the loss.
- NewsSettings.SettingsComponent.ImportSettings: `parsed` is an object of settings or a parse failure. A file that parses to a non-object (`null`, a string, a number, an array) cannot be represented. For `null`, the program stores it in state and storage and then throws at `settings.theme`, which shows the alert. The model does not capture that case.
- `NewsAnalytics.AnalyticsComponent.constructor` requires the key order to list each stored key exactly once, as JavaScript objects do. The order itself is a parameter, because `Map`-like insertion order is not part of a Dafny `map`.

## Findings

| source | as written | input that shows it | evidently intended | confidence | as-written member | corrected member |
|---|---|---|---|---|---|---|
| src/components/NewsShare.js:13 | `sharedArticles` is loaded with the default `'[]'`, an array, and counts are then stored under url keys of that array | empty storage, then one share on "twitter": the state counts 1, but `JSON.stringify` of an array drops its url-keyed properties, so after a reload `getShareCount` is 0 | default `'{}'`, a plain object, whose url-keyed counts survive storage | not executed | NewsShare.SharesLostAsWritten | NewsShare.SharesPersist |
