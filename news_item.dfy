/** One article card: its bookmark toggle and the reading statistics kept when it is opened. */
module NewsItem {
  import opened Wrappers
  import opened Seqs
  import opened Articles
  import opened Storage

  /** The props a card is rendered with (after the caller's defaulting). */
  datatype Props = Props(
    title: string,
    description: string,
    imageUrl: string,
    newsUrl: string,
    author: string,
    date: string,
    source: string,
    category: Option<string>)

  /** `bookmarks.some(bookmark => bookmark.url === url)`. */
  predicate HasUrl(bookmarks: seq<Bookmark>, url: string) {
    exists i :: 0 <= i < |bookmarks| && bookmarks[i].url == url
  }

  /** `bookmarks.filter(bookmark => bookmark.url !== url)`. */
  function WithoutUrl(bookmarks: seq<Bookmark>, url: string): seq<Bookmark> {
    Filter(bookmarks, (b: Bookmark) => b.url != url)
  }

  /** Removing a url drops every bookmark with that url and keeps the others in order. */
  lemma WithoutUrlExact(bookmarks: seq<Bookmark>, url: string)
    ensures !HasUrl(WithoutUrl(bookmarks, url), url)
    ensures forall b :: b in WithoutUrl(bookmarks, url) <==> b in bookmarks && b.url != url
    ensures IsSubsequence(WithoutUrl(bookmarks, url), bookmarks)
    ensures forall b :: multiset(WithoutUrl(bookmarks, url))[b]
                        == if b.url != url then multiset(bookmarks)[b] else 0
    ensures !HasUrl(bookmarks, url) ==> WithoutUrl(bookmarks, url) == bookmarks
  {
    FilterMultiset(bookmarks, (b: Bookmark) => b.url != url);
    FilterSubsequence(bookmarks, (b: Bookmark) => b.url != url);
    FilterMembers(bookmarks, (b: Bookmark) => b.url != url);
    if !HasUrl(bookmarks, url) {
      FilterAll(bookmarks, (b: Bookmark) => b.url != url);
    }
  }

  /** The record `toggleBookmark` saves for a card. */
  function BookmarkOf(p: Props): (b: Bookmark)
    ensures b.url == p.newsUrl
  {
    Bookmark(p.title, p.description, p.imageUrl, p.newsUrl, p.author, p.date, p.source, p.category)
  }

  /** Adding a bookmark for an absent url and then removing that url restores the list. */
  lemma AddThenRemove(bookmarks: seq<Bookmark>, b: Bookmark)
    requires !HasUrl(bookmarks, b.url)
    ensures HasUrl(bookmarks + [b], b.url)
    ensures WithoutUrl(bookmarks + [b], b.url) == bookmarks
  {
    var p := (x: Bookmark) => x.url != b.url;
    assert (bookmarks + [b])[|bookmarks|] == b;
    FilterAppend(bookmarks, [b], p);
    FilterAll(bookmarks, p);
    assert [b][1..] == [];
    assert Filter([b], p) == [];
  }

  /** `handleReadMore` on the stats object: create the record with zero counters when the url
      is absent, then count one more read. */
  function ReadMore(stats: map<string, ReadingRecord>, key: string, title: string,
                    category: Option<string>, now: string): (r: map<string, ReadingRecord>)
    ensures r.Keys == stats.Keys + {key}
    ensures key !in stats ==> r[key] == ReadingRecord(title, category, Some(0), 1, now)
    ensures key in stats ==>
      r[key] == stats[key].(readCount := stats[key].readCount + 1, lastRead := now)
    ensures forall k :: k in stats && k != key ==> r[k] == stats[k]
  {
    var base := if key in stats then stats[key] else ReadingRecord(title, category, Some(0), 0, now);
    stats[key := base.(readCount := base.readCount + 1, lastRead := now)]
  }

  class ItemComponent {
    const props: Props
    var isBookmarked: bool
    /** The `newsBookmarks` slot. */
    const bookmarkSlot: Slot<seq<Bookmark>>
    /** The `readingStats` slot. */
    const statsSlot: Slot<map<string, ReadingRecord>>

    /** `checkIfBookmarked`: whether the stored list has a bookmark with this card's url. */
    function CheckIfBookmarked(): bool
      reads bookmarkSlot
    {
      HasUrl(bookmarkSlot.Load([]), props.newsUrl)
    }

    constructor (props: Props, bookmarkSlot: Slot<seq<Bookmark>>, statsSlot: Slot<map<string, ReadingRecord>>)
      ensures this.props == props && this.bookmarkSlot == bookmarkSlot && this.statsSlot == statsSlot
      ensures isBookmarked == CheckIfBookmarked()
    {
      this.props := props;
      this.bookmarkSlot := bookmarkSlot;
      this.statsSlot := statsSlot;
      isBookmarked := HasUrl(bookmarkSlot.Load([]), props.newsUrl);
    }

    /** `toggleBookmark`: the branch follows the component's flag, the list is re-read from storage. */
    method ToggleBookmark()
      modifies this, bookmarkSlot
      ensures old(isBookmarked) ==>
        bookmarkSlot.item == Some(WithoutUrl(old(bookmarkSlot.Load([])), props.newsUrl)) && !isBookmarked
      ensures !old(isBookmarked) ==>
        bookmarkSlot.item == Some(old(bookmarkSlot.Load([])) + [BookmarkOf(props)]) && isBookmarked
      ensures isBookmarked == CheckIfBookmarked()
    {
      var bookmarks := bookmarkSlot.Load([]);
      if isBookmarked {
        var updated := WithoutUrl(bookmarks, props.newsUrl);
        WithoutUrlExact(bookmarks, props.newsUrl);
        bookmarkSlot.SetItem(updated);
        isBookmarked := false;
      } else {
        bookmarkSlot.SetItem(bookmarks + [BookmarkOf(props)]);
        assert (bookmarks + [BookmarkOf(props)])[|bookmarks|].url == props.newsUrl;
        isBookmarked := true;
      }
    }

    /** `handleReadMore` at the instant whose ISO text is `now`. */
    method HandleReadMore(now: string)
      modifies statsSlot
      ensures statsSlot.item == Some(ReadMore(old(statsSlot.Load(map[])), props.newsUrl, props.title, props.category, now))
    {
      var stats := statsSlot.Load(map[]);
      statsSlot.SetItem(ReadMore(stats, props.newsUrl, props.title, props.category, now));
    }
  }

  /** Two toggles of a card whose url is not bookmarked leave the stored list as it was; a
      missing key (read as `'[]'`) ends up holding the empty list. */
  method ToggleTwice(card: ItemComponent)
    requires !card.isBookmarked && card.isBookmarked == card.CheckIfBookmarked()
    modifies card, card.bookmarkSlot
    ensures card.bookmarkSlot.Load([]) == old(card.bookmarkSlot.Load([])) && !card.isBookmarked
    ensures old(card.bookmarkSlot.item).Some? ==> card.bookmarkSlot.item == old(card.bookmarkSlot.item)
  {
    ghost var before := card.bookmarkSlot.Load([]);
    card.ToggleBookmark();
    card.ToggleBookmark();
    AddThenRemove(before, BookmarkOf(card.props));
  }
}
