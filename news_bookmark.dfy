/** The bookmarks page: the saved list, with removal by url and clearing. */
module NewsBookmark {
  import opened Wrappers
  import opened Articles
  import opened Storage
  import NewsItem
  import Seqs

  class BookmarkComponent {
    var bookmarks: seq<Bookmark>
    /** The `newsBookmarks` slot. */
    const slot: Slot<seq<Bookmark>>

    constructor (slot: Slot<seq<Bookmark>>)
      ensures this.slot == slot && bookmarks == slot.Load([])
    {
      this.slot := slot;
      bookmarks := slot.Load([]);
    }

    /** `removeBookmark`: filter the state's list, then store the same list. */
    method RemoveBookmark(url: string)
      modifies this, slot
      ensures bookmarks == NewsItem.WithoutUrl(old(bookmarks), url)
      ensures !NewsItem.HasUrl(bookmarks, url)
      ensures slot.item == Some(bookmarks)
    {
      var updated := NewsItem.WithoutUrl(bookmarks, url);
      NewsItem.WithoutUrlExact(bookmarks, url);
      bookmarks := updated;
      slot.SetItem(updated);
    }

    /** `clearAllBookmarks`: empty the state and remove the key, so a later load reads `[]`. */
    method ClearAllBookmarks()
      modifies this, slot
      ensures bookmarks == [] && slot.item.None? && slot.Load([]) == []
    {
      bookmarks := [];
      slot.RemoveItem();
    }
  }

  /** Removing the same url twice is removing it once. */
  lemma RemoveIdempotent(bookmarks: seq<Bookmark>, url: string)
    ensures NewsItem.WithoutUrl(NewsItem.WithoutUrl(bookmarks, url), url) == NewsItem.WithoutUrl(bookmarks, url)
  {
    Seqs.FilterIdempotent(bookmarks, (b: Bookmark) => b.url != url);
  }
}
