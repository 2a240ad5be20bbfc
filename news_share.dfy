/** Share buttons: the per-article, per-platform share counters and their persistence. */
module NewsShare {
  import opened Wrappers
  import opened Strings
  import opened Articles
  import opened Storage

  /** The platforms `shareArticle` knows; any other platform returns before counting. */
  const Platforms: set<string> := {"twitter", "facebook", "linkedin", "whatsapp", "email"}

  /** One entry of `sharedArticles`: per-platform counts and their total. */
  datatype ShareRecord = ShareRecord(title: Option<string>, shares: map<string, nat>, totalShares: nat)

  /** The `sharedArticles` value. `isArray` records whether it is a JavaScript array (what
      the text '[]' parses to) rather than a plain object; `records` are its url-keyed entries. */
  datatype ShareTable = ShareTable(isArray: bool, records: map<string, ShareRecord>)

  /** `shares[platform] || 0`. */
  function Count(shares: map<string, nat>, platform: string): nat {
    if platform in shares then shares[platform] else 0
  }

  function PlatformSum(shares: map<string, nat>): nat {
    Count(shares, "twitter") + Count(shares, "facebook") + Count(shares, "linkedin")
    + Count(shares, "whatsapp") + Count(shares, "email")
  }

  /** The record invariant: counts only for known platforms, and the total is their sum. */
  predicate ConsistentRecord(r: ShareRecord) {
    r.shares.Keys <= Platforms && r.totalShares == PlatformSum(r.shares)
  }

  predicate Consistent(t: ShareTable) {
    forall u :: u in t.records ==> ConsistentRecord(t.records[u])
  }

  /** The counting part of `shareArticle(article, platform)` for an article with this url and title. */
  function AddShare(t: ShareTable, url: string, title: Option<string>, platform: string): (r: ShareTable)
    ensures platform !in Platforms ==> r == t
    ensures r.isArray == t.isArray
    ensures platform in Platforms ==> url in r.records
    ensures forall u :: u != url ==> (u in r.records <==> u in t.records)
    ensures forall u :: u != url && u in t.records ==> r.records[u] == t.records[u]
  {
    if platform !in Platforms then t
    else
      var rec := if url in t.records then t.records[url] else ShareRecord(title, map[], 0);
      var rec' := rec.(shares := rec.shares[platform := Count(rec.shares, platform) + 1],
                       totalShares := rec.totalShares + 1);
      t.(records := t.records[url := rec'])
  }

  /** A share on a known platform adds exactly one to that platform's count and to the total,
      starting from a fresh record (no shares, total 0) for an unknown url. */
  lemma AddShareCounts(t: ShareTable, url: string, title: Option<string>, platform: string)
    requires platform in Platforms
    ensures var before := if url in t.records then t.records[url] else ShareRecord(title, map[], 0);
      var after := AddShare(t, url, title, platform).records[url];
      && Count(after.shares, platform) == Count(before.shares, platform) + 1
      && after.totalShares == before.totalShares + 1
      && (forall q :: q != platform ==> Count(after.shares, q) == Count(before.shares, q))
      && after.title == before.title
  {
  }

  /** One more share on a known platform keeps a record consistent. */
  lemma CountOneMore(rec: ShareRecord, platform: string)
    requires ConsistentRecord(rec) && platform in Platforms
    ensures ConsistentRecord(rec.(shares := rec.shares[platform := Count(rec.shares, platform) + 1],
                                  totalShares := rec.totalShares + 1))
  {
    var shares := rec.shares[platform := Count(rec.shares, platform) + 1];
    var one := (q: string) => if q == platform then 1 else 0;
    assert Count(shares, "twitter") == Count(rec.shares, "twitter") + one("twitter");
    assert Count(shares, "facebook") == Count(rec.shares, "facebook") + one("facebook");
    assert Count(shares, "linkedin") == Count(rec.shares, "linkedin") + one("linkedin");
    assert Count(shares, "whatsapp") == Count(rec.shares, "whatsapp") + one("whatsapp");
    assert Count(shares, "email") == Count(rec.shares, "email") + one("email");
    assert one("twitter") + one("facebook") + one("linkedin") + one("whatsapp") + one("email") == 1;
  }

  /** Sharing keeps every record's total equal to the sum of its platform counts. */
  lemma AddSharePreservesConsistency(t: ShareTable, url: string, title: Option<string>, platform: string)
    requires Consistent(t)
    ensures Consistent(AddShare(t, url, title, platform))
  {
    if platform in Platforms {
      var before := if url in t.records then t.records[url] else ShareRecord(title, map[], 0);
      CountOneMore(before, platform);
    }
  }

  /** `getShareCount(url, platform)`: `platform` is `None` for the default `null`; an empty
      platform string is falsy and also yields the total. */
  function ShareCount(t: ShareTable, url: string, platform: Option<string>): nat {
    if url !in t.records then 0
    else if Truthy(platform) then Count(t.records[url].shares, platform.value)
    else t.records[url].totalShares
  }

  /** In a consistent table the total is the sum of the per-platform answers. */
  lemma TotalIsSumOfPlatformCounts(t: ShareTable, url: string)
    requires Consistent(t)
    ensures ShareCount(t, url, None) == ShareCount(t, url, Some("twitter")) + ShareCount(t, url, Some("facebook"))
      + ShareCount(t, url, Some("linkedin")) + ShareCount(t, url, Some("whatsapp")) + ShareCount(t, url, Some("email"))
  {
    if url in t.records {
      assert ConsistentRecord(t.records[url]);
    }
  }

  // ---------------------------------------------------------------------------------------
  // Persistence

  /** What `JSON.parse(JSON.stringify(t))` gives back: an array keeps only its index
      properties, so a url-keyed array is stored as an empty one. */
  function Stringified(t: ShareTable): ShareTable {
    if t.isArray then ShareTable(true, map[]) else t
  }

  /** The load in the constructor as written: `JSON.parse(getItem('sharedArticles') || '[]')`. */
  function LoadAsWritten(stored: Option<ShareTable>): ShareTable {
    stored.GetOr(ShareTable(true, map[]))
  }

  /** As written, the first share from empty storage is counted in the state but the stored
      copy is empty, so after a reload the count is 0 again. */
  lemma SharesLostAsWritten(url: string, title: Option<string>, platform: string)
    requires platform in Platforms
    ensures var t := AddShare(LoadAsWritten(None), url, title, platform);
      && ShareCount(t, url, None) == 1
      && ShareCount(LoadAsWritten(Some(Stringified(t))), url, None) == 0
  {
    AddShareCounts(LoadAsWritten(None), url, title, platform);
  }

  /** The evidently intended load: a missing key reads as the empty object `'{}'`. */
  function Load(stored: Option<ShareTable>): ShareTable {
    stored.GetOr(ShareTable(false, map[]))
  }

  /** The two loads differ exactly when the key is absent: only then does the default text
      matter, and `'{}'` reads as a plain object where `'[]'` reads as an array. */
  lemma LoadsDifferOnlyWhenAbsent(stored: Option<ShareTable>)
    ensures Load(stored) != LoadAsWritten(stored) <==> stored.None?
    ensures stored.None? ==> !Load(stored).isArray && LoadAsWritten(stored).isArray
  {
  }

  /** With the corrected load, whatever the component stores loads back to its state. */
  lemma SharesPersist(stored: Option<ShareTable>, url: string, title: Option<string>, platform: string)
    requires stored.None? || !stored.value.isArray
    ensures var t := AddShare(Load(stored), url, title, platform);
      Load(Some(Stringified(t))) == t && !t.isArray
  {
  }

  class ShareComponent {
    var sharedArticles: ShareTable
    /** The `sharedArticles` slot. */
    const slot: Slot<ShareTable>

    constructor (slot: Slot<ShareTable>)
      ensures this.slot == slot && sharedArticles == Load(slot.item)
    {
      this.slot := slot;
      sharedArticles := Load(slot.item);
    }

    /** `shareArticle(article, platform)` without opening the share window: unknown platforms
        change nothing; known ones are counted and the table is stored. */
    method ShareArticle(article: Article, platform: string)
      modifies this, slot
      ensures platform !in Platforms ==> sharedArticles == old(sharedArticles) && slot.item == old(slot.item)
      ensures platform in Platforms ==>
        sharedArticles == AddShare(old(sharedArticles), article.url, article.title, platform)
        && slot.item == Some(Stringified(sharedArticles))
      ensures Consistent(old(sharedArticles)) ==> Consistent(sharedArticles)
    {
      if platform !in Platforms {
        return;
      }
      if Consistent(sharedArticles) {
        AddSharePreservesConsistency(sharedArticles, article.url, article.title, platform);
      }
      sharedArticles := AddShare(sharedArticles, article.url, article.title, platform);
      slot.SetItem(Stringified(sharedArticles));
    }

    /** `getShareCount(articleUrl, platform)`. */
    function GetShareCount(articleUrl: string, platform: Option<string>): nat
      reads this
    {
      ShareCount(sharedArticles, articleUrl, platform)
    }
  }
}
