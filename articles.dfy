/** The records that the components exchange with the news API and with local storage. */
module Articles {
  import opened Wrappers

  /** An article as the news API returns it. Optional fields are `None` when the JSON
      leaves them out; `publishedAt` is the instant `new Date(publishedAt)` denotes, in
      milliseconds since the epoch. */
  datatype Article = Article(
    title: Option<string>,
    description: Option<string>,
    url: string,
    urlToImage: Option<string>,
    author: Option<string>,
    publishedAt: int,
    sourceName: Option<string>)

  /** The JSON body `{status, articles, totalResults}` of an API response (or of the bundled
      sample data file). */
  datatype Body = Body(status: string, articles: seq<Article>, totalResults: int)

  /** What `await fetch(url)` followed by `await response.json()` produced: an exception,
      or a parsed body. */
  datatype Response = Threw | Received(body: Body)

  /** A stored bookmark: the copy of an article's props that `toggleBookmark` saves. */
  datatype Bookmark = Bookmark(
    title: string,
    description: string,
    urlToImage: string,
    url: string,
    author: string,
    publishedAt: string,
    sourceName: string,
    category: Option<string>)

  /** One entry of the `readingStats` object, keyed by article url. `readingTime` may be
      missing when the stored JSON lacks it. */
  datatype ReadingRecord = ReadingRecord(
    title: string,
    category: Option<string>,
    readingTime: Option<int>,
    readCount: int,
    lastRead: string)
}
