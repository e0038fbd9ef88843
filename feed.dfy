/** The parsed RSS feed and fetchRSS, the change detector. */
module Feed {
  import opened Wrappers

  /** One element of an entry's `links` list; `href` may be absent. */
  datatype Link = Link(href: Option<string>)

  /** One feed entry as the feed parser yields it: every attribute fetchRSS
      reads may be absent, in which case reading it raises. */
  datatype Entry = Entry(
    title: Option<string>,
    summary: Option<string>,
    link: Option<string>,
    published: Option<string>,
    links: Option<seq<Link>>)

  const Title := "TITLE"
  const Summary := "SUMMARY"
  const Url := "URL"
  const Date := "DATE"
  const ImageUrl := "IMAGEURL"

  /** Parsing the document at a URL, taken as a map from URL to the entries
      parsed there; a URL not in the map yields no entries. */
  function Parse(documents: map<string, seq<Entry>>, url: string): seq<Entry>
  {
    if url in documents then documents[url] else []
  }

  /** Every attribute fetchRSS reads from the entry is there. */
  predicate Complete(e: Entry)
  {
    e.title.Some? && e.summary.Some? && e.link.Some? && e.published.Some? &&
    e.links.Some? && |e.links.value| > 0 && e.links.value[0].href.Some?
  }

  /** The three ways fetchRSS can end. */
  datatype Detection =
    | NoContent                              // no entries, or an attribute missing
    | Unchanged                              // the newest summary is the last post's text
    | NewItem(item: map<string, string>)     // the record handed on for posting
  {
    /** The dictionary the Python function returns: `{}` unless there is a new item. */
    function Dict(): map<string, string>
    {
      if NewItem? then item else map[]
    }
  }

  /** The record built from a complete entry. */
  function ItemOf(e: Entry): map<string, string>
    requires Complete(e)
  {
    map[Title := e.title.value, Summary := e.summary.value, Url := e.link.value,
        Date := e.published.value, ImageUrl := e.links.value[0].href.value]
  }

  /** `lastPost` is None when the account has no posts: a Python None never
      equals a summary string. */
  function FetchRSS(entries: seq<Entry>, lastPost: Option<string>): (r: Detection)
    // the newest entry is unchanged exactly when its summary equals the last
    // post's text, whatever its other attributes hold
    ensures r.Unchanged? <==>
      |entries| > 0 && entries[0].summary.Some? && entries[0].summary == lastPost
    // a new item exactly when the newest entry is complete and its summary differs
    ensures r.NewItem? <==>
      |entries| > 0 && Complete(entries[0]) && entries[0].summary != lastPost
    // the record copies the newest entry's attributes verbatim
    ensures r.NewItem? ==>
      r.item.Keys == {Title, Summary, Url, Date, ImageUrl} &&
      r.item[Title] == entries[0].title.value &&
      r.item[Summary] == entries[0].summary.value &&
      r.item[Url] == entries[0].link.value &&
      r.item[Date] == entries[0].published.value &&
      r.item[ImageUrl] == entries[0].links.value[0].href.value
    // the returned dictionary is falsy exactly when there is nothing to post
    ensures r.Dict() == map[] <==> !r.NewItem?
  {
    if |entries| == 0 || entries[0].summary.None? then NoContent
    else if entries[0].summary == lastPost then Unchanged
    else if !Complete(entries[0]) then NoContent
    else
      var item := ItemOf(entries[0]);
      assert Title in item;
      NewItem(item)
  }

  /** Only the newest entry is ever consulted. */
  lemma OnlyNewestEntryMatters(entries: seq<Entry>, others: seq<Entry>, lastPost: Option<string>)
    requires |entries| > 0 && |others| > 0 && entries[0] == others[0]
    ensures FetchRSS(entries, lastPost) == FetchRSS(others, lastPost)
  {
  }
}
