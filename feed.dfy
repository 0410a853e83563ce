/**
 * The RSS 2.0 feed: one `<item>` per recent brief (title, link, guid,
 * pubDate and description, the item elements of the RSS 2.0 specification)
 * inside a fixed channel. The query for the 50 newest briefs is an input, and
 * `None` stands for a query that threw.
 */
module Feed {
  import opened Wrappers
  import opened Text
  import opened Seqs
  import opened Db

  const BaseUrl := "https://commonground-two.vercel.app"
  /** Characters of each position quoted in a description. */
  const ExcerptLength: nat := 200

  const RedLabel := "Conservative position: "
  const Ellipsis := "..."
  /** The blue label begins with the ellipsis that closes the red excerpt. */
  const BlueLabel := Ellipsis + " Progressive position: "

  datatype Item = Item(title: string, link: string, guid: string, pubDate: string, description: string)

  function TopicUrl(slug: string): string
  {
    BaseUrl + "/topic/" + slug
  }

  /** At most 200 characters of each position, each followed by the ellipsis. */
  function Description(b: Brief): (r: string)
    ensures StartsWith(r, RedLabel) && |r| <= |RedLabel| + |BlueLabel| + |Ellipsis| + 2 * ExcerptLength
    ensures |b.redPosition| >= ExcerptLength && |b.bluePosition| >= ExcerptLength ==>
              |r| == |RedLabel| + |BlueLabel| + |Ellipsis| + 2 * ExcerptLength
  {
    RedLabel + Take(b.redPosition, ExcerptLength) + BlueLabel + Take(b.bluePosition, ExcerptLength) + Ellipsis
  }

  /** The item of a brief; `utc` is `Date.prototype.toUTCString`. */
  function ItemOf(b: Brief, utc: int -> string): Item
  {
    Item(b.topic, TopicUrl(b.slug), TopicUrl(b.slug), utc(b.date), Description(b))
  }

  const ItemOpen := "    <item>\n      <title><![CDATA["

  /** The item's XML; title and description sit inside CDATA sections without escaping. */
  function RenderItem(it: Item): string
  {
    ItemOpen + it.title + "]]></title>\n      <link>" + it.link + "</link>\n      <guid isPermaLink=\"true\">" +
    it.guid + "</guid>\n      <pubDate>" + it.pubDate + "</pubDate>\n      <description><![CDATA[" +
    it.description + "]]></description>\n    </item>"
  }

  function RenderedItems(briefs: seq<Brief>, utc: int -> string): seq<string>
  {
    Map(briefs, (b: Brief) => RenderItem(ItemOf(b, utc)))
  }

  const XmlDecl := "<?xml version=\"1.0\" encoding=\"UTF-8\"?>\n<rss version=\"2.0\" xmlns:atom=\"http://www.w3.org/2005/Atom\">\n"
  const ChannelOpen := "  <channel>\n    <title>CommonGround — Where Democracy Finds Agreement</title>\n    <link>"
  const ChannelAbout := "</link>\n    <description>AI-powered analysis of Congressional speeches, finding genuine common ground between parties.</description>\n    <language>en-us</language>\n    <lastBuildDate>"
  const SelfLink := "</lastBuildDate>\n    <atom:link href=\""
  const SelfLinkEnd := "/feed.xml\" rel=\"self\" type=\"application/rss+xml\" />\n"

  function Head(buildDate: string): string
  {
    XmlDecl + ChannelOpen + BaseUrl + ChannelAbout + buildDate + SelfLink + BaseUrl + SelfLinkEnd
  }

  const Tail := "\n  </channel>\n</rss>"

  /** The response body; `buildDate` is the UTC string of the current time. */
  function Rss(recent: Option<seq<Brief>>, buildDate: string, utc: int -> string): string
  {
    Channel(Head(buildDate), if recent.Some? then recent.value else [], utc)
  }

  /** The channel after its head: the items separated by newlines, then the closing tags. */
  function Channel(head: string, briefs: seq<Brief>, utc: int -> string): string
  {
    head + Join(RenderedItems(briefs, utc), "\n") + Tail
  }

  /** `link` and `guid` are the same topic URL, and the slug can be read back from it. */
  lemma LinkIsGuid(b: Brief, utc: int -> string)
    ensures var it := ItemOf(b, utc);
            it.link == it.guid && StartsWith(it.link, BaseUrl + "/topic/") &&
            it.link[|BaseUrl + "/topic/"|..] == b.slug
  {
    var it := ItemOf(b, utc);
    assert it.link == (BaseUrl + "/topic/") + b.slug;
  }

  /**
   * The description quotes the first 200 characters of each position, each
   * followed by "..." even when nothing was cut, so it is never longer than the
   * labels plus 400 characters.
   */
  lemma DescriptionQuotesBothSides(b: Brief)
    ensures var d := Description(b);
            StartsWith(d, RedLabel + Take(b.redPosition, ExcerptLength) + Ellipsis) &&
            OccursAt(d, BlueLabel + Take(b.bluePosition, ExcerptLength) + Ellipsis,
                     |RedLabel| + |Take(b.redPosition, ExcerptLength)|) &&
            d[|d| - |Ellipsis|..] == Ellipsis &&
            |d| <= |RedLabel| + |BlueLabel| + |Ellipsis| + 2 * ExcerptLength &&
            (|b.redPosition| <= ExcerptLength ==> StartsWith(d, RedLabel + b.redPosition + Ellipsis))
  {
    DescriptionLayout(RedLabel, Take(b.redPosition, ExcerptLength), Ellipsis, " Progressive position: ",
                      Take(b.bluePosition, ExcerptLength));
  }

  lemma DescriptionLayout(red: string, r: string, e: string, mid: string, u: string)
    ensures var d := red + r + (e + mid) + u + e;
            StartsWith(d, red + r + e) && OccursAt(d, (e + mid) + u + e, |red| + |r|) &&
            d[|d| - |e|..] == e && |d| == |red| + |r| + |e| + |mid| + |u| + |e|
  {
    var d := red + r + (e + mid) + u + e;
    assert d == (red + r + e) + (mid + u + e);
    assert d == (red + r) + ((e + mid) + u + e);
    OccursAtEnd(red + r, (e + mid) + u + e);
    assert d == (red + r + (e + mid) + u) + e;
  }

  /** The topic goes into the title's CDATA section verbatim. */
  lemma TitleVerbatim(it: Item)
    ensures OccursAt(RenderItem(it), it.title, |ItemOpen|)
  {
    var rest := RenderItem(it)[|ItemOpen| + |it.title|..];
    assert RenderItem(it) == ItemOpen + it.title + rest;
    OccursInConcat(ItemOpen, it.title, rest);
  }

  /**
   * Every brief contributes its item, in input order: whatever the channel
   * head, item k sits at the join offset k after it, and item k + 1 starts
   * after item k and the newline that separates them. `Rss` is such a channel
   * under the fixed head (`RssIsChannel`).
   */
  lemma ItemsInOrder(head: string, briefs: seq<Brief>, utc: int -> string, k: nat)
    requires k < |briefs|
    ensures var xs := RenderedItems(briefs, utc);
            |xs| == |briefs| && xs[k] == RenderItem(ItemOf(briefs[k], utc)) &&
            OccursAt(Channel(head, briefs, utc), xs[k], |head| + JoinOffset(xs, "\n", k)) &&
            (k + 1 < |xs| ==> JoinOffset(xs, "\n", k + 1) == JoinOffset(xs, "\n", k) + |xs[k]| + 1)
  {
    BodyItemAt(head, RenderedItems(briefs, utc), "\n", Tail, k);
    if k + 1 < |briefs| {
      JoinOffsetNext(RenderedItems(briefs, utc), "\n", k);
    }
  }

  /** The feed is the fixed channel head followed by the items of the briefs the query returned. */
  lemma RssIsChannel(recent: Option<seq<Brief>>, buildDate: string, utc: int -> string)
    ensures Rss(recent, buildDate, utc) == Channel(Head(buildDate), if recent.Some? then recent.value else [], utc)
  {
  }

  lemma BodyItemAt(head: string, xs: seq<string>, sep: string, tail: string, k: nat)
    requires k < |xs|
    ensures OccursAt(head + Join(xs, sep) + tail, xs[k], |head| + JoinOffset(xs, sep, k))
  {
    JoinItemAt(xs, sep, k);
    OccursInConcat(head, Join(xs, sep), tail);
    OccursNested(head + Join(xs, sep) + tail, Join(xs, sep), xs[k], |head|, JoinOffset(xs, sep, k));
  }

  /** A failed query renders the channel with no items at all. */
  lemma FailedQueryEmptyChannel(buildDate: string, utc: int -> string)
    ensures Rss(None, buildDate, utc) == Rss(Some([]), buildDate, utc) == Head(buildDate) + Tail
  {
    var h := Head(buildDate);
    assert RenderedItems([], utc) == [];
    assert Join([], "\n") == "";
    assert h + "" == h;
  }
}
