/**
 * The sitemap: four static pages, then one page per topic slug, then one
 * page per archive day. The two grouped queries are inputs in the order
 * the database returns them; `None` stands for a query that threw.
 */
module Sitemap {
  import opened Wrappers
  import opened Text
  import opened Seqs

  const BaseUrl := "https://commonground-two.vercel.app"

  datatype Frequency = Daily | Weekly | Monthly

  /** An entry; `lastModified` is a timestamp in milliseconds, when there is one. */
  datatype Entry = Entry(url: string, lastModified: Option<int>, changeFrequency: Frequency, priority: real)

  const StaticPages: seq<Entry> := [
    Entry(BaseUrl, None, Daily, 1.0),
    Entry(BaseUrl + "/about", None, Monthly, 0.5),
    Entry(BaseUrl + "/proof", None, Daily, 0.7),
    Entry(BaseUrl + "/archive", None, Daily, 0.6)
  ]

  /** A row of the per-slug query: the slug and the latest date of its briefs. */
  datatype SlugRow = SlugRow(slug: string, lastModified: int)

  /** A row of the per-day query: the truncated day and its `toISOString()`. */
  datatype DayRow = DayRow(date: int, iso: string)

  function TopicPage(row: SlugRow): Entry
  {
    Entry(BaseUrl + "/topic/" + row.slug, Some(row.lastModified), Weekly, 0.8)
  }

  /** `toISOString().split("T")[0]`. */
  function DatePart(iso: string): string
  {
    Before(iso, 'T')
  }

  function ArchivePage(row: DayRow): Entry
  {
    Entry(BaseUrl + "/archive/" + DatePart(row.iso), Some(row.date), Monthly, 0.5)
  }

  /**
   * The list. The day query runs only after the slug query succeeded, and
   * the topic pages built from that first query are kept when the second throws.
   */
  function SitemapOf(slugRows: Option<seq<SlugRow>>, dayRows: Option<seq<DayRow>>): (r: seq<Entry>)
    ensures |r| >= |StaticPages| && r[..|StaticPages|] == StaticPages
    ensures |r| == |StaticPages| + (if slugRows.Some? then |slugRows.value| else 0) +
                   (if slugRows.Some? && dayRows.Some? then |dayRows.value| else 0)
  {
    var topics := if slugRows.Some? then Map(slugRows.value, TopicPage) else [];
    var days := if slugRows.Some? && dayRows.Some? then Map(dayRows.value, ArchivePage) else [];
    StaticPages + topics + days
  }

  /**
   * The static pages come first, then one topic page per slug row in row
   * order, then one archive page per day row in row order.
   */
  lemma Layout(slugs: seq<SlugRow>, days: seq<DayRow>)
    ensures var r := SitemapOf(Some(slugs), Some(days));
            |r| == |StaticPages| + |slugs| + |days| && r[..|StaticPages|] == StaticPages &&
            (forall i :: 0 <= i < |slugs| ==>
               r[|StaticPages| + i].url == BaseUrl + "/topic/" + slugs[i].slug &&
               r[|StaticPages| + i].lastModified == Some(slugs[i].lastModified)) &&
            (forall j :: 0 <= j < |days| ==>
               r[|StaticPages| + |slugs| + j].url == BaseUrl + "/archive/" + DatePart(days[j].iso))
  {
    var r := SitemapOf(Some(slugs), Some(days));
    assert r == StaticPages + Map(slugs, TopicPage) + Map(days, ArchivePage);
    forall i | 0 <= i < |slugs| ensures r[|StaticPages| + i] == TopicPage(slugs[i]) {
      assert r[|StaticPages| + i] == Map(slugs, TopicPage)[i];
    }
    forall j | 0 <= j < |days| ensures r[|StaticPages| + |slugs| + j] == ArchivePage(days[j]) {
      assert r[|StaticPages| + |slugs| + j] == Map(days, ArchivePage)[j];
    }
  }

  /** The archive URL names the day of an ISO timestamp "YYYY-MM-DDT...". */
  lemma ArchiveNamesDay(day: string, time: string, date: int)
    requires 'T' !in day
    ensures ArchivePage(DayRow(date, day + "T" + time)).url == BaseUrl + "/archive/" + day
  {
    assert day + "T" + time == day + ['T'] + time;
    BeforeJoined(day, 'T', time);
  }

  /** A failed slug query leaves exactly the static pages; a failed day query drops only the archive. */
  lemma QueryFailures(slugs: Option<seq<SlugRow>>, days: Option<seq<DayRow>>)
    ensures SitemapOf(None, days) == StaticPages
    ensures slugs.Some? ==> SitemapOf(slugs, None) == StaticPages + Map(slugs.value, TopicPage)
    ensures |SitemapOf(slugs, days)| >= |StaticPages|
  {
  }
}
