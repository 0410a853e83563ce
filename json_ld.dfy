/**
 * The schema.org structured data embedded in the pages: the site, a
 * breadcrumb trail and a news article. Object literals become datatypes whose
 * fields carry the JSON keys' values ("@context" as `context`, "@type" as `typeName`).
 */
module JsonLd {
  import opened Text

  const BaseUrl := "https://commonground-two.vercel.app"
  const SchemaContext := "https://schema.org"
  const SiteName := "CommonGround"

  datatype Organization = Organization(typeName: string, name: string)

  datatype WebSite = WebSite(context: string, typeName: string, name: string, url: string, description: string)

  function WebsiteSchema(): (r: WebSite)
    ensures r.context == SchemaContext && r.typeName == "WebSite" && r.url == BaseUrl && r.name == SiteName
  {
    WebSite(SchemaContext, "WebSite", SiteName, BaseUrl,
            "AI-powered analysis of Congressional speeches, finding genuine common ground between parties.")
  }

  /** An input step of a trail: a display name and a site-relative path. */
  datatype Crumb = Crumb(name: string, path: string)

  datatype ListItem = ListItem(typeName: string, position: nat, name: string, item: string)

  datatype BreadcrumbList = BreadcrumbList(context: string, typeName: string, itemListElement: seq<ListItem>)

  /** `items.map((item, i) => ...)`, with `from` the index of `items[0]` in the whole trail. */
  function ListItems(items: seq<Crumb>, from: nat): seq<ListItem>
  {
    if items == [] then []
    else [ListItem("ListItem", from + 1, items[0].name, BaseUrl + items[0].path)] + ListItems(items[1..], from + 1)
  }

  /** One list item per crumb, numbered from 1 in trail order. */
  function BreadcrumbSchema(items: seq<Crumb>): (r: BreadcrumbList)
    ensures r.context == SchemaContext && |r.itemListElement| == |items|
    ensures forall i :: 0 <= i < |items| ==>
              r.itemListElement[i].position == i + 1 && r.itemListElement[i].name == items[i].name
  {
    ListItemsAt(items, 0);
    BreadcrumbList(SchemaContext, "BreadcrumbList", ListItems(items, 0))
  }

  lemma {:induction false} ListItemsAt(items: seq<Crumb>, from: nat)
    ensures var r := ListItems(items, from);
            |r| == |items| &&
            forall i :: 0 <= i < |items| ==>
              r[i] == ListItem("ListItem", from + i + 1, items[i].name, BaseUrl + items[i].path)
  {
    if items != [] {
      ListItemsAt(items[1..], from + 1);
      var r := ListItems(items, from);
      forall i | 0 <= i < |items|
        ensures r[i] == ListItem("ListItem", from + i + 1, items[i].name, BaseUrl + items[i].path)
      {
        if i > 0 {
          assert r[i] == ListItems(items[1..], from + 1)[i - 1];
          assert items[1..][i - 1] == items[i];
        }
      }
    }
  }

  /**
   * A trail has one list item per input crumb, in order, at positions 1..n;
   * each keeps its name and points at the base URL followed by its path.
   */
  lemma BreadcrumbShape(items: seq<Crumb>)
    ensures var b := BreadcrumbSchema(items);
            b.context == SchemaContext && |b.itemListElement| == |items| &&
            forall i :: 0 <= i < |items| ==>
              b.itemListElement[i].position == i + 1 && b.itemListElement[i].name == items[i].name &&
              b.itemListElement[i].item == BaseUrl + items[i].path
  {
    ListItemsAt(items, 0);
  }

  /** Reads the crumbs back out of a trail by dropping the base URL from each item. */
  function Trail(b: BreadcrumbList): seq<Crumb>
  {
    seq(|b.itemListElement|, i requires 0 <= i < |b.itemListElement| =>
      var e := b.itemListElement[i];
      Crumb(e.name, if StartsWith(e.item, BaseUrl) then e.item[|BaseUrl|..] else e.item))
  }

  lemma TrailRoundTrip(items: seq<Crumb>)
    ensures Trail(BreadcrumbSchema(items)) == items
  {
    BreadcrumbShape(items);
    var t := Trail(BreadcrumbSchema(items));
    forall i | 0 <= i < |items| ensures t[i] == items[i] {
      var item := BaseUrl + items[i].path;
      assert item[..|BaseUrl|] == BaseUrl;
      assert item[|BaseUrl|..] == items[i].path;
    }
  }

  datatype ArticleFields = ArticleFields(headline: string, datePublished: string, dateModified: string,
                                         description: string, url: string)

  datatype NewsArticle = NewsArticle(context: string, typeName: string, headline: string, datePublished: string,
                                     dateModified: string, description: string, url: string,
                                     author: Organization, publisher: Organization)

  /** The site is both author and publisher; only the url is made absolute. */
  function ArticleSchema(a: ArticleFields): (r: NewsArticle)
    ensures r.context == SchemaContext && r.author == r.publisher && r.author.name == SiteName
    ensures StartsWith(r.url, BaseUrl) && r.url[|BaseUrl|..] == a.url
    ensures r.headline == a.headline && r.description == a.description
  {
    NewsArticle(SchemaContext, "NewsArticle", a.headline, a.datePublished, a.dateModified, a.description,
                BaseUrl + a.url, Organization("Organization", SiteName), Organization("Organization", SiteName))
  }

  /** Reads the fields back out of an article, dropping the base URL from its `url`. */
  function ArticleFieldsOf(n: NewsArticle): ArticleFields
  {
    ArticleFields(n.headline, n.datePublished, n.dateModified, n.description,
                  if StartsWith(n.url, BaseUrl) then n.url[|BaseUrl|..] else n.url)
  }

  /**
   * Only `url` is prefixed with the base URL; every other field passes
   * through, so the fields can be read back unchanged.
   */
  lemma ArticleRoundTrip(a: ArticleFields)
    ensures var n := ArticleSchema(a);
            n.context == SchemaContext && n.url == BaseUrl + a.url && n.author == n.publisher &&
            ArticleFieldsOf(n) == a
  {
    var n := ArticleSchema(a);
    assert n.url[..|BaseUrl|] == BaseUrl;
    assert n.url[|BaseUrl|..] == a.url;
  }

  /** Every object carries the schema.org context. */
  lemma ContextEverywhere(items: seq<Crumb>, a: ArticleFields)
    ensures WebsiteSchema().context == BreadcrumbSchema(items).context == ArticleSchema(a).context == SchemaContext
  {
  }
}
