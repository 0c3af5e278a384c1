/**
 * The RSS collector (internal/sources/rss_collector.go): which feeds a site
 * reads, how the items of one feed become articles, and how the feeds of all
 * sites are gathered into one list.
 *
 * What the collector cannot see is a parameter (`World`): the HTTP fetch of a
 * feed, Go's XML decoder, `time.Parse` for one layout, the first eight bytes of
 * SHA-1, and the clock, which is read afresh for every item that becomes an
 * article and stands in for a date that is missing or unreadable.
 */
module RssCollector {
  import opened Common
  import opened GoStrings
  import opened News
  import opened XmlEntities
  import Seqs

  /** One feed of a site; items of a feed with a non-empty category skip the model's categorisation. */
  datatype Feed = Feed(url: string, category: string)

  /** One configured news site: the single `rss` of the old format, or the list of feeds of the new one. */
  datatype Site = Site(id: string, name: string, url: string, rss: string, rssFeeds: seq<Feed>, priority: int)

  /** The fields of an RSS `<item>` the collector reads. */
  datatype Item = Item(title: string, link: string, description: string, contentEncoded: string, pubDate: string)

  /** `time.Parse(layout, value)`: the instant, or None when the value does not fit the layout. */
  type TimeParser = (string, string) -> Option<Time>

  /** What lies outside the collector. */
  datatype World = World(
    fetch: string -> Result<Bytes>,         // GET of a feed URL: the body, or why there is none (request, transport, status >= 400, read)
    decode: Bytes -> Result<seq<Item>>,     // the XML decoder, strict and then lenient, on the repaired body
    parseTime: TimeParser,
    sha1Prefix: string -> Bytes,            // the first eight bytes of SHA-1 of a string
    clock: (nat, nat, nat) -> Time)         // the clock as read for item i of feed j of site s: clock(s, j, i)

  /** Where a feed sits in the collector's loops: the position of its site, and its own among the site's feeds. */
  datatype FeedAt = FeedAt(site: nat, feed: nat)

  /** Only the first items of a feed are read. */
  const MaxItemsPerFeed: nat := 100

  const RankKey: string := "rss_rank"
  const SiteNameKey: string := "siteName"
  const CategoryKey: string := "rss_category"

  /** The language every source is taken to be in. */
  const Language: string := "vi"

  // ---------------------------------------------------------------- feeds

  /** The feeds of a site: its feed list when it has one, else its single `rss` when that is not blank. */
  function RssFeeds(site: Site): (feeds: seq<Feed>)
    ensures site.rssFeeds != [] ==> feeds == site.rssFeeds
    ensures feeds == [] <==> site.rssFeeds == [] && TrimSpace(site.rss) == ""
    ensures site.rssFeeds == [] ==> |feeds| <= 1 && forall f :: f in feeds ==> f.url == site.rss && f.category == ""
  {
    if |site.rssFeeds| > 0 then site.rssFeeds
    else if TrimSpace(site.rss) != "" then [Feed(site.rss, "")]
    else []
  }

  // ---------------------------------------------------------------- items

  /** The item's text: its `content:encoded`, else its description, else its title. */
  function SelectContent(item: Item): (c: string)
    ensures item.contentEncoded != "" ==> c == item.contentEncoded
    ensures item.contentEncoded == "" && item.description != "" ==> c == item.description
    ensures item.contentEncoded == "" && item.description == "" ==> c == item.title
    ensures c == "" <==> item.contentEncoded == "" && item.description == "" && item.title == ""
  {
    if item.contentEncoded != "" then item.contentEncoded
    else if item.description != "" then item.description
    else item.title
  }

  /** The layouts tried, in order, on a non-blank `pubDate`. */
  const Layouts: seq<string> := [
    "Mon, 02 Jan 2006 15:04:05 -0700",      // RFC 1123 with numeric zone
    "Mon, 02 Jan 2006 15:04:05 MST",        // RFC 1123
    "02 Jan 06 15:04 -0700",                // RFC 822 with numeric zone
    "02 Jan 06 15:04 MST",                  // RFC 822
    "2006-01-02T15:04:05Z07:00",            // RFC 3339
    "2006-01-02T15:04:05.999999999Z07:00",  // RFC 3339 with nanoseconds
    "Mon, 02 Jan 06 15:04:05 -0700",
    "Mon, 2 Jan 06 15:04:05 -0700",
    "Mon, 02 Jan 06 15:04:05 +0700",
    "Mon, 2 Jan 06 15:04:05 +0700",
    "Mon, 02 Jan 2006 15:04:05 MST",
    "02 Jan 2006 15:04:05 MST",
    "Mon, 2 Jan 2006 15:04:05 MST",
    "2 Jan 2006 15:04:05 MST",
    "Mon, 02 Jan 2006 15:04:05 +0700",
    "Mon, 02 Jan 2006 15:04:05 +07:00",
    "2006-01-02 15:04:05",
    "2006-01-02T15:04:05",
    "2006-01-02T15:04:05Z",
    "2006-01-02T15:04:05+07:00",
    "2006-01-02T15:04:05-07:00"]

  /** What the first layout that accepts the value makes of it. */
  function FirstParse(layouts: seq<string>, value: string, parse: TimeParser): (r: Option<Time>)
    ensures r.None? <==> forall k :: 0 <= k < |layouts| ==> parse(layouts[k], value).None?
    ensures r.Some? ==> exists k :: (0 <= k < |layouts| && parse(layouts[k], value) == r
      && forall j :: 0 <= j < k ==> parse(layouts[j], value).None?)
  {
    if layouts == [] then None
    else if parse(layouts[0], value).Some? then parse(layouts[0], value)
    else
      var r := FirstParse(layouts[1..], value, parse);
      assert forall k :: 0 < k < |layouts| ==> layouts[k] == layouts[1..][k - 1];
      r
  }

  /** The date of an item: the trimmed `pubDate` read with the first layout that accepts it, else the fallback. */
  function ParsedTime(value: string, fallback: Time, parse: TimeParser): Time
  {
    var v := TrimSpace(value);
    if v == "" then fallback
    else match FirstParse(Layouts, v, parse)
      case Some(t) => t
      case None => fallback
  }

  /** parseTime: the layouts are tried one by one on the trimmed value. */
  method ParseTime(value: string, fallback: Time, parse: TimeParser) returns (t: Time)
    ensures t == ParsedTime(value, fallback, parse)
  {
    var v := TrimSpace(value);
    if v == "" {
      return fallback;
    }
    t := fallback;
    var i := 0;
    while i < |Layouts|
      invariant 0 <= i <= |Layouts|
      invariant FirstParse(Layouts, v, parse) == FirstParse(Layouts[i..], v, parse)
    {
      var r := parse(Layouts[i], v);
      if r.Some? {
        return r.value;
      }
      assert Layouts[i..][1..] == Layouts[i + 1..];
      i := i + 1;
    }
  }

  /** A blank date, or one no layout accepts, gives the fallback; otherwise the first layout that accepts it decides. */
  lemma ParsedTimeMeans(value: string, fallback: Time, parse: TimeParser)
    ensures TrimSpace(value) == "" ==> ParsedTime(value, fallback, parse) == fallback
    ensures TrimSpace(value) != "" && (forall k :: 0 <= k < |Layouts| ==> parse(Layouts[k], TrimSpace(value)).None?)
      ==> ParsedTime(value, fallback, parse) == fallback
    ensures TrimSpace(value) != "" && parse(Layouts[0], TrimSpace(value)).Some?
      ==> ParsedTime(value, fallback, parse) == parse(Layouts[0], TrimSpace(value)).value
    ensures ParsedTime(value, fallback, parse) == fallback
      || exists k :: 0 <= k < |Layouts| && parse(Layouts[k], TrimSpace(value)) == Some(ParsedTime(value, fallback, parse))
  {
  }

  // ------------------------------------------------------------ article ids

  function HexDigit(n: nat): (c: char)
    requires n < 16
  {
    if n < 10 then (48 + n) as char else (87 + n) as char
  }

  /** Lower-case hexadecimal, two digits per byte. */
  function Hex(b: Bytes): (s: string)
    ensures |s| == 2 * |b|
  {
    if b == [] then "" else [HexDigit(b[0] as int / 16), HexDigit(b[0] as int % 16)] + Hex(b[1..])
  }

  /** Go's `Time.Unix`: whole seconds, rounded down. */
  function UnixSeconds(t: Time): int
  {
    t / Second
  }

  /** buildArticleID: the site id, the hex of the link's hash prefix and the Unix second, joined by `-`. */
  function ArticleId(siteId: string, url: string, published: Time, w: World): string
  {
    siteId + "-" + Hex(w.sha1Prefix(url)) + "-" + Itoa(UnixSeconds(published))
  }

  /**
   * On one site and hash prefixes of one length, the id determines the hash
   * and the second: links with different hashes, or dates in different
   * seconds, get different ids.
   */
  lemma ArticleIdDetermines(siteId: string, u1: string, t1: Time, u2: string, t2: Time, w: World)
    requires |w.sha1Prefix(u1)| == |w.sha1Prefix(u2)|
    requires ArticleId(siteId, u1, t1, w) == ArticleId(siteId, u2, t2, w)
    ensures Hex(w.sha1Prefix(u1)) == Hex(w.sha1Prefix(u2))
    ensures UnixSeconds(t1) == UnixSeconds(t2)
  {
    Seqs.SameJoin(siteId + "-", Hex(w.sha1Prefix(u1)), Hex(w.sha1Prefix(u2)), "-",
             Itoa(UnixSeconds(t1)), Itoa(UnixSeconds(t2)));
    ItoaInjective(UnixSeconds(t1), UnixSeconds(t2));
  }

  // ------------------------------------------------------- item shaping

  /** An item without a link or a title is skipped. */
  predicate Usable(item: Item)
  {
    item.link != "" && item.title != ""
  }

  /** The metadata of an article: its rank in the feed, the site's name and, when the feed has one, its category. */
  function Metadata(site: Site, feed: Feed, rank: nat): (m: map<string, string>)
    ensures m.Keys == {RankKey, SiteNameKey} + (if feed.category != "" then {CategoryKey} else {})
    ensures IntText(m[RankKey]) && ParseInt(m[RankKey]) == rank && m[SiteNameKey] == site.name
    ensures CategoryKey in m ==> m[CategoryKey] == feed.category
  {
    ItoaRoundTrip(rank);
    var m := map[RankKey := Itoa(rank), SiteNameKey := site.name];
    if feed.category != "" then m[CategoryKey := feed.category] else m
  }

  /** The position an article's metadata records, -1 when it records none. */
  function Rank(a: ArticleRaw): int
  {
    if RankKey in a.metadata && IntText(a.metadata[RankKey]) then ParseInt(a.metadata[RankKey]) else -1
  }

  /** The article made of the item at position `rank` of the feed. */
  function Article(site: Site, feed: Feed, at: FeedAt, item: Item, rank: nat, w: World): (a: ArticleRaw)
  {
    var published := ParsedTime(item.pubDate, w.clock(at.site, at.feed, rank), w.parseTime);
    ArticleRaw(
      ArticleId(site.id, item.link, published, w),
      site.id,
      TrimSpace(item.title),
      TrimSpace(item.link),
      published,
      Language,
      TrimSpace(SelectContent(item)),
      Metadata(site, feed, rank))
  }

  /** How one item and its position become an article. */
  type Shape = (Item, nat) -> ArticleRaw

  /** The shaping of fetchFeed for one feed of one site. */
  function ShapeOf(site: Site, feed: Feed, at: FeedAt, w: World): Shape
  {
    (item: Item, rank: nat) => Article(site, feed, at, item, rank, w)
  }

  /** The articles made of the usable ones among the first `k` items, in item order. */
  function Shaped(items: seq<Item>, k: nat, shape: Shape): (r: seq<ArticleRaw>)
    requires k <= |items|
    ensures |r| <= k
  {
    if k == 0 then []
    else
      var last := if Usable(items[k - 1]) then [shape(items[k - 1], k - 1)] else [];
      Shaped(items, k - 1, shape) + last
  }

  /** The positions among the first `k` items that give an article. */
  function UsableIndices(items: seq<Item>, k: nat): (r: seq<nat>)
    requires k <= |items|
  {
    if k == 0 then [] else UsableIndices(items, k - 1) + (if Usable(items[k - 1]) then [k - 1] else [])
  }

  /** The items a feed is read for: the first hundred. */
  function Considered(items: seq<Item>): (r: seq<Item>)
    ensures |r| <= MaxItemsPerFeed && |r| <= |items| && r == items[..|r|]
    ensures |items| <= MaxItemsPerFeed ==> r == items
  {
    if |items| > MaxItemsPerFeed then items[..MaxItemsPerFeed] else items
  }

  /** The articles of one feed's items. */
  function FeedArticles(site: Site, feed: Feed, at: FeedAt, items: seq<Item>, w: World): seq<ArticleRaw>
  {
    var c := Considered(items);
    Shaped(c, |c|, ShapeOf(site, feed, at, w))
  }

  /** The item loop of fetchFeed. */
  method ShapeItems(site: Site, feed: Feed, at: FeedAt, items: seq<Item>, w: World) returns (articles: seq<ArticleRaw>)
    ensures articles == FeedArticles(site, feed, at, items, w)
  {
    var considered := if |items| > MaxItemsPerFeed then items[..MaxItemsPerFeed] else items;
    articles := [];
    for i := 0 to |considered|
      invariant articles == Shaped(considered, i, ShapeOf(site, feed, at, w))
    {
      var item := considered[i];
      ShapedStep(considered, i, ShapeOf(site, feed, at, w));
      if item.link != "" && item.title != "" {
        var a := ShapeItem(site, feed, at, item, i, w);
        articles := articles + [a];
      }
    }
  }

  /** The body of the item loop for a usable item: the article it becomes. */
  method ShapeItem(site: Site, feed: Feed, at: FeedAt, item: Item, i: nat, w: World) returns (a: ArticleRaw)
    ensures a == ShapeOf(site, feed, at, w)(item, i)
  {
    var published := ParseTime(item.pubDate, w.clock(at.site, at.feed, i), w.parseTime);
    var content := TrimSpace(SelectContent(item));
    var metadata := map[RankKey := Itoa(i), SiteNameKey := site.name];
    if feed.category != "" {
      metadata := metadata[CategoryKey := feed.category];
    }
    a := ArticleRaw(ArticleId(site.id, item.link, published, w), site.id, TrimSpace(item.title),
      TrimSpace(item.link), published, Language, content, metadata);
    assert a == Article(site, feed, at, item, i, w);
  }

  /** One more item adds its article when it is usable and nothing otherwise. */
  lemma ShapedStep(items: seq<Item>, k: nat, shape: Shape)
    requires k < |items|
    ensures Usable(items[k]) ==> Shaped(items, k + 1, shape) == Shaped(items, k, shape) + [shape(items[k], k)]
    ensures !Usable(items[k]) ==> Shaped(items, k + 1, shape) == Shaped(items, k, shape)
  {
    assert Shaped(items, k, shape) + [] == Shaped(items, k, shape);
  }

  /** The positions that give an article: in increasing order, each usable, and every usable one among them. */
  lemma {:induction false} UsableIndicesMeans(items: seq<Item>, k: nat)
    requires k <= |items|
    ensures forall j :: 0 <= j < |UsableIndices(items, k)| ==>
      UsableIndices(items, k)[j] < k && Usable(items[UsableIndices(items, k)[j]])
    ensures forall i, j :: 0 <= i < j < |UsableIndices(items, k)| ==> UsableIndices(items, k)[i] < UsableIndices(items, k)[j]
    ensures forall i :: 0 <= i < k && Usable(items[i]) ==> i in UsableIndices(items, k)
  {
    if k > 0 {
      UsableIndicesMeans(items, k - 1);
    }
  }

  /** Article j of the first k items comes from the j-th usable position. */
  lemma {:induction false} ShapedFollowsItems(items: seq<Item>, k: nat, shape: Shape)
    requires k <= |items|
    ensures |Shaped(items, k, shape)| == |UsableIndices(items, k)|
    ensures forall j :: 0 <= j < |UsableIndices(items, k)| ==> UsableIndices(items, k)[j] < k
    ensures forall j :: 0 <= j < |UsableIndices(items, k)| ==>
      Shaped(items, k, shape)[j] == shape(items[UsableIndices(items, k)[j]], UsableIndices(items, k)[j])
  {
    if k > 0 {
      ShapedFollowsItems(items, k - 1, shape);
    }
  }

  /**
   * A feed gives at most a hundred articles, one per usable item among its
   * first hundred, in item order, each ranked by its item's position and
   * carrying the feed's category exactly when the feed has one.
   */
  lemma FeedArticlesMeans(site: Site, feed: Feed, at: FeedAt, items: seq<Item>, w: World)
    ensures |FeedArticles(site, feed, at, items, w)| <= MaxItemsPerFeed
    ensures forall a :: a in FeedArticles(site, feed, at, items, w) ==>
      (CategoryKey in a.metadata <==> feed.category != "") && a.source == site.id
    ensures forall i, j :: 0 <= i < j < |FeedArticles(site, feed, at, items, w)| ==>
      Rank(FeedArticles(site, feed, at, items, w)[i]) < Rank(FeedArticles(site, feed, at, items, w)[j])
    ensures forall a :: a in FeedArticles(site, feed, at, items, w) ==>
      0 <= Rank(a) < MaxItemsPerFeed && Rank(a) < |items| && Usable(items[Rank(a)])
      && a == Article(site, feed, at, items[Rank(a)], Rank(a), w)
    ensures forall i :: 0 <= i < |items| && i < MaxItemsPerFeed && Usable(items[i]) ==>
      Article(site, feed, at, items[i], i, w) in FeedArticles(site, feed, at, items, w)
  {
    var c := Considered(items);
    var out := FeedArticles(site, feed, at, items, w);
    var shape := ShapeOf(site, feed, at, w);
    forall item: Item, i: nat ensures Rank(shape(item, i)) == i {
      ArticleFacts(site, feed, at, item, i, w);
    }
    ShapedMeans(c, |c|, shape);
    forall a | a in out
      ensures 0 <= Rank(a) < MaxItemsPerFeed && Rank(a) < |items| && Usable(items[Rank(a)])
      ensures a == Article(site, feed, at, items[Rank(a)], Rank(a), w)
      ensures (CategoryKey in a.metadata <==> feed.category != "") && a.source == site.id
    {
      assert c[Rank(a)] == items[Rank(a)];
      ArticleFacts(site, feed, at, items[Rank(a)], Rank(a), w);
    }
    forall i | 0 <= i < |items| && i < MaxItemsPerFeed && Usable(items[i])
      ensures Article(site, feed, at, items[i], i, w) in out
    {
      assert c[i] == items[i];
      assert shape(c[i], i) == Article(site, feed, at, items[i], i, w);
    }
  }

  /**
   * Whatever the shaping, when it records an item's position as the rank:
   * each article comes from a usable item at its rank, ranks increase, and
   * every usable item gives its article.
   */
  lemma ShapedMeans(items: seq<Item>, k: nat, shape: Shape)
    requires k <= |items|
    requires forall item: Item, i: nat :: Rank(shape(item, i)) == i
    ensures forall a :: a in Shaped(items, k, shape) ==>
      0 <= Rank(a) < k && Usable(items[Rank(a)]) && a == shape(items[Rank(a)], Rank(a))
    ensures forall i, j :: 0 <= i < j < |Shaped(items, k, shape)| ==>
      Rank(Shaped(items, k, shape)[i]) < Rank(Shaped(items, k, shape)[j])
    ensures forall i :: 0 <= i < k && Usable(items[i]) ==> shape(items[i], i) in Shaped(items, k, shape)
  {
    var out, idx := Shaped(items, k, shape), UsableIndices(items, k);
    ShapedFollowsItems(items, k, shape);
    UsableIndicesMeans(items, k);
    forall j | 0 <= j < |out| ensures Rank(out[j]) == idx[j] {
    }
    forall a | a in out
      ensures 0 <= Rank(a) < k && Usable(items[Rank(a)]) && a == shape(items[Rank(a)], Rank(a))
    {
      var j :| 0 <= j < |out| && out[j] == a;
    }
    forall i | 0 <= i < k && Usable(items[i]) ensures shape(items[i], i) in out {
      var j :| 0 <= j < |idx| && idx[j] == i;
    }
  }

  /** An article records its item's position, its site and, exactly when the feed has one, a category. */
  lemma ArticleFacts(site: Site, feed: Feed, at: FeedAt, item: Item, rank: nat, w: World)
    ensures var a := Article(site, feed, at, item, rank, w);
            Rank(a) == rank && a.source == site.id && (CategoryKey in a.metadata <==> feed.category != "")
  {
  }

  // ------------------------------------------------------------- feeds

  /** parseRSSFeed: the decoder reads the body as fixXMLEntities rewrites it. */
  function ParseFeed(body: Bytes, w: World): (r: Result<seq<Item>>)
    ensures r.Err? ==> HasPrefix(r.error, "parse RSS XML: ")
  {
    match w.decode(FixXmlEntities(body))
    case Ok(items) => Ok(items)
    case Err(e) => Err("parse RSS XML: " + e)
  }

  /** A body without `&` reaches the decoder as it stands. */
  lemma ParseFeedPlainBody(body: Bytes, w: World)
    requires Amp !in body
    ensures ParseFeed(body, w).Ok? <==> w.decode(body).Ok?
    ensures ParseFeed(body, w).Ok? ==> ParseFeed(body, w).value == w.decode(body).value
  {
    FixXmlEntitiesRefs(body);
  }

  /** Whatever the decoder, a feed that writes the escaped text "&amp;lt;" parses as one that writes "&lt;". */
  lemma ParseFeedConflatesEscapedText(w: World)
    ensures ParseFeed(EscapedLt, w) == ParseFeed(LtRef, w)
  {
    FixXmlEntitiesConflatesEscapedText();
  }

  /** fetchFeed: the feed's articles, or why it gave none. */
  function FetchedFeed(site: Site, feed: Feed, at: FeedAt, w: World): (r: Result<seq<ArticleRaw>>)
    ensures r.Err? <==> w.fetch(feed.url).Err? || ParseFeed(w.fetch(feed.url).value, w).Err?
  {
    match w.fetch(feed.url)
    case Err(e) => Err(e)
    case Ok(body) =>
      match ParseFeed(body, w)
      case Err(e) => Err("parse RSS: " + e)
      case Ok(items) => Ok(FeedArticles(site, feed, at, items, w))
  }

  method FetchFeed(site: Site, feed: Feed, at: FeedAt, w: World) returns (r: Result<seq<ArticleRaw>>)
    ensures r == FetchedFeed(site, feed, at, w)
  {
    var body := w.fetch(feed.url);
    if body.Err? {
      return Err(body.error);
    }
    var items := ParseFeed(body.value, w);
    if items.Err? {
      return Err("parse RSS: " + items.error);
    }
    var articles := ShapeItems(site, feed, at, items.value, w);
    return Ok(articles);
  }

  /** The articles of the first `k` feeds of the site at position `s`, a failing feed giving none. */
  function FeedsArticles(site: Site, s: nat, feeds: seq<Feed>, k: nat, w: World): seq<ArticleRaw>
    requires k <= |feeds|
  {
    if k == 0 then []
    else
      var last := match FetchedFeed(site, feeds[k - 1], FeedAt(s, k - 1), w)
        case Ok(articles) => articles
        case Err(_) => [];
      FeedsArticles(site, s, feeds, k - 1, w) + last
  }

  function SiteArticles(site: Site, s: nat, w: World): seq<ArticleRaw>
  {
    var feeds := RssFeeds(site);
    FeedsArticles(site, s, feeds, |feeds|, w)
  }

  /** The articles of the first `k` sites, site after site. */
  function Collected(sites: seq<Site>, k: nat, w: World): seq<ArticleRaw>
    requires k <= |sites|
  {
    if k == 0 then [] else Collected(sites, k - 1, w) + SiteArticles(sites[k - 1], k - 1, w)
  }

  /** The feeds of the site at position `s`, in order. */
  method CollectSite(site: Site, s: nat, w: World) returns (articles: seq<ArticleRaw>)
    ensures articles == SiteArticles(site, s, w)
  {
    var feeds := RssFeeds(site);
    articles := [];
    for j := 0 to |feeds|
      invariant articles == FeedsArticles(site, s, feeds, j, w)
    {
      var items := FetchFeed(site, feeds[j], FeedAt(s, j), w);
      if items.Err? {
        continue;
      }
      articles := articles + items.value;
    }
  }

  /** Collect: every site's feeds in order; a failing feed is skipped and the collection never fails. */
  method Collect(sites: seq<Site>, w: World) returns (results: seq<ArticleRaw>, err: Option<string>)
    ensures results == Collected(sites, |sites|, w)
    ensures err.None?
  {
    results := [];
    for i := 0 to |sites|
      invariant results == Collected(sites, i, w)
    {
      var feeds := RssFeeds(sites[i]);
      if |feeds| == 0 {
        continue;
      }
      var articles := CollectSite(sites[i], i, w);
      results := results + articles;
    }
    err := None;
  }

  /** A feed whose fetch or decoding fails adds nothing; one that succeeds adds its articles after the others. */
  lemma FeedsArticlesStep(site: Site, s: nat, feeds: seq<Feed>, k: nat, w: World)
    requires k < |feeds|
    ensures FetchedFeed(site, feeds[k], FeedAt(s, k), w).Err? ==>
      FeedsArticles(site, s, feeds, k + 1, w) == FeedsArticles(site, s, feeds, k, w)
    ensures FetchedFeed(site, feeds[k], FeedAt(s, k), w).Ok? ==>
      FeedsArticles(site, s, feeds, k + 1, w) == FeedsArticles(site, s, feeds, k, w) + FetchedFeed(site, feeds[k], FeedAt(s, k), w).value
  {
  }

  /** Every collected article comes from one of the sites and names it as its source. */
  lemma {:induction false} CollectedFromSites(sites: seq<Site>, k: nat, w: World)
    requires k <= |sites|
    ensures forall a :: a in Collected(sites, k, w) ==> exists i :: 0 <= i < k && a.source == sites[i].id
  {
    if k > 0 {
      CollectedFromSites(sites, k - 1, w);
      forall a | a in SiteArticles(sites[k - 1], k - 1, w) ensures a.source == sites[k - 1].id {
        SiteArticlesSource(sites[k - 1], k - 1, a, w);
      }
    }
  }

  lemma SiteArticlesSource(site: Site, s: nat, a: ArticleRaw, w: World)
    requires a in SiteArticles(site, s, w)
    ensures a.source == site.id
  {
    var feeds := RssFeeds(site);
    FeedsArticlesSource(site, s, feeds, |feeds|, a, w);
  }

  lemma {:induction false} FeedsArticlesSource(site: Site, s: nat, feeds: seq<Feed>, k: nat, a: ArticleRaw, w: World)
    requires k <= |feeds| && a in FeedsArticles(site, s, feeds, k, w)
    ensures a.source == site.id
  {
    if k > 0 {
      var f := FetchedFeed(site, feeds[k - 1], FeedAt(s, k - 1), w);
      if a in FeedsArticles(site, s, feeds, k - 1, w) {
        FeedsArticlesSource(site, s, feeds, k - 1, a, w);
      } else {
        assert f.Ok? && a in f.value;
        var body := w.fetch(feeds[k - 1].url).value;
        FeedArticlesMeans(site, feeds[k - 1], FeedAt(s, k - 1), ParseFeed(body, w).value, w);
      }
    }
  }

  /** With no sites, or sites without feeds, nothing is collected. */
  lemma CollectedNothing(sites: seq<Site>, k: nat, w: World)
    requires k <= |sites| && forall i :: 0 <= i < k ==> RssFeeds(sites[i]) == []
    ensures Collected(sites, k, w) == []
  {
    if k > 0 {
      CollectedNothing(sites, k - 1, w);
    }
  }
}
