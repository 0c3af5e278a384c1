/**
 * The scrape-rss command (cmd/scrape-rss/main.go): for every configured site
 * it lists the site's own feeds ("main") followed by the category feeds found
 * from each of them, groups the lists by site and writes them out sorted.
 *
 * The crawl that finds category feeds from a feed's page is a parameter
 * (`Discover`); reading and writing the YAML files is not modelled.
 */
module ScrapeRss {
  import opened Common
  import opened GoStrings
  import opened Sorting

  datatype Kind = Main | Category

  /** One feed found for a site. */
  datatype FeedInfo = FeedInfo(url: string, kind: Kind, source: string)

  /** One site as configured. */
  datatype SiteConfig = SiteConfig(id: string, name: string, url: string, rss: string, rssFeeds: seq<string>, priority: int)

  /** One site as written out. */
  datatype OutputSite = OutputSite(id: string, name: string, url: string, rssFeeds: seq<string>, priority: int)

  /** The category feed URLs found from a main feed's page (the keys of findCategoryRSSFromPage's result). */
  type Discover = string -> set<string>

  // ------------------------------------------------------------- URLs

  /** normalizeURL: surrounding white space off, then one trailing `/` off. */
  function NormalizeURL(raw: string): (r: string)
    ensures TrimSpace(raw) == r || TrimSpace(raw) == r + "/"
    ensures HasSuffix(TrimSpace(raw), "/") <==> TrimSpace(raw) == r + "/"
  {
    TrimSuffix(TrimSpace(raw), "/")
  }

  /** The markers whose presence makes a URL look like a feed. */
  const FeedMarkers: seq<string> := ["/rss", "/feed", ".rss", ".xml", "/atom"]

  predicate LooksLikeFeed(raw: string)
  {
    exists k :: 0 <= k < |FeedMarkers| && Contains(Lower(raw), FeedMarkers[k])
  }

  lemma SuffixContained<T>(s: seq<T>, p: seq<T>)
    requires HasSuffix(s, p)
    ensures Contains(s, p)
  {
    ContainsOccurs(s, p);
    assert OccursAt(s, p, |s| - |p|);
  }

  /** The closing suffix test adds nothing: a URL ending in `/rss` or `/feed` already contains it. */
  lemma SuffixClauseRedundant(raw: string)
    ensures HasSuffix(Lower(raw), "/rss") || HasSuffix(Lower(raw), "/feed") ==> LooksLikeFeed(raw)
  {
    if HasSuffix(Lower(raw), FeedMarkers[0]) {
      SuffixContained(Lower(raw), FeedMarkers[0]);
    }
    if HasSuffix(Lower(raw), FeedMarkers[1]) {
      SuffixContained(Lower(raw), FeedMarkers[1]);
    }
  }

  /** isValidRSSURL: the markers are searched one by one in the lower-cased URL. */
  method IsValidRSSURL(raw: string) returns (valid: bool)
    ensures valid == LooksLikeFeed(raw)
  {
    var lower := Lower(raw);
    for i := 0 to |FeedMarkers|
      invariant forall k :: 0 <= k < i ==> !Contains(lower, FeedMarkers[k])
    {
      if Contains(lower, FeedMarkers[i]) {
        return true;
      }
    }
    SuffixClauseRedundant(raw);
    valid := HasSuffix(lower, "/rss") || HasSuffix(lower, "/feed");
  }

  // -------------------------------------------------------- one site

  /** The feeds a site is configured with: its list, else its single `rss` when that is not empty. */
  function ConfiguredFeeds(site: SiteConfig): (feeds: seq<string>)
    ensures site.rssFeeds != [] ==> feeds == site.rssFeeds
    ensures feeds == [] <==> site.rssFeeds == [] && site.rss == ""
    ensures site.rssFeeds == [] && site.rss != "" ==> feeds == [site.rss]
  {
    if |site.rssFeeds| == 0 && site.rss != "" then [site.rss] else site.rssFeeds
  }

  /** The URLs of the main entries, in list order. */
  function Mains(list: seq<FeedInfo>): (r: seq<string>)
    ensures |r| <= |list|
  {
    if list == [] then []
    else
      var last := list[|list| - 1];
      Mains(list[..|list| - 1]) + (if last.kind == Main then [last.url] else [])
  }

  lemma {:induction false} MainsAppend(a: seq<FeedInfo>, b: seq<FeedInfo>)
    ensures Mains(a + b) == Mains(a) + Mains(b)
    decreases |b|
  {
    if b == [] {
      assert a + b == a;
    } else {
      assert (a + b)[..|a + b| - 1] == a + b[..|b| - 1];
      MainsAppend(a, b[..|b| - 1]);
    }
  }

  lemma {:induction false} MainsOfCategories(b: seq<FeedInfo>)
    requires forall j :: 0 <= j < |b| ==> b[j].kind == Category
    ensures Mains(b) == []
    decreases |b|
  {
    if b != [] {
      MainsOfCategories(b[..|b| - 1]);
    }
  }

  /** Every main URL, normalised, in order. */
  function NormalizedAll(feeds: seq<string>): (r: seq<string>)
    ensures |r| == |feeds| && forall k :: 0 <= k < |feeds| ==> r[k] == NormalizeURL(feeds[k])
  {
    seq(|feeds|, k requires 0 <= k < |feeds| => NormalizeURL(feeds[k]))
  }

  predicate HasUrl(list: seq<FeedInfo>, url: string)
  {
    exists i :: 0 <= i < |list| && list[i].url == url
  }

  /**
   * `url` is listed within the first `k + 1` blocks of the list: at an entry
   * with at most `k + 1` main entries up to and including it, so before the
   * main entry of configured feed `k + 1`.
   */
  predicate ListedInBlock(list: seq<FeedInfo>, url: string, k: int)
  {
    exists j :: 0 <= j < |list| && list[j].url == url && MainsThrough(list, j) <= k + 1
  }

  /** The number of main entries among the first `j + 1` entries. */
  function MainsThrough(list: seq<FeedInfo>, j: int): nat
    requires 0 <= j < |list|
  {
    |Mains(list[..j + 1])|
  }

  /** Appending entries keeps what was listed within its block. */
  lemma ListedInBlockExtend(list: seq<FeedInfo>, longer: seq<FeedInfo>, url: string, k: int)
    requires |list| <= |longer| && longer[..|list|] == list
    requires ListedInBlock(list, url, k)
    ensures ListedInBlock(longer, url, k)
  {
    var j :| 0 <= j < |list| && list[j].url == url && MainsThrough(list, j) <= k + 1;
    assert longer[..j + 1] == list[..j + 1];
    assert longer[j].url == url && MainsThrough(longer, j) <= k + 1;
  }

  /** In a list with at most `k + 1` main entries, every listed URL is listed within the first `k + 1` blocks. */
  lemma HasUrlInBlock(list: seq<FeedInfo>, url: string, k: int)
    requires HasUrl(list, url) && |Mains(list)| <= k + 1
    ensures ListedInBlock(list, url, k)
  {
    var j :| 0 <= j < |list| && list[j].url == url;
    SplitAt(list, j + 1);
    MainsAppend(list[..j + 1], list[j + 1..]);
    assert MainsThrough(list, j) <= k + 1;
  }

  /** No category entry repeats a URL listed before it. */
  predicate NoRepeatedCategory(list: seq<FeedInfo>)
  {
    forall i, j :: 0 <= i < j < |list| && list[j].kind == Category ==> list[i].url != list[j].url
  }

  /** Entry `j` is one of the category entries that follow the main entry `i`. */
  predicate UnderMain(list: seq<FeedInfo>, i: int, j: int)
  {
    0 <= i < j < |list| && list[i].kind == Main && forall m :: i < m < j ==> list[m].kind == Category
  }

  /** Every category entry was found from the main entry it follows, and differs from it. */
  ghost predicate FromItsMain(list: seq<FeedInfo>, discover: Discover)
  {
    forall j :: 0 <= j < |list| && list[j].kind == Category ==>
      exists i :: UnderMain(list, i, j) && list[j].url != list[i].url && list[j].url in discover(list[i].url)
  }

  /** The `alreadyAdded` scan. */
  method Listed(list: seq<FeedInfo>, url: string) returns (found: bool)
    ensures found <==> HasUrl(list, url)
  {
    for i := 0 to |list|
      invariant forall k :: 0 <= k < i ==> list[k].url != url
    {
      if list[i].url == url {
        return true;
      }
    }
    found := false;
  }

  /** Appending a category entry for a URL not yet listed keeps what AddCategories promises. */
  lemma CategoryStep(list0: seq<FeedInfo>, list: seq<FeedInfo>, main: string, cats: set<string>, todo: set<string>,
                     siteId: string, c: string)
    requires c in todo && todo <= cats && c != main && !HasUrl(list, c)
    requires |list0| <= |list| && list[..|list0|] == list0
    requires NoRepeatedCategory(list0) ==> NoRepeatedCategory(list)
    requires forall c' :: c' in cats && c' !in todo && c' != main ==> HasUrl(list, c')
    ensures var next := list + [FeedInfo(c, Category, siteId)];
      && next[..|list0|] == list0
      && (NoRepeatedCategory(list0) ==> NoRepeatedCategory(next))
      && forall c' :: c' in cats && c' !in todo - {c} && c' != main ==> HasUrl(next, c')
  {
    var next := list + [FeedInfo(c, Category, siteId)];
    assert next[..|list0|] == list[..|list0|];
    assert next[|list|].url == c;
    forall c' | c' in cats && c' !in todo - {c} && c' != main ensures HasUrl(next, c') {
      if c' != c {
        var i :| 0 <= i < |list| && list[i].url == c';
        assert next[i].url == c';
      }
    }
    if NoRepeatedCategory(list0) {
      forall i, j | 0 <= i < j < |next| && next[j].kind == Category ensures next[i].url != next[j].url {
        if j < |list| {
          assert next[i] == list[i] && next[j] == list[j];
        } else {
          assert next[i] == list[i];
        }
      }
    }
  }

  /** The category feeds found from one main feed, in the map's order, each added unless it is the main feed or already listed. */
  method AddCategories(list0: seq<FeedInfo>, main: string, cats: set<string>, siteId: string) returns (list: seq<FeedInfo>)
    ensures |list0| <= |list| && list[..|list0|] == list0
    ensures forall j :: |list0| <= j < |list| ==>
      list[j].kind == Category && list[j].source == siteId && list[j].url in cats && list[j].url != main
    ensures NoRepeatedCategory(list0) ==> NoRepeatedCategory(list)
    ensures forall c :: c in cats && c != main ==> HasUrl(list, c)
  {
    list := list0;
    var todo := cats;
    while todo != {}
      invariant todo <= cats
      invariant |list0| <= |list| && list[..|list0|] == list0
      invariant forall j :: |list0| <= j < |list| ==>
        list[j].kind == Category && list[j].source == siteId && list[j].url in cats && list[j].url != main
      invariant NoRepeatedCategory(list0) ==> NoRepeatedCategory(list)
      invariant forall c :: c in cats && c !in todo && c != main ==> HasUrl(list, c)
      decreases todo
    {
      var c :| c in todo;
      var add := false;
      if c != main {
        var alreadyAdded := Listed(list, c);
        add := !alreadyAdded;
      }
      if add {
        CategoryStep(list0, list, main, cats, todo, siteId, c);
        list := list + [FeedInfo(c, Category, siteId)];
      } else {
        assert c == main || HasUrl(list, c);
      }
      todo := todo - {c};
    }
  }

  /** The list of one site: each configured feed, normalised, as a main entry, followed by what was found from it. */
  method SiteFeeds(site: SiteConfig, discover: Discover) returns (list: seq<FeedInfo>)
    ensures Mains(list) == NormalizedAll(ConfiguredFeeds(site))
    ensures forall j :: 0 <= j < |list| ==> list[j].source == site.id
    ensures NoRepeatedCategory(list)
    ensures FromItsMain(list, discover)
    ensures forall k, c ::
      (0 <= k < |ConfiguredFeeds(site)| && c in discover(NormalizeURL(ConfiguredFeeds(site)[k]))
       && c != NormalizeURL(ConfiguredFeeds(site)[k])) ==> ListedInBlock(list, c, k)
  {
    var feeds := ConfiguredFeeds(site);
    list := [];
    for k := 0 to |feeds|
      invariant SiteListed(list, feeds, k, site.id, discover)
    {
      var rssURL := NormalizeURL(feeds[k]);
      var categoryRSS := discover(rssURL);
      var before := list;
      list := list + [FeedInfo(rssURL, Main, site.id)];
      MainStep(before, rssURL, site.id, discover);
      list := AddCategories(list, rssURL, categoryRSS, site.id);
      FeedStep(feeds, k, site.id, discover, before, list);
    }
    assert feeds[..|feeds|] == feeds;
  }

  /** What SiteFeeds holds after the first `k` configured feeds. */
  ghost predicate SiteListed(list: seq<FeedInfo>, feeds: seq<string>, k: int, siteId: string, discover: Discover)
    requires 0 <= k <= |feeds|
  {
    && Mains(list) == NormalizedAll(feeds[..k])
    && (forall j :: 0 <= j < |list| ==> list[j].source == siteId)
    && NoRepeatedCategory(list)
    && FromItsMain(list, discover)
    && forall k', c ::
      (0 <= k' < k && c in discover(NormalizeURL(feeds[k'])) && c != NormalizeURL(feeds[k'])) ==> ListedInBlock(list, c, k')
  }

  /** One configured feed handled: its main entry and what AddCategories appended after it. */
  lemma FeedStep(feeds: seq<string>, k: int, siteId: string, discover: Discover, before: seq<FeedInfo>, list: seq<FeedInfo>)
    requires 0 <= k < |feeds|
    requires SiteListed(before, feeds, k, siteId, discover)
    requires var url := NormalizeURL(feeds[k]);
      var withMain := before + [FeedInfo(url, Main, siteId)];
      && |withMain| <= |list| && list[..|withMain|] == withMain
      && (forall j :: |withMain| <= j < |list| ==>
        list[j].kind == Category && list[j].source == siteId && list[j].url in discover(url) && list[j].url != url)
      && NoRepeatedCategory(list)
      && forall c :: c in discover(url) && c != url ==> HasUrl(list, c)
    ensures SiteListed(list, feeds, k + 1, siteId, discover)
  {
    var url := NormalizeURL(feeds[k]);
    var withMain := before + [FeedInfo(url, Main, siteId)];
    MainStep(before, url, siteId, discover);
    CategoriesStep(withMain, list, url, discover);
    MainsStep(feeds, k, siteId, before, withMain, list);
    forall j | 0 <= j < |list| ensures list[j].source == siteId {
      if j < |withMain| {
        assert list[j] == withMain[j];
      }
    }
    PrefixOfSnoc(list, before, FeedInfo(url, Main, siteId));
    BlocksStep(feeds, k, discover, before, list);
  }

  /** The discoveries of feed `k` are listed within its block, and earlier blocks keep theirs. */
  lemma BlocksStep(feeds: seq<string>, k: int, discover: Discover, before: seq<FeedInfo>, list: seq<FeedInfo>)
    requires 0 <= k < |feeds|
    requires |before| <= |list| && list[..|before|] == before
    requires |Mains(list)| == k + 1
    requires forall k', c ::
      (0 <= k' < k && c in discover(NormalizeURL(feeds[k'])) && c != NormalizeURL(feeds[k'])) ==> ListedInBlock(before, c, k')
    requires forall c :: c in discover(NormalizeURL(feeds[k])) && c != NormalizeURL(feeds[k]) ==> HasUrl(list, c)
    ensures forall k', c ::
      (0 <= k' < k + 1 && c in discover(NormalizeURL(feeds[k'])) && c != NormalizeURL(feeds[k'])) ==> ListedInBlock(list, c, k')
  {
    forall k', c | 0 <= k' < k + 1 && c in discover(NormalizeURL(feeds[k'])) && c != NormalizeURL(feeds[k'])
      ensures ListedInBlock(list, c, k')
    {
      BlockListed(feeds, k, k', c, discover, before, list);
    }
  }

  lemma BlockListed(feeds: seq<string>, k: int, k': int, c: string, discover: Discover, before: seq<FeedInfo>, list: seq<FeedInfo>)
    requires 0 <= k' <= k < |feeds|
    requires |before| <= |list| && list[..|before|] == before
    requires |Mains(list)| == k + 1
    requires k' < k ==> ListedInBlock(before, c, k')
    requires k' == k ==> HasUrl(list, c)
    ensures ListedInBlock(list, c, k')
  {
    if k' < k {
      ListedInBlockExtend(before, list, c, k');
    } else {
      HasUrlInBlock(list, c, k);
    }
  }

  lemma MainsStep(feeds: seq<string>, k: int, siteId: string, before: seq<FeedInfo>, withMain: seq<FeedInfo>, list: seq<FeedInfo>)
    requires 0 <= k < |feeds| && Mains(before) == NormalizedAll(feeds[..k])
    requires withMain == before + [FeedInfo(NormalizeURL(feeds[k]), Main, siteId)]
    requires |withMain| <= |list| && list[..|withMain|] == withMain
    requires forall j :: |withMain| <= j < |list| ==> list[j].kind == Category
    ensures Mains(list) == NormalizedAll(feeds[..k + 1])
  {
    var rest := list[|withMain|..];
    SplitAt(list, |withMain|);
    MainsAppend(withMain, rest);
    assert forall j :: 0 <= j < |rest| ==> rest[j] == list[|withMain| + j];
    MainsOfCategories(rest);
    MainsAppend(before, [FeedInfo(NormalizeURL(feeds[k]), Main, siteId)]);
    NormalizedAllSnoc(feeds, k);
  }

  lemma PrefixOfSnoc<T>(s: seq<T>, p: seq<T>, x: T)
    requires |p| + 1 <= |s| && s[..|p| + 1] == p + [x]
    ensures s[..|p|] == p
  {
    assert s[..|p|] == s[..|p| + 1][..|p|];
  }

  lemma SplitAt<T>(s: seq<T>, n: nat)
    requires n <= |s|
    ensures s[..n] + s[n..] == s
  {
  }

  lemma NormalizedAllSnoc(feeds: seq<string>, k: nat)
    requires k < |feeds|
    ensures NormalizedAll(feeds[..k + 1]) == NormalizedAll(feeds[..k]) + [NormalizeURL(feeds[k])]
  {
    assert feeds[..k + 1] == feeds[..k] + [feeds[k]];
  }

  /** Appending a main entry keeps both list properties. */
  lemma MainStep(before: seq<FeedInfo>, url: string, siteId: string, discover: Discover)
    requires NoRepeatedCategory(before) && FromItsMain(before, discover)
    ensures NoRepeatedCategory(before + [FeedInfo(url, Main, siteId)])
    ensures FromItsMain(before + [FeedInfo(url, Main, siteId)], discover)
  {
    var list := before + [FeedInfo(url, Main, siteId)];
    forall j | 0 <= j < |list| && list[j].kind == Category
      ensures exists i :: UnderMain(list, i, j) && list[j].url != list[i].url && list[j].url in discover(list[i].url)
    {
      assert list[j] == before[j];
      var i :| UnderMain(before, i, j) && before[j].url != before[i].url && before[j].url in discover(before[i].url);
      assert UnderMain(list, i, j);
    }
  }

  /** Appending what AddCategories found after a main entry keeps both list properties. */
  lemma CategoriesStep(withMain: seq<FeedInfo>, list: seq<FeedInfo>, main: string, discover: Discover)
    requires withMain != [] && withMain[|withMain| - 1].kind == Main && withMain[|withMain| - 1].url == main
    requires FromItsMain(withMain, discover)
    requires |withMain| <= |list| && list[..|withMain|] == withMain
    requires forall j :: |withMain| <= j < |list| ==>
      list[j].kind == Category && list[j].url in discover(main) && list[j].url != main
    ensures FromItsMain(list, discover)
  {
    var m := |withMain| - 1;
    forall j | 0 <= j < |list| && list[j].kind == Category
      ensures exists i :: UnderMain(list, i, j) && list[j].url != list[i].url && list[j].url in discover(list[i].url)
    {
      if j < |withMain| {
        assert list[j] == withMain[j];
        var i :| UnderMain(withMain, i, j) && withMain[j].url != withMain[i].url && withMain[j].url in discover(withMain[i].url);
        assert list[i] == withMain[i];
        assert UnderMain(list, i, j);
      } else {
        assert list[m] == withMain[m];
        assert UnderMain(list, m, j);
      }
    }
  }

  // ----------------------------------------------------------- grouping

  /** The entries of one site, in list order. */
  function OfSource(all: seq<FeedInfo>, id: string): (r: seq<FeedInfo>)
    ensures forall e :: e in r ==> e in all && e.source == id
  {
    if all == [] then []
    else
      var last := all[|all| - 1];
      OfSource(all[..|all| - 1], id) + (if last.source == id then [last] else [])
  }

  /** `bySite`: the entries grouped by their site. */
  function Grouped(all: seq<FeedInfo>): (m: map<string, seq<FeedInfo>>)
  {
    if all == [] then map[]
    else
      var last := all[|all| - 1];
      var m := Grouped(all[..|all| - 1]);
      m[last.source := (if last.source in m then m[last.source] else []) + [last]]
  }

  /** The groups are exactly the sites that have entries, each holding that site's entries in order. */
  lemma {:induction false} GroupedMeans(all: seq<FeedInfo>)
    ensures forall id :: id in Grouped(all) <==> exists j :: 0 <= j < |all| && all[j].source == id
    ensures forall id :: id in Grouped(all) ==> Grouped(all)[id] == OfSource(all, id) && Grouped(all)[id] != []
  {
    if all != [] {
      var init := all[..|all| - 1];
      var last := all[|all| - 1];
      GroupedMeans(init);
      forall id
        ensures id in Grouped(all) <==> HasSource(all, id)
        ensures id in Grouped(all) ==> Grouped(all)[id] == OfSource(all, id) && Grouped(all)[id] != []
      {
        HasSourceSnoc(all, id);
        if id == last.source && id !in Grouped(init) {
          OfSourceEmpty(init, id);
        }
      }
    }
  }

  /** Some entry of the list comes from site `id`. */
  predicate HasSource(all: seq<FeedInfo>, id: string)
  {
    exists j :: 0 <= j < |all| && all[j].source == id
  }

  lemma HasSourceSnoc(all: seq<FeedInfo>, id: string)
    requires all != []
    ensures HasSource(all, id) <==> HasSource(all[..|all| - 1], id) || all[|all| - 1].source == id
  {
    var init := all[..|all| - 1];
    if HasSource(init, id) {
      var j :| 0 <= j < |init| && init[j].source == id;
      assert all[j] == init[j];
    }
    if HasSource(all, id) {
      var j :| 0 <= j < |all| && all[j].source == id;
      if j < |init| {
        assert init[j] == all[j];
      }
    }
  }

  lemma {:induction false} OfSourceEmpty(all: seq<FeedInfo>, id: string)
    requires forall j :: 0 <= j < |all| ==> all[j].source != id
    ensures OfSource(all, id) == []
  {
    if all != [] {
      OfSourceEmpty(all[..|all| - 1], id);
    }
  }

  /** The grouping loop. */
  method Group(all: seq<FeedInfo>) returns (bySite: map<string, seq<FeedInfo>>)
    ensures bySite == Grouped(all)
  {
    bySite := map[];
    for i := 0 to |all|
      invariant bySite == Grouped(all[..i])
    {
      var rss := all[i];
      assert all[..i + 1][..i] == all[..i];
      bySite := bySite[rss.source := (if rss.source in bySite then bySite[rss.source] else []) + [rss]];
    }
    assert all[..|all|] == all;
  }

  // ------------------------------------------------------------- output

  /** Main entries first, then by URL ascending. */
  predicate FeedLe(a: FeedInfo, b: FeedInfo)
  {
    if a.kind != b.kind then a.kind == Main else LessEq(a.url, b.url)
  }

  predicate ById(a: OutputSite, b: OutputSite)
  {
    LessEq(a.id, b.id)
  }

  lemma FeedLePreorder(s: seq<FeedInfo>)
    ensures TotalPreorderOn(s, FeedLe)
  {
    forall a, b | a in s && b in s ensures FeedLe(a, b) || FeedLe(b, a) {
      LessEqTotal(a.url, b.url);
    }
    forall a, b, c | a in s && b in s && c in s && FeedLe(a, b) && FeedLe(b, c) ensures FeedLe(a, c) {
      if a.kind == b.kind == c.kind {
        LessEqTransitive(a.url, b.url, c.url);
      }
    }
  }

  lemma ByIdPreorder(s: seq<OutputSite>)
    ensures TotalPreorderOn(s, ById)
  {
    forall a, b | a in s && b in s ensures ById(a, b) || ById(b, a) {
      LessEqTotal(a.id, b.id);
    }
    forall a, b, c | a in s && b in s && c in s && ById(a, b) && ById(b, c) ensures ById(a, c) {
      LessEqTransitive(a.id, b.id, c.id);
    }
  }

  /** A site's feeds as written: its entries, main ones first and each kind by URL ascending. */
  lemma SortedFeeds(list: seq<FeedInfo>)
    ensures multiset(SortBy(list, FeedLe)) == multiset(list)
    ensures forall i, j :: 0 <= i < j < |list| ==>
      var s := SortBy(list, FeedLe);
      (s[i].kind == Category ==> s[j].kind == Category)
      && (s[i].kind == s[j].kind ==> LessEq(s[i].url, s[j].url))
  {
    FeedLePreorder(list);
    SortBySorted(list, FeedLe);
  }

  function Urls(list: seq<FeedInfo>): (r: seq<string>)
    ensures |r| == |list| && forall i :: 0 <= i < |list| ==> r[i] == list[i].url
  {
    seq(|list|, i requires 0 <= i < |list| => list[i].url)
  }

  /** The first configured site with the id, the one whose name, URL and priority are written. */
  method FindSite(config: seq<SiteConfig>, id: string) returns (found: Option<nat>)
    ensures found.Some? ==> FirstWithId(config, found.value, id)
    ensures found.None? ==> forall j :: 0 <= j < |config| ==> config[j].id != id
  {
    found := None;
    for i := 0 to |config|
      invariant forall j :: 0 <= j < i ==> config[j].id != id
    {
      if config[i].id == id {
        return Some(i);
      }
    }
  }

  /** What is written for one group, given the site it belongs to. */
  function OutputOf(site: SiteConfig, entries: seq<FeedInfo>): OutputSite
  {
    OutputSite(site.id, site.name, site.url, Urls(SortBy(entries, FeedLe)), site.priority)
  }

  /** The first configured site with the id. */
  predicate FirstWithId(config: seq<SiteConfig>, i: int, id: string)
  {
    0 <= i < |config| && config[i].id == id && forall j :: 0 <= j < i ==> config[j].id != id
  }

  /** The row is the output of the first configured site with its id. */
  ghost predicate RowOfConfig(config: seq<SiteConfig>, bySite: map<string, seq<FeedInfo>>, o: OutputSite)
  {
    o.id in bySite && exists i :: FirstWithId(config, i, o.id) && o == OutputOf(config[i], bySite[o.id])
  }

  /** The id is configured. */
  ghost predicate Configured(config: seq<SiteConfig>, id: string)
  {
    exists i :: 0 <= i < |config| && config[i].id == id
  }

  /** The row ids are distinct. */
  predicate DistinctIds(rows: seq<OutputSite>)
  {
    forall i, j :: 0 <= i < j < |rows| ==> rows[i].id != rows[j].id
  }

  /** What the rows built so far hold, once the keys not in `keys` are done. */
  ghost predicate RowsSoFar(config: seq<SiteConfig>, bySite: map<string, seq<FeedInfo>>, keys: set<string>, rows: seq<OutputSite>)
  {
    && DistinctIds(rows)
    && (forall o :: o in rows ==> o.id !in keys && RowOfConfig(config, bySite, o))
    && (forall id :: id in bySite && id !in keys && Configured(config, id) ==> exists o :: o in rows && o.id == id)
  }

  /** Appending a row whose id is new keeps the ids distinct. */
  lemma DistinctIdsSnoc(rows: seq<OutputSite>, row: OutputSite)
    requires DistinctIds(rows)
    requires forall o :: o in rows ==> o.id != row.id
    ensures DistinctIds(rows + [row])
  {
    var next := rows + [row];
    forall i, j | 0 <= i < j < |next| ensures next[i].id != next[j].id {
      assert next[i] in rows;
      if j < |rows| {
        assert next[i] == rows[i] && next[j] == rows[j];
      }
    }
  }

  /** Handling one more site id keeps RowsSoFar: a row is added exactly when the id is configured. */
  lemma RowStep(config: seq<SiteConfig>, bySite: map<string, seq<FeedInfo>>, keys: set<string>, rows: seq<OutputSite>,
                siteId: string, found: Option<nat>, row: Option<OutputSite>)
    requires siteId in keys && keys <= bySite.Keys
    requires RowsSoFar(config, bySite, keys, rows)
    requires found.Some? ==> FirstWithId(config, found.value, siteId)
    requires found.None? ==> forall j :: 0 <= j < |config| ==> config[j].id != siteId
    requires row.Some? <==> found.Some?
    requires row.Some? ==> row.value == OutputOf(config[found.value], bySite[siteId])
    ensures RowsSoFar(config, bySite, keys - {siteId}, if row.Some? then rows + [row.value] else rows)
  {
    var rest := keys - {siteId};
    if row.Some? {
      var next := rows + [row.value];
      DistinctIdsSnoc(rows, row.value);
      assert RowOfConfig(config, bySite, row.value) by {
        assert FirstWithId(config, found.value, siteId);
      }
      forall o | o in next ensures o.id !in rest && RowOfConfig(config, bySite, o) {
        if o != row.value {
          assert o in rows;
        }
      }
      forall id | id in bySite && id !in rest && Configured(config, id)
        ensures exists o :: o in next && o.id == id
      {
        if id == siteId {
          assert row.value in next;
        } else {
          var o :| o in rows && o.id == id;
          assert o in next;
        }
      }
    } else {
      forall id | id in bySite && id !in rest && Configured(config, id)
        ensures exists o :: o in rows && o.id == id
      {
        assert id != siteId;
      }
    }
  }

  /** The output: one row per group whose site is configured, rows sorted by id. */
  method BuildOutput(config: seq<SiteConfig>, bySite: map<string, seq<FeedInfo>>) returns (out: seq<OutputSite>)
    ensures SortedBy(out, ById)
    ensures forall i, j :: 0 <= i < j < |out| ==> out[i].id != out[j].id
    ensures forall o :: o in out ==>
      (o.id in bySite && exists i :: FirstWithId(config, i, o.id) && o == OutputOf(config[i], bySite[o.id]))
    ensures forall id :: id in bySite && (exists i :: 0 <= i < |config| && config[i].id == id) ==>
      exists o :: o in out && o.id == id
  {
    var rows: seq<OutputSite> := [];
    var keys := bySite.Keys;
    while keys != {}
      invariant keys <= bySite.Keys
      invariant RowsSoFar(config, bySite, keys, rows)
      decreases keys
    {
      var siteId :| siteId in keys;
      var found := FindSite(config, siteId);
      var row := None;
      if found.Some? {
        var site := config[found.value];
        row := Some(OutputSite(siteId, site.name, site.url, Urls(SortBy(bySite[siteId], FeedLe)), site.priority));
      }
      RowStep(config, bySite, keys, rows, siteId, found, row);
      rows := if row.Some? then rows + [row.value] else rows;
      keys := keys - {siteId};
    }
    ByIdPreorder(rows);
    SortBySorted(rows, ById);
    out := SortBy(rows, ById);
    PermutationKeepsKeys(rows, out);
  }

  /** A permutation of rows with distinct ids has distinct ids. */
  lemma PermutationKeepsKeys(rows: seq<OutputSite>, out: seq<OutputSite>)
    requires multiset(out) == multiset(rows)
    requires forall i, j :: 0 <= i < j < |rows| ==> rows[i].id != rows[j].id
    ensures forall o :: o in out <==> o in rows
    ensures forall i, j :: 0 <= i < j < |out| ==> out[i].id != out[j].id
  {
    assert forall o :: o in out <==> o in multiset(out);
    assert forall o :: o in rows <==> o in multiset(rows);
    assert Distinct(rows);
    DistinctCounts(rows);
    DistinctCounts(out);
    forall i, j | 0 <= i < j < |out| ensures out[i].id != out[j].id {
      assert out[i] != out[j];
      assert out[i] in rows && out[j] in rows;
      var p :| 0 <= p < |rows| && rows[p] == out[i];
      var q :| 0 <= q < |rows| && rows[q] == out[j];
      assert p != q;
    }
  }

  // --------------------------------------------------------------- main

  /** What SiteFeeds promises about the list of one site. */
  ghost predicate SiteList(site: SiteConfig, discover: Discover, list: seq<FeedInfo>)
  {
    var feeds := ConfiguredFeeds(site);
    && Mains(list) == NormalizedAll(feeds)
    && SourcedBy(list, site.id)
    && NoRepeatedCategory(list)
    && FromItsMain(list, discover)
    && forall k, c ::
      (0 <= k < |feeds| && c in discover(NormalizeURL(feeds[k])) && c != NormalizeURL(feeds[k])) ==> ListedInBlock(list, c, k)
  }

  /**
   * A URL found from configured feed `k` that is neither that feed nor any
   * earlier one is written as a category entry in feed `k`'s block, before
   * the main entry of feed `k + 1`, even when a later feed has that URL.
   */
  lemma DiscoveredInBlock(site: SiteConfig, discover: Discover, list: seq<FeedInfo>, k: int, c: string)
    requires SiteList(site, discover, list)
    requires 0 <= k < |ConfiguredFeeds(site)|
    requires c in discover(NormalizeURL(ConfiguredFeeds(site)[k]))
    requires c !in NormalizedAll(ConfiguredFeeds(site)[..k + 1])
    ensures exists j :: 0 <= j < |list| && list[j] == FeedInfo(c, Category, site.id) && MainsThrough(list, j) <= k + 1
  {
    var feeds := ConfiguredFeeds(site);
    var mains := NormalizedAll(feeds);
    assert NormalizedAll(feeds[..k + 1])[k] == NormalizeURL(feeds[k]);
    assert NormalizedAll(feeds[..k + 1]) == mains[..k + 1];
    assert forall i :: 0 <= i <= k ==> mains[..k + 1][i] == mains[i];
    var j := CategoryInBlock(list, mains, k, c);
    assert list[j].source == site.id;
  }

  /** The entry that lists `c` within block `k` is a category entry when `c` is none of the first `k + 1` main URLs. */
  lemma CategoryInBlock(list: seq<FeedInfo>, mains: seq<string>, k: int, c: string) returns (j: nat)
    requires Mains(list) == mains && 0 <= k < |mains| && forall i :: 0 <= i <= k ==> mains[i] != c
    requires ListedInBlock(list, c, k)
    ensures j < |list| && list[j].url == c && list[j].kind == Category && MainsThrough(list, j) <= k + 1
  {
    j :| 0 <= j < |list| && list[j].url == c && MainsThrough(list, j) <= k + 1;
    if list[j].kind == Main {
      MainsPrefix(list, j + 1);
      LastMain(list, j);
      assert false;
    }
  }

  /** When entry `j` is a main entry, it is the last of the main entries up to it. */
  lemma LastMain(list: seq<FeedInfo>, j: nat)
    requires j < |list| && list[j].kind == Main
    ensures MainsThrough(list, j) >= 1 && Mains(list[..j + 1])[MainsThrough(list, j) - 1] == list[j].url
  {
    assert list[..j + 1][..j] == list[..j];
  }

  /** The main entries of a prefix are a prefix of the main entries. */
  lemma MainsPrefix(list: seq<FeedInfo>, n: nat)
    requires n <= |list|
    ensures |Mains(list[..n])| <= |Mains(list)| && Mains(list)[..|Mains(list[..n])|] == Mains(list[..n])
  {
    SplitAt(list, n);
    MainsAppend(list[..n], list[n..]);
  }

  /** Every entry of the list comes from site `id`. */
  predicate SourcedBy(list: seq<FeedInfo>, id: string)
  {
    forall k :: 0 <= k < |list| ==> list[k].source == id
  }

  /** The list found for a site: none when it has no configured feed, otherwise one as SiteFeeds builds it. */
  ghost predicate ListOf(site: SiteConfig, discover: Discover, list: seq<FeedInfo>)
  {
    if ConfiguredFeeds(site) == [] then list == [] else SiteList(site, discover, list)
  }

  /** A site's list comes from the site, and is not empty when the site has a feed. */
  lemma ListOfFacts(site: SiteConfig, discover: Discover, list: seq<FeedInfo>)
    requires ListOf(site, discover, list)
    ensures SourcedBy(list, site.id)
    ensures ConfiguredFeeds(site) != [] ==> list != []
  {
    if ConfiguredFeeds(site) != [] {
      assert |Mains(list)| > 0;
    }
  }

  /** The list of one more site keeps every site's list as it was. */
  lemma ListsSnoc(config: seq<SiteConfig>, discover: Discover, lists: seq<seq<FeedInfo>>, list: seq<FeedInfo>)
    requires |lists| < |config|
    requires forall j :: 0 <= j < |lists| ==> ListOf(config[j], discover, lists[j])
    requires ListOf(config[|lists|], discover, list)
    ensures forall j :: 0 <= j < |lists| + 1 ==> ListOf(config[j], discover, (lists + [list])[j])
  {
    forall j | 0 <= j < |lists| + 1 ensures ListOf(config[j], discover, (lists + [list])[j]) {
      if j < |lists| {
        assert (lists + [list])[j] == lists[j];
      }
    }
  }

  /** The lists of the sites one after the other, as `allFound` collects them. */
  function Flatten(lists: seq<seq<FeedInfo>>): (r: seq<FeedInfo>)
  {
    if lists == [] then [] else Flatten(lists[..|lists| - 1]) + lists[|lists| - 1]
  }

  lemma {:induction false} OfSourceAppend(a: seq<FeedInfo>, b: seq<FeedInfo>, id: string)
    ensures OfSource(a + b, id) == OfSource(a, id) + OfSource(b, id)
    decreases |b|
  {
    if b != [] {
      assert (a + b)[..|a + b| - 1] == a + b[..|b| - 1];
      OfSourceAppend(a, b[..|b| - 1], id);
    } else {
      assert a + b == a;
    }
  }

  lemma {:induction false} OfSourceAll(list: seq<FeedInfo>, id: string)
    requires forall j :: 0 <= j < |list| ==> list[j].source == id
    ensures OfSource(list, id) == list
    decreases |list|
  {
    if list != [] {
      var n := |list| - 1;
      OfSourceAll(list[..n], id);
      assert list[..n] + [list[n]] == list;
    }
  }

  /**
   * With distinct site ids, the entries of a site among everything found
   * are exactly that site's own list.
   */
  lemma {:induction false} OwnListOnly(config: seq<SiteConfig>, lists: seq<seq<FeedInfo>>, i: nat)
    requires |lists| <= |config| && i < |config|
    requires forall p, q :: 0 <= p < q < |config| ==> config[p].id != config[q].id
    requires forall j :: 0 <= j < |lists| ==> SourcedBy(lists[j], config[j].id)
    ensures OfSource(Flatten(lists), config[i].id) == if i < |lists| then lists[i] else []
    decreases |lists|
  {
    if lists != [] {
      var n := |lists| - 1;
      var init := lists[..n];
      OwnListOnly(config, init, i);
      assert Flatten(lists) == Flatten(init) + lists[n];
      OfSourceAppend(Flatten(init), lists[n], config[i].id);
      assert SourcedBy(lists[n], config[n].id);
      if i == n {
        OfSourceAll(lists[n], config[i].id);
      } else {
        assert config[n].id != config[i].id;
        OfSourceEmpty(lists[n], config[i].id);
      }
    }
  }

  /** Everything found comes from a configured site, and every site with a non-empty list has entries in it. */
  lemma {:induction false} FlattenSources(config: seq<SiteConfig>, lists: seq<seq<FeedInfo>>)
    requires |lists| <= |config|
    requires forall j :: 0 <= j < |lists| ==> SourcedBy(lists[j], config[j].id)
    ensures forall e :: e in Flatten(lists) ==> exists j :: 0 <= j < |lists| && e.source == config[j].id
    ensures forall j :: 0 <= j < |lists| && lists[j] != [] ==> exists e :: e in Flatten(lists) && e.source == config[j].id
    decreases |lists|
  {
    if lists != [] {
      var n := |lists| - 1;
      var init := lists[..n];
      FlattenSources(config, init);
      assert Flatten(lists) == Flatten(init) + lists[n];
      assert SourcedBy(lists[n], config[n].id);
      forall e | e in Flatten(lists) ensures exists j :: 0 <= j < |lists| && e.source == config[j].id {
        if e !in Flatten(init) {
          var k :| 0 <= k < |lists[n]| && lists[n][k] == e;
        }
      }
      forall j | 0 <= j < |lists| && lists[j] != [] ensures exists e :: e in Flatten(lists) && e.source == config[j].id {
        if j < n {
          assert init[j] == lists[j];
          var e :| e in Flatten(init) && e.source == config[j].id;
          assert e in Flatten(lists);
        } else {
          assert lists[n][0] in Flatten(lists);
        }
      }
    }
  }

  /** The site loop of the command: the lists of the sites with feeds, one after the other. */
  method FindAll(config: seq<SiteConfig>, discover: Discover) returns (allFound: seq<FeedInfo>, ghost lists: seq<seq<FeedInfo>>)
    ensures |lists| == |config| && allFound == Flatten(lists)
    ensures forall i :: 0 <= i < |config| ==> ListOf(config[i], discover, lists[i])
  {
    allFound := [];
    lists := [];
    for i := 0 to |config|
      invariant |lists| == i && allFound == Flatten(lists)
      invariant forall j :: 0 <= j < i ==> ListOf(config[j], discover, lists[j])
    {
      var site := config[i];
      var rssFeeds := ConfiguredFeeds(site);
      if |rssFeeds| == 0 {
        assert Flatten(lists + [[]]) == Flatten(lists) + [];
        assert (lists + [[]])[..i] == lists;
        ListsSnoc(config, discover, lists, []);
        lists := lists + [[]];
        continue;
      }
      var siteRSSList := SiteFeeds(site, discover);
      assert (lists + [siteRSSList])[..i] == lists;
      assert SiteList(site, discover, siteRSSList);
      ListsSnoc(config, discover, lists, siteRSSList);
      allFound := allFound + siteRSSList;
      lists := lists + [siteRSSList];
    }
  }

  /**
   * The command: every configured site with feeds gets its list (`lists[i]`,
   * as SiteFeeds builds it), the lists are grouped by site, and each written
   * row is the first configured site of its id with that site's entries,
   * sorted; rows are sorted by id.
   */
  method Scrape(config: seq<SiteConfig>, discover: Discover) returns (out: seq<OutputSite>, ghost lists: seq<seq<FeedInfo>>)
    ensures |lists| == |config|
    ensures forall i :: 0 <= i < |config| ==> ListOf(config[i], discover, lists[i])
    ensures SortedBy(out, ById)
    ensures forall i, j :: 0 <= i < j < |out| ==> out[i].id != out[j].id
    ensures forall o :: o in out ==>
      exists i :: FirstWithId(config, i, o.id) && o == OutputOf(config[i], OfSource(Flatten(lists), o.id))
    ensures forall i :: 0 <= i < |config| && ConfiguredFeeds(config[i]) != [] ==> exists o :: o in out && o.id == config[i].id
  {
    var allFound;
    allFound, lists := FindAll(config, discover);
    forall j | 0 <= j < |lists|
      ensures SourcedBy(lists[j], config[j].id) && (ConfiguredFeeds(config[j]) != [] ==> lists[j] != [])
    {
      ListOfFacts(config[j], discover, lists[j]);
    }
    FlattenSources(config, lists);
    var bySite := Group(allFound);
    GroupedMeans(allFound);
    forall i | 0 <= i < |config| && ConfiguredFeeds(config[i]) != [] ensures config[i].id in bySite {
      var e :| e in allFound && e.source == config[i].id;
    }
    out := BuildOutput(config, bySite);
    forall o | o in out
      ensures exists i :: FirstWithId(config, i, o.id) && o == OutputOf(config[i], OfSource(Flatten(lists), o.id))
    {
      assert bySite[o.id] == OfSource(allFound, o.id);
    }
  }

  /**
   * When the configured ids are distinct, the row of a site with feeds is
   * written from its own list alone: its name, URL and priority, and the URLs
   * of its list with the main feeds first and each kind by URL.
   */
  lemma RowIsOwnList(config: seq<SiteConfig>, discover: Discover, lists: seq<seq<FeedInfo>>, i: nat)
    requires |lists| == |config| && i < |config|
    requires forall p, q :: 0 <= p < q < |config| ==> config[p].id != config[q].id
    requires forall j :: 0 <= j < |config| ==> ListOf(config[j], discover, lists[j])
    ensures OutputOf(config[i], OfSource(Flatten(lists), config[i].id))
         == OutputSite(config[i].id, config[i].name, config[i].url, Urls(SortBy(lists[i], FeedLe)), config[i].priority)
  {
    forall j | 0 <= j < |lists| ensures SourcedBy(lists[j], config[j].id) {
      ListOfFacts(config[j], discover, lists[j]);
    }
    OwnListOnly(config, lists, i);
  }
}
