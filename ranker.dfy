/**
 * The ranker (internal/ranking/ranker.go): it groups the categorized
 * articles by category, asks the model for a relevance score of every
 * article of a category in one request, sorts each category by score
 * (highest first) and keeps its best `maxPerCategory` articles. A category
 * whose request fails keeps its articles with their old scores; only a
 * cancelled wait between two categories makes the whole ranking fail.
 *
 * `replies(category)` is the GenerateText outcome of that category's
 * request, `parse` the JSON decoder of a reply into score records, and
 * `elapsed(p)` the time since the previous request when the p-th category
 * (counted from 0) starts; a cancellable wait is named by the position of the
 * category it precedes. Go's map iteration order is a choice the method makes
 * with `:|` and reports as the ghost `order`.
 */
module Ranking {
  import opened Common
  import opened News
  import opened JsonArray
  import opened Sorting
  import opened Seqs
  import Categorizer

  const DefaultRankingBatchSize: nat := 10
  const DefaultMaxPerCategory: nat := 5

  /** At most five ranking requests a minute. */
  const MinDelayBetweenRankings: int := 12 * Second

  /** The score of an article the model did not score. */
  const FallbackScore: real := 5.0

  /** The ranker's settings. The batch size is kept but never used: a category always goes in one request. */
  datatype Ranker = Ranker(maxPerCategory: nat, batchSize: nat)

  /** One element of the model's reply: an article id and its relevance score. */
  datatype ScoreRecord = ScoreRecord(id: string, relevanceScore: real)

  /** NewRanker: non-positive settings fall back to a batch of 10 and 5 articles per category. */
  function NewRanker(configuredBatchSize: int, configuredMaxPerCategory: int): (r: Ranker)
    ensures r.batchSize > 0 && r.maxPerCategory > 0
    ensures configuredBatchSize > 0 ==> r.batchSize == configuredBatchSize
    ensures configuredBatchSize <= 0 ==> r.batchSize == DefaultRankingBatchSize
    ensures configuredMaxPerCategory > 0 ==> r.maxPerCategory == configuredMaxPerCategory
    ensures configuredMaxPerCategory <= 0 ==> r.maxPerCategory == DefaultMaxPerCategory
  {
    var batchSize := if configuredBatchSize <= 0 then DefaultRankingBatchSize else configuredBatchSize;
    var maxPerCategory := if configuredMaxPerCategory <= 0 then DefaultMaxPerCategory else configuredMaxPerCategory;
    Ranker(maxPerCategory, batchSize)
  }

  // -------------------------------------------------------- one category

  /** A reported score brought into [0, 10]. */
  function Clamp(score: real): (r: real)
    ensures 0.0 <= r <= 10.0
    ensures 0.0 <= score <= 10.0 ==> r == score
    ensures score < 0.0 ==> r == 0.0
    ensures score > 10.0 ==> r == 10.0
  {
    if score < 0.0 then 0.0 else if score > 10.0 then 10.0 else score
  }

  /** The clamped score of the last record about `id` among the first n. */
  function LastScore(records: seq<ScoreRecord>, n: nat, id: string): (r: Option<real>)
    requires n <= |records|
    ensures r.Some? ==> 0.0 <= r.value <= 10.0
    ensures r.None? <==> forall k :: 0 <= k < n ==> records[k].id != id
  {
    if n == 0 then None
    else if records[n - 1].id == id then Some(Clamp(records[n - 1].relevanceScore))
    else LastScore(records, n - 1, id)
  }

  /** An article with the score the reply gives its id, or the fallback score. */
  function Scored(a: CategorizedArticle, records: seq<ScoreRecord>): CategorizedArticle
  {
    match LastScore(records, |records|, a.article.id)
    case Some(score) => a.(relevanceScore := score)
    case None => a.(relevanceScore := FallbackScore)
  }

  /**
   * The records of a reply: decoded as they are, or else from the array
   * extractJSON cuts out of it; when that fails too, the message quotes the
   * cut-out array rather than the reply.
   */
  function ParseScores(text: string, parse: string -> Result<seq<ScoreRecord>>): Result<seq<ScoreRecord>>
  {
    match parse(text)
    case Ok(records) => Ok(records)
    case Err(e) =>
      var cleaned := ArraySpan(text);
      if cleaned == "" then Err("unmarshal response: " + e + " (raw: " + text + ")")
      else match parse(cleaned)
        case Ok(records) => Ok(records)
        case Err(e2) => Err("unmarshal cleaned response: " + e2 + " (cleaned: " + cleaned + ")")
  }

  /** What rankBatch returns for the articles of a category, given the GenerateText outcome. */
  function RankBatchSpec(articles: seq<CategorizedArticle>, reply: Result<string>,
                         parse: string -> Result<seq<ScoreRecord>>): Result<seq<CategorizedArticle>>
  {
    match reply
    case Err(e) => Err(Categorizer.GenerateFailure(e))
    case Ok(text) =>
      match ParseScores(text, parse)
      case Err(e) => Err(e)
      case Ok(records) => Ok(seq(|articles|, i requires 0 <= i < |articles| => Scored(articles[i], records)))
  }

  /** What rankCategory returns: nothing for no articles, else rankBatch with its error labelled by the category. */
  function RankCategorySpec(category: string, articles: seq<CategorizedArticle>, reply: Result<string>,
                            parse: string -> Result<seq<ScoreRecord>>): Result<seq<CategorizedArticle>>
  {
    if articles == [] then Ok([])
    else
      match RankBatchSpec(articles, reply, parse)
      case Err(e) => Err("rank category '" + category + "': " + e)
      case Ok(scored) => Ok(scored)
  }

  /** The two articles are the same but for the relevance score. */
  predicate SameButScore(a: CategorizedArticle, b: CategorizedArticle)
  {
    a.(relevanceScore := b.relevanceScore) == b
  }

  /**
   * A successful ranking request keeps the articles and their order and
   * changes only their scores, each into [0, 10]; an article the reply does
   * not score gets 5.
   */
  lemma RankCategoryScores(category: string, articles: seq<CategorizedArticle>, reply: Result<string>,
                           parse: string -> Result<seq<ScoreRecord>>)
    ensures var r := RankCategorySpec(category, articles, reply, parse);
            r.Ok? ==> |r.value| == |articles|
                      && (forall i :: 0 <= i < |articles| ==> SameButScore(articles[i], r.value[i]))
                      && (forall i :: 0 <= i < |articles| ==> 0.0 <= r.value[i].relevanceScore <= 10.0)
    ensures var r := RankCategorySpec(category, articles, reply, parse);
            r.Ok? ==> forall i :: 0 <= i < |articles| && reply.Ok? && ParseScores(reply.value, parse).Ok?
                        && (forall k :: 0 <= k < |ParseScores(reply.value, parse).value| ==>
                              ParseScores(reply.value, parse).value[k].id != articles[i].article.id)
                        ==> r.value[i].relevanceScore == FallbackScore
  {
  }

  // ------------------------------------------------------ the code's loops

  /** scoresMap after its loop has seen the first n records. */
  ghost function ScoreIndex(records: seq<ScoreRecord>, n: nat): map<string, real>
    requires n <= |records|
  {
    if n == 0 then map[] else ScoreIndex(records, n - 1)[records[n - 1].id := Clamp(records[n - 1].relevanceScore)]
  }

  lemma {:induction false} ScoreIndexLast(records: seq<ScoreRecord>, n: nat, id: string)
    requires n <= |records|
    ensures id in ScoreIndex(records, n) <==> LastScore(records, n, id).Some?
    ensures id in ScoreIndex(records, n) ==> ScoreIndex(records, n)[id] == LastScore(records, n, id).value
  {
    if n > 0 {
      ScoreIndexLast(records, n - 1, id);
    }
  }

  /** The ranker's extractJSON and the decoding fallback. */
  method DecodeScores(text: string, parse: string -> Result<seq<ScoreRecord>>) returns (r: Result<seq<ScoreRecord>>)
    ensures r == ParseScores(text, parse)
  {
    r := parse(text);
    if r.Err? {
      var e := r.error;
      var cleaned := ExtractArray(text);
      if cleaned == "" {
        return Err("unmarshal response: " + e + " (raw: " + text + ")");
      }
      r := parse(cleaned);
      if r.Err? {
        r := Err("unmarshal cleaned response: " + r.error + " (cleaned: " + cleaned + ")");
      }
    }
  }

  /** The score step of rankBatch: clamp each reported score into a map. */
  method IndexScores(records: seq<ScoreRecord>) returns (scores: map<string, real>)
    ensures scores == ScoreIndex(records, |records|)
  {
    scores := map[];
    var j := 0;
    while j < |records|
      invariant j <= |records|
      invariant scores == ScoreIndex(records, j)
    {
      var score := records[j].relevanceScore;
      if score < 0.0 {
        score := 0.0;
      }
      if score > 10.0 {
        score := 10.0;
      }
      scores := scores[records[j].id := score];
      j := j + 1;
    }
  }

  /** rankBatch. */
  method RankBatch(articles: seq<CategorizedArticle>, reply: Result<string>, parse: string -> Result<seq<ScoreRecord>>)
    returns (r: Result<seq<CategorizedArticle>>)
    ensures r == RankBatchSpec(articles, reply, parse)
  {
    if reply.Err? {
      return Err(Categorizer.GenerateFailure(reply.error));
    }
    var decoded := DecodeScores(reply.value, parse);
    if decoded.Err? {
      return Err(decoded.error);
    }
    ghost var records := decoded.value;
    var scores := IndexScores(decoded.value);
    var results: seq<CategorizedArticle> := [];
    var i := 0;
    while i < |articles|
      invariant i <= |articles|
      invariant |results| == i
      invariant forall k :: 0 <= k < i ==> results[k] == Scored(articles[k], records)
    {
      ScoreIndexLast(records, |records|, articles[i].article.id);
      var article := articles[i];
      var score := FallbackScore;
      if article.article.id in scores {
        score := scores[article.article.id];
      }
      results := results + [article.(relevanceScore := score)];
      i := i + 1;
    }
    assert results == seq(|articles|, i requires 0 <= i < |articles| => Scored(articles[i], records));
    return Ok(results);
  }

  /** rankCategory. */
  method RankCategory(category: string, articles: seq<CategorizedArticle>, reply: Result<string>,
                      parse: string -> Result<seq<ScoreRecord>>)
    returns (r: Result<seq<CategorizedArticle>>)
    ensures r == RankCategorySpec(category, articles, reply, parse)
  {
    if |articles| == 0 {
      return Ok([]);
    }
    r := RankBatch(articles, reply, parse);
    if r.Err? {
      r := Err("rank category '" + category + "': " + r.error);
    }
  }

  // ------------------------------------------------------------ grouping

  /** The group an article is ranked in: its category, or the default one when it has none. */
  function GroupKey(a: CategorizedArticle): string
  {
    if a.category == "" then DefaultCategory else a.category
  }

  /** The articles among the first n whose group is `key`, in input order. */
  function Group(articles: seq<CategorizedArticle>, n: nat, key: string): (g: seq<CategorizedArticle>)
    requires n <= |articles|
    ensures forall x :: x in g ==> x in articles[..n] && GroupKey(x) == key
    ensures g == [] <==> forall j :: 0 <= j < n ==> GroupKey(articles[j]) != key
  {
    if n == 0 then []
    else
      var g := Group(articles, n - 1, key);
      assert articles[..n - 1] <= articles[..n];
      if GroupKey(articles[n - 1]) == key then g + [articles[n - 1]] else g
  }

  /** The groups of the articles. */
  function GroupKeys(articles: seq<CategorizedArticle>): set<string>
  {
    set j | 0 <= j < |articles| :: GroupKey(articles[j])
  }

  /** byCategory after its loop has seen the first n articles. */
  ghost function Grouping(articles: seq<CategorizedArticle>, n: nat): map<string, seq<CategorizedArticle>>
    requires n <= |articles|
  {
    if n == 0 then map[]
    else
      var m := Grouping(articles, n - 1);
      var key := GroupKey(articles[n - 1]);
      m[key := (if key in m then m[key] else []) + [articles[n - 1]]]
  }

  lemma {:induction false} GroupingGroups(articles: seq<CategorizedArticle>, n: nat)
    requires n <= |articles|
    ensures forall key :: key in Grouping(articles, n) <==> Group(articles, n, key) != []
    ensures forall key :: key in Grouping(articles, n) ==> Grouping(articles, n)[key] == Group(articles, n, key)
  {
    if n > 0 {
      GroupingGroups(articles, n - 1);
      var last := GroupKey(articles[n - 1]);
      forall key
        ensures key in Grouping(articles, n) <==> Group(articles, n, key) != []
        ensures key in Grouping(articles, n) ==> Grouping(articles, n)[key] == Group(articles, n, key)
      {
        if key == last {
          assert Group(articles, n, key) == Group(articles, n - 1, key) + [articles[n - 1]];
        } else {
          assert Group(articles, n, key) == Group(articles, n - 1, key);
        }
      }
    }
  }

  lemma GroupKeysDomain(articles: seq<CategorizedArticle>)
    ensures forall key :: key in GroupKeys(articles) <==> Group(articles, |articles|, key) != []
  {
    forall key | Group(articles, |articles|, key) != []
      ensures key in GroupKeys(articles)
    {
      var j :| 0 <= j < |articles| && GroupKey(articles[j]) == key;
    }
  }

  /** The grouping loop of Rank. */
  method GroupByCategory(articles: seq<CategorizedArticle>) returns (byCategory: map<string, seq<CategorizedArticle>>)
    ensures byCategory.Keys == GroupKeys(articles)
    ensures forall key :: key in byCategory ==> byCategory[key] == Group(articles, |articles|, key)
  {
    byCategory := map[];
    var i := 0;
    while i < |articles|
      invariant i <= |articles|
      invariant byCategory == Grouping(articles, i)
    {
      var key := articles[i].category;
      if key == "" {
        key := DefaultCategory;
      }
      var group := if key in byCategory then byCategory[key] else [];
      byCategory := byCategory[key := group + [articles[i]]];
      i := i + 1;
    }
    GroupingGroups(articles, |articles|);
    GroupKeysDomain(articles);
  }

  // ----------------------------------------------------------- selection

  /** sort.Slice's order: higher relevance first. */
  predicate ByScore(a: CategorizedArticle, b: CategorizedArticle)
  {
    a.relevanceScore >= b.relevanceScore
  }

  /** What a category contributes: its scored articles (or, when scoring failed, its articles), best first, cut to the limit. */
  function Top(r: Ranker, key: string, group: seq<CategorizedArticle>, reply: Result<string>,
               parse: string -> Result<seq<ScoreRecord>>): seq<CategorizedArticle>
  {
    Cut(SortBy(Kept(key, group, reply, parse), ByScore), r.maxPerCategory)
  }

  /** The first `limit` elements, or all of them when there are fewer. */
  function Cut(s: seq<CategorizedArticle>, limit: nat): seq<CategorizedArticle>
  {
    if |s| > limit then s[..limit] else s
  }

  /** The articles of a category before sorting: scored, or unchanged when the request failed. */
  function Kept(key: string, group: seq<CategorizedArticle>, reply: Result<string>,
                parse: string -> Result<seq<ScoreRecord>>): seq<CategorizedArticle>
  {
    var scored := RankCategorySpec(key, group, reply, parse);
    if scored.Ok? then scored.value else group
  }

  /** The result of Rank once the categories of `order` were handled, in that order. */
  function Selected(r: Ranker, articles: seq<CategorizedArticle>, order: seq<string>,
                    replies: string -> Result<string>, parse: string -> Result<seq<ScoreRecord>>)
    : seq<CategorizedArticle>
  {
    if order == [] then []
    else
      var key := order[|order| - 1];
      Selected(r, articles, order[..|order| - 1], replies, parse)
      + Top(r, key, Group(articles, |articles|, key), replies(key), parse)
  }

  lemma SelectedStep(r: Ranker, articles: seq<CategorizedArticle>, order: seq<string>, key: string,
                     replies: string -> Result<string>, parse: string -> Result<seq<ScoreRecord>>)
    ensures Selected(r, articles, order + [key], replies, parse)
            == Selected(r, articles, order, replies, parse) + Top(r, key, Group(articles, |articles|, key), replies(key), parse)
  {
    assert (order + [key])[..|order|] == order;
  }

  /**
   * Taking one more category out of those left: the categories taken are
   * still distinct and still those no longer left, and fewer are left.
   */
  lemma OrderStep(order: seq<string>, keys: set<string>, remaining: set<string>, key: string)
    requires remaining <= keys && key in remaining
    requires forall k :: k in order <==> k in keys && k !in remaining
    requires forall i, j :: 0 <= i < j < |order| ==> order[i] != order[j]
    ensures forall k :: k in order + [key] <==> k in keys && k !in remaining - {key}
    ensures forall i, j :: 0 <= i < j < |order| + 1 ==> (order + [key])[i] != (order + [key])[j]
    ensures |remaining - {key}| < |remaining|
  {
    RemoveOne(remaining, key);
  }

  /** The body of Rank's category loop: score the group, fall back to it on failure, sort, cut. */
  method RankOne(r: Ranker, category: string, group: seq<CategorizedArticle>, reply: Result<string>,
                 parse: string -> Result<seq<ScoreRecord>>)
    returns (top: seq<CategorizedArticle>)
    ensures top == Top(r, category, group, reply, parse)
  {
    var scored := RankCategory(category, group, reply, parse);
    var kept := if scored.Ok? then scored.value else group;
    assert kept == Kept(category, group, reply, parse);
    top := SortBy(kept, ByScore);
    if |top| > r.maxPerCategory {
      top := top[..r.maxPerCategory];
    }
  }

  /**
   * Rank. Categories are taken in an order of the method's choosing; before
   * every category but the first, it waits out the 12 s pacing, and a
   * cancelled wait is the only way it fails.
   */
  method Rank(r: Ranker, articles: seq<CategorizedArticle>, replies: string -> Result<string>,
              parse: string -> Result<seq<ScoreRecord>>, elapsed: nat -> Time, cancel: Cancel)
    returns (res: Result<seq<CategorizedArticle>>, ghost order: seq<string>)
    ensures res.Ok? ==> (forall k :: k in order <==> k in GroupKeys(articles))
    ensures res.Ok? ==> forall i, j :: 0 <= i < j < |order| ==> order[i] != order[j]
    ensures res.Ok? ==> res.value == Selected(r, articles, order, replies, parse)
    ensures res.Err? ==> res.error == ContextCanceled
                         && exists p :: 0 < p && elapsed(p) < MinDelayBetweenRankings && Interrupts(cancel, p)
    ensures cancel == Never ==> res.Ok?
  {
    order := [];
    if |articles| == 0 {
      return Ok([]), order;
    }
    var byCategory := GroupByCategory(articles);
    var remaining := byCategory.Keys;
    var results: seq<CategorizedArticle> := [];
    var position := 0;
    while remaining != {}
      invariant remaining <= byCategory.Keys
      invariant forall k :: k in order <==> k in byCategory.Keys && k !in remaining
      invariant forall i, j :: 0 <= i < j < |order| ==> order[i] != order[j]
      invariant position == |order|
      invariant results == Selected(r, articles, order, replies, parse)
      decreases |remaining|
    {
      var category :| category in remaining;
      if elapsed(position) < MinDelayBetweenRankings && position > 0 {
        if Interrupts(cancel, position) {
          return Err(ContextCanceled), order;
        }
      }
      var sorted := RankOne(r, category, byCategory[category], replies(category), parse);
      SelectedStep(r, articles, order, category, replies, parse);
      OrderStep(order, byCategory.Keys, remaining, category);
      results := results + sorted;
      order := order + [category];
      remaining := remaining - {category};
      position := position + 1;
    }
    return Ok(results), order;
  }

  // ------------------------------------------------------------ properties

  /** The articles a category keeps are its own, with only their scores changed. */
  lemma KeptFromGroup(key: string, group: seq<CategorizedArticle>, reply: Result<string>,
                      parse: string -> Result<seq<ScoreRecord>>)
    ensures var kept := Kept(key, group, reply, parse);
            |kept| == |group| && forall i :: 0 <= i < |group| ==> SameButScore(group[i], kept[i])
  {
    RankCategoryScores(key, group, reply, parse);
  }

  /**
   * A category contributes min(maxPerCategory, its size) articles, best
   * score first, each one of its own articles with a new score, and no
   * article it leaves out scores higher than one it keeps.
   */
  lemma TopBest(r: Ranker, key: string, group: seq<CategorizedArticle>, reply: Result<string>,
                parse: string -> Result<seq<ScoreRecord>>)
    ensures var t := Top(r, key, group, reply, parse);
            |t| == if |group| > r.maxPerCategory then r.maxPerCategory else |group|
    ensures var t := Top(r, key, group, reply, parse);
            forall i, j :: 0 <= i < j < |t| ==> t[i].relevanceScore >= t[j].relevanceScore
    ensures var t := Top(r, key, group, reply, parse);
            multiset(t) <= multiset(Kept(key, group, reply, parse))
    ensures var t := Top(r, key, group, reply, parse);
            forall x, y :: x in t && y in multiset(Kept(key, group, reply, parse)) - multiset(t)
              ==> x.relevanceScore >= y.relevanceScore
    ensures forall x :: x in Top(r, key, group, reply, parse) ==> exists g :: g in group && SameButScore(g, x)
  {
    var kept := Kept(key, group, reply, parse);
    KeptFromGroup(key, group, reply, parse);
    CutSorted(kept, r.maxPerCategory);
    CutBest(kept, r.maxPerCategory);
    forall x | x in Top(r, key, group, reply, parse)
      ensures exists g :: g in group && SameButScore(g, x)
    {
      var i :| 0 <= i < |kept| && kept[i] == x;
      assert group[i] in group && SameButScore(group[i], x);
    }
  }

  /** Sorting by score and cutting gives the limit's worth of articles, best first. */
  lemma CutSorted(kept: seq<CategorizedArticle>, limit: nat)
    ensures var t := Cut(SortBy(kept, ByScore), limit);
            |t| == if |kept| > limit then limit else |kept|
    ensures var t := Cut(SortBy(kept, ByScore), limit);
            forall i, j :: 0 <= i < j < |t| ==> t[i].relevanceScore >= t[j].relevanceScore
  {
    SortedByScore(kept);
  }

  lemma SortedByScore(kept: seq<CategorizedArticle>)
    ensures SortedBy(SortBy(kept, ByScore), ByScore)
  {
    ByScoreTotal(kept);
    SortBySorted(kept, ByScore);
  }

  /** What the cut keeps comes from the input, and nothing it drops scores higher than what it keeps. */
  lemma CutBest(kept: seq<CategorizedArticle>, limit: nat)
    ensures var t := Cut(SortBy(kept, ByScore), limit);
            multiset(t) <= multiset(kept)
    ensures var t := Cut(SortBy(kept, ByScore), limit);
            forall x, y :: x in t && y in multiset(kept) - multiset(t) ==> x.relevanceScore >= y.relevanceScore
    ensures forall x :: x in Cut(SortBy(kept, ByScore), limit) ==> x in kept
  {
    var sorted := SortBy(kept, ByScore);
    SortedByScore(kept);
    var m := if |sorted| > limit then limit else |sorted|;
    var t := Cut(sorted, limit);
    assert t == sorted[..m];
    PrefixRest(sorted, m);
    PrefixDominates(sorted, m);
    forall x | x in t
      ensures x in kept
    {
      assert x in multiset(sorted);
    }
  }

  /** In a sequence sorted by score, everything in the first m scores at least as much as anything after. */
  lemma PrefixDominates(sorted: seq<CategorizedArticle>, m: nat)
    requires SortedBy(sorted, ByScore) && m <= |sorted|
    ensures forall x, y :: x in sorted[..m] && y in multiset(sorted[m..]) ==> x.relevanceScore >= y.relevanceScore
  {
    forall x, y | x in sorted[..m] && y in multiset(sorted[m..])
      ensures x.relevanceScore >= y.relevanceScore
    {
      var i :| 0 <= i < m && sorted[..m][i] == x;
      var j :| 0 <= j < |sorted| - m && sorted[m..][j] == y;
      assert ByScore(sorted[i], sorted[m + j]);
    }
  }

  lemma ByScoreTotal(s: seq<CategorizedArticle>)
    ensures TotalPreorderOn(s, ByScore)
  {
  }

  /** How many articles of group `key` a sequence holds. */
  function CountIn(s: seq<CategorizedArticle>, key: string): nat
  {
    if s == [] then 0
    else CountIn(s[..|s| - 1], key) + (if GroupKey(s[|s| - 1]) == key then 1 else 0)
  }

  lemma {:induction false} CountInAppend(a: seq<CategorizedArticle>, b: seq<CategorizedArticle>, key: string)
    ensures CountIn(a + b, key) == CountIn(a, key) + CountIn(b, key)
    decreases |b|
  {
    if b == [] {
      assert a + b == a;
    } else {
      assert (a + b)[..|a + b| - 1] == a + b[..|b| - 1];
      CountInAppend(a, b[..|b| - 1], key);
    }
  }

  lemma {:induction false} CountInUniform(s: seq<CategorizedArticle>, key: string, other: string)
    requires forall x :: x in s ==> GroupKey(x) == other
    ensures CountIn(s, key) == if key == other then |s| else 0
  {
    if s != [] {
      assert forall x :: x in s[..|s| - 1] ==> x in s;
      CountInUniform(s[..|s| - 1], key, other);
    }
  }

  /** Scoring keeps an article's category, so everything a group keeps belongs to it. */
  lemma TopInGroup(r: Ranker, articles: seq<CategorizedArticle>, key: string,
                   replies: string -> Result<string>, parse: string -> Result<seq<ScoreRecord>>)
    ensures forall x :: x in Top(r, key, Group(articles, |articles|, key), replies(key), parse) ==> GroupKey(x) == key
  {
    TopBest(r, key, Group(articles, |articles|, key), replies(key), parse);
  }

  /**
   * Once the categories of a duplicate-free order are handled, the result
   * holds exactly min(maxPerCategory, size of the group) articles of each
   * handled group and none of any other.
   */
  lemma {:induction false} SelectedPerGroup(r: Ranker, articles: seq<CategorizedArticle>, order: seq<string>,
                                            replies: string -> Result<string>,
                                            parse: string -> Result<seq<ScoreRecord>>, key: string)
    requires forall i, j :: 0 <= i < j < |order| ==> order[i] != order[j]
    ensures CountIn(Selected(r, articles, order, replies, parse), key)
            == if key in order then |Top(r, key, Group(articles, |articles|, key), replies(key), parse)| else 0
  {
    if order != [] {
      var last := order[|order| - 1];
      var prefix := order[..|order| - 1];
      SelectedPerGroup(r, articles, prefix, replies, parse, key);
      var t := Top(r, last, Group(articles, |articles|, last), replies(last), parse);
      TopInGroup(r, articles, last, replies, parse);
      CountInStep(Selected(r, articles, prefix, replies, parse), t, key, last);
      InitLast(order, key);
      LastNotInInit(order);
    }
  }

  /** Appending articles of one group adds their number to that group's count and nothing to the others. */
  lemma CountInStep(s: seq<CategorizedArticle>, t: seq<CategorizedArticle>, key: string, other: string)
    requires forall x :: x in t ==> GroupKey(x) == other
    ensures CountIn(s + t, key) == CountIn(s, key) + if key == other then |t| else 0
  {
    CountInAppend(s, t, key);
    CountInUniform(t, key, other);
  }

  /**
   * A successful ranking keeps at most maxPerCategory articles of every
   * group, and exactly min(maxPerCategory, size) of each group of the input.
   */
  lemma RankPerGroup(r: Ranker, articles: seq<CategorizedArticle>, order: seq<string>,
                     replies: string -> Result<string>, parse: string -> Result<seq<ScoreRecord>>, key: string)
    requires forall k :: k in order <==> k in GroupKeys(articles)
    requires forall i, j :: 0 <= i < j < |order| ==> order[i] != order[j]
    ensures CountIn(Selected(r, articles, order, replies, parse), key) <= r.maxPerCategory
    ensures var size := |Group(articles, |articles|, key)|;
            CountIn(Selected(r, articles, order, replies, parse), key) == if size > r.maxPerCategory then r.maxPerCategory else size
  {
    SelectedPerGroup(r, articles, order, replies, parse, key);
    TopBest(r, key, Group(articles, |articles|, key), replies(key), parse);
    GroupKeysDomain(articles);
  }
}
