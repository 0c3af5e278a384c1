/**
 * The business filter between collection and the model stages
 * (internal/filter/filter.go): it drops stale, future-dated, too-short,
 * duplicate and already-sent articles and keeps the survivors in input order.
 */
module Filter {
  import opened Common
  import opened GoStrings
  import opened News

  /** The two settings of the pipeline configuration the filter reads. */
  datatype Config = Config(recencyMaxHours: int, minContentLength: int)

  /**
   * The deduplication key: the lower-cased trimmed URL, or the lower-cased
   * trimmed title when the URL is blank.
   */
  function CanonicalKey(a: ArticleRaw): string
  {
    var base := Lower(TrimSpace(a.url));
    if base == "" then Lower(TrimSpace(a.title)) else base
  }

  /** The keys of a list of articles. */
  function Keys(articles: seq<ArticleRaw>): set<string>
  {
    set a | a in articles :: CanonicalKey(a)
  }

  /**
   * The checks an article must pass on its own: not older than the recency
   * window, not in the future, enough content (counted in runes, after
   * trimming), and not recorded in the ledger. Whether it is kept then depends
   * only on whether an earlier eligible article had the same key.
   */
  predicate Eligible(a: ArticleRaw, sent: set<string>, now: Time, cfg: Config)
  {
    !(a.publishedAt < now - cfg.recencyMaxHours * Hour)
    && !(a.publishedAt > now)
    && |TrimSpace(a.rawContent)| >= cfg.minContentLength
    && a.id !in sent
  }

  /**
   * Filter.Apply. `from` tells where each kept article stood in the input.
   * The result is the subsequence of the input made of the first eligible
   * article of every key; an article skipped because it was already sent does
   * not reserve its key for later ones. Apply never reports an error.
   */
  method Apply(articles: seq<ArticleRaw>, state: State, now: Time, cfg: Config)
    returns (filtered: seq<ArticleRaw>, ghost from: seq<nat>)
    ensures |from| == |filtered|
    ensures forall k :: 0 <= k < |from| ==> from[k] < |articles| && filtered[k] == articles[from[k]]
    ensures forall k, l :: 0 <= k < l < |from| ==> from[k] < from[l]
    ensures forall a :: a in filtered ==>
              now - cfg.recencyMaxHours * Hour <= a.publishedAt <= now
              && |TrimSpace(a.rawContent)| >= cfg.minContentLength
              && a.id !in LedgerIds(state.sentArticles)
    ensures forall k, l :: 0 <= k < l < |filtered| ==> CanonicalKey(filtered[k]) != CanonicalKey(filtered[l])
    ensures forall k, j :: 0 <= k < |from| && 0 <= j < from[k]
              && Eligible(articles[j], LedgerIds(state.sentArticles), now, cfg)
              ==> CanonicalKey(articles[j]) != CanonicalKey(filtered[k])
    ensures forall j :: 0 <= j < |articles| && Eligible(articles[j], LedgerIds(state.sentArticles), now, cfg)
              ==> CanonicalKey(articles[j]) in Keys(filtered)
  {
    var sentIds: set<string> := {};
    var n := 0;
    while n < |state.sentArticles|
      invariant n <= |state.sentArticles|
      invariant sentIds == LedgerIds(state.sentArticles[..n])
    {
      assert state.sentArticles[..n + 1] == state.sentArticles[..n] + [state.sentArticles[n]];
      LedgerIdsAppend(state.sentArticles[..n], state.sentArticles[n]);
      sentIds := sentIds + {state.sentArticles[n].id};
      n := n + 1;
    }
    assert state.sentArticles[..n] == state.sentArticles;

    var cutoff := now - cfg.recencyMaxHours * Hour;
    var seen: set<string> := {};
    filtered, from := [], [];
    var i := 0;
    while i < |articles|
      invariant i <= |articles|
      invariant Progress(articles, i, filtered, from, seen, sentIds, now, cfg)
    {
      var article := articles[i];
      var keep := false;
      if article.publishedAt < cutoff {
      } else if article.publishedAt > now {
      } else if |TrimSpace(article.rawContent)| < cfg.minContentLength {
      } else {
        var key := CanonicalKey(article);
        keep := key !in seen && article.id !in sentIds;
      }
      if keep {
        KeepStep(articles, i, filtered, from, seen, sentIds, now, cfg);
        seen := seen + {CanonicalKey(article)};
        filtered, from := filtered + [article], from + [i];
      } else {
        SkipStep(articles, i, filtered, from, seen, sentIds, now, cfg);
      }
      i := i + 1;
    }
  }

  /** Each kept article is the input article `from` points at, taken in input order from the first `i`. */
  ghost predicate Traced(articles: seq<ArticleRaw>, i: nat, filtered: seq<ArticleRaw>, from: seq<nat>)
  {
    && |from| == |filtered|
    && (forall k :: 0 <= k < |from| ==> from[k] < i && from[k] < |articles| && filtered[k] == articles[from[k]])
    && (forall k, l :: 0 <= k < l < |from| ==> from[k] < from[l])
  }

  /** Every kept article passes the checks. */
  ghost predicate AllEligible(filtered: seq<ArticleRaw>, sentIds: set<string>, now: Time, cfg: Config)
  {
    forall k :: 0 <= k < |filtered| ==> Eligible(filtered[k], sentIds, now, cfg)
  }

  /** No two kept articles share a key. */
  ghost predicate DistinctKeys(filtered: seq<ArticleRaw>)
  {
    forall k, l :: 0 <= k < l < |filtered| ==> CanonicalKey(filtered[k]) != CanonicalKey(filtered[l])
  }

  /** No eligible article before a kept one has its key. */
  ghost predicate FirstOfKey(articles: seq<ArticleRaw>, filtered: seq<ArticleRaw>, from: seq<nat>,
                             sentIds: set<string>, now: Time, cfg: Config)
    requires |from| == |filtered|
  {
    forall k, j :: 0 <= k < |from| && 0 <= j < from[k] && j < |articles| && Eligible(articles[j], sentIds, now, cfg)
      ==> CanonicalKey(articles[j]) != CanonicalKey(filtered[k])
  }

  /** Every eligible article among the first `i` has its key taken. */
  ghost predicate Covered(articles: seq<ArticleRaw>, i: nat, seen: set<string>, sentIds: set<string>, now: Time, cfg: Config)
  {
    forall j :: 0 <= j < i && j < |articles| && Eligible(articles[j], sentIds, now, cfg) ==> CanonicalKey(articles[j]) in seen
  }

  /** What Apply's loop knows after looking at the first `i` articles. */
  ghost predicate Progress(articles: seq<ArticleRaw>, i: nat, filtered: seq<ArticleRaw>, from: seq<nat>,
                           seen: set<string>, sentIds: set<string>, now: Time, cfg: Config)
  {
    && Traced(articles, i, filtered, from)
    && seen == Keys(filtered)
    && AllEligible(filtered, sentIds, now, cfg)
    && DistinctKeys(filtered)
    && FirstOfKey(articles, filtered, from, sentIds, now, cfg)
    && Covered(articles, i, seen, sentIds, now, cfg)
  }

  /** An article that fails a check, or whose key was already taken, leaves the result as it is. */
  lemma SkipStep(articles: seq<ArticleRaw>, i: nat, filtered: seq<ArticleRaw>, from: seq<nat>,
                 seen: set<string>, sentIds: set<string>, now: Time, cfg: Config)
    requires i < |articles|
    requires Progress(articles, i, filtered, from, seen, sentIds, now, cfg)
    requires !Eligible(articles[i], sentIds, now, cfg) || CanonicalKey(articles[i]) in seen
    ensures Progress(articles, i + 1, filtered, from, seen, sentIds, now, cfg)
  {
  }

  /** The first eligible article of a new key is appended. */
  lemma KeepStep(articles: seq<ArticleRaw>, i: nat, filtered: seq<ArticleRaw>, from: seq<nat>,
                 seen: set<string>, sentIds: set<string>, now: Time, cfg: Config)
    requires i < |articles|
    requires Progress(articles, i, filtered, from, seen, sentIds, now, cfg)
    requires Eligible(articles[i], sentIds, now, cfg) && CanonicalKey(articles[i]) !in seen
    ensures Progress(articles, i + 1, filtered + [articles[i]], from + [i], seen + {CanonicalKey(articles[i])},
                     sentIds, now, cfg)
  {
    var a := articles[i];
    KeysAppend(filtered, a);
    KeepTraced(articles, i, filtered, from);
    KeepEligible(filtered, a, sentIds, now, cfg);
    KeepDistinct(filtered, a);
    KeepFirst(articles, i, filtered, from, sentIds, now, cfg);
  }

  lemma KeepTraced(articles: seq<ArticleRaw>, i: nat, filtered: seq<ArticleRaw>, from: seq<nat>)
    requires i < |articles| && Traced(articles, i, filtered, from)
    ensures Traced(articles, i + 1, filtered + [articles[i]], from + [i])
  {
    var filtered', from' := filtered + [articles[i]], from + [i];
    forall k | 0 <= k < |from'| ensures from'[k] < i + 1 && from'[k] < |articles| && filtered'[k] == articles[from'[k]] {
      if k < |from| {
        assert from'[k] == from[k] && filtered'[k] == filtered[k];
      }
    }
    forall k, l | 0 <= k < l < |from'| ensures from'[k] < from'[l] {
      assert from'[k] == from[k];
    }
  }

  lemma KeepEligible(filtered: seq<ArticleRaw>, a: ArticleRaw, sentIds: set<string>, now: Time, cfg: Config)
    requires AllEligible(filtered, sentIds, now, cfg) && Eligible(a, sentIds, now, cfg)
    ensures AllEligible(filtered + [a], sentIds, now, cfg)
  {
    forall k | 0 <= k < |filtered| + 1 ensures Eligible((filtered + [a])[k], sentIds, now, cfg) {
      if k < |filtered| {
        assert (filtered + [a])[k] == filtered[k];
      }
    }
  }

  lemma KeepDistinct(filtered: seq<ArticleRaw>, a: ArticleRaw)
    requires DistinctKeys(filtered) && CanonicalKey(a) !in Keys(filtered)
    ensures DistinctKeys(filtered + [a])
  {
    var filtered' := filtered + [a];
    forall k, l | 0 <= k < l < |filtered'| ensures CanonicalKey(filtered'[k]) != CanonicalKey(filtered'[l]) {
      assert filtered'[k] == filtered[k] && filtered[k] in filtered;
      if l < |filtered| {
        assert filtered'[l] == filtered[l];
      }
    }
  }

  lemma KeepFirst(articles: seq<ArticleRaw>, i: nat, filtered: seq<ArticleRaw>, from: seq<nat>,
                  sentIds: set<string>, now: Time, cfg: Config)
    requires i < |articles| && |from| == |filtered|
    requires FirstOfKey(articles, filtered, from, sentIds, now, cfg)
    requires Covered(articles, i, Keys(filtered), sentIds, now, cfg)
    requires CanonicalKey(articles[i]) !in Keys(filtered)
    ensures FirstOfKey(articles, filtered + [articles[i]], from + [i], sentIds, now, cfg)
  {
    var filtered', from' := filtered + [articles[i]], from + [i];
    forall k, j | 0 <= k < |from'| && 0 <= j < from'[k] && j < |articles| && Eligible(articles[j], sentIds, now, cfg)
      ensures CanonicalKey(articles[j]) != CanonicalKey(filtered'[k])
    {
      if k < |from| {
        assert from'[k] == from[k] && filtered'[k] == filtered[k];
      }
    }
  }

  // ------------------------------------------------------------------ keys

  lemma KeysAppend(articles: seq<ArticleRaw>, a: ArticleRaw)
    ensures Keys(articles + [a]) == Keys(articles) + {CanonicalKey(a)}
  {
    assert forall x :: x in articles + [a] <==> x in articles || x == a;
  }

  lemma {:induction false} TrimLeftSpaceLower(s: string)
    ensures TrimLeftSpace(Lower(s)) == Lower(TrimLeftSpace(s))
  {
    if s != [] {
      LowerCharSpace(s[0]);
      TrimLeftSpaceLower(s[1..]);
    }
  }

  lemma {:induction false} TrimRightSpaceLower(s: string)
    ensures TrimRightSpace(Lower(s)) == Lower(TrimRightSpace(s))
  {
    if s != [] {
      assert s == s[..|s| - 1] + [s[|s| - 1]];
      LowerAppend(s[..|s| - 1], [s[|s| - 1]]);
      LowerCharSpace(s[|s| - 1]);
      TrimRightSpaceLower(s[..|s| - 1]);
    }
  }

  /**
   * Two articles whose URLs differ only in letter case and in surrounding
   * white space share a key, so the filter keeps at most one of them.
   */
  lemma CanonicalKeyNormalisesUrl(a: ArticleRaw, pre: string, post: string)
    requires forall k :: 0 <= k < |pre| ==> IsSpace(pre[k])
    requires forall k :: 0 <= k < |post| ==> IsSpace(post[k])
    requires TrimSpace(a.url) != []
    ensures CanonicalKey(a.(url := pre + a.url + post)) == CanonicalKey(a)
    ensures CanonicalKey(a.(url := Lower(a.url))) == CanonicalKey(a)
    ensures CanonicalKey(a) == Lower(TrimSpace(a.url))
  {
    TrimSpacePadded(pre, a.url, post);
    TrimLeftSpaceLower(a.url);
    TrimRightSpaceLower(TrimLeftSpace(a.url));
    LowerIdempotent(TrimSpace(a.url));
  }

  /** Without a URL the key falls back to the lower-cased trimmed title. */
  lemma CanonicalKeyFallsBackToTitle(a: ArticleRaw)
    requires TrimSpace(a.url) == []
    ensures CanonicalKey(a) == Lower(TrimSpace(a.title))
  {
  }
}
