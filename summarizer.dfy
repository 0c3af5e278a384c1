/**
 * The summarizer (internal/gemini/summarizer.go): it sends the categorized
 * articles to the model in batches, reads back a Russian summary per article
 * id and turns every article into a digest entry, with the article's title
 * standing in for a summary the model left out or left blank.
 *
 * As in the categorizer, `replies(b)` is the GenerateText outcome of batch
 * `b`, `parse` the JSON decoder, `elapsed(b)` the time since the previous
 * request when batch `b` starts, and a cancellable wait is named by the
 * batch it precedes.
 */
module Summarizer {
  import opened Common
  import opened GoStrings
  import opened News
  import opened Batching
  import opened JsonArray
  import opened Categorizer

  const DefaultSummaryBatchSize: nat := 5

  /** At most five summary requests a minute. */
  const MinDelayBetweenSummaries: int := 12 * Second

  datatype Summarizer = Summarizer(batchSize: nat)

  /** One element of the model's reply: an article id and its summary. */
  datatype SummaryRecord = SummaryRecord(id: string, summaryRu: string)

  /** NewSummarizer: a non-positive configured batch size falls back to 5. */
  function NewSummarizer(configuredBatchSize: int): (s: Summarizer)
    ensures s.batchSize > 0
    ensures configuredBatchSize > 0 ==> s.batchSize == configuredBatchSize
    ensures configuredBatchSize <= 0 ==> s.batchSize == DefaultSummaryBatchSize
  {
    Summarizer(ConfiguredBatchSize(configuredBatchSize, DefaultSummaryBatchSize) as nat)
  }

  // ------------------------------------------------------- reference result

  /** The last non-blank summary, trimmed, among the first n records about `id`. */
  function LastSummary(records: seq<SummaryRecord>, n: nat, id: string): (r: Option<string>)
    requires n <= |records|
    ensures r.Some? ==> r.value != "" && TrimSpace(r.value) == r.value
    ensures r.None? <==> forall k :: 0 <= k < n && records[k].id == id ==> TrimSpace(records[k].summaryRu) == ""
  {
    if n == 0 then None
    else if records[n - 1].id == id && TrimSpace(records[n - 1].summaryRu) != "" then
      TrimSpaceIdempotent(records[n - 1].summaryRu);
      Some(TrimSpace(records[n - 1].summaryRu))
    else LastSummary(records, n - 1, id)
  }

  /** The digest entry of an article with a given summary; the translated title is left empty. */
  function Entry(a: CategorizedArticle, summary: string): DigestEntry
  {
    DigestEntry(a.article.id, a.category, a.article.title, "", a.article.url, summary, a.article.source, a.article.publishedAt)
  }

  /** What summarizeBatch gives an article: the model's summary, or the title when there is none. */
  function Summarized(a: CategorizedArticle, records: seq<SummaryRecord>): DigestEntry
  {
    match LastSummary(records, |records|, a.article.id)
    case Some(summary) => Entry(a, summary)
    case None => Entry(a, a.article.title)
  }

  /**
   * An entry copies the article's fields and carries either a trimmed,
   * non-blank summary from the reply or, when the reply has none for the id,
   * the article's title.
   */
  lemma SummarizedFields(a: CategorizedArticle, records: seq<SummaryRecord>)
    ensures var d := Summarized(a, records);
            d.id == a.article.id && d.category == a.category && d.title == a.article.title
            && d.url == a.article.url && d.source == a.article.source && d.publishedAt == a.article.publishedAt
            && d.titleRu == ""
    ensures var d := Summarized(a, records);
            (exists k :: 0 <= k < |records| && records[k].id == a.article.id && TrimSpace(records[k].summaryRu) != "")
            ==> d.summaryRu != "" && TrimSpace(d.summaryRu) == d.summaryRu
    ensures (forall k :: 0 <= k < |records| && records[k].id == a.article.id ==> TrimSpace(records[k].summaryRu) == "")
            ==> Summarized(a, records).summaryRu == a.article.title
  {
  }

  // ------------------------------------------------ the map the code builds

  /** summariesMap after its loop has seen the first n records. */
  ghost function SummaryIndex(records: seq<SummaryRecord>, n: nat): map<string, string>
    requires n <= |records|
  {
    if n == 0 then map[]
    else
      var m := SummaryIndex(records, n - 1);
      var summary := TrimSpace(records[n - 1].summaryRu);
      if summary != "" then m[records[n - 1].id := summary] else m
  }

  lemma {:induction false} SummaryIndexLast(records: seq<SummaryRecord>, n: nat, id: string)
    requires n <= |records|
    ensures id in SummaryIndex(records, n) <==> LastSummary(records, n, id).Some?
    ensures id in SummaryIndex(records, n) ==> SummaryIndex(records, n)[id] == LastSummary(records, n, id).value
  {
    if n > 0 {
      SummaryIndexLast(records, n - 1, id);
    }
  }

  // ------------------------------------------------------------- one batch

  /** What summarizeBatch returns for a batch, given the GenerateText outcome for it. */
  function SummaryOutcome(batch: seq<CategorizedArticle>, reply: Result<string>,
                          parse: string -> Result<seq<SummaryRecord>>): Result<seq<DigestEntry>>
  {
    match reply
    case Err(e) => Err(GenerateFailure(e))
    case Ok(text) =>
      match ParseReply(text, parse)
      case Err(e) => Err(e)
      case Ok(records) => Ok(seq(|batch|, i requires 0 <= i < |batch| => Summarized(batch[i], records)))
  }

  /** summarizeBatch. */
  method SummarizeBatch(batch: seq<CategorizedArticle>, reply: Result<string>,
                        parse: string -> Result<seq<SummaryRecord>>)
    returns (r: Result<seq<DigestEntry>>)
    ensures r == SummaryOutcome(batch, reply, parse)
  {
    if reply.Err? {
      return Err(GenerateFailure(reply.error));
    }
    var decoded := DecodeReply(reply.value, parse);
    if decoded.Err? {
      return Err(decoded.error);
    }
    var entries := EntriesOf(batch, decoded.value);
    return Ok(entries);
  }

  /** The second half of summarizeBatch: the summary map and the read-out in batch order. */
  method EntriesOf(batch: seq<CategorizedArticle>, records: seq<SummaryRecord>) returns (results: seq<DigestEntry>)
    ensures results == seq(|batch|, i requires 0 <= i < |batch| => Summarized(batch[i], records))
  {
    var summaries := IndexSummaries(records);
    results := ReadOut(batch, records, summaries);
  }

  /** The summary map: for each id, the trimmed summary of its last record with a non-blank one. */
  method IndexSummaries(records: seq<SummaryRecord>) returns (summaries: map<string, string>)
    ensures summaries == SummaryIndex(records, |records|)
  {
    summaries := map[];
    var j := 0;
    while j < |records|
      invariant j <= |records|
      invariant summaries == SummaryIndex(records, j)
    {
      var summary := TrimSpace(records[j].summaryRu);
      if summary != "" {
        summaries := summaries[records[j].id := summary];
      }
      j := j + 1;
    }
  }

  /** The read-out in batch order. */
  method ReadOut(batch: seq<CategorizedArticle>, ghost records: seq<SummaryRecord>, summaries: map<string, string>)
    returns (results: seq<DigestEntry>)
    requires summaries == SummaryIndex(records, |records|)
    ensures results == seq(|batch|, i requires 0 <= i < |batch| => Summarized(batch[i], records))
  {
    results := [];
    var i := 0;
    while i < |batch|
      invariant i <= |batch|
      invariant |results| == i
      invariant forall k :: 0 <= k < i ==> results[k] == Summarized(batch[k], records)
    {
      var entry := EntryFor(batch[i], records, summaries);
      results := results + [entry];
      i := i + 1;
    }
  }

  /** One step of the read-out: the entry of an article, from the summary map. */
  method EntryFor(a: CategorizedArticle, ghost records: seq<SummaryRecord>, summaries: map<string, string>)
    returns (entry: DigestEntry)
    requires summaries == SummaryIndex(records, |records|)
    ensures entry == Summarized(a, records)
  {
    SummaryIndexLast(records, |records|, a.article.id);
    var summary := "";
    var found := a.article.id in summaries;
    if found {
      summary := summaries[a.article.id];
    }
    if !found || summary == "" {
      summary := a.article.title;
    }
    entry := Entry(a, summary);
  }

  // ------------------------------------------------------------ all batches

  /** The error of batch [start, end). */
  function SummaryBatchError(start: nat, end: nat, e: string): string
    requires start < end
  {
    "summarize batch [" + Itoa(start) + "-" + Itoa(end - 1) + "]: " + e
  }

  /**
   * Summarize from batch `b` on: wait before every batch but the first when
   * fewer than 12 s passed since the previous one (a cancelled wait ends the
   * run), stop at the first failed batch, concatenate the rest.
   */
  function SummariesFrom(articles: seq<CategorizedArticle>, eff: nat, b: nat,
                         replies: nat -> Result<string>, parse: string -> Result<seq<SummaryRecord>>,
                         elapsed: nat -> Time, cancel: Cancel): Result<seq<DigestEntry>>
    requires eff > 0
    decreases |articles| - BatchStart(eff, b)
  {
    var start := BatchStart(eff, b);
    if start >= |articles| then Ok([])
    else if b > 0 && elapsed(b) < MinDelayBetweenSummaries && Interrupts(cancel, b) then Err(ContextCanceled)
    else
      var end := BatchEnd(|articles|, eff, start);
      match SummaryOutcome(articles[start..end], replies(b), parse)
      case Err(e) => Err(SummaryBatchError(start, end, e))
      case Ok(done) =>
        assert BatchStart(eff, b + 1) == start + eff;
        After(done, SummariesFrom(articles, eff, b + 1, replies, parse, elapsed, cancel))
  }

  /** Summarize: nothing to do for no articles. */
  function SummarizeSpec(s: Summarizer, articles: seq<CategorizedArticle>, replies: nat -> Result<string>,
                         parse: string -> Result<seq<SummaryRecord>>, elapsed: nat -> Time, cancel: Cancel)
    : Result<seq<DigestEntry>>
    requires s.batchSize > 0
  {
    if articles == [] then Ok([])
    else SummariesFrom(articles, EffectiveBatchSize(|articles|, s.batchSize), 0, replies, parse, elapsed, cancel)
  }

  lemma SummariesFromStep(articles: seq<CategorizedArticle>, eff: nat, b: nat,
                          replies: nat -> Result<string>, parse: string -> Result<seq<SummaryRecord>>,
                          elapsed: nat -> Time, cancel: Cancel, done: seq<DigestEntry>)
    requires eff > 0 && BatchStart(eff, b) < |articles|
    requires !(b > 0 && elapsed(b) < MinDelayBetweenSummaries && Interrupts(cancel, b))
    requires var start := BatchStart(eff, b);
             SummaryOutcome(articles[start..BatchEnd(|articles|, eff, start)], replies(b), parse) == Ok(done)
    ensures SummariesFrom(articles, eff, b, replies, parse, elapsed, cancel)
            == After(done, SummariesFrom(articles, eff, b + 1, replies, parse, elapsed, cancel))
  {
  }

  /** Summarize: the paced batch loop. */
  method Summarize(s: Summarizer, articles: seq<CategorizedArticle>, replies: nat -> Result<string>,
                   parse: string -> Result<seq<SummaryRecord>>, elapsed: nat -> Time, cancel: Cancel)
    returns (r: Result<seq<DigestEntry>>)
    requires s.batchSize > 0
    ensures r == SummarizeSpec(s, articles, replies, parse, elapsed, cancel)
  {
    if |articles| == 0 {
      return Ok([]);
    }
    var eff := EffectiveBatchSize(|articles|, s.batchSize);
    var results: seq<DigestEntry> := [];
    var requestCount := 0;
    var i := 0;
    AfterNothing(SummariesFrom(articles, eff, 0, replies, parse, elapsed, cancel));
    while i < |articles|
      invariant i == BatchStart(eff, requestCount)
      invariant SummariesFrom(articles, eff, 0, replies, parse, elapsed, cancel)
                == After(results, SummariesFrom(articles, eff, requestCount, replies, parse, elapsed, cancel))
      decreases |articles| - i
    {
      var end := BatchEnd(|articles|, eff, i);
      if elapsed(requestCount) < MinDelayBetweenSummaries && requestCount > 0 {
        if Interrupts(cancel, requestCount) {
          return Err(ContextCanceled);
        }
      }
      var batchResults := SummarizeBatch(articles[i..end], replies(requestCount), parse);
      if batchResults.Err? {
        return Err(SummaryBatchError(i, end, batchResults.error));
      }
      assert BatchStart(eff, requestCount + 1) == i + eff;
      SummariesFromStep(articles, eff, requestCount, replies, parse, elapsed, cancel, batchResults.value);
      AfterAfter(results, batchResults.value, SummariesFrom(articles, eff, requestCount + 1, replies, parse, elapsed, cancel));
      results := results + batchResults.value;
      requestCount := requestCount + 1;
      i := i + eff;
    }
    assert results + [] == results;
    return Ok(results);
  }

  // ---------------------------------------------------------- coverage

  /** The entry stands for the article: its id and category, and either a trimmed non-blank summary or the title. */
  predicate EntryCovers(d: DigestEntry, a: CategorizedArticle)
  {
    d.id == a.article.id && d.category == a.category
    && (d.summaryRu == a.article.title || (d.summaryRu != "" && TrimSpace(d.summaryRu) == d.summaryRu))
  }

  /** The entries from position `start` on: one per article, in order, each summarizing its article. */
  predicate SummaryCovers(articles: seq<CategorizedArticle>, start: nat, results: seq<DigestEntry>)
    requires start <= |articles|
  {
    |results| == |articles| - start
    && forall k :: 0 <= k < |results| ==> EntryCovers(results[k], articles[start + k])
  }

  lemma SummarizedCovers(a: CategorizedArticle, records: seq<SummaryRecord>)
    ensures EntryCovers(Summarized(a, records), a)
  {
  }

  lemma SummaryCoversAppend(articles: seq<CategorizedArticle>, start: nat, end: nat,
                            done: seq<DigestEntry>, rest: seq<DigestEntry>, records: seq<SummaryRecord>)
    requires start <= end <= |articles|
    requires done == seq(end - start, i requires 0 <= i < end - start => Summarized(articles[start..end][i], records))
    requires SummaryCovers(articles, end, rest)
    ensures SummaryCovers(articles, start, done + rest)
  {
    var all := done + rest;
    forall k | 0 <= k < |all| ensures EntryCovers(all[k], articles[start + k]) {
      if k < |done| {
        assert articles[start..end][k] == articles[start + k];
        assert all[k] == Summarized(articles[start + k], records);
        SummarizedCovers(articles[start + k], records);
      } else {
        assert all[k] == rest[k - |done|];
        assert start + k == end + (k - |done|);
      }
    }
  }

  lemma {:induction false} SummariesFromCover(articles: seq<CategorizedArticle>, eff: nat, b: nat,
                                              replies: nat -> Result<string>, parse: string -> Result<seq<SummaryRecord>>,
                                              elapsed: nat -> Time, cancel: Cancel)
    requires eff > 0
    ensures var r := SummariesFrom(articles, eff, b, replies, parse, elapsed, cancel);
            var start := BatchStart(eff, b);
            r.Ok? ==> SummaryCovers(articles, if start < |articles| then start else |articles|, r.value)
    decreases |articles| - BatchStart(eff, b)
  {
    var start := BatchStart(eff, b);
    if start < |articles| && !(b > 0 && elapsed(b) < MinDelayBetweenSummaries && Interrupts(cancel, b)) {
      var end := BatchEnd(|articles|, eff, start);
      var outcome := SummaryOutcome(articles[start..end], replies(b), parse);
      if outcome.Ok? {
        assert BatchStart(eff, b + 1) == start + eff;
        SummariesFromStep(articles, eff, b, replies, parse, elapsed, cancel, outcome.value);
        SummariesFromCover(articles, eff, b + 1, replies, parse, elapsed, cancel);
        var rest := SummariesFrom(articles, eff, b + 1, replies, parse, elapsed, cancel);
        if rest.Ok? {
          SummaryCoversAppend(articles, start, end, outcome.value, rest.value, ParseReply(replies(b).value, parse).value);
        }
      }
    }
  }

  /**
   * A successful run returns one digest entry per article, in input order,
   * with the article's id and category and either a trimmed non-blank
   * summary or the article's title.
   */
  lemma SummarizeCovers(s: Summarizer, articles: seq<CategorizedArticle>, replies: nat -> Result<string>,
                        parse: string -> Result<seq<SummaryRecord>>, elapsed: nat -> Time, cancel: Cancel)
    requires s.batchSize > 0
    ensures var r := SummarizeSpec(s, articles, replies, parse, elapsed, cancel);
            r.Ok? ==> SummaryCovers(articles, 0, r.value)
  {
    if articles != [] {
      SummariesFromCover(articles, EffectiveBatchSize(|articles|, s.batchSize), 0, replies, parse, elapsed, cancel);
    }
  }
}
