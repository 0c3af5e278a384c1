/**
 * The categorizer (internal/gemini/categorizer.go): it sends the collected
 * articles to the model in batches, reads back one category per article id,
 * keeps a category only when it is one of the configured ones (compared
 * without case and surrounding white space) and gives every article the model
 * skipped or misfiled the default category, returning one entry per input
 * article in input order.
 *
 * The model client is an oracle: `replies(b)` is what GenerateText returned
 * for batch `b`, and `parse` is the JSON decoder of a reply text into records.
 * The pacing clock is an oracle too: `elapsed(b)` is the time between the end
 * of batch `b - 1` and the start of batch `b`. A cancellable wait is named by
 * the batch it precedes.
 */
module Categorizer {
  import opened Common
  import opened GoStrings
  import opened News
  import opened Batching
  import opened JsonArray
  import GeminiClient

  const DefaultBatchSize: nat := 15

  /** At most two categorization requests a minute. */
  const MinDelayBetweenRequests: int := 30 * Second

  /** The settings a categorizer keeps: the allowed categories and the batch size. */
  datatype Categorizer = Categorizer(categories: seq<string>, batchSize: nat)

  /** One element of the model's reply: an article id and the category it chose. */
  datatype CategoryRecord = CategoryRecord(id: string, category: string)

  /** NewCategorizer: a non-positive configured batch size falls back to 15. */
  function NewCategorizer(configuredBatchSize: int, categories: seq<string>): (c: Categorizer)
    ensures c.categories == categories && c.batchSize > 0
    ensures configuredBatchSize > 0 ==> c.batchSize == configuredBatchSize
    ensures configuredBatchSize <= 0 ==> c.batchSize == DefaultBatchSize
  {
    Categorizer(categories, ConfiguredBatchSize(configuredBatchSize, DefaultBatchSize) as nat)
  }

  // ------------------------------------------------------------ categories

  /** A category is valid when it equals a configured one up to case and surrounding white space. */
  predicate ValidCategory(categories: seq<string>, category: string)
  {
    exists k | 0 <= k < |categories| :: EqualFold(TrimSpace(category), TrimSpace(categories[k]))
  }

  /** isValidCategory: the scan over the configured categories. */
  method IsValidCategory(categories: seq<string>, category: string) returns (ok: bool)
    ensures ok <==> ValidCategory(categories, category)
  {
    var trimmed := TrimSpace(category);
    var k := 0;
    while k < |categories|
      invariant k <= |categories|
      invariant forall j :: 0 <= j < k ==> !EqualFold(trimmed, TrimSpace(categories[j]))
    {
      if EqualFold(trimmed, TrimSpace(categories[k])) {
        return true;
      }
      k := k + 1;
    }
    return false;
  }

  /** The category an article receives from a record: the trimmed answer, or the default when it is not allowed. */
  function Chosen(categories: seq<string>, answer: string): (c: string)
    ensures ValidCategory(categories, c) || c == DefaultCategory
    ensures ValidCategory(categories, TrimSpace(answer)) ==> c == TrimSpace(answer)
    ensures !ValidCategory(categories, TrimSpace(answer)) ==> c == DefaultCategory
  {
    var trimmed := TrimSpace(answer);
    if ValidCategory(categories, trimmed) then trimmed else DefaultCategory
  }

  // ------------------------------------------------------------ the reply

  /**
   * The error a failed GenerateText call is reported as: a quota error when
   * its text mentions "quota" or "rpd" in any letter case.
   */
  function GenerateFailure(e: string): string
  {
    if GeminiClient.Mentions(e, "quota") || GeminiClient.Mentions(e, "rpd")
    then "gemini API quota exceeded (RPD limit): " + e
    else "generate text: " + e
  }

  /**
   * The two quota failures of the client reach the categorizer's caller as
   * quota errors, so the run stops with the quota diagnosis.
   */
  lemma QuotaFailuresReported(e: string, classify: string -> GeminiClient.ErrorClass)
    requires classify(e) == GeminiClient.RpdQuota || classify(e) == GeminiClient.QuotaExceeded
    ensures var m := GeminiClient.Final(GeminiClient.CallFailed(e), classify).error;
            GenerateFailure(m) == "gemini API quota exceeded (RPD limit): " + m
  {
    if classify(e) == GeminiClient.RpdQuota {
      DailyQuotaMessage(e);
    } else {
      QuotaMessage(e);
    }
  }

  lemma DailyQuotaMessage(e: string)
    ensures GeminiClient.Mentions("gemini API RPD quota exceeded (daily limit reached): " + e, "quota")
  {
    GeminiClient.MentionsAt("gemini API RPD quota exceeded (daily limit reached): " + e, "quota", 15);
  }

  lemma QuotaMessage(e: string)
    ensures GeminiClient.Mentions("gemini API quota exceeded: " + e, "quota")
  {
    GeminiClient.MentionsAt("gemini API quota exceeded: " + e, "quota", 11);
  }

  /**
   * The records of a reply: the reply decoded as it is, or else the array
   * extractJSON cuts out of it, with the decoder's error and the raw reply in
   * the message when neither decodes.
   */
  function ParseReply<R>(text: string, parse: string -> Result<R>): Result<R>
  {
    match parse(text)
    case Ok(records) => Ok(records)
    case Err(e) =>
      var cleaned := CleanedJson(text);
      if cleaned == "" then Err("unmarshal response: " + e + " (raw: " + text + ")")
      else match parse(cleaned)
        case Ok(records) => Ok(records)
        case Err(e2) => Err("unmarshal cleaned response: " + e2 + " (raw: " + text + ")")
  }

  /** The reply decoder step of categorizeBatch, with extractJSON as a loop. */
  method DecodeReply<R>(text: string, parse: string -> Result<R>) returns (r: Result<R>)
    ensures r == ParseReply(text, parse)
    ensures parse(text).Ok? ==> r == parse(text)
    ensures r.Ok? <==> parse(text).Ok? || (CleanedJson(text) != "" && parse(CleanedJson(text)).Ok?)
  {
    r := parse(text);
    if r.Err? {
      var e := r.error;
      var cleaned := ExtractFencedArray(text);
      if cleaned == "" {
        return Err("unmarshal response: " + e + " (raw: " + text + ")");
      }
      r := parse(cleaned);
      if r.Err? {
        r := Err("unmarshal cleaned response: " + r.error + " (raw: " + text + ")");
      }
    }
  }

  // ------------------------------------------------------- reference result

  /** The last record about `id` among the first `n`. */
  function LastRecord(records: seq<CategoryRecord>, n: nat, id: string): (r: Option<CategoryRecord>)
    requires n <= |records|
    ensures r.Some? ==> r.value.id == id
    ensures r.None? <==> forall k :: 0 <= k < n ==> records[k].id != id
  {
    if n == 0 then None
    else if records[n - 1].id == id then Some(records[n - 1])
    else LastRecord(records, n - 1, id)
  }

  /** The last article with `id` among the first `n`. */
  function LastArticle(batch: seq<ArticleRaw>, n: nat, id: string): (r: Option<ArticleRaw>)
    requires n <= |batch|
    ensures r.Some? ==> r.value.id == id
    ensures r.None? <==> forall k :: 0 <= k < n ==> batch[k].id != id
  {
    if n == 0 then None
    else if batch[n - 1].id == id then Some(batch[n - 1])
    else LastArticle(batch, n - 1, id)
  }

  /** The first article with `id` among the first `n`. */
  function FirstArticle(batch: seq<ArticleRaw>, n: nat, id: string): (r: Option<ArticleRaw>)
    requires n <= |batch|
    ensures r.Some? ==> r.value.id == id
    ensures r.None? <==> forall k :: 0 <= k < n ==> batch[k].id != id
  {
    if n == 0 then None
    else if FirstArticle(batch, n - 1, id).Some? then FirstArticle(batch, n - 1, id)
    else if batch[n - 1].id == id then Some(batch[n - 1])
    else None
  }

  /**
   * What categorizeBatch gives the i-th article of a batch. With a record for
   * its id, the category of the last such record, attached to the LAST article
   * of the batch with that id; without one, the default category, attached to
   * the FIRST article with that id.
   */
  function Categorized(categories: seq<string>, batch: seq<ArticleRaw>, records: seq<CategoryRecord>, i: nat): CategorizedArticle
    requires i < |batch|
  {
    var id := batch[i].id;
    match LastRecord(records, |records|, id)
    case Some(r) =>
      CategorizedArticle(LastArticle(batch, |batch|, id).value, Chosen(categories, r.category), 0.0, 0.0)
    case None =>
      CategorizedArticle(FirstArticle(batch, |batch|, id).value, DefaultCategory, 0.0, 0.0)
  }

  function Assign(categories: seq<string>, batch: seq<ArticleRaw>, records: seq<CategoryRecord>): seq<CategorizedArticle>
  {
    seq(|batch|, i requires 0 <= i < |batch| => Categorized(categories, batch, records, i))
  }

  /**
   * Every article of a batch gets exactly one entry, in batch order, with its
   * own id and an allowed category or the default one.
   */
  lemma AssignShape(categories: seq<string>, batch: seq<ArticleRaw>, records: seq<CategoryRecord>)
    ensures |Assign(categories, batch, records)| == |batch|
    ensures forall i :: 0 <= i < |batch| ==> Assign(categories, batch, records)[i].article.id == batch[i].id
    ensures forall i :: 0 <= i < |batch| ==>
              var c := Assign(categories, batch, records)[i].category;
              ValidCategory(categories, c) || c == DefaultCategory
  {
  }

  /** When the ids of a batch are distinct, every entry carries its own article. */
  lemma AssignDistinct(categories: seq<string>, batch: seq<ArticleRaw>, records: seq<CategoryRecord>)
    requires forall k, l :: 0 <= k < l < |batch| ==> batch[k].id != batch[l].id
    ensures forall i :: 0 <= i < |batch| ==> Assign(categories, batch, records)[i].article == batch[i]
  {
    forall i | 0 <= i < |batch|
      ensures Assign(categories, batch, records)[i].article == batch[i]
    {
      LastArticleUnique(batch, |batch|, i);
      FirstArticleUnique(batch, |batch|, i);
    }
  }

  /**
   * An article the model gave an allowed category keeps that category, and an
   * article the model did not mention gets the default one.
   */
  lemma AssignCategory(categories: seq<string>, batch: seq<ArticleRaw>, records: seq<CategoryRecord>, i: nat)
    requires i < |batch|
    ensures LastRecord(records, |records|, batch[i].id).None? ==>
              Assign(categories, batch, records)[i].category == DefaultCategory
    ensures forall k :: 0 <= k < |records| && records[k].id == batch[i].id
              && (forall l :: k < l < |records| ==> records[l].id != batch[i].id)
              && ValidCategory(categories, TrimSpace(records[k].category))
              ==> Assign(categories, batch, records)[i].category == TrimSpace(records[k].category)
  {
    assert Assign(categories, batch, records)[i] == Categorized(categories, batch, records, i);
    forall k | 0 <= k < |records| && records[k].id == batch[i].id
      && (forall l :: k < l < |records| ==> records[l].id != batch[i].id)
      ensures LastRecord(records, |records|, batch[i].id) == Some(records[k])
    {
      LastRecordIs(records, |records|, k);
    }
  }

  lemma {:induction false} LastRecordIs(records: seq<CategoryRecord>, n: nat, k: nat)
    requires k < n <= |records|
    requires forall l :: k < l < n ==> records[l].id != records[k].id
    ensures LastRecord(records, n, records[k].id) == Some(records[k])
  {
    if k < n - 1 {
      LastRecordIs(records, n - 1, k);
    }
  }

  lemma {:induction false} LastArticleUnique(batch: seq<ArticleRaw>, n: nat, i: nat)
    requires i < n <= |batch|
    requires forall k, l :: 0 <= k < l < |batch| ==> batch[k].id != batch[l].id
    ensures LastArticle(batch, n, batch[i].id) == Some(batch[i])
  {
    if i < n - 1 {
      LastArticleUnique(batch, n - 1, i);
    }
  }

  lemma {:induction false} FirstArticleUnique(batch: seq<ArticleRaw>, n: nat, i: nat)
    requires i < n <= |batch|
    requires forall k, l :: 0 <= k < l < |batch| ==> batch[k].id != batch[l].id
    ensures FirstArticle(batch, n, batch[i].id) == Some(batch[i])
  {
    if i < n - 1 {
      FirstArticleUnique(batch, n - 1, i);
    } else {
      assert FirstArticle(batch, n - 1, batch[i].id).None?;
    }
  }

  // ------------------------------------------------ the maps the code builds

  /** articleMap after its loop has seen the first n articles. */
  ghost function ArticleIndex(batch: seq<ArticleRaw>, n: nat): map<string, ArticleRaw>
    requires n <= |batch|
  {
    if n == 0 then map[] else ArticleIndex(batch, n - 1)[batch[n - 1].id := batch[n - 1]]
  }

  /** categorizedMap after the record loop has seen the first n records. */
  ghost function Recorded(categories: seq<string>, index: map<string, ArticleRaw>, records: seq<CategoryRecord>, n: nat)
    : map<string, CategorizedArticle>
    requires n <= |records|
  {
    if n == 0 then map[]
    else
      var m := Recorded(categories, index, records, n - 1);
      var r := records[n - 1];
      if r.id in index then m[r.id := CategorizedArticle(index[r.id], Chosen(categories, r.category), 0.0, 0.0)]
      else m
  }

  /** categorizedMap after the fallback loop has seen the first n articles. */
  ghost function Completed(m: map<string, CategorizedArticle>, batch: seq<ArticleRaw>, n: nat): map<string, CategorizedArticle>
    requires n <= |batch|
  {
    if n == 0 then m
    else
      var c := Completed(m, batch, n - 1);
      var a := batch[n - 1];
      if a.id in c then c else c[a.id := CategorizedArticle(a, DefaultCategory, 0.0, 0.0)]
  }

  lemma {:induction false} ArticleIndexLast(batch: seq<ArticleRaw>, n: nat, id: string)
    requires n <= |batch|
    ensures id in ArticleIndex(batch, n) <==> LastArticle(batch, n, id).Some?
    ensures id in ArticleIndex(batch, n) ==> ArticleIndex(batch, n)[id] == LastArticle(batch, n, id).value
  {
    if n > 0 {
      ArticleIndexLast(batch, n - 1, id);
    }
  }

  lemma {:induction false} RecordedLast(categories: seq<string>, index: map<string, ArticleRaw>,
                                        records: seq<CategoryRecord>, n: nat, id: string)
    requires n <= |records|
    ensures id in Recorded(categories, index, records, n) <==> id in index && LastRecord(records, n, id).Some?
    ensures id in Recorded(categories, index, records, n) ==>
              Recorded(categories, index, records, n)[id]
              == CategorizedArticle(index[id], Chosen(categories, LastRecord(records, n, id).value.category), 0.0, 0.0)
  {
    if n > 0 {
      RecordedLast(categories, index, records, n - 1, id);
    }
  }

  lemma {:induction false} CompletedFirst(m: map<string, CategorizedArticle>, batch: seq<ArticleRaw>, n: nat, id: string)
    requires n <= |batch|
    ensures id in m ==> id in Completed(m, batch, n) && Completed(m, batch, n)[id] == m[id]
    ensures id !in m ==> (id in Completed(m, batch, n) <==> FirstArticle(batch, n, id).Some?)
    ensures id !in m && id in Completed(m, batch, n) ==>
              Completed(m, batch, n)[id] == CategorizedArticle(FirstArticle(batch, n, id).value, DefaultCategory, 0.0, 0.0)
  {
    if n > 0 {
      CompletedFirst(m, batch, n - 1, id);
    }
  }

  /** The three maps of categorizeBatch, read at an article's id, give the reference entry. */
  lemma MapsGiveAssign(categories: seq<string>, batch: seq<ArticleRaw>, records: seq<CategoryRecord>, i: nat)
    requires i < |batch|
    ensures var index := ArticleIndex(batch, |batch|);
            var m := Completed(Recorded(categories, index, records, |records|), batch, |batch|);
            batch[i].id in m && m[batch[i].id] == Categorized(categories, batch, records, i)
  {
    var id := batch[i].id;
    var index := ArticleIndex(batch, |batch|);
    var recorded := Recorded(categories, index, records, |records|);
    ArticleIndexLast(batch, |batch|, id);
    RecordedLast(categories, index, records, |records|, id);
    CompletedFirst(recorded, batch, |batch|, id);
  }

  // ------------------------------------------------------------- one batch

  /** What categorizeBatch returns for a batch, given the GenerateText outcome for it. */
  function BatchOutcome(categories: seq<string>, batch: seq<ArticleRaw>, reply: Result<string>,
                        parse: string -> Result<seq<CategoryRecord>>): Result<seq<CategorizedArticle>>
  {
    match reply
    case Err(e) => Err(GenerateFailure(e))
    case Ok(text) =>
      match ParseReply(text, parse)
      case Err(e) => Err(e)
      case Ok(records) => Ok(Assign(categories, batch, records))
  }

  /** categorizeBatch: the article map, the record loop, the fallback loop and the ordered read-out. */
  method CategorizeBatch(c: Categorizer, batch: seq<ArticleRaw>, reply: Result<string>,
                         parse: string -> Result<seq<CategoryRecord>>)
    returns (r: Result<seq<CategorizedArticle>>)
    ensures r == BatchOutcome(c.categories, batch, reply, parse)
  {
    var articleMap: map<string, ArticleRaw> := map[];
    var i := 0;
    while i < |batch|
      invariant i <= |batch|
      invariant articleMap == ArticleIndex(batch, i)
    {
      articleMap := articleMap[batch[i].id := batch[i]];
      i := i + 1;
    }

    if reply.Err? {
      return Err(GenerateFailure(reply.error));
    }
    var decoded := DecodeReply(reply.value, parse);
    if decoded.Err? {
      return Err(decoded.error);
    }
    var results := AssignRecords(c.categories, batch, articleMap, decoded.value);
    return Ok(results);
  }

  /** The category step of the record loop: trim, check, fall back. */
  method ChooseCategory(categories: seq<string>, answer: string) returns (category: string)
    ensures category == Chosen(categories, answer)
  {
    category := TrimSpace(answer);
    var ok := IsValidCategory(categories, category);
    if !ok {
      category := DefaultCategory;
    }
  }

  /** The second half of categorizeBatch: the record loop, the fallback loop and the ordered read-out. */
  method AssignRecords(categories: seq<string>, batch: seq<ArticleRaw>, articleMap: map<string, ArticleRaw>,
                       records: seq<CategoryRecord>)
    returns (results: seq<CategorizedArticle>)
    requires articleMap == ArticleIndex(batch, |batch|)
    ensures results == Assign(categories, batch, records)
  {
    var recorded := RecordCategories(categories, articleMap, records);
    var categorized := CompleteDefaults(recorded, batch);
    results := ReadOutCategorized(categories, batch, records, categorized);
  }

  /** The record loop: every record of a batch article files it under the category chosen for it. */
  method RecordCategories(categories: seq<string>, articleMap: map<string, ArticleRaw>, records: seq<CategoryRecord>)
    returns (categorized: map<string, CategorizedArticle>)
    ensures categorized == Recorded(categories, articleMap, records, |records|)
  {
    categorized := map[];
    var j := 0;
    while j < |records|
      invariant j <= |records|
      invariant categorized == Recorded(categories, articleMap, records, j)
    {
      var record := records[j];
      if record.id in articleMap {
        var category := ChooseCategory(categories, record.category);
        categorized := categorized[record.id := CategorizedArticle(articleMap[record.id], category, 0.0, 0.0)];
      }
      j := j + 1;
    }
  }

  /** The default loop: a batch article no record named gets the default category. */
  method CompleteDefaults(recorded: map<string, CategorizedArticle>, batch: seq<ArticleRaw>)
    returns (categorized: map<string, CategorizedArticle>)
    ensures categorized == Completed(recorded, batch, |batch|)
  {
    categorized := recorded;
    var i := 0;
    while i < |batch|
      invariant i <= |batch|
      invariant categorized == Completed(recorded, batch, i)
    {
      if batch[i].id !in categorized {
        categorized := categorized[batch[i].id := CategorizedArticle(batch[i], DefaultCategory, 0.0, 0.0)];
      }
      i := i + 1;
    }
  }

  /** The read-out in batch order. */
  method ReadOutCategorized(categories: seq<string>, batch: seq<ArticleRaw>, ghost records: seq<CategoryRecord>,
                            categorized: map<string, CategorizedArticle>)
    returns (results: seq<CategorizedArticle>)
    requires categorized == Completed(Recorded(categories, ArticleIndex(batch, |batch|), records, |records|), batch, |batch|)
    ensures results == Assign(categories, batch, records)
  {
    results := [];
    var i := 0;
    while i < |batch|
      invariant i <= |batch|
      invariant |results| == i
      invariant forall k :: 0 <= k < i ==> results[k] == Categorized(categories, batch, records, k)
    {
      MapsGiveAssign(categories, batch, records, i);
      results := results + [categorized[batch[i].id]];
      i := i + 1;
    }
    assert results == Assign(categories, batch, records);
  }

  // ------------------------------------------------------------ all batches

  /** The error of batch [start, end). */
  function BatchError(start: nat, end: nat, e: string): string
    requires start < end
  {
    "categorize batch [" + Itoa(start) + "-" + Itoa(end - 1) + "]: " + e
  }

  /**
   * categorizeWithGemini from batch `b` on: wait before every batch but the
   * first when fewer than 30 s passed since the previous one (a cancelled wait
   * ends the run), stop at the first failed batch, and concatenate the rest.
   */
  function FromBatch(c: Categorizer, articles: seq<ArticleRaw>, eff: nat, b: nat,
                     replies: nat -> Result<string>, parse: string -> Result<seq<CategoryRecord>>,
                     elapsed: nat -> Time, cancel: Cancel): Result<seq<CategorizedArticle>>
    requires eff > 0
    decreases |articles| - BatchStart(eff, b)
  {
    var start := BatchStart(eff, b);
    if start >= |articles| then Ok([])
    else if b > 0 && elapsed(b) < MinDelayBetweenRequests && Interrupts(cancel, b) then Err(ContextCanceled)
    else
      var end := BatchEnd(|articles|, eff, start);
      match BatchOutcome(c.categories, articles[start..end], replies(b), parse)
      case Err(e) => Err(BatchError(start, end, e))
      case Ok(done) =>
        assert BatchStart(eff, b + 1) == start + eff;
        After(done, FromBatch(c, articles, eff, b + 1, replies, parse, elapsed, cancel))
  }

  /** A batch that starts inside the input, is not cancelled and succeeds is followed by the next one. */
  lemma FromBatchStep(c: Categorizer, articles: seq<ArticleRaw>, eff: nat, b: nat,
                      replies: nat -> Result<string>, parse: string -> Result<seq<CategoryRecord>>,
                      elapsed: nat -> Time, cancel: Cancel, done: seq<CategorizedArticle>)
    requires eff > 0 && BatchStart(eff, b) < |articles|
    requires !(b > 0 && elapsed(b) < MinDelayBetweenRequests && Interrupts(cancel, b))
    requires var start := BatchStart(eff, b);
             BatchOutcome(c.categories, articles[start..BatchEnd(|articles|, eff, start)], replies(b), parse) == Ok(done)
    ensures FromBatch(c, articles, eff, b, replies, parse, elapsed, cancel)
            == After(done, FromBatch(c, articles, eff, b + 1, replies, parse, elapsed, cancel))
  {
  }

  /** Categorize: nothing to do for no articles; a failure is reported under "categorize with Gemini". */
  function CategorizeSpec(c: Categorizer, articles: seq<ArticleRaw>, replies: nat -> Result<string>,
                          parse: string -> Result<seq<CategoryRecord>>, elapsed: nat -> Time, cancel: Cancel)
    : Result<seq<CategorizedArticle>>
    requires c.batchSize > 0
  {
    if articles == [] then Ok([])
    else
      match FromBatch(c, articles, EffectiveBatchSize(|articles|, c.batchSize), 0, replies, parse, elapsed, cancel)
      case Ok(results) => Ok(results)
      case Err(e) => Err("categorize with Gemini: " + e)
  }

  /** categorizeWithGemini: the paced batch loop. */
  method CategorizeWithGemini(c: Categorizer, articles: seq<ArticleRaw>, replies: nat -> Result<string>,
                              parse: string -> Result<seq<CategoryRecord>>, elapsed: nat -> Time, cancel: Cancel)
    returns (r: Result<seq<CategorizedArticle>>)
    requires c.batchSize > 0
    ensures articles != [] ==>
              r == FromBatch(c, articles, EffectiveBatchSize(|articles|, c.batchSize), 0, replies, parse, elapsed, cancel)
    ensures articles == [] ==> r == Ok([])
  {
    var eff := EffectiveBatchSize(|articles|, c.batchSize);
    var results: seq<CategorizedArticle> := [];
    var requestCount := 0;
    var i := 0;
    if articles != [] {
      AfterNothing(FromBatch(c, articles, eff, 0, replies, parse, elapsed, cancel));
    }
    while i < |articles|
      invariant i == BatchStart(eff, requestCount)
      invariant articles != [] ==> eff > 0
      invariant articles != [] ==>
                  FromBatch(c, articles, eff, 0, replies, parse, elapsed, cancel)
                  == After(results, FromBatch(c, articles, eff, requestCount, replies, parse, elapsed, cancel))
      invariant articles == [] ==> results == []
      decreases |articles| - i
    {
      var end := BatchEnd(|articles|, eff, i);
      if elapsed(requestCount) < MinDelayBetweenRequests && requestCount > 0 {
        if Interrupts(cancel, requestCount) {
          return Err(ContextCanceled);
        }
      }
      var batchResults := CategorizeBatch(c, articles[i..end], replies(requestCount), parse);
      if batchResults.Err? {
        return Err(BatchError(i, end, batchResults.error));
      }
      assert BatchStart(eff, requestCount + 1) == i + eff;
      FromBatchStep(c, articles, eff, requestCount, replies, parse, elapsed, cancel, batchResults.value);
      AfterAfter(results, batchResults.value, FromBatch(c, articles, eff, requestCount + 1, replies, parse, elapsed, cancel));
      results := results + batchResults.value;
      requestCount := requestCount + 1;
      i := i + eff;
    }
    assert results + [] == results;
    return Ok(results);
  }

  /** Categorize. */
  method Categorize(c: Categorizer, articles: seq<ArticleRaw>, replies: nat -> Result<string>,
                    parse: string -> Result<seq<CategoryRecord>>, elapsed: nat -> Time, cancel: Cancel)
    returns (r: Result<seq<CategorizedArticle>>)
    requires c.batchSize > 0
    ensures r == CategorizeSpec(c, articles, replies, parse, elapsed, cancel)
  {
    if |articles| == 0 {
      return Ok([]);
    }
    r := CategorizeWithGemini(c, articles, replies, parse, elapsed, cancel);
    if r.Err? {
      r := Err("categorize with Gemini: " + r.error);
    }
  }

  // ---------------------------------------------------------- coverage

  /** The entries of a batch-loop entry, one per article in [start, |articles|) in order. */
  predicate Covers(categories: seq<string>, articles: seq<ArticleRaw>, start: nat, results: seq<CategorizedArticle>)
    requires start <= |articles|
  {
    |results| == |articles| - start
    && (forall k :: 0 <= k < |results| ==> results[k].article.id == articles[start + k].id)
    && (forall k :: 0 <= k < |results| ==> ValidCategory(categories, results[k].category) || results[k].category == DefaultCategory)
  }

  lemma {:induction false} FromBatchCovers(c: Categorizer, articles: seq<ArticleRaw>, eff: nat, b: nat,
                                           replies: nat -> Result<string>, parse: string -> Result<seq<CategoryRecord>>,
                                           elapsed: nat -> Time, cancel: Cancel)
    requires eff > 0
    ensures var r := FromBatch(c, articles, eff, b, replies, parse, elapsed, cancel);
            var start := BatchStart(eff, b);
            r.Ok? ==> Covers(c.categories, articles, if start < |articles| then start else |articles|, r.value)
    decreases |articles| - BatchStart(eff, b)
  {
    var start := BatchStart(eff, b);
    if start < |articles| && !(b > 0 && elapsed(b) < MinDelayBetweenRequests && Interrupts(cancel, b)) {
      var end := BatchEnd(|articles|, eff, start);
      var batch := articles[start..end];
      var outcome := BatchOutcome(c.categories, batch, replies(b), parse);
      if outcome.Ok? {
        assert BatchStart(eff, b + 1) == start + eff;
        FromBatchStep(c, articles, eff, b, replies, parse, elapsed, cancel, outcome.value);
        FromBatchCovers(c, articles, eff, b + 1, replies, parse, elapsed, cancel);
        AssignShape(c.categories, batch, ParseReply(replies(b).value, parse).value);
        var rest := FromBatch(c, articles, eff, b + 1, replies, parse, elapsed, cancel);
        if rest.Ok? {
          CoversAppend(c.categories, articles, start, end, outcome.value, rest.value);
        }
      }
    }
  }

  lemma CoversAppend(categories: seq<string>, articles: seq<ArticleRaw>, start: nat, end: nat,
                     done: seq<CategorizedArticle>, rest: seq<CategorizedArticle>)
    requires start <= end <= |articles| && |done| == end - start
    requires forall k :: 0 <= k < |done| ==> done[k].article.id == articles[start..end][k].id
    requires forall k :: 0 <= k < |done| ==> ValidCategory(categories, done[k].category) || done[k].category == DefaultCategory
    requires Covers(categories, articles, end, rest)
    ensures Covers(categories, articles, start, done + rest)
  {
    forall k | 0 <= k < |done + rest|
      ensures (done + rest)[k].article.id == articles[start + k].id
    {
      if k < |done| {
        assert articles[start..end][k] == articles[start + k];
      } else {
        assert (done + rest)[k] == rest[k - |done|];
      }
    }
  }

  /**
   * A successful categorization returns exactly one entry per input article,
   * in input order, each with the article's id and an allowed category or
   * the default one.
   */
  lemma CategorizeCovers(c: Categorizer, articles: seq<ArticleRaw>, replies: nat -> Result<string>,
                         parse: string -> Result<seq<CategoryRecord>>, elapsed: nat -> Time, cancel: Cancel)
    requires c.batchSize > 0
    ensures var r := CategorizeSpec(c, articles, replies, parse, elapsed, cancel);
            r.Ok? ==> Covers(c.categories, articles, 0, r.value)
  {
    if articles != [] {
      FromBatchCovers(c, articles, EffectiveBatchSize(|articles|, c.batchSize), 0, replies, parse, elapsed, cancel);
    }
  }
}
