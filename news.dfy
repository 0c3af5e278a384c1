/**
 * The records that flow through the digest pipeline and the persisted bot
 * state (internal/news/types.go), plus the digest written between the build
 * and the send phase.
 */
module News {
  import opened Common

  /** An instant, in nanoseconds since the Unix epoch. */
  type Time = int

  const Second: int := 1_000_000_000
  const Hour: int := 3600 * Second

  /** One article as collected from a feed. */
  datatype ArticleRaw = ArticleRaw(
    id: string,
    source: string,
    title: string,
    url: string,
    publishedAt: Time,
    rawLanguage: string,
    rawContent: string,
    metadata: map<string, string>)

  /** An article with the category the model gave it and, later, its relevance score. */
  datatype CategorizedArticle = CategorizedArticle(
    article: ArticleRaw,
    category: string,
    categoryConfidence: real,
    relevanceScore: real)

  /**
   * One digest line. `titleRu` is the optional translated title the
   * formatter prefers; the empty string means there is none.
   */
  datatype DigestEntry = DigestEntry(
    id: string,
    category: string,
    title: string,
    titleRu: string,
    url: string,
    summaryRu: string,
    source: string,
    publishedAt: Time)

  /** One row of the sent-articles ledger. */
  datatype StateArticle = StateArticle(id: string, sentAt: Time)

  /** A chat the digest is delivered to. */
  datatype RecipientBinding = RecipientBinding(name: string, chatId: string, updatedAt: Time)

  /** The update cursor of the Telegram long-poll. */
  datatype TelegramState = TelegramState(lastUpdateId: int)

  /** The persisted state of the bot. */
  datatype State = State(
    lastRun: Time,
    sentArticles: seq<StateArticle>,
    recipients: seq<RecipientBinding>,
    telegram: TelegramState)

  /** The Telegram-ready messages built in one run and sent in a later one. */
  datatype Digest = Digest(messages: seq<Bytes>, createdAt: Time, articleIds: seq<string>)

  /** The category of an article the model did not place, or placed outside the configured list. */
  const DefaultCategory: string := "Другое / Разное"

  /** The ids recorded in a ledger. */
  function LedgerIds(ledger: seq<StateArticle>): (ids: set<string>)
    ensures forall k :: 0 <= k < |ledger| ==> ledger[k].id in ids
    ensures forall id :: id in ids ==> exists k :: 0 <= k < |ledger| && ledger[k].id == id
  {
    set k | 0 <= k < |ledger| :: ledger[k].id
  }

  lemma LedgerIdsAppend(ledger: seq<StateArticle>, row: StateArticle)
    ensures LedgerIds(ledger + [row]) == LedgerIds(ledger) + {row.id}
  {
    var l := ledger + [row];
    assert l[|ledger|] == row;
    forall id | id in LedgerIds(ledger) ensures id in LedgerIds(l) {
      var k :| 0 <= k < |ledger| && ledger[k].id == id;
      assert l[k] == ledger[k];
    }
  }
}
