# vietnam_bot_news, modelled in Dafny

vietnam_bot_news is a daily news-digest bot. Each run collects articles
from RSS feeds, filters out stale, future-dated, short, duplicate and
already-sent articles, and keeps only the newest ones when there are too
many. It asks the Gemini generator to categorise, rank and summarise them
in batches, formats the result as Telegram Markdown messages of at most
4096 bytes, and sends every message to every registered chat. A JSON state
file keeps the ledger of sent article ids (capped at 500 rows), the chat
recipients and the Telegram update cursor.

Besides the normal run there are three modes:
- build mode stores the formatted digest instead of sending it;
- send mode sends a stored digest, updates the ledger and deletes the digest;
- the test mode sends a fixed test message.

A separate command, scrape-rss, builds the per-site feed list from the
configured feeds.

The model has one Dafny module per Go file of the core:

| module | Go file |
|---|---|
| Pipeline | internal/app/pipeline.go |
| Filter | internal/filter/filter.go |
| Categorizer | internal/gemini/categorizer.go |
| Summarizer | internal/gemini/summarizer.go |
| GeminiClient | internal/gemini/client.go |
| Ranking | internal/ranking/ranker.go |
| Formatter, DigestDate | internal/formatter/formatter.go |
| Sender | internal/telegram/sender.go |
| Recipients | internal/telegram/recipients.go |
| RssCollector, XmlEntities | internal/sources/rss_collector.go |
| ScrapeRss | cmd/scrape-rss/main.go |
| News, TelegramTypes | internal/news/types.go, internal/telegram/types.go |

Some modules are shared:
- Common holds Result, Option, bytes and the cancellation datatype.
- GoStrings is the part of Go's strings package the core uses, plus UTF-8 encoding.
- Seqs and Sorting hold sequence helpers and one insertion sort by a total preorder. Every `sort.Slice` and `sort.Strings` call uses this sort.
- Batching holds the batch arithmetic that the categoriser and the summariser share.
- JsonArray is the bracket scan that both copies of `extractJSON` implement.

Code that updates state step by step becomes a Dafny `method` with loops.
Each such method is proved equal to a specification function, and the
lemmas about those functions carry the properties.

The collaborators are parameters of the model:
- the generator, the Telegram client, the feed fetcher and the state store;
- the clock;
- cancellation of the context.

A generator reply is text. The model extracts its JSON array as the
source does. Decoding that array into `{id, value}` records is an oracle. Times are integer nanoseconds.

## Model

| member | source | states |
|---|---|---|
| Filter.Apply | internal/filter/filter.go:23-66 | the result is the in-order subsequence of the input made of the first eligible article of every canonical key: each kept article was published within the recency window and not in the future, has trimmed content of at least the minimum length in runes and an id missing from the sent ledger; no two kept articles share a key; every eligible article's key is represented; nothing is ever reported as an error |
| Filter.SkipStep | internal/filter/filter.go:37-59 | an article that fails a check, or whose key was already taken, leaves the result and the loop invariant as they are |
| Filter.KeepStep | internal/filter/filter.go:61-62 | appending the first eligible article of a new key keeps the result traced to the input, all eligible, key-distinct and first-of-key |
| Filter.KeepFirst | internal/filter/filter.go:52-62 | an appended article is the earliest eligible article of its key, because every earlier eligible article's key was already recorded |
| Filter.CanonicalKeyNormalisesUrl | internal/filter/filter.go:68-74 | the key of an article with a URL is the URL trimmed and lower-cased, so URLs that differ only in case and surrounding white space collide |
| Filter.CanonicalKeyFallsBackToTitle | internal/filter/filter.go:70-72 | an article whose URL is blank is keyed by its trimmed, lower-cased title |
| News.LedgerIds | internal/filter/filter.go:26-29 | the set of sent ids holds exactly the ids recorded in the sent-articles ledger |
| News.LedgerIdsAppend | internal/app/pipeline.go:493-516 | recording one more sent article adds exactly its id to the sent ids |
| Batching.ConfiguredBatchSize | internal/gemini/categorizer.go:24-28 | a positive configured batch size is kept, any other value gives the component's default |
| Batching.EffectiveBatchSize | internal/gemini/summarizer.go:48-55 | the batch size used is at most the configured size and at most the number of articles, and positive when both are |
| Batching.BatchEnd | internal/gemini/categorizer.go:89-93 | a batch ends inside the input, no more than the effective size after its start, and holds at least one article when it starts inside the input |
| Batching.BatchCountExact | internal/gemini/categorizer.go:89 | the loop visits exactly the batches whose start lies inside the input |
| Batching.BatchOf | internal/gemini/summarizer.go:62-66 | every article lies in exactly one visited batch, the one its index divided by the effective size names |
| Batching.SingleBatch | internal/gemini/summarizer.go:48-55 | when all articles fit the configured size they go in one request holding all of them |
| Summarizer.NewSummarizer | internal/gemini/summarizer.go:23-33 | a positive configured batch size is kept, any other value gives 5; the batch size is always positive |
| Summarizer.LastSummary | internal/gemini/summarizer.go:145-151 | the summary filed for an id is trimmed and non-blank, and there is none exactly when every record about the id has a blank summary |
| Summarizer.SummaryIndexLast | internal/gemini/summarizer.go:145-151 | the summary map has an id exactly when some record gives it a non-blank summary, and holds the last such summary, trimmed |
| Summarizer.SummarizedFields | internal/gemini/summarizer.go:153-171 | an entry copies the article's id, category, title, URL, source and date, and carries the trimmed non-blank summary from the reply or, when the reply has none for the id, the article's title |
| Summarizer.SummarizedCovers | internal/gemini/summarizer.go:153-171 | every entry is an entry of its own article with a non-blank summary or its title |
| Summarizer.SummarizeBatch | internal/gemini/summarizer.go:99-174 | a failed request is reported with the quota diagnosis or the plain failure, an undecodable reply is an error, and otherwise every article of the batch gets one entry in batch order |
| Summarizer.IndexSummaries | internal/gemini/summarizer.go:145-151 | the loop builds, for each id, the trimmed summary of its last record with a non-blank one |
| Summarizer.ReadOut | internal/gemini/summarizer.go:153-173 | the read-out gives the entries of the batch articles in batch order |
| Summarizer.EntryFor | internal/gemini/summarizer.go:155-171 | one step of the read-out gives the article's entry from the summary map |
| Summarizer.EntriesOf | internal/gemini/summarizer.go:143-173 | the second half of a batch turns the decoded records into one entry per article in batch order |
| Summarizer.SummariesFromStep | internal/gemini/summarizer.go:62-92 | a batch that starts inside the input, whose wait is not cancelled and that succeeds is followed by the next batch, its entries first |
| Summarizer.Summarize | internal/gemini/summarizer.go:36-97 | no articles give no entries; otherwise the batches run in order with a wait before every batch but the first when fewer than 12 seconds passed, a cancelled wait ends the run with the context error, and the first failed batch ends it with an error naming its index range |
| Summarizer.SummaryCoversAppend | internal/gemini/summarizer.go:90 | appending a batch's entries before those of the later batches keeps one entry per article in input order |
| Summarizer.SummariesFromCover | internal/gemini/summarizer.go:62-92 | a successful run from any batch on returns one entry per remaining article, in input order |
| Summarizer.SummarizeCovers | internal/gemini/summarizer.go:36-97 | a successful run returns exactly one digest entry per article, in input order, with the article's id and category and either a trimmed non-blank summary or the article's title |
| Categorizer.NewCategorizer | internal/gemini/categorizer.go:24-35 | the categories are kept; a positive configured batch size is kept, any other value gives 15 |
| Categorizer.IsValidCategory | internal/gemini/categorizer.go:268-275 | a category is valid exactly when, trimmed, it matches one of the configured categories, trimmed, ignoring case |
| Categorizer.Chosen | internal/gemini/categorizer.go:185-189 | an article gets the model's answer trimmed when that is an allowed category, and the default category otherwise; either way the result is allowed or the default |
| Categorizer.ChooseCategory | internal/gemini/categorizer.go:185-189 | the trim-check-fallback step of the record loop gives the chosen category |
| Categorizer.QuotaFailuresReported | internal/gemini/categorizer.go:152-161 | both quota failures of the client (daily quota and other quota) reach the caller as quota errors, since their messages mention "quota" |
| Categorizer.DecodeReply | internal/gemini/categorizer.go:164-174 | a reply that parses as it stands is used directly; otherwise the JSON array extracted from it is parsed; decoding succeeds exactly when one of the two parses |
| Categorizer.LastRecord | internal/gemini/categorizer.go:178-195 | the record about an id is the last one naming it, and there is none exactly when no record names it |
| Categorizer.RecordedLast | internal/gemini/categorizer.go:178-195 | the record loop files a batch article exactly when a record names it, under the category chosen from the last such record |
| Categorizer.LastArticle | internal/gemini/categorizer.go:128-131 | the article map holds, for an id, the last batch article with that id |
| Categorizer.ArticleIndexLast | internal/gemini/categorizer.go:128-131 | the article map has an id exactly when a batch article carries it, and maps it to the last such article |
| Categorizer.FirstArticle | internal/gemini/categorizer.go:198-206 | the fallback loop files, for an unnamed id, the first batch article with that id |
| Categorizer.CompletedFirst | internal/gemini/categorizer.go:198-206 | the default loop keeps every filed article and files every other batch id once, with the default category |
| Categorizer.AssignShape | internal/gemini/categorizer.go:126-215 | every article of a batch gets exactly one entry, in batch order, with its own id and an allowed category or the default one |
| Categorizer.AssignDistinct | internal/gemini/categorizer.go:209-212 | when the ids of a batch are distinct, every entry carries its own article |
| Categorizer.AssignCategory | internal/gemini/categorizer.go:178-206 | an article whose last record gives an allowed category keeps it, and an article no record names gets the default category |
| Categorizer.MapsGiveAssign | internal/gemini/categorizer.go:209-212 | the maps built by the three loops, read at an article's id, give its entry |
| Categorizer.RecordCategories | internal/gemini/categorizer.go:178-195 | the record loop builds the map of named batch articles under their chosen categories |
| Categorizer.CompleteDefaults | internal/gemini/categorizer.go:198-206 | the default loop adds every batch article no record named, with the default category |
| Categorizer.ReadOutCategorized | internal/gemini/categorizer.go:209-212 | the read-out gives the entries in batch order |
| Categorizer.AssignRecords | internal/gemini/categorizer.go:178-212 | the three loops together give one entry per batch article in batch order |
| Categorizer.CategorizeBatch | internal/gemini/categorizer.go:126-215 | a failed request is an error (quota or plain), an undecodable reply is an error, and otherwise the batch is categorized |
| Categorizer.FromBatchStep | internal/gemini/categorizer.go:89-119 | a batch that starts inside the input, whose wait is not cancelled and that succeeds is followed by the next batch, its entries first |
| Categorizer.FromBatchCovers | internal/gemini/categorizer.go:89-119 | a successful run from any batch on returns one entry per remaining article, in input order, each allowed or default |
| Categorizer.CoversAppend | internal/gemini/categorizer.go:117 | appending a batch's entries before those of the later batches keeps one entry per article in input order |
| Categorizer.CategorizeWithGemini | internal/gemini/categorizer.go:71-124 | no articles give no entries; otherwise the batches run in order with a wait before every batch but the first when fewer than 30 seconds passed; a cancelled wait ends the run with the context error, and the first failed batch ends it with an error naming its index range |
| Categorizer.Categorize | internal/gemini/categorizer.go:39-68 | no articles give no entries; otherwise the result is that of the batch run, and its error is passed on prefixed with "categorize with Gemini: " |
| Categorizer.CategorizeCovers | internal/gemini/categorizer.go:39-124 | a successful categorization returns exactly one entry per input article, in input order, each with the article's id and an allowed category or the default one |
| Formatter.NewFormatter | internal/formatter/formatter.go:28-36 | a positive MaxTotalMessages is kept, any other value gives 5; the limit is always positive |
| Formatter.CategoryEntries | internal/formatter/formatter.go:46-53 | a category's group holds only entries of that category (an empty category counting as "Другое / Разное"), and is empty exactly when no entry falls in it |
| Formatter.ByCategoryGroups | internal/formatter/formatter.go:46-53 | a category is a key of the grouping exactly when some entry falls in it, and its group lists those entries in input order |
| Formatter.GroupEntries | internal/formatter/formatter.go:46-53 | the grouping loop yields exactly the categories present, each with its entries in input order |
| Formatter.SortStrings | internal/formatter/formatter.go:68-72 | sorting the distinct category names gives them in strictly increasing order, the same names and no others |
| Formatter.SortedUnique | internal/formatter/formatter.go:72 | only one strictly increasing list holds a given set of names, so the block order does not depend on map iteration order |
| Formatter.SortedCategories | internal/formatter/formatter.go:68-72 | the collected and sorted names are exactly the categories, strictly increasing |
| Formatter.TitleOf | internal/formatter/formatter.go:84-87 | the translated title when there is one, the original title otherwise |
| Formatter.FormatLine | internal/formatter/formatter.go:84-90 | one entry's line is "[title](URL) — summary" |
| Formatter.FormatBlock | internal/formatter/formatter.go:76-96 | a block is the category heading in asterisks, a newline, then the entry lines separated by newlines, as UTF-8 bytes |
| Formatter.FormatBlocks | internal/formatter/formatter.go:66-100 | one block per category, in the given order |
| Formatter.BlocksNonEmpty | internal/formatter/formatter.go:79 | every block holds at least its heading |
| Formatter.BlockLines | internal/formatter/formatter.go:144 | splitting a block at its newlines gives back the heading and the entry lines, when neither a name nor a line holds a newline |
| Formatter.PackLines | internal/formatter/formatter.go:144-156 | the line loop appends each line and a newline, flushing the message being filled (its last newline dropped) when the line would pass the limit with the 50-byte reserve |
| Formatter.PackBlock | internal/formatter/formatter.go:119-184 | one turn of the block loop: flush when the block with its separator does not fit, break an oversized block line by line, append a fitting block |
| Formatter.OversizedBlockStartsEmpty | internal/formatter/formatter.go:159-164 | the branch that flushes a non-empty message before breaking an oversized block is never taken, since the first flush already emptied the message |
| Formatter.PackBlocks | internal/formatter/formatter.go:119-191 | the block loop and the flush of the last non-empty message |
| Formatter.PlaceBlockKeeps | internal/formatter/formatter.go:119-185 | a block already whole inside a message stays whole while later blocks are placed |
| Formatter.PlaceBlockPlaces | internal/formatter/formatter.go:129-137 | a block that fits with the reserve ends up whole at the end of the message being filled |
| Formatter.PlaceBlocksKeep | internal/formatter/formatter.go:119-185 | after the loop has passed a block that fits with the reserve, that block is whole in some message |
| Formatter.BlockStaysWhole | internal/formatter/formatter.go:102-104 | before numbering, a block that fits in a message with the header reserve is never broken: it appears whole in one message |
| Formatter.PlaceBlocksTogether | internal/formatter/formatter.go:119-124 | while all blocks fit together, they are one message in the making, a blank line between blocks |
| Formatter.FitsInOne | internal/formatter/formatter.go:187-192 | blocks that fit together with the reserve make a single message, and it gets no header |
| Formatter.AddHeader | internal/formatter/formatter.go:200-216 | one message under its header, cut when the two are too long |
| Formatter.WithHeaderFits | internal/formatter/formatter.go:200-215 | the header comes first; the message is kept whole when header and message fit 4096 bytes; otherwise it is cut so the result is exactly 4096 bytes ending in "...", or only the header remains when it leaves no room |
| Formatter.NumberMessages | internal/formatter/formatter.go:194-219 | the numbering loop puts header i of n on every message |
| Formatter.NumberedMessage | internal/formatter/formatter.go:194-221 | when there are several messages, message i of n starts with the header "(i+1/n)" and fits the limit or is that header alone; a single message is returned as it is |
| Formatter.SplitIntoMessages | internal/formatter/formatter.go:105-222 | splitting is packing the blocks, then numbering when there is more than one message |
| Formatter.BuildMessages | internal/formatter/formatter.go:40-63 | no entries give no messages; the category order is the strictly increasing list of the categories present; the messages are the split of their blocks, numbered with the date as the layout "2 января 2006" prints it, which names January whatever the month (see Findings) |
| Formatter.CategoryBlockWhole | internal/formatter/formatter.go:55-60 | a category block that fits with the header reserve appears whole in one of the packed messages |
| DigestDate.GoDateNamesJanuary | internal/formatter/formatter.go:197 | the layout "2 января 2006" prints an October day with the word "января", not the October genitive |
| DigestDate.DateTextNamesMonth | internal/formatter/formatter.go:196-197 | the intended date text tells the months apart: same day, year and text means same month |
| DigestDate.GoDateRightInJanuary | internal/formatter/formatter.go:197 | the layout's text is right only in January |
| GeminiClient.RetryDelay | internal/gemini/client.go:66-83 | after a 503-class failure the pause is five minutes, after a per-minute rate limit one minute, and otherwise 12 seconds times the attempt number, capped at 60 seconds |
| GeminiClient.RetryDelayBounds | internal/gemini/client.go:58-83 | every pause lies between 12 seconds and five minutes |
| GeminiClient.Backoff | internal/gemini/client.go:67-83 | the two flags left by the previous failure pick the pause that RetryDelay names for its class |
| GeminiClient.HandleResult | internal/gemini/client.go:98-156 | a call's result stops the loop exactly when it is not a retryable failure (rate limit, 503-class or temporary), and then its value is the returned result; otherwise the flags record which long pause comes next |
| GeminiClient.Delays | internal/gemini/client.go:65-90 | one wait is started before each attempt after the first |
| GeminiClient.DelaysStep | internal/gemini/client.go:66-83 | the waits grow by the pause that follows a retryable failure |
| GeminiClient.DelaysAt | internal/gemini/client.go:66-83 | the i-th wait is the pause chosen after the failure of attempt i |
| GeminiClient.PendingStep | internal/gemini/client.go:65-157 | at the head of the loop, a retryable failure of the attempt leaves the outcome to the next turn, and any other result is final |
| GeminiClient.RetryLoop | internal/gemini/client.go:62-159 | the loop's result, number of calls and waits are those of the retry run, for any error classifier |
| GeminiClient.GenerateText | internal/gemini/client.go:57-160 | GenerateText's result, number of calls and waits are those of the retry run with the client's error classification |
| GeminiClient.RunCounts | internal/gemini/client.go:58-65 | a run makes between one and five calls and starts one wait after each call but possibly the last |
| GeminiClient.RunRetried | internal/gemini/client.go:118-142 | every call of a run but the last failed in a retryable way and its wait ran out |
| GeminiClient.RunEnd | internal/gemini/client.go:85-159 | a wait follows the last call exactly when that call may be retried and was not the fifth, and then the context interrupted it and the result is the context error; otherwise the result is what the last call decides (text, text error, quota errors, plain failure or "max retries exceeded") |
| GeminiClient.Status429Classes | internal/gemini/client.go:166-194 | every error mentioning 429 is either the daily quota, never retried, or a per-minute rate limit, retried after one minute |
| GeminiClient.Code429Redundant | internal/gemini/client.go:169 | the "code: 429" test of the daily-quota check adds nothing to the "429" test |
| GeminiClient.MentionsAt | internal/gemini/client.go:166-225 | an error text mentions a needle whose letters it spells, in any case, at some position |
| JsonArray.FirstBalanced | internal/ranking/ranker.go:246-256 | the first end at which the span from the first '[' is balanced: balanced there and at no earlier end, or none when it never balances |
| JsonArray.ExtractArray | internal/ranking/ranker.go:240-259 | the depth scan returns the span from the first '[' to the ']' that brings the depth back to zero, or "" when there is no '[' or it is never closed |
| JsonArray.ArraySpanShape | internal/ranking/ranker.go:240-259 | the extracted span is empty or a closed array occurring in the text, and it is empty when the text has no '[' |
| JsonArray.ArraySpanSurrounded | internal/ranking/ranker.go:240-259 | an array the model wrapped in chatter without '[' before it, and anything after it, is recovered exactly |
| JsonArray.SkipBlanks | internal/gemini/categorizer.go:285-289 | the first position at or after the fence that is not a space, newline, carriage return or tab |
| JsonArray.SkipFenceBlanks | internal/gemini/categorizer.go:286-289 | the blank-skipping loop stops at that position |
| JsonArray.FenceContent | internal/gemini/categorizer.go:284-296 | after an opening fence, the text becomes the trimmed contents up to the next fence, or stays as it is when the fence is never closed |
| JsonArray.UnfenceParts | internal/gemini/categorizer.go:291-296 | the fence contents are fixed by where the content starts and where the closing fence is |
| JsonArray.ExtractFencedArray | internal/gemini/categorizer.go:277-339 | the categorizer's extractJSON: "```json" fences are tried before plain ones, an empty unfenced text falls back to the reply, and the balanced array span of the result is returned trimmed |
| JsonArray.CleanedTrimIsNoop | internal/gemini/categorizer.go:333 | the final trim never changes a span, which starts with '[' and ends with ']' |
| JsonArray.CleanedUnfenced | internal/gemini/categorizer.go:297-313 | without any code fence, the categorizer's and the ranker's extractJSON return the same span |
| JsonArray.CleanedFenced | internal/gemini/categorizer.go:282-296 | a reply wrapped in a "```json" fence yields the array inside the fence, however many blanks surround it |
| JsonArray.UnfenceFenced | internal/gemini/categorizer.go:282-296 | the content of a "```json" fence at the start is its inner text trimmed |
| JsonArray.FenceClosing | internal/gemini/categorizer.go:292 | the closing fence is the first "```" after the opening one |
| Ranking.NewRanker | internal/ranking/ranker.go:26-44 | non-positive settings fall back to a batch of 10 and 5 articles per category; both are always positive |
| Ranking.Clamp | internal/ranking/ranker.go:201-207 | a reported score is brought into [0, 10]: kept inside, raised to 0 below, lowered to 10 above |
| Ranking.LastScore | internal/ranking/ranker.go:198-209 | the score filed for an id is the clamped score of its last record, in [0, 10], and there is none exactly when no record names the id |
| Ranking.ScoreIndexLast | internal/ranking/ranker.go:198-209 | the score map has an id exactly when a record names it, and holds the last such record's clamped score |
| Ranking.IndexScores | internal/ranking/ranker.go:198-209 | the score loop builds that map |
| Ranking.DecodeScores | internal/ranking/ranker.go:185-195 | a reply that parses as it stands is used directly; otherwise the extracted array span is parsed, and an empty span is an error |
| Ranking.RankBatch | internal/ranking/ranker.go:150-225 | a failed request is a quota error when its text mentions "quota" or "rpd" and a plain error otherwise; an undecodable reply is an error; otherwise every article is returned in order with its score from the map or 5 |
| Ranking.RankCategory | internal/ranking/ranker.go:130-147 | no articles give none; a failed batch is reported under the category's name |
| Ranking.RankCategoryScores | internal/ranking/ranker.go:211-224 | a successful ranking keeps the articles and their order and changes only their scores, each into [0, 10]; an article the reply does not score gets 5 |
| Ranking.Group | internal/ranking/ranker.go:52-59 | a category's group holds only articles of that category (an empty one counting as "Другое / Разное"), and is empty exactly when none falls in it |
| Ranking.GroupingGroups | internal/ranking/ranker.go:52-59 | a category is a key of the grouping exactly when some article falls in it, and its group lists those articles in input order |
| Ranking.GroupByCategory | internal/ranking/ranker.go:52-59 | the grouping loop yields exactly the categories present, each with its articles in input order |
| Ranking.RankOne | internal/ranking/ranker.go:85-100 | one category: score the group, fall back to the unscored group on failure, sort by score descending, cut to maxPerCategory |
| Ranking.KeptFromGroup | internal/ranking/ranker.go:86-90 | what a category keeps before the cut are its own articles in order, only their scores changed |
| Ranking.TopBest | internal/ranking/ranker.go:92-100 | a category contributes min(maxPerCategory, its size) articles, best score first, each one of its own with a new score, and no article left out scores higher than one kept |
| Ranking.CutSorted | internal/ranking/ranker.go:92-100 | sorting by score and cutting gives the limit's worth of articles, best first |
| Ranking.CutBest | internal/ranking/ranker.go:98-100 | the cut keeps articles of the input, and nothing it drops scores higher than what it keeps |
| Ranking.SelectedStep | internal/ranking/ranker.go:102 | handling one more category appends its top articles to the result |
| Ranking.OrderStep | internal/ranking/ranker.go:70 | the category loop takes every category once: those taken stay distinct and are exactly those no longer left |
| Ranking.Rank | internal/ranking/ranker.go:46-126 | on success every category is handled once and the result is the concatenation of their top articles; before every category but the first a wait of the 12-second pacing may be interrupted, which is the only failure, and without cancellation ranking always succeeds |
| Ranking.TopInGroup | internal/ranking/ranker.go:220 | scoring keeps an article's category, so everything a group keeps belongs to it |
| Ranking.SelectedPerGroup | internal/ranking/ranker.go:70-104 | once the categories of a duplicate-free order are handled, the result holds exactly min(maxPerCategory, size) articles of each handled group and none of any other |
| Ranking.RankPerGroup | internal/ranking/ranker.go:46-126 | a successful ranking keeps at most maxPerCategory articles of every category, and exactly min(maxPerCategory, size) of each category of the input |
| RssCollector.RssFeeds | internal/sources/rss_collector.go:72-84 | a site's feed list is used when it has one; otherwise its single rss URL without a category when that is not blank; otherwise there are no feeds |
| RssCollector.SelectContent | internal/sources/rss_collector.go:213-221 | an item's text is its content:encoded, else its description, else its title, and is empty only when all three are |
| RssCollector.FirstParse | internal/sources/rss_collector.go:202-206 | the first layout that accepts the value decides, and there is no result exactly when no layout accepts it |
| RssCollector.ParseTime | internal/sources/rss_collector.go:168-211 | the layout loop gives the parsed time of the trimmed value |
| RssCollector.ParsedTimeMeans | internal/sources/rss_collector.go:168-211 | a blank date, or one no layout accepts, gives the fallback time; a value the first layout accepts is taken from it; any other result comes from one of the 21 layouts |
| RssCollector.Hex | internal/sources/rss_collector.go:165 | the hash prefix is written in hexadecimal, two digits per byte |
| RssCollector.ArticleIdDetermines | internal/sources/rss_collector.go:163-166 | on one site, the id determines the hash prefix and the Unix second: links with different hashes, or dates in different seconds, get different ids |
| RssCollector.Metadata | internal/sources/rss_collector.go:133-141 | the metadata holds the item's rank as decimal text and the site's name, and the feed's category exactly when it has one |
| RssCollector.ArticleFacts | internal/sources/rss_collector.go:143-152 | an article records its item's position, its site as source and, exactly when the feed has one, a category |
| RssCollector.Considered | internal/sources/rss_collector.go:117-123 | only the first 100 items of a feed are read |
| RssCollector.ShapeItem | internal/sources/rss_collector.go:130-152 | a usable item becomes its article: id from site, link and time, trimmed title, URL and content, language "vi" |
| RssCollector.ShapeItems | internal/sources/rss_collector.go:125-153 | the item loop gives the feed's articles |
| RssCollector.ShapedStep | internal/sources/rss_collector.go:125-128 | an item with a link and a title adds its article; any other item adds nothing |
| RssCollector.UsableIndicesMeans | internal/sources/rss_collector.go:125-128 | the positions that give an article increase, are usable, and include every usable position |
| RssCollector.ShapedFollowsItems | internal/sources/rss_collector.go:125-153 | article j comes from the j-th usable item |
| RssCollector.ShapedMeans | internal/sources/rss_collector.go:125-153 | each article comes from a usable item at its rank, ranks increase, and every usable item gives its article |
| RssCollector.FeedArticlesMeans | internal/sources/rss_collector.go:115-156 | a feed gives at most 100 articles, one per usable item among its first 100, in item order, each ranked by its item's position, naming its site, and carrying the feed's category exactly when the feed has one |
| RssCollector.ParseFeed | internal/sources/rss_collector.go:241-257 | parseRSSFeed hands the decoder the body as fixXMLEntities rewrites it; a rejection is reported as "parse RSS XML: " and the decoder's error |
| RssCollector.ParseFeedPlainBody | internal/sources/rss_collector.go:241-257 | a body without "&" reaches the decoder as it stands |
| RssCollector.ParseFeedConflatesEscapedText | internal/sources/rss_collector.go:241-287 | whatever the decoder, a feed that writes the escaped text "&amp;lt;" parses exactly as one that writes "&lt;" |
| RssCollector.FetchedFeed | internal/sources/rss_collector.go:86-156 | a feed fails exactly when its fetch fails or the decoder rejects its body as fixXMLEntities rewrites it; otherwise it gives the articles of its items |
| RssCollector.FetchFeed | internal/sources/rss_collector.go:86-156 | the fetch, the fixXMLEntities repair, the decoding and the item loop give the feed's articles or its error |
| RssCollector.FeedsArticlesStep | internal/sources/rss_collector.go:55-65 | a failing feed adds nothing, and a feed that succeeds adds its articles after the others |
| RssCollector.CollectSite | internal/sources/rss_collector.go:49-65 | one site's feeds are collected in order, each decoded after the fixXMLEntities repair, with the clock read per item |
| RssCollector.Collect | internal/sources/rss_collector.go:45-68 | every site's feeds are collected in order, each decoded after the fixXMLEntities repair, a failing feed is skipped, and the collection never fails |
| RssCollector.CollectedFromSites | internal/sources/rss_collector.go:45-68 | every collected article names one of the configured sites as its source |
| RssCollector.CollectedNothing | internal/sources/rss_collector.go:50-52 | sites without feeds give no articles |
| XmlEntities.RefLen | internal/sources/rss_collector.go:278-284 | the length of the reference "&name;", "&#digits;" or "&#xhex;" a text starts with, at least 3 and starting at an "&", or 0 when there is none |
| XmlEntities.Match | internal/sources/rss_collector.go:267-284 | what one replacement pass rewrites where the text begins: how many bytes it takes, at least one, and what it puts in their place |
| XmlEntities.PassesWellFormed | internal/sources/rss_collector.go:267-284 | every one of the eight replacement passes takes one "&" at the front and puts one reference in its place |
| XmlEntities.PassSound | internal/sources/rss_collector.go:267-284 | every well-formed pass neither adds nor removes an "&" and only writes references |
| XmlEntities.EscapesRepair | internal/sources/rss_collector.go:267 | escaping every "&", and escaping only bare ones, both leave no bare "&" |
| XmlEntities.FixXmlEntitiesRefs | internal/sources/rss_collector.go:262-287 | after the repair every "&" starts a reference, there are as many "&" as before, and a body without "&" is left as it is |
| XmlEntities.EscapeAllOnEscapedLt | internal/sources/rss_collector.go:267 | the first pass turns "&amp;lt;" into "&amp;amp;lt;" |
| XmlEntities.RestoreAmpOnEscapedLt | internal/sources/rss_collector.go:270 | the second pass turns "&amp;amp;lt;" back into "&amp;lt;" |
| XmlEntities.RestoreLtOnEscapedLt | internal/sources/rss_collector.go:271 | the third pass turns "&amp;lt;" into "&lt;" |
| XmlEntities.LaterPassesKeepLtRef | internal/sources/rss_collector.go:272-284 | the passes after the third leave "&lt;" alone |
| XmlEntities.FixXmlEntitiesRewritesEscapedText | internal/sources/rss_collector.go:262-287 | the repair as written changes a body that was already well formed: the escaped text "&amp;lt;" comes out as the reference "&lt;" |
| XmlEntities.FixXmlEntitiesConflatesEscapedText | internal/sources/rss_collector.go:262-287 | the repair as written leaves "&lt;" as it is, so "&amp;lt;" and "&lt;" come out as the same bytes |
| XmlEntities.EscapeBareAmpersandsRepairs | internal/sources/rss_collector.go:259-261 | the corrected repair: every "&" of the result starts a reference, no "&" is added or lost, and a body is left unchanged exactly when it needed no repair |
| XmlEntities.EscapeBareKeepsEscapedText | internal/sources/rss_collector.go:259-261 | the corrected repair leaves "&amp;lt;" as it is |
| XmlEntities.EscapeBareKeepsRefs | internal/sources/rss_collector.go:261 | escaping bare "&" leaves a body whose every "&" is a reference byte for byte |
| XmlEntities.EscapeBareAmpersandsIdempotent | internal/sources/rss_collector.go:259-261 | repairing twice is repairing once |
| XmlEntities.ScanKeepsAmps | internal/sources/rss_collector.go:267-284 | a sound pass neither adds nor removes an "&" |
| XmlEntities.ScanRefs | internal/sources/rss_collector.go:267-284 | a pass that writes references keeps every "&" a reference, and a repairing one makes it so from any input |
| XmlEntities.RefsMeans | internal/sources/rss_collector.go:259-261 | the "every & starts a reference" property holds exactly when it holds at each "&" |
| ScrapeRss.NormalizeURL | cmd/scrape-rss/main.go:62-66 | the trimmed URL is the result, or the result followed by "/" exactly when the trimmed URL ends in "/" |
| ScrapeRss.IsValidRSSURL | cmd/scrape-rss/main.go:68-77 | a URL looks like a feed exactly when its lower-cased form contains "/rss", "/feed", ".rss", ".xml" or "/atom" |
| ScrapeRss.SuffixClauseRedundant | cmd/scrape-rss/main.go:76 | the closing suffix test adds nothing, since a URL ending in "/rss" or "/feed" already contains it |
| ScrapeRss.ConfiguredFeeds | cmd/scrape-rss/main.go:374-382 | a site's feed list is used when it has one, else its single rss URL when that is not empty, else the site is skipped |
| ScrapeRss.NormalizedAll | cmd/scrape-rss/main.go:386-387 | every configured feed is normalised, in order |
| ScrapeRss.Listed | cmd/scrape-rss/main.go:409-415 | the already-added scan finds a URL exactly when the list holds an entry with it |
| ScrapeRss.CategoryStep | cmd/scrape-rss/main.go:416-422 | appending a category entry for a URL not yet listed keeps the list's earlier entries, its categories unrepeated, and every handled discovered URL listed |
| ScrapeRss.AddCategories | cmd/scrape-rss/main.go:403-423 | the discovered category feeds are appended after the list as it stood, each as a category entry, never the main feed, never a URL already listed, and every discovered URL other than the main feed ends up listed |
| ScrapeRss.SiteFeeds | cmd/scrape-rss/main.go:384-424 | a site's list holds each configured feed, normalised, as a main entry in order, every entry names the site, no category URL repeats, each category entry was discovered from the main entry before it, and every URL discovered from feed k other than that feed is listed before the main entry of feed k+1 |
| ScrapeRss.FeedStep | cmd/scrape-rss/main.go:386-424 | one configured feed handled adds its main entry and what was found from it, keeping the site's list invariant |
| ScrapeRss.DiscoveredInBlock | cmd/scrape-rss/main.go:396-422 | a URL found from feed k that is none of feeds 0..k is written as a category entry of that site between the main entry of feed k and the next one, even when a later feed has the same URL |
| ScrapeRss.MainStep | cmd/scrape-rss/main.go:396-400 | appending a main entry keeps categories unrepeated and each category after its main entry |
| ScrapeRss.CategoriesStep | cmd/scrape-rss/main.go:403-423 | appending the category entries found after a main entry keeps each of them discovered from that main entry |
| ScrapeRss.MainsAppend | cmd/scrape-rss/main.go:426 | the main entries of joined lists are those of each, in order |
| ScrapeRss.OfSource | cmd/scrape-rss/main.go:435-438 | a site's group holds only entries of that site, taken from the list |
| ScrapeRss.GroupedMeans | cmd/scrape-rss/main.go:435-438 | the groups are exactly the sites that have entries, each holding that site's entries in list order |
| ScrapeRss.Group | cmd/scrape-rss/main.go:435-438 | the grouping loop builds those groups |
| ScrapeRss.SortedFeeds | cmd/scrape-rss/main.go:525-530 | a site's feeds are rearranged, not changed, main entries first and each kind by URL ascending |
| ScrapeRss.Urls | cmd/scrape-rss/main.go:532-535 | the written list holds the URLs of the sorted entries, in order |
| ScrapeRss.FindSite | cmd/scrape-rss/main.go:513-522 | the first configured site with the id is the one whose name, URL and priority are written, and a group whose site is not configured is skipped |
| ScrapeRss.DistinctIdsSnoc | cmd/scrape-rss/main.go:537-543 | appending a row whose id is new keeps the ids distinct |
| ScrapeRss.RowStep | cmd/scrape-rss/main.go:512-544 | handling one more site id adds a row exactly when the id is configured |
| ScrapeRss.BuildOutput | cmd/scrape-rss/main.go:506-549 | one row per group whose site is configured, with that site's name, URL and priority and its sorted feed URLs; ids distinct and rows sorted by id |
| ScrapeRss.PermutationKeepsKeys | cmd/scrape-rss/main.go:547-549 | sorting the rows keeps the same rows and their distinct ids |
| ScrapeRss.Scrape | cmd/scrape-rss/main.go:347-564 | every configured site with feeds gets its list as SiteFeeds builds it (main entries in order, each followed by the URLs found from it before the next main entry), and a site without feeds none; the written rows are sorted by id without repeats; each row is the name, URL and priority of the first configured site of its id with the URLs of that id's entries, main feeds first and each kind by URL; every configured site with feeds is written |
| ScrapeRss.FindAll | cmd/scrape-rss/main.go:369-428 | the site loop collects, one site after the other, each site's list as SiteFeeds builds it, with each feed's discoveries listed before the next main entry, and nothing for a site without feeds |
| ScrapeRss.RowIsOwnList | cmd/scrape-rss/main.go:435-549 | with distinct configured ids, the row of a site is written from its own list alone: its name, URL and priority, and its list's URLs sorted main first and then by URL |
| Recipients.NameFromFirstSource | internal/telegram/recipients.go:89-103 | the name is the one given by the first source that is there: chat username, sender username, chat title, trimmed personal name, then "chat-" and the id |
| Recipients.FallbackNameIdentifiesChat | internal/telegram/recipients.go:102 | a chat that gives no name at all is called "chat-" and its id, and the id can be read back from the name |
| Recipients.NameEmpty | internal/telegram/recipients.go:99-100 | the name is empty exactly for a chat without usernames or title whose personal name is made of white space alone |
| Recipients.SpacesJoin | internal/telegram/recipients.go:100 | a first and a last name joined by a space are all white space exactly when both names are |
| Recipients.Stored | internal/telegram/recipients.go:34-40 | the stored bindings by chat id: a later one replaces an earlier one, and one without a chat id is dropped; every key is its binding's chat id |
| Recipients.IndexStored | internal/telegram/recipients.go:34-40 | the indexing loop builds that map |
| Recipients.StoredKeys | internal/telegram/recipients.go:34-40 | a chat is bound after indexing exactly when some stored binding with a non-empty chat id names it |
| Recipients.LatestStoredWins | internal/telegram/recipients.go:39 | the last stored binding for a chat is the one kept |
| Recipients.Subscriber | internal/telegram/recipients.go:60-70 | the binding a message creates has the chat id in decimal, non-empty, and the time of resolution |
| Recipients.Subscribed | internal/telegram/recipients.go:49-71 | taking the updates in order keeps every key equal to its binding's chat id |
| Recipients.Cursor | internal/telegram/recipients.go:48-52 | the update cursor after the updates is the highest of the old cursor and their ids |
| Recipients.ApplyUpdates | internal/telegram/recipients.go:48-73 | the update loop gives the subscribed bindings and that cursor |
| Recipients.SubscribedKeys | internal/telegram/recipients.go:49-71 | a chat is bound after the updates exactly when it was bound before or a subscribing update came from it |
| Recipients.LatestUpdateWins | internal/telegram/recipients.go:66-70 | the last update from a chat decides its binding: the name from that message, stamped with the resolution time |
| Recipients.UntouchedKept | internal/telegram/recipients.go:49-71 | a chat no update came from keeps the binding it had |
| Recipients.IgnoredUpdateBindsNothing | internal/telegram/recipients.go:53-58 | an update without a message, or from chat 0, binds nothing |
| Recipients.IgnoredUpdateAdvancesCursor | internal/telegram/recipients.go:50-52 | every update, bound or not, moves the cursor to at least its id |
| Recipients.Collect | internal/telegram/recipients.go:76-79 | the list holds every binding of the map once, in whatever order the map yields |
| Recipients.SortedByNameLists | internal/telegram/recipients.go:81-83 | sorting by name keeps exactly the bindings, ordered by name |
| Recipients.ListedChats | internal/telegram/recipients.go:76-86 | the recipient list has one entry per chat and none without a chat id |
| Recipients.Resolve | internal/telegram/recipients.go:29-87 | without a client the error is "not configured"; a failed update fetch is an error; on an error the state is returned unchanged with no recipients; otherwise the recipients are the bindings sorted by name, the state stores them, the cursor never moves back, and without auto-subscription the cursor is kept |
| Sender.FindDenied | internal/telegram/sender.go:139-145 | the deny-list loop finds a phrase exactly when the error names one of them, ignoring case |
| Sender.IsRetryableError | internal/telegram/sender.go:122-149 | the retry test of the sender |
| Sender.RetryableMeans | internal/telegram/sender.go:122-149 | nil is never retried; an error is retried exactly when it names none of the six deny-list phrases, ignoring case |
| Sender.ContainsIgnoreCaseFacts | internal/telegram/sender.go:152-156 | the empty phrase is found in every text, the test ignores case on both sides, and it holds exactly when the lower-cased phrase occurs in the lower-cased text |
| Sender.RetryDelay | internal/telegram/sender.go:91-95 | the pause before retry n is two seconds times n, capped at ten seconds |
| Sender.RetryDelays | internal/telegram/sender.go:89-102 | the pauses before retries 1 to n, each as RetryDelay says |
| Sender.RetryPauses | internal/telegram/sender.go:13-22 | with three tries the pauses are two and four seconds, so the ten-second cap is never reached |
| Sender.SendWithRetry | internal/telegram/sender.go:86-119 | the retry loop's result and calls are those of the retry run, and the pauses it started are the first RetryDelays |
| Sender.RetryCalls | internal/telegram/sender.go:86-119 | the client is called one to three times; every call before the last failed with an error worth a retry; there is a pause between calls, and one more only when the context then stopped the send; success is reported exactly when the last call succeeded |
| Sender.NotRetriedOnce | internal/telegram/sender.go:113-115 | an error retrying cannot help is returned as it is, after a single call |
| Sender.RetriesExhausted | internal/telegram/sender.go:118 | three failures worth a retry, without cancellation, give "max retries exceeded" with the last error after three calls and two pauses |
| Sender.SendPair | internal/telegram/sender.go:53-77 | one turn of the inner loop: the rate-limit pause when needed, then the retried delivery |
| Sender.SendToRecipient | internal/telegram/sender.go:53-78 | every message goes to one chat in order, until the context stops the send |
| Sender.SendEvery | internal/telegram/sender.go:52-79 | every message goes to every chat, recipient by recipient, until the context stops the send |
| Sender.ToRecipientAborted | internal/telegram/sender.go:58-60 | once the context stopped the send, later messages change nothing |
| Sender.ToRecipientsAborted | internal/telegram/sender.go:58-60 | a send stopped at one recipient is over: the later recipients change nothing |
| Sender.SendAll | internal/telegram/sender.go:38-83 | the body of Send: errors, calls, pauses and delivered pairs are those of the send run |
| Sender.Send | internal/telegram/sender.go:38-83 | Send with isRetryableError as its retry test |
| Sender.PairStepOrderly | internal/telegram/sender.go:66-77 | one pair is tried one to three times after the pairs before it, and a failure of one pair does not stop the send |
| Sender.ToRecipientOrderly | internal/telegram/sender.go:53-78 | a chat's messages are tried in order after the pairs before them, and without cancellation the send goes on |
| Sender.ToRecipientsOrderly | internal/telegram/sender.go:52-79 | the pairs are tried in recipient-major order, and without cancellation the send goes on |
| Sender.SendReachesEveryPair | internal/telegram/sender.go:38-83 | an empty recipient or message list is refused without calling the client; otherwise, unless the context stops it, every (recipient, message) pair is tried in recipient-major order, each one to three times, and nil is returned; a context never cancelled always gets that far |
| Pipeline.ValidateDeps | internal/app/pipeline.go:454-491 | a missing store or clock is always "not configured"; send mode needs only the sender besides them; the other modes need the collector and the filter, and, unless Gemini is skipped, the categorizer, ranker, summarizer, formatter and sender |
| Pipeline.SendModeNeeds | internal/app/pipeline.go:463-469 | send mode passes exactly when store, clock and sender are there, whatever else is missing |
| Pipeline.EntryIds | internal/app/pipeline.go:415-418 | the digest's article ids are the entries' ids, in order |
| Pipeline.NewRowsSound | internal/app/pipeline.go:504-512 | every appended ledger row is stamped with the clock and carries an id of the list that was absent from the previous ledger |
| Pipeline.NewRowsComplete | internal/app/pipeline.go:529-537 | every id of the list absent from the previous ledger gets a row |
| Pipeline.NewRowsAllKnown | internal/app/pipeline.go:505-507 | ids that are all in the previous ledger add nothing |
| Pipeline.RepeatedIdAppendedTwice | internal/app/pipeline.go:497-512 | an id repeated inside one list is appended twice, since only the previous ledger is consulted |
| Pipeline.CappedMeans | internal/app/pipeline.go:539-541 | the cap keeps all rows when they fit and exactly the last 500 otherwise |
| Pipeline.AppendUnsent | internal/app/pipeline.go:497-512 | the shared loop copies the old ledger and appends a row for each id it does not hold |
| Pipeline.UpdateState | internal/app/pipeline.go:518-545 | updateState gives the capped ledger state |
| Pipeline.LedgerStateMeans | internal/app/pipeline.go:518-545 | lastRun becomes the clock, recipients and cursor are untouched, the ledger is a suffix of the old ledger followed by the new rows with at most 500 rows, and the old ledger is kept whole when nothing is cut |
| Pipeline.UpdateStateFromDigest | internal/app/pipeline.go:493-516 | updateStateFromDigest gives the uncapped ledger state |
| Pipeline.DigestLedgerStateMeans | internal/app/pipeline.go:493-516 | lastRun becomes the clock, the old ledger stays as a prefix, and exactly the digest ids absent from it are added, stamped with the clock |
| Pipeline.DigestLedgerExceedsCap | internal/app/pipeline.go:493-516 | updateStateFromDigest applies no cap: a full ledger of 500 rows grows to 501 |
| Pipeline.LimitedMeans | internal/app/pipeline.go:274-282 | without a positive limit, or under it, the list passes unchanged; over it, exactly the limit's worth passes, newest first, and none left out is newer than one kept |
| Pipeline.Dispatch | internal/app/pipeline.go:435-444 | nothing to send is fine; no recipients is an error unless dispatch is forced, and then nothing is sent; otherwise one send is made and its error is wrapped |
| Pipeline.DispatchStep | internal/app/pipeline.go:222-235 | the send step of each path gives that outcome |
| Pipeline.SendDigest | internal/app/pipeline.go:211-254 | send mode with a digest on file, a failed deletion only logged |
| Pipeline.SendModeDigest | internal/app/pipeline.go:175-255 | an empty saved digest is deleted with nothing sent or saved; otherwise the digest is deleted exactly when the run succeeds, which needs the send (when there are recipients) and the save of the updated ledger to succeed |
| Pipeline.SendModeFallback | internal/app/pipeline.go:181-206 | in send mode a missing digest re-runs the whole pipeline with build and send mode cleared, and its outcome is the run's |
| Pipeline.SendTestMessage | internal/app/pipeline.go:159-172 | the test path sends the test message when there are recipients and a sender, refuses an empty recipient list, and succeeds otherwise |
| Pipeline.NoNewsStep | internal/app/pipeline.go:351-385 | when ranking kept nothing, the service message is stored in build mode or dispatched, and the ledger is not touched |
| Pipeline.DeliverStep | internal/app/pipeline.go:408-451 | formatted messages are stored as a digest in build mode; otherwise they are dispatched and the updated ledger is saved |
| Pipeline.Stages | internal/app/pipeline.go:258-451 | collect, filter, limit, then stop on a dry run, or categorise, wait, rank, wait, summarise, format and deliver, each stage's error and a cancelled wait ending the run |
| Pipeline.RunByMode | internal/app/pipeline.go:159-258 | the test path, the send path or the full run, by flags |
| Pipeline.Run | internal/app/pipeline.go:140-452 | validate, load the state, resolve recipients when there is a resolver, then go on by mode, each error wrapped with its stage |
| Pipeline.RunSavesOnlyAfterDispatch | internal/app/pipeline.go:140-452 | the state is saved only after dispatch, as the last step but for deleting a sent digest; a failed run has saved nothing unless the save itself failed; a dry run and build mode never save and never send |
| Pipeline.NoRecipientsNoSend | internal/app/pipeline.go:159-172 | without recipients nothing is ever sent, and the test message is refused with an error whatever ForceDispatch says |

## Left out

- Network I/O is modelled as oracle parameters: the HTTP fetch of a feed, the Telegram Bot API client and the genai SDK call with its client construction. Their outcomes are inputs.
- `encoding/xml` decoding of a feed is not modelled. The parsed items are an oracle applied to the body as `fixXMLEntities` rewrites it, as the source does; the corrected repair of the Findings is modelled beside it but not used by the collector.
- `parseTime` is modelled only for its empty input. Go's `time.Parse` layouts are an oracle that tries the layouts in order.
- SHA-1 in `buildArticleID` is an oracle giving the first eight bytes of the hash. The id is then built from the site id, the hex of those bytes and the Unix second, as in the source.
- Prompt building and `json.Marshal` are not modelled. `json.Unmarshal` of the extracted array is an oracle, `parse`.
- Logging and statistics are not modelled, including:
  - the selection statistics in `Run` (internal/app/pipeline.go:285-318);
  - the category distribution logs (internal/gemini/categorizer.go:50-65, internal/ranking/ranker.go:106-123);
  - the console output of scrape-rss.
- The state file store, configuration and environment loading, and `cmd/dailyjob` wiring are not modelled. The pipeline sees the store as load, save and digest oracles.
- Real time and sleeps are not modelled:
  - The clock is a parameter. The RSS collector's clock is a function of the site, feed and item positions, since the source reads it once per item.
  - The stage waits, the inter-request spacing and the send spacing are waits numbered per call. A `Cancel` value says from which wait on the context is cancelled.
  - The categoriser and summariser spacing depends only on the elapsed time, which is an oracle.
  - Retry delays are recorded, in seconds, rather than slept.
- Go map iteration order is not fixed by the model:
  - the ranker's loop over categories;
  - the recipient map before sorting;
  - the scrape-rss grouping by site.

  The methods pick an order of their own choosing. The specification functions fix one order. The properties hold for every order.
- `sort.Slice` is unstable. The model sorts with one fixed tie order and claims only sortedness and permutation. Any tie order Go picks satisfies those claims.
- The page discovery in scrape-rss is one oracle, `discover`, from a main URL to category feed URLs. This covers `fetchRSSPage`, `findCategoryRSSFromPage`, `extractRSSFromHTML`, `extractRSSFromXML` and `resolveURL`.
- `strings.ToLower` and `strings.EqualFold` are modelled for ASCII, Latin-1, the basic Cyrillic block and the Vietnamese letters; other characters are left unchanged.
- `RelevanceScore` is a Dafny `real`. Float rounding and NaN are not modelled.
- The pipeline's collaborators are oracles of the `Env` datatype rather than the modules above. The run's properties hold for any collaborator, and each stage's properties are proved in its own module.
- In send mode, the fallback re-run reads the same environment. A second load or resolve gives the same answer as the first.
- A failed `DeleteDigest` is only logged by the source. The model records the call and the run's outcome does not depend on its answer.
- `NewPipeline` and `NewRSSCollector` defaults are not modelled. The constructor defaults of the categoriser, ranker, summariser and formatter are.
- The formatter's `maxMessages` is set by its constructor but never read by the source. The model keeps the field and reads it nowhere.
- `DigestEntry` has no translated title field in internal/news/types.go, although the formatter reads one. The model gives it an optional `titleRu`, where the empty string means absent, and falls back to the title.
- The configured feed is modelled as a `{url, category}` record, as rss_collector.go uses it, rather than the plain string list of internal/config/config.go:50.

## Findings

| source | as written | input that shows it | evidently intended | confidence | as-written member | corrected member |
|---|---|---|---|---|---|---|
| internal/formatter/formatter.go:197 | the Go layout "2 января 2006" formats every month as "января", since Go layouts only recognise English month names | a digest dated 5 March 2025 is headed "5 января 2025" | the Russian genitive name of the digest's own month | high, not executed | DigestDate.GoDateNamesJanuary | DigestDate.DateTextNamesMonth |
| internal/sources/rss_collector.go:262-287 | `fixXMLEntities` first escapes every `&`, then turns `&amp;lt;`, `&amp;gt;`, `&amp;quot;` and `&amp;apos;` back into `&lt;`, `&gt;`, `&quot;` and `&apos;` | feed text `&amp;lt;`, an escaped literal "&lt;", comes out as `&lt;`, which decodes to "<" | escape only bare ampersands and leave entity references, including `&amp;`, as they are | medium, not executed | XmlEntities.FixXmlEntitiesRewritesEscapedText | XmlEntities.EscapeBareAmpersandsRepairs |
