/**
 * The Markdown formatter: digest entries are grouped by category, each
 * category becomes one block (`*category*` and one line per entry), the
 * blocks are taken in sorted category order and packed into Telegram
 * messages, and when there are several messages each gets a numbered header
 * and is cut to Telegram's limit.
 *
 * Go's `len` counts bytes, so the packing works on the UTF-8 bytes of the
 * blocks; a block is built as text and then encoded.
 */
module Formatter {
  import opened Common
  import opened GoStrings
  import opened News
  import opened Sorting
  import opened Seqs
  import opened DigestDate

  /** Telegram's limit on one message, in bytes. */
  const TelegramMaxMessageLength: nat := 4096
  /** Room left in every packed message for the numbered header. */
  const HeaderReserve: nat := 50
  const DefaultMaxMessages: nat := 5
  const Newline: byte := 10
  /** "\n\n" between two blocks of one message. */
  const CategorySeparator: Bytes := [Newline, Newline]
  /** "..." after a cut message. */
  const Ellipsis: Bytes := [46, 46, 46]

  /** `maxMessages` is kept but nothing reads it. */
  datatype Formatter = Formatter(maxMessages: nat)

  function NewFormatter(maxTotalMessages: int): (f: Formatter)
    ensures f.maxMessages > 0
    ensures maxTotalMessages > 0 ==> f.maxMessages == maxTotalMessages
    ensures maxTotalMessages <= 0 ==> f.maxMessages == DefaultMaxMessages
  {
    Formatter(if maxTotalMessages > 0 then maxTotalMessages else DefaultMaxMessages)
  }

  // ------------------------------------------------------------ grouping

  /** The block an entry goes to: an empty category is the default one. */
  function EntryCategory(e: DigestEntry): string
  {
    if e.category == "" then DefaultCategory else e.category
  }

  /** The entries among the first n that go to `category`, in input order. */
  function CategoryEntries(entries: seq<DigestEntry>, n: nat, category: string): (g: seq<DigestEntry>)
    requires n <= |entries|
    ensures forall x :: x in g ==> x in entries[..n] && EntryCategory(x) == category
    ensures g == [] <==> forall j :: 0 <= j < n ==> EntryCategory(entries[j]) != category
  {
    if n == 0 then []
    else
      var g := CategoryEntries(entries, n - 1, category);
      assert entries[..n - 1] <= entries[..n];
      if EntryCategory(entries[n - 1]) == category then g + [entries[n - 1]] else g
  }

  function Categories(entries: seq<DigestEntry>): set<string>
  {
    set j | 0 <= j < |entries| :: EntryCategory(entries[j])
  }

  /** byCategory after its loop has seen the first n entries. */
  ghost function ByCategory(entries: seq<DigestEntry>, n: nat): map<string, seq<DigestEntry>>
    requires n <= |entries|
  {
    if n == 0 then map[]
    else
      var m := ByCategory(entries, n - 1);
      var c := EntryCategory(entries[n - 1]);
      m[c := (if c in m then m[c] else []) + [entries[n - 1]]]
  }

  lemma {:induction false} ByCategoryGroups(entries: seq<DigestEntry>, n: nat)
    requires n <= |entries|
    ensures forall c :: c in ByCategory(entries, n) <==> CategoryEntries(entries, n, c) != []
    ensures forall c :: c in ByCategory(entries, n) ==> ByCategory(entries, n)[c] == CategoryEntries(entries, n, c)
  {
    if n > 0 {
      ByCategoryGroups(entries, n - 1);
    }
  }

  lemma CategoriesDomain(entries: seq<DigestEntry>)
    ensures forall c :: c in Categories(entries) <==> CategoryEntries(entries, |entries|, c) != []
  {
    forall c | CategoryEntries(entries, |entries|, c) != []
      ensures c in Categories(entries)
    {
      var j :| 0 <= j < |entries| && EntryCategory(entries[j]) == c;
    }
  }

  /** The grouping loop of BuildMessages. */
  method GroupEntries(entries: seq<DigestEntry>) returns (byCategory: map<string, seq<DigestEntry>>)
    ensures byCategory.Keys == Categories(entries)
    ensures forall c :: c in byCategory ==> byCategory[c] == CategoryEntries(entries, |entries|, c)
  {
    byCategory := map[];
    var i := 0;
    while i < |entries|
      invariant i <= |entries|
      invariant byCategory == ByCategory(entries, i)
    {
      var category := entries[i].category;
      if category == "" {
        category := DefaultCategory;
      }
      var group := if category in byCategory then byCategory[category] else [];
      byCategory := byCategory[category := group + [entries[i]]];
      i := i + 1;
    }
    ByCategoryGroups(entries, |entries|);
    CategoriesDomain(entries);
  }

  // ------------------------------------------------------- category order

  /** Every name strictly before the next one. */
  predicate StrictlySorted(s: seq<string>)
  {
    forall i, j :: 0 <= i < j < |s| ==> Less(s[i], s[j])
  }

  lemma LessEqPreorder(s: seq<string>)
    ensures TotalPreorderOn(s, LessEq)
  {
    forall a, b | a in s && b in s ensures LessEq(a, b) || LessEq(b, a) {
      LessEqTotal(a, b);
    }
    forall a, b, c | a in s && b in s && c in s && LessEq(a, b) && LessEq(b, c) ensures LessEq(a, c) {
      LessEqTransitive(a, b, c);
    }
  }

  /** sort.Strings over distinct names gives them in strictly increasing order. */
  lemma SortStrings(keys: seq<string>)
    requires Distinct(keys)
    ensures StrictlySorted(SortBy(keys, LessEq))
    ensures forall c :: c in SortBy(keys, LessEq) <==> c in keys
  {
    var sorted := SortBy(keys, LessEq);
    LessEqPreorder(keys);
    SortBySorted(keys, LessEq);
    DistinctCounts(keys);
    DistinctCounts(sorted);
    assert forall c :: c in sorted <==> c in multiset(sorted);
  }

  /** Only one strictly increasing list holds a given set of names: the block order is determined. */
  lemma {:induction false} SortedUnique(a: seq<string>, b: seq<string>)
    requires StrictlySorted(a) && StrictlySorted(b)
    requires forall c :: c in a <==> c in b
    ensures a == b
    decreases |a|
  {
    if a != [] && b != [] {
      assert a[0] in b && b[0] in a;
      LessEqTotal(a[0], a[0]);
      var ka :| 0 <= ka < |b| && b[ka] == a[0];
      var kb :| 0 <= kb < |a| && a[kb] == b[0];
      assert LessEq(a[0], b[0]) by {
        if kb > 0 { assert Less(a[0], a[kb]); }
      }
      assert LessEq(b[0], a[0]) by {
        if ka > 0 { assert Less(b[0], b[ka]); }
      }
      LessEqAntisymmetric(a[0], b[0]);
      forall c ensures c in a[1..] <==> c in b[1..] {
        if c in a[1..] {
          var i :| 1 <= i < |a| && a[i] == c;
          assert Less(a[0], a[i]);
          assert c in b;
        }
        if c in b[1..] {
          var i :| 1 <= i < |b| && b[i] == c;
          assert Less(b[0], b[i]);
          assert c in a;
        }
      }
      SortedUnique(a[1..], b[1..]);
      assert a == [a[0]] + a[1..] && b == [b[0]] + b[1..];
    } else {
      HeadIn(a);
      HeadIn(b);
    }
  }

  lemma HeadIn<T>(s: seq<T>)
    ensures s != [] ==> s[0] in s
  {
  }

  /** The category names of byCategory, collected in map order and sorted with sort.Strings. */
  method SortedCategories(byCategory: map<string, seq<DigestEntry>>) returns (categories: seq<string>)
    ensures forall c :: c in categories <==> c in byCategory
    ensures StrictlySorted(categories)
  {
    var keys: seq<string> := [];
    var remaining := byCategory.Keys;
    while remaining != {}
      invariant remaining <= byCategory.Keys
      invariant forall c :: c in keys <==> c in byCategory && c !in remaining
      invariant Distinct(keys)
      decreases |remaining|
    {
      var c :| c in remaining;
      keys := keys + [c];
      remaining := remaining - {c};
    }
    SortStrings(keys);
    categories := SortBy(keys, LessEq);
  }

  // --------------------------------------------------------------- blocks

  /** The translated title when there is one, the original one otherwise. */
  function TitleOf(e: DigestEntry): (t: string)
    ensures e.titleRu != "" ==> t == e.titleRu
    ensures e.titleRu == "" ==> t == e.title
  {
    if e.titleRu == "" then e.title else e.titleRu
  }

  /** `[title](url) — summary` */
  function EntryLine(e: DigestEntry): string
  {
    "[" + TitleOf(e) + "](" + e.url + ") — " + e.summaryRu
  }

  function EntryLines(group: seq<DigestEntry>): (lines: seq<string>)
    ensures |lines| == |group|
    ensures forall k :: 0 <= k < |group| ==> lines[k] == EntryLine(group[k])
  {
    seq(|group|, k requires 0 <= k < |group| => EntryLine(group[k]))
  }

  /** The category in asterisks on its own line, then the entry lines separated by newlines. */
  function BlockText(category: string, group: seq<DigestEntry>): string
  {
    "*" + category + "*\n" + Join(EntryLines(group), "\n")
  }

  /** The builder's text after j of the lines: each line but the last followed by a newline. */
  function Built(lines: seq<string>, j: nat): string
    requires j <= |lines|
  {
    Join(lines[..j], "\n") + (if 0 < j < |lines| then "\n" else "")
  }

  lemma BuiltStep(lines: seq<string>, j: nat)
    requires j < |lines|
    ensures Built(lines, j + 1) == Built(lines, j) + lines[j] + (if j < |lines| - 1 then "\n" else "")
  {
    if j > 0 {
      assert lines[..j + 1] == lines[..j] + [lines[j]];
      JoinAppend(lines[..j], lines[j], "\n");
    } else {
      assert lines[..1] == [lines[j]];
    }
  }

  /** One entry's line, as the builder loop writes it. */
  method FormatLine(e: DigestEntry) returns (line: string)
    ensures line == EntryLine(e)
  {
    var title := e.titleRu;
    if title == "" {
      title := e.title;
    }
    line := "[" + title + "](" + e.url + ") — " + e.summaryRu;
  }

  /** The builder loop of formatCategoriesAsBlocks for one category. */
  method FormatBlock(category: string, group: seq<DigestEntry>) returns (block: Bytes)
    ensures block == Utf8(BlockText(category, group))
  {
    var head := "*" + category + "*\n";
    var sb := head;
    ghost var lines := EntryLines(group);
    var j := 0;
    while j < |group|
      invariant j <= |group|
      invariant sb == head + Built(lines, j)
    {
      var line := FormatLine(group[j]);
      assert line == lines[j];
      var nl := if j < |group| - 1 then "\n" else "";
      BuiltStep(lines, j);
      AppendTwo(head, Built(lines, j), line, nl);
      sb := sb + line;
      if j < |group| - 1 {
        sb := sb + "\n";
      } else {
        assert sb + nl == sb;
      }
      j := j + 1;
    }
    assert lines[..|group|] == lines;
    assert Built(lines, |group|) == Join(lines, "\n");
    block := Utf8(sb);
  }

  /** The encoded block of one category: its heading and the lines of its entries. */
  function CategoryBlock(entries: seq<DigestEntry>, category: string): Bytes
  {
    Utf8(BlockText(category, CategoryEntries(entries, |entries|, category)))
  }

  /** The blocks of the given categories, in that order. */
  function Blocks(entries: seq<DigestEntry>, categories: seq<string>): (blocks: seq<Bytes>)
    ensures |blocks| == |categories|
  {
    seq(|categories|, k requires 0 <= k < |categories| => CategoryBlock(entries, categories[k]))
  }

  /** The blocks of one more category: those before, then its own. */
  lemma BlocksSnoc(entries: seq<DigestEntry>, categories: seq<string>, k: nat, done: seq<Bytes>, next: Bytes)
    requires k < |categories| && done == Blocks(entries, categories[..k])
    requires next == CategoryBlock(entries, categories[k])
    ensures done + [next] == Blocks(entries, categories[..k + 1])
  {
    BlocksExtend(entries, categories, k, done, next);
    SnocEqual(Blocks(entries, categories[..k + 1]), done, next);
  }

  /** The blocks of one more category agree with those before and end with its own. */
  lemma BlocksExtend(entries: seq<DigestEntry>, categories: seq<string>, k: nat, done: seq<Bytes>, next: Bytes)
    requires k < |categories| && done == Blocks(entries, categories[..k])
    requires next == CategoryBlock(entries, categories[k])
    ensures |Blocks(entries, categories[..k + 1])| == |done| + 1
    ensures Blocks(entries, categories[..k + 1])[k] == next
    ensures forall i :: 0 <= i < k ==> Blocks(entries, categories[..k + 1])[i] == done[i]
  {
    BlocksOfPrefix(entries, categories, k + 1);
    BlocksOfPrefix(entries, categories, k);
  }

  /** Block i of a prefix of the categories is the block of category i. */
  lemma BlocksOfPrefix(entries: seq<DigestEntry>, categories: seq<string>, n: nat)
    requires n <= |categories|
    ensures forall i :: 0 <= i < n ==>
      Blocks(entries, categories[..n])[i] == CategoryBlock(entries, categories[i])
  {
    forall i | 0 <= i < n
      ensures Blocks(entries, categories[..n])[i] == CategoryBlock(entries, categories[i])
    {
      assert categories[..n][i] == categories[i];
    }
  }

  /** Every block holds at least its heading. */
  lemma BlocksNonEmpty(entries: seq<DigestEntry>, categories: seq<string>)
    ensures forall k :: 0 <= k < |categories| ==> Blocks(entries, categories)[k] != []
  {
    forall k | 0 <= k < |categories| ensures Blocks(entries, categories)[k] != [] {
      var text := BlockText(categories[k], CategoryEntries(entries, |entries|, categories[k]));
      assert text[0] == '*';
    }
  }

  /** formatCategoriesAsBlocks */
  method FormatBlocks(byCategory: map<string, seq<DigestEntry>>, categories: seq<string>,
                      ghost entries: seq<DigestEntry>) returns (blocks: seq<Bytes>)
    requires forall c :: c in categories ==> c in byCategory
    requires forall c :: c in byCategory ==> byCategory[c] == CategoryEntries(entries, |entries|, c)
    ensures blocks == Blocks(entries, categories)
  {
    blocks := [];
    var k := 0;
    while k < |categories|
      invariant k <= |categories|
      invariant blocks == Blocks(entries, categories[..k])
    {
      var block := FormatBlock(categories[k], byCategory[categories[k]]);
      BlocksSnoc(entries, categories, k, blocks, block);
      blocks := blocks + [block];
      k := k + 1;
    }
    assert categories[..|categories|] == categories;
  }

  // -------------------------------------------------------------- packing

  /** The messages closed so far and the one being filled. */
  datatype Packing = Packing(messages: seq<Bytes>, current: Bytes)

  /**
   * One line of a block too long for any message: the message being filled
   * is closed, without its last newline, when the line would overflow it.
   */
  function PlaceLine(p: Packing, line: Bytes): Packing
  {
    var withNewline := line + [Newline];
    if |p.current| + |withNewline| + HeaderReserve > TelegramMaxMessageLength && |p.current| > 0
    then Packing(p.messages + [TrimSuffix(p.current, [Newline])], withNewline)
    else Packing(p.messages, p.current + withNewline)
  }

  function PlaceLines(p: Packing, lines: seq<Bytes>): Packing
    decreases |lines|
  {
    if lines == [] then p
    else PlaceLine(PlaceLines(p, lines[..|lines| - 1]), lines[|lines| - 1])
  }

  /**
   * One block: it joins the message being filled (after a blank line) when
   * it fits with the reserve, otherwise that message is closed first; a
   * block that cannot fit even alone is placed line by line.
   */
  function PlaceBlock(p: Packing, block: Bytes): Packing
  {
    var joined := if |p.current| > 0 then CategorySeparator + block else block;
    var wouldExceed := |p.current| + |joined| + HeaderReserve > TelegramMaxMessageLength;
    var q := if wouldExceed && |p.current| > 0 then Packing(p.messages + [p.current], []) else p;
    if |block| + HeaderReserve > TelegramMaxMessageLength then
      var r := if |q.current| > 0 then Packing(q.messages + [q.current], []) else q;
      PlaceLines(r, Split(block, Newline))
    else if wouldExceed && |p.current| > 0 then Packing(q.messages, block)
    else Packing(q.messages, q.current + joined)
  }

  function PlaceBlocks(blocks: seq<Bytes>, n: nat): Packing
    requires n <= |blocks|
  {
    if n == 0 then Packing([], [])
    else PlaceBlock(PlaceBlocks(blocks, n - 1), blocks[n - 1])
  }

  /** The messages before numbering: every closed one, then the last if it holds anything. */
  function Packed(blocks: seq<Bytes>): seq<Bytes>
  {
    var p := PlaceBlocks(blocks, |blocks|);
    if |p.current| > 0 then p.messages + [p.current] else p.messages
  }

  /** The line loop of splitIntoMessagesByCategories. */
  method PackLines(messages: seq<Bytes>, current: Bytes, lines: seq<Bytes>)
    returns (messages': seq<Bytes>, current': Bytes)
    ensures Packing(messages', current') == PlaceLines(Packing(messages, current), lines)
  {
    messages', current' := messages, current;
    var j := 0;
    while j < |lines|
      invariant j <= |lines|
      invariant Packing(messages', current') == PlaceLines(Packing(messages, current), lines[..j])
    {
      var withNewline := lines[j] + [Newline];
      if |current'| + |withNewline| + HeaderReserve > TelegramMaxMessageLength && |current'| > 0 {
        messages' := messages' + [TrimSuffix(current', [Newline])];
        current' := [];
      }
      current' := current' + withNewline;
      assert lines[..j + 1][..j] == lines[..j];
      j := j + 1;
    }
    assert lines[..|lines|] == lines;
  }

  /** One turn of the block loop of splitIntoMessagesByCategories. */
  method PackBlock(messages: seq<Bytes>, current: Bytes, block: Bytes)
    returns (messages': seq<Bytes>, current': Bytes)
    ensures Packing(messages', current') == PlaceBlock(Packing(messages, current), block)
  {
    messages', current' := messages, current;
    var joined := block;
    if |current'| > 0 {
      joined := CategorySeparator + block;
    }
    var wouldExceed := |current'| + |joined| + HeaderReserve > TelegramMaxMessageLength;
    if wouldExceed && |current'| > 0 {
      messages' := messages' + [current'];
      current' := [];
      joined := block;
    }
    if |block| + HeaderReserve > TelegramMaxMessageLength {
      if |current'| > 0 {
        messages' := messages' + [current'];
        current' := [];
      }
      messages', current' := PackLines(messages', current', Split(block, Newline));
      return;
    }
    current' := current' + joined;
  }

  /** The second flush of an oversized block never happens: the message being filled is already empty. */
  lemma OversizedBlockStartsEmpty(p: Packing, block: Bytes)
    requires |block| + HeaderReserve > TelegramMaxMessageLength
    ensures var joined := if |p.current| > 0 then CategorySeparator + block else block;
            |p.current| > 0 ==> |p.current| + |joined| + HeaderReserve > TelegramMaxMessageLength
  {
  }

  // ------------------------------------------------------------ numbering

  /** "Подборка дня (number/total) — today\n\n" */
  function Header(number: nat, total: nat, today: string): Bytes
  {
    Utf8("Подборка дня (" + Itoa(number) + "/" + Itoa(total) + ") — " + today + "\n\n")
  }

  /** A message under its header, its content cut and marked with "..." when the two overflow the limit. */
  function WithHeader(header: Bytes, msg: Bytes): Bytes
  {
    if |header + msg| > TelegramMaxMessageLength then
      var maxContentLen := TelegramMaxMessageLength - |header| - |Ellipsis|;
      if maxContentLen > 0 then
        if |msg| > maxContentLen then header + msg[..maxContentLen] + Ellipsis else header + msg
      else header
    else header + msg
  }

  /** The headers "(k/total)" of one day's messages, by k. */
  function HeadersOf(total: nat, today: string): nat -> Bytes
  {
    (k: nat) => Header(k, total, today)
  }

  /** The first n of the messages, the k-th under `headers(k)`. */
  function NumberedPrefix(messages: seq<Bytes>, n: nat, headers: nat -> Bytes): (r: seq<Bytes>)
    requires n <= |messages|
    ensures |r| == n
  {
    if n == 0 then []
    else NumberedPrefix(messages, n - 1, headers) + [WithHeader(headers(n), messages[n - 1])]
  }

  /** Several messages are numbered; a single one is left as it is. */
  function Numbered(messages: seq<Bytes>, today: string): (r: seq<Bytes>)
    ensures |r| == |messages|
  {
    if |messages| > 1 then NumberedPrefix(messages, |messages|, HeadersOf(|messages|, today)) else messages
  }

  function SplitSpec(blocks: seq<Bytes>, today: string): seq<Bytes>
  {
    if blocks == [] then [] else Numbered(Packed(blocks), today)
  }

  /** One message under its header, cut when the two are too long. */
  method AddHeader(header: Bytes, msg: Bytes) returns (fullMessage: Bytes)
    ensures fullMessage == WithHeader(header, msg)
  {
    var content := msg;
    fullMessage := header + content;
    if |fullMessage| > TelegramMaxMessageLength {
      var maxContentLen := TelegramMaxMessageLength - |header| - |Ellipsis|;
      if maxContentLen > 0 {
        if |content| > maxContentLen {
          content := content[..maxContentLen] + Ellipsis;
        }
      } else {
        content := [];
      }
      fullMessage := header + content;
    }
  }

  /** The numbering loop of splitIntoMessagesByCategories. */
  method NumberMessages(messages: seq<Bytes>, today: string) returns (result: seq<Bytes>)
    ensures result == Numbered(messages, today)
  {
    if |messages| <= 1 {
      return messages;
    }
    var total := |messages|;
    result := [];
    var i := 0;
    while i < total
      invariant i <= total
      invariant result == NumberedPrefix(messages, i, HeadersOf(total, today))
    {
      var fullMessage := AddHeader(Header(i + 1, total, today), messages[i]);
      assert HeadersOf(total, today)(i + 1) == Header(i + 1, total, today);
      result := result + [fullMessage];
      i := i + 1;
    }
  }

  /** The block loop of splitIntoMessagesByCategories and the flush of the last message. */
  method PackBlocks(blocks: seq<Bytes>) returns (packed: seq<Bytes>)
    ensures packed == Packed(blocks)
  {
    var closed: seq<Bytes> := [];
    var current: Bytes := [];
    var i := 0;
    while i < |blocks|
      invariant i <= |blocks|
      invariant Packing(closed, current) == PlaceBlocks(blocks, i)
    {
      closed, current := PackBlock(closed, current, blocks[i]);
      i := i + 1;
    }
    packed := closed;
    if |current| > 0 {
      packed := closed + [current];
    }
  }

  /** splitIntoMessagesByCategories, with today's date text given. */
  method SplitIntoMessages(blocks: seq<Bytes>, today: string) returns (messages: seq<Bytes>)
    ensures messages == SplitSpec(blocks, today)
  {
    if |blocks| == 0 {
      return [];
    }
    var packed := PackBlocks(blocks);
    messages := NumberMessages(packed, today);
  }

  // ----------------------------------------------------------- properties

  /** A block splits back into its heading and its entry lines. */
  lemma BlockLines(category: string, group: seq<DigestEntry>)
    requires group != []
    requires '\n' !in category
    requires forall e :: e in group ==> '\n' !in EntryLine(e)
    ensures Split(BlockText(category, group), '\n') == ["*" + category + "*"] + EntryLines(group)
  {
    var lines := EntryLines(group);
    var parts := ["*" + category + "*"] + lines;
    assert parts[1..] == lines;
    assert Join(parts, "\n") == BlockText(category, group);
    forall k | 0 <= k < |parts| ensures '\n' !in parts[k] {
      if k > 0 {
        assert parts[k] == EntryLine(group[k - 1]);
      }
    }
    SplitJoin(parts, '\n');
  }

  /** `x` occurs somewhere in `m`. */
  ghost predicate Within(m: Bytes, x: Bytes)
  {
    exists j :: OccursAt(m, x, j)
  }

  /** `x` occurs whole in a closed message or in the one being filled. */
  ghost predicate Placed(p: Packing, x: Bytes)
  {
    (exists i :: 0 <= i < |p.messages| && Within(p.messages[i], x)) || Within(p.current, x)
  }

  lemma WithinAppend(m: Bytes, x: Bytes, y: Bytes)
    requires Within(m, x)
    ensures Within(m + y, x)
  {
    var j :| OccursAt(m, x, j);
    assert (m + y)[j..j + |x|] == m[j..j + |x|];
    assert OccursAt(m + y, x, j);
  }

  lemma WithinEnd(m: Bytes, x: Bytes)
    ensures Within(m + x, x)
  {
    assert (m + x)[|m|..|m| + |x|] == x;
    assert OccursAt(m + x, x, |m|);
  }

  /** The line loop only adds messages. */
  lemma {:induction false} PlaceLinesGrow(p: Packing, lines: seq<Bytes>)
    ensures p.messages <= PlaceLines(p, lines).messages
    decreases |lines|
  {
    if lines != [] {
      PlaceLinesGrow(p, lines[..|lines| - 1]);
    }
  }

  lemma KeptIn(ms: seq<Bytes>, ns: seq<Bytes>, x: Bytes)
    requires ms <= ns
    requires exists i :: 0 <= i < |ms| && Within(ms[i], x)
    ensures exists i :: 0 <= i < |ns| && Within(ns[i], x)
  {
    var i :| 0 <= i < |ms| && Within(ms[i], x);
    assert ns[i] == ms[i];
  }

  /** A block that is already placed stays whole while the next one is placed. */
  lemma PlaceBlockKeeps(p: Packing, block: Bytes, x: Bytes)
    requires x != [] && Placed(p, x)
    ensures Placed(PlaceBlock(p, block), x)
  {
    var joined := if |p.current| > 0 then CategorySeparator + block else block;
    var wouldExceed := |p.current| + |joined| + HeaderReserve > TelegramMaxMessageLength;
    var q := if wouldExceed && |p.current| > 0 then Packing(p.messages + [p.current], []) else p;
    var flushed := Packing(p.messages + [p.current], []);
    if Within(p.current, x) {
      var j :| OccursAt(p.current, x, j);
      assert |p.current| > 0;
      assert Within(flushed.messages[|p.messages|], x);
      if |block| + HeaderReserve > TelegramMaxMessageLength {
        assert q == flushed;
        PlaceLinesGrow(q, Split(block, Newline));
        KeptIn(q.messages, PlaceBlock(p, block).messages, x);
      } else if wouldExceed {
        assert PlaceBlock(p, block).messages == flushed.messages;
      } else {
        WithinAppend(p.current, x, joined);
      }
    } else {
      var r := if |q.current| > 0 then Packing(q.messages + [q.current], []) else q;
      assert p.messages <= r.messages;
      KeptIn(p.messages, r.messages, x);
      if |block| + HeaderReserve > TelegramMaxMessageLength {
        PlaceLinesGrow(r, Split(block, Newline));
        KeptIn(r.messages, PlaceBlock(p, block).messages, x);
      } else {
        KeptIn(p.messages, PlaceBlock(p, block).messages, x);
      }
    }
  }

  /** A block that fits with the reserve ends the message being filled. */
  lemma PlaceBlockPlaces(p: Packing, block: Bytes)
    requires |block| + HeaderReserve <= TelegramMaxMessageLength
    ensures Within(PlaceBlock(p, block).current, block)
  {
    var joined := if |p.current| > 0 then CategorySeparator + block else block;
    var wouldExceed := |p.current| + |joined| + HeaderReserve > TelegramMaxMessageLength;
    if wouldExceed && |p.current| > 0 {
      WithinEnd([], block);
      assert [] + block == block;
    } else if |p.current| > 0 {
      WithinEnd(p.current + CategorySeparator, block);
      assert p.current + (CategorySeparator + block) == p.current + CategorySeparator + block;
    } else {
      WithinEnd(p.current, block);
    }
  }

  lemma {:induction false} PlaceBlocksKeep(blocks: seq<Bytes>, k: nat, n: nat)
    requires k < n <= |blocks|
    requires blocks[k] != [] && |blocks[k]| + HeaderReserve <= TelegramMaxMessageLength
    ensures Placed(PlaceBlocks(blocks, n), blocks[k])
  {
    if n == k + 1 {
      PlaceBlockPlaces(PlaceBlocks(blocks, k), blocks[k]);
    } else {
      PlaceBlocksKeep(blocks, k, n - 1);
      PlaceBlockKeeps(PlaceBlocks(blocks, n - 1), blocks[n - 1], blocks[k]);
    }
  }

  /**
   * Before numbering, a block that fits in a message together with the
   * header reserve is never broken: it appears whole in one message.
   */
  lemma BlockStaysWhole(blocks: seq<Bytes>, k: nat)
    requires k < |blocks|
    requires blocks[k] != [] && |blocks[k]| + HeaderReserve <= TelegramMaxMessageLength
    ensures exists i :: 0 <= i < |Packed(blocks)| && Within(Packed(blocks)[i], blocks[k])
  {
    var p := PlaceBlocks(blocks, |blocks|);
    PlaceBlocksKeep(blocks, k, |blocks|);
    if Within(p.current, blocks[k]) {
      var j :| OccursAt(p.current, blocks[k], j);
      assert Packed(blocks)[|p.messages|] == p.current;
    } else {
      KeptIn(p.messages, Packed(blocks), blocks[k]);
    }
  }

  lemma {:induction false} JoinGrows(blocks: seq<Bytes>, n: nat)
    requires 0 < n < |blocks|
    ensures Join(blocks[..n + 1], CategorySeparator) == Join(blocks[..n], CategorySeparator) + CategorySeparator + blocks[n]
  {
    assert blocks[..n + 1] == blocks[..n] + [blocks[n]];
    JoinAppend(blocks[..n], blocks[n], CategorySeparator);
  }

  lemma {:induction false} JoinPrefixShorter(blocks: seq<Bytes>, n: nat)
    requires 0 < n <= |blocks|
    ensures |blocks[n - 1]| <= |Join(blocks[..n], CategorySeparator)| <= |Join(blocks, CategorySeparator)|
    decreases |blocks| - n
  {
    if n == 1 {
      assert blocks[..1] == [blocks[0]];
    } else {
      JoinGrows(blocks, n - 1);
    }
    if n < |blocks| {
      JoinGrows(blocks, n);
      JoinPrefixShorter(blocks, n + 1);
    } else {
      assert blocks[..n] == blocks;
    }
  }

  lemma PlaceFirst(block: Bytes)
    requires |block| + HeaderReserve <= TelegramMaxMessageLength
    ensures PlaceBlock(Packing([], []), block) == Packing([], block)
  {
    assert [] + block == block;
  }

  lemma PlaceAfter(current: Bytes, block: Bytes)
    requires current != []
    requires |current| + |CategorySeparator| + |block| + HeaderReserve <= TelegramMaxMessageLength
    ensures PlaceBlock(Packing([], current), block) == Packing([], current + (CategorySeparator + block))
  {
  }

  /** While everything fits, the blocks so far are one message in the making, a blank line between blocks. */
  lemma {:induction false} PlaceBlocksTogether(blocks: seq<Bytes>, n: nat)
    requires n <= |blocks|
    requires forall k :: 0 <= k < |blocks| ==> blocks[k] != []
    requires |Join(blocks, CategorySeparator)| + HeaderReserve <= TelegramMaxMessageLength
    ensures PlaceBlocks(blocks, n) == Packing([], Join(blocks[..n], CategorySeparator))
  {
    if n > 0 {
      PlaceBlocksTogether(blocks, n - 1);
      JoinPrefixShorter(blocks, n);
      if n == 1 {
        assert blocks[..1] == [blocks[0]];
        PlaceFirst(blocks[0]);
      } else {
        var before := Join(blocks[..n - 1], CategorySeparator);
        JoinPrefixShorter(blocks, n - 1);
        JoinGrows(blocks, n - 1);
        PlaceAfter(before, blocks[n - 1]);
      }
    }
  }

  /** Blocks that fit together, with the reserve, make a single message, and it has no header. */
  lemma FitsInOne(blocks: seq<Bytes>, today: string)
    requires blocks != []
    requires forall k :: 0 <= k < |blocks| ==> blocks[k] != []
    requires |Join(blocks, CategorySeparator)| + HeaderReserve <= TelegramMaxMessageLength
    ensures SplitSpec(blocks, today) == [Join(blocks, CategorySeparator)]
  {
    PlaceBlocksTogether(blocks, |blocks|);
    JoinPrefixShorter(blocks, |blocks|);
    assert blocks[..|blocks|] == blocks;
  }

  lemma {:induction false} NumberedPrefixAt(messages: seq<Bytes>, n: nat, headers: nat -> Bytes, i: nat)
    requires i < n <= |messages|
    ensures NumberedPrefix(messages, n, headers)[i] == WithHeader(headers(i + 1), messages[i])
  {
    if i < n - 1 {
      NumberedPrefixAt(messages, n - 1, headers, i);
    }
  }

  /**
   * What the header step does to one message: the header comes first; the
   * message is kept whole when the two fit in Telegram's limit; otherwise
   * it is cut to exactly the limit and ends in "...", unless the header
   * leaves no room, when only the header remains.
   */
  lemma WithHeaderFits(header: Bytes, msg: Bytes)
    ensures HasPrefix(WithHeader(header, msg), header)
    ensures |WithHeader(header, msg)| <= TelegramMaxMessageLength || WithHeader(header, msg) == header
    ensures |header| + |msg| <= TelegramMaxMessageLength ==> WithHeader(header, msg) == header + msg
    ensures |header| + |msg| > TelegramMaxMessageLength && |header| + |Ellipsis| < TelegramMaxMessageLength ==>
              var cut := TelegramMaxMessageLength - |header| - |Ellipsis|;
              WithHeader(header, msg) == header + msg[..cut] + Ellipsis
              && |WithHeader(header, msg)| == TelegramMaxMessageLength
  {
    var r := WithHeader(header, msg);
    assert r[..|header|] == header;
  }

  /**
   * When packing gives more than one message, message i of n starts with
   * the header "(i+1/n)" and fits the limit (or is that header alone); a
   * single message is returned as it is.
   */
  lemma NumberedMessage(messages: seq<Bytes>, today: string, i: nat)
    requires i < |messages|
    ensures var r := Numbered(messages, today)[i];
            var header := Header(i + 1, |messages|, today);
            if |messages| > 1 then
              HasPrefix(r, header) && (|r| <= TelegramMaxMessageLength || r == header)
            else r == messages[i]
  {
    if |messages| > 1 {
      NumberedPrefixAt(messages, |messages|, HeadersOf(|messages|, today), i);
      assert HeadersOf(|messages|, today)(i + 1) == Header(i + 1, |messages|, today);
      WithHeaderFits(Header(i + 1, |messages|, today), messages[i]);
    }
  }

  // ------------------------------------------------------------ the whole

  /** What BuildMessages returns for the entries, given the sorted category names. */
  function MessagesSpec(entries: seq<DigestEntry>, categories: seq<string>, today: CalendarDate): seq<Bytes>
  {
    if entries == [] then [] else SplitSpec(Blocks(entries, categories), GoDateText(today))
  }

  /**
   * BuildMessages. `today` is the clock's date; `categories` is the order
   * sort.Strings gives the category names (the only strictly increasing one,
   * by SortedUnique). The header date is the text of the layout
   * "2 января 2006", which names January whatever the month.
   */
  method BuildMessages(f: Formatter, entries: seq<DigestEntry>, today: CalendarDate)
    returns (messages: seq<Bytes>, ghost categories: seq<string>)
    ensures entries == [] ==> messages == []
    ensures forall c :: c in categories <==> c in Categories(entries)
    ensures StrictlySorted(categories)
    ensures messages == MessagesSpec(entries, categories, today)
  {
    categories := [];
    if |entries| == 0 {
      return [], categories;
    }
    var byCategory := GroupEntries(entries);
    var names := SortedCategories(byCategory);
    categories := names;
    var blocks := FormatBlocks(byCategory, names, entries);
    messages := SplitIntoMessages(blocks, GoDateText(today));
  }

  /** A category block that fits with the header reserve is whole in one of the packed messages. */
  lemma CategoryBlockWhole(entries: seq<DigestEntry>, categories: seq<string>, k: nat)
    requires k < |categories|
    requires |Blocks(entries, categories)[k]| + HeaderReserve <= TelegramMaxMessageLength
    ensures var blocks := Blocks(entries, categories);
            exists i :: 0 <= i < |Packed(blocks)| && Within(Packed(blocks)[i], blocks[k])
  {
    BlocksNonEmpty(entries, categories);
    BlockStaysWhole(Blocks(entries, categories), k);
  }
}
