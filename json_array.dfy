/**
 * Recovering the JSON array from a model reply that is not valid JSON as a
 * whole. The ranker (internal/ranking/ranker.go) cuts the reply down to the
 * first bracket-balanced span that starts at the first '['; the categorizer
 * and the summarizer (internal/gemini/categorizer.go) first unwrap a
 * Markdown code fence. Go indexes bytes here; '[', ']', '`' and the blanks
 * skipped are ASCII, which never occur inside the UTF-8 encoding of another
 * character, so scanning characters finds the same spans.
 */
module JsonArray {
  import opened Common
  import opened GoStrings

  function Delta(c: char): int
  {
    if c == '[' then 1 else if c == ']' then -1 else 0
  }

  /** Opening minus closing square brackets. */
  function Balance(s: string): int
  {
    if s == [] then 0 else Balance(s[..|s| - 1]) + Delta(s[|s| - 1])
  }

  lemma BalanceStep(text: string, start: nat, i: nat)
    requires start <= i < |text|
    ensures Balance(text[start..i + 1]) == Balance(text[start..i]) + Delta(text[i])
  {
    assert text[start..i + 1][..i - start] == text[start..i];
  }

  /** The first end `e >= from` at which the span text[start..e] is balanced. */
  function FirstBalanced(text: string, start: nat, from: nat): (r: Option<nat>)
    requires start < from
    ensures r.Some? ==> from <= r.value <= |text| && Balance(text[start..r.value]) == 0
    ensures r.Some? ==> forall e :: from <= e < r.value ==> Balance(text[start..e]) != 0
    ensures r.None? ==> forall e :: from <= e <= |text| ==> Balance(text[start..e]) != 0
    decreases |text| + 1 - from
  {
    if from > |text| then None
    else if Balance(text[start..from]) == 0 then Some(from)
    else FirstBalanced(text, start, from + 1)
  }

  /** The span the ranker's extractJSON returns: "" when there is no '[' or it is never closed. */
  function ArraySpan(text: string): string
  {
    var start := IndexOf(text, "[");
    if start < 0 then ""
    else
      match FirstBalanced(text, start, start + 1)
      case None => ""
      case Some(e) => text[start..e]
  }

  /** A non-empty span that opens with '[' and first returns to balance at its very end. */
  predicate ClosedArray(a: string)
  {
    |a| > 0 && a[0] == '[' && Balance(a) == 0
    && forall k :: 0 < k < |a| ==> Balance(a[..k]) > 0
  }

  /**
   * extractJSON of the ranker: the depth counter walks from the first '['
   * and stops at the ']' that brings it back to zero.
   */
  method ExtractArray(text: string) returns (r: string)
    ensures r == ArraySpan(text)
  {
    var start := IndexOf(text, "[");
    if start == -1 {
      return "";
    }
    assert text[start] == '[' by {
      assert HasPrefix(text[start..], "[");
    }
    var depth := 0;
    var i := start;
    var closed := false;
    while i < |text| && !closed
      invariant start <= i <= |text|
      invariant depth == Balance(text[start..i]) && depth >= 0
      invariant i == start ==> !closed
      invariant i > start && !closed ==> depth > 0 && FirstBalanced(text, start, start + 1) == FirstBalanced(text, start, i)
      invariant closed ==> FirstBalanced(text, start, start + 1) == Some(i)
    {
      BalanceStep(text, start, i);
      if i > start {
        FirstBalancedSkip(text, start, i);
      }
      if text[i] == '[' {
        depth := depth + 1;
      } else if text[i] == ']' {
        depth := depth - 1;
        closed := depth == 0;
      }
      i := i + 1;
      if closed {
        FirstBalancedHere(text, start, i);
      }
    }
    if closed {
      r := text[start..i];
    } else {
      r := "";
    }
  }

  /** An end where the span is not balanced is passed over. */
  lemma FirstBalancedSkip(text: string, start: nat, e: nat)
    requires start < e <= |text| && Balance(text[start..e]) != 0
    ensures FirstBalanced(text, start, e) == FirstBalanced(text, start, e + 1)
  {
  }

  /** An end where the span is balanced is found at once. */
  lemma FirstBalancedHere(text: string, start: nat, e: nat)
    requires start < e <= |text| && Balance(text[start..e]) == 0
    ensures FirstBalanced(text, start, e) == Some(e)
  {
  }

  /** FirstBalanced finds `e` when the span first balances there. */
  lemma {:induction false} FirstBalancedAt(text: string, start: nat, from: nat, e: nat)
    requires start < from <= e <= |text|
    requires Balance(text[start..e]) == 0
    requires forall e' :: from <= e' < e ==> Balance(text[start..e']) != 0
    ensures FirstBalanced(text, start, from) == Some(e)
    decreases e - from
  {
    if from < e {
      FirstBalancedAt(text, start, from + 1, e);
    }
  }

  /** A '[' starting a span never closed leaves nothing; otherwise the span is a closed array inside the text. */
  lemma ArraySpanShape(text: string)
    ensures ArraySpan(text) == "" || ClosedArray(ArraySpan(text))
    ensures ArraySpan(text) != "" ==> exists i :: OccursAt(text, ArraySpan(text), i)
    ensures IndexOf(text, "[") < 0 ==> ArraySpan(text) == ""
  {
    var start := IndexOf(text, "[");
    if start >= 0 {
      assert text[start] == '[' by {
        assert HasPrefix(text[start..], "[");
      }
      match FirstBalanced(text, start, start + 1)
      case None =>
      case Some(e) =>
        var a := text[start..e];
        assert a[..1] == [text[start]];
        assert Balance(a[..1]) == 1 by {
          assert a[..1][..0] == [];
        }
        forall k | 0 < k < |a| ensures Balance(a[..k]) != 0 {
          assert a[..k] == text[start..start + k];
        }
        PositiveUntilClosed(a, 1);
        assert OccursAt(text, a, start);
    }
  }

  /** Balance moves by one per character, so a span that is never balanced before its end stays positive. */
  lemma {:induction false} PositiveUntilClosed(a: string, k: nat)
    requires 0 < k <= |a|
    requires Balance(a[..k]) > 0
    requires forall j :: 0 < j < |a| ==> Balance(a[..j]) != 0
    ensures forall j :: k <= j < |a| ==> Balance(a[..j]) > 0
    decreases |a| - k
  {
    if k < |a| - 1 {
      assert a[..k + 1][..k] == a[..k];
      PositiveUntilClosed(a, k + 1);
    }
  }

  /**
   * The extraction recovers an array the model wrapped in chatter: text
   * without '[' before it, anything after it.
   */
  lemma ArraySpanSurrounded(pre: string, a: string, post: string)
    requires '[' !in pre
    requires ClosedArray(a)
    ensures ArraySpan(pre + a + post) == a
  {
    var text := pre + a + post;
    var start := |pre|;
    assert text[start..] == a + post;
    assert HasPrefix(text[start..], "[") by {
      assert (a + post)[0] == a[0];
    }
    forall j | 0 <= j < start ensures !HasPrefix(text[j..], "[") {
      assert text[j..][0] == pre[j];
    }
    IndexOfFirst(text, "[", start);
    assert text[start..start + |a|] == a;
    forall e | start + 1 <= e < start + |a| ensures Balance(text[start..e]) != 0 {
      assert text[start..e] == a[..e - start];
    }
    FirstBalancedAt(text, start, start + 1, start + |a|);
  }

  // --------------------------------------------------- the fenced variant

  predicate Blank(c: char)
  {
    c == ' ' || c == '\n' || c == '\r' || c == '\t'
  }

  /** The first position at or after `i` that is not a blank. */
  function SkipBlanks(text: string, i: nat): (r: nat)
    requires i <= |text|
    ensures i <= r <= |text|
    ensures forall k :: i <= k < r ==> Blank(text[k])
    ensures r == |text| || !Blank(text[r])
    decreases |text| - i
  {
    if i < |text| && Blank(text[i]) then SkipBlanks(text, i + 1) else i
  }

  /**
   * The text inside a Markdown code fence: after the opening marker (of
   * length `open`) and the blanks that follow it, up to the next "```",
   * trimmed; the text itself when no closing fence follows.
   */
  function Unfence(text: string, at: nat, open: nat): string
    requires at + open <= |text|
  {
    var contentStart := SkipBlanks(text, at + open);
    var remaining := text[contentStart..];
    var close := IndexOf(remaining, "```");
    if close >= 0 then TrimSpace(remaining[..close]) else text
  }

  /**
   * What the categorizer's extractJSON parses: a "```json" fence is
   * preferred to a bare "```" one; an empty fence falls back to the whole
   * reply; the array span is then trimmed.
   */
  function CleanedJson(text: string): string
  {
    var jsonFence := IndexOf(text, "```json");
    var plainFence := IndexOf(text, "```");
    var unfenced :=
      if jsonFence >= 0 then Unfence(text, jsonFence, 7)
      else if plainFence >= 0 then Unfence(text, plainFence, 3)
      else text;
    var body := if unfenced == "" then text else unfenced;
    TrimSpace(ArraySpan(body))
  }

  /** The blank-skipping loop of extractJSON. */
  method SkipFenceBlanks(text: string, from: nat) returns (contentStart: nat)
    requires from <= |text|
    ensures contentStart == SkipBlanks(text, from)
  {
    contentStart := from;
    while contentStart < |text| && Blank(text[contentStart])
      invariant from <= contentStart <= |text|
      invariant SkipBlanks(text, contentStart) == SkipBlanks(text, from)
    {
      contentStart := contentStart + 1;
    }
  }

  /** The body of extractJSON once a fence opening was found: its trimmed contents, or the text when it is never closed. */
  method FenceContent(text: string, at: nat, open: nat) returns (body: string)
    requires at + open <= |text|
    ensures body == Unfence(text, at, open)
  {
    var contentStart := SkipFenceBlanks(text, at + open);
    var remaining := text[contentStart..];
    var codeBlockEnd := IndexOf(remaining, "```");
    UnfenceParts(text, at, open, contentStart, codeBlockEnd);
    body := if codeBlockEnd != -1 then TrimSpace(remaining[..codeBlockEnd]) else text;
  }

  /** Unfence in terms of where the content starts and where the closing fence is. */
  lemma UnfenceParts(text: string, at: nat, open: nat, contentStart: nat, codeBlockEnd: int)
    requires at + open <= |text|
    requires contentStart == SkipBlanks(text, at + open)
    requires codeBlockEnd == IndexOf(text[contentStart..], "```")
    ensures codeBlockEnd != -1 ==> Unfence(text, at, open) == TrimSpace(text[contentStart..][..codeBlockEnd])
    ensures codeBlockEnd == -1 ==> Unfence(text, at, open) == text
  {
  }

  /** extractJSON of the categorizer and the summarizer. */
  method ExtractFencedArray(text: string) returns (r: string)
    ensures r == CleanedJson(text)
  {
    var original := text;
    var body := text;
    var codeBlockStart := IndexOf(text, "```json");
    if codeBlockStart != -1 {
      body := FenceContent(text, codeBlockStart, 7);
    } else {
      codeBlockStart := IndexOf(text, "```");
      if codeBlockStart != -1 {
        body := FenceContent(text, codeBlockStart, 3);
      }
    }
    if body == "" {
      body := original;
    }
    var span := ExtractArray(body);
    r := TrimSpace(span);
  }

  /** The final trim of the categorizer's variant never changes a span: it starts with '[' and ends with ']'. */
  lemma CleanedTrimIsNoop(body: string)
    ensures TrimSpace(ArraySpan(body)) == ArraySpan(body)
  {
    ArraySpanShape(body);
    var a := ArraySpan(body);
    if a != "" {
      var n := |a|;
      assert a[..n] == a;
      assert a[..1][..0] == [];
      assert Balance(a[..1]) == 1;
      assert n > 1;
      assert Balance(a[..n - 1]) > 0;
      assert Delta(a[n - 1]) < 0;
      TrimSpaceNoop(a);
    }
  }

  /** Without any code fence both extractJSON variants return the same span. */
  lemma CleanedUnfenced(text: string)
    requires forall j :: 0 <= j <= |text| ==> !HasPrefix(text[j..], "```")
    ensures CleanedJson(text) == ArraySpan(text)
  {
    IndexOfAbsent(text, "```json");
    IndexOfAbsent(text, "```");
    CleanedTrimIsNoop(text);
  }

  /** In "```json" + inner + "```" + post, the fence contents start after the blanks that open `inner`. */
  lemma FenceOpening(inner: string, post: string) returns (skipped: nat)
    requires '`' !in inner
    ensures skipped <= |inner|
    ensures SkipBlanks("```json" + inner + "```" + post, 7) == 7 + skipped
    ensures forall k :: 0 <= k < skipped ==> Blank(inner[k])
  {
    var text := "```json" + inner + "```" + post;
    var cs := SkipBlanks(text, 7);
    skipped := cs - 7;
    assert text[7 + |inner|] == '`';
    forall k | 0 <= k < skipped ensures Blank(inner[k]) {
      assert Blank(text[7 + k]);
      assert text[7 + k] == inner[k];
    }
  }

  /** The closing fence is the first "```" after the opening one. */
  lemma FenceClosing(body: string, post: string)
    requires '`' !in body
    ensures IndexOf(body + "```" + post, "```") == |body|
  {
    var remaining := body + "```" + post;
    assert remaining[|body|..][..3] == "```";
    forall j | 0 <= j < |body| ensures !HasPrefix(remaining[j..], "```") {
      assert remaining[j] == body[j];
      assert remaining[j..][..3][0] == remaining[j];
    }
    IndexOfFirst(remaining, "```", |body|);
  }

  /**
   * A reply wrapped in a "```json" fence yields the array inside the fence,
   * however many blanks surround it.
   */
  lemma CleanedFenced(inner: string, post: string)
    requires '`' !in inner
    requires TrimSpace(inner) != ""
    ensures CleanedJson("```json" + inner + "```" + post) == ArraySpan(TrimSpace(inner))
  {
    var text := "```json" + inner + "```" + post;
    assert text[0..][..7] == "```json";
    IndexOfFirst(text, "```json", 0);
    UnfenceFenced(inner, post);
    CleanedTrimIsNoop(TrimSpace(inner));
  }

  /** The content of a "```json" fence at the start is the trimmed text up to the closing fence. */
  lemma UnfenceFenced(inner: string, post: string)
    requires '`' !in inner
    ensures 7 <= |"```json" + inner + "```" + post|
    ensures Unfence("```json" + inner + "```" + post, 0, 7) == TrimSpace(inner)
  {
    var text := "```json" + inner + "```" + post;
    var skipped := FenceOpening(inner, post);
    var body := inner[skipped..];
    assert text[7 + skipped..] == body + "```" + post;
    NoBacktickSuffix(inner, skipped);
    FenceClosing(body, post);
    assert (body + "```" + post)[..|body|] == body;
    BlankPrefixTrim(inner, skipped);
  }

  lemma NoBacktickSuffix(inner: string, skipped: nat)
    requires '`' !in inner && skipped <= |inner|
    ensures '`' !in inner[skipped..]
  {
    forall c | c in inner[skipped..] ensures c != '`' {
      var k :| 0 <= k < |inner| - skipped && inner[skipped..][k] == c;
      assert inner[skipped + k] == c;
    }
  }

  /** Blanks dropped before trimming do not change what trimming gives. */
  lemma BlankPrefixTrim(inner: string, skipped: nat)
    requires skipped <= |inner|
    requires forall k :: 0 <= k < skipped ==> Blank(inner[k])
    ensures TrimSpace(inner[skipped..]) == TrimSpace(inner)
  {
    assert inner == inner[..skipped] + inner[skipped..];
    TrimLeftSpacePadded(inner[..skipped], inner[skipped..]);
  }
}
