/**
 * The repair of `&` in feed bodies before XML parsing. A feed may write a
 * bare `&` in its text, which XML forbids; the collector rewrites the body so
 * that every `&` starts a character or entity reference.
 *
 * Go's `bytes.ReplaceAll` and `regexp.ReplaceAll` both scan the body from the
 * left and rewrite non-overlapping matches; every pattern used here starts
 * with `&`, so each pass is a scan that may rewrite at an `&` and copies every
 * other byte (`Apply`).
 */
module XmlEntities {
  import opened Common
  import opened GoStrings

  const Amp: byte := 38     // '&'
  const Semi: byte := 59    // ';'
  const Hash: byte := 35    // '#'
  const LowerX: byte := 120 // 'x'

  /** "&amp;" */
  const EscapedAmp: Bytes := [38, 97, 109, 112, 59]

  // ----------------------------------------------------------- references

  datatype Class = Digit | HexDigit | Letter | Alnum

  predicate InClass(b: byte, c: Class)
  {
    match c
    case Digit => 48 <= b <= 57
    case HexDigit => 48 <= b <= 57 || 65 <= b <= 70 || 97 <= b <= 102
    case Letter => 65 <= b <= 90 || 97 <= b <= 122
    case Alnum => 48 <= b <= 57 || 65 <= b <= 90 || 97 <= b <= 122
  }

  /** The number of leading bytes of `s` in the class. */
  function Run(s: Bytes, c: Class): (n: nat)
    ensures n <= |s|
    ensures forall k :: 0 <= k < n ==> InClass(s[k], c)
    ensures n < |s| ==> !InClass(s[n], c)
  {
    if s != [] && InClass(s[0], c) then 1 + Run(s[1..], c) else 0
  }

  /** The length of `[a-zA-Z][a-zA-Z0-9]*;` at the start of `s`, 0 when there is none. */
  function NamedLen(s: Bytes): (n: nat)
    ensures n <= |s|
  {
    if s != [] && InClass(s[0], Letter) then
      var k := 1 + Run(s[1..], Alnum);
      if k < |s| && s[k] == Semi then k + 1 else 0
    else 0
  }

  /** The length of `#\d+;` or, failing that, `#x[0-9a-fA-F]+;` at the start of `s`, 0 when there is none. */
  function NumericLen(s: Bytes): (n: nat)
    ensures n <= |s|
  {
    if s != [] && s[0] == Hash then
      var d := Run(s[1..], Digit);
      if d > 0 && 1 + d < |s| && s[1 + d] == Semi then d + 2
      else if 1 < |s| && s[1] == LowerX then
        var h := Run(s[2..], HexDigit);
        if h > 0 && 2 + h < |s| && s[2 + h] == Semi then h + 3 else 0
      else 0
    else 0
  }

  /** The length of a reference's name part (what follows its `&`) at the start of `s`. */
  function BodyLen(s: Bytes): (n: nat)
    ensures n <= |s|
  {
    if NumericLen(s) > 0 then NumericLen(s) else NamedLen(s)
  }

  /** The length of the reference `&name;`, `&#digits;` or `&#xhex;` that `s` starts with, 0 when it starts with none. */
  function RefLen(s: Bytes): (n: nat)
    ensures n <= |s|
    ensures n > 0 ==> n >= 3 && s[0] == Amp
  {
    if s != [] && s[0] == Amp && BodyLen(s[1..]) > 0 then 1 + BodyLen(s[1..]) else 0
  }

  /** Every `&` of `s` starts a reference. */
  predicate Refs(s: Bytes)
    decreases |s|
  {
    if s == [] then true
    else if s[0] != Amp then Refs(s[1..])
    else RefLen(s) > 0 && Refs(s[RefLen(s)..])
  }

  lemma {:induction false} RunPrefix(s: Bytes, c: Class, m: nat, y: Bytes)
    requires Run(s, c) < m <= |s|
    ensures Run(s[..m] + y, c) == Run(s, c)
  {
    if Run(s, c) > 0 {
      assert (s[..m] + y)[1..] == s[1..][..m - 1] + y;
      RunPrefix(s[1..], c, m - 1, y);
    }
  }

  /** Whether a reference is there, and how long it is, is decided by the reference's own bytes. */
  lemma BodyLenPrefix(s: Bytes, m: nat, y: Bytes)
    requires 0 < BodyLen(s) <= m <= |s|
    ensures BodyLen(s[..m] + y) == BodyLen(s)
  {
    if NumericLen(s) > 0 {
      NumericLenPrefix(s, m, y);
    } else {
      NamedLenPrefix(s, m, y);
      assert (s[..m] + y)[0] == s[0];
    }
  }

  lemma NumericLenPrefix(s: Bytes, m: nat, y: Bytes)
    requires 0 < NumericLen(s) <= m <= |s|
    ensures NumericLen(s[..m] + y) == NumericLen(s)
  {
    var t := s[..m] + y;
    assert t[0] == s[0];
    assert t[1..] == s[1..][..m - 1] + y;
    var d := Run(s[1..], Digit);
    if d > 0 && s[1 + d] == Semi {
      RunPrefix(s[1..], Digit, m - 1, y);
    } else {
      assert t[2..] == s[2..][..m - 2] + y;
      RunPrefix(s[2..], HexDigit, m - 2, y);
      assert Run(t[1..], Digit) == 0;
    }
  }

  lemma NamedLenPrefix(s: Bytes, m: nat, y: Bytes)
    requires 0 < NamedLen(s) <= m <= |s|
    ensures NamedLen(s[..m] + y) == NamedLen(s)
  {
    var t := s[..m] + y;
    assert t[0] == s[0];
    assert t[1..] == s[1..][..m - 1] + y;
    RunPrefix(s[1..], Alnum, m - 1, y);
  }

  lemma RefLenPrefix(s: Bytes, m: nat, y: Bytes)
    requires 0 < RefLen(s) <= m <= |s|
    ensures RefLen(s[..m] + y) == RefLen(s)
  {
    assert (s[..m] + y)[1..] == s[1..][..m - 1] + y;
    BodyLenPrefix(s[1..], m - 1, y);
  }

  /** A reference has one `&`, its first byte. */
  lemma RefNoAmp(s: Bytes)
    requires RefLen(s) > 0
    ensures forall k :: 0 < k < RefLen(s) ==> s[k] != Amp
  {
    var b := s[1..];
    assert forall k :: 0 < k < RefLen(s) ==> s[k] == b[k - 1];
    if NumericLen(b) == 0 {
      assert forall k :: 0 <= k < Run(b[1..], Alnum) ==> b[1 + k] == b[1..][k];
    } else if Run(b[1..], Digit) > 0 && b[1 + Run(b[1..], Digit)] == Semi {
      assert forall k :: 0 <= k < Run(b[1..], Digit) ==> b[1 + k] == b[1..][k];
    } else {
      assert forall k :: 0 <= k < Run(b[2..], HexDigit) ==> b[2 + k] == b[2..][k];
    }
  }

  lemma {:induction false} RefsNoAmpPrefix(x: Bytes, y: Bytes)
    requires Amp !in x && Refs(y)
    ensures Refs(x + y)
  {
    if x != [] {
      var s := x + y;
      assert x[0] in x;
      assert s[0] == x[0] && s[0] != Amp;
      assert s[1..] == x[1..] + y;
      RefsNoAmpPrefix(x[1..], y);
    } else {
      assert x + y == y;
    }
  }

  /** Cutting bytes off the front keeps every remaining `&` a reference. */
  lemma {:induction false} RefsSuffix(s: Bytes, n: nat)
    requires Refs(s) && n <= |s|
    ensures Refs(s[n..])
    decreases |s|
  {
    if n > 0 {
      if s[0] != Amp {
        assert s[1..][n - 1..] == s[n..];
        RefsSuffix(s[1..], n - 1);
      } else if n >= RefLen(s) {
        assert s[RefLen(s)..][n - RefLen(s)..] == s[n..];
        RefsSuffix(s[RefLen(s)..], n - RefLen(s));
      } else {
        RefNoAmp(s);
        assert s[n..] == s[n..RefLen(s)] + s[RefLen(s)..];
        RefsNoAmpPrefix(s[n..RefLen(s)], s[RefLen(s)..]);
      }
    }
  }

  /** `Refs` is the property as stated position by position, both ways. */
  lemma {:induction false} RefsMeans(s: Bytes)
    ensures Refs(s) <==> forall i :: 0 <= i < |s| && s[i] == Amp ==> RefLen(s[i..]) > 0
    decreases |s|
  {
    if s != [] {
      if Refs(s) {
        forall i | 0 <= i < |s| && s[i] == Amp ensures RefLen(s[i..]) > 0 {
          RefsSuffix(s, i);
        }
      }
      if forall i :: 0 <= i < |s| && s[i] == Amp ==> RefLen(s[i..]) > 0 {
        var n := if s[0] == Amp then RefLen(s) else 1;
        assert s[0..] == s;
        assert n > 0;
        forall i | 0 <= i < |s[n..]| && s[n..][i] == Amp ensures RefLen(s[n..][i..]) > 0 {
          assert s[n..][i..] == s[n + i..];
        }
        RefsMeans(s[n..]);
      }
    }
  }

  // --------------------------------------------------------------- passes

  /**
   * One rewrite over the whole body: `bytes.ReplaceAll` of a pattern, or one
   * of the two `regexp.ReplaceAll` calls that turn `&amp;` back into `&` in
   * front of a numeric or a named reference, or the escaping of bare `&`
   * only.
   */
  datatype Pass = Replace(pattern: Bytes, replacement: Bytes) | RestoreNumeric | RestoreNamed | EscapeBare

  /** What the pass rewrites where `s` begins: how many bytes it takes and what it puts in their place. */
  function Match(p: Pass, s: Bytes): (r: Option<(nat, Bytes)>)
    ensures r.Some? ==> 0 < r.value.0 <= |s|
  {
    match p
    case Replace(pattern, replacement) =>
      if |pattern| > 0 && HasPrefix(s, pattern) then Some((|pattern|, replacement)) else None
    case RestoreNumeric =>
      if HasPrefix(s, EscapedAmp) && NumericLen(s[5..]) > 0
      then Some((5 + NumericLen(s[5..]), [Amp] + s[5..5 + NumericLen(s[5..])])) else None
    case RestoreNamed =>
      if HasPrefix(s, EscapedAmp) && NamedLen(s[5..]) > 0
      then Some((5 + NamedLen(s[5..]), [Amp] + s[5..5 + NamedLen(s[5..])])) else None
    case EscapeBare =>
      if s != [] && s[0] == Amp && RefLen(s) == 0 then Some((1, EscapedAmp)) else None
  }

  /** A rewrite rule: what it does where the body `s` begins, if anything. */
  type Rewrite = Bytes -> Option<(nat, Bytes)>

  function RuleOf(p: Pass): Rewrite
  {
    s => Match(p, s)
  }

  /**
   * A rule scanned over the whole body, left to right, on non-overlapping
   * matches. A rule never takes nothing or more than there is; the guard only
   * makes that explicit.
   */
  function Scan(rule: Rewrite, s: Bytes): (r: Bytes)
    decreases |s|
  {
    if s == [] then []
    else match rule(s)
      case Some((n, out)) => if 0 < n <= |s| then out + Scan(rule, s[n..]) else [s[0]] + Scan(rule, s[1..])
      case None => [s[0]] + Scan(rule, s[1..])
  }

  /** The pass over the whole body. */
  function Apply(p: Pass, s: Bytes): (r: Bytes)
  {
    Scan(RuleOf(p), s)
  }

  /** A rule takes one `&` at the front and nothing else with an `&`, and puts one reference in its place. */
  predicate Rewrites(s: Bytes, n: nat, out: Bytes)
  {
    0 < n <= |s| && s[0] == Amp && Amp !in s[1..n] && IsRef(out)
  }

  /** The rule rewrites only where an `&` is, and never takes more than there is. */
  ghost predicate AtAmp(rule: Rewrite)
  {
    forall s :: rule(s).Some? ==> 0 < rule(s).value.0 <= |s| && s[0] == Amp
  }

  /** The rule takes no `&` beyond the one it starts at. */
  ghost predicate OneForOne(rule: Rewrite)
  {
    forall s :: rule(s).Some? ==> 0 < rule(s).value.0 <= |s| && Amp !in s[1..rule(s).value.0]
  }

  /** What the rule puts in is one reference. */
  ghost predicate GivesRef(rule: Rewrite)
  {
    forall s :: rule(s).Some? ==> IsRef(rule(s).value.1)
  }

  predicate IsRef(out: Bytes)
  {
    out != [] && RefLen(out) == |out|
  }

  ghost predicate Sound(rule: Rewrite)
  {
    AtAmp(rule) && OneForOne(rule) && GivesRef(rule)
  }

  /** Where the rule leaves an `&` alone, a reference starts. */
  ghost predicate Repairing(rule: Rewrite)
  {
    forall s :: s != [] && s[0] == Amp && rule(s).None? ==> RefLen(s) > 0
  }

  /** No rewrite starts away from an `&`, so bytes before the next `&` are copied. */
  lemma {:induction false} ScanCopies(rule: Rewrite, u: Bytes, k: nat)
    requires AtAmp(rule) && k <= |u|
    requires forall i :: 0 <= i < k ==> u[i] != Amp
    ensures Scan(rule, u) == u[..k] + Scan(rule, u[k..])
  {
    if k == 0 {
      assert u[k..] == u;
      assert u[..k] + Scan(rule, u) == Scan(rule, u);
    } else {
      assert rule(u).None?;
      assert Scan(rule, u) == [u[0]] + Scan(rule, u[1..]);
      assert u[1..][k - 1..] == u[k..];
      ScanCopies(rule, u[1..], k - 1);
      Regroup(u, k, Scan(rule, u[k..]));
    }
  }

  /** A rewrite followed by a body whose every `&` is a reference gives such a body. */
  lemma RefsAfterRewrite(out: Bytes, rest: Bytes)
    requires IsRef(out) && Refs(rest)
    ensures Refs(out + rest)
  {
    RefLenPrefix(out, |out|, rest);
    assert out[..|out|] == out;
    assert (out + rest)[0] == out[0];
    assert (out + rest)[|out|..] == rest;
  }

  /**
   * A rule that puts in references keeps every `&` a reference; a repairing
   * one makes it so from any input.
   */
  lemma {:induction false} ScanRefs(rule: Rewrite, s: Bytes)
    requires AtAmp(rule) && GivesRef(rule) && (Repairing(rule) || Refs(s))
    ensures Refs(Scan(rule, s))
    decreases |s|, 1
  {
    if s != [] {
      if rule(s).Some? {
        ScanRefsRewrite(rule, s);
      } else if s[0] != Amp {
        assert Scan(rule, s) == [s[0]] + Scan(rule, s[1..]);
        if Refs(s) {
          RefsSuffix(s, 1);
        }
        ScanRefs(rule, s[1..]);
        assert ([s[0]] + Scan(rule, s[1..]))[1..] == Scan(rule, s[1..]);
      } else {
        ScanRefsKeep(rule, s);
      }
    }
  }

  lemma {:induction false} ScanRefsRewrite(rule: Rewrite, s: Bytes)
    requires AtAmp(rule) && GivesRef(rule) && (Repairing(rule) || Refs(s))
    requires s != [] && rule(s).Some?
    ensures Refs(Scan(rule, s))
    decreases |s|, 0
  {
    var (n, out) := rule(s).value;
    assert IsRef(out) && 0 < n <= |s|;
    assert Scan(rule, s) == out + Scan(rule, s[n..]);
    if Refs(s) {
      RefsSuffix(s, n);
    }
    ScanRefs(rule, s[n..]);
    RefsAfterRewrite(out, Scan(rule, s[n..]));
  }

  lemma {:induction false} ScanRefsKeep(rule: Rewrite, s: Bytes)
    requires AtAmp(rule) && GivesRef(rule) && (Repairing(rule) || Refs(s))
    requires s != [] && s[0] == Amp && rule(s).None?
    ensures Refs(Scan(rule, s))
    decreases |s|, 0
  {
    var n := RefLen(s);
    RefNoAmp(s);
    ScanKeepsRef(rule, s, n);
    if Refs(s) {
      RefsSuffix(s, n);
    }
    ScanRefs(rule, s[n..]);
    RefLenPrefix(s, n, []);
    assert s[..n] + [] == s[..n];
    RefsAfterRewrite(s[..n], Scan(rule, s[n..]));
  }

  /** Where the rule leaves an `&` alone, it copies the whole reference that starts there. */
  lemma ScanKeepsRef(rule: Rewrite, s: Bytes, n: nat)
    requires AtAmp(rule) && 0 < n <= |s| && rule(s).None?
    requires forall k :: 0 < k < n ==> s[k] != Amp
    ensures Scan(rule, s) == s[..n] + Scan(rule, s[n..])
  {
    assert Scan(rule, s) == [s[0]] + Scan(rule, s[1..]);
    ScanCopies(rule, s[1..], n - 1);
    assert s[1..][n - 1..] == s[n..];
    Regroup(s, n, Scan(rule, s[n..]));
  }

  lemma Regroup<T>(s: seq<T>, n: nat, rest: seq<T>)
    requires 0 < n <= |s|
    ensures [s[0]] + (s[1..][..n - 1] + rest) == s[..n] + rest
  {
    assert s[..n] == [s[0]] + s[1..][..n - 1];
  }

  /** A sound rule neither adds nor removes an `&`. */
  lemma {:induction false} ScanKeepsAmps(rule: Rewrite, s: Bytes)
    requires Sound(rule)
    ensures multiset(Scan(rule, s))[Amp] == multiset(s)[Amp]
    decreases |s|
  {
    if s != [] {
      var (n, out) := Step(rule, s);
      ScanStep(rule, s);
      StepKeepsAmps(rule, s);
      ScanKeepsAmps(rule, s[n..]);
      assert s == s[..n] + s[n..];
    }
  }

  /** What the scan does at the head of s: the bytes it consumes and what it writes for them. */
  function Step(rule: Rewrite, s: Bytes): (nat, Bytes)
    requires s != []
  {
    match rule(s)
    case Some((n, out)) => if 0 < n <= |s| then (n, out) else (1, [s[0]])
    case None => (1, [s[0]])
  }

  lemma ScanStep(rule: Rewrite, s: Bytes)
    requires s != []
    ensures 0 < Step(rule, s).0 <= |s|
    ensures Scan(rule, s) == Step(rule, s).1 + Scan(rule, s[Step(rule, s).0..])
  {
  }

  /** A sound rule's step keeps the number of `&`. */
  lemma StepKeepsAmps(rule: Rewrite, s: Bytes)
    requires Sound(rule) && s != []
    ensures 0 < Step(rule, s).0 <= |s|
    ensures multiset(s[..Step(rule, s).0])[Amp] == multiset(Step(rule, s).1)[Amp]
  {
    if rule(s).Some? {
      var (n, out) := rule(s).value;
      assert Rewrites(s, n, out);
      RewriteOneAmp(s, n, out);
    } else {
      assert s[..1] == [s[0]];
    }
  }

  /** A rewrite takes one `&` and puts one back. */
  lemma RewriteOneAmp(s: Bytes, n: nat, out: Bytes)
    requires Rewrites(s, n, out)
    ensures multiset(s[..n])[Amp] == 1 && multiset(out)[Amp] == 1
  {
    assert s[..n][1..] == s[1..n];
    OneAmp(s[..n]);
    RefNoAmp(out);
    assert Amp !in out[1..] by {
      assert forall k :: 0 <= k < |out[1..]| ==> out[1..][k] == out[k + 1];
    }
    OneAmp(out);
  }

  /** A piece that starts with its only `&` holds one. */
  lemma OneAmp(x: Bytes)
    requires x != [] && x[0] == Amp && Amp !in x[1..]
    ensures multiset(x)[Amp] == 1
  {
    assert x == [x[0]] + x[1..];
  }

  /** A body without `&` goes through a sound rule unchanged. */
  lemma ScanNoAmp(rule: Rewrite, s: Bytes)
    requires AtAmp(rule) && Amp !in s
    ensures Scan(rule, s) == s
  {
    ScanCopies(rule, s, |s|);
    assert s[|s|..] == [];
  }

  /** A `Replace` that rewrites one reference-led pattern into one reference. */
  predicate WellFormed(p: Pass)
  {
    p.Replace? ==>
      |p.pattern| > 0 && p.pattern[0] == Amp && Amp !in p.pattern[1..] && IsRef(p.replacement)
  }

  /** The escaping pass: every `&` becomes `&amp;`. */
  const EscapeAll: Pass := Replace([38], EscapedAmp)

  lemma EscapedAmpIsRef()
    ensures RefLen(EscapedAmp) == 5
  {
    assert EscapedAmp[1..][1..] == [109, 112, 59];
    assert Run([112, 59], Alnum) == 1;
  }

  /** A rewrite of a well-formed pass takes one `&` at the front and puts one reference in its place. */
  lemma MatchShape(p: Pass, s: Bytes)
    requires WellFormed(p) && Match(p, s).Some?
    ensures Rewrites(s, Match(p, s).value.0, Match(p, s).value.1)
  {
    var (n, out) := Match(p, s).value;
    match p
    case Replace(pattern, _) =>
      assert s[..n] == pattern;
      assert s[1..n] == pattern[1..];
    case EscapeBare =>
      EscapedAmpIsRef();
      assert s[..n] == [Amp];
    case RestoreNumeric =>
      RestoreShape(s, n - 5);
    case RestoreNamed =>
      NamedIsBody(s[5..]);
      RestoreShape(s, n - 5);
  }

  /** A named reference starts with a letter, so it is never read as a numeric one. */
  lemma NamedIsBody(b: Bytes)
    requires NamedLen(b) > 0
    ensures BodyLen(b) == NamedLen(b)
  {
  }

  lemma RefNoAmpBody(b: Bytes)
    requires BodyLen(b) > 0
    ensures forall k :: 0 <= k < BodyLen(b) ==> b[k] != Amp
  {
    var s := [Amp] + b;
    assert s[1..] == b;
    RefNoAmp(s);
    assert forall k :: 0 <= k < BodyLen(b) ==> b[k] == s[k + 1];
  }

  /** `&amp;` followed by a reference's name part: one `&` in, one reference out. */
  lemma RestoreShape(s: Bytes, k: nat)
    requires HasPrefix(s, EscapedAmp) && 0 < k == BodyLen(s[5..])
    ensures Rewrites(s, 5 + k, [Amp] + s[5..5 + k])
  {
    var rest := s[5..];
    var body := s[5..5 + k];
    assert body == rest[..k];
    RefNoAmpBody(rest);
    assert forall i :: 0 <= i < k ==> body[i] == rest[i];
    assert Amp !in body;
    assert s[1..5 + k] == [97, 109, 112, 59] + body;
    RefOfBody(rest, k);
  }

  /** `&` and the name part a body starts with make a whole reference. */
  lemma RefOfBody(b: Bytes, k: nat)
    requires 0 < k == BodyLen(b)
    ensures IsRef([Amp] + b[..k])
  {
    var out := [Amp] + b[..k];
    assert out[1..] == b[..k] + [];
    BodyLenPrefix(b, k, []);
  }

  /** Every well-formed pass is a sound rule. */
  lemma PassSound(p: Pass)
    requires WellFormed(p)
    ensures Sound(RuleOf(p))
  {
    forall s | RuleOf(p)(s).Some? ensures Rewrites(s, RuleOf(p)(s).value.0, RuleOf(p)(s).value.1) {
      assert RuleOf(p)(s) == Match(p, s);
      MatchShape(p, s);
    }
  }

  /** The two escaping passes leave no bare `&`. */
  lemma EscapesRepair()
    ensures Repairing(RuleOf(EscapeAll)) && Repairing(RuleOf(EscapeBare))
  {
    forall s | s != [] && s[0] == Amp ensures RuleOf(EscapeAll)(s).Some? {
      assert HasPrefix(s, EscapeAll.pattern);
    }
  }

  /** The escaping of bare `&` leaves a body whose every `&` is a reference as it is, byte for byte. */
  lemma {:induction false} EscapeBareKeepsRefs(s: Bytes)
    requires Refs(s)
    ensures Apply(EscapeBare, s) == s
    decreases |s|
  {
    if s != [] {
      assert RuleOf(EscapeBare)(s).None?;
      RefsSuffix(s, 1);
      EscapeBareKeepsRefs(s[1..]);
      assert s == [s[0]] + s[1..];
    }
  }

  // ------------------------------------------------------ the whole repair

  /** "&amp;amp;" -> "&amp;" */
  const RestoreAmp: Pass := Replace([38, 97, 109, 112, 59, 97, 109, 112, 59], EscapedAmp)
  /** "&amp;lt;" -> "&lt;" */
  const RestoreLt: Pass := Replace([38, 97, 109, 112, 59, 108, 116, 59], [38, 108, 116, 59])
  /** "&amp;gt;" -> "&gt;" */
  const RestoreGt: Pass := Replace([38, 97, 109, 112, 59, 103, 116, 59], [38, 103, 116, 59])
  /** "&amp;quot;" -> "&quot;" */
  const RestoreQuot: Pass := Replace([38, 97, 109, 112, 59, 113, 117, 111, 116, 59], [38, 113, 117, 111, 116, 59])
  /** "&amp;apos;" -> "&apos;" */
  const RestoreApos: Pass := Replace([38, 97, 109, 112, 59, 97, 112, 111, 115, 59], [38, 97, 112, 111, 115, 59])

  /** The passes of the repair, in the order they run. */
  const Passes: seq<Pass> :=
    [EscapeAll, RestoreAmp, RestoreLt, RestoreGt, RestoreQuot, RestoreApos, RestoreNumeric, RestoreNamed]

  function ApplyAll(passes: seq<Pass>, s: Bytes): Bytes
  {
    if passes == [] then s else ApplyAll(passes[1..], Apply(passes[0], s))
  }

  /** fixXMLEntities as written: escape every `&`, then turn `&amp;` back into `&` in front of what looks like a reference. */
  function FixXmlEntities(data: Bytes): (r: Bytes)
  {
    ApplyAll(Passes, data)
  }

  /** The repair fixXMLEntities was meant to make: escape only the `&` that starts no reference. */
  function EscapeBareAmpersands(data: Bytes): (r: Bytes)
  {
    Apply(EscapeBare, data)
  }

  lemma {:induction false} RunThrough(x: Bytes, y: Bytes, c: Class)
    requires forall k :: 0 <= k < |x| ==> InClass(x[k], c)
    requires y != [] && !InClass(y[0], c)
    ensures Run(x + y, c) == |x|
  {
    if x != [] {
      assert (x + y)[1..] == x[1..] + y;
      RunThrough(x[1..], y, c);
    } else {
      assert x + y == y;
    }
  }

  /** `&name;` with an alphabetic name is one whole reference. */
  lemma NamedRefIsRef(name: Bytes)
    requires name != [] && forall k :: 0 <= k < |name| ==> InClass(name[k], Letter)
    ensures IsRef([Amp] + name + [Semi])
  {
    var r := [Amp] + name + [Semi];
    assert r[1..] == name + [Semi];
    assert r[1..][1..] == name[1..] + [Semi];
    RunThrough(name[1..], [Semi], Alnum);
  }

  lemma RestoreAmpWellFormed()
    ensures WellFormed(RestoreAmp)
  {
    EscapedAmpIsRef();
  }

  lemma RestoreLtWellFormed()
    ensures WellFormed(RestoreLt)
  {
    NamedRefIsRef([108, 116]);
    assert RestoreLt.replacement == [Amp] + [108, 116] + [Semi];
  }

  lemma RestoreGtWellFormed()
    ensures WellFormed(RestoreGt)
  {
    NamedRefIsRef([103, 116]);
    assert RestoreGt.replacement == [Amp] + [103, 116] + [Semi];
  }

  lemma RestoreQuotWellFormed()
    ensures WellFormed(RestoreQuot)
  {
    NamedRefIsRef([113, 117, 111, 116]);
    assert RestoreQuot.replacement == [Amp] + [113, 117, 111, 116] + [Semi];
  }

  lemma RestoreAposWellFormed()
    ensures WellFormed(RestoreApos)
  {
    NamedRefIsRef([97, 112, 111, 115]);
    assert RestoreApos.replacement == [Amp] + [97, 112, 111, 115] + [Semi];
  }

  /** Every pass of the repair as written is well formed. */
  lemma PassesWellFormed()
    ensures forall p :: p in Passes ==> WellFormed(p)
  {
    EscapedAmpIsRef();
    assert WellFormed(EscapeAll);
    RestoreAmpWellFormed();
    RestoreLtWellFormed();
    RestoreGtWellFormed();
    RestoreQuotWellFormed();
    RestoreAposWellFormed();
  }

  lemma {:induction false} ApplyAllRefs(passes: seq<Pass>, s: Bytes)
    requires forall p :: p in passes ==> WellFormed(p)
    requires Refs(s)
    ensures Refs(ApplyAll(passes, s))
  {
    if passes != [] {
      assert passes[0] in passes;
      PassSound(passes[0]);
      ScanRefs(RuleOf(passes[0]), s);
      ApplyAllRefs(passes[1..], Apply(passes[0], s));
    }
  }

  lemma {:induction false} ApplyAllKeepsAmps(passes: seq<Pass>, s: Bytes)
    requires forall p :: p in passes ==> WellFormed(p)
    ensures multiset(ApplyAll(passes, s))[Amp] == multiset(s)[Amp]
    ensures Amp !in s ==> ApplyAll(passes, s) == s
  {
    if passes != [] {
      assert passes[0] in passes;
      PassSound(passes[0]);
      ScanKeepsAmps(RuleOf(passes[0]), s);
      if Amp !in s {
        ScanNoAmp(RuleOf(passes[0]), s);
      }
      ApplyAllKeepsAmps(passes[1..], Apply(passes[0], s));
    }
  }

  lemma {:induction false} ApplyAllFixed(passes: seq<Pass>, s: Bytes)
    requires forall p :: p in passes ==> Apply(p, s) == s
    ensures ApplyAll(passes, s) == s
  {
    if passes != [] {
      assert passes[0] in passes;
      ApplyAllFixed(passes[1..], s);
    }
  }

  /**
   * What the repair as written does guarantee: every `&` of the result starts
   * a reference, there are as many `&` as before, and a body without `&` is
   * left as it is.
   */
  lemma FixXmlEntitiesRefs(data: Bytes)
    ensures Refs(FixXmlEntities(data))
    ensures multiset(FixXmlEntities(data))[Amp] == multiset(data)[Amp]
    ensures Amp !in data ==> FixXmlEntities(data) == data
  {
    PassesWellFormed();
    PassSound(EscapeAll);
    EscapesRepair();
    ScanRefs(RuleOf(EscapeAll), data);
    ApplyAllRefs(Passes[1..], Apply(EscapeAll, data));
    ApplyAllKeepsAmps(Passes, data);
  }

  /** The text "&amp;lt;", correctly escaped, meaning the four characters "&lt;". */
  const EscapedLt: Bytes := [38, 97, 109, 112, 59, 108, 116, 59]

  /** "&lt;" */
  const LtRef: Bytes := [38, 108, 116, 59]

  lemma EscapedLtRefs()
    ensures Refs(EscapedLt)
  {
    EscapedAmpIsRef();
    assert EscapedLt[5..] == [108, 116, 59];
    RefLenPrefix(EscapedAmp, 5, EscapedLt[5..]);
    assert EscapedAmp[..5] + EscapedLt[5..] == EscapedLt;
    RefsNoAmpPrefix(EscapedLt[5..], []);
    assert EscapedLt[5..] + [] == EscapedLt[5..];
  }

  /** A rewrite at the front followed by no `&`: the rest is copied. */
  lemma ScanOnce(rule: Rewrite, s: Bytes)
    requires AtAmp(rule) && s != [] && rule(s).Some? && Amp !in s[rule(s).value.0..]
    ensures Scan(rule, s) == rule(s).value.1 + s[rule(s).value.0..]
  {
    ScanNoAmp(rule, s[rule(s).value.0..]);
  }

  /** No rewrite at the front and no `&` after it: nothing changes. */
  lemma ScanNone(rule: Rewrite, s: Bytes)
    requires AtAmp(rule) && s != [] && rule(s).None? && Amp !in s[1..]
    ensures Scan(rule, s) == s
  {
    ScanNoAmp(rule, s[1..]);
    assert s == [s[0]] + s[1..];
  }

  /** A pass rewrites only at an `&` when each of its patterns starts with one. */
  lemma PassAtAmp(p: Pass)
    requires p.Replace? ==> |p.pattern| > 0 && p.pattern[0] == Amp
    ensures AtAmp(RuleOf(p))
  {
    forall s | RuleOf(p)(s).Some? ensures 0 < RuleOf(p)(s).value.0 <= |s| && s[0] == Amp {
      assert RuleOf(p)(s) == Match(p, s);
      if p.Replace? {
        assert s[0] == s[..|p.pattern|][0];
      } else if !p.EscapeBare? {
        assert s[0] == s[..5][0];
      }
    }
  }

  /** The first pass turns "&amp;lt;" into "&amp;amp;lt;". */
  lemma EscapeAllOnEscapedLt()
    ensures Apply(EscapeAll, EscapedLt) == EscapedAmp + EscapedLt[1..]
  {
    PassAtAmp(EscapeAll);
    assert HasPrefix(EscapedLt, EscapeAll.pattern);
    assert Amp !in EscapedLt[1..];
    ScanOnce(RuleOf(EscapeAll), EscapedLt);
  }

  /** The second pass turns "&amp;amp;lt;" back into "&amp;lt;". */
  lemma RestoreAmpOnEscapedLt()
    ensures Apply(RestoreAmp, EscapedAmp + EscapedLt[1..]) == EscapedLt
  {
    PassAtAmp(RestoreAmp);
    var s := EscapedAmp + EscapedLt[1..];
    assert s == RestoreAmp.pattern + [108, 116, 59];
    assert HasPrefix(s, RestoreAmp.pattern);
    assert s[9..] == [108, 116, 59];
    ScanOnce(RuleOf(RestoreAmp), s);
  }

  /** The third pass turns "&amp;lt;" into "&lt;". */
  lemma RestoreLtOnEscapedLt()
    ensures Apply(RestoreLt, EscapedLt) == LtRef
  {
    PassAtAmp(RestoreLt);
    assert HasPrefix(EscapedLt, RestoreLt.pattern);
    assert EscapedLt[8..] == [];
    ScanOnce(RuleOf(RestoreLt), EscapedLt);
  }

  /** A pass that does not rewrite "&lt;" at its front leaves it alone. */
  lemma KeepsLtRef(p: Pass)
    requires p.Replace? ==> |p.pattern| > 0 && p.pattern[0] == Amp
    requires Match(p, LtRef).None?
    ensures Apply(p, LtRef) == LtRef
  {
    PassAtAmp(p);
    assert LtRef[1..] == [108, 116, 59];
    ScanNone(RuleOf(p), LtRef);
  }

  /** The passes after the third leave "&lt;" alone. */
  lemma LaterPassesKeepLtRef()
    ensures ApplyAll(Passes[3..], LtRef) == LtRef
  {
    var rest := Passes[3..];
    assert rest == [RestoreGt, RestoreQuot, RestoreApos, RestoreNumeric, RestoreNamed];
    forall p | p in rest
      ensures Apply(p, LtRef) == LtRef
    {
      assert p.Replace? ==> |p.pattern| >= |EscapedAmp| && p.pattern[0] == Amp;
      MissesShort(p, LtRef);
      KeepsLtRef(p);
    }
    ApplyAllFixed(rest, LtRef);
  }

  /** A restoring pass matches nothing shorter than `&amp;`. */
  lemma MissesShort(p: Pass, s: Bytes)
    requires p.Replace? ==> |p.pattern| >= |EscapedAmp|
    requires !p.EscapeBare? && |s| < |EscapedAmp|
    ensures Match(p, s).None?
  {
  }

  /**
   * The repair as written changes a body that was already well formed: the
   * escaped text `&amp;lt;` comes out as the reference `&lt;`, so the parser
   * reads `<` where the feed wrote `&lt;`.
   */
  lemma FixXmlEntitiesRewritesEscapedText()
    ensures Refs(EscapedLt)
    ensures FixXmlEntities(EscapedLt) == LtRef
  {
    EscapedLtRefs();
    EscapeAllOnEscapedLt();
    RestoreAmpOnEscapedLt();
    RestoreLtOnEscapedLt();
    LaterPassesKeepLtRef();
    var s1 := Apply(EscapeAll, EscapedLt);
    ApplyAllStep(Passes, EscapedLt);
    ApplyAllStep(Passes[1..], s1);
    ApplyAllStep(Passes[2..], EscapedLt);
    assert Passes[1..][1..] == Passes[2..];
    assert Passes[2..][1..] == Passes[3..];
  }

  /** The first pass turns "&lt;" into "&amp;lt;". */
  lemma EscapeAllOnLtRef()
    ensures Apply(EscapeAll, LtRef) == EscapedLt
  {
    PassAtAmp(EscapeAll);
    assert HasPrefix(LtRef, EscapeAll.pattern);
    assert Amp !in LtRef[1..];
    ScanOnce(RuleOf(EscapeAll), LtRef);
    assert EscapedAmp + LtRef[1..] == EscapedLt;
  }

  /** The second pass finds no "&amp;amp;" in "&amp;lt;". */
  lemma RestoreAmpKeepsEscapedLt()
    ensures Apply(RestoreAmp, EscapedLt) == EscapedLt
  {
    PassAtAmp(RestoreAmp);
    assert Match(RestoreAmp, EscapedLt).None?;
    assert Amp !in EscapedLt[1..];
    ScanNone(RuleOf(RestoreAmp), EscapedLt);
  }

  /**
   * The repair as written leaves "&lt;" as it is, so a body that writes the
   * escaped text "&amp;lt;" and one that writes "&lt;" reach the parser as the
   * same bytes.
   */
  lemma FixXmlEntitiesConflatesEscapedText()
    ensures FixXmlEntities(LtRef) == LtRef
    ensures FixXmlEntities(EscapedLt) == FixXmlEntities(LtRef)
  {
    FixXmlEntitiesRewritesEscapedText();
    EscapeAllOnLtRef();
    RestoreAmpKeepsEscapedLt();
    RestoreLtOnEscapedLt();
    LaterPassesKeepLtRef();
    ApplyAllStep(Passes, LtRef);
    ApplyAllStep(Passes[1..], EscapedLt);
    ApplyAllStep(Passes[2..], EscapedLt);
    assert Passes[1..][1..] == Passes[2..];
    assert Passes[2..][1..] == Passes[3..];
  }

  lemma ApplyAllStep(passes: seq<Pass>, s: Bytes)
    requires passes != []
    ensures ApplyAll(passes, s) == ApplyAll(passes[1..], Apply(passes[0], s))
  {
  }

  /** The corrected repair leaves the same escaped text alone. */
  lemma EscapeBareKeepsEscapedText()
    ensures EscapeBareAmpersands(EscapedLt) == EscapedLt
  {
    EscapedLtRefs();
    EscapeBareKeepsRefs(EscapedLt);
  }

  /**
   * The corrected repair: every `&` of the result starts a reference, no `&`
   * is added or lost, and a body is left unchanged exactly when it needed no
   * repair.
   */
  lemma EscapeBareAmpersandsRepairs(data: Bytes)
    ensures Refs(EscapeBareAmpersands(data))
    ensures multiset(EscapeBareAmpersands(data))[Amp] == multiset(data)[Amp]
    ensures EscapeBareAmpersands(data) == data <==> Refs(data)
  {
    PassSound(EscapeBare);
    EscapesRepair();
    ScanRefs(RuleOf(EscapeBare), data);
    ScanKeepsAmps(RuleOf(EscapeBare), data);
    if Refs(data) {
      EscapeBareKeepsRefs(data);
    }
  }

  /** Repairing twice is repairing once. */
  lemma EscapeBareAmpersandsIdempotent(data: Bytes)
    ensures EscapeBareAmpersands(EscapeBareAmpersands(data)) == EscapeBareAmpersands(data)
  {
    EscapeBareAmpersandsRepairs(data);
    EscapeBareKeepsRefs(EscapeBareAmpersands(data));
  }
}
