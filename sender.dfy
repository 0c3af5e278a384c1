/**
 * The Telegram sender: every digest message goes to every recipient, one
 * pair at a time, recipient by recipient; each pair is tried up to three
 * times, with a growing pause between tries, unless the error says a retry
 * cannot help. A failed pair is logged and skipped; only the context
 * interrupting the rate-limit pause before a pair stops the whole send.
 *
 * The Telegram client is an oracle `client`: `client(k)` is what the k-th
 * SendMessage call of the send returns (`None` for success, `Some(e)` for an
 * error with text e). The clock is an oracle `elapsed`: `elapsed(p)` is the
 * time since the last successful send as seen before pair p.
 */
module Sender {
  import opened Common
  import opened GoStrings
  import opened News

  const RetryAttempts: nat := 3
  /** The pause before retry k is k times this, */
  const RetryDelayUnit: Time := 2 * Second
  /** but never more than this. */
  const MaxRetryDelay: Time := 10 * Second
  const RateLimitPerSecond: nat := 30
  /** The least time between two sends: Telegram allows 30 messages a second. */
  const RateLimitDelay: Time := Second / RateLimitPerSecond

  const NoRecipients: string := "no recipients provided"
  const NoMessages: string := "no messages to send"

  // ------------------------------------------------------------ errors

  /** containsIgnoreCase: `substr` occurs in `s` once both are lower-cased. */
  predicate ContainsIgnoreCase(s: string, substr: string)
  {
    Contains(Lower(s), Lower(substr))
  }

  /** The error texts after which a retry cannot help. */
  const NonRetryableErrors: seq<string> :=
    ["chat not found", "bot was blocked", "user is deactivated", "chat_id is empty", "message is too long", "bad request"]

  /** `phrases` has an entry that `errText` contains, in any case. */
  predicate Denied(errText: string, phrases: seq<string>)
  {
    exists k :: 0 <= k < |phrases| && ContainsIgnoreCase(errText, phrases[k])
  }

  /** isRetryableError; `None` is a nil error. */
  predicate IsRetryable(err: Option<string>)
  {
    err.Some? && !Denied(err.value, NonRetryableErrors)
  }

  /** The loop of isRetryableError over a deny-list. */
  method FindDenied(errText: string, phrases: seq<string>) returns (found: bool)
    ensures found <==> Denied(errText, phrases)
  {
    var k := 0;
    while k < |phrases|
      invariant k <= |phrases|
      invariant forall i :: 0 <= i < k ==> !ContainsIgnoreCase(errText, phrases[i])
    {
      if ContainsIgnoreCase(errText, phrases[k]) {
        return true;
      }
      k := k + 1;
    }
    return false;
  }

  method IsRetryableError(err: Option<string>) returns (retry: bool)
    ensures retry <==> IsRetryable(err)
  {
    if err.None? {
      return false;
    }
    var denied := FindDenied(err.value, NonRetryableErrors);
    retry := !denied;
  }

  /** isRetryableError on the text of a non-nil error. */
  predicate RetryableText(errText: string)
  {
    IsRetryable(Some(errText))
  }

  // ------------------------------------------------------------ one pair

  /** The pause before retry `attempt`: two seconds per attempt, at most ten. */
  function RetryDelay(attempt: nat): (d: Time)
    ensures d <= RetryDelayUnit * attempt && d <= MaxRetryDelay
    ensures d == RetryDelayUnit * attempt || d == MaxRetryDelay
  {
    var delay := RetryDelayUnit * attempt;
    if delay > MaxRetryDelay then MaxRetryDelay else delay
  }

  /** The pauses before retries 1 .. n. */
  function RetryDelays(n: nat): (ds: seq<Time>)
    ensures |ds| == n
    ensures forall k :: 0 <= k < n ==> ds[k] == RetryDelay(k + 1)
  {
    if n == 0 then [] else RetryDelays(n - 1) + [RetryDelay(n)]
  }

  /**
   * What sendWithRetry comes to: the error it returns (`None`: delivered),
   * the client calls it made and the pauses it started.
   */
  datatype Delivery = Delivery(error: Option<string>, calls: nat, waits: nat)

  /**
   * sendWithRetry from try `attempt` on, the tries before it having failed in
   * a retryable way: `first` is the number of the client call of try 0 and
   * `wait` the number of the context's wait that the pause before try 1 is.
   */
  function Retry(client: nat -> Option<string>, retryable: string -> bool, cancel: Cancel, first: nat, wait: nat, attempt: nat): Delivery
    requires attempt < RetryAttempts
    decreases RetryAttempts - attempt
  {
    var r := client(first + attempt);
    if r.None? || !retryable(r.value) then Delivery(r, attempt + 1, attempt)
    else if attempt + 1 == RetryAttempts then Delivery(Some("max retries exceeded: " + r.value), attempt + 1, attempt)
    else if Interrupts(cancel, wait + attempt) then Delivery(Some(ContextCanceled), attempt + 1, attempt + 1)
    else Retry(client, retryable, cancel, first, wait, attempt + 1)
  }

  /**
   * The outcome as it stands at the head of the try loop, before try `k`:
   * after the last try it is the last error, wrapped; otherwise the pause
   * before try k either is interrupted or leads to try k.
   */
  function PendingRetry(client: nat -> Option<string>, retryable: string -> bool, cancel: Cancel, first: nat, wait: nat, k: nat, lastErr: string): Delivery
    requires k <= RetryAttempts
  {
    if k == RetryAttempts then Delivery(Some("max retries exceeded: " + lastErr), k, k - 1)
    else if k > 0 && Interrupts(cancel, wait + k - 1) then Delivery(Some(ContextCanceled), k, k)
    else Retry(client, retryable, cancel, first, wait, k)
  }

  /** sendWithRetry; `delays` are the pauses it started, in order. */
  method SendWithRetry(client: nat -> Option<string>, retryable: string -> bool, cancel: Cancel, first: nat, wait: nat)
    returns (err: Option<string>, calls: nat, delays: seq<Time>)
    ensures Delivery(err, calls, |delays|) == Retry(client, retryable, cancel, first, wait, 0)
    ensures delays == RetryDelays(|delays|)
  {
    var lastErr := "";
    delays := [];
    calls := 0;
    var attempt := 0;
    while attempt < RetryAttempts
      invariant attempt <= RetryAttempts && calls == attempt
      invariant delays == RetryDelays(if attempt == 0 then 0 else attempt - 1)
      invariant 0 < attempt ==> client(first + attempt - 1) == Some(lastErr) && retryable(lastErr)
      invariant Retry(client, retryable, cancel, first, wait, 0) == PendingRetry(client, retryable, cancel, first, wait, attempt, lastErr)
    {
      if attempt > 0 {
        var delay := RetryDelayUnit * attempt;
        if delay > MaxRetryDelay {
          delay := MaxRetryDelay;
        }
        delays := delays + [delay];
        if Interrupts(cancel, wait + attempt - 1) {
          return Some(ContextCanceled), calls, delays;
        }
      }
      var e := client(first + attempt);
      calls := attempt + 1;
      if e.None? {
        return None, calls, delays;
      }
      lastErr := e.value;
      if !retryable(lastErr) {
        return e, calls, delays;
      }
      attempt := attempt + 1;
    }
    err := Some("max retries exceeded: " + lastErr);
  }

  // ------------------------------------------------------------ the send

  /**
   * What a send sees: the client's answers, the clock, the context, and the
   * test that decides whether an error is worth a retry.
   */
  datatype Link = Link(client: nat -> Option<string>, elapsed: nat -> Time, cancel: Cancel, retryable: string -> bool)

  /** One SendMessage call: the chat and the text. */
  datatype Call = Call(chatId: string, message: Bytes)

  function Repeat(c: Call, n: nat): (r: seq<Call>)
    ensures |r| == n && forall k :: 0 <= k < n ==> r[k] == c
  {
    seq(n, _ => c)
  }

  /**
   * Where the send stands: whether the context stopped it, the client calls
   * made, the pauses started, the pairs delivered, and the client calls
   * made for each pair reached so far.
   */
  datatype Progress = Progress(aborted: bool, calls: seq<Call>, waited: seq<Time>, sent: nat, tries: seq<nat>)

  /**
   * One (recipient, message) pair: the rate-limit pause if the last send was
   * too recent (the context interrupting it stops the send), then
   * sendWithRetry, whose failure only skips the pair.
   */
  function PairStep(s: Progress, chatId: string, message: Bytes,
                    link: Link): Progress
  {
    var since := link.elapsed(|s.tries|);
    var pause := since < RateLimitDelay;
    var waited := if pause then s.waited + [RateLimitDelay - since] else s.waited;
    if pause && Interrupts(link.cancel, |s.waited|) then Progress(true, s.calls, waited, s.sent, s.tries + [0])
    else
      var d := Retry(link.client, link.retryable, link.cancel, |s.calls|, |waited|, 0);
      Progress(false, s.calls + Repeat(Call(chatId, message), d.calls), waited + RetryDelays(d.waits),
               s.sent + (if d.error.None? then 1 else 0), s.tries + [d.calls])
  }

  /** The first m messages sent to one chat, from state s. */
  function ToRecipient(s: Progress, chatId: string, messages: seq<Bytes>, m: nat,
                       link: Link): Progress
    requires m <= |messages|
  {
    if m == 0 then s
    else
      var t := ToRecipient(s, chatId, messages, m - 1, link);
      if t.aborted then t else PairStep(t, chatId, messages[m - 1], link)
  }

  /** Every message sent to the first n recipients. */
  function ToRecipients(recipients: seq<RecipientBinding>, messages: seq<Bytes>, n: nat,
                        link: Link): Progress
    requires n <= |recipients|
  {
    if n == 0 then Progress(false, [], [], 0, [])
    else
      var s := ToRecipients(recipients, messages, n - 1, link);
      if s.aborted then s else ToRecipient(s, recipients[n - 1].chatId, messages, |messages|, link)
  }

  /** What Send comes to: its error (`None`: nil), the client calls, the pauses and the pairs delivered. */
  datatype SendOutcome = SendOutcome(error: Option<string>, calls: seq<Call>, waited: seq<Time>, sent: nat)

  function SendSpec(recipients: seq<RecipientBinding>, messages: seq<Bytes>,
                    link: Link): SendOutcome
  {
    if |recipients| == 0 then SendOutcome(Some(NoRecipients), [], [], 0)
    else if |messages| == 0 then SendOutcome(Some(NoMessages), [], [], 0)
    else
      var s := ToRecipients(recipients, messages, |recipients|, link);
      SendOutcome(if s.aborted then Some(ContextCanceled) else None, s.calls, s.waited, s.sent)
  }

  /** Once stopped, the send stays stopped. */
  lemma {:induction false} ToRecipientAborted(s: Progress, chatId: string, messages: seq<Bytes>, m: nat,
                                              link: Link)
    requires m <= |messages| && s.aborted
    ensures ToRecipient(s, chatId, messages, m, link) == s
  {
    if m > 0 {
      ToRecipientAborted(s, chatId, messages, m - 1, link);
    }
  }

  /** A send stopped at one recipient is over: the later recipients change nothing. */
  lemma {:induction false} ToRecipientsAborted(recipients: seq<RecipientBinding>, messages: seq<Bytes>, n: nat, k: nat,
                                               link: Link)
    requires k <= n <= |recipients|
    requires ToRecipients(recipients, messages, k, link).aborted
    ensures ToRecipients(recipients, messages, n, link)
            == ToRecipients(recipients, messages, k, link)
    decreases n - k
  {
    if k < n {
      ToRecipientsAborted(recipients, messages, n, k + 1, link);
    }
  }

  /** One more message to the chat, the send not being stopped yet. */
  lemma ToRecipientStep(s: Progress, chatId: string, messages: seq<Bytes>, j: nat, link: Link)
    requires j < |messages|
    requires !ToRecipient(s, chatId, messages, j, link).aborted
    ensures ToRecipient(s, chatId, messages, j + 1, link)
            == PairStep(ToRecipient(s, chatId, messages, j, link), chatId, messages[j], link)
  {
  }

  /** Once stopped after j messages, the rest of the chat's messages change nothing. */
  lemma {:induction false} ToRecipientSplit(s: Progress, chatId: string, messages: seq<Bytes>, j: nat,
                                            link: Link)
    requires j <= |messages|
    requires ToRecipient(s, chatId, messages, j, link).aborted
    ensures ToRecipient(s, chatId, messages, |messages|, link)
            == ToRecipient(s, chatId, messages, j, link)
    decreases |messages| - j
  {
    if j < |messages| {
      ToRecipientSplit(s, chatId, messages, j + 1, link);
    }
  }

  /** One turn of the inner loop of Send. */
  method SendPair(s: Progress, chatId: string, message: Bytes,
                  link: Link) returns (t: Progress)
    requires !s.aborted
    ensures t == PairStep(s, chatId, message, link)
  {
    var waited := s.waited;
    var since := link.elapsed(|s.tries|);
    if since < RateLimitDelay {
      waited := waited + [RateLimitDelay - since];
      if Interrupts(link.cancel, |s.waited|) {
        return Progress(true, s.calls, waited, s.sent, s.tries + [0]);
      }
    }
    var err, calls, delays := SendWithRetry(link.client, link.retryable, link.cancel, |s.calls|, |waited|);
    var sent := s.sent;
    if err.None? {
      sent := sent + 1;
    }
    t := Progress(false, s.calls + Repeat(Call(chatId, message), calls), waited + delays, sent, s.tries + [calls]);
  }

  /** The inner loop of Send: every message to one chat, until the context stops the send. */
  method SendToRecipient(s: Progress, chatId: string, messages: seq<Bytes>, link: Link) returns (t: Progress)
    requires !s.aborted
    ensures t == ToRecipient(s, chatId, messages, |messages|, link)
  {
    t := s;
    var j := 0;
    while j < |messages| && !t.aborted
      invariant j <= |messages|
      invariant t == ToRecipient(s, chatId, messages, j, link)
    {
      ToRecipientStep(s, chatId, messages, j, link);
      t := SendPair(t, chatId, messages[j], link);
      j := j + 1;
    }
    if t.aborted {
      ToRecipientSplit(s, chatId, messages, j, link);
    }
  }

  /**
   * Sender.Send. `calls` are the client calls made, `waited` the pauses
   * started (rate-limit and retry pauses, in order), `sent` the pairs
   * delivered; errors are judged by isRetryableError.
   */
  method Send(recipients: seq<RecipientBinding>, messages: seq<Bytes>,
              client: nat -> Option<string>, elapsed: nat -> Time, cancel: Cancel)
    returns (err: Option<string>, calls: seq<Call>, waited: seq<Time>, sent: nat)
    ensures SendOutcome(err, calls, waited, sent)
            == SendSpec(recipients, messages, Link(client, elapsed, cancel, RetryableText))
  {
    err, calls, waited, sent := SendAll(recipients, messages, Link(client, elapsed, cancel, RetryableText));
  }

  /** The body of Send, for the retry test `link.retryable`. */
  method SendAll(recipients: seq<RecipientBinding>, messages: seq<Bytes>, link: Link)
    returns (err: Option<string>, calls: seq<Call>, waited: seq<Time>, sent: nat)
    ensures SendOutcome(err, calls, waited, sent) == SendSpec(recipients, messages, link)
  {
    if |recipients| == 0 {
      return Some(NoRecipients), [], [], 0;
    }
    if |messages| == 0 {
      return Some(NoMessages), [], [], 0;
    }
    var s := SendEvery(recipients, messages, link);
    err := if s.aborted then Some(ContextCanceled) else None;
    calls, waited, sent := s.calls, s.waited, s.sent;
  }

  /** The recipient loop of Send: every message to every chat, until the context stops the send. */
  method SendEvery(recipients: seq<RecipientBinding>, messages: seq<Bytes>, link: Link) returns (s: Progress)
    ensures s == ToRecipients(recipients, messages, |recipients|, link)
  {
    s := Progress(false, [], [], 0, []);
    var i := 0;
    while i < |recipients| && !s.aborted
      invariant i <= |recipients|
      invariant s == ToRecipients(recipients, messages, i, link)
    {
      s := SendToRecipient(s, recipients[i].chatId, messages, link);
      i := i + 1;
    }
    if s.aborted {
      ToRecipientsAborted(recipients, messages, |recipients|, i, link);
    }
  }

  // ------------------------------------------------------------ properties

  /**
   * sendWithRetry calls the client at least once and at most three times;
   * every call before the last failed with an error worth a retry; it
   * reports success exactly when the last call succeeded; and it pauses
   * once before every call but the first, plus once more when the context
   * interrupts a pause.
   */
  lemma {:induction false} RetryCalls(client: nat -> Option<string>, retryable: string -> bool, cancel: Cancel,
                                      first: nat, wait: nat, attempt: nat)
    requires attempt < RetryAttempts
    ensures var d := Retry(client, retryable, cancel, first, wait, attempt);
            attempt < d.calls <= RetryAttempts
            && (d.waits == d.calls - 1 || (d.waits == d.calls && d.error == Some(ContextCanceled)))
            && (forall k :: first + attempt <= k < first + d.calls - 1 ==> client(k).Some? && retryable(client(k).value))
            && (d.error.None? <==> d.waits < d.calls && client(first + d.calls - 1).None?)
    decreases RetryAttempts - attempt
  {
    var r := client(first + attempt);
    if r.Some? && retryable(r.value) && attempt + 1 < RetryAttempts && !Interrupts(cancel, wait + attempt) {
      RetryCalls(client, retryable, cancel, first, wait, attempt + 1);
    }
  }

  /** An error retrying cannot help is returned as it is, after a single call. */
  lemma NotRetriedOnce(client: nat -> Option<string>, retryable: string -> bool, cancel: Cancel, first: nat, wait: nat)
    requires client(first).Some? && !retryable(client(first).value)
    ensures Retry(client, retryable, cancel, first, wait, 0) == Delivery(client(first), 1, 0)
  {
  }

  /** Three failures worth a retry, without interruption, give "max retries exceeded" with the last error. */
  lemma RetriesExhausted(client: nat -> Option<string>, retryable: string -> bool, first: nat, wait: nat)
    requires forall k :: first <= k < first + RetryAttempts ==> client(k).Some? && retryable(client(k).value)
    ensures Retry(client, retryable, Never, first, wait, 0)
            == Delivery(Some("max retries exceeded: " + client(first + 2).value), 3, 2)
  {
    assert client(first).Some? && client(first + 1).Some? && client(first + 2).Some?;
  }

  /** With three tries the pauses are two and four seconds: the ten-second cap is never reached. */
  lemma RetryPauses()
    ensures RetryDelays(RetryAttempts - 1) == [2 * Second, 4 * Second]
    ensures RetryDelay(RetryAttempts - 1) < MaxRetryDelay
  {
  }

  /** The empty string is found in every text; and the test ignores case on both sides. */
  lemma ContainsIgnoreCaseFacts(s: string, substr: string)
    ensures ContainsIgnoreCase(s, "")
    ensures ContainsIgnoreCase(s, substr) <==> ContainsIgnoreCase(Lower(s), Lower(substr))
    ensures ContainsIgnoreCase(s, substr) <==> exists i | 0 <= i <= |s| - |substr| :: OccursAt(Lower(s), Lower(substr), i)
  {
    LowerIdempotent(s);
    LowerIdempotent(substr);
    assert HasPrefix(Lower(s), Lower(""));
    ContainsOccurs(Lower(s), Lower(substr));
  }

  /** nil is not retried; an error is retried exactly when it names none of the deny-list phrases. */
  lemma RetryableMeans(err: Option<string>)
    ensures err.None? ==> !IsRetryable(err)
    ensures err.Some? ==> (IsRetryable(err) <==> forall k :: 0 <= k < |NonRetryableErrors| ==>
                                                   !ContainsIgnoreCase(err.value, NonRetryableErrors[k]))
  {
  }

  /** The (chat, message) pairs of the first n recipients, recipient by recipient, messages in order. */
  function Pairs(recipients: seq<RecipientBinding>, messages: seq<Bytes>, n: nat): (ps: seq<Call>)
    requires n <= |recipients|
  {
    if n == 0 then []
    else Pairs(recipients, messages, n - 1) + Row(recipients[n - 1].chatId, messages, |messages|)
  }

  /** The first m messages, each addressed to one chat. */
  function Row(chatId: string, messages: seq<Bytes>, m: nat): (r: seq<Call>)
    requires m <= |messages|
    ensures |r| == m && forall j :: 0 <= j < m ==> r[j] == Call(chatId, messages[j])
  {
    seq(m, j requires 0 <= j < m => Call(chatId, messages[j]))
  }

  /** Each pair repeated as often as it was tried, in order. */
  function Expand(pairs: seq<Call>, tries: seq<nat>): seq<Call>
    requires |pairs| == |tries|
  {
    if pairs == [] then []
    else Expand(pairs[..|pairs| - 1], tries[..|tries| - 1]) + Repeat(pairs[|pairs| - 1], tries[|tries| - 1])
  }

  /** A state in which every pair reached was tried between one and three times, in the order `pairs`. */
  predicate Orderly(s: Progress, pairs: seq<Call>)
  {
    |s.tries| == |pairs| && s.calls == Expand(pairs, s.tries)
    && (forall k :: 0 <= k < |s.tries| ==> 1 <= s.tries[k] <= RetryAttempts)
    && s.sent <= |s.tries|
  }

  lemma PairStepOrderly(s: Progress, pairs: seq<Call>, chatId: string, message: Bytes, link: Link)
    requires !s.aborted && Orderly(s, pairs)
    ensures var t := PairStep(s, chatId, message, link);
            t.aborted || Orderly(t, pairs + [Call(chatId, message)])
    ensures link.cancel == Never ==> !PairStep(s, chatId, message, link).aborted
  {
    var t := PairStep(s, chatId, message, link);
    if !t.aborted {
      var since := link.elapsed(|s.tries|);
      var waited := if since < RateLimitDelay then s.waited + [RateLimitDelay - since] else s.waited;
      RetryCalls(link.client, link.retryable, link.cancel, |s.calls|, |waited|, 0);
      var ps := pairs + [Call(chatId, message)];
      assert ps[..|ps| - 1] == pairs;
      assert t.tries[..|t.tries| - 1] == s.tries;
    }
  }

  lemma {:induction false} ToRecipientOrderly(s: Progress, pairs: seq<Call>, chatId: string, messages: seq<Bytes>, m: nat,
                                              link: Link)
    requires m <= |messages|
    requires !s.aborted && Orderly(s, pairs)
    ensures var t := ToRecipient(s, chatId, messages, m, link);
            t.aborted || Orderly(t, pairs + Row(chatId, messages, m))
    ensures link.cancel == Never ==> !ToRecipient(s, chatId, messages, m, link).aborted
  {
    if m == 0 {
      assert pairs + Row(chatId, messages, 0) == pairs;
    } else {
      ToRecipientOrderly(s, pairs, chatId, messages, m - 1, link);
      var t := ToRecipient(s, chatId, messages, m - 1, link);
      var before := pairs + Row(chatId, messages, m - 1);
      if !t.aborted {
        PairStepOrderly(t, before, chatId, messages[m - 1], link);
        assert ToRecipient(s, chatId, messages, m, link) == PairStep(t, chatId, messages[m - 1], link);
        RowSnoc(pairs, chatId, messages, m);
      }
    }
  }

  lemma RowSnoc(pairs: seq<Call>, chatId: string, messages: seq<Bytes>, m: nat)
    requires 0 < m <= |messages|
    ensures pairs + Row(chatId, messages, m - 1) + [Call(chatId, messages[m - 1])] == pairs + Row(chatId, messages, m)
  {
    assert Row(chatId, messages, m) == Row(chatId, messages, m - 1) + [Call(chatId, messages[m - 1])];
  }

  lemma {:induction false} ToRecipientsOrderly(recipients: seq<RecipientBinding>, messages: seq<Bytes>, n: nat, link: Link)
    requires n <= |recipients|
    ensures var s := ToRecipients(recipients, messages, n, link);
            s.aborted || Orderly(s, Pairs(recipients, messages, n))
    ensures link.cancel == Never ==> !ToRecipients(recipients, messages, n, link).aborted
  {
    if n > 0 {
      ToRecipientsOrderly(recipients, messages, n - 1, link);
      var s := ToRecipients(recipients, messages, n - 1, link);
      var pairs := Pairs(recipients, messages, n - 1);
      var chatId := recipients[n - 1].chatId;
      if !s.aborted {
        assert Orderly(s, pairs);
        ToRecipientOrderly(s, pairs, chatId, messages, |messages|, link);
        assert ToRecipients(recipients, messages, n, link) == ToRecipient(s, chatId, messages, |messages|, link);
        assert Pairs(recipients, messages, n) == pairs + Row(chatId, messages, |messages|);
      }
    }
  }

  /**
   * Send refuses an empty recipient list or an empty message list without
   * calling the client. Otherwise, unless the context stops it, it tries
   * every (recipient, message) pair in recipient-major order, each between
   * one and three times whatever the others did, and returns nil; with a
   * context that is never cancelled it always gets that far.
   */
  lemma SendReachesEveryPair(recipients: seq<RecipientBinding>, messages: seq<Bytes>, link: Link)
    ensures var o := SendSpec(recipients, messages, link);
            (|recipients| == 0 || |messages| == 0) ==> o.error.Some? && o.calls == []
    ensures var o := SendSpec(recipients, messages, link);
            |recipients| > 0 && |messages| > 0 && o.error != Some(ContextCanceled) ==>
              o.error.None?
              && exists tries :: Orderly(Progress(false, o.calls, o.waited, o.sent, tries), Pairs(recipients, messages, |recipients|))
    ensures link.cancel == Never && |recipients| > 0 && |messages| > 0 ==> SendSpec(recipients, messages, link).error.None?
  {
    if |recipients| > 0 && |messages| > 0 {
      ToRecipientsOrderly(recipients, messages, |recipients|, link);
      var s := ToRecipients(recipients, messages, |recipients|, link);
      if !s.aborted {
        assert Orderly(Progress(false, s.calls, s.waited, s.sent, s.tries), Pairs(recipients, messages, |recipients|));
      }
    }
  }
}
