/**
 * The daily run (internal/app/pipeline.go): a stage sequence over
 * collaborators that each either answer or fail, with a test-message path, a
 * send-saved-digest path, a dry run that stops after article selection, a
 * build mode that stores the digest instead of sending it, and the update of
 * the sent-articles ledger.
 *
 * Every collaborator is an oracle in `Env`; `Run` returns the error it ends
 * with and the trace of the collaborator calls it made, and is proved equal
 * to the function `RunSpec`, about which the lemmas below are stated.
 */
module Pipeline {
  import opened Common
  import opened GoStrings
  import opened News
  import opened Sorting

  /** The ledger keeps at most this many rows after a normal run. */
  const MaxSentHistory: nat := 500

  const ErrNotConfigured: string := "pipeline dependencies not configured"
  const ErrNoRecipients: string := "no recipients registered; ask users to contact the bot"

  const TestMessage: string :=
    "🧪 *Тестовое сообщение*\n\nЭто тестовое сообщение для проверки отправки в Telegram. Полный дайджест будет отправляться автоматически раз в день после обработки новостей через Gemini."
  const ServiceMessage: string :=
    "Сегодня не набралось достаточно релевантных новостей для дайджеста. Вернёмся завтра."

  /**
   * The two fixed messages as sent (UTF-8). The empty suffix stops the
   * verifier from expanding the encoding of the literal in every proof.
   */
  const TestMessages: seq<Bytes> := [Utf8(TestMessage + [])]
  const ServiceMessages: seq<Bytes> := [Utf8(ServiceMessage + [])]

  /** Which collaborators the pipeline was given (`true`: not nil). */
  datatype Deps = Deps(
    collector: bool, filter: bool, categorizer: bool, ranker: bool, summarizer: bool,
    formatter: bool, sender: bool, recipients: bool, stateStore: bool, clock: bool)

  /** The run switches and the volume limit of the configuration. */
  datatype Flags = Flags(
    forceDispatch: bool, skipGemini: bool, sendTestMessage: bool, buildMode: bool, sendMode: bool,
    maxArticlesBeforeGemini: int)

  /**
   * What every collaborator answers. The clock reads `now`; `cancel` says
   * whether the context is cancelled during the two waits between stages
   * (wait 0 before ranking, wait 1 before summarising).
   */
  datatype Env = Env(
    load: Result<State>,
    resolve: State -> Result<(State, seq<RecipientBinding>)>,
    loadDigest: Result<Option<Digest>>,
    collect: Result<seq<ArticleRaw>>,
    filter: (seq<ArticleRaw>, State) -> Result<seq<ArticleRaw>>,
    categorize: seq<ArticleRaw> -> Result<seq<CategorizedArticle>>,
    rank: seq<CategorizedArticle> -> Result<seq<CategorizedArticle>>,
    summarize: seq<CategorizedArticle> -> Result<seq<DigestEntry>>,
    format: seq<DigestEntry> -> Result<seq<Bytes>>,
    send: (seq<RecipientBinding>, seq<Bytes>) -> Option<string>,
    save: State -> Option<string>,
    saveDigest: Digest -> Option<string>,
    deleteDigest: Option<string>,
    now: Time,
    cancel: Cancel)

  /** One collaborator call, with the arguments that matter. */
  datatype Call =
    | Load | Resolve | LoadDigest | DeleteDigest
    | Collect | Filter(articles: seq<ArticleRaw>) | Categorize(articles: seq<ArticleRaw>)
    | Rank | Summarize | Format
    | Send(recipients: seq<RecipientBinding>, messages: seq<Bytes>)
    | SaveDigest(digest: Digest)
    | Save(state: State)

  /** The error a run returns (None: nil) and the calls it made, in order. */
  datatype Outcome = Outcome(err: Option<string>, calls: seq<Call>)

  // ------------------------------------------------------ dependencies

  /** validateDeps: the store and the clock always; then what the mode uses. */
  function ValidateDeps(d: Deps, sendMode: bool, skipGemini: bool): (r: Option<string>)
    ensures r.Some? ==> r.value == ErrNotConfigured
    ensures !d.stateStore || !d.clock ==> r.Some?
    ensures sendMode && d.stateStore && d.clock ==> (r.None? <==> d.sender)
    ensures !sendMode && d.stateStore && d.clock ==>
      (r.None? <==> d.collector && d.filter
                    && (skipGemini || (d.categorizer && d.ranker && d.summarizer && d.formatter && d.sender)))
  {
    if !d.stateStore || !d.clock then Some(ErrNotConfigured)
    else if sendMode then (if !d.sender then Some(ErrNotConfigured) else None)
    else if !d.collector || !d.filter then Some(ErrNotConfigured)
    else if !skipGemini && (!d.categorizer || !d.ranker || !d.summarizer || !d.formatter || !d.sender) then
      Some(ErrNotConfigured)
    else None
  }

  /** The resolver is optional in every mode, and send mode needs nothing besides the sender. */
  lemma SendModeNeeds(d: Deps, skipGemini: bool)
    ensures ValidateDeps(d, true, skipGemini).None? <==> d.stateStore && d.clock && d.sender
    ensures ValidateDeps(d, true, skipGemini) == ValidateDeps(d.(collector := false, filter := false,
      categorizer := false, ranker := false, summarizer := false, formatter := false, recipients := false), true, skipGemini)
  {
  }

  // ------------------------------------------------------------ ledger

  /** The ids of the digest entries, in order. */
  function EntryIds(entries: seq<DigestEntry>): (ids: seq<string>)
    ensures |ids| == |entries| && forall i :: 0 <= i < |entries| ==> ids[i] == entries[i].id
  {
    seq(|entries|, i requires 0 <= i < |entries| => entries[i].id)
  }

  /**
   * The rows appended for `ids`: one per id that is not among the `known`
   * ids of the previous ledger, stamped `now`. Only the previous ledger is
   * consulted, so an id that occurs twice in `ids` gets two rows.
   */
  function NewRows(ids: seq<string>, known: set<string>, now: Time): (rows: seq<StateArticle>)
    ensures |rows| <= |ids|
  {
    if ids == [] then []
    else
      var last := ids[|ids| - 1];
      NewRows(ids[..|ids| - 1], known, now) + (if last in known then [] else [StateArticle(last, now)])
  }

  /** Keeps the last MaxSentHistory rows. */
  function Capped(rows: seq<StateArticle>): (r: seq<StateArticle>)
  {
    if |rows| > MaxSentHistory then rows[|rows| - MaxSentHistory..] else rows
  }

  /** updateState */
  function LedgerState(prev: State, entries: seq<DigestEntry>, now: Time): State
  {
    prev.(lastRun := now,
          sentArticles := Capped(prev.sentArticles + NewRows(EntryIds(entries), LedgerIds(prev.sentArticles), now)))
  }

  /** updateStateFromDigest: the same rows, without the cap. */
  function DigestLedgerState(prev: State, ids: seq<string>, now: Time): State
  {
    prev.(lastRun := now, sentArticles := prev.sentArticles + NewRows(ids, LedgerIds(prev.sentArticles), now))
  }

  lemma {:induction false} NewRowsAppend(a: seq<string>, b: seq<string>, known: set<string>, now: Time)
    ensures NewRows(a + b, known, now) == NewRows(a, known, now) + NewRows(b, known, now)
    decreases |b|
  {
    if b == [] {
      assert a + b == a;
    } else {
      assert (a + b)[..|a + b| - 1] == a + b[..|b| - 1];
      NewRowsAppend(a, b[..|b| - 1], known, now);
    }
  }

  /** Every appended row is stamped `now` and carries an id of `ids` absent from the previous ledger. */
  lemma {:induction false} NewRowsSound(ids: seq<string>, known: set<string>, now: Time)
    ensures forall r :: r in NewRows(ids, known, now) ==> r.sentAt == now && r.id !in known && r.id in ids
  {
    if ids != [] {
      var init := ids[..|ids| - 1];
      NewRowsSound(init, known, now);
      forall r | r in NewRows(ids, known, now) ensures r.sentAt == now && r.id !in known && r.id in ids {
        if r in NewRows(init, known, now) {
          assert r.id in init;
        }
      }
    }
  }

  /** Every id of `ids` absent from the previous ledger gets a row. */
  lemma {:induction false} NewRowsComplete(ids: seq<string>, known: set<string>, now: Time)
    ensures forall i :: 0 <= i < |ids| && ids[i] !in known ==> StateArticle(ids[i], now) in NewRows(ids, known, now)
  {
    if ids != [] {
      var init := ids[..|ids| - 1];
      NewRowsComplete(init, known, now);
      forall i | 0 <= i < |ids| - 1 && ids[i] !in known ensures StateArticle(ids[i], now) in NewRows(ids, known, now) {
        assert ids[i] == init[i];
      }
    }
  }

  /** Ids that are all known add nothing. */
  lemma {:induction false} NewRowsAllKnown(ids: seq<string>, known: set<string>, now: Time)
    requires forall i :: 0 <= i < |ids| ==> ids[i] in known
    ensures NewRows(ids, known, now) == []
  {
    if ids != [] {
      NewRowsAllKnown(ids[..|ids| - 1], known, now);
    }
  }

  /** An id repeated inside one list is appended twice, in both ledger updates. */
  lemma RepeatedIdAppendedTwice(known: set<string>, id: string, now: Time)
    requires id !in known
    ensures NewRows([id, id], known, now) == [StateArticle(id, now), StateArticle(id, now)]
  {
    NewRowsAppend([id], [id], known, now);
    assert [id] + [id] == [id, id];
  }

  /** The cap keeps a suffix of at most MaxSentHistory rows: all of them when they fit, exactly the last MaxSentHistory otherwise. */
  lemma CappedMeans(rows: seq<StateArticle>)
    ensures |Capped(rows)| <= MaxSentHistory
    ensures Capped(rows) == rows[|rows| - |Capped(rows)|..]
    ensures |rows| <= MaxSentHistory ==> Capped(rows) == rows
    ensures |rows| > MaxSentHistory ==> |Capped(rows)| == MaxSentHistory
  {
  }

  /**
   * updateState: `lastRun` becomes the clock, recipients and cursor are
   * untouched, the ledger is a suffix of the old ledger followed by the new
   * rows and holds at most MaxSentHistory rows; when nothing is cut, the old
   * ledger is kept whole and in order.
   */
  lemma LedgerStateMeans(prev: State, entries: seq<DigestEntry>, now: Time)
    ensures var s := LedgerState(prev, entries, now);
      var all := prev.sentArticles + NewRows(EntryIds(entries), LedgerIds(prev.sentArticles), now);
      && s.lastRun == now && s.recipients == prev.recipients && s.telegram == prev.telegram
      && |s.sentArticles| <= MaxSentHistory
      && s.sentArticles == all[|all| - |s.sentArticles|..]
      && (|all| <= MaxSentHistory ==> s.sentArticles == all && s.sentArticles[..|prev.sentArticles|] == prev.sentArticles)
      && (|all| > MaxSentHistory ==> |s.sentArticles| == MaxSentHistory)
  {
    var all := prev.sentArticles + NewRows(EntryIds(entries), LedgerIds(prev.sentArticles), now);
    CappedMeans(all);
  }

  /** updateStateFromDigest applies no cap: a full ledger grows past MaxSentHistory. */
  lemma DigestLedgerExceedsCap(prev: State, id: string, now: Time)
    requires |prev.sentArticles| == MaxSentHistory && id !in LedgerIds(prev.sentArticles)
    ensures |DigestLedgerState(prev, [id], now).sentArticles| == MaxSentHistory + 1
  {
    assert [id][..0] == [];
  }

  /** updateStateFromDigest keeps the old ledger as a prefix and adds exactly the new rows. */
  lemma DigestLedgerStateMeans(prev: State, ids: seq<string>, now: Time)
    ensures var s := DigestLedgerState(prev, ids, now);
      && s.lastRun == now && s.recipients == prev.recipients && s.telegram == prev.telegram
      && s.sentArticles[..|prev.sentArticles|] == prev.sentArticles
      && (forall r :: r in s.sentArticles[|prev.sentArticles|..] ==>
            (r.sentAt == now && r.id in ids && r.id !in LedgerIds(prev.sentArticles)))
      && (forall i :: 0 <= i < |ids| && ids[i] !in LedgerIds(prev.sentArticles) ==> StateArticle(ids[i], now) in s.sentArticles)
  {
    var known := LedgerIds(prev.sentArticles);
    var s := DigestLedgerState(prev, ids, now);
    NewRowsSound(ids, known, now);
    NewRowsComplete(ids, known, now);
    assert s.sentArticles[|prev.sentArticles|..] == NewRows(ids, known, now);
  }

  /** The loop shared by both updates: copy the old ledger while collecting its ids, then append the rows of unseen ids. */
  method AppendUnsent(prev: seq<StateArticle>, ids: seq<string>, now: Time) returns (filtered: seq<StateArticle>)
    ensures filtered == prev + NewRows(ids, LedgerIds(prev), now)
  {
    var existing: set<string> := {};
    filtered := [];
    for i := 0 to |prev|
      invariant filtered == prev[..i]
      invariant existing == LedgerIds(prev[..i])
    {
      var item := prev[i];
      LedgerIdsAppend(prev[..i], item);
      assert prev[..i + 1] == prev[..i] + [item];
      existing := existing + {item.id};
      filtered := filtered + [item];
    }
    assert prev[..|prev|] == prev;
    for i := 0 to |ids|
      invariant filtered == prev + NewRows(ids[..i], existing, now)
    {
      assert ids[..i + 1][..i] == ids[..i];
      if ids[i] in existing {
        continue;
      }
      filtered := filtered + [StateArticle(ids[i], now)];
    }
    assert ids[..|ids|] == ids;
  }

  method UpdateStateFromDigest(prev: State, digest: Digest, now: Time) returns (s: State)
    ensures s == DigestLedgerState(prev, digest.articleIds, now)
  {
    var filtered := AppendUnsent(prev.sentArticles, digest.articleIds, now);
    s := prev.(lastRun := now, sentArticles := filtered);
  }

  method UpdateState(prev: State, entries: seq<DigestEntry>, now: Time) returns (s: State)
    ensures s == LedgerState(prev, entries, now)
  {
    var filtered := AppendUnsent(prev.sentArticles, EntryIds(entries), now);
    if |filtered| > MaxSentHistory {
      filtered := filtered[|filtered| - MaxSentHistory..];
    }
    s := prev.(lastRun := now, sentArticles := filtered);
  }

  // ------------------------------------------------------ volume limit

  /** The order of the volume limit: newer first (equal instants in either order). */
  predicate NewerFirst(a: ArticleRaw, b: ArticleRaw)
  {
    a.publishedAt >= b.publishedAt
  }

  /** The articles passed on to categorisation. */
  function Limited(filtered: seq<ArticleRaw>, max: int): seq<ArticleRaw>
  {
    if max > 0 && |filtered| > max then SortBy(filtered, NewerFirst)[..max] else filtered
  }

  /**
   * Without a positive limit, or under it, the list passes unchanged;
   * over it, exactly `max` of the articles pass, newest first, and none of
   * those left out is newer than any of those kept.
   */
  lemma LimitedMeans(filtered: seq<ArticleRaw>, max: int)
    ensures !(max > 0 && |filtered| > max) ==> Limited(filtered, max) == filtered
    ensures max > 0 && |filtered| > max ==>
      var r := Limited(filtered, max);
      && |r| == max
      && SortedBy(r, NewerFirst)
      && multiset(r) <= multiset(filtered)
      && forall a, b :: a in r && b in multiset(filtered) - multiset(r) ==> b.publishedAt <= a.publishedAt
  {
    if max > 0 && |filtered| > max {
      var s := SortBy(filtered, NewerFirst);
      SortBySorted(filtered, NewerFirst);
      SortedPrefix(s, max, NewerFirst);
      SplitOrdered(s, max, NewerFirst);
      MultisetSplit(s, max);
    }
  }

  /** In an ordered sequence, everything before position `n` comes before everything from it on. */
  lemma SplitOrdered<T>(s: seq<T>, n: nat, le: (T, T) -> bool)
    requires SortedBy(s, le) && n <= |s|
    ensures forall a, b :: a in s[..n] && b in multiset(s) - multiset(s[..n]) ==> le(a, b)
  {
    MultisetSplit(s, n);
    forall a, b | a in s[..n] && b in multiset(s) - multiset(s[..n]) ensures le(a, b) {
      assert b in s[n..];
      var i :| 0 <= i < n && s[..n][i] == a;
      var j :| 0 <= j < |s| - n && s[n..][j] == b;
      assert s[i] == a && s[n + j] == b;
    }
  }

  lemma MultisetSplit<T>(s: seq<T>, n: nat)
    requires n <= |s|
    ensures multiset(s) - multiset(s[..n]) == multiset(s[n..])
    ensures multiset(s[..n]) <= multiset(s)
  {
    assert s == s[..n] + s[n..];
  }

  // ---------------------------------------------------------- dispatch

  /**
   * The send step shared by the send-mode, no-news and normal paths:
   * nothing to send is fine; no recipients is an error unless dispatch is
   * forced, and then nothing is sent.
   */
  function Dispatch(recipients: seq<RecipientBinding>, force: bool, messages: seq<Bytes>, env: Env, wrap: string): (o: Outcome)
    ensures o.calls == [] || o.calls == [Send(recipients, messages)]
    ensures o.calls == [Send(recipients, messages)] <==> messages != [] && recipients != []
    ensures messages != [] && recipients == [] && !force ==> o == Outcome(Some(ErrNoRecipients), [])
    ensures o.err.None? <==>
      messages == [] || (recipients == [] && force) || (recipients != [] && env.send(recipients, messages).None?)
  {
    if messages == [] then Outcome(None, [])
    else if recipients == [] && !force then Outcome(Some(ErrNoRecipients), [])
    else if recipients == [] then Outcome(None, [])
    else
      match env.send(recipients, messages)
      case Some(e) => Outcome(Some(wrap + e), [Send(recipients, messages)])
      case None => Outcome(None, [Send(recipients, messages)])
  }

  // ---------------------------------------------------- the whole run

  /** The recipients after the optional resolver. */
  function Resolved(deps: Deps, env: Env, loaded: State): Result<(State, seq<RecipientBinding>)>
  {
    if !deps.recipients then Ok((loaded, []))
    else
      match env.resolve(loaded)
      case Err(e) => Err("resolve recipients: " + e)
      case Ok(r) => Ok(r)
  }

  /** The test-message path. */
  function TestPath(deps: Deps, env: Env, recipients: seq<RecipientBinding>, calls: seq<Call>): Outcome
  {
    if |recipients| > 0 && deps.sender then
      var msgs := TestMessages;
      match env.send(recipients, msgs)
      case Some(e) => Outcome(Some("send test message: " + e), calls + [Send(recipients, msgs)])
      case None => Outcome(None, calls + [Send(recipients, msgs)])
    else if |recipients| == 0 then Outcome(Some(ErrNoRecipients), calls)
    else Outcome(None, calls)
  }

  /** Sending a saved digest that has messages: send, record, then delete the file. */
  function SendSaved(flags: Flags, env: Env, state: State, recipients: seq<RecipientBinding>, digest: Digest,
                     calls: seq<Call>): Outcome
  {
    if digest.messages == [] then Outcome(None, calls + [DeleteDigest])
    else
      var sent := Dispatch(recipients, flags.forceDispatch, digest.messages, env, "send messages: ");
      if sent.err.Some? then Outcome(sent.err, calls + sent.calls)
      else
        var newState := DigestLedgerState(state, digest.articleIds, env.now);
        var saved := calls + sent.calls + [Save(newState)];
        match env.save(newState)
        case Some(e) => Outcome(Some("save state: " + e), saved)
        case None => Outcome(None, saved + [DeleteDigest])
  }

  /** After ranking left nothing: store or send the one service message; the ledger is not touched. */
  function NoNews(flags: Flags, env: Env, recipients: seq<RecipientBinding>, calls: seq<Call>): Outcome
  {
    var msgs := ServiceMessages;
    if flags.buildMode then
      var digest := Digest(msgs, env.now, []);
      match env.saveDigest(digest)
      case Some(e) => Outcome(Some("save digest (no-news service message): " + e), calls + [SaveDigest(digest)])
      case None => Outcome(None, calls + [SaveDigest(digest)])
    else
      var sent := Dispatch(recipients, flags.forceDispatch, msgs, env, "send 'no news today' service message: ");
      Outcome(sent.err, calls + sent.calls)
  }

  /** From formatted messages on: store them (build mode) or dispatch and record the entries. */
  function Deliver(flags: Flags, env: Env, state: State, recipients: seq<RecipientBinding>,
                   entries: seq<DigestEntry>, messages: seq<Bytes>, calls: seq<Call>): Outcome
  {
    if flags.buildMode then
      var digest := Digest(messages, env.now, EntryIds(entries));
      match env.saveDigest(digest)
      case Some(e) => Outcome(Some("save digest: " + e), calls + [SaveDigest(digest)])
      case None => Outcome(None, calls + [SaveDigest(digest)])
    else
      var sent := Dispatch(recipients, flags.forceDispatch, messages, env, "send messages: ");
      if sent.err.Some? then Outcome(sent.err, calls + sent.calls)
      else
        var newState := LedgerState(state, entries, env.now);
        var saved := calls + sent.calls + [Save(newState)];
        match env.save(newState)
        case Some(e) => Outcome(Some("save state: " + e), saved)
        case None => Outcome(None, saved)
  }

  /** Categorise, wait, rank, and go on with what ranking kept. */
  function Generate(flags: Flags, env: Env, state: State, recipients: seq<RecipientBinding>,
                    articles: seq<ArticleRaw>, calls: seq<Call>): Outcome
  {
    var calls := calls + [Categorize(articles)];
    match env.categorize(articles)
    case Err(e) => Outcome(Some("categorize articles: " + e), calls)
    case Ok(categorized) =>
      if Interrupts(env.cancel, 0) then Outcome(Some(ContextCanceled), calls)
      else
        var calls := calls + [Rank];
        match env.rank(categorized)
        case Err(e) => Outcome(Some("rank articles: " + e), calls)
        case Ok(ranked) => Finish(flags, env, state, recipients, ranked, calls)
  }

  /** Either the no-news ending, or wait, summarise, format and deliver. */
  function Finish(flags: Flags, env: Env, state: State, recipients: seq<RecipientBinding>,
                  ranked: seq<CategorizedArticle>, calls: seq<Call>): Outcome
  {
    if ranked == [] then NoNews(flags, env, recipients, calls)
    else if Interrupts(env.cancel, 1) then Outcome(Some(ContextCanceled), calls)
    else
      var calls := calls + [Summarize];
      match env.summarize(ranked)
      case Err(e) => Outcome(Some("summarize articles: " + e), calls)
      case Ok(entries) =>
        var calls := calls + [Format];
        match env.format(entries)
        case Err(e) => Outcome(Some("build messages: " + e), calls)
        case Ok(messages) => Deliver(flags, env, state, recipients, entries, messages, calls)
  }

  /** Collect, filter, limit, and stop here on a dry run. */
  function Process(flags: Flags, env: Env, state: State, recipients: seq<RecipientBinding>, calls: seq<Call>): Outcome
  {
    var calls := calls + [Collect];
    match env.collect
    case Err(e) => Outcome(Some("collect articles: " + e), calls)
    case Ok(raw) =>
      var calls := calls + [Filter(raw)];
      match env.filter(raw, state)
      case Err(e) => Outcome(Some("filter articles: " + e), calls)
      case Ok(filtered) =>
        if flags.skipGemini then Outcome(None, calls)
        else Generate(flags, env, state, recipients, Limited(filtered, flags.maxArticlesBeforeGemini), calls)
  }

  /** Run: validate, load and resolve, then go on by mode. */
  function RunSpec(deps: Deps, flags: Flags, env: Env): Outcome
    decreases if flags.sendMode then 1 else 0, 1
  {
    match ValidateDeps(deps, flags.sendMode, flags.skipGemini)
    case Some(e) => Outcome(Some(e), [])
    case None =>
      match env.load
      case Err(e) => Outcome(Some("load state: " + e), [Load])
      case Ok(loaded) =>
        var calls := if deps.recipients then [Load, Resolve] else [Load];
        match Resolved(deps, env, loaded)
        case Err(e) => Outcome(Some(e), calls)
        case Ok(r) => ByMode(deps, flags, env, r.0, r.1, calls)
  }

  /** The test path, the send path (falling back to a full run when no digest is on file) or the full run. */
  function ByMode(deps: Deps, flags: Flags, env: Env, state: State, recipients: seq<RecipientBinding>, calls: seq<Call>): Outcome
    decreases if flags.sendMode then 1 else 0, 0
  {
    if flags.sendTestMessage then TestPath(deps, env, recipients, calls)
    else if flags.sendMode then
      var calls := calls + [LoadDigest];
      match env.loadDigest
      case Err(e) => Outcome(Some("load digest: " + e), calls)
      case Ok(None) =>
        var fallback := RunSpec(deps, flags.(buildMode := false, sendMode := false), env);
        Outcome(fallback.err, calls + fallback.calls)
      case Ok(Some(digest)) => SendSaved(flags, env, state, recipients, digest, calls)
    else Process(flags, env, state, recipients, calls)
  }

  // ------------------------------------------------------------ methods

  /** The send step, as each path writes it. */
  method DispatchStep(recipients: seq<RecipientBinding>, force: bool, messages: seq<Bytes>, env: Env, wrap: string)
    returns (err: Option<string>, calls: seq<Call>)
    ensures Outcome(err, calls) == Dispatch(recipients, force, messages, env, wrap)
  {
    calls := [];
    if |messages| == 0 {
      return None, calls;
    }
    if |recipients| == 0 && !force {
      return Some(ErrNoRecipients), calls;
    }
    if |recipients| > 0 {
      calls := [Send(recipients, messages)];
      var sendErr := env.send(recipients, messages);
      if sendErr.Some? {
        return Some(wrap + sendErr.value), calls;
      }
    }
    err := None;
  }

  /** Send mode with a digest on file. A failed deletion is only logged. */
  method SendDigest(flags: Flags, env: Env, state: State, recipients: seq<RecipientBinding>, digest: Digest,
                    calls0: seq<Call>) returns (err: Option<string>, calls: seq<Call>)
    ensures Outcome(err, calls) == SendSaved(flags, env, state, recipients, digest, calls0)
  {
    calls := calls0;
    if |digest.messages| == 0 {
      calls := calls + [DeleteDigest];
      return None, calls;
    }
    var sendCalls;
    err, sendCalls := DispatchStep(recipients, flags.forceDispatch, digest.messages, env, "send messages: ");
    calls := calls + sendCalls;
    if err.Some? {
      return;
    }
    var newState := UpdateStateFromDigest(state, digest, env.now);
    calls := calls + [Save(newState)];
    var saveErr := env.save(newState);
    if saveErr.Some? {
      return Some("save state: " + saveErr.value), calls;
    }
    calls := calls + [DeleteDigest];
  }

  /** Ranking kept nothing: the service message. */
  method NoNewsStep(flags: Flags, env: Env, recipients: seq<RecipientBinding>, calls0: seq<Call>)
    returns (err: Option<string>, calls: seq<Call>)
    ensures Outcome(err, calls) == NoNews(flags, env, recipients, calls0)
  {
    calls := calls0;
    var serviceMessage := ServiceMessages;
    if flags.buildMode {
      var digest := Digest(serviceMessage, env.now, []);
      calls := calls + [SaveDigest(digest)];
      var saveErr := env.saveDigest(digest);
      if saveErr.Some? {
        return Some("save digest (no-news service message): " + saveErr.value), calls;
      }
      return None, calls;
    }
    var sendCalls;
    err, sendCalls := DispatchStep(recipients, flags.forceDispatch, serviceMessage, env,
                                   "send 'no news today' service message: ");
    calls := calls + sendCalls;
  }

  /** Formatted messages in hand: store the digest, or send and record the ledger. */
  method DeliverStep(flags: Flags, env: Env, state: State, recipients: seq<RecipientBinding>,
                     entries: seq<DigestEntry>, messages: seq<Bytes>, calls0: seq<Call>)
    returns (err: Option<string>, calls: seq<Call>)
    ensures Outcome(err, calls) == Deliver(flags, env, state, recipients, entries, messages, calls0)
  {
    calls := calls0;
    var articleIds: seq<string> := [];
    for i := 0 to |entries|
      invariant articleIds == EntryIds(entries[..i])
    {
      articleIds := articleIds + [entries[i].id];
    }
    assert entries[..|entries|] == entries;
    if flags.buildMode {
      var digest := Digest(messages, env.now, articleIds);
      calls := calls + [SaveDigest(digest)];
      var saveErr := env.saveDigest(digest);
      if saveErr.Some? {
        return Some("save digest: " + saveErr.value), calls;
      }
      return None, calls;
    }
    var sendCalls;
    err, sendCalls := DispatchStep(recipients, flags.forceDispatch, messages, env, "send messages: ");
    calls := calls + sendCalls;
    if err.Some? {
      return;
    }
    var newState := UpdateState(state, entries, env.now);
    calls := calls + [Save(newState)];
    var saveErr := env.save(newState);
    if saveErr.Some? {
      return Some("save state: " + saveErr.value), calls;
    }
  }

  /** Collect to deliver: each stage's error ends the run, and so does a cancelled wait. */
  method Stages(flags: Flags, env: Env, state: State, recipients: seq<RecipientBinding>, calls0: seq<Call>)
    returns (err: Option<string>, calls: seq<Call>)
    ensures Outcome(err, calls) == Process(flags, env, state, recipients, calls0)
  {
    calls := calls0 + [Collect];
    if env.collect.Err? {
      return Some("collect articles: " + env.collect.error), calls;
    }
    var rawArticles := env.collect.value;
    calls := calls + [Filter(rawArticles)];
    var filterResult := env.filter(rawArticles, state);
    if filterResult.Err? {
      return Some("filter articles: " + filterResult.error), calls;
    }
    var filtered := filterResult.value;
    if flags.maxArticlesBeforeGemini > 0 && |filtered| > flags.maxArticlesBeforeGemini {
      filtered := SortBy(filtered, NewerFirst);
      filtered := filtered[..flags.maxArticlesBeforeGemini];
    }
    assert filtered == Limited(filterResult.value, flags.maxArticlesBeforeGemini);
    if flags.skipGemini {
      return None, calls;
    }
    calls := calls + [Categorize(filtered)];
    var categorized := env.categorize(filtered);
    if categorized.Err? {
      return Some("categorize articles: " + categorized.error), calls;
    }
    if Interrupts(env.cancel, 0) {
      return Some(ContextCanceled), calls;
    }
    calls := calls + [Rank];
    var ranked := env.rank(categorized.value);
    if ranked.Err? {
      return Some("rank articles: " + ranked.error), calls;
    }
    if |ranked.value| == 0 {
      err, calls := NoNewsStep(flags, env, recipients, calls);
      return;
    }
    if Interrupts(env.cancel, 1) {
      return Some(ContextCanceled), calls;
    }
    calls := calls + [Summarize];
    var digestEntries := env.summarize(ranked.value);
    if digestEntries.Err? {
      return Some("summarize articles: " + digestEntries.error), calls;
    }
    calls := calls + [Format];
    var messages := env.format(digestEntries.value);
    if messages.Err? {
      return Some("build messages: " + messages.error), calls;
    }
    err, calls := DeliverStep(flags, env, state, recipients, digestEntries.value, messages.value, calls);
  }

  /** Run */
  method Run(deps: Deps, flags: Flags, env: Env) returns (err: Option<string>, calls: seq<Call>)
    ensures Outcome(err, calls) == RunSpec(deps, flags, env)
    decreases if flags.sendMode then 1 else 0, 1
  {
    calls := [];
    err := ValidateDeps(deps, flags.sendMode, flags.skipGemini);
    if err.Some? {
      return;
    }
    calls := [Load];
    if env.load.Err? {
      return Some("load state: " + env.load.error), calls;
    }
    var state := env.load.value;
    var recipients: seq<RecipientBinding> := [];
    if deps.recipients {
      calls := [Load, Resolve];
      var resolved := env.resolve(state);
      if resolved.Err? {
        return Some("resolve recipients: " + resolved.error), calls;
      }
      state, recipients := resolved.value.0, resolved.value.1;
    }
    err, calls := RunByMode(deps, flags, env, state, recipients, calls);
  }

  method RunByMode(deps: Deps, flags: Flags, env: Env, state: State, recipients: seq<RecipientBinding>, calls0: seq<Call>)
    returns (err: Option<string>, calls: seq<Call>)
    ensures Outcome(err, calls) == ByMode(deps, flags, env, state, recipients, calls0)
    decreases if flags.sendMode then 1 else 0, 0
  {
    calls := calls0;
    if flags.sendTestMessage {
      err, calls := SendTestMessage(deps, env, recipients, calls);
      return;
    }
    if flags.sendMode {
      calls := calls + [LoadDigest];
      if env.loadDigest.Err? {
        return Some("load digest: " + env.loadDigest.error), calls;
      }
      if env.loadDigest.value.None? {
        var fallbackErr, fallbackCalls := Run(deps, flags.(buildMode := false, sendMode := false), env);
        return fallbackErr, calls + fallbackCalls;
      }
      err, calls := SendDigest(flags, env, state, recipients, env.loadDigest.value.value, calls);
      return;
    }
    err, calls := Stages(flags, env, state, recipients, calls);
  }

  method SendTestMessage(deps: Deps, env: Env, recipients: seq<RecipientBinding>, calls0: seq<Call>)
    returns (err: Option<string>, calls: seq<Call>)
    ensures Outcome(err, calls) == TestPath(deps, env, recipients, calls0)
  {
    calls := calls0;
    if |recipients| > 0 && deps.sender {
      var testMessage := TestMessages;
      calls := calls + [Send(recipients, testMessage)];
      var sendErr := env.send(recipients, testMessage);
      if sendErr.Some? {
        return Some("send test message: " + sendErr.value), calls;
      }
    } else if |recipients| == 0 {
      return Some(ErrNoRecipients), calls;
    }
    return None, calls;
  }

  // ------------------------------------------------ properties of a run

  predicate NoSend(calls: seq<Call>)
  {
    forall c :: c in calls ==> !c.Send?
  }

  predicate NoSave(calls: seq<Call>)
  {
    forall c :: c in calls ==> !c.Save?
  }

  /**
   * A Save comes straight after the dispatch step (a Send, or the step before
   * it when there was nobody or nothing to send to) and is the last call but
   * for deleting the digest it recorded.
   */
  predicate SaveAfterDispatch(calls: seq<Call>)
  {
    forall i :: 0 <= i < |calls| && calls[i].Save? ==> SavedAt(calls, i)
  }

  /** The Save at position `i` follows the dispatch step and ends the run, but for the digest's deletion. */
  predicate SavedAt(calls: seq<Call>, i: nat)
    requires i < |calls|
  {
    0 < i && (calls[i - 1].Send? || calls[i - 1].Format? || calls[i - 1].LoadDigest?)
    && (i == |calls| - 1 || (i == |calls| - 2 && calls[i + 1] == DeleteDigest))
  }

  /** A run that fails has saved nothing, unless the save itself is what failed (as the last call). */
  predicate SavedOnlyOnSuccess(o: Outcome, env: Env)
  {
    o.err.Some? ==>
      (NoSave(o.calls)
       || (o.calls != [] && o.calls[|o.calls| - 1].Save? && env.save(o.calls[|o.calls| - 1].state).Some?))
  }

  lemma AppendRunProperties(calls: seq<Call>, o: Outcome, env: Env)
    requires NoSave(calls) && SaveAfterDispatch(o.calls) && SavedOnlyOnSuccess(o, env)
    ensures SaveAfterDispatch(calls + o.calls) && SavedOnlyOnSuccess(Outcome(o.err, calls + o.calls), env)
  {
    AppendSaveAfterDispatch(calls, o.calls);
    var all := calls + o.calls;
    if o.err.Some? && !NoSave(all) {
      var c :| c in all && c.Save?;
      assert c in o.calls;
      assert all[|all| - 1] == o.calls[|o.calls| - 1];
    }
  }

  lemma AppendSaveAfterDispatch(calls: seq<Call>, later: seq<Call>)
    requires NoSave(calls) && SaveAfterDispatch(later)
    ensures SaveAfterDispatch(calls + later)
  {
    var all := calls + later;
    assert forall k :: 0 <= k < |calls| ==> all[k] == calls[k] && calls[k] in calls;
    forall i | 0 <= i < |all| && all[i].Save? ensures SavedAt(all, i) {
      assert i >= |calls|;
      var j := i - |calls|;
      assert later[j] == all[i];
      assert SavedAt(later, j);
      assert all[i - 1] == later[j - 1];
      if j < |later| - 1 {
        assert all[i + 1] == later[j + 1];
      }
    }
    assert SaveAfterDispatch(all);
  }

  lemma DispatchProperties(calls: seq<Call>, recipients: seq<RecipientBinding>, force: bool, messages: seq<Bytes>,
                           env: Env, wrap: string)
    requires NoSave(calls)
    ensures var o := Dispatch(recipients, force, messages, env, wrap);
      NoSave(calls + o.calls) && (recipients == [] ==> calls + o.calls == calls)
  {
  }

  lemma DeliverProperties(flags: Flags, env: Env, state: State, recipients: seq<RecipientBinding>,
                          entries: seq<DigestEntry>, messages: seq<Bytes>, calls: seq<Call>)
    requires NoSave(calls) && calls != [] && calls[|calls| - 1] == Format
    ensures var o := Deliver(flags, env, state, recipients, entries, messages, calls);
      SaveAfterDispatch(o.calls) && SavedOnlyOnSuccess(o, env)
      && (flags.buildMode ==> NoSave(o.calls) && NoSend(o.calls) == NoSend(calls))
      && (recipients == [] && NoSend(calls) ==> NoSend(o.calls))
  {
    var sent := Dispatch(recipients, flags.forceDispatch, messages, env, "send messages: ");
    DispatchProperties(calls, recipients, flags.forceDispatch, messages, env, "send messages: ");
    if !flags.buildMode && sent.err.None? {
      var all := calls + sent.calls + [Save(LedgerState(state, entries, env.now))];
      assert all[|all| - 2] == Format || all[|all| - 2].Send?;
    }
  }

  lemma NoNewsProperties(flags: Flags, env: Env, recipients: seq<RecipientBinding>, calls: seq<Call>)
    requires NoSave(calls)
    ensures var o := NoNews(flags, env, recipients, calls);
      NoSave(o.calls)
      && (flags.buildMode ==> NoSend(o.calls) == NoSend(calls))
      && (recipients == [] ==> NoSend(o.calls) == NoSend(calls))
  {
    DispatchProperties(calls, recipients, flags.forceDispatch, ServiceMessages, env,
                       "send 'no news today' service message: ");
  }

  lemma FinishProperties(flags: Flags, env: Env, state: State, recipients: seq<RecipientBinding>,
                         ranked: seq<CategorizedArticle>, calls: seq<Call>)
    requires NoSave(calls)
    ensures var o := Finish(flags, env, state, recipients, ranked, calls);
      SaveAfterDispatch(o.calls) && SavedOnlyOnSuccess(o, env)
      && (flags.buildMode ==> NoSave(o.calls) && NoSend(o.calls) == NoSend(calls))
      && (recipients == [] && NoSend(calls) ==> NoSend(o.calls))
  {
    if ranked == [] {
      NoNewsProperties(flags, env, recipients, calls);
    } else if !Interrupts(env.cancel, 1) && env.summarize(ranked).Ok? {
      var entries := env.summarize(ranked).value;
      var c := calls + [Summarize] + [Format];
      if env.format(entries).Ok? {
        DeliverProperties(flags, env, state, recipients, entries, env.format(entries).value, c);
      }
    }
  }

  lemma GenerateProperties(flags: Flags, env: Env, state: State, recipients: seq<RecipientBinding>,
                           articles: seq<ArticleRaw>, calls: seq<Call>)
    requires NoSave(calls)
    ensures var o := Generate(flags, env, state, recipients, articles, calls);
      SaveAfterDispatch(o.calls) && SavedOnlyOnSuccess(o, env)
      && (flags.buildMode ==> NoSave(o.calls) && NoSend(o.calls) == NoSend(calls))
      && (recipients == [] && NoSend(calls) ==> NoSend(o.calls))
  {
    var c := calls + [Categorize(articles)];
    if env.categorize(articles).Ok? && !Interrupts(env.cancel, 0) {
      var ranked := env.rank(env.categorize(articles).value);
      if ranked.Ok? {
        FinishProperties(flags, env, state, recipients, ranked.value, c + [Rank]);
      }
    }
  }

  lemma ProcessProperties(flags: Flags, env: Env, state: State, recipients: seq<RecipientBinding>, calls: seq<Call>)
    requires NoSave(calls)
    ensures var o := Process(flags, env, state, recipients, calls);
      SaveAfterDispatch(o.calls) && SavedOnlyOnSuccess(o, env)
      && (flags.skipGemini || flags.buildMode ==> NoSave(o.calls) && NoSend(o.calls) == NoSend(calls))
      && (recipients == [] && NoSend(calls) ==> NoSend(o.calls))
  {
    if env.collect.Ok? {
      var c := calls + [Collect] + [Filter(env.collect.value)];
      if env.filter(env.collect.value, state).Ok? && !flags.skipGemini {
        GenerateProperties(flags, env, state, recipients,
                           Limited(env.filter(env.collect.value, state).value, flags.maxArticlesBeforeGemini), c);
      }
    }
  }

  lemma SendSavedProperties(flags: Flags, env: Env, state: State, recipients: seq<RecipientBinding>, digest: Digest,
                            calls: seq<Call>)
    requires NoSave(calls) && calls != [] && calls[|calls| - 1] == LoadDigest
    ensures var o := SendSaved(flags, env, state, recipients, digest, calls);
      SaveAfterDispatch(o.calls) && SavedOnlyOnSuccess(o, env)
      && (recipients == [] && NoSend(calls) ==> NoSend(o.calls))
  {
    if digest.messages != [] {
      var sent := Dispatch(recipients, flags.forceDispatch, digest.messages, env, "send messages: ");
      DispatchProperties(calls, recipients, flags.forceDispatch, digest.messages, env, "send messages: ");
      if sent.err.None? {
        var newState := DigestLedgerState(state, digest.articleIds, env.now);
        var saved := calls + sent.calls + [Save(newState)];
        assert saved[|saved| - 2] == LoadDigest || saved[|saved| - 2].Send?;
        assert (saved + [DeleteDigest])[..|saved|] == saved;
      }
    }
  }

  /**
   * Save happens only after dispatch, as the last step but for deleting a
   * sent digest, and a failed run has saved nothing unless the save failed.
   * The dry run and build mode never save and never send.
   */
  lemma {:induction false} RunSavesOnlyAfterDispatch(deps: Deps, flags: Flags, env: Env)
    ensures SaveAfterDispatch(RunSpec(deps, flags, env).calls)
    ensures SavedOnlyOnSuccess(RunSpec(deps, flags, env), env)
    ensures !flags.sendTestMessage && !flags.sendMode && (flags.skipGemini || flags.buildMode) ==>
      NoSave(RunSpec(deps, flags, env).calls) && NoSend(RunSpec(deps, flags, env).calls)
    decreases if flags.sendMode then 1 else 0, 1
  {
    if ValidateDeps(deps, flags.sendMode, flags.skipGemini).None? && env.load.Ok? {
      var r := Resolved(deps, env, env.load.value);
      if r.Ok? {
        ByModeSavesOnlyAfterDispatch(deps, flags, env, r.value.0, r.value.1,
                                     if deps.recipients then [Load, Resolve] else [Load]);
      }
    }
  }

  lemma {:induction false} ByModeSavesOnlyAfterDispatch(deps: Deps, flags: Flags, env: Env, state: State,
                                                          recipients: seq<RecipientBinding>, calls: seq<Call>)
    requires NoSave(calls) && NoSend(calls)
    ensures var o := ByMode(deps, flags, env, state, recipients, calls);
      SaveAfterDispatch(o.calls) && SavedOnlyOnSuccess(o, env)
      && (!flags.sendTestMessage && !flags.sendMode && (flags.skipGemini || flags.buildMode) ==>
            NoSave(o.calls) && NoSend(o.calls))
    decreases if flags.sendMode then 1 else 0, 0
  {
    if !flags.sendTestMessage {
      if flags.sendMode {
        var c := calls + [LoadDigest];
        match env.loadDigest
        case Err(_) =>
        case Ok(None) =>
          var fallbackFlags := flags.(buildMode := false, sendMode := false);
          RunSavesOnlyAfterDispatch(deps, fallbackFlags, env);
          AppendRunProperties(c, RunSpec(deps, fallbackFlags, env), env);
        case Ok(Some(digest)) =>
          SendSavedProperties(flags, env, state, recipients, digest, c);
      } else {
        ProcessProperties(flags, env, state, recipients, calls);
      }
    }
  }

  /** The recipients a run works with: those the resolver returned, none without a resolver. */
  function RecipientsOf(deps: Deps, env: Env): seq<RecipientBinding>
  {
    if env.load.Ok? && Resolved(deps, env, env.load.value).Ok? then Resolved(deps, env, env.load.value).value.1 else []
  }

  /**
   * Without recipients nothing is ever sent; the test message is then refused
   * with an error whatever ForceDispatch says, and every other path with
   * something to send is refused unless ForceDispatch is set (see Dispatch).
   */
  lemma {:induction false} NoRecipientsNoSend(deps: Deps, flags: Flags, env: Env)
    requires RecipientsOf(deps, env) == []
    ensures NoSend(RunSpec(deps, flags, env).calls)
    ensures (flags.sendTestMessage && ValidateDeps(deps, flags.sendMode, flags.skipGemini).None?
             && env.load.Ok? && Resolved(deps, env, env.load.value).Ok?) ==>
      RunSpec(deps, flags, env).err == Some(ErrNoRecipients)
    decreases if flags.sendMode then 1 else 0, 1
  {
    if ValidateDeps(deps, flags.sendMode, flags.skipGemini).None? && env.load.Ok? {
      var r := Resolved(deps, env, env.load.value);
      if r.Ok? {
        ByModeNoRecipients(deps, flags, env, r.value.0, if deps.recipients then [Load, Resolve] else [Load]);
      }
    }
  }

  lemma {:induction false} ByModeNoRecipients(deps: Deps, flags: Flags, env: Env, state: State, calls: seq<Call>)
    requires RecipientsOf(deps, env) == [] && NoSave(calls) && NoSend(calls)
    ensures NoSend(ByMode(deps, flags, env, state, [], calls).calls)
    ensures flags.sendTestMessage ==> ByMode(deps, flags, env, state, [], calls).err == Some(ErrNoRecipients)
    decreases if flags.sendMode then 1 else 0, 0
  {
    if !flags.sendTestMessage {
      if flags.sendMode {
        var c := calls + [LoadDigest];
        match env.loadDigest
        case Err(_) =>
        case Ok(None) =>
          var fallbackFlags := flags.(buildMode := false, sendMode := false);
          NoRecipientsNoSend(deps, fallbackFlags, env);
          var f := RunSpec(deps, fallbackFlags, env);
          assert forall x :: x in c + f.calls ==> x in c || x in f.calls;
        case Ok(Some(digest)) =>
          SendSavedProperties(flags, env, state, [], digest, c);
      } else {
        ProcessProperties(flags, env, state, [], calls);
      }
    }
  }

  /** In send mode, a missing digest re-runs the whole pipeline with build and send mode cleared. */
  lemma SendModeFallback(deps: Deps, flags: Flags, env: Env)
    requires flags.sendMode && !flags.sendTestMessage && ValidateDeps(deps, true, flags.skipGemini).None?
    requires env.load.Ok? && Resolved(deps, env, env.load.value).Ok? && env.loadDigest == Ok(None)
    ensures var o := RunSpec(deps, flags, env);
      var fallback := RunSpec(deps, flags.(buildMode := false, sendMode := false), env);
      o.err == fallback.err
      && o.calls == (if deps.recipients then [Load, Resolve] else [Load]) + [LoadDigest] + fallback.calls
  {
  }

  /**
   * In send mode with a digest on file: an empty digest is deleted with
   * nothing sent or saved; otherwise the digest is deleted only when the
   * send (if there were recipients) and then the save of the updated ledger
   * both succeeded, and the run then succeeds.
   */
  lemma SendModeDigest(deps: Deps, flags: Flags, env: Env)
    requires flags.sendMode && !flags.sendTestMessage && ValidateDeps(deps, true, flags.skipGemini).None?
    requires env.load.Ok? && Resolved(deps, env, env.load.value).Ok? && env.loadDigest.Ok? && env.loadDigest.value.Some?
    ensures var o := RunSpec(deps, flags, env);
      var (state, recipients) := Resolved(deps, env, env.load.value).value;
      var digest := env.loadDigest.value.value;
      var prefix := (if deps.recipients then [Load, Resolve] else [Load]) + [LoadDigest];
      var newState := DigestLedgerState(state, digest.articleIds, env.now);
      && (digest.messages == [] ==> o == Outcome(None, prefix + [DeleteDigest]))
      && (digest.messages != [] ==>
            && (DeleteDigest in o.calls <==> o.err.None?)
            && (o.err.None? ==>
                  && env.save(newState).None?
                  && o.calls == prefix + (if recipients == [] then [] else [Send(recipients, digest.messages)])
                                + [Save(newState), DeleteDigest]
                  && (recipients != [] ==> env.send(recipients, digest.messages).None?)))
  {
    var (state, recipients) := Resolved(deps, env, env.load.value).value;
    var digest := env.loadDigest.value.value;
    var prefix := (if deps.recipients then [Load, Resolve] else [Load]) + [LoadDigest];
    var o := SendSaved(flags, env, state, recipients, digest, prefix);
    assert RunSpec(deps, flags, env) == o;
    if digest.messages != [] {
      var sent := Dispatch(recipients, flags.forceDispatch, digest.messages, env, "send messages: ");
      assert DeleteDigest !in prefix + sent.calls;
      if sent.err.None? {
        var newState := DigestLedgerState(state, digest.articleIds, env.now);
        assert DeleteDigest !in prefix + sent.calls + [Save(newState)];
      }
    }
  }
}
