/**
 * Recipient resolution. The stored bindings are indexed by chat id; when
 * auto-subscribe is on, the pending bot updates add or refresh one binding
 * per chat that wrote to the bot and the update cursor moves to the highest
 * update id seen; the bindings come back sorted by name and become the
 * state's recipient list.
 *
 * `getUpdates` stands for the Bot API long-poll, keyed by the offset it is
 * asked for; `now` is the clock reading stamped on refreshed bindings.
 */
module Recipients {
  import opened Common
  import opened GoStrings
  import opened News
  import opened Sorting
  import opened TelegramTypes

  const NotConfigured: string := "telegram client not configured"
  const GetUpdatesPrefix: string := "get updates: "
  const FallbackPrefix: string := "chat-"

  // ---------------------------------------------------------------- names

  /** The name a binding gets from the message its chat sent. */
  function RecipientName(msg: Message): (name: string)
  {
    if msg.chat.username != "" then msg.chat.username
    else if msg.from.Some? && msg.from.value.username != "" then msg.from.value.username
    else if msg.chat.title != "" then msg.chat.title
    else if msg.chat.firstName != "" || msg.chat.lastName != "" then TrimSpace(msg.chat.firstName + " " + msg.chat.lastName)
    else FallbackPrefix + Itoa(msg.chat.id)
  }

  /**
   * Where a name can come from, most preferred first: whether the source is
   * there, and the name it gives.
   */
  function NameSources(msg: Message): (sources: seq<(bool, string)>)
    ensures |sources| == 5
  {
    var fromName := if msg.from.Some? then msg.from.value.username else "";
    [ (msg.chat.username != "", msg.chat.username),
      (fromName != "", fromName),
      (msg.chat.title != "", msg.chat.title),
      (msg.chat.firstName != "" || msg.chat.lastName != "", TrimSpace(msg.chat.firstName + " " + msg.chat.lastName)),
      (true, FallbackPrefix + Itoa(msg.chat.id)) ]
  }

  /** The name is the one given by the first source that is there. */
  lemma NameFromFirstSource(msg: Message)
    ensures exists i :: (0 <= i < 5 && NameSources(msg)[i].0 && RecipientName(msg) == NameSources(msg)[i].1
                         && forall j :: 0 <= j < i ==> !NameSources(msg)[j].0)
  {
    var s := NameSources(msg);
    if s[0].0 {
      assert RecipientName(msg) == s[0].1;
    } else if s[1].0 {
      assert RecipientName(msg) == s[1].1;
    } else if s[2].0 {
      assert RecipientName(msg) == s[2].1;
    } else if s[3].0 {
      assert RecipientName(msg) == s[3].1;
    } else {
      assert RecipientName(msg) == s[4].1;
    }
  }

  /** A chat that gives no name at all is called after its id, and the id can be read back from the name. */
  lemma FallbackNameIdentifiesChat(msg: Message)
    requires msg.chat.username == "" && msg.chat.title == ""
    requires msg.from.None? || msg.from.value.username == ""
    requires msg.chat.firstName == "" && msg.chat.lastName == ""
    ensures var name := RecipientName(msg);
      |name| > |FallbackPrefix| && name[..|FallbackPrefix|] == FallbackPrefix
      && var digits := name[|FallbackPrefix|..];
      (forall k :: 0 <= k < |digits| ==> '0' <= digits[k] <= '9' || (k == 0 && digits[k] == '-'))
      && ParseInt(digits) == msg.chat.id
  {
    var name := RecipientName(msg);
    assert name == FallbackPrefix + Itoa(msg.chat.id);
    assert name[|FallbackPrefix|..] == Itoa(msg.chat.id);
    ItoaRoundTrip(msg.chat.id);
  }

  /**
   * The name is empty only for a chat whose personal name is made of white
   * space alone and that has no username or title.
   */
  lemma NameEmpty(msg: Message)
    ensures RecipientName(msg) == "" <==>
      msg.chat.username == "" && msg.chat.title == ""
      && (msg.from.None? || msg.from.value.username == "")
      && (msg.chat.firstName != "" || msg.chat.lastName != "")
      && (forall k :: 0 <= k < |msg.chat.firstName| ==> IsSpace(msg.chat.firstName[k]))
      && (forall k :: 0 <= k < |msg.chat.lastName| ==> IsSpace(msg.chat.lastName[k]))
  {
    var first, last := msg.chat.firstName, msg.chat.lastName;
    TrimSpaceEmpty(first + " " + last);
    SpacesJoin(first, last);
  }

  /** A first and a last name joined by a space are all white space exactly when both names are. */
  lemma SpacesJoin(first: string, last: string)
    ensures (forall k :: 0 <= k < |first + " " + last| ==> IsSpace((first + " " + last)[k])) <==>
      (forall k :: 0 <= k < |first| ==> IsSpace(first[k])) && (forall k :: 0 <= k < |last| ==> IsSpace(last[k]))
  {
    var full := first + " " + last;
    assert IsSpace(' ');
    if forall k :: 0 <= k < |full| ==> IsSpace(full[k]) {
      forall k | 0 <= k < |first| ensures IsSpace(first[k]) {
        assert full[k] == first[k];
      }
      forall k | 0 <= k < |last| ensures IsSpace(last[k]) {
        assert full[|first| + 1 + k] == last[k];
      }
    }
    if (forall k :: 0 <= k < |first| ==> IsSpace(first[k])) && (forall k :: 0 <= k < |last| ==> IsSpace(last[k])) {
      forall k | 0 <= k < |full| ensures IsSpace(full[k]) {
        if k < |first| {
          assert full[k] == first[k];
        } else if k > |first| {
          assert full[k] == last[k - |first| - 1];
        }
      }
    }
  }

  // ------------------------------------------------------------- bindings

  /** Every binding is filed under its own, non-empty chat id. */
  predicate WellKeyed(m: map<string, RecipientBinding>)
  {
    "" !in m && forall k :: k in m ==> m[k].chatId == k
  }

  /** The stored bindings by chat id: a later one replaces an earlier one, one without a chat id is dropped. */
  function Stored(rs: seq<RecipientBinding>): (m: map<string, RecipientBinding>)
    ensures WellKeyed(m)
  {
    if rs == [] then map[]
    else
      var r := rs[|rs| - 1];
      var m := Stored(rs[..|rs| - 1]);
      if r.chatId == "" then m else m[r.chatId := r]
  }

  /** The update carries a message from a real chat. */
  predicate Subscribes(u: Update)
  {
    u.message.Some? && u.message.value.chat.id != 0
  }

  function ChatKey(u: Update): string
    requires u.message.Some?
  {
    Itoa(u.message.value.chat.id)
  }

  /** The binding a message creates, stamped with the time of resolution. */
  function Subscriber(msg: Message, now: Time): (b: RecipientBinding)
    ensures b.chatId != "" && b.updatedAt == now
  {
    RecipientBinding(RecipientName(msg), Itoa(msg.chat.id), now)
  }

  /** The bindings after the updates are taken in order, each one filing its chat's binding afresh. */
  function Subscribed(m: map<string, RecipientBinding>, updates: seq<Update>, now: Time): (r: map<string, RecipientBinding>)
    requires WellKeyed(m)
    ensures WellKeyed(r)
  {
    if updates == [] then m
    else
      var u := updates[|updates| - 1];
      var r := Subscribed(m, updates[..|updates| - 1], now);
      if Subscribes(u) then r[ChatKey(u) := Subscriber(u.message.value, now)] else r
  }

  /** The update cursor after the updates: the highest id among them and the old cursor. */
  function Cursor(last: int, updates: seq<Update>): (c: int)
    ensures c >= last
    ensures forall i :: 0 <= i < |updates| ==> updates[i].updateId <= c
    ensures c == last || exists i :: 0 <= i < |updates| && updates[i].updateId == c
  {
    if updates == [] then last
    else
      var c := Cursor(last, updates[..|updates| - 1]);
      var id := updates[|updates| - 1].updateId;
      assert forall i :: 0 <= i < |updates| - 1 ==> updates[..|updates| - 1][i] == updates[i];
      if id > c then id else c
  }

  /** The offset the long-poll is asked for: the update after the last one seen. */
  function Offset(state: State): int
  {
    state.telegram.lastUpdateId + 1
  }

  /** The updates a successful resolution takes in: none without auto-subscribe. */
  function Polled(autoSubscribe: bool, getUpdates: int -> Result<seq<Update>>, state: State): seq<Update>
  {
    if autoSubscribe && getUpdates(Offset(state)).Ok? then getUpdates(Offset(state)).value else []
  }

  /** `res` holds every binding of `m`, each once. */
  ghost predicate Lists(res: seq<RecipientBinding>, m: map<string, RecipientBinding>)
  {
    Distinct(res) && forall b :: b in res <==> b.chatId in m && m[b.chatId] == b
  }

  /** The order of the result: names ascending. */
  predicate ByName(a: RecipientBinding, b: RecipientBinding)
  {
    LessEq(a.name, b.name)
  }

  // -------------------------------------------------------------- methods

  method IndexStored(rs: seq<RecipientBinding>) returns (m: map<string, RecipientBinding>)
    ensures m == Stored(rs)
  {
    m := map[];
    for i := 0 to |rs|
      invariant m == Stored(rs[..i])
    {
      assert rs[..i + 1][..i] == rs[..i];
      if rs[i].chatId != "" {
        m := m[rs[i].chatId := rs[i]];
      }
    }
    assert rs[..|rs|] == rs;
  }

  method ApplyUpdates(m0: map<string, RecipientBinding>, last: int, updates: seq<Update>, now: Time)
    returns (m: map<string, RecipientBinding>, cursor: int)
    requires WellKeyed(m0)
    ensures m == Subscribed(m0, updates, now)
    ensures cursor == Cursor(last, updates)
  {
    m, cursor := m0, last;
    for i := 0 to |updates|
      invariant m == Subscribed(m0, updates[..i], now)
      invariant cursor == Cursor(last, updates[..i])
    {
      var upd := updates[i];
      assert updates[..i + 1][..i] == updates[..i];
      if upd.updateId > cursor {
        cursor := upd.updateId;
      }
      if upd.message.None? {
        continue;
      }
      if upd.message.value.chat.id == 0 {
        continue;
      }
      var chatId := Itoa(upd.message.value.chat.id);
      var name := RecipientName(upd.message.value);
      m := m[chatId := RecipientBinding(name, chatId, now)];
    }
    assert updates[..|updates|] == updates;
  }

  /** The values of the map, in whatever order the map yields them. */
  method Collect(m: map<string, RecipientBinding>) returns (vals: seq<RecipientBinding>)
    requires WellKeyed(m)
    ensures Lists(vals, m)
  {
    vals := [];
    var keys := m.Keys;
    while keys != {}
      invariant keys <= m.Keys
      invariant Distinct(vals)
      invariant forall b :: b in vals ==> b.chatId in m && m[b.chatId] == b && b.chatId !in keys
      invariant forall k :: k in m && k !in keys ==> m[k] in vals
      decreases keys
    {
      var k :| k in keys;
      vals := vals + [m[k]];
      keys := keys - {k};
    }
  }

  lemma ByNamePreorder(s: seq<RecipientBinding>)
    ensures TotalPreorderOn(s, ByName)
  {
    forall a, b | a in s && b in s ensures ByName(a, b) || ByName(b, a) {
      LessEqTotal(a.name, b.name);
    }
    forall a, b, c | a in s && b in s && c in s && ByName(a, b) && ByName(b, c) ensures ByName(a, c) {
      LessEqTransitive(a.name, b.name, c.name);
    }
  }

  /** Sorting a listing of the bindings by name gives a listing of them too. */
  lemma {:induction false} SortedByNameLists(vals: seq<RecipientBinding>, m: map<string, RecipientBinding>)
    requires Lists(vals, m)
    ensures Lists(SortBy(vals, ByName), m)
    ensures SortedBy(SortBy(vals, ByName), ByName)
  {
    var sorted := SortBy(vals, ByName);
    ByNamePreorder(vals);
    SortBySorted(vals, ByName);
    DistinctCounts(vals);
    DistinctCounts(sorted);
    assert forall b :: b in sorted <==> b in multiset(sorted);
    assert forall b :: b in vals <==> b in multiset(vals);
  }

  /** A listing of well-keyed bindings has one entry per chat, and no entry without a chat id. */
  lemma ListedChats(res: seq<RecipientBinding>, m: map<string, RecipientBinding>)
    requires Lists(res, m) && WellKeyed(m)
    ensures forall i :: 0 <= i < |res| ==> res[i].chatId != ""
    ensures forall i, j :: 0 <= i < j < |res| ==> res[i].chatId != res[j].chatId
  {
    forall i, j | 0 <= i < j < |res| ensures res[i].chatId != res[j].chatId {
      assert res[i] in res && res[j] in res;
      assert res[i] == m[res[i].chatId] && res[j] == m[res[j].chatId];
    }
    forall i | 0 <= i < |res| ensures res[i].chatId != "" {
      assert res[i] in res;
    }
  }

  /**
   * Resolve: the recipient list after taking in the pending updates. On an
   * error the state comes back unchanged and no recipient is returned.
   */
  method Resolve(configured: bool, autoSubscribe: bool, getUpdates: int -> Result<seq<Update>>, now: Time, state: State)
    returns (next: State, recipients: seq<RecipientBinding>, err: Option<string>)
    ensures !configured ==> err == Some(NotConfigured)
    ensures configured && autoSubscribe && getUpdates(Offset(state)).Err? ==>
      err == Some(GetUpdatesPrefix + getUpdates(Offset(state)).error)
    ensures err.None? <==> configured && !(autoSubscribe && getUpdates(Offset(state)).Err?)
    ensures err.Some? ==> next == state && recipients == []
    ensures err.None? ==>
      var updates := Polled(autoSubscribe, getUpdates, state);
      && next == state.(recipients := recipients, telegram := TelegramState(Cursor(state.telegram.lastUpdateId, updates)))
      && Lists(recipients, Subscribed(Stored(state.recipients), updates, now))
      && SortedBy(recipients, ByName)
    ensures err.None? && !autoSubscribe ==> next.telegram == state.telegram && Lists(recipients, Stored(state.recipients))
    ensures err.None? ==> next.telegram.lastUpdateId >= state.telegram.lastUpdateId
    ensures forall i :: 0 <= i < |recipients| ==> recipients[i].chatId != ""
    ensures forall i, j :: 0 <= i < j < |recipients| ==> recipients[i].chatId != recipients[j].chatId
  {
    if !configured {
      return state, [], Some(NotConfigured);
    }
    var m := IndexStored(state.recipients);
    next := state;
    if autoSubscribe {
      var polled := getUpdates(state.telegram.lastUpdateId + 1);
      if polled.Err? {
        return state, [], Some(GetUpdatesPrefix + polled.error);
      }
      var cursor;
      m, cursor := ApplyUpdates(m, state.telegram.lastUpdateId, polled.value, now);
      next := next.(telegram := TelegramState(cursor));
    }
    var vals := Collect(m);
    SortedByNameLists(vals, m);
    recipients := SortBy(vals, ByName);
    ListedChats(recipients, m);
    next := next.(recipients := recipients);
    err := None;
  }

  // ----------------------------------------------------------- properties

  /** A chat is bound after the stored list is indexed exactly when some stored binding with a chat id names it. */
  lemma {:induction false} StoredKeys(rs: seq<RecipientBinding>)
    ensures forall k :: k in Stored(rs) <==> k != "" && exists j :: 0 <= j < |rs| && rs[j].chatId == k
  {
    if rs != [] {
      var init := rs[..|rs| - 1];
      StoredKeys(init);
      assert forall j :: 0 <= j < |init| ==> init[j] == rs[j];
    }
  }

  /** The last stored binding for a chat is the one kept. */
  lemma {:induction false} LatestStoredWins(rs: seq<RecipientBinding>, j: nat)
    requires j < |rs| && rs[j].chatId != ""
    requires forall i :: j < i < |rs| ==> rs[i].chatId != rs[j].chatId
    ensures rs[j].chatId in Stored(rs) && Stored(rs)[rs[j].chatId] == rs[j]
  {
    if j < |rs| - 1 {
      var init := rs[..|rs| - 1];
      assert init[j] == rs[j];
      LatestStoredWins(init, j);
    }
  }

  /**
   * A chat is bound after the updates exactly when it was bound before or a
   * subscribing update came from it.
   */
  lemma {:induction false} SubscribedKeys(m: map<string, RecipientBinding>, updates: seq<Update>, now: Time)
    requires WellKeyed(m)
    ensures forall k :: k in Subscribed(m, updates, now) <==>
      k in m || exists i :: 0 <= i < |updates| && Subscribes(updates[i]) && ChatKey(updates[i]) == k
  {
    if updates != [] {
      var init := updates[..|updates| - 1];
      SubscribedKeys(m, init, now);
      assert forall i :: 0 <= i < |init| ==> init[i] == updates[i];
    }
  }

  /** The last update from a chat decides its binding: the name from that message, stamped with the resolution time. */
  lemma {:induction false} LatestUpdateWins(m: map<string, RecipientBinding>, updates: seq<Update>, now: Time, i: nat)
    requires WellKeyed(m) && i < |updates| && Subscribes(updates[i])
    requires forall j :: i < j < |updates| && Subscribes(updates[j]) ==> ChatKey(updates[j]) != ChatKey(updates[i])
    ensures var r := Subscribed(m, updates, now);
      ChatKey(updates[i]) in r && r[ChatKey(updates[i])] == Subscriber(updates[i].message.value, now)
  {
    if i < |updates| - 1 {
      var init := updates[..|updates| - 1];
      assert init[i] == updates[i];
      LatestUpdateWins(m, init, now, i);
    }
  }

  /** A chat no update came from keeps the binding it had. */
  lemma {:induction false} UntouchedKept(m: map<string, RecipientBinding>, updates: seq<Update>, now: Time, k: string)
    requires WellKeyed(m) && k in m
    requires forall i :: 0 <= i < |updates| && Subscribes(updates[i]) ==> ChatKey(updates[i]) != k
    ensures k in Subscribed(m, updates, now) && Subscribed(m, updates, now)[k] == m[k]
  {
    if updates != [] {
      var init := updates[..|updates| - 1];
      assert forall i :: 0 <= i < |init| ==> init[i] == updates[i];
      UntouchedKept(m, init, now, k);
    }
  }

  /** An update without a message, or from chat 0, binds nothing: the bindings are as if it were not there. */
  lemma {:induction false} IgnoredUpdateBindsNothing(m: map<string, RecipientBinding>, a: seq<Update>, u: Update, b: seq<Update>, now: Time)
    requires WellKeyed(m) && !Subscribes(u)
    ensures Subscribed(m, a + [u] + b, now) == Subscribed(m, a + b, now)
  {
    if b == [] {
      assert (a + [u] + b)[..|a|] == a;
      assert a + b == a;
    } else {
      var init, last := b[..|b| - 1], b[|b| - 1];
      IgnoredUpdateBindsNothing(m, a, u, init, now);
      var x, y := a + [u] + b, a + b;
      assert x[..|x| - 1] == a + [u] + init && x[|x| - 1] == last;
      assert y[..|y| - 1] == a + init && y[|y| - 1] == last;
    }
  }

  /** Every update, bound or not, moves the cursor: it ends at least at the update's id. */
  lemma IgnoredUpdateAdvancesCursor(last: int, a: seq<Update>, u: Update, b: seq<Update>)
    ensures Cursor(last, a + [u] + b) >= u.updateId
  {
    assert (a + [u] + b)[|a|] == u;
  }
}
