/**
 * The outbox sync worker: a per-record state machine over the stored outbox.
 *
 * A send is split into its two halves. `Dispatch` is the synchronous part of the
 * private `sync(_:using:profile:location:)`: it claims the record in the in-flight
 * set, marks it in progress, counts the attempt and produces the request.
 * `Complete` is the block the send's completion runs on the main queue: it records
 * the outcome and releases the claim. Anything may happen between the two.
 *
 * Time is an argument (`now`, in seconds), and so is the jitter the backoff draws
 * at random.
 */
module SyncWorkers {
  import opened Options
  import opened Text
  import opened Clock
  import opened OutboxItems
  import opened UserProfiles
  import opened Roam
  import opened Stores

  predicate NonEmpty(s: Option<string>) {
    s.Some? && s.value != ""
  }

  // ---------------------------------------------------------------------------
  // Configuration, location and content

  /** `configuredContext`: the client and the first stored profile, when that
      profile names a graph and holds a token. */
  function ConfiguredContext(profiles: seq<UserProfile>): (r: Option<(RoamApi, UserProfile)>)
    reads profiles
    ensures r.Some? <==> |profiles| > 0 && NonEmpty(profiles[0].graphName) && NonEmpty(profiles[0].apiToken)
    ensures r.Some? ==> r.value.1 == profiles[0]
    ensures r.Some? ==> r.value.0.graphName != "" && r.value.0.graphName == profiles[0].graphName.value
    ensures r.Some? ==> r.value.0.apiToken != "" && r.value.0.apiToken == profiles[0].apiToken.value
  {
    if |profiles| > 0 && NonEmpty(profiles[0].graphName) && NonEmpty(profiles[0].apiToken) then
      Some((RoamApi(profiles[0].graphName.value, profiles[0].apiToken.value), profiles[0]))
    else None
  }

  /** `customLocation`, trimmed, if anything is left. */
  function CustomPage(profile: UserProfile): Option<string>
    reads profile
  {
    if profile.customLocation.Some? && Trim(profile.customLocation.value) != "" then
      Some(Trim(profile.customLocation.value))
    else None
  }

  /** `resolveLocation`: today's daily note unless the profile turns daily notes
      off and names a page. */
  function ResolveLocation(profile: UserProfile): (r: RoamLocation)
    reads profile
    ensures profile.useDailyNotes ==> r == DailyNote
    ensures r.Page? <==> !profile.useDailyNotes && CustomPage(profile).Some?
    ensures r.Page? ==> profile.customLocation.Some? && r.title == Trim(profile.customLocation.value)
    ensures r.Page? ==> r.title != "" && !IsWhitespace(r.title[0]) && !IsWhitespace(r.title[|r.title| - 1])
  {
    if profile.useDailyNotes then DailyNote
    else if CustomPage(profile).Some? then
      TrimShape(profile.customLocation.value);
      Page(CustomPage(profile).value)
    else DailyNote
  }

  /** The profile's `defaultTag`, trimmed, if anything is left. */
  function TagOf(defaultTag: Option<string>): (t: Option<string>)
    ensures t.Some? <==> defaultTag.Some? && Trim(defaultTag.value) != ""
    ensures t.Some? ==> t.value == Trim(defaultTag.value)
  {
    if defaultTag.Some? && Trim(defaultTag.value) != "" then Some(Trim(defaultTag.value)) else None
  }

  /** The `HH:mm` of the record's first-attempt instant (of `now` if it has none). */
  function StampText(item: OutboxItem, now: int, utcOffset: int): (s: string)
    ensures |s| == 5 && s[2] == ':'
  {
    FormatHourMinute(ToLocal(item.stampAt.GetOr(now), utcOffset))
  }

  /** The suffix shows the local hour and minute of the stamp instant, or of
      now when the record has none. */
  lemma StampShowsTime(item: OutboxItem, now: int, utcOffset: int)
    ensures var s := StampText(item, now, utcOffset);
            var l := ToLocal(if item.stampAt.Some? then item.stampAt.value else now, utcOffset);
            && AllDigits(s[..2]) && ValueOf(s[..2]) == l.hour
            && AllDigits(s[3..]) && ValueOf(s[3..]) == l.minute
  {
  }

  /** `decoratedContent(for:using:)`, given the two profile settings it reads
      (`addTimestamp` and `defaultTag`): the content, then one space and the
      suffix parts (the time first, the tag second) joined by single spaces; the
      content alone when there are no parts. */
  function DecoratedContent(item: OutboxItem, addTimestamp: bool, defaultTag: Option<string>, now: int, utcOffset: int): string {
    var stamp := if addTimestamp then [StampText(item, now, utcOffset)] else [];
    var tag := if TagOf(defaultTag).Some? then [TagOf(defaultTag).value] else [];
    var parts := stamp + tag;
    if parts == [] then item.content else item.content + " " + Join(parts, " ")
  }

  /** The sent text is the captured content, then the timestamp (when enabled),
      then the tag (when one is left after trimming), each after one space. */
  lemma DecoratedContentCases(item: OutboxItem, addTimestamp: bool, defaultTag: Option<string>, now: int, utcOffset: int)
    ensures var r := DecoratedContent(item, addTimestamp, defaultTag, now, utcOffset);
            var stamp := StampText(item, now, utcOffset);
            var tag := TagOf(defaultTag);
            && (!addTimestamp && tag.None? ==> r == item.content)
            && (addTimestamp && tag.None? ==> r == item.content + " " + stamp)
            && (!addTimestamp && tag.Some? ==> r == item.content + " " + tag.value)
            && (addTimestamp && tag.Some? ==> r == item.content + " " + stamp + " " + tag.value)
  {
    var stamp := StampText(item, now, utcOffset);
    var tag := TagOf(defaultTag);
    if addTimestamp && tag.Some? {
      assert Join([stamp, tag.value], " ") == stamp + " " + tag.value;
      assert [stamp] + [tag.value] == [stamp, tag.value];
      assert item.content + " " + (stamp + " " + tag.value) == item.content + " " + stamp + " " + tag.value;
    } else if addTimestamp {
      assert [stamp] + [] == [stamp];
    } else if tag.Some? {
      assert [] + [tag.value] == [tag.value];
    }
  }

  /** With both decorations on, a capture "Buy milk" first attempted at 09:05
      UTC on the first day of the epoch, in a zone at UTC, with the tag
      "#capture", is sent as "Buy milk 09:05 #capture". */
  lemma DecorationExample(item: OutboxItem, now: int)
    requires item.content == "Buy milk" && item.stampAt == Some(9 * 3600 + 5 * 60)
    ensures DecoratedContent(item, true, Some("#capture"), now, 0) == "Buy milk 09:05 #capture"
  {
    calc {
      DecoratedContent(item, true, Some("#capture"), now, 0);
      { DecoratedContentCases(item, true, Some("#capture"), now, 0); ExampleTag(); }
      item.content + " " + StampText(item, now, 0) + " " + "#capture";
      { ExampleStamp(); }
      "Buy milk" + " " + "09:05" + " " + "#capture";
      { ExampleText(); }
      "Buy milk 09:05 #capture";
    }
  }

  lemma ExampleTag()
    ensures TagOf(Some("#capture")) == Some("#capture")
  {
    var tag := "#capture";
    assert Trim(tag) == tag by {
      TrimOfTrimmed(tag);
    }
  }

  lemma ExampleText()
    ensures "Buy milk" + " " + "09:05" + " " + "#capture" == "Buy milk 09:05 #capture"
  {
  }

  lemma ExampleStamp()
    ensures FormatHourMinute(ToLocal(9 * 3600 + 5 * 60, 0)) == "09:05"
  {
    ExampleLocalTime();
    ExampleHourMinute();
  }

  lemma ExampleHourMinute()
    ensures FormatHourMinute(LocalDateTime(1970, 1, 1, 9, 5)) == "09:05"
  {
    assert ZeroPad(9, 2) == "09" by {
      assert Decimal(9) == "9";
      assert Zeros(1) == "0";
    }
    assert ZeroPad(5, 2) == "05" by {
      assert Decimal(5) == "5";
      assert Zeros(1) == "0";
    }
  }

  lemma ExampleLocalTime()
    ensures ToLocal(9 * 3600 + 5 * 60, 0) == LocalDateTime(1970, 1, 1, 9, 5)
  {
    assert YearAndDay(0, 1970) == (1970, 0);
    assert MonthAndDay(0, 1970, 1) == (1, 1);
  }

  /** Of the record, the decoration reads only the content and the stamp. */
  lemma DecorationReadsContentAndStamp(a: OutboxItem, b: OutboxItem, addTimestamp: bool, defaultTag: Option<string>, now: int, utcOffset: int)
    requires a.content == b.content && a.stampAt == b.stampAt
    ensures DecoratedContent(a, addTimestamp, defaultTag, now, utcOffset) == DecoratedContent(b, addTimestamp, defaultTag, now, utcOffset)
  {
    assert StampText(a, now, utcOffset) == StampText(b, now, utcOffset);
  }

  // ---------------------------------------------------------------------------
  // Backoff

  function Pow2(k: nat): (p: nat)
    ensures p >= 1
  {
    if k == 0 then 1 else 2 * Pow2(k - 1)
  }

  lemma {:induction false} Pow2Monotone(i: nat, j: nat)
    requires i <= j
    ensures Pow2(i) <= Pow2(j)
  {
    if i < j {
      Pow2Monotone(i, j - 1);
    }
  }

  function Min(a: int, b: int): int {
    if a <= b then a else b
  }

  predicate IsAuthStatus(code: Option<int>) {
    code == Some(401) || code == Some(403)
  }

  /** The exponential part of the backoff: 2^min(attempt, 6). */
  function BackoffBase(attempt: nat): (b: nat)
    ensures 1 <= b <= 64
  {
    Pow2Monotone(Min(attempt, 6), 6);
    Pow2(Min(attempt, 6))
  }

  /** `backoffDelay`: a fixed minute for 401/403, otherwise 2^min(attempt, 6)
      seconds plus the jitter (a whole second or none). */
  function BackoffDelay(attempt: nat, statusCode: Option<int>, jitter: int): (d: int)
    requires 0 <= jitter <= 1
    ensures IsAuthStatus(statusCode) ==> d == 60
    ensures !IsAuthStatus(statusCode) ==> BackoffBase(attempt) <= d <= BackoffBase(attempt) + 1
    ensures 1 <= d <= 65
  {
    if IsAuthStatus(statusCode) then 60 else BackoffBase(attempt) + jitter
  }

  /** The exponential base never shrinks as attempts accumulate and is constant
      from the sixth attempt on. */
  lemma {:induction false} BackoffBaseMonotone(a: nat, b: nat)
    requires a <= b
    ensures BackoffBase(a) <= BackoffBase(b)
    ensures a >= 6 ==> BackoffBase(a) == BackoffBase(b) == 64
  {
    Pow2Monotone(Min(a, 6), Min(b, 6));
    if a >= 6 {
      assert Pow2(6) == 64;
    }
  }

  // ---------------------------------------------------------------------------
  // The record's transitions

  /** `syncPendingItems`' choice: the fetch keeps pending records, and the filter
      drops latched ones, in-progress and sent ones, ones whose retry time is
      still ahead, and ones in flight. */
  predicate Selected(item: OutboxItem, inFlight: set<Uuid>, now: int) {
    && item.status == Pending.RawValue()
    && !IsHardError(item)
    && !(StatusFromRaw(item.status) == Some(InProgress) || StatusFromRaw(item.status) == Some(Success))
    && !(item.nextAttemptAt.Some? && item.nextAttemptAt.value > now)
    && item.id !in inFlight
  }

  /** A record is picked exactly when it is pending, not latched, not in flight and
      due (no retry time, or one already reached). */
  lemma SelectedIff(item: OutboxItem, inFlight: set<Uuid>, now: int)
    ensures Selected(item, inFlight, now) <==>
              && StatusFromRaw(item.status) == Some(Pending)
              && !IsHardError(item)
              && item.id !in inFlight
              && (item.nextAttemptAt.None? || item.nextAttemptAt.value <= now)
  {
  }

  function SelectedIds(items: map<Uuid, OutboxItem>, inFlight: set<Uuid>, now: int): (ids: set<Uuid>)
    ensures ids <= items.Keys
  {
    set id | id in items && Selected(items[id], inFlight, now)
  }

  /** What the synchronous half of a send does to the record: in progress, this
      instant as the last attempt, the first-attempt stamp taken if timestamps
      are on and none was taken yet, and one more attempt counted. */
  function StartAttempt(item: OutboxItem, addTimestamp: bool, now: int): (r: OutboxItem)
    ensures StatusFromRaw(r.status) == Some(InProgress) && r.lastAttemptAt == Some(now)
    ensures r.attemptCount == item.attemptCount + 1
    ensures item.stampAt.Some? ==> r.stampAt == item.stampAt
    ensures item.stampAt.None? ==> r.stampAt == (if addTimestamp then Some(now) else None)
    ensures r.id == item.id && r.content == item.content && r.itemType == item.itemType && r.createdAt == item.createdAt
    ensures r.sentAt == item.sentAt && r.lastError == item.lastError
    ensures r.nextAttemptAt == item.nextAttemptAt && r.hardError == item.hardError
    ensures Consistent(r) && IsHardError(r) == IsHardError(item)
  {
    var marked := item.(status := InProgress.RawValue(), lastAttemptAt := Some(now));
    var stamped := if addTimestamp && marked.stampAt.None? then marked.(stampAt := marked.lastAttemptAt) else marked;
    stamped.(attemptCount := stamped.attemptCount + 1)
  }

  /** A failure that latches the record: 401 or 403 from the API. */
  predicate IsAuthFailure(result: SendResult) {
    result.Failed? && IsAuthStatus(StatusCodeOf(result.error))
  }

  /** What the completion does to the record. On success: sent now, "OK", no
      retry scheduled, not latched. On a 401/403: pending again, latched, no
      retry. On any other failure: pending again with a retry time after the
      backoff (no delay at all if the worker was released before the completion
      ran), the latch left as it was. */
  function FinishAttempt(item: OutboxItem, result: SendResult, now: int, jitter: int, workerAlive: bool): (r: OutboxItem)
    requires 0 <= jitter <= 1
    ensures Consistent(r)
    ensures r.attemptCount == item.attemptCount && r.stampAt == item.stampAt
    ensures r.id == item.id && r.content == item.content && r.itemType == item.itemType
    ensures r.createdAt == item.createdAt && r.lastAttemptAt == item.lastAttemptAt
    ensures StatusFromRaw(r.status) == Some(if result.Sent? then Success else Pending)
    ensures result.Sent? ==> r.sentAt == Some(now) && r.lastError == Some("OK") && r.nextAttemptAt.None? && r.hardError == Some(false)
    ensures result.Failed? ==> r.sentAt == item.sentAt && r.lastError == Some(LocalizedDescription(result.error))
    ensures IsAuthFailure(result) ==> r.hardError == Some(true) && r.nextAttemptAt.None?
    ensures result.Failed? && !IsAuthFailure(result) ==>
              r.hardError == item.hardError && r.nextAttemptAt.Some?
              && (workerAlive ==> now + BackoffBase(item.attemptCount) <= r.nextAttemptAt.value <= now + BackoffBase(item.attemptCount) + 1)
              && (!workerAlive ==> r.nextAttemptAt.value == now)
  {
    match result
    case Sent =>
      item.(status := Success.RawValue(), sentAt := Some(now), lastError := Some("OK"),
            nextAttemptAt := None, hardError := Some(false))
    case Failed(error) =>
      var failed := item.(status := Pending.RawValue(), lastError := Some(LocalizedDescription(error)));
      var code := StatusCodeOf(error);
      if IsAuthStatus(code) then failed.(hardError := Some(true), nextAttemptAt := None)
      else
        var delay := if workerAlive then BackoffDelay(item.attemptCount, code, jitter) else 0;
        failed.(nextAttemptAt := Some(now + delay))
  }

  /** The call a send makes: `send(prepared, location)` on the client, where the
      record's type picks `sendTodoBlock` for a to-do and `sendNoteBlock`
      otherwise, and no block to nest under is passed. */
  datatype SendCall = SendCall(api: RoamApi, itemType: ItemType, text: string, location: RoamLocation)

  /** The call made for a record just started: its decorated content, at the
      resolved location. */
  function CallFor(api: RoamApi, item: OutboxItem, addTimestamp: bool, defaultTag: Option<string>, location: RoamLocation, now: int, utcOffset: int): SendCall
  {
    SendCall(api, item.itemType, DecoratedContent(item, addTimestamp, defaultTag, now, utcOffset), location)
  }

  /** The request the client builds for a call on the local day `today`. */
  function RequestOf(call: SendCall, today: LocalDateTime): Request
    requires 1 <= today.month <= 12 && 1 <= today.day <= 31
  {
    if call.itemType == Todo then TodoRequest(call.api, call.text, call.location, today, None)
    else NoteRequest(call.api, call.text, call.location, today, None)
  }

  /** What the API reads out of the request for a call: one block holding the
      text (behind the TODO marker for a to-do), appended at the call's location
      (for the daily note, the page of the day the request is built), never
      nested under a block, POSTed to the graph's append endpoint. */
  lemma RequestOfReadsBack(call: SendCall, today: LocalDateTime)
    requires 1 <= today.month <= 12 && 1 <= today.day <= 31
    ensures var r := RequestOf(call, today);
            && r.url == AppendBlocksUrl(call.api.graphName) && r.httpMethod == "POST"
            && ReadNestUnder(r.body).None?
            && ReadTarget(r.body) == Some(TargetFor(call.location, FormatDateKey(today)))
            && ReadAppendData(r.body) == Some([(if call.itemType == Todo then TodoMarker else "") + call.text])
  {
    PayloadReadsBack(call.text, call.location, FormatDateKey(today), None);
    PayloadReadsBack(TodoMarker + call.text, call.location, FormatDateKey(today), None);
    assert "" + call.text == call.text;
  }

  /** The outbox after a pass has started the records in `ids`. */
  function StartAll(items: map<Uuid, OutboxItem>, ids: set<Uuid>, addTimestamp: bool, now: int): (r: map<Uuid, OutboxItem>)
    ensures r.Keys == items.Keys
  {
    map id | id in items :: if id in ids then StartAttempt(items[id], addTimestamp, now) else items[id]
  }

  // ---------------------------------------------------------------------------
  // Properties of the transitions

  /** A latched record is never picked again by a pass, at any instant and
      whatever is in flight: only a change made outside the worker can clear it. */
  lemma LatchedNeverSelected(item: OutboxItem, result: SendResult, now: int, jitter: int, workerAlive: bool, inFlight: set<Uuid>, later: int)
    requires 0 <= jitter <= 1
    requires IsAuthFailure(result)
    ensures !Selected(FinishAttempt(item, result, now, jitter, workerAlive), inFlight, later)
  {
  }

  /** After a failure that does not latch, a record that was not latched is
      picked again by a pass exactly once its retry time has come, provided it is
      no longer in flight. */
  lemma SoftFailureRetriedWhenDue(item: OutboxItem, result: SendResult, now: int, jitter: int, workerAlive: bool, inFlight: set<Uuid>, later: int)
    requires 0 <= jitter <= 1
    requires result.Failed? && !IsAuthFailure(result) && !IsHardError(item)
    requires item.id !in inFlight
    ensures var r := FinishAttempt(item, result, now, jitter, workerAlive);
            Selected(r, inFlight, later) <==> later >= r.nextAttemptAt.value
  {
  }

  /** A record left in progress (its completion never ran, say because the
      process ended) is never picked by a pass again. */
  lemma InProgressNeverSelected(item: OutboxItem, inFlight: set<Uuid>, now: int)
    requires StatusFromRaw(item.status) == Some(InProgress)
    ensures !Selected(item, inFlight, now)
  {
  }

  /** A second pass at the same instant, before any completion, starts nothing:
      every record the first pass started is in progress and in flight, and every
      other record is as the first pass found it. */
  lemma {:induction false} SecondPassStartsNothing(items: map<Uuid, OutboxItem>, inFlight: set<Uuid>, addTimestamp: bool, now: int)
    ensures var ids := SelectedIds(items, inFlight, now);
            SelectedIds(StartAll(items, ids, addTimestamp, now), inFlight + ids, now) == {}
  {
    var ids := SelectedIds(items, inFlight, now);
    var after := StartAll(items, ids, addTimestamp, now);
    forall id | id in after
      ensures !Selected(after[id], inFlight + ids, now)
    {
      if id in ids {
        assert StatusFromRaw(after[id].status) == Some(InProgress);
      } else {
        assert after[id] == items[id];
      }
    }
  }

  /** Over a whole send, the record's attempt count goes up by exactly one. */
  lemma AttemptCountedOnce(item: OutboxItem, addTimestamp: bool, start: int, result: SendResult, finish: int, jitter: int, workerAlive: bool)
    requires 0 <= jitter <= 1
    ensures FinishAttempt(StartAttempt(item, addTimestamp, start), result, finish, jitter, workerAlive).attemptCount
            == item.attemptCount + 1
  {
  }

  /** Retries keep the first attempt's stamp, so a timestamped capture is sent
      with the same text however often it is retried and whatever the outcome in
      between. */
  lemma {:induction false} StampStableAcrossRetries(
    item: OutboxItem, defaultTag: Option<string>, first: int, result: SendResult, finish: int, jitter: int, workerAlive: bool,
    retry: int, utcOffset: int)
    requires 0 <= jitter <= 1
    requires item.stampAt.None?
    ensures var started := StartAttempt(item, true, first);
            var retried := StartAttempt(FinishAttempt(started, result, finish, jitter, workerAlive), true, retry);
            DecoratedContent(retried, true, defaultTag, retry, utcOffset) == DecoratedContent(started, true, defaultTag, first, utcOffset)
  {
    var started := StartAttempt(item, true, first);
    var retried := StartAttempt(FinishAttempt(started, result, finish, jitter, workerAlive), true, retry);
    assert retried.stampAt == started.stampAt == Some(first);
    assert StampText(retried, retry, utcOffset) == StampText(started, first, utcOffset);
  }

  // ---------------------------------------------------------------------------
  // The worker

  class SyncWorker {
    const store: Store
    /** The device's time zone, seconds ahead of UTC. */
    const utcOffset: int

    /** `SyncWorker(modelContext:)` */
    constructor (store: Store, utcOffset: int)
      ensures this.store == store && this.utcOffset == utcOffset
    {
      this.store := store;
      this.utcOffset := utcOffset;
    }

    /** The synchronous half of the private `sync(_:using:profile:location:)`. A
        record already in flight is left alone; otherwise it is claimed, started
        and its request produced. */
    method Dispatch(id: Uuid, api: RoamApi, profile: UserProfile, location: RoamLocation, now: int) returns (sent: Option<SendCall>)
      requires store.Valid() && id in store.items
      modifies store
      ensures store.Valid() && store.profiles == old(store.profiles)
      ensures id in old(store.inFlight) ==>
                sent.None? && store.items == old(store.items) && store.inFlight == old(store.inFlight)
      ensures id !in old(store.inFlight) ==>
                var started := StartAttempt(old(store.items)[id], profile.addTimestamp, now);
                && store.items == old(store.items)[id := started]
                && store.inFlight == old(store.inFlight) + {id}
                && sent == Some(CallFor(api, started, profile.addTimestamp, profile.defaultTag, location, now, utcOffset))
    {
      if id in store.inFlight {
        return None;
      }
      ghost var items0, inFlight0 := store.items, store.inFlight;
      store.inFlight := store.inFlight + {id};

      var item := store.items[id];
      item := item.(status := InProgress.RawValue(), lastAttemptAt := Some(now));
      if profile.addTimestamp && item.stampAt.None? {
        item := item.(stampAt := item.lastAttemptAt);
      }
      store.items := store.items[id := item];

      var prepared := DecoratedContent(item, profile.addTimestamp, profile.defaultTag, now, utcOffset);
      ghost var stamped := item;

      item := item.(attemptCount := item.attemptCount + 1);
      store.items := store.items[id := item];

      assert item == StartAttempt(items0[id], profile.addTimestamp, now);
      assert store.items == items0[id := item];
      ClaimKeepsValid(items0, inFlight0, item);
      DecorationReadsContentAndStamp(stamped, item, profile.addTimestamp, profile.defaultTag, now, utcOffset);
      sent := Some(SendCall(api, item.itemType, prepared, location));
    }

    /** The completion block of a send: the outcome written to the record (if it
        is still stored) and the claim released. */
    method Complete(id: Uuid, result: SendResult, now: int, jitter: int, workerAlive: bool)
      requires store.Valid() && 0 <= jitter <= 1
      modifies store
      ensures store.Valid() && store.profiles == old(store.profiles)
      ensures store.inFlight == old(store.inFlight) - {id}
      ensures store.items == if id in old(store.items)
                             then old(store.items)[id := FinishAttempt(old(store.items)[id], result, now, jitter, workerAlive)]
                             else old(store.items)
    {
      ghost var items0, inFlight0 := store.items, store.inFlight;
      if id in store.items {
        var item := store.items[id];
        match result {
          case Sent =>
            item := item.(status := Success.RawValue(), sentAt := Some(now), lastError := Some("OK"),
                          nextAttemptAt := None, hardError := Some(false));
          case Failed(error) =>
            item := item.(status := Pending.RawValue(), lastError := Some(LocalizedDescription(error)));
            var statusCode := StatusCodeOf(error);
            if IsAuthStatus(statusCode) {
              item := item.(hardError := Some(true), nextAttemptAt := None);
            } else {
              var delay := if workerAlive then BackoffDelay(item.attemptCount, statusCode, jitter) else 0;
              item := item.(nextAttemptAt := Some(now + delay));
            }
        }
        assert item == FinishAttempt(items0[id], result, now, jitter, workerAlive);
        ReleaseKeepsValid(items0, inFlight0, item);
        store.items := store.items[id := item];
      }
      store.inFlight := store.inFlight - {id};
    }

    /** `syncPendingItems`: with a configured profile, every pending record that is
        due, not latched and not in flight is started; nothing else changes.
        Without one, nothing happens. */
    method SyncPendingItems(now: int) returns (sent: map<Uuid, SendCall>)
      requires store.Valid()
      modifies store
      ensures store.Valid() && store.profiles == old(store.profiles)
      ensures old(ConfiguredContext(store.profiles)).None? ==>
                sent == map[] && store.items == old(store.items) && store.inFlight == old(store.inFlight)
      ensures old(ConfiguredContext(store.profiles)).Some? ==>
                var (api, profile) := old(ConfiguredContext(store.profiles)).value;
                && sent.Keys == SelectedIds(old(store.items), old(store.inFlight), now)
                && store.items == StartAll(old(store.items), sent.Keys, profile.addTimestamp, now)
                && store.inFlight == old(store.inFlight) + sent.Keys
                && forall id | id in sent ::
                     sent[id] == CallFor(api, StartAttempt(old(store.items)[id], profile.addTimestamp, now),
                                         profile.addTimestamp, profile.defaultTag, old(ResolveLocation(profile)), now, utcOffset)
    {
      var ctx := ConfiguredContext(store.profiles);
      if ctx.None? {
        return map[];
      }
      var api, profile := ctx.value.0, ctx.value.1;
      var location := ResolveLocation(profile);
      var filtered := SelectedIds(store.items, store.inFlight, now);
      sent := StartEach(filtered, api, profile, location, now);
    }

    /** The loop of a pass: each record of `ids` started in turn. */
    method StartEach(ids: set<Uuid>, api: RoamApi, profile: UserProfile, location: RoamLocation, now: int) returns (sent: map<Uuid, SendCall>)
      requires store.Valid() && ids <= store.items.Keys && ids !! store.inFlight
      modifies store
      ensures store.Valid() && store.profiles == old(store.profiles)
      ensures sent.Keys == ids
      ensures store.items == StartAll(old(store.items), ids, profile.addTimestamp, now)
      ensures store.inFlight == old(store.inFlight) + ids
      ensures forall id | id in sent ::
                sent[id] == CallFor(api, StartAttempt(old(store.items)[id], profile.addTimestamp, now),
                                    profile.addTimestamp, profile.defaultTag, location, now, utcOffset)
    {
      ghost var items0, inFlight0 := store.items, store.inFlight;
      sent := map[];
      var rest := ids;
      while rest != {}
        invariant rest <= ids && sent.Keys !! rest && sent.Keys + rest == ids
        invariant store.Valid() && store.profiles == old(store.profiles)
        invariant store.items.Keys == items0.Keys
        invariant forall id | id in items0 ::
                    store.items[id] == if id in sent then StartAttempt(items0[id], profile.addTimestamp, now) else items0[id]
        invariant store.inFlight == inFlight0 + sent.Keys
        invariant forall id | id in sent ::
                    sent[id] == CallFor(api, StartAttempt(items0[id], profile.addTimestamp, now),
                                        profile.addTimestamp, profile.defaultTag, location, now, utcOffset)
        decreases rest
      {
        var id :| id in rest;
        var call := Dispatch(id, api, profile, location, now);
        sent := sent[id := call.value];
        rest := rest - {id};
      }
      assert store.items == StartAll(items0, ids, profile.addTimestamp, now);
    }

    /** `sync(_:)`, the single-record entry point used right after a capture:
        with a configured profile, a record that is neither sent nor in progress
        nor in flight is started. Unlike a pass it does not look at the latch or
        the retry time. */
    method Sync(id: Uuid, now: int) returns (sent: Option<SendCall>)
      requires store.Valid() && id in store.items
      modifies store
      ensures store.Valid() && store.profiles == old(store.profiles)
      ensures var ctx := old(ConfiguredContext(store.profiles));
              var status := StatusFromRaw(old(store.items)[id].status);
              if ctx.None? || status == Some(Success) || status == Some(InProgress) || id in old(store.inFlight) then
                sent.None? && store.items == old(store.items) && store.inFlight == old(store.inFlight)
              else
                var (api, profile) := ctx.value;
                var started := StartAttempt(old(store.items)[id], profile.addTimestamp, now);
                && store.items == old(store.items)[id := started]
                && store.inFlight == old(store.inFlight) + {id}
                && sent == Some(CallFor(api, started, profile.addTimestamp, profile.defaultTag,
                                        old(ResolveLocation(profile)), now, utcOffset))
    {
      var ctx := ConfiguredContext(store.profiles);
      if ctx.None? {
        return None;
      }
      var status := StatusFromRaw(store.items[id].status);
      if status == Some(Success) || status == Some(InProgress) {
        return None;
      }
      if id in store.inFlight {
        return None;
      }
      var location := ResolveLocation(ctx.value.1);
      sent := Dispatch(id, ctx.value.0, ctx.value.1, location, now);
    }
  }
}
