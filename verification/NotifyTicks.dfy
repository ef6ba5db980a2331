/**
 * What the periodic jobs put into the notification queue: the reminders of a club's upcoming
 * bookings, and the owners' daily summaries. A tick is one club's turn in one run of a job.
 */
module NotifyTicks {
  import opened Options
  import opened Schedule
  import N = Notifications

  const SUMMARY := "daily_summary"
  const MINUTE := 60 * 1000000
  const EARLY_MINUTES := 120

  /** A booking joined with its customer: the chat is missing without a customer or Telegram. */
  datatype Upcoming = Upcoming(id: int, confirmed: bool, startsAt: int, chat: Option<int>)

  /** The job's SELECT, on the database's clock. */
  predicate IsSelected(b: Upcoming, dbNow: int) {
    b.confirmed && b.chat.Some? && dbNow < b.startsAt <= dbNow + EARLY_MINUTES * MINUTE
  }

  function MinutesLeft(b: Upcoming, now: int): real {
    (b.startsAt - now) as real / MINUTE as real
  }

  /** The notice a booking asks for, on the worker's own clock. */
  function ReminderKey(club: int, b: Upcoming, dbNow: int, now: int): seq<N.Key> {
    if !IsSelected(b, dbNow) then []
    else match ReminderTemplate(MinutesLeft(b, now))
      case None => []
      case Some(template) => [N.Key(club, template, b.id, b.chat.value)]
  }

  function ReminderKeys(club: int, bookings: seq<Upcoming>, dbNow: int, now: int): seq<N.Key> {
    if bookings == [] then []
    else
      var last := |bookings| - 1;
      ReminderKeys(club, bookings[..last], dbNow, now) + ReminderKey(club, bookings[last], dbNow, now)
  }

  function SummaryKey(club: int, day: Date, chat: int): N.Key {
    N.Key(club, SUMMARY, DateKey(day), chat)
  }

  function SummaryKeys(club: int, chats: seq<int>, day: Date): seq<N.Key> {
    seq(|chats|, k requires 0 <= k < |chats| => SummaryKey(club, day, chats[k]))
  }

  function EnqueueAll(rows: N.Rows, keys: seq<N.Key>, now: int): N.Rows {
    if keys == [] then rows
    else N.Enqueue(EnqueueAll(rows, keys[..|keys| - 1], now), keys[|keys| - 1], now)
  }

  method BookingReminders(desk: N.Desk, club: int, bookings: seq<Upcoming>, dbNow: int, now: int) returns (queued: nat)
    modifies desk`rows
    ensures desk.rows == EnqueueAll(old(desk.rows), ReminderKeys(club, bookings, dbNow, now), dbNow)
    ensures |desk.rows| == |old(desk.rows)| + queued
  {
    queued := 0;
    for i := 0 to |bookings|
      invariant desk.rows == EnqueueAll(old(desk.rows), ReminderKeys(club, bookings[..i], dbNow, now), dbNow)
      invariant |desk.rows| == |old(desk.rows)| + queued
    {
      var b := bookings[i];
      assert bookings[..i + 1][..i] == bookings[..i];
      ghost var earlier := ReminderKeys(club, bookings[..i], dbNow, now);
      assert earlier + [] == earlier;
      if IsSelected(b, dbNow) {
        var template := ReminderTemplate(MinutesLeft(b, now));
        if template.Some? {
          var key := N.Key(club, template.value, b.id, b.chat.value);
          assert (earlier + [key])[..|earlier|] == earlier;
          var row := desk.QueueNotification(key, dbNow);
          if row.Some? { queued := queued + 1; }
        }
      }
    }
    assert bookings[..|bookings|] == bookings;
  }

  method DailySummary(desk: N.Desk, club: int, chats: seq<int>, local: Local, dbNow: int) returns (queued: nat)
    modifies desk`rows
    ensures desk.rows == match SummaryDate(local)
                         case None => old(desk.rows)
                         case Some(day) => EnqueueAll(old(desk.rows), SummaryKeys(club, chats, day), dbNow)
    ensures |desk.rows| == |old(desk.rows)| + queued
  {
    queued := 0;
    var day := SummaryDate(local);
    if day.None? { return; }
    ghost var keys := SummaryKeys(club, chats, day.value);
    for i := 0 to |chats|
      invariant desk.rows == EnqueueAll(old(desk.rows), keys[..i], dbNow)
      invariant |desk.rows| == |old(desk.rows)| + queued
    {
      assert keys[..i + 1][..i] == keys[..i];
      var row := desk.QueueNotification(SummaryKey(club, day.value, chats[i]), dbNow);
      if row.Some? { queued := queued + 1; }
    }
    assert keys[..|chats|] == keys;
  }

  // ── Histories of ticks ───────────────────────────────────────────────────

  datatype Tick =
    | Reminders(club: int, bookings: seq<Upcoming>, dbNow: int, now: int)
    | Summary(club: int, chats: seq<int>, local: Local, dbNow: int)
    | Sending(rows: N.Rows)   // the sender, which changes no key

  function Keys(t: Tick): seq<N.Key> {
    match t
    case Reminders(club, bookings, dbNow, now) => ReminderKeys(club, bookings, dbNow, now)
    case Summary(club, chats, local, _) =>
      (match SummaryDate(local)
       case None => []
       case Some(day) => SummaryKeys(club, chats, day))
    case Sending(_) => []
  }

  predicate SameKeys(a: N.Rows, b: N.Rows) {
    |a| == |b| && forall i :: 0 <= i < |a| ==> a[i].key == b[i].key
  }

  function Step(rows: N.Rows, t: Tick): N.Rows {
    if t.Sending? then t.rows else EnqueueAll(rows, Keys(t), t.dbNow)
  }

  ghost predicate IsHistory(history: seq<Tick>) {
    history == [] ||
    (var before, t := history[..|history| - 1], history[|history| - 1];
     IsHistory(before) && (t.Sending? ==> SameKeys(Replay(before), t.rows)))
  }

  function Replay(history: seq<Tick>): N.Rows {
    if history == [] then [] else Step(Replay(history[..|history| - 1]), history[|history| - 1])
  }

  /** What the sender does, interrupted or not, fits a Sending tick. */
  lemma RunIsSending(s: N.State, run: N.Event)
    requires run.Run? && N.Fits(s, run)
    ensures SameKeys(s.rows, N.Step(s, run).rows)
  {
    var ids, outcomes := run.batch[..run.recorded], run.outcomes[..run.recorded];
    forall i: nat | i < |s.rows|
      ensures |N.RecordAll(s, ids, outcomes).rows| == |s.rows|
          && N.RecordAll(s, ids, outcomes).rows[i].key == s.rows[i].key
    {
      N.KeysStay(s, ids, outcomes, i);
    }
    if s.rows == [] { assert ids == []; }
  }

  lemma {:induction false} EnqueuedAll(rows: N.Rows, keys: seq<N.Key>, now: int)
    requires N.KeysUnique(rows)
    ensures N.KeysUnique(EnqueueAll(rows, keys, now)) && rows <= EnqueueAll(rows, keys, now)
    ensures forall key :: N.HasKey(EnqueueAll(rows, keys, now), key) <==> N.HasKey(rows, key) || key in keys
  {
    if keys != [] {
      var last := |keys| - 1;
      EnqueuedAll(rows, keys[..last], now);
      var before := EnqueueAll(rows, keys[..last], now);
      var after := N.Enqueue(before, keys[last], now);
      forall key ensures N.HasKey(after, key) <==> N.HasKey(before, key) || key == keys[last] {
        if !N.HasKey(before, keys[last]) {
          assert after[|before|].key == keys[last];
          if N.HasKey(before, key) {
            var i :| 0 <= i < |before| && before[i].key == key;
            assert after[i].key == key;
          }
        }
      }
      forall key ensures key in keys <==> key in keys[..last] || key == keys[last] {}
    }
  }

  ghost predicate AskedIn(history: seq<Tick>, key: N.Key) {
    exists k :: 0 <= k < |history| && key in Keys(history[k])
  }

  lemma AskedByLastOrBefore(history: seq<Tick>, key: N.Key)
    requires history != []
    ensures AskedIn(history, key) <==>
            AskedIn(history[..|history| - 1], key) || key in Keys(history[|history| - 1])
  {
    var before := history[..|history| - 1];
    if k :| 0 <= k < |before| && key in Keys(before[k]) { assert key in Keys(history[k]); }
    if k :| 0 <= k < |history| && key in Keys(history[k]) {
      if k < |before| { assert key in Keys(before[k]); }
    }
  }

  /** One tick adds the notices it asks for and no others. */
  lemma StepAdds(rows: N.Rows, t: Tick, key: N.Key)
    requires N.KeysUnique(rows) && (t.Sending? ==> SameKeys(rows, t.rows))
    ensures N.KeysUnique(Step(rows, t))
    ensures N.HasKey(Step(rows, t), key) <==> N.HasKey(rows, key) || key in Keys(t)
  {
    if t.Sending? {
      SameKeysSameHas(rows, t.rows, key);
    } else {
      EnqueuedAll(rows, Keys(t), t.dbNow);
    }
  }

  /**
   * Exactly once: after any history of ticks and sending, the queue holds a notice if and only if
   * some tick asked for it, and then one row only, however many ticks asked.
   */
  lemma {:induction false} QueuedIffAsked(history: seq<Tick>, key: N.Key)
    requires IsHistory(history)
    ensures N.KeysUnique(Replay(history))
    ensures N.HasKey(Replay(history), key) <==> AskedIn(history, key)
  {
    if history != [] {
      var last := |history| - 1;
      QueuedIffAsked(history[..last], key);
      StepAdds(Replay(history[..last]), history[last], key);
      AskedByLastOrBefore(history, key);
    }
  }

  lemma SameKeysSameHas(a: N.Rows, b: N.Rows, key: N.Key)
    requires SameKeys(a, b)
    ensures N.HasKey(a, key) <==> N.HasKey(b, key)
  {
    if i :| 0 <= i < |a| && a[i].key == key { assert b[i].key == key; }
    if i :| 0 <= i < |b| && b[i].key == key { assert a[i].key == key; }
  }

  // ── Reminders ────────────────────────────────────────────────────────────

  /** A booking's start is fixed when it is made: prolonging it moves its end only. */
  ghost predicate StartsFixed(history: seq<Tick>, starts: int -> int) {
    forall k, j :: 0 <= k < |history| && history[k].Reminders? && 0 <= j < |history[k].bookings| ==>
      history[k].bookings[j].startsAt == starts(history[k].bookings[j].id)
  }

  ghost predicate ClockMonotone(history: seq<Tick>) {
    forall k, m :: 0 <= k < m < |history| && SameClub(history[k], history[m]) ==> history[k].now <= history[m].now
  }

  predicate SameClub(a: Tick, b: Tick) {
    a.Reminders? && b.Reminders? && a.club == b.club
  }

  lemma TemplatesDiffer()
    ensures SOON != EARLY && SOON != SUMMARY && EARLY != SUMMARY
  {
    assert |SOON| != |EARLY| && |SOON| != |SUMMARY| && |EARLY| != |SUMMARY|;
  }

  lemma {:induction false} KeyOfBooking(club: int, bookings: seq<Upcoming>, dbNow: int, now: int, key: N.Key)
    requires key in ReminderKeys(club, bookings, dbNow, now)
    ensures key.clubId == club && key.template != SUMMARY
    ensures exists j :: 0 <= j < |bookings| && bookings[j].id == key.entityId
                        && ReminderTemplate(MinutesLeft(bookings[j], now)) == Some(key.template)
  {
    var last := |bookings| - 1;
    TemplatesDiffer();
    if key in ReminderKeys(club, bookings[..last], dbNow, now) {
      KeyOfBooking(club, bookings[..last], dbNow, now, key);
      var j :| 0 <= j < last && bookings[..last][j].id == key.entityId
               && ReminderTemplate(MinutesLeft(bookings[..last][j], now)) == Some(key.template);
      assert bookings[j] == bookings[..last][j];
    } else {
      assert bookings[last].id == key.entityId;
    }
  }

  /** A tick asks for the late reminder only in the last twenty minutes before the start, for the
      early one only before them. */
  lemma StageFitsClock(history: seq<Tick>, starts: int -> int, k: nat, key: N.Key)
    requires StartsFixed(history, starts) && k < |history| && key in Keys(history[k])
    requires key.template == SOON || key.template == EARLY
    ensures history[k].Reminders? && history[k].club == key.clubId
    ensures key.template == SOON <==> starts(key.entityId) - history[k].now <= 20 * MINUTE
  {
    var t := history[k];
    TemplatesDiffer();
    KeyOfBooking(t.club, t.bookings, t.dbNow, t.now, key);
    var j :| 0 <= j < |t.bookings| && t.bookings[j].id == key.entityId
             && ReminderTemplate(MinutesLeft(t.bookings[j], t.now)) == Some(key.template);
    var left := t.bookings[j].startsAt - t.now;
    assert left as real / MINUTE as real <= 20.0 <==> left <= 20 * MINUTE;
  }

  /**
   * Over any schedule of ticks whose clock does not run back, a booking's two-hour reminder is
   * never queued after its twenty-minute one in the same chat.
   */
  lemma {:induction false} EarlyNeverAfterSoon(history: seq<Tick>, starts: int -> int, i: nat, j: nat)
    requires IsHistory(history) && StartsFixed(history, starts) && ClockMonotone(history)
    requires i < |Replay(history)| && j < |Replay(history)|
    requires var early, soon := Replay(history)[i].key, Replay(history)[j].key;
             && early.template == EARLY && soon.template == SOON
             && early.clubId == soon.clubId && early.entityId == soon.entityId && early.chatId == soon.chatId
    ensures i < j
  {
    var last := |history| - 1;
    var before, t := history[..last], history[last];
    var rows, after := Replay(before), Replay(history);
    QueuedIffAsked(before, Replay(history)[j].key);
    if t.Sending? {
      EarlyNeverAfterSoon(before, starts, i, j);
    } else {
      EnqueuedAll(rows, Keys(t), t.dbNow);
      if i < |rows| && j < |rows| {
        EarlyNeverAfterSoon(before, starts, i, j);
      } else if i >= |rows| {
        NewRowsAreAsked(rows, t, i);
        StageFitsClock(history, starts, last, after[i].key);
        if j < |rows| {
          assert N.HasKey(rows, after[j].key);
          var k :| 0 <= k < |before| && after[j].key in Keys(before[k]);
          assert history[k] == before[k];
          StageFitsClock(history, starts, k, after[j].key);
        } else {
          NewRowsAreAsked(rows, t, j);
          StageFitsClock(history, starts, last, after[j].key);
        }
        assert false;
      }
    }
  }

  lemma NewRowsAreAsked(rows: N.Rows, t: Tick, i: nat)
    requires N.KeysUnique(rows) && !t.Sending? && |rows| <= i < |Step(rows, t)|
    ensures Step(rows, t)[i].key in Keys(t)
  {
    var after := Step(rows, t);
    EnqueuedAll(rows, Keys(t), t.dbNow);
    assert N.HasKey(after, after[i].key);
    forall j | 0 <= j < |rows| ensures rows[j].key != after[i].key {
      assert after[j] == rows[j];
    }
  }

  /** A booking's reminder in plain minutes: the early one from two hours to twenty minutes before
      the start, the late one in the last twenty minutes, both exclusive of their later end. */
  predicate InStage(template: string, left: int) {
    if template == "booking_reminder_2h" then 20 * 60_000_000 < left <= 120 * 60_000_000
    else template == "booking_reminder_20m" && 0 < left <= 20 * 60_000_000
  }

  lemma StageIsTemplate(b: Upcoming, now: int, template: string)
    ensures ReminderTemplate(MinutesLeft(b, now)) == Some(template) <==> InStage(template, b.startsAt - now)
  {
    TemplatesDiffer();
    var left := b.startsAt - now;
    var minutes := left as real / MINUTE as real;
    assert minutes * MINUTE as real == left as real;
    assert minutes <= 0.0 <==> left <= 0;
    assert minutes <= 20.0 <==> left <= 20 * MINUTE;
    assert minutes <= 120.0 <==> left <= 120 * MINUTE;
  }

  /** A tick asks for a reminder if and only if a confirmed booking with that chat is in the
      reminder's stage, and the database agrees that it starts within two hours. */
  lemma {:induction false} ReminderAskedIff(club: int, bookings: seq<Upcoming>, dbNow: int, now: int, key: N.Key)
    ensures key in ReminderKeys(club, bookings, dbNow, now) <==>
            key.clubId == club && exists j :: 0 <= j < |bookings| && AsksReminder(bookings[j], dbNow, now, key)
  {
    if bookings != [] {
      var last := |bookings| - 1;
      var front, b := bookings[..last], bookings[last];
      ReminderAskedIff(club, front, dbNow, now, key);
      StageIsTemplate(b, now, key.template);
      assert key in ReminderKey(club, b, dbNow, now) <==> key.clubId == club && AsksReminder(b, dbNow, now, key);
      if j :| 0 <= j < |front| && AsksReminder(front[j], dbNow, now, key) {
        assert AsksReminder(bookings[j], dbNow, now, key);
      }
      if j :| 0 <= j < |bookings| && AsksReminder(bookings[j], dbNow, now, key) {
        if j < last { assert AsksReminder(front[j], dbNow, now, key); }
      }
    }
  }

  predicate AsksReminder(b: Upcoming, dbNow: int, now: int, key: N.Key) {
    && b.id == key.entityId && b.chat == Some(key.chatId) && b.confirmed
    && dbNow < b.startsAt <= dbNow + 120 * 60_000_000
    && InStage(key.template, b.startsAt - now)
  }

  // ── Daily summaries ──────────────────────────────────────────────────────

  /** A tick in the ninth hour of the local day `date`, with the chat among the owners'. */
  predicate AsksSummary(t: Tick, club: int, chat: int, date: Date) {
    t.Summary? && t.club == club && chat in t.chats && t.local == Local(date, 9)
  }

  /**
   * Per club, owner chat and local day: one summary, about the day before, if any tick fell into
   * that day's ninth hour, and none otherwise; further ticks of the hour add nothing.
   */
  lemma OneSummaryPerLocalDay(history: seq<Tick>, club: int, chat: int, date: Date)
    requires IsHistory(history) && IsDate(date) && PrevDay(date).Some?
    requires forall k :: 0 <= k < |history| && history[k].Summary? ==> IsDate(history[k].local.date)
    ensures var key := N.Key(club, "daily_summary", DateKey(PrevDay(date).value), chat);
            && (N.HasKey(Replay(history), key) <==>
                exists k :: 0 <= k < |history| && AsksSummary(history[k], club, chat, date))
            && forall i, j :: 0 <= i < j < |Replay(history)| && Replay(history)[i].key == key ==>
                Replay(history)[j].key != key
  {
    var key := SummaryKey(club, PrevDay(date).value, chat);
    QueuedIffAsked(history, key);
    forall k | 0 <= k < |history| ensures key in Keys(history[k]) <==> AsksSummary(history[k], club, chat, date) {
      AskedBy(history[k], club, chat, date);
    }
    if k :| 0 <= k < |history| && key in Keys(history[k]) { assert AsksSummary(history[k], club, chat, date); }
    if k :| 0 <= k < |history| && AsksSummary(history[k], club, chat, date) { assert key in Keys(history[k]); }
  }

  lemma AskedBy(t: Tick, club: int, chat: int, date: Date)
    requires IsDate(date) && PrevDay(date).Some? && (t.Summary? ==> IsDate(t.local.date))
    ensures SummaryKey(club, PrevDay(date).value, chat) in Keys(t) <==> AsksSummary(t, club, chat, date)
  {
    var key := SummaryKey(club, PrevDay(date).value, chat);
    match t {
      case Reminders(c, bookings, dbNow, now) =>
        if key in Keys(t) {
          KeyOfBooking(c, bookings, dbNow, now, key);
        }
      case Summary(c, chats, local, _) =>
        if SummaryDate(local).Some? {
          OneKeyPerLocalDay(local, Local(date, SUMMARY_HOUR));
          var keys := SummaryKeys(c, chats, SummaryDate(local).value);
          if c == club && local.date == date && chat in chats {
            var n :| 0 <= n < |chats| && chats[n] == chat;
            assert keys[n] == key;
          }
        }
      case Sending(_) =>
    }
  }
}
