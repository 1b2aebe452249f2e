/** The chat-facing half of the bot (app/telegram_bot.py): the button
    callbacks that snooze or confirm an occurrence, the job that restores the
    original buttons, the week and day windows of the listing commands, and
    the listing reply. Every callback is a read-modify-write of one record of
    the store shared with the notifier. */
module TelegramBot {

  import opened Common
  import opened Strings
  import opened Database
  import opened Delivery
  import opened Utils
  import opened Notifier
  import GoogleCalendar
  import opened Config

  const STARTING_ALERT: string := "Событие уже начинается"
  const NOT_ENOUGH_VALUES: string := "not enough values to unpack"
  const TOO_MANY_VALUES: string := "too many values to unpack"
  const BAD_INT: string := "invalid literal for int() with base 10"

  // ---------------------------------------------------------------------
  // Offering reminder delays

  /** `max(int((start - now).total_seconds() // 60), 0)`: whole minutes
      left before the start, never negative. */
  function MinutesLeft(start: Time, now: Time): (m: nat)
    ensures start - now >= MINUTE ==> m * MINUTE <= start - now < (m + 1) * MINUTE
    ensures start - now < MINUTE ==> m == 0
  {
    var m := (start - now) / MINUTE;
    if m > 0 then m else 0
  }

  /** `[m for m in intervals if m == 0 or m <= minutes_left]`. */
  function ValidIntervals(intervals: seq<int>, minutesLeft: int): (valid: seq<int>)
    ensures |valid| <= |intervals|
    ensures forall k | 0 <= k < |valid| :: Offered(intervals, minutesLeft, valid[k])
    decreases |intervals|
  {
    if intervals == [] then []
    else
      var m := intervals[0];
      (if m == 0 || m <= minutesLeft then [m] else []) + ValidIntervals(intervals[1..], minutesLeft)
  }

  /** The delays offered are exactly the configured ones that are 0 or fit
      in the time left; none is offered only when no delay is 0 and every
      delay exceeds the time left. */
  lemma {:induction false} ValidIntervalsSpec(intervals: seq<int>, minutesLeft: int)
    ensures forall m :: m in ValidIntervals(intervals, minutesLeft) <==> m in intervals && (m == 0 || m <= minutesLeft)
    ensures ValidIntervals(intervals, minutesLeft) == [] <==>
              0 !in intervals && forall k | 0 <= k < |intervals| :: intervals[k] > minutesLeft
    decreases |intervals|
  {
    if intervals != [] {
      ValidIntervalsSpec(intervals[1..], minutesLeft);
      assert intervals == [intervals[0]] + intervals[1..];
      forall k | 1 <= k < |intervals| ensures intervals[k] == intervals[1..][k - 1] { }
    }
  }

  /** Filtering keeps the configured order: filtering two runs one after the
      other is filtering each. */
  lemma {:induction false} ValidIntervalsAppend(a: seq<int>, b: seq<int>, minutesLeft: int)
    ensures ValidIntervals(a + b, minutesLeft) == ValidIntervals(a, minutesLeft) + ValidIntervals(b, minutesLeft)
    decreases |a|
  {
    if a == [] {
      assert a + b == b;
    } else {
      assert (a + b)[0] == a[0];
      assert (a + b)[1..] == a[1..] + b;
      ValidIntervalsAppend(a[1..], b, minutesLeft);
    }
  }

  /** With the default delays, what is offered for the minutes left. */
  lemma DefaultIntervalsOffered(minutesLeft: int)
    requires 5 <= minutesLeft < 10
    ensures ValidIntervals(DEFAULT_NOTIFY_INTERVALS, minutesLeft) == [5, 0]
  {
    assert DEFAULT_NOTIFY_INTERVALS[1..][1..][1..][1..] == [5, 0];
  }

  /** A delay offered at `now` reminds no earlier than `now`, except "at the
      moment of the event", which reminds at the start. */
  lemma OfferedDelayIsAhead(intervals: seq<int>, start: Time, now: Time, m: int)
    requires m in ValidIntervals(intervals, MinutesLeft(start, now))
    ensures m > 0 ==> now <= start - m * MINUTE
  {
    var left := MinutesLeft(start, now);
    ValidIntervalsSpec(intervals, left);
    if m > 0 {
      assert m <= left;
      assert left * MINUTE <= start - now;
      assert m * MINUTE <= left * MINUTE;
    }
  }

  // ---------------------------------------------------------------------
  // Callback data

  predicate HasPrefix(s: string, p: string) {
    |p| <= |s| && s[..|p|] == p
  }

  /** Callback data of a delay button: `notify_set:{hash}:{m}`. */
  function NotifySetData(eventId: string, minutes: int): string {
    NOTIFY_SET_ACTION + ":" + eventId + ":" + IntToString(minutes)
  }

  /** The button for a delay of `minutes`. */
  function IntervalButton(eventId: string, minutes: int): Button {
    Button(IntervalLabel(minutes), NotifySetData(eventId, minutes))
  }

  /** The delay buttons, one per row, in the order given. */
  function IntervalKeyboard(eventId: string, valid: seq<int>): (k: Markup)
    ensures k.Keyboard? && |k.buttons| == |valid|
    ensures forall j | 0 <= j < |valid| :: k.buttons[j] == IntervalButton(eventId, valid[j])
  {
    Keyboard(seq(|valid|, j requires 0 <= j < |valid| => IntervalButton(eventId, valid[j])))
  }

  /** `query.data.split(":")[1]`. */
  function CallbackHash(data: string): (r: Result<string>)
    ensures r.Success? <==> ':' in data
    ensures r.Success? ==> ':' !in r.value
    ensures r.Failure? ==> r.error == IndexError
  {
    var parts := Split(data, ':');
    SplitSeparated(data, ':');
    if |parts| >= 2 then Success(parts[1]) else Failure(IndexError)
  }

  /** `_, ev_hash, minutes_str = query.data.split(":")` and `int(minutes_str)`. */
  function ParseNotifySet(data: string): (r: Result<(string, int)>)
    ensures r.Failure? ==> r.error.ValueError?
    ensures r.Success? ==> ':' !in r.value.0 && CallbackHash(data) == Success(r.value.0)
  {
    var parts := Split(data, ':');
    SplitSeparated(data, ':');
    if |parts| < 3 then Failure(ValueError(NOT_ENOUGH_VALUES))
    else if |parts| > 3 then Failure(ValueError(TOO_MANY_VALUES))
    else
      match ParseInt(parts[2])
      case None => Failure(ValueError(BAD_INT))
      case Some(m) => Success((parts[1], m))
  }

  lemma NoColonInNumber(m: int)
    ensures ':' !in IntToString(m)
  {
    var s := IntToString(m);
    forall k | 0 <= k < |s| ensures s[k] != ':' { }
  }

  /** A delay button's data reads back as the hash and delay it was built
      from, for any hash without a colon. */
  lemma NotifySetRoundTrip(eventId: string, minutes: int)
    requires ':' !in eventId
    ensures ParseNotifySet(NotifySetData(eventId, minutes)) == Success((eventId, minutes))
  {
    var parts := [NOTIFY_SET_ACTION, eventId, IntToString(minutes)];
    NoColonInNumber(minutes);
    assert Join(parts[2..], ':') == IntToString(minutes);
    assert Join(parts[1..], ':') == eventId + [':'] + IntToString(minutes);
    assert Join(parts, ':') == NotifySetData(eventId, minutes);
    SplitJoin(parts, ':');
    IntStringRoundTrip(minutes);
  }

  /** The two default buttons carry data from which the handlers read the
      hash back. */
  lemma ActionDataRoundTrip(eventId: string)
    requires ':' !in eventId
    ensures CallbackHash(NotifyData(eventId)) == Success(eventId)
    ensures CallbackHash(ConfirmData(eventId)) == Success(eventId)
  {
    SplitJoin([NOTIFY_ACTION, eventId], ':');
    assert Join([NOTIFY_ACTION, eventId], ':') == NotifyData(eventId);
    SplitJoin([CONFIRM_ACTION, eventId], ':');
    assert Join([CONFIRM_ACTION, eventId], ':') == ConfirmData(eventId);
  }

  /** In particular for the hashes the calendar client computes. */
  lemma EventHashButtonsRoundTrip(md5: string -> GoogleCalendar.Digest, key: string, minutes: int)
    ensures var h := GoogleCalendar.EventHash(md5, key);
            && ParseNotifySet(NotifySetData(h, minutes)) == Success((h, minutes))
            && CallbackHash(NotifyData(h)) == Success(h)
            && CallbackHash(ConfirmData(h)) == Success(h)
  {
    var h := GoogleCalendar.EventHash(md5, key);
    NotifySetRoundTrip(h, minutes);
    ActionDataRoundTrip(h);
  }

  /** Data that the `^notify:` or `^confirm:` pattern routed to a handler
      always has a second field. */
  lemma RoutedDataHasHash(data: string, action: string)
    requires ':' !in action && HasPrefix(data, action + ":")
    ensures CallbackHash(data).Success?
  {
    var rest := data[|action| + 1..];
    assert data == action + [':'] + rest;
    SplitAfterPiece(action, ':', rest);
  }

  // ---------------------------------------------------------------------
  // What the callbacks do to a record

  /** notify_set_callback's update: remind `minutes` before the start, and
      wait. */
  function Snoozed(rec: SeenEvent, minutes: int): (r: SeenEvent)
    ensures r.state == EventState.WAITING && r.nextNotifyAt == Some(rec.start - minutes * MINUTE)
    ensures r.eventId == rec.eventId && r.start == rec.start && r.messageId == rec.messageId
    ensures r.messageTemplate == rec.messageTemplate
  {
    rec.(nextNotifyAt := Some(rec.start - minutes * MINUTE), state := EventState.WAITING)
  }

  /** confirm_callback's update. */
  function Confirmed(rec: SeenEvent): (r: SeenEvent)
    ensures r.state == EventState.CONFIRMED
    ensures r.eventId == rec.eventId && r.start == rec.start && r.messageId == rec.messageId
    ensures r.messageTemplate == rec.messageTemplate && r.nextNotifyAt == rec.nextNotifyAt
  {
    rec.(state := EventState.CONFIRMED)
  }

  /** Confirming twice is confirming once. */
  lemma ConfirmIdempotent(rec: SeenEvent)
    ensures Confirmed(Confirmed(rec)) == Confirmed(rec)
  {
  }

  /** Once a snooze is due and the event has not started, the next tick
      sends the follow-up with buttons and keeps the record waiting. */
  lemma SnoozeReminds(now: Time, ev: Event, st: TickState, showTime: Time -> string, minutes: int)
    requires Trackable(ev) && ev.evHash.value in st.rows
    requires st.rows[ev.evHash.value].start == ev.start.value
    requires ev.start.value - minutes * MINUTE <= now < ev.start.value
    ensures var h := ev.evHash.value;
            var rec := Snoozed(st.rows[h], minutes);
            var r := Process(now, ev, st.(rows := st.rows[h := rec]), showTime);
            && r.log == st.log + [Notification(rec.eventId, EventStatus.SOON, rec.messageTemplate, ActionKeyboard(rec.eventId))]
            && r.rows[h].state == EventState.WAITING && r.rows[h].nextNotifyAt.None?
  {
    var h := ev.evHash.value;
    ProcessFollowsUp(now, ev, st.(rows := st.rows[h := Snoozed(st.rows[h], minutes)]), showTime);
  }

  /** Before it is due, a snooze keeps the occurrence quiet. */
  lemma SnoozeWaits(now: Time, ev: Event, st: TickState, showTime: Time -> string, minutes: int)
    requires Trackable(ev) && ev.evHash.value in st.rows
    requires st.rows[ev.evHash.value].start == ev.start.value
    requires now < ev.start.value - minutes * MINUTE && now < ev.start.value
    ensures var h := ev.evHash.value;
            var st1 := st.(rows := st.rows[h := Snoozed(st.rows[h], minutes)]);
            Process(now, ev, st1, showTime) == st1
  {
    var h := ev.evHash.value;
    ProcessQuiet(now, ev, st.(rows := st.rows[h := Snoozed(st.rows[h], minutes)]), showTime);
  }

  /** After a confirmation no tick sends anything about the occurrence. */
  lemma ConfirmSilences(now: Time, evs: seq<Event>, st: TickState, showTime: Time -> string, h: string)
    requires KeyedById(st.rows) && h in st.rows
    ensures var st1 := st.(rows := st.rows[h := Confirmed(st.rows[h])]);
            NoticesFor(RunEvents(now, evs, st1, showTime).log, h) == NoticesFor(st.log, h)
  {
    RunClosedQuiet(now, evs, st.(rows := st.rows[h := Confirmed(st.rows[h])]), showTime, h);
  }

  /** notify_set_callback has no state guard: a delay chosen on an
      occurrence that has already started reopens it, and the next tick sends
      the "started" message a second time. */
  lemma SnoozeReopensStarted(now: Time, ev: Event, st: TickState, showTime: Time -> string, minutes: int)
    requires Trackable(ev) && ev.evHash.value in st.rows
    requires st.rows[ev.evHash.value].state == EventState.STARTED
    requires ev.start.value <= now
    ensures Process(now, ev, st, showTime) == st
    ensures var h := ev.evHash.value;
            var rec := Snoozed(st.rows[h], minutes);
            Process(now, ev, st.(rows := st.rows[h := rec]), showTime).log
              == st.log + [Notification(rec.eventId, EventStatus.STARTED, rec.messageTemplate, NoMarkup)]
  {
    ProcessQuiet(now, ev, st, showTime);
  }

  // ---------------------------------------------------------------------
  // The listing commands

  /** `date.weekday()` of a day number: 1970-01-01 was a Thursday, Monday is 0. */
  function Weekday(day: int): (w: int)
    ensures 0 <= w < 7
  {
    (day + 3) % 7
  }

  /** The weekday is anchored on the epoch, a Thursday, and moves on by one,
      modulo seven, from each day to the next. */
  lemma WeekdayCalendar(day: int)
    ensures Weekday(0) == 3
    ensures Weekday(day + 1) == (Weekday(day) + 1) % 7
    ensures Weekday(day + 7) == Weekday(day)
  {
  }

  /** _show_week's first day: the Monday of the current week, moved on by
      `weekOffset` weeks. */
  function WeekFirstDay(today: int, weekOffset: int): (d: int)
    ensures 0 <= today + 7 * weekOffset - d < 7
  {
    today - Weekday(today) + 7 * weekOffset
  }

  /** The first day is a Monday; the current week's starts at most six days
      before today, and each offset moves it by exactly seven days, so today
      lies in the window of offset 0. */
  lemma WeekFirstDaySpec(today: int, weekOffset: int)
    ensures Weekday(WeekFirstDay(today, weekOffset)) == 0
    ensures 0 <= today - WeekFirstDay(today, 0) < 7
    ensures WeekFirstDay(today, weekOffset) == WeekFirstDay(today, 0) + 7 * weekOffset
  {
    var d := WeekFirstDay(today, weekOffset);
    var w := Weekday(today);
    assert d + 3 == (today + 3) - w + 7 * weekOffset;
    assert (today + 3) - w == 7 * ((today + 3) / 7);
    assert d + 3 == 7 * ((today + 3) / 7 + weekOffset);
  }

  /** The window the /week and /nextweek commands list, and the window
      of /today and /tomorrow. */
  function WeekWindow(now: Time, tzOffset: int, weekOffset: int): (Time, Time) {
    GoogleCalendar.WeekRange(WeekFirstDay(LocalDay(now, tzOffset), weekOffset), tzOffset)
  }

  function DayWindow(now: Time, tzOffset: int, daysOffset: int): (Time, Time) {
    GoogleCalendar.RangeForDay(LocalDay(now, tzOffset) + daysOffset, tzOffset)
  }

  /** /week lists a window that contains the moment it was asked for. */
  lemma WeekWindowHoldsNow(now: Time, tzOffset: int)
    ensures WeekWindow(now, tzOffset, 0).0 <= now < WeekWindow(now, tzOffset, 0).1
  {
    var today := LocalDay(now, tzOffset);
    WeekFirstDaySpec(today, 0);
    GoogleCalendar.WeekRangeSpec(WeekFirstDay(today, 0), tzOffset);
  }

  /** /today lists a window that contains the moment it was asked for. */
  lemma DayWindowHoldsNow(now: Time, tzOffset: int)
    ensures DayWindow(now, tzOffset, 0).0 <= now <= DayWindow(now, tzOffset, 0).1
  {
    GoogleCalendar.RangeForDaySpec(LocalDay(now, tzOffset), tzOffset);
  }

  /** The header line of a calendar's group in a listing. */
  function GroupHeader(name: string): string {
    "\n👤 <u><b>" + name + "</b></u>"
  }

  function ListHeader(period: string): string {
    "📅 <b>События <u>" + period + "</u></b>\n"
  }

  function NoEventsText(period: string): string {
    "Нет событий " + period + "."
  }

  /** The rendered lines of one calendar's events. */
  function EventLines(evs: seq<Event>, showTime: Time -> string): (lines: seq<string>)
    ensures |lines| == |evs|
    ensures forall k | 0 <= k < |evs| :: lines[k] == FormatEvent(evs[k], DEFAULT_NAME_WIDTH, showTime)
  {
    seq(|evs|, k requires 0 <= k < |evs| => FormatEvent(evs[k], DEFAULT_NAME_WIDTH, showTime))
  }

  /** The lines of a listing: each calendar that has events contributes its
      header and its events, in the order of the calendars; there are none
      exactly when every calendar is empty. */
  function ListLines(groups: seq<(string, seq<Event>)>, showTime: Time -> string): (lines: seq<string>)
    ensures groups != [] && groups[0].1 != [] ==> |lines| > |groups[0].1| && lines[0] == GroupHeader(groups[0].0)
    ensures lines == [] <==> forall k | 0 <= k < |groups| :: groups[k].1 == []
    decreases |groups|
  {
    if groups == [] then []
    else
      var (name, evs) := groups[0];
      assert forall k | 1 <= k < |groups| :: groups[k] == groups[1..][k - 1];
      (if evs != [] then [GroupHeader(name)] + EventLines(evs, showTime) else []) + ListLines(groups[1..], showTime)
  }

  lemma {:induction false} ListLinesAppend(a: seq<(string, seq<Event>)>, b: seq<(string, seq<Event>)>, showTime: Time -> string)
    ensures ListLines(a + b, showTime) == ListLines(a, showTime) + ListLines(b, showTime)
    decreases |a|
  {
    if a == [] {
      assert a + b == b;
    } else {
      assert (a + b)[0] == a[0];
      assert (a + b)[1..] == a[1..] + b;
      ListLinesAppend(a[1..], b, showTime);
    }
  }

  lemma ListLinesSnoc(groups: seq<(string, seq<Event>)>, i: nat, showTime: Time -> string)
    requires i < |groups|
    ensures ListLines(groups[..i + 1], showTime) == ListLines(groups[..i], showTime)
              + (if groups[i].1 != [] then [GroupHeader(groups[i].0)] + EventLines(groups[i].1, showTime) else [])
  {
    ListLinesAppend(groups[..i], [groups[i]], showTime);
    assert groups[..i + 1] == groups[..i] + [groups[i]];
    assert [groups[i]][1..] == [];
  }

  /** A calendar with no events leaves no trace in the listing. */
  lemma EmptyGroupOmitted(a: seq<(string, seq<Event>)>, name: string, b: seq<(string, seq<Event>)>, showTime: Time -> string)
    ensures ListLines(a + [(name, [])] + b, showTime) == ListLines(a + b, showTime)
  {
    var none: seq<Event> := [];
    var g := [(name, none)];
    assert g[1..] == [];
    assert ListLines(g, showTime) == [];
    ListLinesAppend(a + g, b, showTime);
    ListLinesAppend(a, g, showTime);
    ListLinesAppend(a, b, showTime);
  }

  /** The text of a listing reply. */
  function ListingText(period: string, lines: seq<string>): (t: string)
    ensures t == NoEventsText(period) <==> lines == []
    ensures lines != [] ==> |ListHeader(period)| <= |t| && t[..|ListHeader(period)|] == ListHeader(period)
  {
    if lines != [] then
      var t := ListHeader(period) + Join(lines, '\n');
      assert t[0] == '📅';
      assert NoEventsText(period)[0] == 'Н';
      t
    else NoEventsText(period)
  }

  /** The "no events" reply is given exactly when every calendar is empty. */
  lemma NoEventsReply(period: string, groups: seq<(string, seq<Event>)>, showTime: Time -> string)
    ensures ListingText(period, ListLines(groups, showTime)) == NoEventsText(period)
            <==> forall k | 0 <= k < |groups| :: groups[k].1 == []
  {
  }

  /** A button press as the handlers see it: the callback data and the id
      of the message it came from (None when the update has none). */
  datatype CallbackQuery = CallbackQuery(data: string, message: Option<int>)

  /** What notify_callback sends, once the query has a message. */
  function NotifyOps(rows: map<string, SeenEvent>, eventId: string, messageId: int, now: Time, intervals: seq<int>): (ops: seq<Outbound>)
    ensures 1 <= |ops| <= 2 && ops[0] == Answer(None)
    ensures |ops| == 1 <==> eventId !in rows
  {
    if eventId !in rows then [Answer(None)]
    else
      var valid := ValidIntervals(intervals, MinutesLeft(rows[eventId].start, now));
      if valid == [] then [Answer(None), Answer(Some(STARTING_ALERT))]
      else [Answer(None), EditMarkup(Some(messageId), IntervalKeyboard(eventId, valid))]
  }

  /** Whether a delay of `m` minutes is offered with `left` minutes to go. */
  predicate Offered(intervals: seq<int>, left: int, m: int) {
    m in intervals && (m == 0 || m <= left)
  }

  /** The delay keyboard has a button for every delay offered and for
      nothing else. */
  lemma IntervalKeyboardOffers(eventId: string, intervals: seq<int>, left: int)
    ensures var kb := IntervalKeyboard(eventId, ValidIntervals(intervals, left));
            && (forall b | b in kb.buttons ::
                  b.caption.IntervalLabel? && Offered(intervals, left, b.caption.minutes)
                  && b == IntervalButton(eventId, b.caption.minutes))
            && (forall m | Offered(intervals, left, m) :: IntervalButton(eventId, m) in kb.buttons)
  {
    var valid := ValidIntervals(intervals, left);
    var kb := IntervalKeyboard(eventId, valid);
    ValidIntervalsSpec(intervals, left);
    forall b | b in kb.buttons
      ensures b.caption.IntervalLabel? && Offered(intervals, left, b.caption.minutes)
      ensures b == IntervalButton(eventId, b.caption.minutes)
    {
      var j :| 0 <= j < |kb.buttons| && kb.buttons[j] == b;
      assert valid[j] in valid;
    }
    forall m | Offered(intervals, left, m)
      ensures IntervalButton(eventId, m) in kb.buttons
    {
      assert m in valid;
      var j :| 0 <= j < |valid| && valid[j] == m;
      assert kb.buttons[j] == IntervalButton(eventId, m);
    }
  }

  /** A press on "notify" answers, then either alerts that the event is
      starting, when no delay is offered, or replaces the buttons with the
      delay keyboard; a press for an unknown occurrence only answers. */
  lemma NotifyOpsSpec(rows: map<string, SeenEvent>, eventId: string, messageId: int, now: Time, intervals: seq<int>)
    ensures var ops := NotifyOps(rows, eventId, messageId, now, intervals);
            && 1 <= |ops| <= 2 && ops[0] == Answer(None)
            && (eventId !in rows <==> |ops| == 1)
            && (|ops| == 2 ==>
                  var left := MinutesLeft(rows[eventId].start, now);
                  && (ops[1].Answer? <==> forall m :: !Offered(intervals, left, m))
                  && (ops[1].Answer? ==> ops[1].alert == Some(STARTING_ALERT))
                  && (!ops[1].Answer? ==> ops[1] == EditMarkup(Some(messageId), IntervalKeyboard(eventId, ValidIntervals(intervals, left)))))
  {
    if eventId in rows {
      var left := MinutesLeft(rows[eventId].start, now);
      var valid := ValidIntervals(intervals, left);
      ValidIntervalsSpec(intervals, left);
      if valid != [] {
        assert valid[0] in valid;
        assert Offered(intervals, left, valid[0]);
      }
    }
  }

  /** The restore job acts only on an occurrence still announced. */
  predicate RestoreDue(rows: map<string, SeenEvent>, eventId: string) {
    eventId in rows && rows[eventId].state == EventState.ANNOUNCED
  }

  // ---------------------------------------------------------------------
  // The bot

  class TelegramBot {
    const notifier: NotifierWorker
    const store: Store
    const chat: Chat
    const scheduler: Scheduler
    /** NOTIFY_INTERVALS, in minutes. */
    const notifyIntervals: seq<int>
    /** BUTTON_TTL, in seconds. */
    const buttonTtl: int
    const showTime: Time -> string

    /** The bot shares the record store, the chat and the scheduler with
        its notifier. */
    constructor (notifier: NotifierWorker, notifyIntervals: seq<int>, buttonTtl: int)
      ensures this.notifier == notifier && this.notifyIntervals == notifyIntervals && this.buttonTtl == buttonTtl
      ensures store == notifier.store && chat == notifier.chat && scheduler == notifier.scheduler
      ensures showTime == notifier.showTime
    {
      this.notifier := notifier;
      this.store := notifier.store;
      this.chat := notifier.chat;
      this.scheduler := notifier.scheduler;
      this.notifyIntervals := notifyIntervals;
      this.buttonTtl := buttonTtl;
      this.showTime := notifier.showTime;
    }

    predicate Wired() {
      store == notifier.store && chat == notifier.chat && scheduler == notifier.scheduler
    }

    /** notify_callback at the instant `now`. */
    method NotifyCallback(q: CallbackQuery, now: Time) returns (r: Outcome)
      requires HasPrefix(q.data, NOTIFY_ACTION + ":")
      modifies chat, scheduler
      ensures q.message.None? ==> r == Completed && chat.log == old(chat.log) && scheduler.jobs == old(scheduler.jobs)
      ensures q.message.Some? ==>
                CallbackHash(q.data).Success? &&
                var h := CallbackHash(q.data).value;
                var ops := NotifyOps(store.rows, h, q.message.value, now, notifyIntervals);
                var k := Accepted(old(chat.quota), |ops|);
                && chat.log == old(chat.log) + ops[..k]
                && r == (if k == |ops| then Completed else Raised(DeliveryError))
                && (if k == 2 && ops[1].EditMarkup?
                    then scheduler.jobs == old(scheduler.jobs) + [RestoreButtons(h, q.message.value, now + buttonTtl)]
                    else scheduler.jobs == old(scheduler.jobs))
    {
      if q.message.None? {
        return Completed;
      }
      var messageId := q.message.value;
      ghost var ops0 := old(chat.log);
      var ok, sentId := chat.Deliver(Answer(None));
      RoutedDataHasHash(q.data, NOTIFY_ACTION);
      var h := Split(q.data, ':')[1];
      ghost var ops := NotifyOps(store.rows, h, messageId, now, notifyIntervals);
      if !ok {
        return Raised(DeliveryError);
      }
      if h !in store.rows {
        return Completed;
      }
      var rec := store.rows[h];
      var minutesLeft := MinutesLeft(rec.start, now);
      var valid := ValidIntervals(notifyIntervals, minutesLeft);
      if valid == [] {
        ok, sentId := chat.Deliver(Answer(Some(STARTING_ALERT)));
        if !ok {
          return Raised(DeliveryError);
        }
        assert chat.log == ops0 + ops;
        return Completed;
      }
      ok, sentId := chat.Deliver(EditMarkup(Some(messageId), IntervalKeyboard(h, valid)));
      if !ok {
        return Raised(DeliveryError);
      }
      assert chat.log == ops0 + ops;
      scheduler.AddJob(RestoreButtons(h, messageId, now + buttonTtl));
      r := Completed;
    }

    /** notify_set_callback: the delay is stored and committed before the
        delay buttons are removed. */
    method NotifySetCallback(q: CallbackQuery) returns (r: Outcome)
      requires store.Valid()
      modifies store, chat
      ensures store.Valid()
      ensures q.message.None? ==> r == Completed && chat.log == old(chat.log) && store.rows == old(store.rows)
      ensures q.message.Some? && !Accepts(old(chat.quota)) ==>
                r == Raised(DeliveryError) && chat.log == old(chat.log) && store.rows == old(store.rows)
      ensures q.message.Some? && Accepts(old(chat.quota)) ==>
                var parsed := ParseNotifySet(q.data);
                && |chat.log| > |old(chat.log)| && chat.log[..|old(chat.log)| + 1] == old(chat.log) + [Answer(None)]
                && (parsed.Failure? ==>
                      r == Raised(parsed.error) && |chat.log| == |old(chat.log)| + 1 && store.rows == old(store.rows))
                && (parsed.Success? && parsed.value.0 !in old(store.rows) ==>
                      r == Completed && |chat.log| == |old(chat.log)| + 1 && store.rows == old(store.rows))
                && (parsed.Success? && parsed.value.0 in old(store.rows) ==>
                      var (h, m) := parsed.value;
                      && store.rows == old(store.rows)[h := Snoozed(old(store.rows)[h], m)]
                      && var edit := EditMarkup(q.message, NoMarkup);
                      && (Fits(old(chat.quota), 2) ==> r == Completed && chat.log == old(chat.log) + [Answer(None), edit])
                      && (!Fits(old(chat.quota), 2) ==> r == Raised(DeliveryError) && |chat.log| == |old(chat.log)| + 1))
    {
      if q.message.None? {
        return Completed;
      }
      var ok, sentId := chat.Deliver(Answer(None));
      if !ok {
        return Raised(DeliveryError);
      }
      var parsed := ParseNotifySet(q.data);
      if parsed.Failure? {
        return Raised(parsed.error);
      }
      var (h, minutes) := parsed.value;
      if h !in store.rows {
        return Completed;
      }
      var rec := store.rows[h];
      store.rows := store.rows[h := Snoozed(rec, minutes)];
      ok, sentId := chat.Deliver(EditMarkup(q.message, NoMarkup));
      if !ok {
        return Raised(DeliveryError);
      }
      r := Completed;
    }

    /** confirm_callback: the confirmation is committed only once both edits
        of the message went through. */
    method ConfirmCallback(q: CallbackQuery) returns (r: Outcome)
      requires store.Valid()
      requires HasPrefix(q.data, CONFIRM_ACTION + ":")
      modifies store, chat
      ensures store.Valid()
      ensures q.message.None? ==> r == Completed && chat.log == old(chat.log) && store.rows == old(store.rows)
      ensures q.message.Some? ==>
                CallbackHash(q.data).Success? &&
                var h := CallbackHash(q.data).value;
                var ops := if h in old(store.rows)
                           then [Answer(None), EditText(q.message, EventStatus.CONFIRMED, old(store.rows)[h].messageTemplate),
                                 EditMarkup(q.message, NoMarkup)]
                           else [Answer(None)];
                var k := Accepted(old(chat.quota), |ops|);
                && chat.log == old(chat.log) + ops[..k]
                && r == (if k == |ops| then Completed else Raised(DeliveryError))
                && store.rows == (if k == 3 then old(store.rows)[h := Confirmed(old(store.rows)[h])] else old(store.rows))
    {
      if q.message.None? {
        return Completed;
      }
      RoutedDataHasHash(q.data, CONFIRM_ACTION);
      ghost var log0 := chat.log;
      var ok, sentId := chat.Deliver(Answer(None));
      if !ok {
        return Raised(DeliveryError);
      }
      var h := Split(q.data, ':')[1];
      if h !in store.rows {
        return Completed;
      }
      var rec := store.rows[h];
      ghost var ops := [Answer(None), EditText(q.message, EventStatus.CONFIRMED, rec.messageTemplate), EditMarkup(q.message, NoMarkup)];
      ok, sentId := chat.Deliver(EditText(q.message, EventStatus.CONFIRMED, rec.messageTemplate));
      if !ok {
        assert chat.log == log0 + ops[..1];
        return Raised(DeliveryError);
      }
      ok, sentId := chat.Deliver(EditMarkup(q.message, NoMarkup));
      if !ok {
        assert chat.log == log0 + ops[..2];
        return Raised(DeliveryError);
      }
      assert chat.log == log0 + ops;
      store.rows := store.rows[h := Confirmed(rec)];
      r := Completed;
    }

    /** _restore_original_buttons as written: past its guard it reaches
        `self.bot_app`, an attribute the bot never sets, and raises. */
    method RestoreOriginalButtonsAsWritten(eventId: string, messageId: int) returns (r: Outcome)
      ensures !RestoreDue(store.rows, eventId) ==> r == Completed
      ensures RestoreDue(store.rows, eventId) ==> r == Raised(AttributeError("bot_app"))
    {
      if eventId !in store.rows {
        return Completed;
      }
      var rec := store.rows[eventId];
      if rec.state != EventState.ANNOUNCED {
        return Completed;
      }
      r := Raised(AttributeError("bot_app"));
    }

    /** _restore_original_buttons as intended: past its guard it puts the
        "notify" and "confirm" buttons back on the message. */
    method RestoreOriginalButtons(eventId: string, messageId: int) returns (r: Outcome)
      modifies chat
      ensures !RestoreDue(store.rows, eventId) ==> r == Completed && chat.log == old(chat.log)
      ensures RestoreDue(store.rows, eventId) && Accepts(old(chat.quota)) ==>
                r == Completed && chat.log == old(chat.log) + [EditMarkup(Some(messageId), ActionKeyboard(eventId))]
      ensures RestoreDue(store.rows, eventId) && !Accepts(old(chat.quota)) ==>
                r == Raised(DeliveryError) && chat.log == old(chat.log)
    {
      if eventId !in store.rows {
        return Completed;
      }
      var rec := store.rows[eventId];
      if rec.state != EventState.ANNOUNCED {
        return Completed;
      }
      var ok, sentId := chat.Deliver(EditMarkup(Some(messageId), ActionKeyboard(eventId)));
      r := if ok then Completed else Raised(DeliveryError);
    }

    /** The scheduler firing one of the jobs the bot and the notifier arm. */
    method RunJob(job: Job) returns (r: Outcome)
      requires Wired() && store.Valid()
      modifies store, chat
      ensures store.Valid()
      ensures job.RestoreButtons? ==> store.rows == old(store.rows)
      ensures job.RestoreButtons? && !RestoreDue(old(store.rows), job.eventId) ==>
                r == Completed && chat.log == old(chat.log)
      ensures job.RestoreButtons? && RestoreDue(old(store.rows), job.eventId) && Accepts(old(chat.quota)) ==>
                r == Completed && chat.log == old(chat.log) + [EditMarkup(Some(job.messageId), ActionKeyboard(job.eventId))]
      ensures job.RestoreButtons? && RestoreDue(old(store.rows), job.eventId) && !Accepts(old(chat.quota)) ==>
                r == Raised(DeliveryError) && chat.log == old(chat.log)
      ensures job.AutoStart? && !AutoStartDue(old(store.rows), job.eventId) ==>
                r == Completed && store.rows == old(store.rows) && chat.log == old(chat.log)
      ensures job.AutoStart? && AutoStartDue(old(store.rows), job.eventId) ==>
                var edits := AutoStartEdits(old(store.rows)[job.eventId]);
                && (Fits(old(chat.quota), 2) ==>
                      r == Completed && store.rows == AutoStarted(old(store.rows), job.eventId)
                      && chat.log == old(chat.log) + edits)
                && (!Fits(old(chat.quota), 2) ==>
                      r == Raised(DeliveryError) && store.rows == old(store.rows)
                      && chat.log == old(chat.log) + edits[..Accepted(old(chat.quota), 2)])
    {
      match job
      case AutoStart(eventId, _) =>
        r := notifier.AutoStartEvent(eventId);
      case RestoreButtons(eventId, messageId, _) =>
        r := RestoreOriginalButtons(eventId, messageId);
    }

    /** _send_events_list's text: the lines of every calendar that has
        events, under the period's header, or the "no events" reply. */
    method EventsListText(period: string, groups: seq<(string, seq<Event>)>) returns (text: string)
      ensures text == ListingText(period, ListLines(groups, showTime))
    {
      var out: seq<string> := [];
      var i := 0;
      while i < |groups|
        invariant 0 <= i <= |groups|
        invariant out == ListLines(groups[..i], showTime)
      {
        var name := groups[i].0;
        var evs := groups[i].1;
        ListLinesSnoc(groups, i, showTime);
        if evs != [] {
          out := out + ([GroupHeader(name)] + EventLines(evs, showTime));
        } else {
          assert out + [] == out;
        }
        i := i + 1;
      }
      assert groups[..i] == groups;
      if out != [] {
        text := ListHeader(period) + Join(out, '\n');
      } else {
        text := NoEventsText(period);
      }
    }

    /** _send_events_list: one reply with the listing. */
    method SendEventsList(period: string, groups: seq<(string, seq<Event>)>) returns (r: Outcome)
      modifies chat
      ensures Accepts(old(chat.quota)) ==>
                r == Completed && chat.log == old(chat.log) + [PlainMessage(ListingText(period, ListLines(groups, showTime)))]
      ensures !Accepts(old(chat.quota)) ==> r == Raised(DeliveryError) && chat.log == old(chat.log)
    {
      var text := EventsListText(period, groups);
      var ok, sentId := chat.Deliver(PlainMessage(text));
      r := if ok then Completed else Raised(DeliveryError);
    }
  }
}
