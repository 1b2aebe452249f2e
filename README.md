# Calendar notification bot — a verified model of its notification engine

The bot reads the Google calendars of several users and posts their upcoming
events to one Telegram chat. Every minute a tick reads the events of the next
`AHEAD_HOUR` hours and keeps one tracking record per occurrence, keyed by a
16-hex-digit hash of the event id and its start. For each occurrence the tick
sends at most one message:

- the announcement, with the buttons "notify" and "confirm";
- the follow-up, once the reminder delay the user chose is due;
- the "started" notice, once the event has begun.

A button press changes the occurrence's record:

- "notify" offers the delays that still fit before the start;
- a chosen delay snoozes the occurrence until then;
- "confirm" closes it.

One-shot jobs mark an occurrence as started at its start time and are meant
to put the original buttons back after a short TTL. A weekly sweep deletes records a
week after their start.

The model is split by source file:

- `common.dfy`: shared values. These are the event record, `Result`, the
  exception kinds and the time units. Times are whole seconds; the
  configured zone is a fixed offset.
- `strings.dfy`: the parts of Python's `str` the callback protocol uses.
  These are `split`, `join`, `str(int)` and `int(str)`.
- `config.dfy`: the settings, mainly `NOTIFY_INTERVALS`.
- `database.py` → `database.dfy`. `Store` is a class over a map of records,
  and the sweep is a loop.
- `utils.py` → `utils.dfy`: the one-line rendering of an event.
- `delivery.dfy`: Telegram and APScheduler, reduced to what the engine
  observes. `Chat` keeps a log of the operations it accepted and a quota
  after which an operation fails. `Scheduler` keeps the list of armed jobs.
- `google_calendar.py` → `google_calendar.dfy`: the client class, item
  parsing, hashing, the day and week windows, and the credential check.
- `multicalendar.py` → `multicalendar.dfy`: the merged read of every
  calendar.
- `notifier_worker.py` → `notifier.dfy`: the tick and the auto-start job.
  The tick is specified by `Process`, the effect of one event on
  (records, chat log, jobs), folded over the events by `RunEvents`. The
  worker's methods are proved to carry out that specification.
- `telegram_bot.py` → `telegram_bot.dfy`: the button callbacks, the restore
  job, the week and day windows of the listing commands, and the listing
  reply.

Where the project's documented design and its code differ, the model follows
the code:

- A message that fails to send in the middle of a tick aborts the whole tick.
  The session is not committed, so every record change of that tick is lost.
  The messages already sent and the jobs already armed stay, though. The
  design asks for per-event isolation (`Notifier.NotifierWorker.RunTick`,
  `TickDone`).
- Choosing a delay has no state guard. A delay chosen on an occurrence that
  has already started reopens it, and the next tick sends the "started" notice
  a second time. The design says "started" is reached at most once
  (`TelegramBot.SnoozeReopensStarted`).
- Confirming edits the message text and then the buttons. Any failure of
  these edits, "not modified" included, propagates and the confirmation is
  not committed. The design asks for "not modified" to be swallowed.
- On the "notify" alert path the query is answered twice: once plainly, then
  with the alert.

## Model

| member | source | states |
|---|---|---|
| Strings.Split | app/telegram_bot.py:136 | `str.split` on one character gives at least one piece, and no piece contains the separator |
| Strings.SplitAfterPiece | app/telegram_bot.py:136 | splitting `a:b`, where `a` has no colon, gives `a` and then the pieces of `b` |
| Strings.SplitSeparated | app/telegram_bot.py:136 | a text splits into two or more pieces exactly when it contains the separator |
| Strings.SplitJoin | app/telegram_bot.py:192 | splitting what `join` built from colon-free pieces gives the pieces back |
| Strings.ParseInt | app/telegram_bot.py:193 | `int()` succeeds exactly on an optionally signed run of decimal digits |
| Strings.IntToString | app/telegram_bot.py:158 | `str(m)` is non-empty and made of digits and a minus sign only |
| Strings.IntStringRoundTrip | app/telegram_bot.py:193 | `int(str(m)) == m` for every integer |
| Config.ParseAll | app/config.py:34 | reading the pieces yields one integer per piece, each what `int` gives; it fails only if some piece is not a number |
| Config.ParseShowAll | app/config.py:34 | reading back the decimal texts of any delays gives those delays |
| Config.IntervalsRoundTrip | app/config.py:34 | any non-empty list of delays, written comma-separated, reads back as itself |
| Config.DefaultIntervals | app/config.py:34 | the default setting `60,30,15,10,5,0` gives the default delay list |
| Database.NewSeenEvent | app/database.py:35-54 | a new record has the hash, start and template given, state NEW, and no message id or reminder time |
| Database.RetentionPartition | app/database.py:66-81 | the sweep splits the table into kept rows, unchanged, and expired rows; the two sizes add up to the table's |
| Database.RetainedKeyedById | app/database.py:49 | the rows the sweep keeps are still stored under their own id |
| Database.Store.CleanOldEvents | app/database.py:66-81 | deletes exactly the rows whose start lies more than a week back; returns how many it deleted; commits only if that count is positive |
| Utils.PrefixSlice | app/utils.py:10 | Python's `s[:n]` is a prefix of `s`, of length `n` when `0 <= n <= len(s)` |
| Utils.LJust | app/utils.py:11 | `ljust` keeps the text and pads it with spaces to the width |
| Utils.PaddedSummary | app/utils.py:8-11 | the summary column is at least the column width; a summary that fits starts the column; a longer one ends in `...` |
| Utils.LongSummaryIsCut | app/utils.py:9-10 | a summary longer than the column keeps its first `width - 3` characters and ends in `...` |
| Utils.ShortSummaryIsPadded | app/utils.py:9-11 | a summary that fits is kept whole and padded with spaces |
| Utils.PaddedSummaryWidth | app/utils.py:8-11 | for a column of at least 3 characters, the summary column is exactly the column width |
| Utils.NarrowColumnOvershoots | app/utils.py:9-10 | below 3 characters the negative slice overshoots: `"abcd"` in a 2-wide column renders as `"abc..."` |
| Utils.FormatEvent | app/utils.py:1-13 | a rendered line opens with `📌 <code>` and closes with `</code>` |
| Utils.FormatEventLayout | app/utils.py:1-13 | a rendered line is the opening tag, the summary column (the summary, or "(без названия)" when missing), the separator, the start text and the closing tag, each at its own offset |
| Utils.FormatEventWidth | app/utils.py:1-13 | a rendered line's length is fixed apart from its start text |
| Utils.GetUserId | app/utils.py:16-17 | the user's numeric id, or the string `"0"` exactly when the user has no id |
| Delivery.Spend | app/notifier_worker.py:62-68 | after `n` accepted operations, the chat accepts one more exactly when it accepted `n + 1` to begin with |
| Delivery.Accepted | app/telegram_bot.py:135-165 | of `n` operations in a row, the chat performs all of them exactly when they fit its quota; otherwise it performs those before the first refused one |
| Delivery.Chat.Deliver | app/notifier_worker.py:62-68 | an operation is appended to the chat log exactly when the chat accepts it; the message id is its position |
| Delivery.Scheduler.AddJob | app/notifier_worker.py:143-148 | the job is appended to the armed jobs |
| MultiCalendar.SourcesAppend | app/multicalendar.py:52-54 | the calendars of two runs of users are those of the first run, then those of the second |
| MultiCalendar.Gather | app/multicalendar.py:43-59 | the merged read can fail only when there is some calendar to read; every event it returns carries a calendar name |
| MultiCalendar.GatherAppend | app/multicalendar.py:51-59 | reading two runs of calendars is reading the first and then the second, stopping at the first failure |
| MultiCalendar.GatherSpec | app/multicalendar.py:43-59 | the merged read fails exactly when some read fails, with the first failure's exception; otherwise it holds every fetched event in user, calendar and source order, unchanged except for `calendar_name` |
| MultiCalendar.MultiCalendarManager.ListAllEvents | app/multicalendar.py:43-59 | the nested loops return exactly the merged read of the configured calendars |
| GoogleCalendar.RawValue | app/google_calendar.py:161 | `dateTime or date`: an empty or missing `dateTime` falls back to `date` |
| GoogleCalendar.ParseDateTime | app/google_calendar.py:152-164 | a missing value raises TypeError and a malformed one ValueError; parsing succeeds exactly when a value is present and `fromisoformat` accepts it; a 10-character date gets the client's zone; anything else keeps its own offset |
| GoogleCalendar.EventHash | app/google_calendar.py:117-120 | the hash is the first 16 characters of the md5 hex digest: hex digits, with no colon |
| GoogleCalendar.ItemToEvent | app/google_calendar.py:113-125 | an item fails exactly when its start or end fails to parse; otherwise its hash comes from the id and start text, the summary defaults to "(без названия)", and start and end are the parsed instants |
| GoogleCalendar.ItemsToEvents | app/google_calendar.py:113-125 | a successful conversion has one record per item, each with a hash and a start and no calendar name yet |
| GoogleCalendar.SameOccurrenceSameHash | app/google_calendar.py:117 | two items with the same id and parsed start get the same hash |
| GoogleCalendar.ItemsToEventsSpec | app/google_calendar.py:111-127 | one record per item, in item order; the conversion fails exactly when some item fails |
| GoogleCalendar.ItemsToEventsAppend | app/google_calendar.py:113-125 | converting one more good item appends its record |
| GoogleCalendar.ItemsToEventsStops | app/google_calendar.py:113-115 | a bad item ends the conversion with its error |
| GoogleCalendar.ItemsToEventsPrefixFails | app/google_calendar.py:113-115 | a failure among the first items is the failure of the whole list |
| GoogleCalendar.LocalDayOf | app/google_calendar.py:173-174 | an instant lies on a date exactly when it lies between that date's midnight and the next |
| GoogleCalendar.RangeForDay | app/google_calendar.py:166-175 | the day range runs from the date's first second to its last: both ends lie on the date, the second before lies on the day before, and the second after on the day after |
| GoogleCalendar.RangeForDaySpec | app/google_calendar.py:166-175 | the day range starts and ends on the date and holds exactly that date's instants |
| GoogleCalendar.WeekRange | app/google_calendar.py:147-150 | the week window lasts seven days from the first day's midnight; its last second lies on the seventh date and its end on the eighth |
| GoogleCalendar.WeekRangeSpec | app/google_calendar.py:140-150 | the week window lasts seven days, starts at the first day's midnight, and holds exactly the instants of the seven dates from the first day |
| GoogleCalendar.EnsureTokenOn | app/google_calendar.py:64-75 | on success the credentials are usable; every failure is NEED_REAUTH; usable credentials pass unchanged; a failed refresh raises NEED_REAUTH; a successful refresh yields the refreshed credentials and completes exactly when they are usable; unusable credentials that cannot be refreshed raise NEED_REAUTH |
| GoogleCalendar.CalendarClient.Authorize | app/google_calendar.py:34-47 | a missing token file raises FileNotFoundError and changes nothing; otherwise the stored credentials are loaded and the service is built |
| GoogleCalendar.CalendarClient.TokenStep | app/google_calendar.py:56-75 | with no credentials loaded, authorize and stop; otherwise the credential check |
| GoogleCalendar.CalendarClient.EnsureToken | app/google_calendar.py:56-75 | the credentials and outcome are those of the credential check |
| GoogleCalendar.CalendarClient.ListEventsBetween | app/google_calendar.py:77-127 | no service raises ValueError; otherwise the credential check, the API read, then every item converted in order; the service is never dropped |
| GoogleCalendar.CalendarClient.GetEventsForDay | app/google_calendar.py:129-138 | reads the day range of the date |
| GoogleCalendar.CalendarClient.GetEventsForWeek | app/google_calendar.py:140-150 | reads the seven-day window from the first day's midnight |
| Notifier.Process | app/notifier_worker.py:96-158 | one event adds at most one message and at most one job, and keeps the earlier ones |
| Notifier.RunEvents | app/notifier_worker.py:96-158 | a tick sends at most one message per event and keeps what came before |
| Notifier.ProcessSkips | app/notifier_worker.py:97-103 | an event that is not `Trackable` (no non-empty hash, or no start) changes nothing |
| Notifier.MessageTemplate | app/notifier_worker.py:109-110 | the stored template ends with the event's one-line rendering |
| Notifier.Lookup | app/notifier_worker.py:108-119 | a stored record is used as it is; otherwise a new NEW record with the event's hash, start and template, and no message id |
| Notifier.Notify | app/notifier_worker.py:62-70 | one message about the record goes out; the record is stored under its key with the message's id and is otherwise unchanged; other records and the jobs stay as they were |
| Notifier.ProcessRecord | app/notifier_worker.py:108-119 | the first sighting stores a record with the event's start and rendered template; a stored record keeps its id, start and template; other records are untouched |
| Notifier.ProcessKeyedById | app/database.py:49 | every record stays stored under its own hash after a step |
| Notifier.ProcessConfirmed | app/notifier_worker.py:121-122 | a confirmed occurrence is left alone |
| Notifier.ProcessStarts | app/notifier_worker.py:124-132 | after the start, an occurrence that is neither confirmed nor started becomes STARTED and gets exactly one "started" message, without buttons and without a job |
| Notifier.ProcessAnnounces | app/notifier_worker.py:134-148 | a new future occurrence becomes ANNOUNCED, gets the announcement with both buttons, and gets an auto-start job at its start, in the future |
| Notifier.ProcessFollowsUp | app/notifier_worker.py:150-158 | a waiting occurrence whose reminder is due gets the follow-up with buttons, stays WAITING, and its reminder is cleared |
| Notifier.ProcessQuiet | app/notifier_worker.py:121-158 | an occurrence with nothing due causes no message, no job and no change |
| Notifier.ProcessSettles | app/notifier_worker.py:121-158 | after any step the occurrence has nothing due |
| Notifier.ProcessIdempotent | app/notifier_worker.py:96-158 | processing the same event twice at the same instant is processing it once |
| Notifier.NoticesForPrefix | app/notifier_worker.py:62-68 | extending the chat log never lowers the count of an occurrence's messages |
| Notifier.RunSettledQuiet | app/notifier_worker.py:96-158 | once an occurrence is settled, the rest of the tick sends nothing about it |
| Notifier.StepOtherKey | app/notifier_worker.py:108-158 | a step for another occurrence leaves this one's record and message count alone |
| Notifier.RunClosedQuiet | app/notifier_worker.py:121-132 | a confirmed or started occurrence gets no message for the whole tick, and its record does not change |
| Notifier.RunNoticesOnce | app/notifier_worker.py:96-158 | within one tick an occurrence gets at most one message, when the events sharing its hash agree on the start |
| Notifier.RunFrom | app/notifier_worker.py:96 | the tick from event `i` on is event `i`'s step, then the rest |
| Notifier.RunKeyedById | app/notifier_worker.py:96-160 | every record stays stored under its own hash over a tick |
| Notifier.HaltedSpec | app/notifier_worker.py:96-160 | a tick that the chat's room fits ends where the full tick does; otherwise it has sent exactly as many messages as there was room for, and its messages and jobs are the start of the full tick's |
| Notifier.HaltedBeforeRefused | app/notifier_worker.py:96-160 | a tick that does not fit stops where the tick over the events before the first refused one ends, and that event's message does not fit the room left |
| Notifier.AutoStarted | app/notifier_worker.py:175-205 | the job marks a due occurrence STARTED and changes no other record |
| Notifier.AutoStartSilencesTick | app/notifier_worker.py:175-205 | after the auto-start job, the tick sends no "started" message for the occurrence |
| Notifier.NotifierWorker.SendEventNotification | app/notifier_worker.py:32-73 | the message with the record's status, template and buttons goes out, and the record remembers its id; nothing changes when the chat refuses it |
| Notifier.NotifierWorker.ProcessEvent | app/notifier_worker.py:96-158 | one pass of the loop does what `Process` describes when the chat accepts its message; otherwise nothing changes |
| Notifier.NotifierWorker.ProcessAll | app/notifier_worker.py:96-158 | the loop over the fetched events ends where `RunEvents` does exactly when the chat accepts all the messages the tick sends (`Sent`); otherwise it stops at the first refused event, with the chat log and jobs of `Halted`: the tick over the events before that one; records stay keyed by their hash |
| Notifier.NotifierWorker.CheckAndNotify | app/notifier_worker.py:75-163 | NEED_REAUTH sends the reauthorization notice and changes no record; another read failure propagates; otherwise the tick over the fetched events, as `RunTick` states it, including the exact chat log and jobs of a refused tick |
| Notifier.NotifierWorker.RunTick | app/notifier_worker.py:96-160 | if the chat accepts every message, records, chat and jobs end as `RunEvents` says and are committed; otherwise DeliveryError, no record changes, and chat and jobs are those of `Halted`: the log grew by exactly the quota, no job was lost, and both are the start of the full tick's |
| Notifier.NotifierWorker.AutoStartEvent | app/notifier_worker.py:165-207 | a missing, confirmed or started occurrence is left alone; otherwise the text is edited to SOON, the buttons are removed, and only then is the record STARTED and committed; when the chat refuses, DeliveryError, no record change, and the log holds exactly the edits the chat accepted |
| TelegramBot.MinutesLeft | app/telegram_bot.py:145 | the whole minutes left before the start, rounded down, never negative |
| TelegramBot.ValidIntervals | app/telegram_bot.py:147 | the offer is no longer than the configured delays, and every delay offered is configured and is 0 or fits in the minutes left |
| TelegramBot.ValidIntervalsSpec | app/telegram_bot.py:147 | a delay is offered exactly when it is configured and is 0 or fits in the minutes left; none is offered exactly when no delay is 0 and every delay exceeds the time left |
| TelegramBot.ValidIntervalsAppend | app/telegram_bot.py:147 | the offered delays keep the configured order |
| TelegramBot.DefaultIntervalsOffered | app/telegram_bot.py:147 | with the default delays and 5 to 9 minutes left, the offer is 5 minutes and "at the start" |
| TelegramBot.OfferedDelayIsAhead | app/telegram_bot.py:145-147 | a positive delay offered at `now` reminds no earlier than `now` |
| TelegramBot.IntervalKeyboard | app/telegram_bot.py:152-163 | one button per offered delay, in order, each carrying `notify_set:{hash}:{m}` |
| TelegramBot.NoColonInNumber | app/telegram_bot.py:158 | a number's text contains no colon |
| TelegramBot.CallbackHash | app/telegram_bot.py:136 | reading the hash of a "notify" or "confirm" press succeeds exactly when the data has a colon, gives a colon-free hash, and otherwise raises IndexError |
| TelegramBot.ParseNotifySet | app/telegram_bot.py:192-193 | every failure is a ValueError; on success the hash is colon-free and is the one the generic hash reader gives |
| TelegramBot.NotifySetRoundTrip | app/telegram_bot.py:192-193 | a delay button's data reads back as its hash and delay |
| TelegramBot.ActionDataRoundTrip | app/telegram_bot.py:136 | the notify and confirm buttons' data read back as their hash |
| TelegramBot.EventHashButtonsRoundTrip | app/telegram_bot.py:192-193 | so do all buttons made for a hash the calendar client computes |
| TelegramBot.RoutedDataHasHash | app/telegram_bot.py:136 | data routed by the `^notify:` or `^confirm:` pattern always has a second field |
| TelegramBot.Snoozed | app/telegram_bot.py:201-202 | a chosen delay sets the reminder to start minus the delay and the state to WAITING; nothing else changes |
| TelegramBot.Confirmed | app/telegram_bot.py:229 | confirming sets the state to CONFIRMED; nothing else changes |
| TelegramBot.ConfirmIdempotent | app/telegram_bot.py:229 | confirming twice is confirming once |
| TelegramBot.SnoozeReminds | app/telegram_bot.py:201-202 | once a snooze is due before the start, the next tick sends the follow-up with buttons |
| TelegramBot.SnoozeWaits | app/telegram_bot.py:201-202 | before it is due, a snooze keeps the occurrence quiet |
| TelegramBot.ConfirmSilences | app/telegram_bot.py:229 | after a confirmation no tick sends anything about the occurrence |
| TelegramBot.SnoozeReopensStarted | app/telegram_bot.py:180-209 | a started occurrence is quiet, but a delay chosen on it makes the next tick send "started" again |
| TelegramBot.Weekday | app/telegram_bot.py:274 | `date.weekday()` lies between 0 and 6 |
| TelegramBot.WeekdayCalendar | app/telegram_bot.py:274 | 1970-01-01 is a Thursday (3), each day's weekday is the previous one's plus one modulo seven, and weekdays repeat every seven days |
| TelegramBot.WeekFirstDay | app/telegram_bot.py:272-275 | the week's first day, moved by the offset, lies at most six days before today moved by the same number of weeks |
| TelegramBot.WeekFirstDaySpec | app/telegram_bot.py:272-275 | the week's first day is a Monday at most six days before today, and each week offset moves it by seven days |
| TelegramBot.WeekWindowHoldsNow | app/telegram_bot.py:263-277 | the /week window contains the moment it was asked for |
| TelegramBot.DayWindowHoldsNow | app/telegram_bot.py:279-291 | the /today window contains the moment it was asked for |
| TelegramBot.EventLines | app/telegram_bot.py:338 | one rendered line per event, in order |
| TelegramBot.ListLinesAppend | app/telegram_bot.py:336-338 | the listing of two runs of calendars is the listing of the first, then of the second |
| TelegramBot.ListLinesSnoc | app/telegram_bot.py:336-338 | one more calendar adds its header and lines when it has events |
| TelegramBot.ListLines | app/telegram_bot.py:336-338 | a listing has no lines exactly when every calendar is empty; a first calendar with events opens it with its header |
| TelegramBot.EmptyGroupOmitted | app/telegram_bot.py:337 | a calendar without events leaves no trace in the listing |
| TelegramBot.ListingText | app/telegram_bot.py:340-348 | the reply is the "no events" text exactly when there are no lines; otherwise it begins with the period's header |
| TelegramBot.NoEventsReply | app/telegram_bot.py:340-348 | the "no events" reply is given exactly when every calendar is empty |
| TelegramBot.IntervalKeyboardOffers | app/telegram_bot.py:147-163 | the delay keyboard has a button for every delay offered and for nothing else |
| TelegramBot.NotifyOps | app/telegram_bot.py:135-165 | a "notify" press is answered first, with one or two operations; it gets only the answer exactly when the occurrence is unknown |
| TelegramBot.NotifyOpsSpec | app/telegram_bot.py:127-178 | a "notify" press answers; an unknown occurrence gets nothing more; otherwise the alert exactly when no delay is offered, and the delay keyboard when some is |
| TelegramBot.TelegramBot.NotifyCallback | app/telegram_bot.py:127-178 | a query without a message does nothing; otherwise it sends the "notify" operations the chat accepts; the restore job is armed at now + TTL only after the keyboard went up |
| TelegramBot.TelegramBot.NotifySetCallback | app/telegram_bot.py:180-209 | answers, then a parse error propagates, and an unknown occurrence changes nothing; otherwise the snooze is committed before the buttons are removed |
| TelegramBot.TelegramBot.ConfirmCallback | app/telegram_bot.py:211-245 | answers, then edits the text to CONFIRMED and removes the buttons; the confirmation is committed only when both edits went through |
| TelegramBot.TelegramBot.RestoreOriginalButtonsAsWritten | app/telegram_bot.py:350-380 | a missing or no longer announced occurrence is left alone; otherwise AttributeError on `bot_app` |
| TelegramBot.TelegramBot.RestoreOriginalButtons | app/telegram_bot.py:350-380 | a missing or no longer announced occurrence is left alone; otherwise the notify and confirm buttons are put back on the message |
| TelegramBot.TelegramBot.RunJob | app/telegram_bot.py:167-175 | an auto-start job does what `AutoStartEvent` promises: nothing when not due; otherwise the edit to SOON and the button removal, then STARTED, or DeliveryError with no record change and exactly the edits the chat accepted. A restore job never changes a record, and it puts the buttons back when the occurrence is still announced and the chat accepts the edit. The restore is the corrected one (see Findings) |
| TelegramBot.TelegramBot.EventsListText | app/telegram_bot.py:326-348 | the loop builds the header and the lines of every calendar with events, or the "no events" text |
| TelegramBot.TelegramBot.SendEventsList | app/telegram_bot.py:326-348 | replies once with the listing text |

## Left out

- I/O is not modelled. This covers the Telegram API, the Google Calendar API, OAuth, pickling the token file, the database engine, and logging. Telegram and the scheduler are reduced to the logs in `Delivery`. The API read, the credential refresh, `fromisoformat`, `str(datetime)`, `strftime` and md5 are functions the classes receive.
- The wall clock is a parameter. `now` is passed to each operation.
- `build_message` is not part of this model. A message is its status and its stored template.
- `weekly_cleanup` is left out: an endless loop that runs the sweep and sleeps a week. The sweep itself is `Database.Store.CleanOldEvents`.
- `init_db`, `main.py`, the bot's bootstrap, the command registration and `/start` are wiring with no logic to prove.
- `_collect_events_for_period` is left out. It keys the listing by calendar name, so two users' calendars with the same name overwrite each other. `TelegramBot.TelegramBot.EventsListText` takes the already collected (name, events) groups.
- `_cal_manager_error` is left out. It is a guard on an uninitialized client, which the model always has.
- "Message is not modified" errors are not modelled. `Notifier.NotifierWorker.AutoStartEvent` swallows them in the source, but the chat model never raises them: an edit either goes through or fails with a delivery error.
- Time is whole seconds. `time.max`, the end of a day, becomes the day's last second. The zone is a fixed offset, which matches Europe/Moscow's missing DST.
- A naive `dateTime` from the API is read in the client's zone.
- The text hashed for an occurrence is `str()` of the parsed value. `showTime` renders an instant, not the value with its own offset.
- `GoogleCalendar.CalendarClient.constructor` requires the token file to exist. In the source, a missing file raises FileNotFoundError from the constructor. `Authorize` models that path.
- `Strings.ParseInt` accepts only ASCII digits with an optional sign. Python's `int` also accepts surrounding whitespace, digit-group underscores and non-ASCII decimal digits (`int("٣") == 3`); the model rejects all three. So `Config.ParseAll` gives None for a setting such as `60, 30`, which the source reads as `[60, 30]`.
- `TelegramBot.TelegramBot.RunJob` runs the corrected restore, `RestoreOriginalButtons`. The program as written raises AttributeError on every restore that gets past the guard; `RestoreOriginalButtonsAsWritten` models that path.
- The point-threshold notification schedule described for an older variant of the bot is not in this code, and is not modelled.
- Concurrency is not modelled. A tick and a callback touching the same record are taken to run one after the other.

## Findings

| source | as written | input that shows it | evidently intended | confidence | as-written member | corrected member |
|---|---|---|---|---|---|---|
| app/telegram_bot.py:374 | `_restore_original_buttons` edits the message through `self.bot_app`, which the bot never sets (it keeps its application in `self.app`) | any announced occurrence whose "notify" button was pressed: BUTTON_TTL seconds later the restore job raises AttributeError and the buttons stay replaced by the delay keyboard | put the "notify" and "confirm" buttons back on the message | not executed | TelegramBot.TelegramBot.RestoreOriginalButtonsAsWritten | TelegramBot.TelegramBot.RestoreOriginalButtons |
