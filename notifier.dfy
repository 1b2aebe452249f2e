/** The polling notifier (app/notifier_worker.py). Every tick reads the
    events of the coming hours, keeps one tracking record per occurrence and
    sends at most one message per occurrence: the announcement with its
    buttons, the snooze follow-up, or the "started" notice. The one-shot
    auto-start job marks an occurrence as started when its time comes.

    The specification of a tick is `Process`, the effect of one event on the
    records, the chat and the scheduler, folded over the events by
    `RunEvents`; the worker's methods are proved to do what they describe. */
module Notifier {

  import opened Common
  import opened Database
  import opened Delivery
  import opened Utils
  import opened MultiCalendar

  const REAUTH_TEXT: string := "Google токен истёк или был отозван. Требуется повторная авторизация."

  /** The stored template of an occurrence's messages: the calendar's name,
      then the event's one-line rendering. */
  function MessageTemplate(ev: Event, showTime: Time -> string): (t: string)
    ensures var line := FormatEvent(ev, DEFAULT_NAME_WIDTH, showTime);
            |line| < |t| && t[|t| - |line|..] == line
  {
    "👤 <u><b>" + ev.calendarName.GetOr("") + "</b></u>\n" + FormatEvent(ev, DEFAULT_NAME_WIDTH, showTime)
  }

  /** Events without a (non-empty) hash or without a start are skipped. */
  predicate Trackable(ev: Event) {
    ev.evHash.Some? && ev.evHash.value != "" && ev.start.Some?
  }

  /** What a tick has produced so far: the session's records, everything
      the chat has accepted and every job armed. */
  datatype TickState = TickState(rows: map<string, SeenEvent>, log: seq<Outbound>, jobs: seq<Job>)

  function Buttons(eventId: string, withButtons: bool): Markup {
    if withButtons then ActionKeyboard(eventId) else NoMarkup
  }

  /** send_event_notification for the record stored under `key`: the
      message goes out and the record remembers its id. */
  function Notify(st: TickState, key: string, rec: SeenEvent, status: EventStatus, withButtons: bool): (r: TickState)
    ensures |r.log| == |st.log| + 1 && r.log[..|st.log|] == st.log && r.jobs == st.jobs
    ensures r.log[|st.log|].Notification? && r.log[|st.log|].eventId == rec.eventId
    ensures r.rows.Keys == st.rows.Keys + {key}
    ensures forall k | k in st.rows && k != key :: r.rows[k] == st.rows[k]
    ensures r.rows[key].messageId == Some(|st.log|) && r.rows[key].(messageId := rec.messageId) == rec
  {
    TickState(
      st.rows[key := rec.(messageId := Some(|st.log|))],
      st.log + [Notification(rec.eventId, status, rec.messageTemplate, Buttons(rec.eventId, withButtons))],
      st.jobs)
  }

  /** The record a tick works on: the stored one, or a new one. */
  function Lookup(rows: map<string, SeenEvent>, ev: Event, showTime: Time -> string): (rec: SeenEvent)
    requires Trackable(ev)
    ensures ev.evHash.value in rows ==> rec == rows[ev.evHash.value]
    ensures ev.evHash.value !in rows ==>
              && rec.eventId == ev.evHash.value && rec.start == ev.start.value
              && rec.state == NEW && rec.messageId.None?
              && rec.messageTemplate == MessageTemplate(ev, showTime)
  {
    var h := ev.evHash.value;
    if h in rows then rows[h] else NewSeenEvent(h, ev.start.value, MessageTemplate(ev, showTime))
  }

  /** The effect of one event on a tick (the body of check_and_notify's loop). */
  function Process(now: Time, ev: Event, st: TickState, showTime: Time -> string): (r: TickState)
    ensures |st.log| <= |r.log| <= |st.log| + 1 && r.log[..|st.log|] == st.log
    ensures |st.jobs| <= |r.jobs| <= |st.jobs| + 1 && r.jobs[..|st.jobs|] == st.jobs
  {
    if !Trackable(ev) then st
    else
      var h := ev.evHash.value;
      var start := ev.start.value;
      var rec := Lookup(st.rows, ev, showTime);
      var st1 := st.(rows := st.rows[h := rec]);
      if rec.state == EventState.CONFIRMED then st1
      else if start <= now && rec.state != EventState.STARTED then
        Notify(st1, h, rec.(state := EventState.STARTED), EventStatus.STARTED, false)
      else if rec.state == EventState.NEW then
        var st2 := Notify(st1, h, rec.(state := EventState.ANNOUNCED), EventStatus.ANNOUNCED, true);
        st2.(jobs := st2.jobs + [AutoStart(h, start)])
      else if rec.state == EventState.WAITING && rec.nextNotifyAt.Some? && now >= rec.nextNotifyAt.value then
        var st2 := Notify(st1, h, rec, EventStatus.SOON, true);
        st2.(rows := st2.rows[h := st2.rows[h].(nextNotifyAt := None)])
      else st1
  }

  /** A tick over a list of events, in order. */
  function RunEvents(now: Time, evs: seq<Event>, st: TickState, showTime: Time -> string): (r: TickState)
    ensures |st.log| <= |r.log| <= |st.log| + |evs| && r.log[..|st.log|] == st.log
    ensures |st.jobs| <= |r.jobs| && r.jobs[..|st.jobs|] == st.jobs
    decreases |evs|
  {
    if evs == [] then st
    else RunEvents(now, evs[1..], Process(now, evs[0], st, showTime), showTime)
  }

  /** How many messages the tick would send for these events. */
  function Sent(now: Time, evs: seq<Event>, st: TickState, showTime: Time -> string): nat {
    |RunEvents(now, evs, st, showTime).log| - |st.log|
  }

  // ---------------------------------------------------------------------
  // One event

  /** An event without a hash or a start changes nothing. */
  lemma ProcessSkips(now: Time, ev: Event, st: TickState, showTime: Time -> string)
    requires !Trackable(ev)
    ensures Process(now, ev, st, showTime) == st
  {
  }

  /** The first sighting of a hash stores a record for it with the event's
      start and rendered template; a stored record keeps its identity,
      start and template. Other records are untouched. */
  lemma ProcessRecord(now: Time, ev: Event, st: TickState, showTime: Time -> string)
    requires Trackable(ev)
    ensures var r := Process(now, ev, st, showTime);
            var h := ev.evHash.value;
            && r.rows.Keys == st.rows.Keys + {h}
            && (forall k | k in st.rows && k != h :: r.rows[k] == st.rows[k])
            && (h !in st.rows ==> r.rows[h].eventId == h && r.rows[h].start == ev.start.value
                                  && r.rows[h].messageTemplate == MessageTemplate(ev, showTime))
            && (h in st.rows ==> r.rows[h].eventId == st.rows[h].eventId && r.rows[h].start == st.rows[h].start
                                 && r.rows[h].messageTemplate == st.rows[h].messageTemplate)
  {
  }

  /** The primary key survives a step. */
  lemma ProcessKeyedById(now: Time, ev: Event, st: TickState, showTime: Time -> string)
    requires KeyedById(st.rows)
    ensures KeyedById(Process(now, ev, st, showTime).rows)
  {
    if Trackable(ev) {
      ProcessRecord(now, ev, st, showTime);
    }
  }

  /** A confirmed occurrence is left alone. */
  lemma ProcessConfirmed(now: Time, ev: Event, st: TickState, showTime: Time -> string)
    requires Trackable(ev) && ev.evHash.value in st.rows
    requires st.rows[ev.evHash.value].state == EventState.CONFIRMED
    ensures Process(now, ev, st, showTime) == st
  {
    var h := ev.evHash.value;
    assert st.rows[h := st.rows[h]] == st.rows;
  }

  /** Once the start has passed, an occurrence that is neither confirmed nor
      started becomes STARTED and gets exactly one message, without buttons,
      and no job. */
  lemma ProcessStarts(now: Time, ev: Event, st: TickState, showTime: Time -> string)
    requires Trackable(ev) && ev.start.value <= now
    requires var rec := Lookup(st.rows, ev, showTime);
             rec.state != EventState.CONFIRMED && rec.state != EventState.STARTED
    ensures var r := Process(now, ev, st, showTime);
            var h := ev.evHash.value;
            var rec := Lookup(st.rows, ev, showTime);
            && r.rows == st.rows[h := rec.(state := EventState.STARTED, messageId := Some(|st.log|))]
            && r.log == st.log + [Notification(rec.eventId, EventStatus.STARTED, rec.messageTemplate, NoMarkup)]
            && r.jobs == st.jobs
  {
  }

  /** A new occurrence that has not started yet is announced with its
      buttons, becomes ANNOUNCED, and gets an auto-start job at its start,
      which lies in the future. */
  lemma ProcessAnnounces(now: Time, ev: Event, st: TickState, showTime: Time -> string)
    requires Trackable(ev) && ev.start.value > now
    requires Lookup(st.rows, ev, showTime).state == EventState.NEW
    ensures var r := Process(now, ev, st, showTime);
            var h := ev.evHash.value;
            var rec := Lookup(st.rows, ev, showTime);
            && r.rows == st.rows[h := rec.(state := EventState.ANNOUNCED, messageId := Some(|st.log|))]
            && r.log == st.log + [Notification(rec.eventId, EventStatus.ANNOUNCED, rec.messageTemplate, ActionKeyboard(rec.eventId))]
            && r.jobs == st.jobs + [AutoStart(h, ev.start.value)]
            && r.jobs[|st.jobs|].runAt > now
  {
  }

  /** A waiting occurrence whose reminder time has come gets the follow-up
      with buttons; it stays WAITING and its reminder time is cleared. */
  lemma ProcessFollowsUp(now: Time, ev: Event, st: TickState, showTime: Time -> string)
    requires Trackable(ev) && ev.start.value > now
    requires var rec := Lookup(st.rows, ev, showTime);
             rec.state == EventState.WAITING && rec.nextNotifyAt.Some? && rec.nextNotifyAt.value <= now
    ensures var r := Process(now, ev, st, showTime);
            var h := ev.evHash.value;
            var rec := Lookup(st.rows, ev, showTime);
            && r.rows == st.rows[h := rec.(messageId := Some(|st.log|), nextNotifyAt := None)]
            && r.rows[h].state == EventState.WAITING
            && r.log == st.log + [Notification(rec.eventId, EventStatus.SOON, rec.messageTemplate, ActionKeyboard(rec.eventId))]
            && r.jobs == st.jobs
  {
  }

  /** A record with nothing due: its occurrence needs no message now. */
  predicate Settled(rec: SeenEvent, start: Time, now: Time) {
    || rec.state == EventState.CONFIRMED
    || rec.state == EventState.STARTED
    || (start > now && rec.state == EventState.ANNOUNCED)
    || (start > now && rec.state == EventState.WAITING && (rec.nextNotifyAt.None? || rec.nextNotifyAt.value > now))
  }

  /** A settled occurrence causes no message, no job and no change. */
  lemma ProcessQuiet(now: Time, ev: Event, st: TickState, showTime: Time -> string)
    requires Trackable(ev) && ev.evHash.value in st.rows
    requires Settled(st.rows[ev.evHash.value], ev.start.value, now)
    ensures Process(now, ev, st, showTime) == st
  {
    var h := ev.evHash.value;
    assert st.rows[h := st.rows[h]] == st.rows;
  }

  /** Whatever it did, a step leaves the occurrence settled. */
  lemma ProcessSettles(now: Time, ev: Event, st: TickState, showTime: Time -> string)
    requires Trackable(ev)
    ensures ev.evHash.value in Process(now, ev, st, showTime).rows
    ensures Settled(Process(now, ev, st, showTime).rows[ev.evHash.value], ev.start.value, now)
  {
  }

  /** So an immediate second look at the same event does nothing. */
  lemma ProcessIdempotent(now: Time, ev: Event, st: TickState, showTime: Time -> string)
    ensures Process(now, ev, Process(now, ev, st, showTime), showTime) == Process(now, ev, st, showTime)
  {
    if Trackable(ev) {
      ProcessSettles(now, ev, st, showTime);
      ProcessQuiet(now, ev, Process(now, ev, st, showTime), showTime);
    }
  }

  // ---------------------------------------------------------------------
  // A whole tick

  /** The messages about occurrence `h` in a chat log. */
  function NoticesFor(log: seq<Outbound>, h: string): nat
    decreases |log|
  {
    if log == [] then 0
    else
      var last := log[|log| - 1];
      NoticesFor(log[..|log| - 1], h) + (if last.Notification? && last.eventId == h then 1 else 0)
  }

  lemma NoticesForPrefix(log: seq<Outbound>, more: seq<Outbound>, h: string)
    ensures NoticesFor(log, h) <= NoticesFor(log + more, h)
    decreases |more|
  {
    if more == [] {
      assert log + more == log;
    } else {
      var whole := log + more;
      assert whole[..|whole| - 1] == log + more[..|more| - 1];
      NoticesForPrefix(log, more[..|more| - 1], h);
    }
  }

  /** All events of the tick that carry hash `h` start at `start`. */
  predicate SameStart(evs: seq<Event>, h: string, start: Time) {
    forall k | 0 <= k < |evs| && Trackable(evs[k]) && evs[k].evHash.value == h :: evs[k].start.value == start
  }

  /** Once an occurrence is settled, the rest of the tick sends nothing about
      it and it stays settled. */
  lemma {:induction false} RunSettledQuiet(now: Time, evs: seq<Event>, st: TickState, showTime: Time -> string, h: string, start: Time)
    requires KeyedById(st.rows)
    requires h in st.rows && Settled(st.rows[h], start, now)
    requires SameStart(evs, h, start)
    ensures NoticesFor(RunEvents(now, evs, st, showTime).log, h) == NoticesFor(st.log, h)
    decreases |evs|
  {
    if evs != [] {
      var ev := evs[0];
      var next := Process(now, ev, st, showTime);
      ProcessKeyedById(now, ev, st, showTime);
      if Trackable(ev) && ev.evHash.value == h {
        ProcessQuiet(now, ev, st, showTime);
      } else {
        StepOtherKey(now, ev, st, showTime, h);
      }
      SameStartTail(evs, h, start);
      RunSettledQuiet(now, evs[1..], next, showTime, h, start);
    }
  }

  /** A step for another occurrence leaves `h`'s record and message count
      alone. */
  lemma StepOtherKey(now: Time, ev: Event, st: TickState, showTime: Time -> string, h: string)
    requires KeyedById(st.rows)
    requires !(Trackable(ev) && ev.evHash.value == h)
    ensures var r := Process(now, ev, st, showTime);
            && (h in r.rows <==> h in st.rows)
            && (h in st.rows ==> r.rows[h] == st.rows[h])
            && NoticesFor(r.log, h) == NoticesFor(st.log, h)
  {
    var r := Process(now, ev, st, showTime);
    if Trackable(ev) {
      ProcessRecord(now, ev, st, showTime);
    }
    StepSendsAbout(now, ev, st, showTime);
    if |r.log| > |st.log| {
      NoticesForSnoc(st.log, r.log[|st.log|], h);
    }
  }

  lemma NoticesForSnoc(log: seq<Outbound>, op: Outbound, h: string)
    ensures NoticesFor(log + [op], h) == NoticesFor(log, h) + (if op.Notification? && op.eventId == h then 1 else 0)
  {
    assert (log + [op])[..|log|] == log;
  }

  /** A message a step sends is about the step's own occurrence. */
  lemma StepSendsAbout(now: Time, ev: Event, st: TickState, showTime: Time -> string)
    requires KeyedById(st.rows)
    ensures var r := Process(now, ev, st, showTime);
            |r.log| > |st.log| ==>
              && Trackable(ev) && r.log == st.log + [r.log[|st.log|]]
              && r.log[|st.log|].Notification? && r.log[|st.log|].eventId == ev.evHash.value
  {
    var r := Process(now, ev, st, showTime);
    if |r.log| > |st.log| {
      assert Lookup(st.rows, ev, showTime).eventId == ev.evHash.value;
      assert r.log == st.log + [r.log[|st.log|]];
    }
  }

  /** A confirmed or started occurrence gets no message for the rest of the
      tick, whatever the events say, and its record does not change. */
  lemma {:induction false} RunClosedQuiet(now: Time, evs: seq<Event>, st: TickState, showTime: Time -> string, h: string)
    requires KeyedById(st.rows)
    requires h in st.rows && (st.rows[h].state == EventState.CONFIRMED || st.rows[h].state == EventState.STARTED)
    ensures var r := RunEvents(now, evs, st, showTime);
            h in r.rows && r.rows[h] == st.rows[h] && NoticesFor(r.log, h) == NoticesFor(st.log, h)
    decreases |evs|
  {
    if evs != [] {
      var ev := evs[0];
      ProcessKeyedById(now, ev, st, showTime);
      if Trackable(ev) && ev.evHash.value == h {
        ProcessQuiet(now, ev, st, showTime);
      } else {
        StepOtherKey(now, ev, st, showTime, h);
      }
      RunClosedQuiet(now, evs[1..], Process(now, ev, st, showTime), showTime, h);
    }
  }

  lemma SameStartTail(evs: seq<Event>, h: string, start: Time)
    requires evs != [] && SameStart(evs, h, start)
    ensures SameStart(evs[1..], h, start)
  {
    forall k | 0 <= k < |evs[1..]| ensures evs[1..][k] == evs[k + 1] { }
  }

  /** One step adds at most one message about any occurrence. */
  lemma StepNoticesAtMostOne(now: Time, ev: Event, st: TickState, showTime: Time -> string, h: string)
    ensures NoticesFor(Process(now, ev, st, showTime).log, h) <= NoticesFor(st.log, h) + 1
  {
    var next := Process(now, ev, st, showTime);
    if |next.log| > |st.log| {
      assert next.log == st.log + [next.log[|st.log|]];
      NoticesForSnoc(st.log, next.log[|st.log|], h);
    } else {
      assert next.log == st.log;
    }
  }

  /** The step for the occurrence's own event sends at most one message
      about it, and it is then settled for the rest of the tick. */
  lemma RunOwnStep(now: Time, ev: Event, rest: seq<Event>, st: TickState, showTime: Time -> string, h: string, start: Time)
    requires KeyedById(st.rows)
    requires Trackable(ev) && ev.evHash.value == h && ev.start.value == start
    requires SameStart(rest, h, start)
    ensures NoticesFor(RunEvents(now, rest, Process(now, ev, st, showTime), showTime).log, h) <= NoticesFor(st.log, h) + 1
  {
    var next := Process(now, ev, st, showTime);
    ProcessKeyedById(now, ev, st, showTime);
    ProcessSettles(now, ev, st, showTime);
    RunSettledQuiet(now, rest, next, showTime, h, start);
    StepNoticesAtMostOne(now, ev, st, showTime, h);
  }

  /** Within one tick an occurrence gets at most one message, provided the
      events that share its hash agree on its start. */
  lemma {:induction false} RunNoticesOnce(now: Time, evs: seq<Event>, st: TickState, showTime: Time -> string, h: string, start: Time)
    requires KeyedById(st.rows)
    requires SameStart(evs, h, start)
    ensures NoticesFor(RunEvents(now, evs, st, showTime).log, h) <= NoticesFor(st.log, h) + 1
    decreases |evs|
  {
    if evs != [] {
      var ev := evs[0];
      SameStartTail(evs, h, start);
      if Trackable(ev) && ev.evHash.value == h {
        RunOwnStep(now, ev, evs[1..], st, showTime, h, start);
      } else {
        ProcessKeyedById(now, ev, st, showTime);
        StepOtherKey(now, ev, st, showTime, h);
        RunNoticesOnce(now, evs[1..], Process(now, ev, st, showTime), showTime, h, start);
      }
    }
  }

  /** The tick from event `i` on: event `i`'s step, then the rest. */
  lemma RunFrom(now: Time, evs: seq<Event>, i: nat, st: TickState, showTime: Time -> string)
    requires i < |evs|
    ensures RunEvents(now, evs[i..], st, showTime) == RunEvents(now, evs[i + 1..], Process(now, evs[i], st, showTime), showTime)
  {
    assert evs[i..][0] == evs[i];
    assert evs[i..][1..] == evs[i + 1..];
  }

  lemma PrefixOfPrefix<T>(a: seq<T>, b: seq<T>, c: seq<T>)
    requires |a| <= |b| && b[..|a|] == a
    requires |b| <= |c| && c[..|b|] == b
    ensures c[..|a|] == a
  {
    assert c[..|a|] == c[..|b|][..|a|];
  }

  /** When a step sends a message, the rest of the tick extends what was
      sent before the step, and sends more. */
  lemma RunAfterSend(now: Time, ev: Event, rest: seq<Event>, cur: TickState, showTime: Time -> string)
    requires |Process(now, ev, cur, showTime).log| == |cur.log| + 1
    ensures var fin := RunEvents(now, rest, Process(now, ev, cur, showTime), showTime);
            && |cur.log| + 1 <= |fin.log| && fin.log[..|cur.log|] == cur.log
            && |cur.jobs| <= |fin.jobs| && fin.jobs[..|cur.jobs|] == cur.jobs
  {
    var want := Process(now, ev, cur, showTime);
    var fin := RunEvents(now, rest, want, showTime);
    PrefixOfPrefix(cur.log, want.log, fin.log);
    PrefixOfPrefix(cur.jobs, want.jobs, fin.jobs);
  }

  /** Where a tick stops when the chat has room for `room` more messages:
      the events are processed in order up to the first one whose message
      does not fit; that event and the rest are never processed. */
  function Halted(now: Time, evs: seq<Event>, st: TickState, room: nat, showTime: Time -> string): TickState
    decreases |evs|
  {
    if evs == [] then st
    else
      var nx := Process(now, evs[0], st, showTime);
      var sent := |nx.log| - |st.log|;
      if sent > room then st else Halted(now, evs[1..], nx, room - sent, showTime)
  }

  /** A tick whose messages fit the room ends where the full tick ends;
      otherwise it has sent exactly as many messages as there was room for,
      and what it sent and armed is the start of what the full tick would. */
  lemma {:induction false} HaltedSpec(now: Time, evs: seq<Event>, st: TickState, room: nat, showTime: Time -> string)
    ensures var h := Halted(now, evs, st, room, showTime);
            var fin := RunEvents(now, evs, st, showTime);
            && |st.jobs| <= |h.jobs|
            && (Sent(now, evs, st, showTime) <= room ==> h == fin)
            && (Sent(now, evs, st, showTime) > room ==>
                  && |h.log| == |st.log| + room && |h.log| <= |fin.log| && fin.log[..|h.log|] == h.log
                  && |h.jobs| <= |fin.jobs| && fin.jobs[..|h.jobs|] == h.jobs)
    decreases |evs|
  {
    if evs != [] {
      var nx := Process(now, evs[0], st, showTime);
      var sent := |nx.log| - |st.log|;
      if sent > room {
        RunAfterSend(now, evs[0], evs[1..], st, showTime);
      } else {
        HaltedSpec(now, evs[1..], nx, room - sent, showTime);
      }
    }
  }

  /** The stopping point is the tick over the events before the refused
      one, whose message does not fit. */
  lemma {:induction false} HaltedBeforeRefused(now: Time, evs: seq<Event>, st: TickState, room: nat, showTime: Time -> string)
    requires Sent(now, evs, st, showTime) > room
    ensures exists i | 0 <= i < |evs| ::
              && Halted(now, evs, st, room, showTime) == RunEvents(now, evs[..i], st, showTime)
              && |Process(now, evs[i], RunEvents(now, evs[..i], st, showTime), showTime).log|
                 > |RunEvents(now, evs[..i], st, showTime).log| + (room - (|RunEvents(now, evs[..i], st, showTime).log| - |st.log|))
    decreases |evs|
  {
    var nx := Process(now, evs[0], st, showTime);
    var sent := |nx.log| - |st.log|;
    assert evs[..0] == [];
    if sent > room {
      assert RunEvents(now, evs[..0], st, showTime) == st;
    } else {
      HaltedBeforeRefused(now, evs[1..], nx, room - sent, showTime);
      var i :| 0 <= i < |evs[1..]| &&
               Halted(now, evs[1..], nx, room - sent, showTime) == RunEvents(now, evs[1..][..i], nx, showTime) &&
               |Process(now, evs[1..][i], RunEvents(now, evs[1..][..i], nx, showTime), showTime).log|
               > |RunEvents(now, evs[1..][..i], nx, showTime).log| + (room - sent - (|RunEvents(now, evs[1..][..i], nx, showTime).log| - |nx.log|));
      var pre := evs[..i + 1];
      assert pre[0] == evs[0] && pre[1..] == evs[1..][..i];
      assert evs[i + 1] == evs[1..][i];
      assert RunEvents(now, pre, st, showTime) == RunEvents(now, evs[1..][..i], nx, showTime);
    }
  }

  /** The stopping point from event `i` on: event `i` is refused, or its step
      is taken and the rest follows with what room is left. */
  lemma HaltedFrom(now: Time, evs: seq<Event>, i: nat, st: TickState, room: nat, showTime: Time -> string)
    requires i < |evs|
    ensures var nx := Process(now, evs[i], st, showTime);
            var sent := |nx.log| - |st.log|;
            Halted(now, evs[i..], st, room, showTime)
            == if sent > room then st else Halted(now, evs[i + 1..], nx, room - sent, showTime)
  {
    assert evs[i..][0] == evs[i];
    assert evs[i..][1..] == evs[i + 1..];
  }

  /** The bookkeeping of a tick's loop after its first `i` events: it stands
      at `cur`, having sent what the log shows past `log0` out of the chat's
      quota `q0`, with `quota` left; the rest of the events take it to `fin`,
      where the whole tick goes, and with the quota left they stop at
      `stop`. */
  ghost predicate TickSoFar(now: Time, evs: seq<Event>, i: nat, log0: seq<Outbound>, q0: Option<nat>,
                            cur: TickState, quota: Option<nat>, fin: TickState, stop: TickState, showTime: Time -> string)
  {
    && i <= |evs|
    && |log0| <= |cur.log| && Fits(q0, |cur.log| - |log0|)
    && quota == Spend(q0, |cur.log| - |log0|)
    && fin == RunEvents(now, evs[i..], cur, showTime)
    && (quota.Some? ==> stop == Halted(now, evs[i..], cur, quota.value, showTime))
  }

  lemma TickStarts(now: Time, evs: seq<Event>, st0: TickState, q0: Option<nat>, stop: TickState, showTime: Time -> string)
    requires q0.Some? ==> stop == Halted(now, evs, st0, q0.value, showTime)
    ensures TickSoFar(now, evs, 0, st0.log, q0, st0, q0, RunEvents(now, evs, st0, showTime), stop, showTime)
  {
    assert evs[0..] == evs;
  }

  /** An event whose message the chat accepts moves the loop on by one. */
  lemma TickAccepts(now: Time, evs: seq<Event>, i: nat, log0: seq<Outbound>, q0: Option<nat>,
                    cur: TickState, quota: Option<nat>, fin: TickState, stop: TickState, showTime: Time -> string)
    requires TickSoFar(now, evs, i, log0, q0, cur, quota, fin, stop, showTime) && i < |evs|
    requires Fits(quota, |Process(now, evs[i], cur, showTime).log| - |cur.log|)
    ensures var nx := Process(now, evs[i], cur, showTime);
            TickSoFar(now, evs, i + 1, log0, q0, nx, Spend(quota, |nx.log| - |cur.log|), fin, stop, showTime)
  {
    var nx := Process(now, evs[i], cur, showTime);
    var sent := |nx.log| - |cur.log|;
    RunStep(now, evs, i, cur, fin, showTime);
    SpendTwice(q0, |cur.log| - |log0|, sent);
    if quota.Some? {
      HaltedStep(now, evs, i, cur, quota.value, stop, showTime);
    }
  }

  lemma RunStep(now: Time, evs: seq<Event>, i: nat, cur: TickState, fin: TickState, showTime: Time -> string)
    requires i < |evs|
    requires fin == RunEvents(now, evs[i..], cur, showTime)
    ensures fin == RunEvents(now, evs[i + 1..], Process(now, evs[i], cur, showTime), showTime)
  {
    RunFrom(now, evs, i, cur, showTime);
  }

  lemma HaltedStep(now: Time, evs: seq<Event>, i: nat, cur: TickState, room: nat, stop: TickState, showTime: Time -> string)
    requires i < |evs|
    requires stop == Halted(now, evs[i..], cur, room, showTime)
    requires |Process(now, evs[i], cur, showTime).log| - |cur.log| <= room
    ensures var nx := Process(now, evs[i], cur, showTime);
            var sent := |nx.log| - |cur.log|;
            && Spend(Some(room), sent) == Some(room - sent)
            && stop == Halted(now, evs[i + 1..], nx, room - sent, showTime)
  {
    var nx := Process(now, evs[i], cur, showTime);
    var sent := |nx.log| - |cur.log|;
    HaltedFrom(now, evs, i, cur, room, showTime);
    assert !(sent > room);
  }

  /** An event whose message the chat refuses is where the tick stops, and
      the whole tick would not have fitted. */
  lemma TickRefused(now: Time, evs: seq<Event>, i: nat, log0: seq<Outbound>, q0: Option<nat>,
                    cur: TickState, quota: Option<nat>, fin: TickState, stop: TickState, showTime: Time -> string)
    requires TickSoFar(now, evs, i, log0, q0, cur, quota, fin, stop, showTime) && i < |evs|
    requires !Fits(quota, |Process(now, evs[i], cur, showTime).log| - |cur.log|)
    ensures q0.Some? && stop == cur
    ensures |log0| <= |fin.log| && !Fits(q0, |fin.log| - |log0|)
  {
    RunFrom(now, evs, i, cur, showTime);
    HaltedFrom(now, evs, i, cur, quota.value, showTime);
    RunAfterSend(now, evs[i], evs[i + 1..], cur, showTime);
  }

  /** Once every event is accepted, the loop stands where the tick ends. */
  lemma TickEnds(now: Time, evs: seq<Event>, log0: seq<Outbound>, q0: Option<nat>,
                 cur: TickState, quota: Option<nat>, fin: TickState, stop: TickState, showTime: Time -> string)
    requires TickSoFar(now, evs, |evs|, log0, q0, cur, quota, fin, stop, showTime)
    ensures fin == cur
    ensures |log0| <= |fin.log| && Fits(q0, |fin.log| - |log0|)
  {
    assert evs[|evs|..] == [];
  }

  /** The primary key survives a tick. */
  lemma {:induction false} RunKeyedById(now: Time, evs: seq<Event>, st: TickState, showTime: Time -> string)
    requires KeyedById(st.rows)
    ensures KeyedById(RunEvents(now, evs, st, showTime).rows)
    decreases |evs|
  {
    if evs != [] {
      ProcessKeyedById(now, evs[0], st, showTime);
      RunKeyedById(now, evs[1..], Process(now, evs[0], st, showTime), showTime);
    }
  }

  // ---------------------------------------------------------------------
  // Auto-start

  /** The guard of _auto_start_event: a record exists and is neither
      confirmed nor started. */
  predicate AutoStartDue(rows: map<string, SeenEvent>, eventId: string) {
    eventId in rows && rows[eventId].state != EventState.CONFIRMED && rows[eventId].state != EventState.STARTED
  }

  /** The records after an auto-start job that went through. */
  function AutoStarted(rows: map<string, SeenEvent>, eventId: string): (r: map<string, SeenEvent>)
    ensures r.Keys == rows.Keys
    ensures forall k | k in rows && k != eventId :: r[k] == rows[k]
    ensures AutoStartDue(rows, eventId) ==> r[eventId] == rows[eventId].(state := EventState.STARTED)
    ensures !AutoStartDue(rows, eventId) ==> r == rows
  {
    if AutoStartDue(rows, eventId) then rows[eventId := rows[eventId].(state := EventState.STARTED)] else rows
  }

  /** The two edits the job makes to the occurrence's message. */
  function AutoStartEdits(rec: SeenEvent): seq<Outbound> {
    [EditText(rec.messageId, EventStatus.SOON, rec.messageTemplate), EditMarkup(rec.messageId, NoMarkup)]
  }

  /** After the auto-start job, the tick sends no "started" message for the
      occurrence: it is already STARTED. */
  lemma AutoStartSilencesTick(now: Time, ev: Event, st: TickState, showTime: Time -> string)
    requires Trackable(ev) && AutoStartDue(st.rows, ev.evHash.value)
    ensures Process(now, ev, st.(rows := AutoStarted(st.rows, ev.evHash.value)), showTime).log == st.log
  {
    var rows := AutoStarted(st.rows, ev.evHash.value);
    ProcessQuiet(now, ev, st.(rows := rows), showTime);
  }

  // ---------------------------------------------------------------------
  // The worker

  class NotifierWorker {
    const calClient: MultiCalendarManager
    const chat: Chat
    const scheduler: Scheduler
    const store: Store
    /** AHEAD_HOUR: how many hours ahead a tick looks. */
    const aheadHour: int
    /** `start.strftime("%d.%m %H:%M")`. */
    const showTime: Time -> string

    constructor (calClient: MultiCalendarManager, chat: Chat, scheduler: Scheduler, store: Store,
                 aheadHour: int, showTime: Time -> string)
      ensures this.calClient == calClient && this.chat == chat && this.scheduler == scheduler
      ensures this.store == store && this.aheadHour == aheadHour && this.showTime == showTime
    {
      this.calClient := calClient;
      this.chat := chat;
      this.scheduler := scheduler;
      this.store := store;
      this.aheadHour := aheadHour;
      this.showTime := showTime;
    }

    /** send_event_notification on the session's record under `key`. */
    method SendEventNotification(session: map<string, SeenEvent>, key: string, rec: SeenEvent, status: EventStatus, withButtons: bool)
      returns (ok: bool, next: map<string, SeenEvent>)
      modifies chat
      ensures ok == Accepts(old(chat.quota))
      ensures ok ==> TickState(next, chat.log, scheduler.jobs)
                     == Notify(TickState(session, old(chat.log), scheduler.jobs), key, rec, status, withButtons)
      ensures ok ==> chat.quota == Spend(old(chat.quota), 1)
      ensures !ok ==> chat.log == old(chat.log) && chat.quota == old(chat.quota)
    {
      var keyboard := Buttons(rec.eventId, withButtons);
      var messageId;
      ok, messageId := chat.Deliver(Notification(rec.eventId, status, rec.messageTemplate, keyboard));
      next := session;
      if ok {
        next := session[key := rec.(messageId := Some(messageId))];
      }
    }

    /** One pass of check_and_notify's loop. */
    method ProcessEvent(now: Time, ev: Event, session: map<string, SeenEvent>) returns (ok: bool, next: map<string, SeenEvent>)
      modifies chat, scheduler
      ensures var want := Process(now, ev, TickState(session, old(chat.log), old(scheduler.jobs)), showTime);
              && (ok <==> Fits(old(chat.quota), |want.log| - |old(chat.log)|))
              && (ok ==> next == want.rows && chat.log == want.log && scheduler.jobs == want.jobs
                         && chat.quota == Spend(old(chat.quota), |want.log| - |old(chat.log)|))
              && (!ok ==> chat.log == old(chat.log) && scheduler.jobs == old(scheduler.jobs)
                          && chat.quota == old(chat.quota) && |want.log| == |old(chat.log)| + 1)
    {
      ghost var st := TickState(session, chat.log, scheduler.jobs);
      next := session;
      ok := true;
      if !Trackable(ev) {
        return;
      }
      var h := ev.evHash.value;
      var startDt := ev.start.value;
      var rec := Lookup(session, ev, showTime);
      next := session[h := rec];
      if rec.state == EventState.CONFIRMED {
        return;
      }
      if startDt <= now && rec.state != EventState.STARTED {
        rec := rec.(state := EventState.STARTED);
        ok, next := SendEventNotification(next, h, rec, EventStatus.STARTED, false);
        return;
      }
      if rec.state == EventState.NEW {
        rec := rec.(state := EventState.ANNOUNCED);
        ok, next := SendEventNotification(next, h, rec, EventStatus.ANNOUNCED, true);
        if !ok {
          return;
        }
        scheduler.AddJob(AutoStart(h, startDt));
        rec := next[h];
      }
      if rec.state == EventState.WAITING && rec.nextNotifyAt.Some? {
        if now >= rec.nextNotifyAt.value {
          ok, next := SendEventNotification(next, h, rec, EventStatus.SOON, true);
          if !ok {
            return;
          }
          rec := next[h].(nextNotifyAt := None);
          next := next[h := rec];
        }
      }
    }

    /** check_and_notify, at the instant `now`: read the events of the
        coming `aheadHour` hours, then run the tick over them. */
    method CheckAndNotify(now: Time) returns (r: Outcome)
      requires store.Valid()
      modifies store, chat, scheduler
      ensures store.Valid()
      ensures var fetched := Gather(Sources(calClient.clients), calClient.listEventsBetween, now, now + aheadHour * HOUR);
              && (fetched == Failure(RuntimeError(NEED_REAUTH)) ==>
                    && store.rows == old(store.rows) && scheduler.jobs == old(scheduler.jobs)
                    && (Accepts(old(chat.quota)) ==> r == Completed && chat.log == old(chat.log) + [PlainMessage(REAUTH_TEXT)])
                    && (!Accepts(old(chat.quota)) ==> r == Raised(DeliveryError) && chat.log == old(chat.log)))
              && (fetched.Failure? && fetched != Failure(RuntimeError(NEED_REAUTH)) ==>
                    r == Raised(fetched.error) && store.rows == old(store.rows)
                    && chat.log == old(chat.log) && scheduler.jobs == old(scheduler.jobs))
      ensures var fetched := Gather(Sources(calClient.clients), calClient.listEventsBetween, now, now + aheadHour * HOUR);
              fetched.Success? ==> TickDone(now, fetched.value, old(store.rows), old(chat.log), old(scheduler.jobs), old(chat.quota),
                                            r, store.rows, chat.log, scheduler.jobs)
    {
      var fetched := calClient.ListAllEvents(now, now + aheadHour * HOUR);
      if fetched.Failure? {
        if fetched.error == RuntimeError(NEED_REAUTH) {
          var ok, _ := chat.Deliver(PlainMessage(REAUTH_TEXT));
          if !ok {
            return Raised(DeliveryError);
          }
          return Completed;
        }
        return Raised(fetched.error);
      }
      r := RunTick(now, fetched.value);
    }

    /** What a tick over `evs` leaves behind: when the chat accepts every
        message the tick sends, the records, the chat and the scheduler are
        those of `RunEvents`; otherwise the tick stops at the first refused
        message, no record changes (nothing is committed), and the chat and
        the scheduler keep what was sent and armed up to that point. */
    ghost predicate TickDone(now: Time, evs: seq<Event>, rows0: map<string, SeenEvent>, log0: seq<Outbound>, jobs0: seq<Job>,
                             quota0: Option<nat>, r: Outcome, rows: map<string, SeenEvent>, log: seq<Outbound>, jobs: seq<Job>)
    {
      var st0 := TickState(rows0, log0, jobs0);
      var fin := RunEvents(now, evs, st0, showTime);
      && (Fits(quota0, Sent(now, evs, st0, showTime)) ==>
            r == Completed && rows == fin.rows && log == fin.log && jobs == fin.jobs)
      && (!Fits(quota0, Sent(now, evs, st0, showTime)) ==>
            && r == Raised(DeliveryError) && rows == rows0 && quota0.Some?
            && log == Halted(now, evs, st0, quota0.value, showTime).log
            && jobs == Halted(now, evs, st0, quota0.value, showTime).jobs
            && |log| == |log0| + quota0.value
            && |log| <= |fin.log| && log == fin.log[..|log|]
            && |jobs0| <= |jobs| <= |fin.jobs| && jobs == fin.jobs[..|jobs|])
    }

    /** The loop of check_and_notify over the fetched events, on the
        session's working copy `session0` of the records: it stops at the
        first message the chat refuses. */
    method ProcessAll(now: Time, evs: seq<Event>, session0: map<string, SeenEvent>) returns (ok: bool, session: map<string, SeenEvent>)
      requires KeyedById(session0)
      modifies chat, scheduler
      ensures KeyedById(session)
      ensures var st0 := TickState(session0, old(chat.log), old(scheduler.jobs));
              var fin := RunEvents(now, evs, st0, showTime);
              && (ok <==> Fits(old(chat.quota), Sent(now, evs, st0, showTime)))
              && (ok ==> session == fin.rows && chat.log == fin.log && scheduler.jobs == fin.jobs)
              && (!ok ==> old(chat.quota).Some?
                          && chat.log == Halted(now, evs, st0, old(chat.quota).value, showTime).log
                          && scheduler.jobs == Halted(now, evs, st0, old(chat.quota).value, showTime).jobs)
    {
      ghost var st0 := TickState(session0, chat.log, scheduler.jobs);
      ghost var q0 := chat.quota;
      ghost var fin := RunEvents(now, evs, st0, showTime);
      ghost var stop := if q0.Some? then Halted(now, evs, st0, q0.value, showTime) else st0;
      session := session0;
      TickStarts(now, evs, st0, q0, stop, showTime);
      var i := 0;
      while i < |evs|
        invariant 0 <= i <= |evs|
        invariant KeyedById(session)
        invariant TickSoFar(now, evs, i, st0.log, q0, TickState(session, chat.log, scheduler.jobs), chat.quota, fin, stop, showTime)
      {
        ghost var cur := TickState(session, chat.log, scheduler.jobs);
        ghost var quota := chat.quota;
        ProcessKeyedById(now, evs[i], cur, showTime);
        var next;
        ok, next := ProcessEvent(now, evs[i], session);
        if !ok {
          TickRefused(now, evs, i, st0.log, q0, cur, quota, fin, stop, showTime);
          return;
        }
        TickAccepts(now, evs, i, st0.log, q0, cur, quota, fin, stop, showTime);
        session := next;
        i := i + 1;
      }
      TickEnds(now, evs, st0.log, q0, TickState(session, chat.log, scheduler.jobs), chat.quota, fin, stop, showTime);
      ok := true;
    }

    /** The loop of check_and_notify and the commit that follows it. */
    method RunTick(now: Time, evs: seq<Event>) returns (r: Outcome)
      requires store.Valid()
      modifies store, chat, scheduler
      ensures store.Valid()
      ensures TickDone(now, evs, old(store.rows), old(chat.log), old(scheduler.jobs), old(chat.quota),
                       r, store.rows, chat.log, scheduler.jobs)
    {
      ghost var st0 := TickState(store.rows, chat.log, scheduler.jobs);
      ghost var q0 := chat.quota;
      var ok, session := ProcessAll(now, evs, store.rows);
      if !ok {
        HaltedSpec(now, evs, st0, q0.value, showTime);
        return Raised(DeliveryError);
      }
      store.rows := session;
      r := Completed;
    }

    /** _auto_start_event for the occurrence `eventId`. */
    method AutoStartEvent(eventId: string) returns (r: Outcome)
      requires store.Valid()
      modifies store, chat
      ensures store.Valid()
      ensures !AutoStartDue(old(store.rows), eventId) ==>
                r == Completed && store.rows == old(store.rows) && chat.log == old(chat.log)
      ensures AutoStartDue(old(store.rows), eventId) ==>
                var edits := AutoStartEdits(old(store.rows)[eventId]);
                && (Fits(old(chat.quota), 2) ==>
                      r == Completed && store.rows == AutoStarted(old(store.rows), eventId)
                      && chat.log == old(chat.log) + edits)
                && (!Fits(old(chat.quota), 2) ==>
                      r == Raised(DeliveryError) && store.rows == old(store.rows)
                      && chat.log == old(chat.log) + edits[..Accepted(old(chat.quota), 2)])
    {
      if !AutoStartDue(store.rows, eventId) {
        return Completed;
      }
      var rec := store.rows[eventId];
      var ok, _ := chat.Deliver(EditText(rec.messageId, EventStatus.SOON, rec.messageTemplate));
      if !ok {
        return Raised(DeliveryError);
      }
      var ok2, _ := chat.Deliver(EditMarkup(rec.messageId, NoMarkup));
      ok := ok2;
      if !ok {
        return Raised(DeliveryError);
      }
      store.rows := store.rows[eventId := rec.(state := EventState.STARTED)];
      r := Completed;
    }
  }
}
