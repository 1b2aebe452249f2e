/** The persistent side of the notifier (app/database.py): the tracking state
    of one calendar occurrence, the table of such records keyed by the
    occurrence's hash, and the sweep that purges records a week after their
    event started. */
module Database {

  import opened Common

  /** Where one occurrence is in its notification life cycle. */
  datatype EventState =
    | NEW         // seen, nothing sent yet
    | ANNOUNCED   // the first message went out
    | WAITING     // the user picked a reminder delay
    | CONFIRMED   // the user acknowledged the event
    | STARTED     // the event began

  /** One row of `seen_events`. */
  datatype SeenEvent = SeenEvent(
    eventId: string,
    start: Time,
    state: EventState,
    messageId: Option<int>,
    messageTemplate: string,
    nextNotifyAt: Option<Time>)

  /** The row `SeenEvent(event_id=…, start=…, state=NEW, message_template=…)`
      builds: the nullable columns start out NULL. */
  function NewSeenEvent(eventId: string, start: Time, template: string): (r: SeenEvent)
    ensures r.eventId == eventId && r.start == start && r.messageTemplate == template
    ensures r.state == NEW && r.messageId.None? && r.nextNotifyAt.None?
  {
    SeenEvent(eventId, start, NEW, None, template, None)
  }

  /** The primary key: every row is stored under its own `event_id`, so there
      is at most one row per occurrence. */
  ghost predicate KeyedById(rows: map<string, SeenEvent>) {
    forall k | k in rows :: rows[k].eventId == k
  }

  /** The oldest start a row may have and survive the sweep at `now`. */
  function RetentionThreshold(now: Time): Time {
    now - WEEK
  }

  /** The rows whose event started before `threshold`. */
  function Expired(rows: map<string, SeenEvent>, threshold: Time): set<string> {
    set k | k in rows && rows[k].start < threshold
  }

  /** The table without the expired rows. */
  function Retained(rows: map<string, SeenEvent>, threshold: Time): map<string, SeenEvent> {
    map k | k in rows && rows[k].start >= threshold :: rows[k]
  }

  /** The sweep splits the table in two: what it keeps, untouched, and what it
      deletes, and the two sizes add up to the size of the table. */
  lemma RetentionPartition(rows: map<string, SeenEvent>, threshold: Time)
    ensures Retained(rows, threshold).Keys !! Expired(rows, threshold)
    ensures Retained(rows, threshold).Keys + Expired(rows, threshold) == rows.Keys
    ensures forall k | k in Retained(rows, threshold) :: Retained(rows, threshold)[k] == rows[k]
    ensures |Retained(rows, threshold)| + |Expired(rows, threshold)| == |rows|
  {
    var kept := Retained(rows, threshold);
    var gone := Expired(rows, threshold);
    assert kept.Keys + gone == rows.Keys;
    assert |kept.Keys + gone| == |kept.Keys| + |gone|;
  }

  /** A row the sweep keeps is still keyed by its own id. */
  lemma RetainedKeyedById(rows: map<string, SeenEvent>, threshold: Time)
    requires KeyedById(rows)
    ensures KeyedById(Retained(rows, threshold))
  {
  }

  /** The `seen_events` table. */
  class Store {
    var rows: map<string, SeenEvent>

    ghost predicate Valid()
      reads this
    {
      KeyedById(rows)
    }

    constructor ()
      ensures Valid() && rows == map[]
    {
      rows := map[];
    }

    /** clean_old_events: deletes every row whose event started more than a
        week before `now`, returns how many it deleted and whether it
        committed (only when it deleted something). */
    method CleanOldEvents(now: Time) returns (deleted: nat, committed: bool)
      requires Valid()
      modifies this
      ensures Valid()
      ensures rows == Retained(old(rows), RetentionThreshold(now))
      ensures deleted == |Expired(old(rows), RetentionThreshold(now))|
      ensures deleted == |old(rows)| - |rows|
      ensures committed <==> deleted > 0
    {
      var threshold := RetentionThreshold(now);
      var oldEvents := Expired(rows, threshold);
      deleted := |oldEvents|;
      var session := rows;
      var pending := oldEvents;
      while pending != {}
        invariant pending <= oldEvents
        invariant session == rows - (oldEvents - pending)
        decreases pending
      {
        var ev :| ev in pending;
        session := session - {ev};
        pending := pending - {ev};
      }
      assert session == Retained(rows, threshold);
      RetentionPartition(rows, threshold);
      RetainedKeyedById(rows, threshold);
      committed := false;
      if deleted > 0 {
        rows := session;
        committed := true;
      }
    }
  }
}
