/** The calendar client (app/google_calendar.py): turning the calendar API's
    items into event records, the time windows of a day and of a week, and
    the credential check made before every read. The API itself, OAuth, the
    token file's pickling, `fromisoformat`, `str(datetime)` and md5 are
    outside the model; the client receives them as functions. */
module GoogleCalendar {

  import opened Common

  /** A parsed `datetime`: its wall-clock reading in seconds since
      1970-01-01 00:00, and its UTC offset in seconds (None: naive). */
  datatype DateTime = DateTime(wall: int, offset: Option<int>)

  /** The instant a parsed value denotes; a naive value is read in the
      client's zone. */
  function Instant(d: DateTime, tzOffset: int): Time {
    d.wall - d.offset.GetOr(tzOffset)
  }

  /** The `start` or `end` object of an API item; a missing object is one
      with neither key. */
  datatype TimeField = TimeField(dateTime: Option<string>, date: Option<string>)

  /** One item of the API's `items` list. */
  datatype ApiItem = ApiItem(id: Option<string>, summary: Option<string>, start: TimeField, end: TimeField)

  /** `datetime.fromisoformat`, `str(datetime)` and md5's hex digest. */
  datatype Codecs = Codecs(
    fromIso: string -> Option<DateTime>,
    show: DateTime -> string,
    md5: string -> Digest)

  predicate IsHex(c: char) {
    '0' <= c <= '9' || 'a' <= c <= 'f'
  }

  /** An md5 hex digest: 32 lower-case hex digits. */
  type Digest = d: string | |d| == 32 && forall k | 0 <= k < |d| :: IsHex(d[k])
    witness "00000000000000000000000000000000"

  /** `f.get("dateTime") or f.get("date")`: an empty `dateTime` counts as
      missing. */
  function RawValue(f: TimeField): (v: Option<string>)
    ensures f.dateTime.Some? && f.dateTime.value != "" ==> v == f.dateTime
    ensures (f.dateTime.None? || f.dateTime.value == "") ==> v == f.date
  {
    if f.dateTime.Some? && f.dateTime.value != "" then f.dateTime else f.date
  }

  const NO_LEN: string := "object of type 'NoneType' has no len()"
  const BAD_ISO: string := "Invalid isoformat string"

  /** _parse_datetime: a ten-character value (an all-day `date`) is taken at
      midnight in the client's zone; anything else keeps the offset it was
      written with. */
  function ParseDateTime(f: TimeField, tzOffset: int, c: Codecs): (r: Result<DateTime>)
    ensures RawValue(f).None? ==> r == Failure(TypeError(NO_LEN))
    ensures RawValue(f).Some? && c.fromIso(RawValue(f).value).None? ==> r == Failure(ValueError(BAD_ISO))
    ensures r.Success? <==> RawValue(f).Some? && c.fromIso(RawValue(f).value).Some?
    ensures r.Success? ==> r.value.wall == c.fromIso(RawValue(f).value).value.wall
    ensures r.Success? && |RawValue(f).value| == 10 ==> r.value.offset == Some(tzOffset)
    ensures r.Success? && |RawValue(f).value| != 10 ==> r.value == c.fromIso(RawValue(f).value).value
  {
    match RawValue(f)
    case None => Failure(TypeError(NO_LEN))
    case Some(v) =>
      match c.fromIso(v)
      case None => Failure(ValueError(BAD_ISO))
      case Some(d) => if |v| == 10 then Success(d.(offset := Some(tzOffset))) else Success(d)
  }

  /** The text hashed to identify an occurrence: `f"{id}_{start}"`, with a
      missing id printed as `None`. */
  function HashKey(id: Option<string>, startText: string): string {
    id.GetOr("None") + "_" + startText
  }

  /** `md5(key).hexdigest()[:16]`. */
  function EventHash(md5: string -> Digest, key: string): (h: string)
    ensures |h| == 16
    ensures forall k | 0 <= k < |h| :: IsHex(h[k])
    ensures ':' !in h
    ensures h == md5(key)[..16]
  {
    var d := md5(key);
    assert forall k | 0 <= k < 16 :: IsHex(d[..16][k]);
    d[..16]
  }

  /** The record list_events_between builds for one item. */
  function ItemToEvent(item: ApiItem, tzOffset: int, c: Codecs): (r: Result<Event>)
    ensures r.Failure? <==> ParseDateTime(item.start, tzOffset, c).Failure? || ParseDateTime(item.end, tzOffset, c).Failure?
    ensures r.Success? ==>
              var s := ParseDateTime(item.start, tzOffset, c).value;
              && r.value.evHash == Some(EventHash(c.md5, HashKey(item.id, c.show(s))))
              && r.value.summary == Some(item.summary.GetOr(UNTITLED))
              && r.value.start == Some(Instant(s, tzOffset))
              && r.value.end == Some(Instant(ParseDateTime(item.end, tzOffset, c).value, tzOffset))
              && r.value.calendarName.None?
  {
    match ParseDateTime(item.start, tzOffset, c)
    case Failure(e) => Failure(e)
    case Success(s) =>
      match ParseDateTime(item.end, tzOffset, c)
      case Failure(e) => Failure(e)
      case Success(en) =>
        Success(Event(
          Some(EventHash(c.md5, HashKey(item.id, c.show(s)))),
          Some(item.summary.GetOr(UNTITLED)),
          Some(Instant(s, tzOffset)),
          Some(Instant(en, tzOffset)),
          None))
  }

  /** Two items for the same id and the same parsed start get the same hash,
      whatever else differs between them. */
  lemma SameOccurrenceSameHash(a: ApiItem, b: ApiItem, tzOffset: int, c: Codecs)
    requires a.id == b.id
    requires ParseDateTime(a.start, tzOffset, c) == ParseDateTime(b.start, tzOffset, c)
    requires ItemToEvent(a, tzOffset, c).Success? && ItemToEvent(b, tzOffset, c).Success?
    ensures ItemToEvent(a, tzOffset, c).value.evHash == ItemToEvent(b, tzOffset, c).value.evHash
  {
  }

  /** The records of a list of items, or the first parse error. */
  function ItemsToEvents(items: seq<ApiItem>, tzOffset: int, c: Codecs): (r: Result<seq<Event>>)
    ensures r.Success? ==> |r.value| == |items|
    ensures r.Success? ==> forall k | 0 <= k < |r.value| ::
              r.value[k].evHash.Some? && r.value[k].start.Some? && r.value[k].calendarName.None?
    decreases |items|
  {
    if items == [] then Success([])
    else
      match ItemToEvent(items[0], tzOffset, c)
      case Failure(e) => Failure(e)
      case Success(ev) =>
        match ItemsToEvents(items[1..], tzOffset, c)
        case Failure(e) => Failure(e)
        case Success(rest) => Success([ev] + rest)
  }

  /** One record per item, in item order; the conversion fails exactly when
      some item's times do not parse. */
  lemma {:induction false} ItemsToEventsSpec(items: seq<ApiItem>, tzOffset: int, c: Codecs)
    ensures ItemsToEvents(items, tzOffset, c).Success? <==>
              forall k | 0 <= k < |items| :: ItemToEvent(items[k], tzOffset, c).Success?
    ensures ItemsToEvents(items, tzOffset, c).Success? ==>
              var evs := ItemsToEvents(items, tzOffset, c).value;
              |evs| == |items| && forall k | 0 <= k < |items| :: evs[k] == ItemToEvent(items[k], tzOffset, c).value
    decreases |items|
  {
    if items != [] {
      ItemsToEventsSpec(items[1..], tzOffset, c);
      forall k | 0 < k < |items| ensures items[k] == items[1..][k - 1] { }
    }
  }

  lemma ItemsToEventsAppend(items: seq<ApiItem>, item: ApiItem, tzOffset: int, c: Codecs, out: seq<Event>)
    requires ItemsToEvents(items, tzOffset, c) == Success(out)
    requires ItemToEvent(item, tzOffset, c).Success?
    ensures ItemsToEvents(items + [item], tzOffset, c) == Success(out + [ItemToEvent(item, tzOffset, c).value])
    decreases |items|
  {
    if items == [] {
      assert items + [item] == [item];
      assert [item][1..] == [];
      assert ItemsToEvents([item][1..], tzOffset, c) == Success([]);
      var ev := ItemToEvent(item, tzOffset, c).value;
      assert [ev] + [] == [ev];
      assert out == [];
      assert out + [ev] == [ev];
      assert ItemsToEvents([item], tzOffset, c) == Success([ev]);
    } else {
      assert (items + [item])[0] == items[0];
      assert (items + [item])[1..] == items[1..] + [item];
      var ev := ItemToEvent(items[0], tzOffset, c).value;
      var rest := ItemsToEvents(items[1..], tzOffset, c).value;
      assert out == [ev] + rest;
      ItemsToEventsAppend(items[1..], item, tzOffset, c, rest);
      assert [ev] + (rest + [ItemToEvent(item, tzOffset, c).value]) == out + [ItemToEvent(item, tzOffset, c).value];
    }
  }

  lemma ItemsToEventsStops(items: seq<ApiItem>, item: ApiItem, tzOffset: int, c: Codecs)
    requires ItemsToEvents(items, tzOffset, c).Success?
    requires ItemToEvent(item, tzOffset, c).Failure?
    ensures ItemsToEvents(items + [item], tzOffset, c) == Failure(ItemToEvent(item, tzOffset, c).error)
    decreases |items|
  {
    if items == [] {
      assert [item][1..] == [];
    } else {
      assert (items + [item])[1..] == items[1..] + [item];
      ItemsToEventsStops(items[1..], item, tzOffset, c);
    }
  }

  /** _get_range_for_day: from the day's 00:00 to its last second, in the
      client's zone. */
  function RangeForDay(day: int, tzOffset: int): (r: (Time, Time))
    ensures r.1 - r.0 == DAY - 1
    ensures LocalDay(r.0, tzOffset) == day && LocalDay(r.1, tzOffset) == day
    ensures LocalDay(r.0 - 1, tzOffset) == day - 1 && LocalDay(r.1 + 1, tzOffset) == day + 1
  {
    var s := DayStart(day, tzOffset);
    LocalDayOf(s, day, tzOffset);
    LocalDayOf(s + DAY - 1, day, tzOffset);
    LocalDayOf(s - 1, day - 1, tzOffset);
    LocalDayOf(s + DAY, day + 1, tzOffset);
    (s, s + DAY - 1)
  }

  lemma LocalDayOf(t: Time, day: int, tzOffset: int)
    ensures LocalDay(t, tzOffset) == day <==> DayStart(day, tzOffset) <= t < DayStart(day, tzOffset) + DAY
  {
    var q := (t + tzOffset) / DAY;
    var m := (t + tzOffset) % DAY;
    assert t + tzOffset == q * DAY + m && 0 <= m < DAY;
    if q < day {
      assert q * DAY <= (day - 1) * DAY;
    } else if q > day {
      assert q * DAY >= (day + 1) * DAY;
    }
  }

  /** Both ends lie on the requested date, and the range holds exactly the
      instants of that date. */
  lemma RangeForDaySpec(day: int, tzOffset: int)
    ensures RangeForDay(day, tzOffset).1 - RangeForDay(day, tzOffset).0 == DAY - 1
    ensures LocalDay(RangeForDay(day, tzOffset).0, tzOffset) == day
    ensures LocalDay(RangeForDay(day, tzOffset).1, tzOffset) == day
    ensures forall t: Time :: RangeForDay(day, tzOffset).0 <= t <= RangeForDay(day, tzOffset).1 <==> LocalDay(t, tzOffset) == day
  {
    var (s, e) := RangeForDay(day, tzOffset);
    LocalDayOf(s, day, tzOffset);
    LocalDayOf(e, day, tzOffset);
    forall t: Time ensures s <= t <= e <==> LocalDay(t, tzOffset) == day {
      LocalDayOf(t, day, tzOffset);
    }
  }

  /** The window of get_events_for_week: from the first day's 00:00 to the
      same time seven days later. */
  function WeekRange(firstDay: int, tzOffset: int): (r: (Time, Time))
    ensures r.1 - r.0 == WEEK
    ensures LocalDay(r.0, tzOffset) == firstDay
    ensures LocalDay(r.1 - 1, tzOffset) == firstDay + 6 && LocalDay(r.1, tzOffset) == firstDay + 7
  {
    var (start, _) := RangeForDay(firstDay, tzOffset);
    LocalDayOf(start + WEEK - 1, firstDay + 6, tzOffset);
    LocalDayOf(start + WEEK, firstDay + 7, tzOffset);
    (start, start + WEEK)
  }

  /** The week window lasts exactly seven days and ends where the eighth day
      begins, so it covers the seven dates from `firstDay` on. */
  lemma WeekRangeSpec(firstDay: int, tzOffset: int)
    ensures WeekRange(firstDay, tzOffset).1 - WeekRange(firstDay, tzOffset).0 == WEEK
    ensures WeekRange(firstDay, tzOffset).0 == RangeForDay(firstDay, tzOffset).0
    ensures WeekRange(firstDay, tzOffset).1 == RangeForDay(firstDay + 7, tzOffset).0
    ensures forall t: Time :: WeekRange(firstDay, tzOffset).0 <= t < WeekRange(firstDay, tzOffset).1
              <==> firstDay <= LocalDay(t, tzOffset) < firstDay + 7
  {
    var (s, e) := WeekRange(firstDay, tzOffset);
    assert e == DayStart(firstDay + 7, tzOffset);
    forall t: Time ensures s <= t < e <==> firstDay <= LocalDay(t, tzOffset) < firstDay + 7 {
      var d := LocalDay(t, tzOffset);
      LocalDayOf(t, d, tzOffset);
      if d < firstDay {
        assert DayStart(d, tzOffset) + DAY <= DayStart(firstDay, tzOffset);
      } else if d >= firstDay + 7 {
        assert DayStart(d, tzOffset) >= DayStart(firstDay + 7, tzOffset);
      }
    }
  }

  /** OAuth credentials: the access token, whether it has expired, and the
      refresh token. */
  datatype Creds = Creds(token: Option<string>, expired: bool, refreshToken: Option<string>)

  /** `creds.valid`: a token that has not expired. */
  predicate Usable(c: Creds) {
    c.token.Some? && !c.expired
  }

  /** `creds.expired and creds.refresh_token`. */
  predicate Refreshable(c: Creds) {
    c.expired && c.refreshToken.Some? && c.refreshToken.value != ""
  }

  /** The credentials after _ensure_token and how it ended. */
  datatype TokenCheck = TokenCheck(creds: Option<Creds>, outcome: Outcome)

  /** _ensure_token on loaded credentials: refresh them when they have
      expired and can be refreshed (`refresh` yields None where it raises
      RefreshError), then insist that they are usable. */
  function EnsureTokenOn(c: Creds, refresh: Creds -> Option<Creds>): (t: TokenCheck)
    ensures t.outcome.Completed? ==> t.creds.Some? && Usable(t.creds.value)
    ensures t.outcome.Raised? ==> t.outcome.error == RuntimeError(NEED_REAUTH)
    ensures Usable(c) ==> t == TokenCheck(Some(c), Completed)
    ensures !Refreshable(c) ==> t.creds == Some(c)
    ensures Refreshable(c) && refresh(c).None? ==> t == TokenCheck(Some(c), Raised(RuntimeError(NEED_REAUTH)))
    ensures Refreshable(c) && refresh(c).Some? ==>
              t == TokenCheck(refresh(c), if Usable(refresh(c).value) then Completed else Raised(RuntimeError(NEED_REAUTH)))
    ensures !Refreshable(c) && !Usable(c) ==> t == TokenCheck(Some(c), Raised(RuntimeError(NEED_REAUTH)))
  {
    if Refreshable(c) then
      match refresh(c)
      case None => TokenCheck(Some(c), Raised(RuntimeError(NEED_REAUTH)))
      case Some(renewed) =>
        if Usable(renewed) then TokenCheck(Some(renewed), Completed)
        else TokenCheck(Some(renewed), Raised(RuntimeError(NEED_REAUTH)))
    else if Usable(c) then TokenCheck(Some(c), Completed)
    else TokenCheck(Some(c), Raised(RuntimeError(NEED_REAUTH)))
  }

  const NOT_INITIALIZED: string := "Google API клиент не инициализирован"

  /** A calendar client bound to one token file. */
  class CalendarClient {
    const tokenPath: string
    /** What the token file holds; None: there is no such file. */
    const stored: Option<Creds>
    const tzOffset: int
    /** `creds.refresh(Request())`; None where it raises RefreshError. */
    const refresh: Creds -> Option<Creds>
    /** `service.events().list(calendarId=…, timeMin=…, timeMax=…).execute()["items"]`. */
    const api: (string, Time, Time) -> Result<seq<ApiItem>>
    const codecs: Codecs
    var creds: Option<Creds>
    var service: bool

    /** The client authorizes at once; a missing token file raises
        FileNotFoundError, which the model leaves to the caller. */
    constructor (tokenPath: string, stored: Option<Creds>, tzOffset: int, refresh: Creds -> Option<Creds>,
                 api: (string, Time, Time) -> Result<seq<ApiItem>>, codecs: Codecs)
      requires stored.Some?
      ensures this.tokenPath == tokenPath && this.stored == stored && this.tzOffset == tzOffset
      ensures this.refresh == refresh && this.api == api && this.codecs == codecs
      ensures creds == stored && service
    {
      this.tokenPath := tokenPath;
      this.stored := stored;
      this.tzOffset := tzOffset;
      this.refresh := refresh;
      this.api := api;
      this.codecs := codecs;
      creds := stored;
      service := true;
    }

    /** _authorize: load the token file and build the service. */
    method Authorize() returns (r: Outcome)
      modifies this
      ensures stored.None? ==> r == Raised(FileNotFoundError(tokenPath)) && creds == old(creds) && service == old(service)
      ensures stored.Some? ==> r == Completed && creds == stored && service
    {
      if stored.None? {
        return Raised(FileNotFoundError(tokenPath));
      }
      creds := stored;
      service := true;
      r := Completed;
    }

    /** What _ensure_token does to credentials `cur`: with none loaded it
        authorizes and returns without further checks. */
    function TokenStep(cur: Option<Creds>): (t: TokenCheck)
      ensures cur.Some? ==> t == EnsureTokenOn(cur.value, refresh)
      ensures cur.None? && stored.None? ==> t == TokenCheck(None, Raised(FileNotFoundError(tokenPath)))
      ensures cur.None? && stored.Some? ==> t == TokenCheck(stored, Completed)
    {
      match cur
      case None => if stored.None? then TokenCheck(None, Raised(FileNotFoundError(tokenPath))) else TokenCheck(stored, Completed)
      case Some(c) => EnsureTokenOn(c, refresh)
    }

    /** _ensure_token. */
    method EnsureToken() returns (r: Outcome)
      modifies this
      ensures TokenCheck(creds, r) == TokenStep(old(creds))
      ensures service == (old(service) || (old(creds).None? && stored.Some?))
    {
      if creds.None? {
        r := Authorize();
        return;
      }
      var t := EnsureTokenOn(creds.value, refresh);
      creds := t.creds;
      r := t.outcome;
    }

    /** What list_events_between returns for a client whose service and
        credentials are `svc` and `cur`. */
    function Listing(svc: bool, cur: Option<Creds>, calendarId: string, start: Time, end: Time): Result<seq<Event>> {
      if !svc then Failure(ValueError(NOT_INITIALIZED))
      else
        match TokenStep(cur).outcome
        case Raised(e) => Failure(e)
        case Completed =>
          match api(calendarId, start, end)
          case Failure(e) => Failure(e)
          case Success(items) => ItemsToEvents(items, tzOffset, codecs)
    }

    /** list_events_between: check the credentials, read the window, and
        convert every item in order. */
    method ListEventsBetween(calendarId: string, start: Time, end: Time) returns (r: Result<seq<Event>>)
      modifies this
      ensures r == Listing(old(service), old(creds), calendarId, start, end)
      ensures !old(service) ==> creds == old(creds)
      ensures old(service) ==> creds == TokenStep(old(creds)).creds
      ensures service == old(service)
    {
      if !service {
        return Failure(ValueError(NOT_INITIALIZED));
      }
      var ok := EnsureToken();
      if ok.Raised? {
        return Failure(ok.error);
      }
      var fetched := api(calendarId, start, end);
      if fetched.Failure? {
        return Failure(fetched.error);
      }
      var items := fetched.value;
      var out: seq<Event> := [];
      var i := 0;
      ghost var checked := creds;
      while i < |items|
        invariant 0 <= i <= |items|
        invariant creds == checked && service
        invariant ItemsToEvents(items[..i], tzOffset, codecs) == Success(out)
      {
        var e := items[i];
        assert items[..i + 1] == items[..i] + [e];
        var startDt := ParseDateTime(e.start, tzOffset, codecs);
        if startDt.Failure? {
          ItemsToEventsStops(items[..i], e, tzOffset, codecs);
          ItemsToEventsPrefixFails(items, i + 1, tzOffset, codecs);
          return Failure(startDt.error);
        }
        var endDt := ParseDateTime(e.end, tzOffset, codecs);
        if endDt.Failure? {
          ItemsToEventsStops(items[..i], e, tzOffset, codecs);
          ItemsToEventsPrefixFails(items, i + 1, tzOffset, codecs);
          return Failure(endDt.error);
        }
        var hash := EventHash(codecs.md5, HashKey(e.id, codecs.show(startDt.value)));
        var ev := Event(Some(hash), Some(e.summary.GetOr(UNTITLED)),
                        Some(Instant(startDt.value, tzOffset)), Some(Instant(endDt.value, tzOffset)), None);
        ItemsToEventsAppend(items[..i], e, tzOffset, codecs, out);
        out := out + [ev];
        i := i + 1;
      }
      assert items[..i] == items;
      r := Success(out);
    }

    /** get_events_for_day. */
    method GetEventsForDay(calendarId: string, day: int) returns (r: Result<seq<Event>>)
      modifies this
      ensures r == Listing(old(service), old(creds), calendarId, RangeForDay(day, tzOffset).0, RangeForDay(day, tzOffset).1)
      ensures service == old(service)
    {
      var (start, end) := RangeForDay(day, tzOffset);
      r := ListEventsBetween(calendarId, start, end);
    }

    /** get_events_for_week. */
    method GetEventsForWeek(calendarId: string, firstDay: int) returns (r: Result<seq<Event>>)
      modifies this
      ensures r == Listing(old(service), old(creds), calendarId, WeekRange(firstDay, tzOffset).0, WeekRange(firstDay, tzOffset).1)
      ensures service == old(service)
    {
      var (start, _) := RangeForDay(firstDay, tzOffset);
      r := ListEventsBetween(calendarId, start, start + WEEK);
    }
  }

  /** A failure among the first `n` items is the failure of the whole list. */
  lemma ItemsToEventsPrefixFails(items: seq<ApiItem>, n: nat, tzOffset: int, c: Codecs)
    requires n <= |items|
    requires ItemsToEvents(items[..n], tzOffset, c).Failure?
    ensures ItemsToEvents(items, tzOffset, c) == ItemsToEvents(items[..n], tzOffset, c)
    decreases n
  {
    if n > 0 && items[..n][0] == items[0] {
      assert items[..n][1..] == items[1..][..n - 1];
      if ItemToEvent(items[0], tzOffset, c).Success? {
        ItemsToEventsPrefixFails(items[1..], n - 1, tzOffset, c);
      }
    }
  }
}
