/** Reading every configured calendar of every user in one go
    (app/multicalendar.py). The per-calendar read of the calendar client is
    a parameter: it yields the calendar's events in the window, or the
    exception the client raises. */
module MultiCalendar {

  import opened Common

  /** One configured user: the token file naming their calendar client, and
      their calendars as (display name, calendar id) pairs in configuration
      order. */
  datatype ClientEntry = ClientEntry(token: string, calendars: seq<(string, string)>)

  /** One calendar to read: the client it is read through, its display name
      and its id. */
  datatype Source = Source(token: string, name: string, calendarId: string)

  /** `client.list_events_between(calendar_id, start, end)` of the client with
      the given token. */
  type Fetch = (string, string, Time, Time) -> Result<seq<Event>>

  function FetchFrom(s: Source, fetch: Fetch, start: Time, end: Time): Result<seq<Event>> {
    fetch(s.token, s.calendarId, start, end)
  }

  function ClientSources(c: ClientEntry): seq<Source> {
    seq(|c.calendars|, j requires 0 <= j < |c.calendars| => Source(c.token, c.calendars[j].0, c.calendars[j].1))
  }

  /** The calendars in reading order: client order, then calendar order. */
  function Sources(clients: seq<ClientEntry>): seq<Source>
    decreases |clients|
  {
    if clients == [] then [] else ClientSources(clients[0]) + Sources(clients[1..])
  }

  lemma {:induction false} SourcesAppend(a: seq<ClientEntry>, b: seq<ClientEntry>)
    ensures Sources(a + b) == Sources(a) + Sources(b)
    decreases |a|
  {
    if a != [] {
      assert (a + b)[1..] == a[1..] + b;
      SourcesAppend(a[1..], b);
    } else {
      assert a + b == b;
    }
  }

  /** The events of one calendar with `calendar_name` set on each. */
  function Tagged(evs: seq<Event>, name: string): seq<Event> {
    seq(|evs|, k requires 0 <= k < |evs| => evs[k].(calendarName := Some(name)))
  }

  /** What list_all_events returns: the tagged events of every calendar in
      reading order, or the first exception a read raises. */
  function Gather(srcs: seq<Source>, fetch: Fetch, start: Time, end: Time): (r: Result<seq<Event>>)
    ensures r.Failure? ==> srcs != []
    ensures r.Success? ==> forall k | 0 <= k < |r.value| :: r.value[k].calendarName.Some?
    decreases |srcs|
  {
    if srcs == [] then Success([])
    else
      match FetchFrom(srcs[0], fetch, start, end)
      case Failure(e) => Failure(e)
      case Success(evs) =>
        match Gather(srcs[1..], fetch, start, end)
        case Failure(e) => Failure(e)
        case Success(rest) => Success(Tagged(evs, srcs[0].name) + rest)
  }

  /** Reading two runs of calendars one after the other. */
  function Combine(a: Result<seq<Event>>, b: Result<seq<Event>>): Result<seq<Event>> {
    if a.Failure? then a else if b.Failure? then b else Success(a.value + b.value)
  }

  lemma {:induction false} GatherAppend(a: seq<Source>, b: seq<Source>, fetch: Fetch, start: Time, end: Time)
    ensures Gather(a + b, fetch, start, end) == Combine(Gather(a, fetch, start, end), Gather(b, fetch, start, end))
    decreases |a|
  {
    if a == [] {
      assert a + b == b;
      var rb := Gather(b, fetch, start, end);
      if rb.Success? {
        assert [] + rb.value == rb.value;
      }
    } else {
      assert (a + b)[0] == a[0];
      assert (a + b)[1..] == a[1..] + b;
      GatherAppend(a[1..], b, fetch, start, end);
      var here := FetchFrom(a[0], fetch, start, end);
      var ra := Gather(a[1..], fetch, start, end);
      var rb := Gather(b, fetch, start, end);
      if here.Success? && ra.Success? && rb.Success? {
        var t := Tagged(here.value, a[0].name);
        assert t + (ra.value + rb.value) == (t + ra.value) + rb.value;
      }
    }
  }

  /** Reference definitions: every event the reads return, untouched and in
      reading order, and the display name of the calendar each came from.
      A failed read contributes nothing. */
  function Raw(srcs: seq<Source>, fetch: Fetch, start: Time, end: Time): seq<Event>
    decreases |srcs|
  {
    if srcs == [] then []
    else
      var here := FetchFrom(srcs[0], fetch, start, end);
      (if here.Success? then here.value else []) + Raw(srcs[1..], fetch, start, end)
  }

  function Origins(srcs: seq<Source>, fetch: Fetch, start: Time, end: Time): seq<string>
    decreases |srcs|
  {
    if srcs == [] then []
    else
      var here := FetchFrom(srcs[0], fetch, start, end);
      seq(if here.Success? then |here.value| else 0, _ => srcs[0].name) + Origins(srcs[1..], fetch, start, end)
  }

  /** The merged list fails exactly when some read fails, and then with the
      exception of the first read that fails; otherwise it holds every
      fetched event, in client, calendar and source order, unchanged except
      that `calendar_name` is the name of the calendar it came from. */
  lemma {:induction false} GatherSpec(srcs: seq<Source>, fetch: Fetch, start: Time, end: Time)
    ensures Gather(srcs, fetch, start, end).Failure? <==>
              exists k | 0 <= k < |srcs| :: FetchFrom(srcs[k], fetch, start, end).Failure?
    ensures Gather(srcs, fetch, start, end).Failure? ==>
              exists k | 0 <= k < |srcs| ::
                FetchFrom(srcs[k], fetch, start, end) == Failure(Gather(srcs, fetch, start, end).error)
                && forall j | 0 <= j < k :: FetchFrom(srcs[j], fetch, start, end).Success?
    ensures Gather(srcs, fetch, start, end).Success? ==>
              var evs := Gather(srcs, fetch, start, end).value;
              var raw := Raw(srcs, fetch, start, end);
              var origins := Origins(srcs, fetch, start, end);
              |evs| == |raw| == |origins|
              && forall i | 0 <= i < |evs| :: evs[i] == raw[i].(calendarName := Some(origins[i]))
    decreases |srcs|
  {
    if srcs != [] {
      GatherSpec(srcs[1..], fetch, start, end);
      var here := FetchFrom(srcs[0], fetch, start, end);
      var g := Gather(srcs, fetch, start, end);
      if here.Failure? {
        assert FetchFrom(srcs[0], fetch, start, end) == Failure(g.error);
      } else {
        var rest := Gather(srcs[1..], fetch, start, end);
        if rest.Failure? {
          var k :| 0 <= k < |srcs[1..]| && FetchFrom(srcs[1..][k], fetch, start, end) == Failure(rest.error)
                   && forall j | 0 <= j < k :: FetchFrom(srcs[1..][j], fetch, start, end).Success?;
          assert FetchFrom(srcs[k + 1], fetch, start, end) == Failure(g.error);
          assert forall j | 0 <= j < k + 1 :: FetchFrom(srcs[j], fetch, start, end).Success? by {
            forall j | 0 <= j < k + 1 ensures FetchFrom(srcs[j], fetch, start, end).Success? {
              if j > 0 { assert srcs[j] == srcs[1..][j - 1]; }
            }
          }
        } else {
          forall k | 0 <= k < |srcs| ensures FetchFrom(srcs[k], fetch, start, end).Success? {
            if k > 0 { assert srcs[k] == srcs[1..][k - 1]; }
          }
        }
      }
      if !g.Failure? {
        assert exists k | 0 <= k < |srcs| :: FetchFrom(srcs[k], fetch, start, end).Failure? ==> false by {
          forall k | 0 <= k < |srcs| ensures FetchFrom(srcs[k], fetch, start, end).Success? {
            if k > 0 { assert srcs[k] == srcs[1..][k - 1]; }
          }
        }
      }
    }
  }

  /** One more calendar read successfully extends the merged list by its
      tagged events. */
  lemma GatherStep(done: seq<Source>, src: Source, fetch: Fetch, start: Time, end: Time, acc: seq<Event>)
    requires Gather(done, fetch, start, end) == Success(acc)
    requires FetchFrom(src, fetch, start, end).Success?
    ensures Gather(done + [src], fetch, start, end)
            == Success(acc + Tagged(FetchFrom(src, fetch, start, end).value, src.name))
  {
    GatherAppend(done, [src], fetch, start, end);
    var t := Tagged(FetchFrom(src, fetch, start, end).value, src.name);
    assert [src][1..] == [];
    assert t + [] == t;
  }

  /** A failing read after successful ones ends the merge with its error,
      whatever comes after it. */
  lemma GatherStops(done: seq<Source>, src: Source, rest: seq<Source>, fetch: Fetch, start: Time, end: Time)
    requires Gather(done, fetch, start, end).Success?
    requires FetchFrom(src, fetch, start, end).Failure?
    ensures Gather(done + [src] + rest, fetch, start, end) == FetchFrom(src, fetch, start, end)
  {
    GatherAppend(done, [src] + rest, fetch, start, end);
    assert done + [src] + rest == done + ([src] + rest);
    assert ([src] + rest)[0] == src;
  }

  /** The calendars of the first `i + 1` clients are those of the first `i`
      followed by client `i`'s, and the remaining clients' come after. */
  lemma SourcesSplit(clients: seq<ClientEntry>, i: nat)
    requires i < |clients|
    ensures Sources(clients[..i + 1]) == Sources(clients[..i]) + ClientSources(clients[i])
    ensures Sources(clients) == Sources(clients[..i]) + ClientSources(clients[i]) + Sources(clients[i + 1..])
  {
    Rejoin(clients, i + 1);
    SourcesPrefixStep(clients, i);
    SourcesAppend(clients[..i + 1], clients[i + 1..]);
  }

  lemma Rejoin<T>(s: seq<T>, i: nat)
    requires i <= |s|
    ensures s[..i] + s[i..] == s
  {
  }

  lemma SourcesPrefixStep(clients: seq<ClientEntry>, i: nat)
    requires i < |clients|
    ensures Sources(clients[..i + 1]) == Sources(clients[..i]) + ClientSources(clients[i])
  {
    var c := clients[i];
    SourcesOne(c);
    assert clients[..i + 1] == clients[..i] + [c];
    SourcesAppend(clients[..i], [c]);
  }

  lemma SourcesOne(c: ClientEntry)
    ensures Sources([c]) == ClientSources(c)
  {
    assert [c][1..] == [];
    assert ClientSources(c) + [] == ClientSources(c);
  }

  /** The merge position "calendar `j` of client `i`": every calendar of the
      clients before `i`, then the first `j` calendars of client `i`. */
  function ReadSoFar(clients: seq<ClientEntry>, i: nat, j: nat): seq<Source>
    requires i < |clients| && j <= |clients[i].calendars|
  {
    Sources(clients[..i]) + ClientSources(clients[i])[..j]
  }

  /** A successful read of calendar `j` of client `i` moves the merge one
      calendar on. */
  lemma AdvanceCalendar(clients: seq<ClientEntry>, i: nat, j: nat, fetch: Fetch, start: Time, end: Time, acc: seq<Event>)
    requires i < |clients| && j < |clients[i].calendars|
    requires Gather(ReadSoFar(clients, i, j), fetch, start, end) == Success(acc)
    requires FetchFrom(ClientSources(clients[i])[j], fetch, start, end).Success?
    ensures Gather(ReadSoFar(clients, i, j + 1), fetch, start, end)
            == Success(acc + Tagged(FetchFrom(ClientSources(clients[i])[j], fetch, start, end).value, clients[i].calendars[j].0))
  {
    var own := ClientSources(clients[i]);
    GatherStep(ReadSoFar(clients, i, j), own[j], fetch, start, end, acc);
    assert own[..j + 1] == own[..j] + [own[j]];
    assert ReadSoFar(clients, i, j + 1) == ReadSoFar(clients, i, j) + [own[j]];
  }

  /** A failing read of calendar `j` of client `i`, after successful ones,
      is what the whole merge yields. */
  lemma StopAtCalendar(clients: seq<ClientEntry>, i: nat, j: nat, fetch: Fetch, start: Time, end: Time)
    requires i < |clients| && j < |clients[i].calendars|
    requires Gather(ReadSoFar(clients, i, j), fetch, start, end).Success?
    requires FetchFrom(ClientSources(clients[i])[j], fetch, start, end).Failure?
    ensures Gather(Sources(clients), fetch, start, end) == FetchFrom(ClientSources(clients[i])[j], fetch, start, end)
  {
    var own := ClientSources(clients[i]);
    var rest := own[j + 1..] + Sources(clients[i + 1..]);
    GatherStops(ReadSoFar(clients, i, j), own[j], rest, fetch, start, end);
    SourcesAround(clients, i, j);
  }

  /** The calendars in reading order, cut around calendar `j` of client `i`. */
  lemma SourcesAround(clients: seq<ClientEntry>, i: nat, j: nat)
    requires i < |clients| && j < |clients[i].calendars|
    ensures Sources(clients) == ReadSoFar(clients, i, j) + [ClientSources(clients[i])[j]]
                                + (ClientSources(clients[i])[j + 1..] + Sources(clients[i + 1..]))
  {
    var own := ClientSources(clients[i]);
    SourcesSplit(clients, i);
    Around(own, j);
    Regroup(Sources(clients[..i]), own[..j], [own[j]], own[j + 1..], Sources(clients[i + 1..]));
  }

  lemma Around<T>(s: seq<T>, j: nat)
    requires j < |s|
    ensures s == s[..j] + [s[j]] + s[j + 1..]
  {
  }

  lemma Regroup<T>(a: seq<T>, b: seq<T>, c: seq<T>, d: seq<T>, e: seq<T>)
    ensures a + (b + c + d) + e == (a + b) + c + (d + e)
  {
  }

  /** Having read every calendar of client `i` is having read the first
      `i + 1` clients. */
  lemma FinishClient(clients: seq<ClientEntry>, i: nat)
    requires i < |clients|
    ensures ReadSoFar(clients, i, |clients[i].calendars|) == Sources(clients[..i + 1])
  {
    SourcesSplit(clients, i);
    var own := ClientSources(clients[i]);
    assert own[..|clients[i].calendars|] == own;
  }

  /** The calendars of all configured users, and their calendar client. */
  class MultiCalendarManager {
    const clients: seq<ClientEntry>
    const listEventsBetween: Fetch

    constructor (clients: seq<ClientEntry>, listEventsBetween: Fetch)
      ensures this.clients == clients && this.listEventsBetween == listEventsBetween
    {
      this.clients := clients;
      this.listEventsBetween := listEventsBetween;
    }

    /** list_all_events: reads every calendar in turn, tags each event with
        its calendar's name and appends it. */
    method ListAllEvents(start: Time, end: Time) returns (r: Result<seq<Event>>)
      ensures r == Gather(Sources(clients), listEventsBetween, start, end)
    {
      var allEvents: seq<Event> := [];
      var i := 0;
      while i < |clients|
        invariant 0 <= i <= |clients|
        invariant Gather(Sources(clients[..i]), listEventsBetween, start, end) == Success(allEvents)
      {
        var cfg := clients[i];
        var j := 0;
        assert ReadSoFar(clients, i, 0) == Sources(clients[..i]);
        while j < |cfg.calendars|
          invariant 0 <= j <= |cfg.calendars|
          invariant Gather(ReadSoFar(clients, i, j), listEventsBetween, start, end) == Success(allEvents)
        {
          var (name, cid) := cfg.calendars[j];
          assert ClientSources(cfg)[j] == Source(cfg.token, name, cid);
          var events := listEventsBetween(cfg.token, cid, start, end);
          if events.Failure? {
            StopAtCalendar(clients, i, j, listEventsBetween, start, end);
            return Failure(events.error);
          }
          var evs := events.value;
          ghost var before := allEvents;
          var k := 0;
          while k < |evs|
            invariant 0 <= k <= |evs|
            invariant allEvents == before + Tagged(evs[..k], name)
          {
            var ev := evs[k].(calendarName := Some(name));
            allEvents := allEvents + [ev];
            k := k + 1;
            assert Tagged(evs[..k], name) == Tagged(evs[..k - 1], name) + [ev];
          }
          assert evs[..k] == evs;
          AdvanceCalendar(clients, i, j, listEventsBetween, start, end, before);
          j := j + 1;
        }
        FinishClient(clients, i);
        i := i + 1;
      }
      assert clients[..i] == clients;
      r := Success(allEvents);
    }
  }
}
