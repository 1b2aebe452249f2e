/** The settings the engine reads from its environment (app/config.py) that
    shape its behaviour: the reminder delays offered, how long the delay
    buttons stay up, and how far ahead the notifier looks. */
module Config {

  import opened Common
  import opened Strings

  /** The NOTIFY_INTERVALS setting when the environment does not set it. */
  const DEFAULT_NOTIFY_INTERVALS_SETTING: string := "60,30,15,10,5,0"
  const DEFAULT_NOTIFY_INTERVALS: seq<int> := [60, 30, 15, 10, 5, 0]
  /** BUTTON_TTL when the environment does not set it, in seconds. */
  const DEFAULT_BUTTON_TTL: int := 30
  /** AHEAD_HOUR when the environment does not set it. */
  const DEFAULT_AHEAD_HOUR: int := 2

  /** `[int(x) for x in parts]`; None where `int` raises. */
  function ParseAll(parts: seq<string>): (r: Option<seq<int>>)
    ensures r.Some? ==> |r.value| == |parts| && forall k | 0 <= k < |parts| :: ParseInt(parts[k]) == Some(r.value[k])
    ensures r.None? ==> exists k | 0 <= k < |parts| :: ParseInt(parts[k]).None?
    decreases |parts|
  {
    if parts == [] then Some([])
    else
      match ParseInt(parts[0])
      case None => None
      case Some(m) =>
        match ParseAll(parts[1..])
        case None => None
        case Some(rest) => Some([m] + rest)
  }

  /** NOTIFY_INTERVALS: the comma-separated setting, each piece read as an
      integer. */
  function ParseIntervals(raw: string): Option<seq<int>> {
    ParseAll(Split(raw, ','))
  }

  /** `str(m)` of every delay. */
  function ShowAll(intervals: seq<int>): (texts: seq<string>)
    ensures |texts| == |intervals|
    ensures forall k | 0 <= k < |intervals| :: texts[k] == IntToString(intervals[k])
  {
    seq(|intervals|, k requires 0 <= k < |intervals| => IntToString(intervals[k]))
  }

  lemma {:induction false} ParseShowAll(intervals: seq<int>)
    ensures ParseAll(ShowAll(intervals)) == Some(intervals)
    decreases |intervals|
  {
    if intervals != [] {
      var texts := ShowAll(intervals);
      var tail := ShowAll(intervals[1..]);
      assert texts[1..] == tail by {
        forall k | 0 <= k < |tail| ensures texts[1..][k] == tail[k] { }
      }
      IntStringRoundTrip(intervals[0]);
      ParseShowAll(intervals[1..]);
      assert ParseAll(texts) == Some([intervals[0]] + intervals[1..]);
      assert [intervals[0]] + intervals[1..] == intervals;
    }
  }

  /** Any non-empty list of delays, written as the setting expects it, is
      read back as itself. */
  lemma IntervalsRoundTrip(intervals: seq<int>)
    requires intervals != []
    ensures ParseIntervals(Join(ShowAll(intervals), ',')) == Some(intervals)
  {
    var texts := ShowAll(intervals);
    forall k | 0 <= k < |texts| ensures ',' !in texts[k] {
      var s := texts[k];
      forall c | 0 <= c < |s| ensures s[c] != ',' { }
    }
    SplitJoin(texts, ',');
    ParseShowAll(intervals);
  }

  lemma TwoDigits(tens: nat, ones: nat)
    requires 1 <= tens < 10 && ones < 10
    ensures IntToString(10 * tens + ones) == [DigitChar(tens), DigitChar(ones)]
  {
    var n := 10 * tens + ones;
    assert n / 10 == tens && n % 10 == ones;
    assert NatToString(n) == NatToString(tens) + [DigitChar(ones)];
  }

  const DEFAULT_TEXTS: seq<string> := ["60", "30", "15", "10", "5", "0"]

  lemma DefaultTexts()
    ensures ShowAll(DEFAULT_NOTIFY_INTERVALS) == DEFAULT_TEXTS
  {
    TwoDigits(6, 0);
    TwoDigits(3, 0);
    TwoDigits(1, 5);
    TwoDigits(1, 0);
    assert IntToString(5) == "5" && IntToString(0) == "0";
  }

  lemma JoinStep(first: string, rest: seq<string>, sep: char)
    requires rest != []
    ensures Join([first] + rest, sep) == first + [sep] + Join(rest, sep)
  {
    assert ([first] + rest)[1..] == rest;
  }

  lemma DefaultSettingText()
    ensures Join(DEFAULT_TEXTS, ',') == DEFAULT_NOTIFY_INTERVALS_SETTING
  {
    var t := DEFAULT_TEXTS;
    assert Join(t[5..], ',') == "0";
    JoinStep(t[4], t[5..], ',');
    assert t[4..] == [t[4]] + t[5..];
    JoinStep(t[3], t[4..], ',');
    assert t[3..] == [t[3]] + t[4..];
    JoinStep(t[2], t[3..], ',');
    assert t[2..] == [t[2]] + t[3..];
    JoinStep(t[1], t[2..], ',');
    assert t[1..] == [t[1]] + t[2..];
    JoinStep(t[0], t[1..], ',');
    assert t == [t[0]] + t[1..];
  }

  /** The default setting gives the default delays. */
  lemma DefaultIntervals()
    ensures ParseIntervals(DEFAULT_NOTIFY_INTERVALS_SETTING) == Some(DEFAULT_NOTIFY_INTERVALS)
  {
    DefaultTexts();
    DefaultSettingText();
    IntervalsRoundTrip(DEFAULT_NOTIFY_INTERVALS);
  }
}
