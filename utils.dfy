/** The one-line rendering of an event (app/utils.py): the summary cut or
    padded to a fixed column width, then the start time. */
module Utils {

  import opened Common

  const DEFAULT_NAME_WIDTH: int := 25
  const LINE_OPEN: string := "📌 <code>"
  const LINE_SEPARATOR: string := " | "
  const LINE_CLOSE: string := "</code>"
  const ELLIPSIS: string := "..."

  /** Python's `s[:n]`: a negative `n` counts from the end. */
  function PrefixSlice(s: string, n: int): (r: string)
    ensures |r| <= |s| && r == s[..|r|]
    ensures 0 <= n <= |s| ==> |r| == n
  {
    if n >= 0 then (if n <= |s| then s[..n] else s)
    else if |s| + n >= 0 then s[..|s| + n]
    else []
  }

  function Spaces(n: nat): (r: string)
    ensures |r| == n && forall k | 0 <= k < n :: r[k] == ' '
  {
    seq(n, _ => ' ')
  }

  /** Python's `s.ljust(width)`. */
  function LJust(s: string, width: int): (r: string)
    ensures |r| == if |s| >= width then |s| else width
    ensures r[..|s|] == s
    ensures forall k | |s| <= k < |r| :: r[k] == ' '
  {
    if |s| >= width then s else s + Spaces(width - |s|)
  }

  /** The summary, cut to fit `nameWidth` when it is longer, then padded. */
  function PaddedSummary(summary: string, nameWidth: int): (r: string)
    ensures |r| >= nameWidth
    ensures |summary| <= nameWidth ==> r[..|summary|] == summary
    ensures |summary| > nameWidth ==> |r| >= |ELLIPSIS| && r[|r| - |ELLIPSIS|..] == ELLIPSIS
  {
    var shown := if |summary| > nameWidth then PrefixSlice(summary, nameWidth - 3) + ELLIPSIS else summary;
    LJust(shown, nameWidth)
  }

  /** What `str(start)` or `start.strftime(…)` gives for the start: the
      formatting itself is the `showTime` parameter; a missing start prints
      as `None` (the strftime call fails and `str(None)` is used). */
  function StartText(start: Option<Time>, showTime: Time -> string): string {
    match start
    case Some(t) => showTime(t)
    case None => "None"
  }

  /** format_event. */
  function FormatEvent(ev: Event, nameWidth: int, showTime: Time -> string): (line: string)
    ensures |line| >= |LINE_OPEN| + |LINE_CLOSE|
    ensures line[..|LINE_OPEN|] == LINE_OPEN && line[|line| - |LINE_CLOSE|..] == LINE_CLOSE
  {
    var column := PaddedSummary(ev.summary.GetOr(UNTITLED), nameWidth);
    var text := StartText(ev.start, showTime);
    FivePieces(LINE_OPEN, column, LINE_SEPARATOR, text, LINE_CLOSE);
    LINE_OPEN + column + LINE_SEPARATOR + text + LINE_CLOSE
  }

  /** A summary longer than the column keeps its first `nameWidth - 3`
      characters and ends in "...". */
  lemma LongSummaryIsCut(summary: string, nameWidth: int)
    requires nameWidth >= 3 && |summary| > nameWidth
    ensures PaddedSummary(summary, nameWidth) == summary[..nameWidth - 3] + ELLIPSIS
  {
  }

  /** A summary that fits keeps all its characters and is padded with spaces
      on the right. */
  lemma ShortSummaryIsPadded(summary: string, nameWidth: int)
    requires |summary| <= nameWidth
    ensures PaddedSummary(summary, nameWidth) == summary + Spaces(nameWidth - |summary|)
  {
  }

  /** For a column of at least three characters, the summary column always
      has exactly the column width, which lines the " | " separators up. */
  lemma PaddedSummaryWidth(summary: string, nameWidth: int)
    requires nameWidth >= 3
    ensures |PaddedSummary(summary, nameWidth)| == nameWidth
  {
  }

  /** Below three characters the cut-off overshoots the column: Python's
      negative slice keeps all but the last characters, so a four-letter
      summary in a two-character column renders as six characters. */
  lemma NarrowColumnOvershoots()
    ensures PaddedSummary("abcd", 2) == "abc..."
  {
    assert PrefixSlice("abcd", -1) == "abc";
  }

  /** A rendered line of the default width has a fixed length apart from the
      start text. */
  lemma FormatEventWidth(ev: Event, showTime: Time -> string)
    ensures |FormatEvent(ev, DEFAULT_NAME_WIDTH, showTime)|
            == |LINE_OPEN| + DEFAULT_NAME_WIDTH + |LINE_SEPARATOR| + |StartText(ev.start, showTime)| + |LINE_CLOSE|
  {
    PaddedSummaryWidth(ev.summary.GetOr(UNTITLED), DEFAULT_NAME_WIDTH);
  }

  /** A rendered line is the opening tag, the summary column (the summary,
      or "(без названия)" when it is missing), the separator, the start text
      and the closing tag, each at its own place in the line. */
  lemma FormatEventLayout(ev: Event, nameWidth: int, showTime: Time -> string)
    ensures var line := FormatEvent(ev, nameWidth, showTime);
            var column := PaddedSummary(ev.summary.GetOr(UNTITLED), nameWidth);
            var o := |LINE_OPEN|;
            var sep := o + |column|;
            var st := sep + |LINE_SEPARATOR|;
            var close := |line| - |LINE_CLOSE|;
            && st <= close
            && line[..o] == LINE_OPEN
            && line[o..sep] == column
            && line[sep..st] == LINE_SEPARATOR
            && line[st..close] == StartText(ev.start, showTime)
            && line[close..] == LINE_CLOSE
  {
    var column := PaddedSummary(ev.summary.GetOr(UNTITLED), nameWidth);
    var text := StartText(ev.start, showTime);
    FivePieces(LINE_OPEN, column, LINE_SEPARATOR, text, LINE_CLOSE);
  }

  /** The five pieces of a concatenation can be read back by position. */
  lemma FivePieces<T>(a: seq<T>, b: seq<T>, c: seq<T>, d: seq<T>, e: seq<T>)
    ensures var x := a + b + c + d + e;
            var i := |a|;
            var j := i + |b|;
            var k := j + |c|;
            var l := k + |d|;
            && |x| == l + |e|
            && x[..i] == a && x[i..j] == b && x[j..k] == c && x[k..l] == d && x[l..] == e
  {
    var x := a + b + c + d + e;
    var i := |a|;
    var j := i + |b|;
    var k := j + |c|;
    var l := k + |d|;
    assert x[..i] == a;
    assert x[i..j] == b;
    assert x[j..k] == c;
    assert x[k..l] == d;
    assert x[l..] == e;
  }


  /** The user whose id is logged; the `id` attribute may be missing. */
  datatype User = User(id: Option<int>)

  /** What `getattr(user, "id", "0")` yields: the numeric id, or the string "0". */
  datatype UserId = NumericId(n: int) | TextId(s: string)

  /** get_user_id. */
  function GetUserId(user: User): (r: UserId)
    ensures user.id.None? <==> r == TextId("0")
    ensures user.id.Some? ==> r == NumericId(user.id.value)
  {
    match user.id
    case Some(n) => NumericId(n)
    case None => TextId("0")
  }
}
