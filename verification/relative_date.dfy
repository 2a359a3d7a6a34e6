/** The "last commit" label of a project card: an elapsed time in
    milliseconds bucketed into whole days and spelled as a relative phrase. */
module RelativeDate {
  import opened Nullable
  import Decimal
  import Text

  const MillisPerDay: int := 1000 * 60 * 60 * 24

  /** Whole days elapsed: the floor of `diffMs / MillisPerDay`, also for a
      negative difference (a date in the future). */
  function DayCount(diffMs: int): (days: int)
    ensures days * MillisPerDay <= diffMs < (days + 1) * MillisPerDay
  {
    diffMs / MillisPerDay
  }

  /** The day count is the only whole number whose day span contains the difference. */
  lemma DayCountUnique(diffMs: int, d: int)
    ensures DayCount(diffMs) == d <==> d * MillisPerDay <= diffMs < (d + 1) * MillisPerDay
  {
  }

  datatype Unit = Week | Month | Year

  function UnitDays(u: Unit): (n: nat) {
    match u
    case Week => 7
    case Month => 30
    case Year => 365
  }

  function UnitWord(u: Unit): (w: string) {
    match u
    case Week => "week"
    case Month => "month"
    case Year => "year"
  }

  /** The phrases a card can show, before they are spelled out. */
  datatype Phrase = Today | Yesterday | DaysAgo(days: int) | Ago(count: int, unit: Unit)

  /** What a phrase claims about the number of elapsed days. */
  predicate Denotes(p: Phrase, days: int) {
    match p
    case Today => days == 0
    case Yesterday => days == 1
    case DaysAgo(n) => days == n
    case Ago(n, u) => n * UnitDays(u) <= days < (n + 1) * UnitDays(u)
  }

  /** The day-count buckets of the card's date label. */
  function Classify(days: int): (p: Phrase)
    ensures Denotes(p, days)
    ensures p == Today <==> days == 0
    ensures p == Yesterday <==> days == 1
    ensures p.DaysAgo? <==> days < 7 && days != 0 && days != 1
    ensures p.Ago? && p.unit == Week <==> 7 <= days < 30
    ensures p.Ago? && p.unit == Month <==> 30 <= days < 365
    ensures p.Ago? && p.unit == Year <==> 365 <= days
    ensures p.Ago? && p.unit == Week ==> 1 <= p.count <= 4
    ensures p.Ago? && p.unit == Month ==> 1 <= p.count <= 12
    ensures p.Ago? ==> 1 <= p.count
  {
    if days == 0 then Today
    else if days == 1 then Yesterday
    else if days < 7 then DaysAgo(days)
    else if days < 30 then Ago(days / 7, Week)
    else if days < 365 then Ago(days / 30, Month)
    else Ago(days / 365, Year)
  }

  /** The plural marker of a unit word: present exactly when the count exceeds one. */
  function Plural(count: int): (suffix: string) {
    if count > 1 then "s" else ""
  }

  /** Appending the plural marker and " ago" to a word not ending in "s" gives
      a label ending in "s ago" exactly when the count exceeds one. */
  lemma PluralMarker(w: string, n: int)
    requires |w| >= 1 && w[|w| - 1] != 's'
    ensures Text.EndsWith(w + Plural(n) + " ago", "s ago") <==> n > 1
  {
    var s := w + Plural(n) + " ago";
    if n > 1 {
      assert s[|s| - 5..] == "s ago";
    } else {
      assert s[|s| - 5] == w[|w| - 1];
    }
  }

  /** The label text of a phrase: the count printed in decimal, then the unit
      word, plural exactly when the count exceeds one. */
  function Render(p: Phrase): (s: string)
    ensures p.DaysAgo? || p.Ago? ==> |s| >= 10
    ensures p.Ago? ==> (Text.EndsWith(s, "s ago") <==> p.count > 1)
  {
    match p
    case Today => "today"
    case Yesterday => "yesterday"
    case DaysAgo(n) => Decimal.IntToString(n) + " days ago"
    case Ago(n, u) =>
      var w := Decimal.IntToString(n) + " " + UnitWord(u);
      PluralMarker(w, n);
      w + Plural(n) + " ago"
  }

  /** The unit named by the words after the count, and whether it is in the plural. */
  function UnitOf(rest: string): (r: Option<(Unit, bool)>)
    ensures r.Some? ==> rest == UnitWord(r.value.0) + (if r.value.1 then "s" else "") + " ago"
  {
    if rest == "week ago" then Some((Week, false))
    else if rest == "weeks ago" then Some((Week, true))
    else if rest == "month ago" then Some((Month, false))
    else if rest == "months ago" then Some((Month, true))
    else if rest == "year ago" then Some((Year, false))
    else if rest == "years ago" then Some((Year, true))
    else None
  }

  /** Reads the count and the words after it: "<n> days ago", or "<n> <unit> ago"
      with the unit in the plural exactly when the count exceeds one. */
  function ParseCounted(word: string, rest: string): (r: Option<Phrase>) {
    match Decimal.ParseInt(word)
    case None => None
    case Some(n) =>
      if rest == "days ago" then Some(DaysAgo(n))
      else match UnitOf(rest)
        case None => None
        case Some((u, plural)) => if plural == (n > 1) then Some(Ago(n, u)) else None
  }

  /** Reads a label back into the phrase it spells. */
  function Parse(s: string): (r: Option<Phrase>) {
    if s == "today" then Some(Today)
    else if s == "yesterday" then Some(Yesterday)
    else match Text.SplitFirst(s)
      case None => None
      case Some((word, rest)) => ParseCounted(word, rest)
  }

  /** A counted label is read back through its count word. */
  lemma ParseCountedLabel(n: int, rest: string)
    ensures Parse(Decimal.IntToString(n) + " " + rest) == ParseCounted(Decimal.IntToString(n), rest)
  {
    var w := Decimal.IntToString(n);
    var s := w + " " + rest;
    assert |s| >= 2 + |rest|;
    IntToStringIsWord(n);
    assert s[|w|] == ' ';
    assert s != "today" && s != "yesterday";
    Text.SplitFirstOf(w, rest);
  }

  lemma IntToStringIsWord(n: int)
    ensures Text.NoSpace(Decimal.IntToString(n))
  {
  }

  /** The words after a count name the unit back, with the plural exactly for counts above one. */
  lemma UnitOfWords(n: int, u: Unit)
    ensures UnitOf(UnitWord(u) + Plural(n) + " ago") == Some((u, n > 1))
  {
    var rest := UnitWord(u) + Plural(n) + " ago";
    match u
    case Week => if n > 1 { assert rest == "weeks ago"; } else { assert rest == "week ago"; }
    case Month => if n > 1 { assert rest == "months ago"; } else { assert rest == "month ago"; }
    case Year => if n > 1 { assert rest == "years ago"; } else { assert rest == "year ago"; }
  }

  lemma DaysAgoRoundTrip(n: int)
    ensures Parse(Render(DaysAgo(n))) == Some(DaysAgo(n))
  {
    assert Render(DaysAgo(n)) == Decimal.IntToString(n) + " " + "days ago";
    ParseCountedLabel(n, "days ago");
    Decimal.IntRoundTrip(n);
  }

  lemma AgoRoundTrip(n: int, u: Unit)
    ensures Parse(Render(Ago(n, u))) == Some(Ago(n, u))
  {
    var rest := UnitWord(u) + Plural(n) + " ago";
    assert Render(Ago(n, u)) == Decimal.IntToString(n) + " " + rest;
    ParseCountedLabel(n, rest);
    Decimal.IntRoundTrip(n);
    assert rest[0] != 'd';
    UnitOfWords(n, u);
  }

  /** Every label reads back as the phrase it was rendered from. */
  lemma RenderRoundTrip(p: Phrase)
    ensures Parse(Render(p)) == Some(p)
  {
    match p
    case Today =>
    case Yesterday =>
    case DaysAgo(n) => DaysAgoRoundTrip(n);
    case Ago(n, u) => AgoRoundTrip(n, u);
  }

  /** The reader accepts one spelling per phrase: whatever it reads is exactly
      the rendering of what it read. With `RenderRoundTrip`, `Parse` and
      `Render` are inverse bijections between labels and phrases. */
  lemma ParseIsExact(s: string)
    ensures Parse(s).Some? ==> s == Render(Parse(s).value)
  {
    if s != "today" && s != "yesterday" && Text.SplitFirst(s).Some? {
      var (word, rest) := Text.SplitFirst(s).value;
      ParseCountedExact(word, rest);
    }
  }

  /** A count and the words after it are read only in their rendered spelling. */
  lemma ParseCountedExact(word: string, rest: string)
    ensures ParseCounted(word, rest).Some? ==> word + " " + rest == Render(ParseCounted(word, rest).value)
  {
    if ParseCounted(word, rest).Some? {
      var n := Decimal.ParseInt(word).value;
      Decimal.ParseIntExact(word);
      if rest != "days ago" {
        var (u, plural) := UnitOf(rest).value;
        AgoSpelling(word, rest, n, u);
      }
    }
  }

  /** A count and unit words accepted by the reader are spelled as `Render` spells them. */
  lemma AgoSpelling(word: string, rest: string, n: int, u: Unit)
    requires word == Decimal.IntToString(n)
    requires UnitOf(rest) == Some((u, n > 1))
    ensures word + " " + rest == Render(Ago(n, u))
  {
    assert rest == UnitWord(u) + Plural(n) + " ago";
  }

  /** The card's label for a millisecond difference `now - date`. */
  function FormatDiff(diffMs: int): (s: string)
    ensures Parse(s) == Some(Classify(DayCount(diffMs)))
    ensures Parse(s).Some? && Denotes(Parse(s).value, DayCount(diffMs))
    ensures s == "today" <==> DayCount(diffMs) == 0
    ensures s == "yesterday" <==> DayCount(diffMs) == 1
  {
    var p := Classify(DayCount(diffMs));
    RenderRoundTrip(p);
    Render(p)
  }

  /** "today" covers exactly the first day span after the date, "yesterday" the second. */
  lemma TodayAndYesterday(diffMs: int)
    ensures FormatDiff(diffMs) == "today" <==> 0 <= diffMs < MillisPerDay
    ensures FormatDiff(diffMs) == "yesterday" <==> MillisPerDay <= diffMs < 2 * MillisPerDay
  {
    DayCountUnique(diffMs, 0);
    DayCountUnique(diffMs, 1);
  }

  /** The label for a date, given the current instant; both in milliseconds since the epoch. */
  function FormatDate(nowMs: int, dateMs: int): (s: string)
    ensures Parse(s) == Some(Classify(DayCount(nowMs - dateMs)))
    ensures Parse(s).Some? && Denotes(Parse(s).value, DayCount(nowMs - dateMs))
  {
    FormatDiff(nowMs - dateMs)
  }

  /** A date in the future is not clamped: two days ahead is day -2, read "-2 days ago". */
  lemma FutureDateExample()
    ensures DayCount(-2 * MillisPerDay) == -2
    ensures Classify(-2) == DaysAgo(-2)
    ensures Render(DaysAgo(-2)) == "-2 days ago"
  {
  }

  /** A count of one is singular: day 8 is read "1 week ago". */
  lemma SingularExample()
    ensures Classify(8) == Ago(1, Week)
    ensures Render(Ago(1, Week)) == "1 week ago"
  {
  }
}
