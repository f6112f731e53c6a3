/**
 * The forecast series builder of `create_visualizations`: the first eight
 * entries of the forecast list, projected in source order into four
 * parallel sequences (temperatures, feels-like temperatures, humidity and
 * "HH:MM" time labels).
 */
module Forecast {
  import opened Json
  import opened Text

  /** How many forecast entries the charts use (`[:8]`): about 24 hours at
      the API's three-hour resolution. */
  const Horizon: nat := 8

  /** Length of the time label (`[:5]`, "HH:MM"). */
  const LabelWidth: nat := 5

  function Min(a: nat, b: nat): nat
  {
    if a <= b then a else b
  }

  /** The four lists `temps`, `feels_like`, `humidity` and `times`. */
  datatype Series = Series(temps: seq<Json>, feelsLike: seq<Json>, humidity: seq<Json>, times: seq<string>)

  /** All four lists have length `n`. */
  predicate Aligned(s: Series, n: nat)
  {
    |s.temps| == n && |s.feelsLike| == n && |s.humidity| == n && |s.times| == n
  }

  /** The one-character strings of `s`, which is what iterating a Python
      string yields. */
  function Chars(s: string): (r: seq<Json>)
    ensures |r| == |s|
    ensures forall i :: 0 <= i < |s| ==> r[i] == Str([s[i]])
  {
    if s == [] then [] else [Str([s[0]])] + Chars(s[1..])
  }

  /** `dt_txt.split()[1][:5]`: at most five characters of the second
      whitespace-separated word; with fewer than two words the subscript
      `[1]` raises IndexError. No time-zone conversion. */
  function TimeLabel(dtTxt: string): (r: Option<string>)
    ensures r.Some? <==> |Split(dtTxt)| >= 2
    ensures r.Some? ==> 0 < |r.value| <= LabelWidth
  {
    var words := Split(dtTxt);
    if |words| < 2 then None
    else Some(words[1][..Min(LabelWidth, |words[1]|)])
  }

  function EntryTemp(item: Json): Option<Json> { Path(item, ["main", "temp"]) }
  function EntryFeelsLike(item: Json): Option<Json> { Path(item, ["main", "feels_like"]) }
  function EntryHumidity(item: Json): Option<Json> { Path(item, ["main", "humidity"]) }

  /** `item['dt_txt'].split()[1][:5]`; only a string has `split`. */
  function EntryTime(item: Json): Option<string>
  {
    match Get(item, "dt_txt")
    case Some(Str(s)) => TimeLabel(s)
    case _ => None
  }

  /** An entry that none of the four comprehensions raises on. */
  predicate EntryOk(item: Json)
  {
    EntryTemp(item).Some? && EntryFeelsLike(item).Some?
    && EntryHumidity(item).Some? && EntryTime(item).Some?
  }

  /** What the four comprehensions take from one entry. */
  datatype Point = Point(temp: Json, feelsLike: Json, humidity: Json, time: string)

  /** The four projections of one entry; none when one of them raises. */
  function PointOf(item: Json): (r: Option<Point>)
    ensures r.Some? <==> EntryOk(item)
  {
    if EntryOk(item)
    then Some(Point(EntryTemp(item).value, EntryFeelsLike(item).value,
                    EntryHumidity(item).value, EntryTime(item).value))
    else None
  }

  /** Index `i` of all four lists. */
  function At(s: Series, i: nat): Point
    requires Aligned(s, |s.temps|) && i < |s.temps|
  {
    Point(s.temps[i], s.feelsLike[i], s.humidity[i], s.times[i])
  }

  /** Position `i` of the series holds exactly the four projections of
      entry `item`. */
  predicate PointFrom(s: Series, i: nat, item: Json)
    requires Aligned(s, |s.temps|) && i < |s.temps|
  {
    PointOf(item) == Some(At(s, i))
  }

  /** The series with point `p` put in front. */
  function Prepend(p: Point, s: Series): (r: Series)
    requires Aligned(s, |s.temps|)
    ensures Aligned(r, |s.temps| + 1)
    ensures At(r, 0) == p
    ensures forall i :: 0 < i <= |s.temps| ==> At(r, i) == At(s, i - 1)
  {
    Series([p.temp] + s.temps, [p.feelsLike] + s.feelsLike,
           [p.humidity] + s.humidity, [p.time] + s.times)
  }

  /** The four list comprehensions over `items`. They raise (None) as soon
      as any entry lacks a field; otherwise index `i` of every list comes
      from entry `i`, in the order of `items`. */
  function Project(items: seq<Json>): (r: Option<Series>)
    ensures r.Some? <==> forall i :: 0 <= i < |items| ==> EntryOk(items[i])
    ensures r.Some? ==> Aligned(r.value, |items|)
    ensures r.Some? ==> forall i :: 0 <= i < |items| ==> PointFrom(r.value, i, items[i])
  {
    if items == [] then Some(Series([], [], [], []))
    else
      match (PointOf(items[0]), Project(items[1..]))
      case (Some(p), Some(rest)) =>
        var r := Prepend(p, rest);
        assert forall i :: 0 < i < |items| ==> items[i] == items[1..][i - 1];
        Some(r)
      case (None, _) => None
      case (_, None) =>
        assert exists i :: 0 <= i < |items| && !EntryOk(items[i]) by {
          var j :| 0 <= j < |items| - 1 && !EntryOk(items[1..][j]);
          assert items[1..][j] == items[j + 1];
        }
        None
  }

  /** `forecast['list'][:8]` and the four comprehensions over it: the
      first `min(8, |list|)` forecast entries, each projected in place,
      never re-sorted or padded. A string `list` slices as well, its
      characters becoming the entries (each of which then fails the first
      subscript); any other value raises. */
  function BuildSeries(forecast: Json): (r: Option<Series>)
    ensures r.Some? ==> |r.value.times| <= Horizon && Aligned(r.value, |r.value.times|)
    ensures Get(forecast, "list").Some? && Get(forecast, "list").value.Arr? ==>
      var items := Get(forecast, "list").value.items;
      var n := Min(Horizon, |items|);
      && (r.Some? <==> forall i :: 0 <= i < n ==> EntryOk(items[i]))
      && (r.Some? ==> Aligned(r.value, n)
                      && forall i :: 0 <= i < n ==> PointFrom(r.value, i, items[i]))
  {
    match Get(forecast, "list")
    case Some(Arr(items)) =>
      var taken := items[..Min(Horizon, |items|)];
      assert forall i :: 0 <= i < |taken| ==> taken[i] == items[i];
      Project(taken)
    case Some(Str(s)) => Project(Chars(s[..Min(Horizon, |s|)]))
    case _ => None
  }

  /** A forecast whose `list` is missing or is not a list or string gives
      no series (the subscript or the slice raises). */
  lemma NoListNoSeries(forecast: Json)
    requires Get(forecast, "list").None? ||
             !(Get(forecast, "list").value.Arr? || Get(forecast, "list").value.Str?)
    ensures BuildSeries(forecast).None?
  {
  }

  /** A label is the first at most five characters of the second word. */
  lemma {:induction false} TimeLabelOfDateAndTime(date: string, time: string)
    requires date != [] && NoSpace(date)
    requires time != [] && NoSpace(time)
    ensures TimeLabel(date + " " + time) == Some(time[..Min(LabelWidth, |time|)])
  {
    var ws := [date, time];
    assert JoinSpace(ws[1..]) == time;
    assert JoinSpace(ws) == date + " " + time;
    SplitJoinSpace(ws);
  }

  /** A date-time text in the API's format `YYYY-MM-DD HH:MM:SS`. */
  predicate IsDateTimeText(s: string)
  {
    |s| == 19
    && (forall i :: i in {0, 1, 2, 3, 5, 6, 8, 9, 11, 12, 14, 15, 17, 18} ==> IsDigit(s[i]))
    && s[4] == '-' && s[7] == '-' && s[10] == ' ' && s[13] == ':' && s[16] == ':'
  }

  /** For the API's format the label is exactly the "HH:MM" part. */
  lemma TimeLabelOfApiFormat(s: string)
    requires IsDateTimeText(s)
    ensures TimeLabel(s) == Some(s[11..16])
    ensures |s[11..16]| == 5 && s[11..16][2] == ':'
  {
    var date, time := s[..10], s[11..];
    assert s == date + " " + time;
    forall i | 0 <= i < |date| ensures !IsSpace(date[i]) {
      assert i in {0, 1, 2, 3, 5, 6, 8, 9} || i == 4 || i == 7;
    }
    forall i | 0 <= i < |time| ensures !IsSpace(time[i]) {
      assert i + 11 in {11, 12, 14, 15, 17, 18} || i == 2 || i == 5;
    }
    TimeLabelOfDateAndTime(date, time);
    assert time[..5] == s[11..16];
  }

  /** A date-time text without whitespace in it (an ISO `T` separator, say)
      has no second word: the label raises. */
  lemma TimeLabelNeedsTwoWords(s: string)
    requires NoSpace(s)
    ensures TimeLabel(s).None?
  {
    if s != [] {
      SplitSingleWord(s);
    } else {
      SplitEmptyIffBlank(s);
    }
  }
}
