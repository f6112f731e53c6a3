/**
 * The shape of what `save_data` writes: a file named from the clock with
 * second resolution, holding the two last payloads under `current` and
 * `forecast`. The clock reading is an input; writing the file is not
 * modelled.
 */
module Snapshot {
  import opened Json
  import opened Text

  /** The fields of `datetime.now()` that `%Y%m%d_%H%M%S` prints. */
  datatype DateTime = DateTime(year: int, month: int, day: int, hour: int, minute: int, second: int)

  /** The ranges a Python datetime keeps its fields in. */
  predicate ValidDateTime(t: DateTime)
  {
    1 <= t.year <= 9999 && 1 <= t.month <= 12 && 1 <= t.day <= 31
    && 0 <= t.hour < 24 && 0 <= t.minute < 60 && 0 <= t.second < 60
  }

  /** `%Y%m%d`, every field zero-padded. */
  function DateText(t: DateTime): string
    requires ValidDateTime(t)
  {
    PadDigits(t.year, 4) + PadDigits(t.month, 2) + PadDigits(t.day, 2)
  }

  /** `%H%M%S`, every field zero-padded. */
  function ClockText(t: DateTime): string
    requires ValidDateTime(t)
  {
    PadDigits(t.hour, 2) + PadDigits(t.minute, 2) + PadDigits(t.second, 2)
  }

  /** `now.strftime("%Y%m%d_%H%M%S")`: fifteen characters, digits around
      one underscore. */
  function Stamp(t: DateTime): (r: string)
    requires ValidDateTime(t)
    ensures |r| == 15 && r[8] == '_' && AllDigits(r[..8]) && AllDigits(r[9..])
  {
    DateFields(t);
    ClockFields(t);
    Pieces(DateText(t), "_", ClockText(t));
    DateText(t) + "_" + ClockText(t)
  }

  /** The three pieces of a concatenation can be cut back out of it. */
  lemma Pieces(a: string, b: string, c: string)
    ensures var x := a + b + c;
      x[..|a|] == a && x[|a|..|a| + |b|] == b && x[|a| + |b|..] == c
  {
  }

  const FilePrefix: string := "weather_data_"
  const FileSuffix: string := ".json"

  /** `f"weather_data_{timestamp}.json"`: the stamp sits between the fixed
      prefix and suffix and can be cut back out. */
  function FileName(t: DateTime): (r: string)
    requires ValidDateTime(t)
    ensures |r| == |FilePrefix| + 15 + |FileSuffix|
    ensures r[..|FilePrefix|] == FilePrefix && r[|FilePrefix| + 15..] == FileSuffix
    ensures r[|FilePrefix|..|FilePrefix| + 15] == Stamp(t)
  {
    Pieces(FilePrefix, Stamp(t), FileSuffix);
    FilePrefix + Stamp(t) + FileSuffix
  }

  /** `{'current': ..., 'forecast': ...}`. */
  function Document(current: Json, forecast: Json): Json
  {
    Obj(map["current" := current, "forecast" := forecast])
  }

  /** A file `save_data` would write: its name and its JSON document. */
  datatype SavedFile = SavedFile(name: string, document: Json)

  /** The name is `weather_data_`, eight digits, `_`, six digits and
      `.json`, and nothing else; the middle is the stamp itself. */
  lemma FileNameShape(t: DateTime)
    requires ValidDateTime(t)
    ensures var n := FileName(t);
      && |n| == 33
      && n[..13] == "weather_data_"
      && n[13..28] == Stamp(t)
      && AllDigits(n[13..21]) && n[21] == '_' && AllDigits(n[22..28])
      && n[28..] == ".json"
  {
    var n := FileName(t);
    Pieces(FilePrefix, Stamp(t), FileSuffix);
    StampFields(t);
    assert n[13..21] == Stamp(t)[..8];
    assert n[22..28] == Stamp(t)[9..];
  }

  /** The date part reads back as year, month and day. */
  lemma DateFields(t: DateTime)
    requires ValidDateTime(t)
    ensures var d := DateText(t);
      && |d| == 8 && AllDigits(d)
      && DigitsValue(d[..4]) == t.year
      && DigitsValue(d[4..6]) == t.month
      && DigitsValue(d[6..]) == t.day
  {
    Pieces(PadDigits(t.year, 4), PadDigits(t.month, 2), PadDigits(t.day, 2));
    assert Pow10(2) == 100 && Pow10(4) == 10000;
    PadDigitsValue(t.year, 4);
    PadDigitsValue(t.month, 2);
    PadDigitsValue(t.day, 2);
  }

  /** The clock part reads back as hour, minute and second. */
  lemma ClockFields(t: DateTime)
    requires ValidDateTime(t)
    ensures var c := ClockText(t);
      && |c| == 6 && AllDigits(c)
      && DigitsValue(c[..2]) == t.hour
      && DigitsValue(c[2..4]) == t.minute
      && DigitsValue(c[4..]) == t.second
  {
    Pieces(PadDigits(t.hour, 2), PadDigits(t.minute, 2), PadDigits(t.second, 2));
    assert Pow10(2) == 100;
    PadDigitsValue(t.hour, 2);
    PadDigitsValue(t.minute, 2);
    PadDigitsValue(t.second, 2);
  }

  /** The stamp is the date part, `_` and the clock part. */
  lemma StampFields(t: DateTime)
    requires ValidDateTime(t)
    ensures var st := Stamp(t);
      && |st| == 15 && st[..8] == DateText(t) && st[8] == '_' && st[9..] == ClockText(t)
  {
    DateFields(t);
    ClockFields(t);
    Pieces(DateText(t), "_", ClockText(t));
  }

  /** Names are deterministic at second resolution: two saves get the same
      file name only when the clock read the same second (and then the
      later write replaces the earlier one). */
  lemma FileNameInjective(t1: DateTime, t2: DateTime)
    requires ValidDateTime(t1) && ValidDateTime(t2)
    ensures FileName(t1) == FileName(t2) <==> t1 == t2
  {
    if FileName(t1) == FileName(t2) {
      FileNameShape(t1);
      FileNameShape(t2);
      StampFields(t1);
      StampFields(t2);
      DateFields(t1);
      DateFields(t2);
      ClockFields(t1);
      ClockFields(t2);
    }
  }
}
