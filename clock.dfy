/** `datetime.now()` as a value, and the `strftime` patterns the recorder prints it with. */
module Clock {
  import opened Strings

  datatype DateTime = DateTime(year: nat, month: nat, day: nat, hour: nat, minute: nat, second: nat)
  {
    /** The ranges `datetime` itself enforces. */
    predicate Valid() {
      1 <= year <= 9999 && 1 <= month <= 12 && 1 <= day <= 31 && hour < 24 && minute < 60 && second < 60
    }
  }

  /** `strftime("%Y%m%d_%H%M%S")`, the stamp in a recording's file name. */
  function FileStamp(t: DateTime): string {
    ZeroPad(t.year, 4) + ZeroPad(t.month, 2) + ZeroPad(t.day, 2) + "_"
    + ZeroPad(t.hour, 2) + ZeroPad(t.minute, 2) + ZeroPad(t.second, 2)
  }

  /** `strftime("%b")` in the C locale. */
  function MonthAbbrev(month: nat): string
    requires 1 <= month <= 12
  {
    ["Jan", "Feb", "Mar", "Apr", "May", "Jun", "Jul", "Aug", "Sep", "Oct", "Nov", "Dec"][month - 1]
  }

  /** `strftime("%b %d %Y")`, the date line of an upload report. */
  function DateLine(t: DateTime): string
    requires t.Valid()
  {
    MonthAbbrev(t.month) + " " + ZeroPad(t.day, 2) + " " + ZeroPad(t.year, 4)
  }

  /** `strftime("%H:%M:%S")`. */
  function ClockTime(t: DateTime): string {
    ZeroPad(t.hour, 2) + ":" + ZeroPad(t.minute, 2) + ":" + ZeroPad(t.second, 2)
  }

  lemma PadWidth(n: nat, width: nat)
    requires 0 < width && n < Pow10(width)
    ensures |ZeroPad(n, width)| == width && DigitsValue(ZeroPad(n, width)) == n
  {
    ZeroPadValue(n, width);
    ZeroPadLength(n, width);
  }

  /** Every stamp is fifteen characters long, with the `_` at index 8. */
  lemma FileStampShape(t: DateTime)
    requires t.Valid()
    ensures |FileStamp(t)| == 15 && FileStamp(t)[8] == '_'
  {
    PadWidth(t.year, 4);
    PadWidth(t.month, 2);
    PadWidth(t.day, 2);
    PadWidth(t.hour, 2);
    PadWidth(t.minute, 2);
    PadWidth(t.second, 2);
  }

  /** Two different instants (to the second) never share a stamp, so file names do not collide. */
  lemma FileStampInjective(a: DateTime, b: DateTime)
    requires a.Valid() && b.Valid() && FileStamp(a) == FileStamp(b)
    ensures a == b
  {
    PadWidth(a.year, 4); PadWidth(b.year, 4);
    PadWidth(a.month, 2); PadWidth(b.month, 2);
    PadWidth(a.day, 2); PadWidth(b.day, 2);
    PadWidth(a.hour, 2); PadWidth(b.hour, 2);
    PadWidth(a.minute, 2); PadWidth(b.minute, 2);
    PadWidth(a.second, 2); PadWidth(b.second, 2);
    var x5 := ZeroPad(a.year, 4) + ZeroPad(a.month, 2) + ZeroPad(a.day, 2) + "_"
      + ZeroPad(a.hour, 2) + ZeroPad(a.minute, 2);
    var y5 := ZeroPad(b.year, 4) + ZeroPad(b.month, 2) + ZeroPad(b.day, 2) + "_"
      + ZeroPad(b.hour, 2) + ZeroPad(b.minute, 2);
    SplitConcat(x5, ZeroPad(a.second, 2), y5, ZeroPad(b.second, 2));
    var x4 := ZeroPad(a.year, 4) + ZeroPad(a.month, 2) + ZeroPad(a.day, 2) + "_" + ZeroPad(a.hour, 2);
    var y4 := ZeroPad(b.year, 4) + ZeroPad(b.month, 2) + ZeroPad(b.day, 2) + "_" + ZeroPad(b.hour, 2);
    SplitConcat(x4, ZeroPad(a.minute, 2), y4, ZeroPad(b.minute, 2));
    var x3 := ZeroPad(a.year, 4) + ZeroPad(a.month, 2) + ZeroPad(a.day, 2) + "_";
    var y3 := ZeroPad(b.year, 4) + ZeroPad(b.month, 2) + ZeroPad(b.day, 2) + "_";
    SplitConcat(x3, ZeroPad(a.hour, 2), y3, ZeroPad(b.hour, 2));
    var x2 := ZeroPad(a.year, 4) + ZeroPad(a.month, 2) + ZeroPad(a.day, 2);
    var y2 := ZeroPad(b.year, 4) + ZeroPad(b.month, 2) + ZeroPad(b.day, 2);
    SplitConcat(x2, "_", y2, "_");
    var x1 := ZeroPad(a.year, 4) + ZeroPad(a.month, 2);
    var y1 := ZeroPad(b.year, 4) + ZeroPad(b.month, 2);
    SplitConcat(x1, ZeroPad(a.day, 2), y1, ZeroPad(b.day, 2));
    SplitConcat(ZeroPad(a.year, 4), ZeroPad(a.month, 2), ZeroPad(b.year, 4), ZeroPad(b.month, 2));
  }

  lemma SplitConcat(x: string, y: string, x': string, y': string)
    requires x + y == x' + y' && |y| == |y'|
    ensures x == x' && y == y'
  {
    assert x == (x + y)[..|x|];
    assert x' == (x' + y')[..|x'|];
    assert y == (x + y)[|x|..];
    assert y' == (x' + y')[|x'|..];
  }
}
