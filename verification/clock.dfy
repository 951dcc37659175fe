/**
 * The current-time string that shows are compared against
 * (`get_current_time`).  The wall clock itself is a parameter; only the
 * rendering of a reading as text is modelled.
 */
module Clock {
  import opened TextOrder

  /** A wall-clock reading, as a calendar date and time of day. */
  datatype DateTime = DateTime(year: int, month: int, day: int, hour: int, minute: int, second: int)

  /** A reading whose fields are in range; years are taken to have four digits. */
  predicate Valid(t: DateTime) {
    && 1000 <= t.year <= 9999
    && 1 <= t.month <= 12
    && 1 <= t.day <= 31
    && 0 <= t.hour < 24
    && 0 <= t.minute < 60
    && 0 <= t.second < 60
  }

  /** Chronological order of two readings: the fields compared from the year down. */
  predicate Before(t1: DateTime, t2: DateTime) {
    || t1.year < t2.year
    || (t1.year == t2.year && t1.month < t2.month)
    || (t1.year == t2.year && t1.month == t2.month && t1.day < t2.day)
    || (t1.year == t2.year && t1.month == t2.month && t1.day == t2.day && t1.hour < t2.hour)
    || (t1.year == t2.year && t1.month == t2.month && t1.day == t2.day && t1.hour == t2.hour
        && t1.minute < t2.minute)
    || (t1.year == t2.year && t1.month == t2.month && t1.day == t2.day && t1.hour == t2.hour
        && t1.minute == t2.minute && t1.second < t2.second)
  }

  function Pow10(w: nat): (p: nat)
    ensures p >= 1
  {
    if w == 0 then 1 else 10 * Pow10(w - 1)
  }

  function DigitChar(d: nat): char
    requires d < 10
  {
    ('0' as int + d) as char
  }

  /** `n` in decimal, padded with leading zeros to exactly `w` digits. */
  function Digits(n: nat, w: nat): (r: string)
    requires n < Pow10(w)
    ensures |r| == w
    decreases w
  {
    if w == 0 then "" else Digits(n / 10, w - 1) + [DigitChar(n % 10)]
  }

  /** A fixed-width field, a separator, then the rest of the string. */
  function Field(n: nat, w: nat, sep: string, rest: string): string
    requires n < Pow10(w)
  {
    Digits(n, w) + (sep + rest)
  }

  /** The rendering of `%Y-%m-%d %H:%M:%S`, the layout stored show times use. */
  function FormatCurrentTime(t: DateTime): (r: string)
    requires Valid(t)
    ensures |r| == 19
  {
    Field(t.year, 4, "-", Field(t.month, 2, "-", Field(t.day, 2, " ",
      Field(t.hour, 2, ":", Field(t.minute, 2, ":", Digits(t.second, 2))))))
  }

  /**
   * The rendering of `%Y-%m-%d %H:%S:%M`, the format string the source
   * passes: seconds are written where the minutes belong and vice versa.
   */
  function FormatCurrentTimeAsWritten(t: DateTime): (r: string)
    requires Valid(t)
    ensures |r| == 19
  {
    Field(t.year, 4, "-", Field(t.month, 2, "-", Field(t.day, 2, " ",
      Field(t.hour, 2, ":", Field(t.second, 2, ":", Digits(t.minute, 2))))))
  }

  /** Zero-padded numerals of one width sort as the numbers do, and are equal only for equal numbers. */
  lemma {:induction false} DigitsOrder(n: nat, m: nat, w: nat)
    requires n < Pow10(w) && m < Pow10(w)
    ensures StrLess(Digits(n, w), Digits(m, w)) <==> n < m
    ensures Digits(n, w) == Digits(m, w) <==> n == m
    decreases w
  {
    if w == 0 {
      StrLessIrreflexive("");
    } else {
      var a, b := Digits(n / 10, w - 1), Digits(m / 10, w - 1);
      var c, d := [DigitChar(n % 10)], [DigitChar(m % 10)];
      DigitsOrder(n / 10, m / 10, w - 1);
      StrLessConcat(a, c, b, d);
      assert StrLess(c, d) <==> n % 10 < m % 10;
      if a + c == b + d {
        assert a == (a + c)[..w - 1] && b == (b + d)[..w - 1];
        assert c[0] == (a + c)[w - 1] && d[0] == (b + d)[w - 1];
      }
      assert n == 10 * (n / 10) + n % 10;
      assert m == 10 * (m / 10) + m % 10;
    }
  }

  /** Strings built from equally wide fields and equal separators compare field by field. */
  lemma FieldOrder(n1: nat, n2: nat, w: nat, sep: string, r1: string, r2: string)
    requires n1 < Pow10(w) && n2 < Pow10(w)
    ensures StrLess(Field(n1, w, sep, r1), Field(n2, w, sep, r2)) <==> n1 < n2 || (n1 == n2 && StrLess(r1, r2))
  {
    DigitsOrder(n1, n2, w);
    StrLessConcat(Digits(n1, w), sep + r1, Digits(n2, w), sep + r2);
    StrLessConcat(sep, r1, sep, r2);
    StrLessIrreflexive(sep);
  }

  /**
   * With minutes before seconds, comparing two rendered readings as text
   * agrees with comparing the readings in time.
   */
  lemma CurrentTimeOrderFaithful(t1: DateTime, t2: DateTime)
    requires Valid(t1) && Valid(t2)
    ensures StrLess(FormatCurrentTime(t1), FormatCurrentTime(t2)) <==> Before(t1, t2)
  {
    var s1 := Field(t1.minute, 2, ":", Digits(t1.second, 2));
    var s2 := Field(t2.minute, 2, ":", Digits(t2.second, 2));
    var h1, h2 := Field(t1.hour, 2, ":", s1), Field(t2.hour, 2, ":", s2);
    var d1, d2 := Field(t1.day, 2, " ", h1), Field(t2.day, 2, " ", h2);
    var m1, m2 := Field(t1.month, 2, "-", d1), Field(t2.month, 2, "-", d2);
    DigitsOrder(t1.second, t2.second, 2);
    FieldOrder(t1.minute, t2.minute, 2, ":", Digits(t1.second, 2), Digits(t2.second, 2));
    FieldOrder(t1.hour, t2.hour, 2, ":", s1, s2);
    FieldOrder(t1.day, t2.day, 2, " ", h1, h2);
    FieldOrder(t1.month, t2.month, 2, "-", d1, d2);
    FieldOrder(t1.year, t2.year, 4, "-", m1, m2);
  }

  /**
   * The format as written breaks that agreement: at 10:05:30 the current time
   * renders as "…10:30:05", which sorts after a show stored as "…10:20:00"
   * although the show is a quarter of an hour later.
   */
  lemma AsWrittenMisordersShowTime()
    ensures var now := DateTime(2020, 1, 1, 10, 5, 30);
            var show := DateTime(2020, 1, 1, 10, 20, 0);
            Valid(now) && Valid(show) && Before(now, show) &&
            StrLess(FormatCurrentTime(show), FormatCurrentTimeAsWritten(now))
  {
    var now := DateTime(2020, 1, 1, 10, 5, 30);
    var show := DateTime(2020, 1, 1, 10, 20, 0);
    var a := Field(show.minute, 2, ":", Digits(show.second, 2));
    var b := Field(now.second, 2, ":", Digits(now.minute, 2));
    FieldOrder(show.minute, now.second, 2, ":", Digits(show.second, 2), Digits(now.minute, 2));
    var ha, hb := Field(10, 2, ":", a), Field(10, 2, ":", b);
    FieldOrder(10, 10, 2, ":", a, b);
    var da, db := Field(1, 2, " ", ha), Field(1, 2, " ", hb);
    FieldOrder(1, 1, 2, " ", ha, hb);
    var ma, mb := Field(1, 2, "-", da), Field(1, 2, "-", db);
    FieldOrder(1, 1, 2, "-", da, db);
    FieldOrder(2020, 2020, 4, "-", ma, mb);
  }
}
