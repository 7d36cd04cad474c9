/**
 The screenshot file name built by `save_screenshot`:
 `<screenshots_dir>/<YYYYMMDD_HHMMSS>.png`, where the timestamp is
 `datetime.now().strftime('%Y%m%d_%H%M%S')`. The clock reading is a
 parameter; the capture itself is a call record on the driver handle.
 */
module Helpers {
  import opened Base

  /** A `datetime` reading at second precision (sub-second digits are not formatted). */
  datatype DateTime = DateTime(year: int, month: int, day: int, hour: int, minute: int, second: int)

  predicate IsLeap(y: int) {
    y % 4 == 0 && (y % 100 != 0 || y % 400 == 0)
  }

  function DaysIn(y: int, m: int): int
    requires 1 <= m <= 12
  {
    if m == 2 then (if IsLeap(y) then 29 else 28)
    else if m == 4 || m == 6 || m == 9 || m == 11 then 30
    else 31
  }

  /** The range Python's `datetime` accepts (MINYEAR 1 to MAXYEAR 9999). */
  predicate Valid(t: DateTime) {
    && 1 <= t.year <= 9999
    && 1 <= t.month <= 12
    && 1 <= t.day <= DaysIn(t.year, t.month)
    && 0 <= t.hour < 24
    && 0 <= t.minute < 60
    && 0 <= t.second < 60
  }

  /** Chronological order of two readings. */
  predicate Before(a: DateTime, b: DateTime) {
    || a.year < b.year
    || (a.year == b.year && a.month < b.month)
    || (a.year == b.year && a.month == b.month && a.day < b.day)
    || (a.year == b.year && a.month == b.month && a.day == b.day && a.hour < b.hour)
    || (a.year == b.year && a.month == b.month && a.day == b.day && a.hour == b.hour && a.minute < b.minute)
    || (a.year == b.year && a.month == b.month && a.day == b.day && a.hour == b.hour && a.minute == b.minute
        && a.second < b.second)
  }

  function Pow10(w: nat): (p: nat)
    ensures p > 0
  {
    if w == 0 then 1 else 10 * Pow10(w - 1)
  }

  predicate IsDigit(c: char) {
    '0' <= c <= '9'
  }

  predicate AllDigits(s: string) {
    forall i :: 0 <= i < |s| ==> IsDigit(s[i])
  }

  function DigitChar(d: int): (c: char)
    requires 0 <= d < 10
    ensures IsDigit(c)
  {
    ('0' as int + d) as char
  }

  function DigitValue(c: char): int
    requires IsDigit(c)
  {
    c as int - '0' as int
  }

  /** `n` written in exactly `w` decimal digits, zero-padded on the left (the `%0wd` of strftime). */
  function Pad(n: nat, w: nat): (s: string)
    ensures |s| == w
    ensures AllDigits(s)
  {
    if w == 0 then "" else Pad(n / 10, w - 1) + [DigitChar(n % 10)]
  }

  /** A two-digit field: the tens digit, then the units digit. */
  lemma Pad2(n: nat)
    requires n < 100
    ensures Pad(n, 2) == [DigitChar(n / 10), DigitChar(n % 10)]
  {
    assert Pad(n / 10, 1) == [DigitChar(n / 10 % 10)];
  }

  /** A four-digit field, most significant digit first. */
  lemma Pad4(n: nat)
    requires n < 10000
    ensures Pad(n, 4) == [DigitChar(n / 1000), DigitChar(n / 100 % 10), DigitChar(n / 10 % 10), DigitChar(n % 10)]
  {
    Pad2(n / 100);
    assert n / 100 / 10 == n / 1000 && n / 100 % 10 == n / 100 % 10;
    assert n / 10 / 10 == n / 100;
  }

  /** The value a string of decimal digits denotes. */
  function ParseDigits(s: string): nat
    requires AllDigits(s)
  {
    if |s| == 0 then 0
    else 10 * ParseDigits(s[..|s| - 1]) + DigitValue(s[|s| - 1])
  }

  lemma {:induction false} ParsePad(n: nat, w: nat)
    requires n < Pow10(w)
    ensures ParseDigits(Pad(n, w)) == n
  {
    if w > 0 {
      var s := Pad(n, w);
      assert s[..|s| - 1] == Pad(n / 10, w - 1);
      ParsePad(n / 10, w - 1);
    }
  }

  /** `strftime('%Y%m%d_%H%M%S')`. */
  function Timestamp(t: DateTime): (ts: string)
    requires Valid(t)
    ensures |ts| == 15
    ensures ts[8] == '_'
    ensures forall i :: 0 <= i < 15 && i != 8 ==> IsDigit(ts[i])
  {
    Pad(t.year, 4) + (Pad(t.month, 2) + (Pad(t.day, 2) + ("_" + (Pad(t.hour, 2) + (Pad(t.minute, 2) + Pad(t.second, 2))))))
  }

  predicate IsTimestampShape(ts: string) {
    |ts| == 15 && ts[8] == '_' && AllDigits(ts[..8]) && AllDigits(ts[9..])
  }

  /** Reads the date-time fields back out of a timestamp (the `strptime` of the format). */
  function ParseTimestamp(ts: string): DateTime
    requires IsTimestampShape(ts)
  {
    DateTime(ParseDigits(ts[0..4]), ParseDigits(ts[4..6]), ParseDigits(ts[6..8]),
             ParseDigits(ts[9..11]), ParseDigits(ts[11..13]), ParseDigits(ts[13..15]))
  }

  /** The timestamp loses nothing: parsing it gives back the reading it came from. */
  lemma TimestampRoundTrip(t: DateTime)
    requires Valid(t)
    ensures IsTimestampShape(Timestamp(t))
    ensures ParseTimestamp(Timestamp(t)) == t
  {
    var ts := Timestamp(t);
    assert ts[0..4] == Pad(t.year, 4);
    assert ts[4..6] == Pad(t.month, 2);
    assert ts[6..8] == Pad(t.day, 2);
    assert ts[9..11] == Pad(t.hour, 2);
    assert ts[11..13] == Pad(t.minute, 2);
    assert ts[13..15] == Pad(t.second, 2);
    assert AllDigits(ts[..8]) by {
      forall i | 0 <= i < 8 ensures IsDigit(ts[..8][i]) {
        assert ts[..8][i] == ts[i];
      }
    }
    assert AllDigits(ts[9..]) by {
      forall i | 0 <= i < 6 ensures IsDigit(ts[9..][i]) {
        assert ts[9..][i] == ts[9 + i];
      }
    }
    ParsePad(t.year, 4);
    ParsePad(t.month, 2);
    ParsePad(t.day, 2);
    ParsePad(t.hour, 2);
    ParsePad(t.minute, 2);
    ParsePad(t.second, 2);
  }

  lemma TimestampInjective(a: DateTime, b: DateTime)
    requires Valid(a) && Valid(b)
    ensures Timestamp(a) == Timestamp(b) <==> a == b
  {
    if Timestamp(a) == Timestamp(b) {
      TimestampRoundTrip(a);
      TimestampRoundTrip(b);
    }
  }

  /** The path `save_screenshot` writes to: `<dir>/<timestamp>.png`. */
  function ScreenshotName(dir: string, t: DateTime): (name: string)
    requires Valid(t)
    ensures |name| == |dir| + 20
    ensures name[..|dir|] == dir && name[|dir|] == '/'
    ensures name[|dir| + 1..|dir| + 16] == Timestamp(t)
    ensures name[|dir| + 16..] == ".png"
  {
    dir + "/" + Timestamp(t) + ".png"
  }

  /**
   Within one directory, two screenshots taken at different seconds get
   different names, which is the uniqueness the function's documentation
   claims; two taken within the same second collide.
   */
  lemma ScreenshotNameInjective(dir: string, a: DateTime, b: DateTime)
    requires Valid(a) && Valid(b)
    ensures ScreenshotName(dir, a) == ScreenshotName(dir, b) <==> a == b
  {
    if ScreenshotName(dir, a) == ScreenshotName(dir, b) {
      var n := ScreenshotName(dir, a);
      assert Timestamp(a) == n[|dir| + 1..|dir| + 16] == Timestamp(b);
      TimestampInjective(a, b);
    }
  }

  /** Strict lexicographic order on strings, as a directory listing sorts names. */
  predicate LexLess(a: string, b: string)
    decreases |a|
  {
    if |a| == 0 then |b| > 0
    else if |b| == 0 then false
    else a[0] < b[0] || (a[0] == b[0] && LexLess(a[1..], b[1..]))
  }

  lemma {:induction false} LexLessAsymmetric(a: string, b: string)
    requires LexLess(a, b)
    ensures !LexLess(b, a)
    decreases |a|
  {
    if |a| > 0 && |b| > 0 && a[0] == b[0] {
      LexLessAsymmetric(a[1..], b[1..]);
    }
  }

  /** Appending to two strings of equal length keeps an order decided within them. */
  lemma {:induction false} LexLessAppend(a: string, b: string, x: string, y: string)
    requires |a| == |b| && LexLess(a, b)
    ensures LexLess(a + x, b + y)
    decreases |a|
  {
    assert |a| > 0;
    if a[0] == b[0] {
      assert (a + x)[1..] == a[1..] + x;
      assert (b + y)[1..] == b[1..] + y;
      LexLessAppend(a[1..], b[1..], x, y);
    }
  }

  /** A common prefix does not change the order. */
  lemma {:induction false} LexLessPrefix(p: string, x: string, y: string)
    requires LexLess(x, y)
    ensures LexLess(p + x, p + y)
    decreases |p|
  {
    if |p| > 0 {
      assert (p + x)[0] == p[0] == (p + y)[0];
      assert (p + x)[1..] == p[1..] + x;
      assert (p + y)[1..] == p[1..] + y;
      LexLessPrefix(p[1..], x, y);
    } else {
      assert p + x == x && p + y == y;
    }
  }

  /** On zero-padded numbers of one width, string order is numeric order. */
  lemma {:induction false} PadOrder(n: nat, m: nat, w: nat)
    requires n < m < Pow10(w)
    ensures LexLess(Pad(n, w), Pad(m, w))
  {
    assert w > 0;
    if n / 10 < m / 10 {
      PadOrder(n / 10, m / 10, w - 1);
      LexLessAppend(Pad(n / 10, w - 1), Pad(m / 10, w - 1), [DigitChar(n % 10)], [DigitChar(m % 10)]);
    } else {
      assert n / 10 == m / 10 && n % 10 < m % 10;
      LexLessPrefix(Pad(n / 10, w - 1), [DigitChar(n % 10)], [DigitChar(m % 10)]);
    }
  }

  /** Compares two strings made of an equal-length head and a tail. */
  lemma LexLessSplit(a1: string, a2: string, b1: string, b2: string)
    requires |a1| == |b1|
    requires LexLess(a1, b1) || (a1 == b1 && LexLess(a2, b2))
    ensures LexLess(a1 + a2, b1 + b2)
  {
    if LexLess(a1, b1) {
      LexLessAppend(a1, b1, a2, b2);
    } else {
      LexLessPrefix(a1, a2, b2);
    }
  }

  /** Orders two timestamps field by field, the most significant field first. */
  lemma TimestampOrderFields(a: DateTime, b: DateTime)
    requires Valid(a) && Valid(b) && Before(a, b)
    ensures LexLess(Timestamp(a), Timestamp(b))
  {
    var ya, yb := Pad(a.year, 4), Pad(b.year, 4);
    var moa, mob := Pad(a.month, 2), Pad(b.month, 2);
    var da, db := Pad(a.day, 2), Pad(b.day, 2);
    var ha, hb := Pad(a.hour, 2), Pad(b.hour, 2);
    var mia, mib := Pad(a.minute, 2), Pad(b.minute, 2);
    var sa, sb := Pad(a.second, 2), Pad(b.second, 2);
    // the tails that follow each field
    var t5a, t5b := mia + sa, mib + sb;
    var t4a, t4b := ha + t5a, hb + t5b;
    var t3a, t3b := "_" + t4a, "_" + t4b;
    var t2a, t2b := da + t3a, db + t3b;
    var t1a, t1b := moa + t2a, mob + t2b;
    if a.year < b.year {
      PadOrder(a.year, b.year, 4);
    } else {
      if a.month < b.month {
        PadOrder(a.month, b.month, 2);
      } else {
        if a.day < b.day {
          PadOrder(a.day, b.day, 2);
        } else {
          if a.hour < b.hour {
            PadOrder(a.hour, b.hour, 2);
          } else {
            if a.minute < b.minute {
              PadOrder(a.minute, b.minute, 2);
            } else {
              PadOrder(a.second, b.second, 2);
            }
            LexLessSplit(mia, sa, mib, sb);
          }
          LexLessSplit(ha, t5a, hb, t5b);
          LexLessSplit("_", t4a, "_", t4b);
        }
        LexLessSplit(da, t3a, db, t3b);
      }
      LexLessSplit(moa, t2a, mob, t2b);
    }
    LexLessSplit(ya, t1a, yb, t1b);
  }

  /** A later screenshot in the same directory gets a name that sorts after an earlier one's. */
  lemma ScreenshotNameLater(dir: string, a: DateTime, b: DateTime)
    requires Valid(a) && Valid(b) && Before(a, b)
    ensures LexLess(ScreenshotName(dir, a), ScreenshotName(dir, b))
  {
    TimestampOrderFields(a, b);
    LexLessAppend(Timestamp(a), Timestamp(b), ".png", ".png");
    LexLessPrefix(dir + "/", Timestamp(a) + ".png", Timestamp(b) + ".png");
    assert ScreenshotName(dir, a) == (dir + "/") + (Timestamp(a) + ".png");
    assert ScreenshotName(dir, b) == (dir + "/") + (Timestamp(b) + ".png");
  }

  /**
   Names sort in the order the screenshots were taken: one name sorts
   before another exactly when its reading is chronologically earlier.
   */
  lemma ScreenshotNameOrder(dir: string, a: DateTime, b: DateTime)
    requires Valid(a) && Valid(b)
    ensures LexLess(ScreenshotName(dir, a), ScreenshotName(dir, b)) <==> Before(a, b)
  {
    if Before(a, b) {
      ScreenshotNameLater(dir, a, b);
    } else if a == b {
      LexLessIrreflexive(ScreenshotName(dir, a));
    } else {
      ScreenshotNameLater(dir, b, a);
      LexLessAsymmetric(ScreenshotName(dir, b), ScreenshotName(dir, a));
    }
  }

  lemma {:induction false} LexLessIrreflexive(s: string)
    ensures !LexLess(s, s)
    decreases |s|
  {
    if |s| > 0 {
      LexLessIrreflexive(s[1..]);
    }
  }

  /** The one call `save_screenshot` makes on the driver. */
  datatype ScreenshotCall = ScreenshotCall(driver: Driver, path: string)

  /**
   `save_screenshot(driver, dir)` at clock reading `now`: a single capture
   on the given driver, into `dir`, under a name that is a timestamp.
   */
  function SaveScreenshot(driver: Driver, dir: string, now: DateTime): (c: ScreenshotCall)
    requires Valid(now)
    ensures c.driver == driver
    ensures |c.path| == |dir| + 20
    ensures c.path[..|dir|] == dir && c.path[|dir|] == '/'
    ensures IsTimestampShape(c.path[|dir| + 1..|dir| + 16])
    ensures ParseTimestamp(c.path[|dir| + 1..|dir| + 16]) == now
    ensures c.path[|dir| + 16..] == ".png"
  {
    TimestampRoundTrip(now);
    ScreenshotCall(driver, ScreenshotName(dir, now))
  }
}
