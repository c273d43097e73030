/** Reading an "HH:MM" end time and moving it earlier by the configured lead
    (`ProxyManager.calculateEarlierTime` in proxy.js). */
module Clock {
  import opened Values

  // ---------------------------------------------------------------------------
  // `String.prototype.split` on one separator character
  // ---------------------------------------------------------------------------

  /** The pieces of `s` between occurrences of `sep`; like JavaScript's split there is
      always at least one piece, and a text without the separator, `""` included, is
      one piece. */
  function Split(s: string, sep: char): (parts: seq<string>)
    ensures |parts| >= 1
    decreases |s|
  {
    if s == [] then [[]]
    else
      var rest := Split(s[1..], sep);
      if s[0] == sep then [[]] + rest
      else [[s[0]] + rest[0]] + rest[1..]
  }

  /** A text without the separator is one piece. */
  lemma {:induction false} SplitWithoutSeparator(s: string, sep: char)
    ensures sep !in s ==> Split(s, sep) == [s]
    decreases |s|
  {
    if s != [] && sep !in s {
      SplitWithoutSeparator(s[1..], sep);
      assert s == [s[0]] + s[1..];
    }
  }

  /** The inverse of Split: the pieces glued back with `sep` between them. */
  function Join(parts: seq<string>, sep: char): string
    decreases |parts|
  {
    if |parts| == 0 then []
    else if |parts| == 1 then parts[0]
    else parts[0] + [sep] + Join(parts[1..], sep)
  }

  /** Splitting loses nothing: joining the pieces gives back the text, and no piece
      holds the separator. */
  lemma {:induction false} SplitJoin(s: string, sep: char)
    ensures Join(Split(s, sep), sep) == s
    ensures forall k :: 0 <= k < |Split(s, sep)| ==> sep !in Split(s, sep)[k]
    decreases |s|
  {
    if s != [] {
      var rest := Split(s[1..], sep);
      SplitJoin(s[1..], sep);
      if s[0] == sep {
        assert Split(s, sep) == [[]] + rest;
        assert Join([[]] + rest, sep) == [] + [sep] + Join(rest, sep);
        assert s == [s[0]] + s[1..];
      } else {
        var parts := Split(s, sep);
        assert parts == [[s[0]] + rest[0]] + rest[1..];
        if |rest| == 1 {
          assert Join(parts, sep) == [s[0]] + rest[0];
          assert s == [s[0]] + s[1..];
        } else {
          assert Join(rest, sep) == rest[0] + [sep] + Join(rest[1..], sep);
          assert parts[1..] == rest[1..];
          assert Join(parts, sep) == ([s[0]] + rest[0]) + [sep] + Join(rest[1..], sep);
          assert s == [s[0]] + s[1..];
        }
        forall k | 0 <= k < |parts|
          ensures sep !in parts[k]
        {
          if k > 0 {
            assert parts[k] == rest[k];
          }
        }
      }
    }
  }

  /** Text with exactly one separator splits into the parts on either side of it. */
  lemma {:induction false} SplitAroundSeparator(a: string, sep: char, b: string)
    requires sep !in a && sep !in b
    ensures Split(a + [sep] + b, sep) == [a, b]
    decreases |a|
  {
    if a == [] {
      SplitWithoutSeparator(b, sep);
      assert a + [sep] + b == [sep] + b;
      assert ([sep] + b)[1..] == b;
    } else {
      SplitAroundSeparator(a[1..], sep, b);
      assert (a + [sep] + b)[1..] == a[1..] + [sep] + b;
      assert [a[0]] + a[1..] == a;
    }
  }

  // ---------------------------------------------------------------------------
  // `Number(text)` on the texts an end time is made of
  // ---------------------------------------------------------------------------

  predicate IsDigit(c: char)
  {
    '0' <= c <= '9'
  }

  predicate AllDigits(s: string)
  {
    forall i :: 0 <= i < |s| ==> IsDigit(s[i])
  }

  /** The decimal value of a string of digits (`""` is 0, as `Number("")` is). */
  function DigitsValue(s: string): nat
    requires AllDigits(s)
    decreases |s|
  {
    if s == [] then 0
    else 10 * DigitsValue(s[..|s| - 1]) + (s[|s| - 1] - '0') as int
  }

  /** `Number(s)`: the decimal value of a digit string, NaN for anything else. */
  function NumberOf(s: string): (n: Num)
    ensures n.Int? <==> AllDigits(s)
    ensures n.Int? ==> n.v >= 0
    ensures s == [] ==> n == Int(0)
  {
    if AllDigits(s) then Int(DigitsValue(s)) else NaN
  }

  function DigitChar(d: nat): char
    requires d < 10
  {
    ('0' as int + d) as char
  }

  /** A number below 100 written with two digits, as in "09". */
  function Pad2(n: nat): (s: string)
    requires n < 100
  {
    [DigitChar(n / 10), DigitChar(n % 10)]
  }

  /** Reading back a two-digit number gives the number. */
  lemma NumberOfPad2(n: nat)
    requires n < 100
    ensures NumberOf(Pad2(n)) == Int(n)
  {
    var s := Pad2(n);
    assert AllDigits(s);
    assert s[..1] == [DigitChar(n / 10)];
    assert DigitsValue(s[..1]) == n / 10 by {
      assert s[..1][..0] == [];
    }
  }

  // ---------------------------------------------------------------------------
  // End times and fire times
  // ---------------------------------------------------------------------------

  /** An hour and a minute, as read from an end time or handed to the scheduler. */
  datatype HourMinute = HourMinute(hour: Num, minute: Num)

  /** A real time of day: both fields numbers, hour 0..23, minute 0..59. */
  predicate IsClockTime(t: HourMinute)
  {
    t.hour.Int? && t.minute.Int? && 0 <= t.hour.v < 24 && 0 <= t.minute.v < 60
  }

  /** Minutes since midnight of a numeric hour and minute. */
  function MinuteOfDay(t: HourMinute): int
    requires t.hour.Int? && t.minute.Int?
  {
    t.hour.v * 60 + t.minute.v
  }

  /** `const [hour, minute] = timeStr.split(':').map(Number)`. When there is no second
      piece the minute is `undefined`, which turns into NaN at the first arithmetic on it
      (`minute - this.config.sendEarlier`); the model records it as NaN straight away. */
  function ParseTime(timeStr: string): (t: HourMinute)
    ensures ':' !in timeStr ==> t.minute.NaN?
    ensures t.hour.Int? ==> t.hour.v >= 0
    ensures t.minute.Int? ==> t.minute.v >= 0
    ensures t.hour.Int? <==> AllDigits(Split(timeStr, ':')[0])
  {
    SplitWithoutSeparator(timeStr, ':');
    var parts := Split(timeStr, ':');
    HourMinute(NumberOf(parts[0]), if |parts| >= 2 then NumberOf(parts[1]) else NaN)
  }

  /** The "HH:MM" form the timetable writes end times in. */
  function TimeString(h: nat, m: nat): string
    requires h < 100 && m < 100
  {
    Pad2(h) + ":" + Pad2(m)
  }

  /** Reading an "HH:MM" end time gives back its hour and minute. */
  lemma ParseTimeString(h: nat, m: nat)
    requires h < 100 && m < 100
    ensures ParseTime(TimeString(h, m)) == HourMinute(Int(h), Int(m))
  {
    assert ':' !in Pad2(h) && ':' !in Pad2(m);
    SplitAroundSeparator(Pad2(h), ':', Pad2(m));
    assert TimeString(h, m) == Pad2(h) + [':'] + Pad2(m);
    NumberOfPad2(h);
    NumberOfPad2(m);
  }

  /** The borrow step of `calculateEarlierTime`, statement by statement: subtract the
      lead from the minute; if that is negative, add 60 to it, take one from the hour,
      and if the hour is then negative add 24 to it. It borrows at most once. */
  function ShiftEarlier(t: HourMinute, sendEarlier: int): (r: HourMinute)
    ensures r.minute.NaN? <==> t.minute.NaN?
    ensures r.hour.NaN? <==> t.hour.NaN?
    ensures t.minute.Int? ==>
      r.minute.v == t.minute.v - sendEarlier || r.minute.v == t.minute.v - sendEarlier + 60
    ensures t.minute.Int? && t.minute.v >= sendEarlier ==> r.hour == t.hour
  {
    var newMinute := t.minute.Minus(sendEarlier);
    if newMinute.Negative() then
      var newHour := t.hour.Minus(1);
      HourMinute(if newHour.Negative() then newHour.Plus(24) else newHour, newMinute.Plus(60))
    else
      HourMinute(t.hour, newMinute)
  }

  /** `calculateEarlierTime(timeStr)` with `this.config.sendEarlier` passed in. */
  function CalculateEarlierTime(timeStr: string, sendEarlier: int): (r: HourMinute)
    ensures IsClockTime(ParseTime(timeStr)) && 0 <= sendEarlier <= 60 ==>
      IsClockTime(r) && MinuteOfDay(r) % 1440 == (MinuteOfDay(ParseTime(timeStr)) - sendEarlier) % 1440
  {
    if IsClockTime(ParseTime(timeStr)) && 0 <= sendEarlier <= 60 then
      EarlierTimeIsClockTime(ParseTime(timeStr), sendEarlier);
      ShiftEarlier(ParseTime(timeStr), sendEarlier)
    else
      ShiftEarlier(ParseTime(timeStr), sendEarlier)
  }

  /** With a lead of at most an hour the fire time is a real time of day, and it is the
      end time minus the lead, modulo one day. */
  lemma EarlierTimeIsClockTime(t: HourMinute, sendEarlier: int)
    requires IsClockTime(t) && 0 <= sendEarlier <= 60
    ensures IsClockTime(ShiftEarlier(t, sendEarlier))
    ensures MinuteOfDay(ShiftEarlier(t, sendEarlier)) % 1440
         == (MinuteOfDay(t) - sendEarlier) % 1440
  {
  }

  /** For numeric input the result is the exact difference, or that plus one day when
      the hour wraps below midnight; the minute borrows 60 exactly when the lead exceeds
      it, and only then does the hour change: it drops by exactly one, and 0 becomes 23. */
  lemma EarlierTimeBorrowsOnce(t: HourMinute, sendEarlier: int)
    requires t.hour.Int? && t.minute.Int? && t.hour.v >= 0
    ensures var r := ShiftEarlier(t, sendEarlier);
      r.hour.Int? && r.minute.Int? &&
      (MinuteOfDay(r) == MinuteOfDay(t) - sendEarlier ||
       MinuteOfDay(r) == MinuteOfDay(t) - sendEarlier + 1440) &&
      (r.hour == t.hour <==> t.minute.v >= sendEarlier) &&
      r.hour.v == (if t.minute.v >= sendEarlier then t.hour.v
                   else if t.hour.v == 0 then 23 else t.hour.v - 1) &&
      r.minute.v == t.minute.v - sendEarlier + (if t.minute.v < sendEarlier then 60 else 0)
  {
  }

  /** No validation of the lead: once it exceeds the minute by more than an hour the
      single borrow is not enough and the fire minute is negative. */
  lemma EarlierTimeLongLeadGoesNegative(t: HourMinute, sendEarlier: int)
    requires IsClockTime(t) && sendEarlier > t.minute.v + 60
    ensures ShiftEarlier(t, sendEarlier).minute.Int?
    ensures ShiftEarlier(t, sendEarlier).minute.v < 0
    ensures !IsClockTime(ShiftEarlier(t, sendEarlier))
  {
  }

  /** A minute that is not a number stays NaN and leaves the hour as read. */
  lemma EarlierTimeNaNMinute(t: HourMinute, sendEarlier: int)
    requires t.minute.NaN?
    ensures ShiftEarlier(t, sendEarlier) == HourMinute(t.hour, NaN)
  {
  }

  /** With the default lead of 20 minutes a whole hour moves back to 40 past the hour
      before it. */
  lemma {:induction false} DefaultLeadOnTheHour(h: nat)
    requires 1 <= h < 24
    ensures CalculateEarlierTime(TimeString(h, 0), 20) == HourMinute(Int(h - 1), Int(40))
  {
    ParseTimeString(h, 0);
  }

  /** The default lead of 20 minutes on the timetable's end times: 10:00 fires at 9:40. */
  lemma DefaultLeadAtTen()
    ensures CalculateEarlierTime("10:00", 20) == HourMinute(Int(9), Int(40))
  {
    DefaultLeadOnTheHour(10);
    assert TimeString(10, 0) == "10:00";
  }

  /** 16:00 fires at 15:40. */
  lemma DefaultLeadAtFour()
    ensures CalculateEarlierTime("16:00", 20) == HourMinute(Int(15), Int(40))
  {
    DefaultLeadOnTheHour(16);
    assert TimeString(16, 0) == "16:00";
  }

  /** 00:10 borrows from hour 0, which wraps to 23: it fires at 23:50. */
  lemma DefaultLeadPastMidnight()
    ensures CalculateEarlierTime("00:10", 20) == HourMinute(Int(23), Int(50))
  {
    ParseTimeString(0, 10);
    assert TimeString(0, 10) == "00:10";
  }
}
