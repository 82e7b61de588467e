/**
 * Times of day as the schedule and the slot picker handle them: zero-padded
 * 24-hour `"HH:mm"` strings (what `<input type="time">` produces), their
 * 12-hour rendering `formatTime` (written twice in the source, in
 * frontend/src/pages/doctor/DoctorSchedule.jsx and
 * frontend/src/components/TimeSlotPicker.jsx, identically), and the string
 * comparison the schedule uses to reject a slot that does not end after it
 * starts.
 */
module ClockTime {
  import opened Base
  import opened Text
  import opened Patterns

  /** A zero-padded 24-hour time `"HH:mm"` with hour 00..23 and minute 00..59. */
  predicate IsHhMm(t: string) {
    && |t| == 5
    && IsDigit(t[0]) && IsDigit(t[1]) && t[2] == ':' && IsDigit(t[3]) && IsDigit(t[4])
    && DigitValue(t[0]) * 10 + DigitValue(t[1]) < 24
    && DigitValue(t[3]) * 10 + DigitValue(t[4]) < 60
  }

  function Hour(t: string): (h: nat)
    requires IsHhMm(t)
    ensures h < 24
  {
    DigitValue(t[0]) * 10 + DigitValue(t[1])
  }

  function Minute(t: string): (m: nat)
    requires IsHhMm(t)
    ensures m < 60
  {
    DigitValue(t[3]) * 10 + DigitValue(t[4])
  }

  /** Minutes since midnight. */
  function MinuteOfDay(t: string): (m: nat)
    requires IsHhMm(t)
    ensures m < 24 * 60
  {
    Hour(t) * 60 + Minute(t)
  }

  /** `time24.split(":")` of an `"HH:mm"` string gives the hour and minute texts. */
  lemma SplitHhMm(t: string)
    requires IsHhMm(t)
    ensures Split(t, ':') == [t[..2], t[3..]]
    ensures AllDigits(t[..2]) && DigitsValue(t[..2]) == Hour(t)
  {
    assert t == t[..2] + [':'] + t[3..];
    SplitOnce(t[..2], t[3..], ':');
    TwoDigitsValue(t[..2]);
  }

  /** `hour % 12 || 12`: the hour on a 12-hour clock face, 12 standing for 0. */
  function Hour12(hour: nat): (h: nat)
    ensures 1 <= h <= 12
    ensures h % 12 == hour % 12
  {
    if hour % 12 == 0 then 12 else hour % 12
  }

  /** `formatTime`: `"HH:mm"` to `"h:mm AM"` / `"h:mm PM"`. The text ends in
      " PM" exactly from noon on, and it loses nothing: reading it back with
      `To24` gives the input. */
  function FormatTime(time24: string): (r: string)
    requires IsHhMm(time24)
    ensures 7 <= |r| <= 8
    ensures r[|r| - 3..] == " PM" <==> Hour(time24) >= 12
    ensures r[|r| - 3..] == " AM" <==> Hour(time24) < 12
    ensures To24(r) == Some(time24)
  {
    SplitHhMm(time24);
    var parts := Split(time24, ':');
    var hours, minutes := parts[0], parts[1];
    var hour := DigitsValue(hours);
    var period := if hour >= 12 then "PM" else "AM";
    RenderedReadsBack(time24);
    PeriodSuffix(NatToString(Hour12(hour)) + ":" + minutes, period);
    NatToString(Hour12(hour)) + ":" + minutes + " " + period
  }

  /** The last three characters of a rendered time are the space and the period. */
  lemma PeriodSuffix(head: string, p: string)
    requires p == "AM" || p == "PM"
    ensures var r := head + " " + p; r[|r| - 3..] == " " + p
    ensures " " + p == " PM" <==> p == "PM"
    ensures " " + p == " AM" <==> p == "AM"
  {
    var r := head + " " + p;
    assert r == head + (" " + p);
    assert (" " + p)[1..] == p;
    assert " PM"[1..] == "PM" && " AM"[1..] == "AM";
  }

  /** The period text: `hour >= 12 ? "PM" : "AM"`. */
  function Period(hour: nat): string {
    if hour >= 12 then "PM" else "AM"
  }

  /** `formatTime` unfolded: the clock-face hour, the copied minutes, the period. */
  lemma FormatTimeShape(t: string)
    requires IsHhMm(t)
    ensures FormatTime(t) == NatToString(Hour12(Hour(t))) + ":" + t[3..] + " " + Period(Hour(t))
  {
    SplitHhMm(t);
  }

  /** Midnight and noon both read 12 on the clock face. */
  lemma FormatTimeMidnightNoon(t: string)
    requires IsHhMm(t)
    ensures Hour(t) == 0 ==> FormatTime(t) == "12:" + t[3..] + " AM"
    ensures Hour(t) == 12 ==> FormatTime(t) == "12:" + t[3..] + " PM"
  {
    FormatTimeShape(t);
    var h := Hour(t);
    if h == 0 || h == 12 {
      ConcatTwelve(h, t[3..]);
    }
  }

  /** The rendered text of hour 0 or 12. */
  lemma ConcatTwelve(h: nat, mm: string)
    requires h == 0 || h == 12
    ensures NatToString(Hour12(h)) + ":" + mm + " " + Period(h) == "12:" + mm + " " + Period(h)
    ensures Period(h) == if h == 0 then "AM" else "PM"
  {
    TwelveText();
  }

  lemma TwelveText()
    ensures NatToString(12) == "12"
  {
    assert NatToString(1) == [DigitChar(1)] == "1";
    assert NatToString(12) == NatToString(1) + [DigitChar(2)];
  }

  /** The clock-face hour lies in 1..12 and agrees with the hour modulo 12;
      the minutes are copied unchanged. */
  lemma FormatTimeClockFace(t: string)
    requires IsHhMm(t)
    ensures exists n :: 1 <= n <= 12 && n % 12 == Hour(t) % 12 &&
              FormatTime(t) == NatToString(n) + ":" + t[3..] + " " + Period(Hour(t))
  {
    FormatTimeShape(t);
  }

  /** Reads a 12-hour `"h:mm AM"` / `"h:mm PM"` time back into `"HH:mm"`. */
  function To24(s: string): (r: Option<string>)
    ensures r.Some? ==> IsHhMm(r.value)
  {
    if |s| < 7 || s[|s| - 3] != ' ' then None
    else
      var period := s[|s| - 2..];
      var body := s[..|s| - 3];
      match IndexOf(body, ':')
      case None => None
      case Some(i) =>
        var hText, mText := body[..i], body[i + 1..];
        if !(period == "AM" || period == "PM") || !(1 <= |hText| <= 2) || !AllDigits(hText)
           || |mText| != 2 || !AllDigits(mText) then None
        else
          var h12 := DigitsValue(hText);
          TwoDigitsValue(mText);
          if h12 < 1 || h12 > 12 || DigitsValue(mText) >= 60 then None
          else
            var hour := if period == "AM" then h12 % 12 else h12 % 12 + 12;
            var t := Pad2(hour) + ":" + mText;
            TwoDigitsValue(Pad2(hour));
            Some(t)
  }

  /** The first ':' of `h + ":" + m` is the one after a digit run `h`. */
  lemma IndexOfAfterDigits(h: string, m: string)
    requires AllDigits(h)
    ensures IndexOf(h + ":" + m, ':') == Some(|h|)
  {
    var s := h + ":" + m;
    assert s[|h|] == ':';
    assert s[..|h|] == h;
    assert ':' !in h;
    var k := IndexOf(s, ':');
    assert k.Some?;
    assert k.value <= |h|;
  }

  /** `To24` on a well-formed 12-hour text. */
  lemma To24Of(h: string, m: string, p: string)
    requires AllDigits(h) && 1 <= |h| <= 2 && 1 <= DigitsValue(h) <= 12
    requires |m| == 2 && AllDigits(m) && DigitsValue(m) < 60
    requires p == "AM" || p == "PM"
    ensures To24(h + ":" + m + " " + p) ==
              Some(Pad2(if p == "AM" then DigitsValue(h) % 12 else DigitsValue(h) % 12 + 12) + ":" + m)
  {
    var s := h + ":" + m + " " + p;
    var body := s[..|s| - 3];
    assert body == h + ":" + m;
    assert s[|s| - 2..] == p;
    IndexOfAfterDigits(h, m);
    assert body[..|h|] == h && body[|h| + 1..] == m;
  }

  /** The clock-face hour and the period together determine the hour. */
  lemma HourFromClockFace(hour: nat)
    requires hour < 24
    ensures (if Period(hour) == "AM" then Hour12(hour) % 12 else Hour12(hour) % 12 + 12) == hour
  {
    assert "AM"[0] != "PM"[0];
  }

  /** The hour text of an `"HH:mm"` time is `Pad2` of its hour. */
  lemma HourText(t: string)
    requires IsHhMm(t)
    ensures t == Pad2(Hour(t)) + ":" + t[3..]
  {
    SplitHhMm(t);
    TwoDigitsPad(t[..2]);
    assert t == t[..2] + ":" + t[3..];
  }

  /** The 12-hour text built from an `"HH:mm"` time reads back as that time. */
  lemma RenderedReadsBack(t: string)
    requires IsHhMm(t)
    ensures To24(NatToString(Hour12(Hour(t))) + ":" + t[3..] + " " + Period(Hour(t))) == Some(t)
  {
    var hour := Hour(t);
    var mm := t[3..];
    TwoDigitsValue(mm);
    var ns := NatToString(Hour12(hour));
    To24Of(ns, mm, Period(hour));
    HourFromClockFace(hour);
    HourText(t);
  }

  /** `a >= b` on strings: the negation of JavaScript's `<`. */
  predicate NotBefore(a: string, b: string) {
    !LexLess(a, b)
  }

  /** JavaScript's `<` on two five-character strings, unfolded. */
  lemma LexLessFive(a: string, b: string)
    requires |a| == 5 && |b| == 5
    ensures LexLess(a, b) ==
              if a[0] != b[0] then a[0] < b[0]
              else if a[1] != b[1] then a[1] < b[1]
              else if a[2] != b[2] then a[2] < b[2]
              else if a[3] != b[3] then a[3] < b[3]
              else a[4] < b[4]
  {
    var a1, b1 := a[1..], b[1..];
    var a2, b2 := a1[1..], b1[1..];
    var a3, b3 := a2[1..], b2[1..];
    var a4, b4 := a3[1..], b3[1..];
    var a5, b5 := a4[1..], b4[1..];
    assert a1[0] == a[1] && a2[0] == a[2] && a3[0] == a[3] && a4[0] == a[4];
    assert b1[0] == b[1] && b2[0] == b[2] && b3[0] == b[3] && b4[0] == b[4];
    assert LexLess(a4, b4) == if a4[0] != b4[0] then a4[0] < b4[0] else LexLess(a5, b5);
    assert LexLess(a3, b3) == if a3[0] != b3[0] then a3[0] < b3[0] else LexLess(a4, b4);
    assert LexLess(a2, b2) == if a2[0] != b2[0] then a2[0] < b2[0] else LexLess(a3, b3);
    assert LexLess(a1, b1) == if a1[0] != b1[0] then a1[0] < b1[0] else LexLess(a2, b2);
    assert LexLess(a, b) == if a[0] != b[0] then a[0] < b[0] else LexLess(a1, b1);
  }

  /** For zero-padded `"HH:mm"` strings, string order is time-of-day order: the
      schedule's `startTime >= endTime` rejection refuses exactly the slots
      that do not end after they start. */
  lemma HhMmOrderIsTimeOrder(a: string, b: string)
    requires IsHhMm(a) && IsHhMm(b)
    ensures LexLess(a, b) <==> MinuteOfDay(a) < MinuteOfDay(b)
    ensures NotBefore(a, b) <==> MinuteOfDay(a) >= MinuteOfDay(b)
  {
    LexLessFive(a, b);
    assert forall c, d :: IsDigit(c) && IsDigit(d) ==> (c < d <==> DigitValue(c) < DigitValue(d));
  }
}
