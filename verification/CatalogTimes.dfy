/** Timestamps as texts: exactly the printed forms of the instants the calendar has. */
module CatalogTimes {
  import opened CatalogRecords

  datatype Instant = Instant(year: nat, month: nat, day: nat, hour: nat, minute: nat, second: nat, milli: nat)

  predicate IsLeap(year: nat) {
    year % 400 == 0 || (year % 4 == 0 && year % 100 != 0)
  }

  const MONTHS := [31, 28, 31, 30, 31, 30, 31, 31, 30, 31, 30, 31]

  /** The instants of the years 0 to 9999. */
  predicate InCalendar(t: Instant) {
    && t.year < 10000 && 1 <= t.month <= 12
    && 1 <= t.day <= MONTHS[t.month - 1] + (if t.month == 2 && IsLeap(t.year) then 1 else 0)
    && t.hour < 24 && t.minute < 60 && t.second < 60 && t.milli < 1000
  }

  /** A number in a fixed number of digits. */
  function Pad(n: nat, width: nat): string {
    if width == 0 then "" else Pad(n / 10, width - 1) + [(n % 10 + '0' as int) as char]
  }

  function Dashed(y: string, mo: string, d: string): string {
    y + "-" + mo + "-" + d
  }

  function Coloned(h: string, mi: string, s: string, ms: string): string {
    h + ":" + mi + ":" + s + "." + ms + "Z"
  }

  function Print(t: Instant): string {
    Dashed(Pad(t.year, 4), Pad(t.month, 2), Pad(t.day, 2)) + "T"
    + Coloned(Pad(t.hour, 2), Pad(t.minute, 2), Pad(t.second, 2), Pad(t.milli, 3))
  }

  function Power(width: nat): nat {
    if width == 0 then 1 else 10 * Power(width - 1)
  }

  /** Padding and reading are inverse to each other. */
  lemma {:induction false} PaddedReads(n: nat, width: nat)
    requires n < Power(width)
    ensures |Pad(n, width)| == width && AreDigits(Pad(n, width)) && Number(Pad(n, width)) == n
  {
    if width > 0 {
      PaddedReads(n / 10, width - 1);
      var s := Pad(n, width);
      assert s[..|s| - 1] == Pad(n / 10, width - 1);
    }
  }

  lemma {:induction false} ReadPads(s: string)
    requires AreDigits(s)
    ensures Number(s) < Power(|s|) && Pad(Number(s), |s|) == s
  {
    if s != "" {
      ReadPads(s[..|s| - 1]);
      assert s == s[..|s| - 1] + [s[|s| - 1]];
    }
  }

  lemma Powers()
    ensures Power(2) == 100 && Power(3) == 1000 && Power(4) == 10000
  {
    assert Power(1) == 10;
  }

  lemma DaysAre(year: nat, month: nat)
    requires 1 <= month <= 12
    ensures DaysIn(year, month) == MONTHS[month - 1] + if month == 2 && IsLeap(year) then 1 else 0
  {
    if month == 2 {
      LeapYears(year);
      assert MONTHS[1] == 28;
    } else {
      assert MONTHS[month - 1] == if month == 4 || month == 6 || month == 9 || month == 11 then 30 else 31;
    }
  }

  lemma LeapYears(year: nat)
    ensures DaysIn(year, 2) == if IsLeap(year) then 29 else 28
  {
    assert year % 400 == 0 ==> year % 4 == 0;
  }

  /** The printed text, part by part. */
  lemma Parts(t: Instant)
    requires InCalendar(t)
    ensures var s := Print(t);
      && |s| == 24
      && s[4] == '-' && s[7] == '-' && s[10] == 'T' && s[13] == ':' && s[16] == ':' && s[19] == '.' && s[23] == 'Z'
      && s[0..4] == Pad(t.year, 4) && s[5..7] == Pad(t.month, 2) && s[8..10] == Pad(t.day, 2)
      && s[11..13] == Pad(t.hour, 2) && s[14..16] == Pad(t.minute, 2) && s[17..19] == Pad(t.second, 2)
      && s[20..23] == Pad(t.milli, 3)
  {
    hide Pad, Number, AreDigits, IsLeap, Dashed, Coloned;
    Powers();
    PaddedReads(t.year, 4);
    PaddedReads(t.month, 2);
    PaddedReads(t.day, 2);
    PaddedReads(t.hour, 2);
    PaddedReads(t.minute, 2);
    PaddedReads(t.second, 2);
    PaddedReads(t.milli, 3);
    Joined(Pad(t.year, 4), Pad(t.month, 2), Pad(t.day, 2), Pad(t.hour, 2), Pad(t.minute, 2), Pad(t.second, 2),
           Pad(t.milli, 3));
  }

  lemma Joined(y: string, mo: string, d: string, h: string, mi: string, s: string, ms: string)
    requires |y| == 4 && |mo| == 2 && |d| == 2 && |h| == 2 && |mi| == 2 && |s| == 2 && |ms| == 3
    ensures var t := Dashed(y, mo, d) + "T" + Coloned(h, mi, s, ms);
      && |t| == 24
      && t[4] == '-' && t[7] == '-' && t[10] == 'T' && t[13] == ':' && t[16] == ':' && t[19] == '.' && t[23] == 'Z'
      && t[0..4] == y && t[5..7] == mo && t[8..10] == d && t[11..13] == h && t[14..16] == mi && t[17..19] == s
      && t[20..23] == ms
  {
    hide Dashed, Coloned;
    DashedParts(y, mo, d);
    ColonedParts(h, mi, s, ms);
    var date, time := Dashed(y, mo, d), Coloned(h, mi, s, ms);
    var t := date + "T" + time;
    assert t[..10] == date && t[11..] == time;
    assert t[0..4] == date[0..4] && t[5..7] == date[5..7] && t[8..10] == date[8..10];
    assert t[11..13] == time[0..2] && t[14..16] == time[3..5] && t[17..19] == time[6..8] && t[20..23] == time[9..12];
    assert forall i :: 11 <= i < 24 ==> t[i] == time[i - 11];
  }

  lemma DashedParts(y: string, mo: string, d: string)
    requires |y| == 4 && |mo| == 2 && |d| == 2
    ensures var s := Dashed(y, mo, d);
      |s| == 10 && s[4] == '-' && s[7] == '-' && s[0..4] == y && s[5..7] == mo && s[8..10] == d
  {
  }

  lemma ColonedParts(h: string, mi: string, s: string, ms: string)
    requires |h| == 2 && |mi| == 2 && |s| == 2 && |ms| == 3
    ensures var t := Coloned(h, mi, s, ms);
      |t| == 13 && t[2] == ':' && t[5] == ':' && t[8] == '.' && t[12] == 'Z'
      && t[0..2] == h && t[3..5] == mi && t[6..8] == s && t[9..12] == ms
  {
  }

  lemma PrintedIsTimestamp(t: Instant)
    requires InCalendar(t)
    ensures IsTimestampText(Print(t))
  {
    hide Pad, Print, Number, AreDigits;
    Parts(t);
    Powers();
    PaddedReads(t.year, 4);
    PaddedReads(t.month, 2);
    PaddedReads(t.day, 2);
    PaddedReads(t.hour, 2);
    PaddedReads(t.minute, 2);
    PaddedReads(t.second, 2);
    PaddedReads(t.milli, 3);
    DaysAre(t.year, t.month);
  }

  /** The instant a timestamp names. */
  lemma Named(s: string) returns (t: Instant)
    requires IsTimestampText(s)
    ensures InCalendar(t) && Print(t) == s
  {
    hide Pad, Number, AreDigits, Dashed, Coloned;
    Powers();
    t := Instant(Number(s[0..4]), Number(s[5..7]), Number(s[8..10]), Number(s[11..13]), Number(s[14..16]),
                 Number(s[17..19]), Number(s[20..23]));
    ReadPads(s[0..4]);
    ReadPads(s[5..7]);
    ReadPads(s[8..10]);
    ReadPads(s[11..13]);
    ReadPads(s[14..16]);
    ReadPads(s[17..19]);
    ReadPads(s[20..23]);
    DaysAre(t.year, t.month);
    Cut(s);
  }

  lemma Cut(s: string)
    requires |s| == 24
    requires s[4] == '-' && s[7] == '-' && s[10] == 'T' && s[13] == ':' && s[16] == ':' && s[19] == '.' && s[23] == 'Z'
    ensures s == Dashed(s[0..4], s[5..7], s[8..10]) + "T" + Coloned(s[11..13], s[14..16], s[17..19], s[20..23])
  {
    assert s[..10] == Dashed(s[0..4], s[5..7], s[8..10]);
    assert s[11..] == Coloned(s[11..13], s[14..16], s[17..19], s[20..23]);
    assert s == s[..10] + "T" + s[11..];
  }

  /** A text is accepted as a timestamp exactly when it is what some instant of the calendar prints
      as: no thirtieth of February, no twenty-fifth hour, no shorter or longer form. */
  lemma TimestampIff(s: string)
    ensures IsTimestampText(s) <==> exists t :: InCalendar(t) && Print(t) == s
  {
    hide Print, IsTimestampText, InCalendar;
    if IsTimestampText(s) {
      var t := Named(s);
    }
    if t :| InCalendar(t) && Print(t) == s {
      PrintedIsTimestamp(t);
    }
  }
}
