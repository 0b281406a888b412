/** The trip duration shown in the weekly report: whole minutes split into
    days, hours and minutes with JavaScript's Math.floor and `%`, then written
    as "Xd Yh Zm" with the leading parts left out while they are zero. */
module ReportsDuration {
  import opened Common

  // Minutes in a day (24 * 60) and in an hour; written as literals below so
  // that the products stay linear for the solver.

  /** JavaScript's `%`: the remainder takes the sign of the dividend. */
  function JsRem(a: int, b: int): (r: int)
    requires b > 0
    ensures a >= 0 ==> r == a % b
    ensures a < 0 ==> -b < r <= 0 && r == -((-a) % b)
  {
    if a >= 0 then a % b else -((-a) % b)
  }

  datatype Parts = Parts(days: int, hours: int, minutes: int)

  /** days = Math.floor(m / 1440), hours = Math.floor((m % 1440) / 60),
      minutes = m % 60. For a non-negative total the parts recompose it, with
      hours below a day and minutes below an hour. */
  function SplitMinutes(total: int): (p: Parts)
    ensures total >= 0 ==> p.days >= 0 && 0 <= p.hours < 24 && 0 <= p.minutes < 60
    ensures total >= 0 ==> p.days * 1440 + p.hours * 60 + p.minutes == total
  {
    if total >= 0 then Recompose(total); Parts(total / 1440, JsRem(total, 1440) / 60, JsRem(total, 60))
    else Parts(total / 1440, JsRem(total, 1440) / 60, JsRem(total, 60))
  }

  lemma Recompose(total: int)
    requires total >= 0
    ensures (total / 1440) * 1440 + ((total % 1440) / 60) * 60
            + total % 60 == total
    ensures (total % 1440) / 60 < 24
  {
    var days := total / 1440;
    var r := total % 1440;
    assert total == days * 1440 + r;
    assert r == (r / 60) * 60 + r % 60;
    assert total == (days * 24 + r / 60) * 60 + r % 60;
  }

  /** The text before trimming: "Xd " when there are days, "Yh " when there are
      hours or days, and always "Zm". */
  function RawDuration(p: Parts): string {
    if p.days > 0 then IntToString(p.days) + "d " + IntToString(p.hours) + "h " + IntToString(p.minutes) + "m"
    else if p.hours > 0 then IntToString(p.hours) + "h " + IntToString(p.minutes) + "m"
    else IntToString(p.minutes) + "m"
  }

  /** The duration text of a total number of minutes. */
  function DurationText(total: int): string {
    RawDuration(SplitMinutes(total))
  }

  /** The duration computation of the report: split the minutes, append the
      parts, then trim. The trim never changes the text, so the result is
      DurationText. */
  method FormatDuration(totalMinutes: int) returns (duration: string)
    ensures duration == DurationText(totalMinutes)
  {
    var days := totalMinutes / 1440;
    var hours := JsRem(totalMinutes, 1440) / 60;
    var minutes := JsRem(totalMinutes, 60);
    duration := "";
    if days > 0 {
      duration := duration + IntToString(days) + "d ";
    }
    if hours > 0 || days > 0 {
      duration := duration + IntToString(hours) + "h ";
    }
    duration := duration + IntToString(minutes) + "m";
    ghost var p := Parts(days, hours, minutes);
    if days > 0 {
      assert "" + IntToString(days) == IntToString(days);
    } else if hours > 0 {
      assert "" + IntToString(hours) == IntToString(hours);
    } else {
      assert "" + IntToString(minutes) == IntToString(minutes);
    }
    assert duration == RawDuration(p);
    RawDurationIsTrimmed(p);
    duration := Trim(duration);
  }

  /** The trim applied to the duration never changes it: it neither starts nor
      ends with white space. */
  lemma RawDurationIsTrimmed(p: Parts)
    ensures Trim(RawDuration(p)) == RawDuration(p)
  {
    var s := RawDuration(p);
    var first := if p.days > 0 then IntToString(p.days)
                 else if p.hours > 0 then IntToString(p.hours)
                 else IntToString(p.minutes);
    assert s[0] == first[0];
    assert first[0] == '-' || IsDigit(first[0]);
    assert s[|s| - 1] == 'm';
    TrimOfClean(s);
  }

  // ---------------------------------------------------------------------
  // Reading a duration back

  /** One "<digits><unit>" token of a duration. */
  function ParseToken(token: string, unit: char): (r: Option<nat>)
    ensures r.Some? ==> |token| >= 2 && token[|token| - 1] == unit
  {
    if |token| >= 2 && token[|token| - 1] == unit then ParseNat(token[..|token| - 1]) else None
  }

  /** The number of minutes a duration text of the report denotes. */
  function ParseDuration(s: string): (r: Option<int>)
    ensures r.Some? ==> r.value >= 0
  {
    ParseParts(Split(s, ' '))
  }

  /** "Zm", "Yh Zm" or "Xd Yh Zm", split at the spaces. */
  function ParseParts(parts: seq<string>): (r: Option<int>)
    ensures r.Some? ==> r.value >= 0
  {
    var n := |parts|;
    if n < 1 || n > 3 then None
    else
      var d := if n == 3 then ParseToken(parts[0], 'd') else Some(0);
      var h := if n >= 2 then ParseToken(parts[n - 2], 'h') else Some(0);
      var m := ParseToken(parts[n - 1], 'm');
      if d.Some? && h.Some? && m.Some? && h.value < 24 && m.value < 60
      then Some(d.value * 1440 + h.value * 60 + m.value)
      else None
  }

  lemma ParseTokenOf(n: nat, unit: char)
    ensures ParseToken(NatToString(n) + [unit], unit) == Some(n)
    ensures unit == 'd' ==> ParseToken(NatToString(n) + "d", 'd') == Some(n)
    ensures unit == 'h' ==> ParseToken(NatToString(n) + "h", 'h') == Some(n)
    ensures unit == 'm' ==> ParseToken(NatToString(n) + "m", 'm') == Some(n)
  {
    var t := NatToString(n) + [unit];
    assert t[..|t| - 1] == NatToString(n);
    ParseNatToString(n);
  }

  lemma NoSpaceInNumber(n: nat)
    ensures ' ' !in NatToString(n)
  {
    var d := NatToString(n);
    assert AllDigits(d);
  }

  lemma ParseMinutesOnly(m: nat)
    requires m < 60
    ensures ParseDuration(NatToString(m) + "m") == Some(m)
  {
    var mt := NatToString(m) + "m";
    NoSpaceInNumber(m);
    assert ' ' !in mt;
    assert Split(mt, ' ') == [mt];
    ParseTokenOf(m, 'm');
  }

  lemma SplitPair(x: string, y: string, sep: char)
    requires sep !in x && sep !in y
    ensures Split(x + [sep] + y, sep) == [x, y]
  {
    SplitAfterPiece(x, sep, y);
  }

  lemma NoSpaceAfterUnit(a: string, unit: char)
    requires ' ' !in a && unit != ' '
    ensures ' ' !in a + [unit]
  {
  }

  /** Splitting "<a>h <b>m" at spaces, for texts a and b without spaces. */
  lemma SplitTwo(a: string, b: string)
    requires ' ' !in a && ' ' !in b
    ensures Split(a + "h " + b + "m", ' ') == [a + "h", b + "m"]
  {
    var x, y := a + "h", b + "m";
    NoSpaceAfterUnit(a, 'h');
    NoSpaceAfterUnit(b, 'm');
    assert a + "h " == x + [' '] by {
      assert "h " == "h" + [' '];
    }
    assert a + "h " + b + "m" == x + [' '] + y;
    SplitPair(x, y, ' ');
  }

  /** Splitting "<a>d <b>h <c>m" at spaces, for texts without spaces. */
  lemma SplitThree(a: string, b: string, c: string)
    requires ' ' !in a && ' ' !in b && ' ' !in c
    ensures Split(a + "d " + b + "h " + c + "m", ' ') == [a + "d", b + "h", c + "m"]
  {
    NoSpaceAfterUnit(a, 'd');
    assert a + "d " + b + "h " + c + "m" == (a + "d") + [' '] + (b + "h " + c + "m");
    SplitAfterPiece(a + "d", ' ', b + "h " + c + "m");
    SplitTwo(b, c);
  }

  /** Parts with days read back once their text splits into the three
      tokens and each token reads back. */
  lemma ParseRawThree(p: Parts)
    requires p.days > 0 && 0 <= p.hours < 24 && 0 <= p.minutes < 60
    requires Split(RawDuration(p), ' ')
             == [NatToString(p.days) + "d", NatToString(p.hours) + "h", NatToString(p.minutes) + "m"]
    requires ParseToken(NatToString(p.days) + "d", 'd') == Some(p.days)
    requires ParseToken(NatToString(p.hours) + "h", 'h') == Some(p.hours)
    requires ParseToken(NatToString(p.minutes) + "m", 'm') == Some(p.minutes)
    ensures ParseDuration(RawDuration(p)) == Some(p.days * 1440 + p.hours * 60 + p.minutes)
  {
  }

  /** Parts with hours and no days read back once their text splits into the
      two tokens and each token reads back. */
  lemma ParseRawTwo(p: Parts)
    requires p.days == 0 && 0 < p.hours < 24 && 0 <= p.minutes < 60
    requires Split(RawDuration(p), ' ') == [NatToString(p.hours) + "h", NatToString(p.minutes) + "m"]
    requires ParseToken(NatToString(p.hours) + "h", 'h') == Some(p.hours)
    requires ParseToken(NatToString(p.minutes) + "m", 'm') == Some(p.minutes)
    ensures ParseDuration(RawDuration(p)) == Some(p.hours * 60 + p.minutes)
  {
  }

  /** The text of parts with days splits at its spaces into the three
      tokens. */
  lemma ThreePartSplit(p: Parts)
    requires p.days > 0 && 0 <= p.hours && 0 <= p.minutes
    ensures Split(RawDuration(p), ' ')
            == [NatToString(p.days) + "d", NatToString(p.hours) + "h", NatToString(p.minutes) + "m"]
  {
    NoSpaceInNumber(p.days);
    NoSpaceInNumber(p.hours);
    NoSpaceInNumber(p.minutes);
    SplitThree(NatToString(p.days), NatToString(p.hours), NatToString(p.minutes));
  }

  /** The text of parts with hours and no days splits at its space into the
      two tokens. */
  lemma TwoPartSplit(p: Parts)
    requires p.days == 0 && 0 < p.hours && 0 <= p.minutes
    ensures Split(RawDuration(p), ' ') == [NatToString(p.hours) + "h", NatToString(p.minutes) + "m"]
  {
    NoSpaceInNumber(p.hours);
    NoSpaceInNumber(p.minutes);
    SplitTwo(NatToString(p.hours), NatToString(p.minutes));
  }

  lemma {:induction false} ThreePartRoundTrip(p: Parts)
    requires p.days > 0 && 0 <= p.hours < 24 && 0 <= p.minutes < 60
    ensures ParseDuration(RawDuration(p)) == Some(p.days * 1440 + p.hours * 60 + p.minutes)
  {
    ThreePartSplit(p);
    ParseTokenOf(p.days, 'd');
    ParseTokenOf(p.hours, 'h');
    ParseTokenOf(p.minutes, 'm');
    ParseRawThree(p);
  }

  lemma {:induction false} TwoPartRoundTrip(p: Parts)
    requires p.days == 0 && 0 < p.hours < 24 && 0 <= p.minutes < 60
    ensures ParseDuration(RawDuration(p)) == Some(p.hours * 60 + p.minutes)
  {
    TwoPartSplit(p);
    ParseTokenOf(p.hours, 'h');
    ParseTokenOf(p.minutes, 'm');
    ParseRawTwo(p);
  }

  lemma {:induction false} OnePartRoundTrip(p: Parts)
    requires p.days == 0 && p.hours == 0 && 0 <= p.minutes < 60
    ensures ParseDuration(RawDuration(p)) == Some(p.minutes)
  {
    ParseMinutesOnly(p.minutes);
  }

  /** Reading back the text of parts in range gives the minutes they make
      up. */
  lemma {:induction false} PartsRoundTrip(p: Parts)
    requires p.days >= 0 && 0 <= p.hours < 24 && 0 <= p.minutes < 60
    ensures ParseDuration(RawDuration(p)) == Some(p.days * 1440 + p.hours * 60 + p.minutes)
  {
    if p.days > 0 {
      ThreePartRoundTrip(p);
    } else if p.hours > 0 {
      TwoPartRoundTrip(p);
    } else {
      OnePartRoundTrip(p);
    }
  }

  /** Reading back the duration of a non-negative total gives that total. */
  lemma {:induction false} DurationRoundTrip(total: int)
    requires total >= 0
    ensures ParseDuration(DurationText(total)) == Some(total)
  {
    var p := SplitMinutes(total);
    assert p.days * 1440 + p.hours * 60 + p.minutes == total;
    PartsRoundTrip(p);
  }

  /** Two non-negative totals with the same text are the same total. */
  lemma DurationTextInjective(a: int, b: int)
    requires a >= 0 && b >= 0
    requires DurationText(a) == DurationText(b)
    ensures a == b
  {
    DurationRoundTrip(a);
    DurationRoundTrip(b);
  }

  /** A negative total (an end before the start) shows only its minutes
      remainder, signed: days and hours are never positive then. */
  lemma NegativeDuration(total: int)
    requires total < 0
    ensures DurationText(total) == IntToString(JsRem(total, 60)) + "m"
  {
    var p := SplitMinutes(total);
    assert p.days < 0;
    assert p.hours <= 0;
  }
}
