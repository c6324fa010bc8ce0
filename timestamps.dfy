/** Timestamps as the REST types exchange them: the text form
    `YYYY-MM-DDTHH:MM:SS` written by `datetime.strftime` and read, with
    somewhat looser fields, by `datetime.strptime` with the format
    `'%Y-%m-%dT%H:%M:%S'`, and the shift by
    a `timedelta` of whole hours and minutes applied to a parsed time. */
module Timestamps {
  import opened PyBase

  /** A naive `datetime` without microseconds. */
  datatype DateTime = DateTime(year: int, month: int, day: int, hour: int, minute: int, second: int)

  predicate IsLeap(y: int) {
    (y % 4 == 0 && y % 100 != 0) || y % 400 == 0
  }

  function DaysInMonth(y: int, m: int): int
    requires 1 <= m <= 12
  {
    if m == 2 then (if IsLeap(y) then 29 else 28)
    else if m == 4 || m == 6 || m == 9 || m == 11 then 30
    else 31
  }

  /** The fields `datetime` accepts: years 1 to 9999 and a real calendar day. */
  predicate Valid(t: DateTime) {
    1 <= t.year <= 9999 && 1 <= t.month <= 12 && 1 <= t.day <= DaysInMonth(t.year, t.month)
    && 0 <= t.hour < 24 && 0 <= t.minute < 60 && 0 <= t.second < 60
  }

  /** `t.strftime('%Y-%m-%dT%H:%M:%S')`; Python 2 refuses years before 1900
      with ValueError. */
  function Strftime(t: DateTime): (r: Result<string>)
    requires Valid(t)
    ensures r.Err? <==> t.year < 1900
    ensures r.Err? ==> r.error == ValueError
    ensures r.Ok? ==> |r.value| == 19 && r.value[4] == '-' && r.value[7] == '-' && r.value[10] == 'T'
                      && r.value[13] == ':' && r.value[16] == ':'
  {
    if t.year < 1900 then Err(ValueError)
    else
      Ok(PadDigits(t.year, 4) + "-" + PadDigits(t.month, 2) + "-" + PadDigits(t.day, 2) + "T"
         + PadDigits(t.hour, 2) + ":" + PadDigits(t.minute, 2) + ":" + PadDigits(t.second, 2))
  }

  predicate DigitsAt(s: string, i: nat, w: nat)
    requires i + w <= |s|
  {
    forall k :: i <= k < i + w ==> IsDigit(s[k])
  }

  /** The number written by the `w` digits of `s` starting at `i`. */
  function FieldAt(s: string, i: nat, w: nat): nat
    requires i + w <= |s| && DigitsAt(s, i, w)
  {
    DigitsValue(s[i..i + w])
  }

  /** Where the field starting at `i` ends: at the first character from `i`
      on that is neither a digit nor a space. */
  function FieldEnd(s: string, i: nat): (j: nat)
    requires i <= |s|
    ensures i <= j <= |s|
    ensures j < |s| ==> !IsDigit(s[j]) && s[j] != ' '
    ensures forall k :: i <= k < j ==> IsDigit(s[k]) || s[k] == ' '
    decreases |s| - i
  {
    if i == |s| || (!IsDigit(s[i]) && s[i] != ' ') then i else FieldEnd(s, i + 1)
  }

  /** The number a whole field matches under the pattern strptime uses for
      `%m`, `%d`, `%H`, `%M` and `%S`: one digit not below `lo`, two digits
      from `lo` to `hi`, and, for `%d` only (`spaced`), a space and a digit
      from 1 to 9. */
  function FieldValue(f: string, lo: nat, hi: nat, spaced: bool): (r: Option<nat>)
    requires lo <= 1
    ensures r.Some? ==> 1 <= |f| <= 2 && lo <= r.value
    ensures r.Some? && |f| == 2 && f[0] != ' ' ==> r.value <= hi
    ensures r.Some? && f[0] == ' ' ==> spaced && |f| == 2
  {
    if |f| == 1 && IsDigit(f[0]) && DigitValue(f[0]) >= lo then Some(DigitValue(f[0]))
    else if |f| == 2 && IsDigit(f[0]) && IsDigit(f[1]) && lo <= DigitsValue(f) <= hi then Some(DigitsValue(f))
    else if spaced && |f| == 2 && f[0] == ' ' && IsDigit(f[1]) && f[1] != '0' then Some(DigitValue(f[1]))
    else None
  }

  /** Where the four separators after the year stand: `-`, `T` (in either
      case: the pattern ignores case), `:` and `:`, each after a field of
      digits and spaces. */
  function Separators(s: string): (r: Option<(nat, nat, nat, nat)>)
    requires |s| >= 5
    ensures r.Some? ==> 5 <= r.value.0 < r.value.1 < r.value.2 < r.value.3 < |s|
  {
    var j1 := FieldEnd(s, 5);
    if j1 == |s| || s[j1] != '-' then None
    else
      var j2 := FieldEnd(s, j1 + 1);
      if j2 == |s| || (s[j2] != 'T' && s[j2] != 't') then None
      else
        var j3 := FieldEnd(s, j2 + 1);
        if j3 == |s| || s[j3] != ':' then None
        else
          var j4 := FieldEnd(s, j3 + 1);
          if j4 == |s| || s[j4] != ':' then None
          else Some((j1, j2, j3, j4))
  }

  /** `datetime.strptime(s, '%Y-%m-%dT%H:%M:%S')`: exactly four digits of
      year, then month, day, hour, minute and second fields as FieldValue
      reads them between the separators, with nothing left over; a field
      out of range, or a date the calendar lacks, is a ValueError (None
      here). */
  function Strptime(s: string): (r: Option<DateTime>)
    ensures r.Some? ==> Valid(r.value)
  {
    if |s| < 5 || !DigitsAt(s, 0, 4) || s[4] != '-' then None
    else
      match Separators(s)
      case None => None
      case Some((j1, j2, j3, j4)) =>
        var month := FieldValue(s[5..j1], 1, 12, false);
        var day := FieldValue(s[j1 + 1..j2], 1, 31, true);
        var hour := FieldValue(s[j2 + 1..j3], 0, 23, false);
        var minute := FieldValue(s[j3 + 1..j4], 0, 59, false);
        var second := FieldValue(s[j4 + 1..], 0, 61, false);
        if month.None? || day.None? || hour.None? || minute.None? || second.None? then None
        else
          var t := DateTime(FieldAt(s, 0, 4), month.value, day.value, hour.value, minute.value, second.value);
          if Valid(t) then Some(t) else None
  }

  /** The text in the form strftime writes: every field zero-padded to its
      width and an upper-case `T`. */
  predicate Canonical(s: string) {
    |s| == 19 && DigitsAt(s, 0, 4) && s[4] == '-' && DigitsAt(s, 5, 2) && s[7] == '-'
    && DigitsAt(s, 8, 2) && s[10] == 'T' && DigitsAt(s, 11, 2) && s[13] == ':'
    && DigitsAt(s, 14, 2) && s[16] == ':' && DigitsAt(s, 17, 2)
  }

  /** A field of two digits followed by a separator ends at the separator. */
  lemma FieldEndTwo(s: string, i: nat)
    requires i + 2 < |s| && DigitsAt(s, i, 2) && !IsDigit(s[i + 2]) && s[i + 2] != ' '
    ensures FieldEnd(s, i) == i + 2
  {
    assert FieldEnd(s, i + 2) == i + 2;
  }

  /** Two digits in range read as their number. */
  lemma FieldValueTwo(f: string, lo: nat, hi: nat, spaced: bool)
    requires lo <= 1 && |f| == 2 && IsDigit(f[0]) && IsDigit(f[1])
    ensures FieldValue(f, lo, hi, spaced) == if lo <= DigitsValue(f) <= hi then Some(DigitsValue(f)) else None
  {
  }

  /** On a text in strftime's form, strptime reads the six zero-padded
      fields and keeps them when they make a valid time. */
  lemma StrptimeCanonical(s: string)
    requires Canonical(s)
    ensures var t := DateTime(FieldAt(s, 0, 4), FieldAt(s, 5, 2), FieldAt(s, 8, 2),
                              FieldAt(s, 11, 2), FieldAt(s, 14, 2), FieldAt(s, 17, 2));
            Strptime(s) == if Valid(t) then Some(t) else None
  {
    FieldEndTwo(s, 5);
    FieldEndTwo(s, 8);
    FieldEndTwo(s, 11);
    FieldEndTwo(s, 14);
    assert Separators(s) == Some((7, 10, 13, 16));
    assert s[17..] == s[17..19];
    FieldValueTwo(s[5..7], 1, 12, false);
    FieldValueTwo(s[8..10], 1, 31, true);
    FieldValueTwo(s[11..13], 0, 23, false);
    FieldValueTwo(s[14..16], 0, 59, false);
    FieldValueTwo(s[17..19], 0, 61, false);
  }

  /** A field of one digit followed by a separator ends at the separator. */
  lemma FieldEndOne(s: string, i: nat)
    requires i + 1 < |s| && IsDigit(s[i]) && !IsDigit(s[i + 1]) && s[i + 1] != ' '
    ensures FieldEnd(s, i) == i + 1
  {
    assert FieldEnd(s, i + 1) == i + 1;
  }

  /** strptime also takes fields of one digit, which strftime never
      writes: `2013-1-5T1:2:3` reads as 2013-01-05T01:02:03. */
  lemma StrptimeOneDigitFields(y: string, mo: char, d: char, h: char, mi: char, se: char)
    requires |y| == 4 && DigitsAt(y, 0, 4) && DigitsValue(y) >= 1
    requires '1' <= mo <= '9' && '1' <= d <= '9' && IsDigit(h) && IsDigit(mi) && IsDigit(se)
    ensures Strptime(y + "-" + [mo] + "-" + [d] + "T" + [h] + ":" + [mi] + ":" + [se])
            == Some(DateTime(DigitsValue(y), DigitValue(mo), DigitValue(d), DigitValue(h), DigitValue(mi), DigitValue(se)))
  {
    var s := y + "-" + [mo] + "-" + [d] + "T" + [h] + ":" + [mi] + ":" + [se];
    assert |s| == 14 && s[..4] == y && s[4] == '-' && s[5] == mo && s[6] == '-' && s[7] == d && s[8] == 'T'
           && s[9] == h && s[10] == ':' && s[11] == mi && s[12] == ':' && s[13] == se;
    assert s[0..4] == y;
    StrptimeOneDigitText(s);
  }

  /** The same on the text itself, read position by position. */
  lemma StrptimeOneDigitText(s: string)
    requires |s| == 14 && DigitsAt(s, 0, 4) && FieldAt(s, 0, 4) >= 1 && s[4] == '-'
    requires '1' <= s[5] <= '9' && s[6] == '-' && '1' <= s[7] <= '9' && s[8] == 'T'
    requires IsDigit(s[9]) && s[10] == ':' && IsDigit(s[11]) && s[12] == ':' && IsDigit(s[13])
    ensures Strptime(s) == Some(DateTime(FieldAt(s, 0, 4), DigitValue(s[5]), DigitValue(s[7]),
                                         DigitValue(s[9]), DigitValue(s[11]), DigitValue(s[13])))
  {
    FieldEndOne(s, 5);
    FieldEndOne(s, 7);
    FieldEndOne(s, 9);
    FieldEndOne(s, 11);
    assert Separators(s) == Some((6, 8, 10, 12));
    assert s[5..6] == [s[5]] && s[7..8] == [s[7]] && s[9..10] == [s[9]] && s[11..12] == [s[11]] && s[13..] == [s[13]];
    DigitsBound(s[0..4]);
  }

  /** A time written out by strftime parses back to itself. */
  lemma StrptimeStrftime(t: DateTime)
    requires Valid(t) && t.year >= 1900
    ensures Strptime(Strftime(t).value) == Some(t)
  {
    var s := Strftime(t).value;
    assert s[0..4] == PadDigits(t.year, 4);
    assert s[5..7] == PadDigits(t.month, 2);
    assert s[8..10] == PadDigits(t.day, 2);
    assert s[11..13] == PadDigits(t.hour, 2);
    assert s[14..16] == PadDigits(t.minute, 2);
    assert s[17..19] == PadDigits(t.second, 2);
    PadDigitsValue(t.year, 4);
    PadDigitsValue(t.month, 2);
    PadDigitsValue(t.day, 2);
    PadDigitsValue(t.hour, 2);
    PadDigitsValue(t.minute, 2);
    PadDigitsValue(t.second, 2);
    StrptimeCanonical(s);
  }

  /** `w` digits are determined by the number they write. */
  lemma {:induction false} DigitsDetermined(s: string, w: nat)
    requires |s| == w && forall k :: 0 <= k < |s| ==> IsDigit(s[k])
    requires DigitsValue(s) < Pow10(w)
    ensures PadDigits(DigitsValue(s), w) == s
  {
    if w > 0 {
      var p := s[..|s| - 1];
      assert DigitsValue(p) < Pow10(w - 1);
      DigitsDetermined(p, w - 1);
      assert s == p + [s[|s| - 1]];
    }
  }

  lemma {:induction false} DigitsBound(s: string)
    requires forall k :: 0 <= k < |s| ==> IsDigit(s[k])
    ensures DigitsValue(s) < Pow10(|s|)
  {
    if |s| > 0 {
      DigitsBound(s[..|s| - 1]);
    }
  }

  /** A field read from digits is written back as the same digits. */
  lemma FieldRoundTrip(s: string, i: nat, w: nat)
    requires i + w <= |s| && DigitsAt(s, i, w)
    ensures FieldAt(s, i, w) < Pow10(w) && PadDigits(FieldAt(s, i, w), w) == s[i..i + w]
  {
    DigitsBound(s[i..i + w]);
    DigitsDetermined(s[i..i + w], w);
  }

  /** A text in strftime's form that parses, from 1900 on, is exactly what
      strftime writes for the time read. */
  lemma StrftimeStrptime(s: string)
    requires Canonical(s) && Strptime(s).Some? && Strptime(s).value.year >= 1900
    ensures Strftime(Strptime(s).value) == Ok(s)
  {
    var t := Strptime(s).value;
    StrptimeCanonical(s);
    assert t == DateTime(FieldAt(s, 0, 4), FieldAt(s, 5, 2), FieldAt(s, 8, 2),
                         FieldAt(s, 11, 2), FieldAt(s, 14, 2), FieldAt(s, 17, 2));
    StrftimeWritten(t);
    CanonicalWritten(s);
  }

  /** A text in strftime's form is its six fields written back padded. */
  lemma CanonicalWritten(s: string)
    requires Canonical(s)
    ensures FieldAt(s, 0, 4) < Pow10(4) && FieldAt(s, 5, 2) < Pow10(2) && FieldAt(s, 8, 2) < Pow10(2)
            && FieldAt(s, 11, 2) < Pow10(2) && FieldAt(s, 14, 2) < Pow10(2) && FieldAt(s, 17, 2) < Pow10(2)
    ensures Written(PadDigits(FieldAt(s, 0, 4), 4), PadDigits(FieldAt(s, 5, 2), 2), PadDigits(FieldAt(s, 8, 2), 2),
                    PadDigits(FieldAt(s, 11, 2), 2), PadDigits(FieldAt(s, 14, 2), 2), PadDigits(FieldAt(s, 17, 2), 2)) == s
  {
    FieldRoundTrip(s, 0, 4);
    FieldRoundTrip(s, 5, 2);
    FieldRoundTrip(s, 8, 2);
    FieldRoundTrip(s, 11, 2);
    FieldRoundTrip(s, 14, 2);
    FieldRoundTrip(s, 17, 2);
    WrittenOfParts(s);
  }

  /** strftime writes the padded fields in the format. */
  lemma StrftimeWritten(t: DateTime)
    requires Valid(t) && t.year >= 1900
    ensures Strftime(t) == Ok(Written(PadDigits(t.year, 4), PadDigits(t.month, 2), PadDigits(t.day, 2),
                                    PadDigits(t.hour, 2), PadDigits(t.minute, 2), PadDigits(t.second, 2)))
  {
  }

  /** The text strftime writes, from its six fields. */
  function Written(year: string, month: string, day: string, hour: string, minute: string, second: string): string {
    year + "-" + month + "-" + day + "T" + hour + ":" + minute + ":" + second
  }

  /** A text with the separators of the format is its fields in the format. */
  lemma WrittenOfParts(s: string)
    requires |s| == 19 && s[4] == '-' && s[7] == '-' && s[10] == 'T' && s[13] == ':' && s[16] == ':'
    ensures Written(s[0..4], s[5..7], s[8..10], s[11..13], s[14..16], s[17..19]) == s
  {
    Grow(s, 0, 4, s[0..4]);
    Grow(s, 4, 5, "-");
    Grow(s, 5, 7, s[5..7]);
    Grow(s, 7, 8, "-");
    Grow(s, 8, 10, s[8..10]);
    Grow(s, 10, 11, "T");
    Grow(s, 11, 13, s[11..13]);
    Grow(s, 13, 14, ":");
    Grow(s, 14, 16, s[14..16]);
    Grow(s, 16, 17, ":");
    Grow(s, 17, 19, s[17..19]);
    assert s[..19] == s;
  }

  /** A prefix followed by the next piece is the longer prefix. */
  lemma Grow(s: string, i: nat, j: nat, piece: string)
    requires i <= j <= |s| && s[i..j] == piece
    ensures s[..i] + piece == s[..j]
  {
  }

  /** The time one minute later; None past the last minute of year 9999. */
  function NextMinute(t: DateTime): (r: Option<DateTime>)
    requires Valid(t)
    ensures r.Some? ==> Valid(r.value) && r.value.second == t.second
  {
    if t.minute < 59 then Some(t.(minute := t.minute + 1))
    else if t.hour < 23 then Some(t.(hour := t.hour + 1, minute := 0))
    else if t.day < DaysInMonth(t.year, t.month) then Some(t.(day := t.day + 1, hour := 0, minute := 0))
    else if t.month < 12 then Some(t.(month := t.month + 1, day := 1, hour := 0, minute := 0))
    else if t.year < 9999 then Some(DateTime(t.year + 1, 1, 1, 0, 0, t.second))
    else None
  }

  /** The time one minute earlier; None before the first minute of year 1. */
  function PrevMinute(t: DateTime): (r: Option<DateTime>)
    requires Valid(t)
    ensures r.Some? ==> Valid(r.value) && r.value.second == t.second
  {
    if t.minute > 0 then Some(t.(minute := t.minute - 1))
    else if t.hour > 0 then Some(t.(hour := t.hour - 1, minute := 59))
    else if t.day > 1 then Some(t.(day := t.day - 1, hour := 23, minute := 59))
    else if t.month > 1 then
      Some(t.(month := t.month - 1, day := DaysInMonth(t.year, t.month - 1), hour := 23, minute := 59))
    else if t.year > 1 then Some(DateTime(t.year - 1, 12, 31, 23, 59, t.second))
    else None
  }

  /** Stepping forward and back again returns to the same time. */
  lemma NextPrevMinute(t: DateTime)
    requires Valid(t) && NextMinute(t).Some?
    ensures PrevMinute(NextMinute(t).value) == Some(t)
  {
  }

  /** `t + timedelta(minutes=n)`; None stands for the OverflowError raised
      when the result leaves the years 1 to 9999. */
  function AddMinutes(t: DateTime, n: int): (r: Option<DateTime>)
    requires Valid(t)
    ensures r.Some? ==> Valid(r.value) && r.value.second == t.second
    ensures n == 0 ==> r == Some(t)
    decreases if n < 0 then -n else n
  {
    if n == 0 then Some(t)
    else if n > 0 then
      match NextMinute(t)
      case None => None
      case Some(u) => AddMinutes(u, n - 1)
    else
      match PrevMinute(t)
      case None => None
      case Some(u) => AddMinutes(u, n + 1)
  }
}
