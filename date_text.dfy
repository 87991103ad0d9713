/**
 * Reading a date out of a log file name, as `parse_date_from_filename` does:
 * `re.search` finds the leftmost piece of the name that has the folder's date
 * shape (`\d{8}` or `\d{4}_\d{2}_\d{2}`), and `datetime.strptime` reads that
 * piece with `%Y%m%d` or `%Y_%m_%d`; either step failing gives `None`.
 */
module DateText {
  import opened Wrappers
  import opened Calendar

  /** The two date layouts of the log folders: `YYYYMMDD` and `YYYY_MM_DD`. */
  datatype DateFormat = Compact | Underscored

  function Width(fmt: DateFormat): nat
  {
    if fmt == Compact then 8 else 10
  }

  function MonthAt(fmt: DateFormat): nat
  {
    if fmt == Compact then 4 else 5
  }

  function DayAt(fmt: DateFormat): nat
  {
    if fmt == Compact then 6 else 8
  }

  /** `\d` on ASCII text. */
  predicate IsDigit(c: char)
  {
    '0' <= c <= '9'
  }

  predicate AllDigits(s: string)
  {
    forall i :: 0 <= i < |s| ==> IsDigit(s[i])
  }

  predicate IsSeparatorAt(fmt: DateFormat, k: int)
  {
    fmt == Underscored && (k == 4 || k == 7)
  }

  /** `t` is, as a whole, a match of the format's regular expression. */
  predicate Shaped(fmt: DateFormat, t: string)
  {
    |t| == Width(fmt)
    && forall k :: 0 <= k < |t| ==> if IsSeparatorAt(fmt, k) then t[k] == '_' else IsDigit(t[k])
  }

  /** The regular expression matches `s` at position `i`. */
  predicate ShapedAt(fmt: DateFormat, s: string, i: int)
  {
    0 <= i && i + Width(fmt) <= |s| && Shaped(fmt, s[i..i + Width(fmt)])
  }

  /** `re.search` from position `from`: the leftmost position, if any, where the expression matches. */
  function SearchFrom(fmt: DateFormat, s: string, from: nat): (r: Option<nat>)
    ensures r.Some? ==> from <= r.value && ShapedAt(fmt, s, r.value)
    ensures r.Some? ==> forall j :: from <= j < r.value ==> !ShapedAt(fmt, s, j)
    ensures r.None? ==> forall j :: from <= j ==> !ShapedAt(fmt, s, j)
    decreases |s| - from
  {
    if from + Width(fmt) > |s| then None
    else if ShapedAt(fmt, s, from) then Some(from)
    else SearchFrom(fmt, s, from + 1)
  }

  /** The matched text of `re.search(pattern, name)`, or `None` when nothing matches. */
  function Extract(fmt: DateFormat, name: string): (r: Option<string>)
    ensures r.Some? ==> Shaped(fmt, r.value)
  {
    match SearchFrom(fmt, name, 0)
    case None => None
    case Some(i) => Some(name[i..i + Width(fmt)])
  }

  function DigitValue(c: char): int
  {
    c as int - '0' as int
  }

  function DigitChar(v: int): char
    requires 0 <= v < 10
  {
    ('0' as int + v) as char
  }

  function Pow10(n: nat): (r: nat)
    ensures r >= 1
  {
    if n == 0 then 1 else 10 * Pow10(n - 1)
  }

  /** The number a run of decimal digits spells, as `int` reads it. */
  function Num(s: string): (r: int)
    requires AllDigits(s)
    ensures 0 <= r < Pow10(|s|)
  {
    if s == [] then 0 else 10 * Num(s[..|s| - 1]) + DigitValue(s[|s| - 1])
  }

  /** `n` written with exactly `w` decimal digits, zero-padded on the left. */
  function Pad(n: int, w: nat): (r: string)
    requires 0 <= n
    ensures |r| == w && AllDigits(r)
  {
    if w == 0 then [] else Pad(n / 10, w - 1) + [DigitChar(n % 10)]
  }

  /** Padding then reading gives the number back when it fits the width. */
  lemma {:induction false} NumPad(n: int, w: nat)
    requires 0 <= n < Pow10(w)
    ensures Num(Pad(n, w)) == n
  {
    if w > 0 {
      NumPad(n / 10, w - 1);
      var p := Pad(n, w);
      assert p[..|p| - 1] == Pad(n / 10, w - 1);
    }
  }

  /** Reading then padding gives the digits back. */
  lemma {:induction false} PadNum(s: string)
    requires AllDigits(s)
    ensures Pad(Num(s), |s|) == s
  {
    if s != [] {
      var init := s[..|s| - 1];
      PadNum(init);
      assert Num(s) / 10 == Num(init);
      assert Num(s) % 10 == DigitValue(s[|s| - 1]);
      assert s == init + [s[|s| - 1]];
    }
  }

  function Separator(fmt: DateFormat): string
  {
    if fmt == Compact then "" else "_"
  }

  /** The date written as `YYYYMMDD` or `YYYY_MM_DD`, each field zero-padded. */
  function Format(fmt: DateFormat, d: CalendarDate): (t: string)
    ensures Shaped(fmt, t)
  {
    Pad(d.year, 4) + Separator(fmt) + Pad(d.month, 2) + Separator(fmt) + Pad(d.day, 2)
  }

  /** The year, month and day fields of a matched piece of text. */
  function Fields(fmt: DateFormat, t: string): Date
    requires Shaped(fmt, t)
  {
    assert AllDigits(t[..4]);
    assert AllDigits(t[MonthAt(fmt)..MonthAt(fmt) + 2]);
    assert AllDigits(t[DayAt(fmt)..DayAt(fmt) + 2]);
    Date(Num(t[..4]), Num(t[MonthAt(fmt)..MonthAt(fmt) + 2]), Num(t[DayAt(fmt)..DayAt(fmt) + 2]))
  }

  /**
   * `datetime.strptime(t, fmt)` on a piece of text that matched the format's
   * regular expression: the result is the date the fields spell, or `None`
   * (the `ValueError` path) when they do not spell a date.
   */
  function Parse(fmt: DateFormat, t: string): (r: Option<CalendarDate>)
    requires Shaped(fmt, t)
    ensures r.Some? ==> Format(fmt, r.value) == t
  {
    var d := Fields(fmt, t);
    FormatOfFields(fmt, t);
    if IsValid(d) then Some(d) else None
  }

  lemma FieldsOfFormat(fmt: DateFormat, d: CalendarDate)
    ensures Fields(fmt, Format(fmt, d)) == d
  {
    var t := Format(fmt, d);
    var sep := Separator(fmt);
    assert t[..4] == Pad(d.year, 4);
    assert t[MonthAt(fmt)..MonthAt(fmt) + 2] == Pad(d.month, 2);
    assert t[DayAt(fmt)..DayAt(fmt) + 2] == Pad(d.day, 2);
    NumPad(d.year, 4);
    NumPad(d.month, 2);
    NumPad(d.day, 2);
  }

  /** A matched piece of text is its year, separator, month, separator and day. */
  lemma SplitShaped(fmt: DateFormat, t: string)
    requires Shaped(fmt, t)
    ensures t == t[..4] + Separator(fmt) + t[MonthAt(fmt)..MonthAt(fmt) + 2] + Separator(fmt) + t[DayAt(fmt)..DayAt(fmt) + 2]
  {
    if fmt == Compact {
      assert t == t[..4] + t[4..6] + t[6..8];
    } else {
      assert t == t[..4] + "_" + t[5..7] + "_" + t[8..10];
    }
  }

  lemma FormatOfFields(fmt: DateFormat, t: string)
    requires Shaped(fmt, t)
    ensures Fields(fmt, t).year >= 0 && Fields(fmt, t).month >= 0 && Fields(fmt, t).day >= 0
    ensures IsValid(Fields(fmt, t)) ==> Format(fmt, Fields(fmt, t)) == t
  {
    var y, m, d := t[..4], t[MonthAt(fmt)..MonthAt(fmt) + 2], t[DayAt(fmt)..DayAt(fmt) + 2];
    assert AllDigits(y) && AllDigits(m) && AllDigits(d);
    var f := Fields(fmt, t);
    assert f == Date(Num(y), Num(m), Num(d));
    if IsValid(f) {
      var sep := Separator(fmt);
      calc {
        Format(fmt, f);
        Pad(Num(y), 4) + sep + Pad(Num(m), 2) + sep + Pad(Num(d), 2);
        { PadNum(y); PadNum(m); PadNum(d); }
        y + sep + m + sep + d;
        { SplitShaped(fmt, t); }
        t;
      }
    }
  }

  /** Round trip: a formatted date parses back to itself. */
  lemma ParseFormat(fmt: DateFormat, d: CalendarDate)
    ensures Parse(fmt, Format(fmt, d)) == Some(d)
  {
    FieldsOfFormat(fmt, d);
  }

  /**
   * A matched piece of text parses to `d` exactly when it is `d` written in
   * the format; it parses to nothing exactly when no valid date is written so.
   */
  lemma ParseIffFormat(fmt: DateFormat, t: string, d: CalendarDate)
    requires Shaped(fmt, t)
    ensures Parse(fmt, t) == Some(d) <==> Format(fmt, d) == t
    ensures Parse(fmt, t) == None ==> Format(fmt, d) != t
  {
    FormatOfFields(fmt, t);
    if Format(fmt, d) == t {
      ParseFormat(fmt, d);
    }
  }

  /** `parse_date_from_filename` for one of the two log folder layouts. */
  function ParseDateFromFilename(fmt: DateFormat, name: string): (r: Option<CalendarDate>)
    ensures Extract(fmt, name).None? ==> r.None?
    ensures r.Some? ==> Extract(fmt, name) == Some(Format(fmt, r.value))
  {
    match Extract(fmt, name)
    case None => None
    case Some(t) => Parse(fmt, t)
  }

  /**
   * A name in which the date shape never occurs has no date; otherwise the
   * date read is exactly what `strptime` makes of the text at the leftmost
   * place the shape occurs, and a date read is written there in the folder's layout.
   */
  lemma ParseDateFromFilenameSource(fmt: DateFormat, name: string)
    ensures (forall j :: !ShapedAt(fmt, name, j)) ==> ParseDateFromFilename(fmt, name) == None
    ensures ParseDateFromFilename(fmt, name).Some? ==>
              exists i :: ShapedAt(fmt, name, i) && (forall j :: 0 <= j < i ==> !ShapedAt(fmt, name, j))
                          && name[i..i + Width(fmt)] == Format(fmt, ParseDateFromFilename(fmt, name).value)
    ensures forall i :: ShapedAt(fmt, name, i) && (forall j :: 0 <= j < i ==> !ShapedAt(fmt, name, j))
                        ==> ParseDateFromFilename(fmt, name) == Parse(fmt, name[i..i + Width(fmt)])
  {
    var r := ParseDateFromFilename(fmt, name);
    if r.Some? {
      var i := SearchFrom(fmt, name, 0).value;
      ParseIffFormat(fmt, name[i..i + Width(fmt)], r.value);
    }
    forall i | ShapedAt(fmt, name, i) && (forall j :: 0 <= j < i ==> !ShapedAt(fmt, name, j))
      ensures ParseDateFromFilename(fmt, name) == Parse(fmt, name[i..i + Width(fmt)])
    {
      var found := SearchFrom(fmt, name, 0);
      assert found.Some? && found.value == i;
    }
  }

  /**
   * A date written in a name is found when nothing before it contains a digit,
   * whatever follows it.
   */
  lemma FilenameRoundTrip(fmt: DateFormat, prefix: string, d: CalendarDate, suffix: string)
    requires forall i :: 0 <= i < |prefix| ==> !IsDigit(prefix[i])
    ensures ParseDateFromFilename(fmt, prefix + Format(fmt, d) + suffix) == Some(d)
  {
    var name := prefix + Format(fmt, d) + suffix;
    var w := Width(fmt);
    assert name[|prefix|..|prefix| + w] == Format(fmt, d);
    assert ShapedAt(fmt, name, |prefix|);
    forall j | 0 <= j < |prefix|
      ensures !ShapedAt(fmt, name, j)
    {
      if j + w <= |name| {
        assert name[j..j + w][0] == prefix[j];
      }
    }
    assert SearchFrom(fmt, name, 0) == Some(|prefix|);
    ParseFormat(fmt, d);
  }

  /**
   * Only the leftmost match is read: an eight-digit run that is not a date
   * hides a real date later in the same name.
   */
  lemma LeftmostMatchOnly()
    ensures ParseDateFromFilename(Compact, "x99999999_20240101.log") == None
  {
    var name := "x99999999_20240101.log";
    var t := "99999999";
    assert name == "x" + t + "_20240101.log";
    assert name[1..9] == t;
    assert !ShapedAt(Compact, name, 0) by {
      assert name[0..8][0] == 'x';
    }
    assert ShapedAt(Compact, name, 1);
    assert SearchFrom(Compact, name, 1) == Some(1);
    assert SearchFrom(Compact, name, 0) == Some(1);
    assert Extract(Compact, name) == Some(t);
    assert Parse(Compact, t) == None by {
      ParseCompactChars('9', '9', '9', '9', '9', '9', '9', '9');
    }
  }

  lemma NumTwo(s: string)
    requires |s| == 2 && AllDigits(s)
    ensures Num(s) == 10 * DigitValue(s[0]) + DigitValue(s[1])
  {
    assert s[..1][..0] == [];
  }

  lemma NumFour(s: string)
    requires |s| == 4 && AllDigits(s)
    ensures Num(s) == 1000 * DigitValue(s[0]) + 100 * DigitValue(s[1]) + 10 * DigitValue(s[2]) + DigitValue(s[3])
  {
    assert s[..3][..2] == s[..2];
    NumTwo(s[..2]);
  }

  /** The fields of an eight-digit text, read digit by digit. */
  lemma CompactFields(t: string)
    requires Shaped(Compact, t)
    ensures Fields(Compact, t)
            == Date(1000 * DigitValue(t[0]) + 100 * DigitValue(t[1]) + 10 * DigitValue(t[2]) + DigitValue(t[3]),
                    10 * DigitValue(t[4]) + DigitValue(t[5]),
                    10 * DigitValue(t[6]) + DigitValue(t[7]))
  {
    NumFour(t[..4]);
    NumTwo(t[4..6]);
    NumTwo(t[6..8]);
  }

  /** `strptime` with `%Y%m%d` on the eight digits `c0` ... `c7`. */
  lemma ParseCompactChars(c0: char, c1: char, c2: char, c3: char, c4: char, c5: char, c6: char, c7: char)
    requires IsDigit(c0) && IsDigit(c1) && IsDigit(c2) && IsDigit(c3)
    requires IsDigit(c4) && IsDigit(c5) && IsDigit(c6) && IsDigit(c7)
    ensures var date := Date(1000 * DigitValue(c0) + 100 * DigitValue(c1) + 10 * DigitValue(c2) + DigitValue(c3),
                             10 * DigitValue(c4) + DigitValue(c5),
                             10 * DigitValue(c6) + DigitValue(c7));
            Parse(Compact, [c0, c1, c2, c3, c4, c5, c6, c7]) == if IsValid(date) then Some(date) else None
  {
    var t := [c0, c1, c2, c3, c4, c5, c6, c7];
    assert Shaped(Compact, t);
    CompactFields(t);
  }

  /** `strptime` rejects month 13. */
  lemma RejectsMonth13()
    ensures Parse(Compact, "20241301") == None
  {
    ParseCompactChars('2', '0', '2', '4', '1', '3', '0', '1');
  }

  /** `strptime` rejects day 00. */
  lemma RejectsDay00()
    ensures Parse(Compact, "20240100") == None
  {
    ParseCompactChars('2', '0', '2', '4', '0', '1', '0', '0');
  }

  /** `strptime` rejects 30 February. */
  lemma RejectsFebruary30()
    ensures Parse(Compact, "20240230") == None
  {
    ParseCompactChars('2', '0', '2', '4', '0', '2', '3', '0');
  }

  /** `strptime` rejects year 0000. */
  lemma RejectsYear0000()
    ensures Parse(Compact, "00000101") == None
  {
    ParseCompactChars('0', '0', '0', '0', '0', '1', '0', '1');
  }

  /** 1900 is not a leap year: 29 February 1900 does not parse. */
  lemma NoLeapDay1900()
    ensures Parse(Compact, "19000229") == None
  {
    ParseCompactChars('1', '9', '0', '0', '0', '2', '2', '9');
  }

  /** 2024 is a leap year: 29 February 2024 parses. */
  lemma LeapDay2024()
    ensures Parse(Compact, "20240229") == Some(Date(2024, 2, 29))
  {
    ParseCompactChars('2', '0', '2', '4', '0', '2', '2', '9');
  }
}
