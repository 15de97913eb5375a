/**
 * backend/utils.py: item-type validation and the display form of a timestamp.
 *
 * `format_datetime` hands its text to `datetime.fromisoformat`; the parser below is the
 * grammar of CPython 3.7-3.10's C implementation of that method (a fixed `YYYY-MM-DD`,
 * any one separator character, then `HH[:MM[:SS[.fff|.ffffff]]]` and an optional
 * `+HH:MM[:SS[.ffffff]]` offset), followed by the range checks of the `datetime`
 * constructor.  `strftime("%Y-%m-%d %H:%M")` prints the year without padding, as the
 * C library on Linux does.
 */
module Utils {
  import opened PyText
  import opened JsonValue

  // ---------------------------------------------------------------- item types

  /** `validate_item_type(item_type)` */
  function ValidateItemType(itemType: string): (ok: bool)
    ensures ok <==> itemType == "task" || itemType == "note" || itemType == "reminder"
  {
    itemType in ["task", "note", "reminder"]
  }

  // ---------------------------------------------------------------- digits

  predicate IsDigit(c: char) {
    '0' <= c <= '9'
  }

  predicate AllDigits(s: string) {
    forall i :: 0 <= i < |s| ==> IsDigit(s[i])
  }

  /** The number a run of decimal digits denotes. */
  function DigitsValue(s: string): nat
    requires AllDigits(s)
    decreases |s|
  {
    if s == [] then 0 else DigitsValue(s[..|s| - 1]) * 10 + (s[|s| - 1] as int - '0' as int)
  }

  /** `%02d` */
  function Pad2(n: nat): (r: string)
    requires n < 100
    ensures |r| == 2 && AllDigits(r)
  {
    [DigitChar(n / 10), DigitChar(n % 10)]
  }

  lemma DigitCharValue(d: nat)
    requires d < 10
    ensures DigitChar(d) as int - '0' as int == d
  {
  }

  lemma {:induction false} DigitsValueBound(s: string)
    requires AllDigits(s)
    ensures s != [] && s[0] != '0' ==> DigitsValue(s) >= 1
    decreases |s|
  {
    if |s| > 1 {
      DigitsValueBound(s[..|s| - 1]);
    }
  }

  /** Printing a number and reading it back gives the number. */
  lemma {:induction false} NatTextValue(n: nat)
    ensures AllDigits(NatText(n)) && DigitsValue(NatText(n)) == n
    decreases n
  {
    var t := NatText(n);
    if n < 10 {
      DigitCharValue(n);
    } else {
      NatTextValue(n / 10);
      DigitCharValue(n % 10);
      assert t[..|t| - 1] == NatText(n / 10);
    }
  }

  /** Reading digits without a leading zero and printing the number gives the digits back. */
  lemma {:induction false} ValueNatText(s: string)
    requires AllDigits(s) && s != [] && s[0] != '0'
    ensures NatText(DigitsValue(s)) == s
    decreases |s|
  {
    if |s| == 1 {
      CharOfDigit(s[0]);
    } else {
      var p, c := s[..|s| - 1], s[|s| - 1];
      DigitsPrefix(s);
      ValueNatText(p);
      assert s == p + [c];
      ValueNatTextSnoc(p, c);
    }
  }

  /** Dropping the last digit of a run without a leading zero keeps one. */
  lemma DigitsPrefix(s: string)
    requires AllDigits(s) && |s| > 1 && s[0] != '0'
    ensures AllDigits(s[..|s| - 1]) && s[..|s| - 1] != [] && s[..|s| - 1][0] != '0' && IsDigit(s[|s| - 1])
  {
    var p := s[..|s| - 1];
    forall i | 0 <= i < |p| ensures IsDigit(p[i]) {
      assert p[i] == s[i];
    }
  }

  lemma ValueNatTextSnoc(p: string, c: char)
    requires AllDigits(p) && p != [] && p[0] != '0' && IsDigit(c) && NatText(DigitsValue(p)) == p
    ensures AllDigits(p + [c]) && NatText(DigitsValue(p + [c])) == p + [c]
  {
    DigitsValueSnoc(p, c);
    DigitsValueBound(p);
    CharOfDigit(c);
    NatTextSnoc(DigitsValue(p), c as int - '0' as int);
  }

  lemma DigitsValueSnoc(p: string, c: char)
    requires AllDigits(p) && IsDigit(c)
    ensures AllDigits(p + [c]) && DigitsValue(p + [c]) == DigitsValue(p) * 10 + (c as int - '0' as int)
  {
    assert (p + [c])[..|p|] == p;
  }

  /** Printing ten times a number plus a digit prints the number and then the digit. */
  lemma NatTextSnoc(a: nat, d: nat)
    requires a >= 1 && d < 10
    ensures NatText(a * 10 + d) == NatText(a) + [DigitChar(d)]
  {
    LastDigit(a, d);
  }

  lemma CharOfDigit(c: char)
    requires IsDigit(c)
    ensures DigitChar(c as int - '0' as int) == c
  {
  }

  lemma LastDigit(a: nat, d: nat)
    requires d < 10
    ensures (a * 10 + d) / 10 == a && (a * 10 + d) % 10 == d
  {
  }

  lemma Pad2Value(n: nat)
    requires n < 100
    ensures DigitsValue(Pad2(n)) == n
  {
    var t := Pad2(n);
    DigitCharValue(n / 10);
    DigitCharValue(n % 10);
    assert t[..1] == [DigitChar(n / 10)];
    assert t[..1][..0] == [];
    assert DigitsValue(t[..1]) == n / 10;
    assert DigitsValue(t) == n / 10 * 10 + n % 10;
  }

  lemma ValuePad2(s: string)
    requires |s| == 2 && AllDigits(s)
    ensures DigitsValue(s) < 100 && Pad2(DigitsValue(s)) == s
  {
    assert s[..1][..0] == [];
    var hi := s[0] as int - '0' as int;
    var lo := s[1] as int - '0' as int;
    assert DigitsValue(s[..1]) == hi;
    var v := DigitsValue(s);
    assert v == hi * 10 + lo;
    assert v / 10 == hi && v % 10 == lo;
    DigitCharValue(hi);
    DigitCharValue(lo);
    assert DigitChar(hi) == s[0] && DigitChar(lo) == s[1];
  }

  lemma NatTextShort(n: nat)
    requires n < 1000
    ensures |NatText(n)| <= 3
  {
    if n >= 10 {
      var a := n / 10;
      assert NatText(n) == NatText(a) + [DigitChar(n % 10)];
      if a >= 10 {
        assert NatText(a) == NatText(a / 10) + [DigitChar(a % 10)];
      }
    }
  }

  // ---------------------------------------------------------------- calendar

  predicate IsLeap(year: int) {
    year % 4 == 0 && (year % 100 != 0 || year % 400 == 0)
  }

  function DaysIn(year: int, month: int): int {
    if month == 2 then (if IsLeap(year) then 29 else 28)
    else if month == 4 || month == 6 || month == 9 || month == 11 then 30
    else 31
  }

  /** A point in time as `datetime.fromisoformat` builds it; `offset` is the UTC offset in microseconds, if any. */
  datatype DateTime = DateTime(
    year: nat, month: nat, day: nat,
    hour: nat, minute: nat, second: nat, micro: nat,
    offset: Option<int>)

  /** The ranges the `datetime` constructor enforces (MINYEAR is 1). */
  predicate InRange(d: DateTime) {
    1 <= d.year <= 9999 && 1 <= d.month <= 12 && 1 <= d.day <= DaysIn(d.year, d.month)
    && d.hour <= 23 && d.minute <= 59 && d.second <= 59 && d.micro <= 999999
  }

  // ---------------------------------------------------------------- the parser

  /** The clock fields read from one segment, and whether the segment was followed by more text. */
  datatype ClockParse = ClockParse(hour: nat, minute: nat, second: nat, micro: nat, trailing: bool)

  function Field(vals: seq<nat>, i: nat): nat {
    if i < |vals| then vals[i] else 0
  }

  /**
   * `[.fff|.ffffff]` at `p` to the end of the segment.  The C parser then reports text
   * after the segment when the segment is followed by an offset.
   */
  function ClockFraction(t: string, followed: bool, p: nat, vals: seq<nat>): Option<ClockParse>
    requires p <= |t|
  {
    var n := |t| - p;
    if (n == 3 || n == 6) && AllDigits(t[p..]) then
      var micro := if n == 3 then DigitsValue(t[p..]) * 1000 else DigitsValue(t[p..]);
      Some(ClockParse(Field(vals, 0), Field(vals, 1), Field(vals, 2), micro, followed))
    else None
  }

  /**
   * `HH[:MM[:SS]]` from `p`, the `i`-th two-digit field.  The character after a field is
   * read even when it lies just past the segment: the offset sign when `followed`,
   * otherwise the terminating NUL.  The C parser walks the UTF-8 bytes of the string,
   * so a non-ASCII last character still has bytes after its lead byte, and that lead
   * byte is read as a malformed separator.
   */
  function ClockFields(t: string, followed: bool, p: nat, i: nat, vals: seq<nat>): Option<ClockParse>
    requires p <= |t| && i < 3 && |vals| == i
    decreases 3 - i
  {
    if p + 2 > |t| || !AllDigits(t[p..p + 2]) then None
    else
      var vals' := vals + [DigitsValue(t[p..p + 2])];
      var k := p + 2;
      if k + 1 >= |t| then
        if k < |t| && t[k] as int >= 128 then None
        else
        var more := if k < |t| then t[k] != '\0' else followed;
        Some(ClockParse(Field(vals', 0), Field(vals', 1), Field(vals', 2), 0, more))
      else if t[k] == ':' && i < 2 then ClockFields(t, followed, k + 1, i + 1, vals')
      else if t[k] == ':' || t[k] == '.' then ClockFraction(t, followed, k + 1, vals')
      else None
  }

  /** `parse_hh_mm_ss_ff` on a whole segment. */
  function ParseClock(t: string, followed: bool): Option<ClockParse> {
    ClockFields(t, followed, 0, 0, [])
  }

  /** The index of the first `+` or `-`, or the length when there is none. */
  function SignIndex(t: string): (k: nat)
    ensures k <= |t|
    ensures k < |t| ==> t[k] == '+' || t[k] == '-'
    ensures forall j :: 0 <= j < k ==> t[j] != '+' && t[j] != '-'
    decreases |t|
  {
    if t == [] || t[0] == '+' || t[0] == '-' then 0 else 1 + SignIndex(t[1..])
  }

  /** The time part after the separator: the clock fields and the offset in microseconds, if any. */
  datatype TimePart = TimePart(hour: nat, minute: nat, second: nat, micro: nat, offset: Option<int>)

  function ParseTime(t: string): Option<TimePart> {
    var z := SignIndex(t);
    match ParseClock(t[..z], z < |t|)
    case None => None
    case Some(c) =>
      if z == |t| then
        if c.trailing then None else Some(TimePart(c.hour, c.minute, c.second, c.micro, None))
      else
        var zlen := |t| - z;
        if zlen != 6 && zlen != 9 && zlen != 16 then None
        else
          match ParseClock(t[z + 1..], false)
          case None => None
          case Some(o) =>
            if o.trailing then None
            else
              var magnitude := ((o.hour * 3600 + o.minute * 60 + o.second) * 1000000 + o.micro);
              var sign := if t[z] == '-' then -1 else 1;
              Some(TimePart(c.hour, c.minute, c.second, c.micro, Some(sign * magnitude)))
  }

  /** A `YYYY-MM-DD` prefix. */
  predicate DatePrefix(s: string) {
    |s| >= 10 && AllDigits(s[..4]) && s[4] == '-' && AllDigits(s[5..7]) && s[7] == '-' && AllDigits(s[8..10])
  }

  /** `datetime.fromisoformat(s)`, or None where it raises. */
  function ParseIso(s: string): (r: Option<DateTime>)
    ensures r.Some? ==> DatePrefix(s) && InRange(r.value)
  {
    if !DatePrefix(s) then None
    else
      var year := DigitsValue(s[..4]);
      var month := DigitsValue(s[5..7]);
      var day := DigitsValue(s[8..10]);
      var time := if |s| == 10 then Some(TimePart(0, 0, 0, 0, None)) else ParseTime(s[11..]);
      match time
      case None => None
      case Some(tp) =>
        var d := DateTime(year, month, day, tp.hour, tp.minute, tp.second, tp.micro, tp.offset);
        var offsetOk := match tp.offset
          case None => true
          case Some(o) => -86400000000 < o < 86400000000;
        if InRange(d) && offsetOk then Some(d) else None
  }

  /** `dt.strftime("%Y-%m-%d %H:%M")` */
  function Display(d: DateTime): (r: string)
    requires InRange(d)
  {
    NatText(d.year) + "-" + Pad2(d.month) + "-" + Pad2(d.day) + " " + Pad2(d.hour) + ":" + Pad2(d.minute)
  }

  /** `format_datetime(dt_string)` */
  function FormatDatetime(dt: Option<string>): (r: Option<string>)
    ensures r.None? <==> dt.None? || dt == Some("")
    ensures dt.Some? && dt.value != "" && ParseIso(dt.value).None? ==> r == dt
  {
    match dt
    case None => None
    case Some(s) =>
      if s == "" then None
      else
        match ParseIso(s)
        case Some(d) => Some(Display(d))
        case None => dt
  }

  // ---------------------------------------------------------------- properties

  /** The hour text of a parseable timestamp: midnight for a bare date. */
  function HourText(s: string): string
    requires |s| >= 10
  {
    if |s| >= 13 then s[11..13] else "00"
  }

  /** The minute text of a parseable timestamp: zero unless two digits follow `HH:`. */
  function MinuteText(s: string): string
    requires |s| >= 10
  {
    if |s| >= 16 && s[13] == ':' && AllDigits(s[14..16]) then s[14..16] else "00"
  }

  lemma {:induction false} SignFree(t: string, k: nat)
    requires k <= |t| && forall j :: 0 <= j < k ==> t[j] != '+' && t[j] != '-'
    ensures SignIndex(t) >= k
    decreases k
  {
    if k > 0 {
      SignFree(t[1..], k - 1);
    }
  }

  /** The fields `ParseClock` reads from the front of a segment. */
  lemma ClockHourMinute(t: string, followed: bool)
    requires ParseClock(t, followed).Some?
    ensures |t| >= 2 && AllDigits(t[..2]) && ParseClock(t, followed).value.hour == DigitsValue(t[..2])
    ensures ParseClock(t, followed).value.minute ==
      if |t| >= 5 && t[2] == ':' && AllDigits(t[3..5]) then DigitsValue(t[3..5]) else 0
  {
    var c := ParseClock(t, followed).value;
    var v0 := DigitsValue(t[0..2]);
    assert t[..2] == t[0..2];
    if 3 < |t| && t[2] == ':' {
      var vals := [v0];
      if |t| >= 5 && AllDigits(t[3..5]) {
        var vals' := vals + [DigitsValue(t[3..5])];
        assert Field(vals', 1) == DigitsValue(t[3..5]);
      }
    }
  }

  /** The hour and minute of a parsed timestamp come from the clock segment before any offset. */
  lemma ParsedClock(s: string)
    requires ParseIso(s).Some? && |s| > 10
    ensures var t := s[11..]; var z := SignIndex(t);
      ParseClock(t[..z], z < |t|).Some?
      && ParseIso(s).value.hour == ParseClock(t[..z], z < |t|).value.hour
      && ParseIso(s).value.minute == ParseClock(t[..z], z < |t|).value.minute
  {
  }

  lemma ParsedHour(s: string)
    requires ParseIso(s).Some?
    ensures Pad2(ParseIso(s).value.hour) == HourText(s)
  {
    if |s| > 10 {
      ParsedClock(s);
      var t := s[11..];
      var z := SignIndex(t);
      ClockHourMinute(t[..z], z < |t|);
      assert t[..z][..2] == s[11..13];
      ValuePad2(s[11..13]);
    } else {
      assert Pad2(0) == "00";
    }
  }

  lemma ParsedMinute(s: string)
    requires ParseIso(s).Some?
    ensures Pad2(ParseIso(s).value.minute) == MinuteText(s)
  {
    if |s| > 10 {
      ParsedClock(s);
      var t := s[11..];
      var z := SignIndex(t);
      var u := t[..z];
      ClockHourMinute(u, z < |t|);
      if |s| >= 16 && s[13] == ':' && AllDigits(s[14..16]) {
        SliceOfSuffix(s, 11, 3, 5);
        assert t[2] == s[13];
        assert forall j :: 0 <= j < 5 ==> t[j] != '+' && t[j] != '-' by {
          assert forall j :: 0 <= j < 2 ==> t[..2][j] == t[j];
          assert forall j :: 3 <= j < 5 ==> t[3..5][j - 3] == t[j];
        }
        SignFree(t, 5);
        SliceOfPrefix(t, z, 3, 5);
        ValuePad2(s[14..16]);
      } else {
        if |u| >= 5 {
          SliceOfPrefix(t, z, 3, 5);
          SliceOfSuffix(s, 11, 3, 5);
          assert u[2] == s[13];
        }
        assert Pad2(0) == "00";
      }
    } else {
      assert Pad2(0) == "00";
    }
  }

  lemma SliceOfSuffix(s: string, k: nat, i: nat, j: nat)
    requires k <= |s| && i <= j <= |s| - k
    ensures s[k..][i..j] == s[k + i..k + j]
  {
  }

  lemma SliceOfPrefix(s: string, z: nat, i: nat, j: nat)
    requires i <= j <= z <= |s|
    ensures s[..z][i..j] == s[i..j]
  {
  }

  lemma ParsedDate(s: string)
    requires ParseIso(s).Some? && s[0] != '0'
    ensures var d := ParseIso(s).value; NatText(d.year) + "-" + Pad2(d.month) + "-" + Pad2(d.day) == s[..10]
  {
    ValueNatText(s[..4]);
    ValuePad2(s[5..7]);
    ValuePad2(s[8..10]);
    assert s[..4][0] == s[0];
    assert s[..10] == s[..4] + "-" + s[5..7] + "-" + s[8..10];
  }

  /**
   * For a year of four significant digits the display keeps the date text, the hour
   * and the minute of the input and drops everything after them.
   */
  lemma FormatKeepsDateHourMinute(s: string)
    requires ParseIso(s).Some? && s[0] != '0'
    ensures FormatDatetime(Some(s)) == Some(s[..10] + " " + HourText(s) + ":" + MinuteText(s))
  {
    ParsedDate(s);
    ParsedHour(s);
    ParsedMinute(s);
  }

  /** `Display` output that `fromisoformat` reads back, for a year of four digits. */
  lemma DisplayParses(d: DateTime)
    requires InRange(d) && d.year >= 1000
    ensures ParseIso(Display(d)) == Some(DateTime(d.year, d.month, d.day, d.hour, d.minute, 0, 0, None))
  {
    var s := Display(d);
    NatTextValue(d.year);
    Pad2Value(d.month);
    Pad2Value(d.day);
    Pad2Value(d.hour);
    Pad2Value(d.minute);
    DisplayLayout(d);
    assert DatePrefix(s);
    var t := s[11..];
    SignFree(t, 5);
    assert t[..5] == t;
    assert t[0..2] == Pad2(d.hour);
    assert t[3..5] == Pad2(d.minute);
  }

  /** Where the fields of `Display` sit, for a year of four digits. */
  lemma DisplayLayout(d: DateTime)
    requires InRange(d) && d.year >= 1000
    ensures var s := Display(d);
      |s| == 16 && s[..4] == NatText(d.year) && s[4] == '-' && s[5..7] == Pad2(d.month) && s[7] == '-'
      && s[8..10] == Pad2(d.day) && s[11..] == Pad2(d.hour) + ":" + Pad2(d.minute)
  {
    var y := NatText(d.year);
    ValueLength(d.year);
    var date := y + "-" + Pad2(d.month) + "-" + Pad2(d.day);
    var clock := Pad2(d.hour) + ":" + Pad2(d.minute);
    assert Display(d) == date + " " + clock;
    assert date[..4] == y;
    assert date[5..7] == Pad2(d.month);
    assert date[8..10] == Pad2(d.day);
  }

  lemma {:induction false} ValueLength(n: nat)
    requires 1000 <= n <= 9999
    ensures |NatText(n)| == 4
  {
    var a := n / 10;
    var b := a / 10;
    var c := b / 10;
    assert 100 <= a <= 999 && 10 <= b <= 99 && 1 <= c <= 9;
    assert |NatText(c)| == 1;
    assert NatText(b) == NatText(c) + [DigitChar(b % 10)];
    assert NatText(a) == NatText(b) + [DigitChar(a % 10)];
    assert NatText(n) == NatText(a) + [DigitChar(n % 10)];
  }

  /** What `Display` prints for a year below 1000 is not a `YYYY-MM-DD` prefix. */
  lemma ShortYearDisplayUnparsed(d: DateTime)
    requires InRange(d) && d.year < 1000
    ensures ParseIso(Display(d)).None?
  {
    var s := Display(d);
    var y := NatText(d.year);
    NatTextShort(d.year);
    assert s[|y|] == '-';
    assert !IsDigit(s[|y|]);
  }

  predicate Ascii(s: string) {
    forall j :: 0 <= j < |s| ==> s[j] as int < 128
  }

  lemma {:induction false} ClockFieldsAscii(t: string, followed: bool, p: nat, i: nat, vals: seq<nat>)
    requires p <= |t| && i < 3 && |vals| == i
    requires ClockFields(t, followed, p, i, vals).Some?
    ensures Ascii(t[p..])
    decreases 3 - i
  {
    assert AllDigits(t[p..p + 2]);
    var k := p + 2;
    forall j | p <= j < k ensures IsDigit(t[j]) {
      assert t[j] == t[p..p + 2][j - p];
    }
    if k + 1 < |t| {
      var vals' := vals + [DigitsValue(t[p..p + 2])];
      if t[k] == ':' && i < 2 {
        ClockFieldsAscii(t, followed, k + 1, i + 1, vals');
        assert forall j :: k + 1 <= j < |t| ==> t[k + 1..][j - (k + 1)] == t[j];
      } else {
        assert AllDigits(t[k + 1..]);
        forall j | k + 1 <= j < |t| ensures IsDigit(t[j]) {
          assert t[j] == t[k + 1..][j - (k + 1)];
        }
      }
    }
  }

  /**
   * Every character of an accepted timestamp, except the one separating date and time, is
   * ASCII.  So its characters and its UTF-8 bytes line up one to one, and the lengths the
   * model compares are the byte lengths the C parser compares.
   */
  lemma ParsedIsAscii(s: string)
    requires ParseIso(s).Some?
    ensures forall j :: 0 <= j < |s| && j != 10 ==> s[j] as int < 128
  {
    forall j | 0 <= j < 10 ensures s[j] as int < 128 {
      if j < 4 {
        assert s[j] == s[..4][j];
      } else if 5 <= j < 7 {
        assert s[j] == s[5..7][j - 5];
      } else if 8 <= j {
        assert s[j] == s[8..10][j - 8];
      }
    }
    if |s| > 10 {
      var t := s[11..];
      var z := SignIndex(t);
      var c := ParseClock(t[..z], z < |t|);
      ClockFieldsAscii(t[..z], z < |t|, 0, 0, []);
      assert forall j :: 0 <= j < z ==> t[..z][j] == t[j];
      if z < |t| {
        var o := ParseClock(t[z + 1..], false);
        ClockFieldsAscii(t[z + 1..], false, 0, 0, []);
        assert forall j :: z + 1 <= j < |t| ==> t[z + 1..][j - (z + 1)] == t[j];
      }
      assert forall j :: 11 <= j < |s| ==> s[j] == t[j - 11];
    }
  }

  /** A non-ASCII character before the offset is not taken for the one character the clock may end with. */
  lemma NonAsciiBeforeOffsetRejected()
    ensures ParseIso("2024-01-01T12\U{e9}+05:00").None?
    ensures FormatDatetime(Some("2024-01-01T12\U{e9}+05:00")) == Some("2024-01-01T12\U{e9}+05:00")
  {
    var t := "12\U{e9}+05:00";
    assert "2024-01-01T12\U{e9}+05:00"[11..] == t;
    assert SignIndex(t) == 3 by {
      SignFree(t, 3);
    }
    assert t[..3] == "12\U{e9}";
    assert ParseClock("12\U{e9}", true).None?;
  }

  /** Formatting a formatted timestamp changes nothing. */
  lemma FormatIdempotent(dt: Option<string>)
    ensures FormatDatetime(FormatDatetime(dt)) == FormatDatetime(dt)
  {
    if dt.Some? && dt.value != "" && ParseIso(dt.value).Some? {
      var d := ParseIso(dt.value).value;
      if d.year >= 1000 {
        DisplayParses(d);
      } else {
        ShortYearDisplayUnparsed(d);
      }
    }
  }
}
