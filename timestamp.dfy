/**
  The completion handlers stamp `datetime.now().strftime("%Y-%m-%d %H:%M:%S")`. The clock is
  an input here; this module is the formatting and its inverse.
 */
module Timestamp {

  import opened Wrappers
  import Values

  datatype DateTime = DateTime(year: int, month: int, day: int, hour: int, minute: int, second: int)

  /** The range of the fields of a local time read from the clock (four-digit years). */
  predicate Valid(t: DateTime) {
    && 1000 <= t.year <= 9999
    && 1 <= t.month <= 12
    && 1 <= t.day <= 31
    && 0 <= t.hour < 24
    && 0 <= t.minute < 60
    && 0 <= t.second < 60
  }

  predicate IsDigit(c: char) { '0' <= c <= '9' }

  function DigitValue(c: char): (d: nat)
    requires IsDigit(c)
    ensures d < 10
  {
    c as int - '0' as int
  }

  /** Zero-padded decimal of n in exactly `width` digits. */
  function Pad(n: nat, width: nat): (r: string)
    ensures |r| == width
    ensures forall k :: 0 <= k < width ==> IsDigit(r[k])
  {
    if width == 0 then "" else Pad(n / 10, width - 1) + [Values.DigitChar(n % 10)]
  }

  /** The number that a run of digits denotes. */
  function Number(s: string): nat
    requires forall k :: 0 <= k < |s| ==> IsDigit(s[k])
  {
    if s == [] then 0 else 10 * Number(s[..|s| - 1]) + DigitValue(s[|s| - 1])
  }

  /** The shape "YYYY-MM-DD HH:MM:SS". */
  predicate WellFormed(s: string) {
    && |s| == 19
    && s[4] == '-' && s[7] == '-' && s[10] == ' ' && s[13] == ':' && s[16] == ':'
    && (forall k :: 0 <= k < 19 && k != 4 && k != 7 && k != 10 && k != 13 && k != 16 ==> IsDigit(s[k]))
  }

  function Strftime(t: DateTime): (r: string)
    requires Valid(t)
    ensures WellFormed(r)
  {
    Pad(t.year, 4) + "-" + Pad(t.month, 2) + "-" + Pad(t.day, 2) + " "
      + Pad(t.hour, 2) + ":" + Pad(t.minute, 2) + ":" + Pad(t.second, 2)
  }

  /** Reads a timestamp back; None for text of another shape. */
  function Parse(s: string): (r: Option<DateTime>)
    ensures r.Some? <==> WellFormed(s)
  {
    if WellFormed(s) then
      Some(DateTime(Number(s[0..4]), Number(s[5..7]), Number(s[8..10]),
                    Number(s[11..13]), Number(s[14..16]), Number(s[17..19])))
    else None
  }

  function Pow10(k: nat): (p: nat)
    ensures 1 <= p
  {
    if k == 0 then 1 else 10 * Pow10(k - 1)
  }

  lemma {:induction false} NumberPad(n: nat, width: nat)
    requires n < Pow10(width)
    ensures Number(Pad(n, width)) == n
  {
    if width != 0 {
      var q, d := n / 10, n % 10;
      assert n == 10 * q + d;
      assert q < Pow10(width - 1);
      NumberPad(q, width - 1);
      var p := Pad(n, width);
      assert p == Pad(q, width - 1) + [Values.DigitChar(d)];
      assert p[..|p| - 1] == Pad(q, width - 1);
      assert DigitValue(p[|p| - 1]) == d;
    }
  }

  lemma {:induction false} PadNumber(s: string)
    requires forall k :: 0 <= k < |s| ==> IsDigit(s[k])
    ensures Pad(Number(s), |s|) == s
  {
    if s != [] {
      var init := s[..|s| - 1];
      PadNumber(init);
      var n := Number(s);
      var d := DigitValue(s[|s| - 1]);
      assert n / 10 == Number(init) && n % 10 == d;
      assert Values.DigitChar(d) == s[|s| - 1];
      assert init + [s[|s| - 1]] == s;
    }
  }

  /** Reading back a formatted time gives the time. */
  lemma ParseStrftime(t: DateTime)
    requires Valid(t)
    ensures Parse(Strftime(t)) == Some(t)
  {
    var s := Strftime(t);
    assert Pow10(2) == 100 && Pow10(4) == 10000;
    NumberPad(t.year, 4);
    NumberPad(t.month, 2);
    NumberPad(t.day, 2);
    NumberPad(t.hour, 2);
    NumberPad(t.minute, 2);
    NumberPad(t.second, 2);
    assert s[0..4] == Pad(t.year, 4);
    assert s[5..7] == Pad(t.month, 2);
    assert s[8..10] == Pad(t.day, 2);
    assert s[11..13] == Pad(t.hour, 2);
    assert s[14..16] == Pad(t.minute, 2);
    assert s[17..19] == Pad(t.second, 2);
  }

  /** Formatting a parsed, valid time gives back the text: the format is one-to-one. */
  lemma StrftimeParse(s: string)
    requires Parse(s).Some? && Valid(Parse(s).value)
    ensures Strftime(Parse(s).value) == s
  {
    PadNumber(s[0..4]);
    PadNumber(s[5..7]);
    PadNumber(s[8..10]);
    PadNumber(s[11..13]);
    PadNumber(s[14..16]);
    PadNumber(s[17..19]);
    assert s == s[0..4] + "-" + s[5..7] + "-" + s[8..10] + " " + s[11..13] + ":" + s[14..16] + ":" + s[17..19];
  }
}
