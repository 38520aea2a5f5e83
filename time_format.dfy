/**
 * The `MM:SS` countdown display shared by the pulse hook and the dashboard:
 * minutes are `Math.floor(seconds / 60)`, seconds are JavaScript's `seconds % 60`,
 * and each is rendered with `toString()` and left-padded with '0' to two characters.
 * `ParseTime` reads the display back and is the partner of `FormatTime`.
 */
module TimeFormat {
  import opened Wrappers

  predicate IsDigit(c: char) { '0' <= c <= '9' }

  predicate AllDigits(s: string) { forall i :: 0 <= i < |s| ==> IsDigit(s[i]) }

  function DigitValue(c: char): (d: nat)
    requires IsDigit(c)
    ensures d < 10
  {
    c as int - '0' as int
  }

  function DigitChar(d: nat): (c: char)
    requires d < 10
    ensures IsDigit(c) && DigitValue(c) == d
  {
    ('0' as int + d) as char
  }

  /** `n.toString()` for a non-negative integer: its decimal digits without leading zeros. */
  function Decimal(n: nat): (r: string)
    ensures |r| >= 1 && AllDigits(r)
    ensures |r| == 1 <==> n < 10
    ensures n > 0 ==> r[0] != '0'
  {
    if n < 10 then [DigitChar(n)] else Decimal(n / 10) + [DigitChar(n % 10)]
  }

  /** `i.toString()` for any integer: a minus sign in front of the digits of a negative number. */
  function IntToString(i: int): string
  {
    if i < 0 then "-" + Decimal(-i) else Decimal(i)
  }

  /** `s.padStart(2, '0')`: zeros in front of `s` up to length two; longer strings are kept. */
  function PadTwo(s: string): (r: string)
    ensures |r| == if |s| < 2 then 2 else |s|
    ensures r[|r| - |s|..] == s
    ensures forall i :: 0 <= i < |r| - |s| ==> r[i] == '0'
  {
    if |s| < 2 then seq(2 - |s|, _ => '0') + s else s
  }

  /** JavaScript's `a % 60`: the remainder takes the sign of the dividend. */
  function Remainder60(a: int): (r: int)
    ensures a >= 0 ==> r == a % 60
    ensures a < 0 ==> -60 < r <= 0 && (a - r) % 60 == 0
  {
    if a >= 0 then a % 60 else -((-a) % 60)
  }

  /** One field of the display: `n.toString().padStart(2, '0')`. */
  function Field(n: int): string
  {
    PadTwo(IntToString(n))
  }

  /** `formatTime(seconds)` (Dafny's `/` by a positive divisor rounds down, as `Math.floor` does). */
  function FormatTime(seconds: int): string
  {
    Field(seconds / 60) + ":" + Field(Remainder60(seconds))
  }

  /** The value of a string of decimal digits (leading zeros allowed; the empty string is 0). */
  function ParseDecimal(s: string): nat
    requires AllDigits(s)
  {
    if s == [] then 0 else ParseDecimal(s[..|s| - 1]) * 10 + DigitValue(s[|s| - 1])
  }

  /**
   * Reads an `MM:SS` display back into seconds: at least two minute digits, a colon,
   * exactly two second digits below 60.
   */
  function ParseTime(r: string): Option<nat>
  {
    if |r| >= 5 && r[|r| - 3] == ':' then ParseFields(r[..|r| - 3], r[|r| - 2..]) else None
  }

  /** The seconds shown by a minute field and a second field, if both are digits and the seconds are below 60. */
  function ParseFields(mins: string, secs: string): Option<nat>
  {
    if AllDigits(mins) && AllDigits(secs) && ParseDecimal(secs) < 60 then
      Some(ParseDecimal(mins) * 60 + ParseDecimal(secs))
    else
      None
  }

  lemma {:induction false} DecimalRoundTrip(n: nat)
    ensures ParseDecimal(Decimal(n)) == n
  {
    if n >= 10 {
      var r := Decimal(n);
      assert r[..|r| - 1] == Decimal(n / 10);
      DecimalRoundTrip(n / 10);
    }
  }

  lemma {:induction false} LeadingZeroIgnored(s: string)
    requires AllDigits(s)
    ensures AllDigits("0" + s) && ParseDecimal("0" + s) == ParseDecimal(s)
  {
    if s != [] {
      assert ("0" + s)[..|"0" + s| - 1] == "0" + s[..|s| - 1];
      LeadingZeroIgnored(s[..|s| - 1]);
    } else {
      assert ("0" + s)[..0] == [];
    }
  }

  lemma PadTwoValue(s: string)
    requires AllDigits(s)
    ensures AllDigits(PadTwo(s)) && ParseDecimal(PadTwo(s)) == ParseDecimal(s)
  {
    if |s| == 1 {
      assert PadTwo(s) == "0" + s;
      LeadingZeroIgnored(s);
    } else if |s| == 0 {
      assert PadTwo(s) == "0" + "0";
      LeadingZeroIgnored("0");
      LeadingZeroIgnored("");
    }
  }

  /** The field of a non-negative number is a digit string of at least two characters worth that number. */
  lemma FieldValue(n: nat)
    ensures |Field(n)| >= 2 && AllDigits(Field(n)) && ParseDecimal(Field(n)) == n
    ensures n < 100 ==> |Field(n)| == 2
  {
    PadTwoValue(Decimal(n));
    DecimalRoundTrip(n);
    if n < 100 {
      assert |Decimal(n)| <= 2 by {
        if n >= 10 {
          assert Decimal(n) == Decimal(n / 10) + [DigitChar(n % 10)];
        }
      }
    }
  }

  /** A display made of a minute field of two or more digits and a two-digit second field below 60 reads back. */
  lemma ParseDisplay(a: string, b: string, mins: nat, secs: nat)
    requires |a| >= 2 && AllDigits(a) && ParseDecimal(a) == mins
    requires |b| == 2 && AllDigits(b) && ParseDecimal(b) == secs < 60
    ensures ParseTime(a + ":" + b) == Some(mins * 60 + secs)
  {
    var r := a + ":" + b;
    assert |r| == |a| + 3 && r[|r| - 3] == ':';
    assert r[..|r| - 3] == a;
    assert r[|r| - 2..] == b;
    assert ParseFields(a, b) == Some(mins * 60 + secs);
  }

  /**
   * For a non-negative number of seconds the display is `mins:secs`: a minute field of at
   * least two digits worth `mins`, a colon, and a second field of exactly two digits worth
   * `secs < 60`, where `mins * 60 + secs` is the number of seconds. Below 100 minutes the
   * display is exactly five characters.
   */
  lemma FormatTimeShape(seconds: nat)
    ensures var mins, secs := seconds / 60, seconds % 60;
      && FormatTime(seconds) == Field(mins) + ":" + Field(secs)
      && |Field(mins)| >= 2 && AllDigits(Field(mins)) && ParseDecimal(Field(mins)) == mins
      && |Field(secs)| == 2 && AllDigits(Field(secs)) && ParseDecimal(Field(secs)) == secs
      && secs < 60 && mins * 60 + secs == seconds
    ensures seconds < 6000 ==> |FormatTime(seconds)| == 5
  {
    var mins, secs := seconds / 60, seconds % 60;
    assert seconds < 6000 ==> mins < 100;
    JoinedLength(mins, secs);
  }

  /** Both fields of the display, and its length below 100 minutes. */
  lemma JoinedLength(mins: nat, secs: nat)
    requires secs < 60
    ensures |Field(mins)| >= 2 && AllDigits(Field(mins)) && ParseDecimal(Field(mins)) == mins
    ensures |Field(secs)| == 2 && AllDigits(Field(secs)) && ParseDecimal(Field(secs)) == secs
    ensures mins < 100 ==> |Field(mins) + ":" + Field(secs)| == 5
  {
    FieldValue(mins);
    FieldValue(secs);
  }

  /** The display of `mins` minutes and `secs < 60` seconds reads back as `mins * 60 + secs`. */
  lemma ParseJoinedFields(mins: nat, secs: nat)
    requires secs < 60
    ensures ParseTime(Field(mins) + ":" + Field(secs)) == Some(mins * 60 + secs)
  {
    FieldValue(mins);
    FieldValue(secs);
    ParseDisplay(Field(mins), Field(secs), mins, secs);
  }

  /** Reading the display back gives the number of seconds: the display loses nothing. */
  lemma FormatTimeRoundTrip(seconds: nat)
    ensures ParseTime(FormatTime(seconds)) == Some(seconds)
  {
    var mins, secs := seconds / 60, seconds % 60;
    FormatTimeShape(seconds);
    ParseJoinedFields(mins, secs);
  }

  lemma FormatTimeInjective(a: nat, b: nat)
    requires FormatTime(a) == FormatTime(b)
    ensures a == b
  {
    FormatTimeRoundTrip(a);
    FormatTimeRoundTrip(b);
  }
}
