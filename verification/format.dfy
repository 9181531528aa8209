/**
  The "MM:SS" rendering of a remaining-seconds counter, as `%02d:%02d` of the
  quotient and remainder by 60, and a parser that reads such a string back.
 */
module Format {

  datatype Option<T> = None | Some(value: T)

  predicate IsDigit(c: char) {
    '0' <= c <= '9'
  }

  predicate AllDigits(t: string) {
    forall i :: 0 <= i < |t| ==> IsDigit(t[i])
  }

  function DigitChar(d: nat): (c: char)
    requires d < 10
    ensures IsDigit(c) && DigitValue(c) == d
  {
    (48 + d) as char
  }

  function DigitValue(c: char): (d: nat)
    requires IsDigit(c)
    ensures d < 10
  {
    (c as int - 48) as nat
  }

  /** Decimal digits of `n`, most significant first, no leading zeros. */
  function Decimal(n: nat): (r: string)
    ensures 1 <= |r| && AllDigits(r)
    ensures n < 10 <==> |r| == 1
    ensures 10 <= n < 100 ==> |r| == 2
    ensures 10 <= n ==> r[0] != '0'
    decreases n
  {
    if n < 10 then [DigitChar(n)] else Decimal(n / 10) + [DigitChar(n % 10)]
  }

  /** The value of a string of decimal digits; the empty string reads as 0. */
  function ParseDecimal(t: string): nat
    requires AllDigits(t)
  {
    if |t| == 0 then 0 else ParseDecimal(t[..|t| - 1]) * 10 + DigitValue(t[|t| - 1])
  }

  /** `%02d` of a non-negative number: at least two digits, zero-padded. */
  function Pad2(n: nat): (r: string)
    ensures 2 <= |r| && AllDigits(r)
    ensures n < 100 <==> |r| == 2
    ensures 100 <= n ==> r[0] != '0'
  {
    if n < 10 then ['0', DigitChar(n)] else Decimal(n)
  }

  /** Minutes are not capped at 59 and are padded to two digits only: beyond
      two digits the minutes field has no leading zero. Seconds are always
      two digits. */
  function FormatTime(seconds: nat): (r: string)
    ensures 5 <= |r| && r[|r| - 3] == ':'
    ensures AllDigits(r[..|r| - 3]) && AllDigits(r[|r| - 2..])
    ensures seconds < 6000 <==> |r| == 5
    ensures 6000 <= seconds ==> r[0] != '0'
  {
    var r := Pad2(seconds / 60) + ":" + Pad2(seconds % 60);
    assert r[..|r| - 3] == Pad2(seconds / 60);
    assert r[|r| - 2..] == Pad2(seconds % 60);
    r
  }

  /** Splits at the colon three characters from the end and reads
      minutes * 60 + seconds; rejects anything not of that shape or whose
      seconds field is 60 or more. */
  function ParseTime(t: string): (r: Option<nat>)
    ensures r.Some? ==> 5 <= |t| && t[|t| - 3] == ':'
  {
    if 5 <= |t| && t[|t| - 3] == ':' && AllDigits(t[..|t| - 3]) && AllDigits(t[|t| - 2..])
       && ParseDecimal(t[|t| - 2..]) < 60
    then Some(ParseDecimal(t[..|t| - 3]) * 60 + ParseDecimal(t[|t| - 2..]))
    else None
  }

  lemma {:induction false} ParseDecimalOfDecimal(n: nat)
    ensures ParseDecimal(Decimal(n)) == n
    decreases n
  {
    if n >= 10 {
      var r := Decimal(n);
      assert r[..|r| - 1] == Decimal(n / 10);
      ParseDecimalOfDecimal(n / 10);
    }
  }

  lemma ParseDecimalOfPad2(n: nat)
    ensures ParseDecimal(Pad2(n)) == n
  {
    if n < 10 {
      var r := Pad2(n);
      assert r[..1] == "0" && r[1] == DigitChar(n);
      assert ParseDecimal(r[..1]) == 0 by {
        assert r[..1][..0] == [];
      }
    } else {
      ParseDecimalOfDecimal(n);
    }
  }

  /** The two fields of the rendering: the part before the colon reads back
      as the whole minutes, the two digits after it as the seconds 00..59. */
  lemma FormatTimeFields(seconds: nat)
    ensures var r := FormatTime(seconds);
            && ParseDecimal(r[..|r| - 3]) == seconds / 60
            && |r[|r| - 2..]| == 2
            && ParseDecimal(r[|r| - 2..]) == seconds % 60 < 60
  {
    var m, s := Pad2(seconds / 60), Pad2(seconds % 60);
    var r := FormatTime(seconds);
    assert r == m + ":" + s;
    assert r[..|r| - 3] == m;
    assert r[|r| - 2..] == s;
    ParseDecimalOfPad2(seconds / 60);
    ParseDecimalOfPad2(seconds % 60);
  }

  /** Splitting the rendering at the colon recovers the counter. */
  lemma FormatTimeRoundTrip(seconds: nat)
    ensures ParseTime(FormatTime(seconds)) == Some(seconds)
  {
    FormatTimeFields(seconds);
  }

  /** Distinct counters are displayed differently. */
  lemma FormatTimeInjective(a: nat, b: nat)
    ensures FormatTime(a) == FormatTime(b) ==> a == b
  {
    FormatTimeRoundTrip(a);
    FormatTimeRoundTrip(b);
  }

  /** Sample renderings, including the uncapped minutes field. */
  lemma FormatTimeSamples()
    ensures FormatTime(125) == "02:05"
    ensures FormatTime(3661) == "61:01"
    ensures FormatTime(1200) == "20:00"
    ensures FormatTime(6000) == "100:00"
  {
    assert Decimal(61) == Decimal(6) + ['1'] == "61";
    assert Decimal(20) == Decimal(2) + ['0'] == "20";
    Sample(125, "02", "05");
    Sample(3661, "61", "01");
    Sample(1200, "20", "00");
    Sample(6000, "100", "00");
  }

  /** The rendering is the two padded fields joined by a colon. */
  lemma Sample(seconds: nat, minutesField: string, secondsField: string)
    requires Pad2(seconds / 60) == minutesField && Pad2(seconds % 60) == secondsField
    ensures FormatTime(seconds) == minutesField + ":" + secondsField
  {
  }
}
