/**
 * The remaining-time label: `formatTime` and the three-way choice between
 * "Charging", "Fully Charged" and the formatted time.
 *
 * Python's `//` and `%` floor; for the positive divisors 3600 and 60 this is
 * what Dafny's Euclidean `/` and `%` compute, for negative seconds too.
 * Integers are written as Python's `str` writes them: optional minus sign,
 * no leading zeros.
 */
module TimeFormat {
  import opened Wrappers

  predicate IsDigit(c: char) {
    '0' <= c <= '9'
  }

  predicate AllDigits(s: string) {
    forall i :: 0 <= i < |s| ==> IsDigit(s[i])
  }

  /** No character of `s` is a blank. */
  predicate Unspaced(s: string) {
    forall i :: 0 <= i < |s| ==> s[i] != ' '
  }

  function DigitChar(d: nat): (c: char)
    requires d < 10
    ensures IsDigit(c)
  {
    (48 + d) as char
  }

  function DigitValue(c: char): (d: nat)
    requires IsDigit(c)
    ensures d < 10
  {
    c as int - 48
  }

  /** Decimal text of a natural number, without leading zeros. */
  function NatString(n: nat): (s: string)
    ensures |s| >= 1 && AllDigits(s)
    ensures s[0] == '0' ==> n == 0
  {
    if n < 10 then [DigitChar(n)] else NatString(n / 10) + [DigitChar(n % 10)]
  }

  /** Value of a string of decimal digits (the empty string reads as 0). */
  function ParseNat(s: string): nat
    requires AllDigits(s)
  {
    if s == [] then 0 else 10 * ParseNat(s[..|s| - 1]) + DigitValue(s[|s| - 1])
  }

  /** Python's `str(n)` for an integer. */
  function IntString(n: int): (s: string)
    ensures s != [] && Unspaced(s)
  {
    if n < 0 then "-" + NatString(-n) else NatString(n)
  }

  /** Reads back an optionally signed decimal integer; None for anything else. */
  function ParseInt(s: string): Option<int> {
    if s != [] && s[0] == '-' then
      if |s| > 1 && AllDigits(s[1..]) then Some(-(ParseNat(s[1..]) as int)) else None
    else if s != [] && AllDigits(s) then Some(ParseNat(s))
    else None
  }

  /** `formatTime`: whole hours and the whole minutes left over; seconds are dropped. */
  function FormatTime(seconds: int): (t: string)
    ensures |t| >= 11 && t[|t| - 4..] == " Min"
    ensures t != "Charging" && t != "Fully Charged"
  {
    IntString(seconds / 3600) + " H : " + IntString((seconds % 3600) / 60) + " Min"
  }

  /** Length of the longest prefix of `t` without a blank. */
  function TokenLength(t: string): (k: nat)
    ensures k <= |t|
  {
    if t == [] || t[0] == ' ' then 0 else 1 + TokenLength(t[1..])
  }

  /**
   * Reads a label of the form "<h> H : <m> Min" back into its hours and
   * minutes; None for every other text.
   */
  function ParseFormatted(t: string): Option<(int, int)> {
    var k := TokenLength(t);
    var rest := t[k..];
    if |rest| < 5 || rest[..5] != " H : " then None
    else
      var tail := rest[5..];
      var k2 := TokenLength(tail);
      if tail[k2..] != " Min" then None
      else
        match (ParseInt(t[..k]), ParseInt(tail[..k2]))
        case (Some(h), Some(m)) => Some((h, m))
        case _ => None
  }

  /**
   * The remaining-time label kept in `batteryRemaining`: "Charging" while the
   * charger is connected, "Fully Charged" at 100% on battery, otherwise the
   * formatted estimate.
   */
  function RemainingLabel(plugged: bool, percent: int, secsleft: int): (r: string)
    ensures r == "Charging" <==> plugged
    ensures r == "Fully Charged" <==> !plugged && percent == 100
  {
    if plugged then "Charging"
    else if percent == 100 then "Fully Charged"
    else FormatTime(secsleft)
  }

  lemma {:induction false} ParseNatString(n: nat)
    ensures ParseNat(NatString(n)) == n
  {
    if n >= 10 {
      var s := NatString(n);
      assert s[..|s| - 1] == NatString(n / 10);
      ParseNatString(n / 10);
    }
  }

  /**
   * `str` followed by reading back gives the integer again, and the text is
   * the canonical one: a minus sign exactly for negative numbers, and no
   * leading zero except in "0" itself.
   */
  lemma IntStringRoundTrip(n: int)
    ensures ParseInt(IntString(n)) == Some(n)
    ensures IntString(n)[0] == '-' <==> n < 0
    ensures n < 0 ==> |IntString(n)| > 1 && IntString(n)[1] != '0'
    ensures IntString(n)[0] == '0' ==> IntString(n) == "0"
  {
    if n < 0 {
      var s := IntString(n);
      assert s[1..] == NatString(-n);
      ParseNatString(-n);
    } else {
      ParseNatString(n);
    }
  }

  lemma {:induction false} TokenLengthAppend(a: string, b: string)
    requires Unspaced(a)
    requires b != [] && b[0] == ' '
    ensures TokenLength(a + b) == |a|
  {
    if a != [] {
      assert (a + b)[1..] == a[1..] + b;
      TokenLengthAppend(a[1..], b);
    } else {
      assert a + b == b;
    }
  }

  /** Every label `formatTime` writes reads back as exactly its hours and minutes. */
  lemma FormatTimeRoundTrip(seconds: int)
    ensures ParseFormatted(FormatTime(seconds)) == Some((seconds / 3600, (seconds % 3600) / 60))
  {
    var hs, ms := IntString(seconds / 3600), IntString((seconds % 3600) / 60);
    var t := FormatTime(seconds);
    assert t == hs + (" H : " + ms + " Min");
    TokenLengthAppend(hs, " H : " + ms + " Min");
    var rest := t[|hs|..];
    assert rest == " H : " + ms + " Min";
    assert rest[..5] == " H : ";
    var tail := rest[5..];
    assert tail == ms + " Min";
    TokenLengthAppend(ms, " Min");
    assert tail[|ms|..] == " Min";
    assert t[..|hs|] == hs;
    assert tail[..|ms|] == ms;
    IntStringRoundTrip(seconds / 3600);
    IntStringRoundTrip((seconds % 3600) / 60);
  }

  /**
   * What the formatted label means: it names hours `h` and minutes `m` with
   * `0 <= m < 60`, and `h` hours and `m` minutes is the estimate rounded
   * down to a whole minute.
   */
  lemma FormatTimeMeaning(seconds: int)
    ensures ParseFormatted(FormatTime(seconds)).Some?
    ensures var (h, m) := ParseFormatted(FormatTime(seconds)).value;
            0 <= m < 60 && 3600 * h + 60 * m <= seconds < 3600 * h + 60 * m + 60
  {
    FormatTimeRoundTrip(seconds);
  }

  /** The worked example: 5400 seconds is "1 H : 30 Min". */
  lemma FormatTimeExample()
    ensures FormatTime(5400) == "1 H : 30 Min"
  {
    assert NatString(30) == NatString(3) + [DigitChar(0)];
  }

  /** Only a text ending in " Min" reads as a formatted time. */
  lemma ParsedEndsInMin(t: string)
    requires ParseFormatted(t).Some?
    ensures |t| >= 4 && t[|t| - 4..] == " Min"
  {
    var k := TokenLength(t);
    var tail := t[k..][5..];
    var k2 := TokenLength(tail);
    assert tail[k2..] == t[k + 5 + k2..];
  }

  /** Neither fixed word reads as a formatted time. */
  lemma FixedWordsAreNotTimes()
    ensures ParseFormatted("Charging") == None
    ensures ParseFormatted("Fully Charged") == None
  {
    if ParseFormatted("Charging").Some? {
      ParsedEndsInMin("Charging");
    }
    if ParseFormatted("Fully Charged").Some? {
      ParsedEndsInMin("Fully Charged");
    }
  }

  /**
   * Outside its two fixed words the label is a time: it reads as one
   * exactly in the third case, and then as the hours and minutes of
   * `secsleft`.
   */
  lemma RemainingLabelMeaning(plugged: bool, percent: int, secsleft: int)
    ensures var r := RemainingLabel(plugged, percent, secsleft);
            (ParseFormatted(r).Some? <==> !plugged && percent != 100) &&
            (!plugged && percent != 100 ==>
               ParseFormatted(r) == Some((secsleft / 3600, (secsleft % 3600) / 60)))
  {
    FixedWordsAreNotTimes();
    if !plugged && percent != 100 {
      FormatTimeRoundTrip(secsleft);
    }
  }
}
