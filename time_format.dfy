/** `format_time` of server.py: seconds on a clock as `MM:SS`. */
module TimeFormat {
  import opened Text

  /** Python's `int(x)` on a float: truncation toward zero. */
  function Truncate(x: real): (n: int)
    ensures 0.0 <= x ==> n as real <= x < n as real + 1.0
    ensures x < 0.0 ==> n as real - 1.0 < x <= n as real
  {
    if x >= 0.0 then x.Floor else -((-x).Floor)
  }

  /** Python's `f"{n:02}"`: at least two characters, zero-padded after any sign. */
  function Pad2(n: int): string
  {
    if n < 0 then "-" + Digits(-n)
    else if n < 10 then "0" + Digits(n)
    else Digits(n)
  }

  /** `format_time(seconds)`: whole minutes and leftover seconds of `int(seconds)`. */
  function FormatTime(seconds: real): string
  {
    var n := Truncate(seconds);
    Pad2(n / 60) + ":" + Pad2(n % 60)
  }

  /** A non-negative field is written with at least two digits and reads back as itself. */
  lemma Pad2ReadsBack(k: nat)
    ensures AllDigits(Pad2(k)) && Value(Pad2(k)) == k
    ensures |Pad2(k)| >= 2 && (k < 100 ==> |Pad2(k)| == 2)
  {
    ValueOfDigits(k);
    if k < 10 {
      ValueLeadingZero(Digits(k));
    } else {
      assert Digits(k) == Digits(k / 10) + [DigitChar(k % 10)];
    }
  }

  /**
    For a clock that has not run out, the text is `MM:SS`: minutes of at least
    two digits, then exactly two digits of seconds below 60, which together
    give back the whole seconds on the clock; below 100 minutes it is exactly
    five characters.
   */
  lemma FormatTimeReadsBack(seconds: real)
    requires 0.0 <= seconds
    ensures var t := FormatTime(seconds);
      && |t| >= 5 && t[|t| - 3] == ':'
      && AllDigits(t[..|t| - 3]) && AllDigits(t[|t| - 2..])
      && Value(t[|t| - 2..]) < 60
      && Value(t[..|t| - 3]) * 60 + Value(t[|t| - 2..]) == seconds.Floor
      && (seconds < 6000.0 ==> |t| == 5)
  {
    var n := Truncate(seconds);
    var mm, ss := Pad2(n / 60), Pad2(n % 60);
    Pad2ReadsBack(n / 60);
    Pad2ReadsBack(n % 60);
    var t := FormatTime(seconds);
    assert t == mm + ":" + ss;
    assert t[..|t| - 3] == mm;
    assert t[|t| - 2..] == ss;
  }
}
