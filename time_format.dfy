/** The `M:SS` formatter that both call widgets use for their countdown and for the
    elapsed call time, and a reader for its output that shows nothing is lost. */
module TimeFormat {
  import opened Wrappers
  import opened Decimal
  import Strings

  /** JavaScript's `%`: the remainder takes the sign of the dividend. */
  function JsRem(a: int, b: int): (r: int)
    requires b > 0
    ensures a >= 0 ==> 0 <= r < b
    ensures a < 0 ==> -b < r <= 0
    ensures exists q :: a == q * b + r
  {
    if a >= 0 then
      assert a == (a / b) * b + a % b;
      a % b
    else
      assert -a == ((-a) / b) * b + (-a) % b;
      assert a == (-((-a) / b)) * b + -((-a) % b);
      -((-a) % b)
  }

  /** `Math.floor(seconds / 60)`, then a colon, then `seconds % 60` with a '0' put in
      front when it is below 10. Dafny's `/` by a positive divisor rounds down, as
      `Math.floor` does; the remainder is JavaScript's. */
  function FormatTime(seconds: int): string {
    var minutes := seconds / 60;
    var secs := JsRem(seconds, 60);
    IntToString(minutes) + ":" + (if secs < 10 then "0" else "") + IntToString(secs)
  }

  /** The two characters after the colon, for a remainder in [0, 60). */
  function TwoDigits(n: nat): (r: string)
    requires n < 60
    ensures |r| == 2 && AllDigits(r) && DigitsValue(r) == n
  {
    var r := [DigitChar(n / 10), DigitChar(n % 10)];
    assert r[..1] == [DigitChar(n / 10)];
    assert r[..1][..0] == [];
    assert DigitsValue(r[..1]) == n / 10;
    assert DigitsValue(r) == (n / 10) * 10 + n % 10;
    r
  }

  /** For a non-negative count the output is the minutes in decimal, a colon, and
      exactly two digits that spell the leftover seconds. */
  lemma {:induction false} FormatTimeShape(seconds: int)
    requires seconds >= 0
    ensures FormatTime(seconds) == NatToString(seconds / 60) + ":" + TwoDigits(seconds % 60)
  {
    var secs := seconds % 60;
    if secs < 10 {
      assert NatToString(secs) == [DigitChar(secs)];
      assert "0" == [DigitChar(0)];
    } else {
      assert NatToString(secs) == NatToString(secs / 10) + [DigitChar(secs % 10)];
      assert NatToString(secs / 10) == [DigitChar(secs / 10)];
    }
  }

  /** Everything after the colon is two characters long, whatever the count. */
  lemma TwoDigitsAfterColon(seconds: int)
    requires seconds >= 0
    ensures var t := FormatTime(seconds);
            var k := Strings.IndexOf(t, ':');
            k < |t| && |t| - k - 1 == 2 && AllDigits(t[k + 1..])
  {
    FormatTimeShape(seconds);
    Strings.IndexOfAfterPrefix(NatToString(seconds / 60), ':', TwoDigits(seconds % 60));
  }

  /** Reads an `M:SS` text back into seconds: digits, a colon, and two digits below 60. */
  function ParseTime(t: string): (r: Option<nat>)
    ensures r.Some? ==> ':' in t
  {
    var k := Strings.IndexOf(t, ':');
    if k == |t| then None
    else
      var m, ss := t[..k], t[k + 1..];
      if m != [] && AllDigits(m) && |ss| == 2 && AllDigits(ss) && DigitsValue(ss) < 60
      then Some(DigitsValue(m) * 60 + DigitsValue(ss))
      else None
  }

  /** The formatted text of a non-negative count reads back as that count. */
  lemma FormatTimeRoundTrip(seconds: int)
    requires seconds >= 0
    ensures ParseTime(FormatTime(seconds)) == Some(seconds)
  {
    var m := NatToString(seconds / 60);
    var t := FormatTime(seconds);
    FormatTimeShape(seconds);
    NonDigitNotIn(m, ':');
    Strings.IndexOfAfterPrefix(m, ':', TwoDigits(seconds % 60));
    assert t[..|m|] == m;
    assert t[|m| + 1..] == TwoDigits(seconds % 60);
    DigitsValueOfNatToString(seconds / 60);
  }

  /** Two distinct non-negative counts never show the same text. */
  lemma FormatTimeInjective(a: int, b: int)
    requires a >= 0 && b >= 0 && FormatTime(a) == FormatTime(b)
    ensures a == b
  {
    FormatTimeRoundTrip(a);
    FormatTimeRoundTrip(b);
  }

  /** The initial countdown of both widgets shows as six minutes. */
  lemma SixMinutes()
    ensures FormatTime(360) == "6:00"
  {
    FormatTimeShape(360);
  }

  /** A negative count, which neither widget reaches, falls outside the `M:SS`
      shape: the remainder keeps its sign and still gets the '0' prefix. */
  lemma NegativeSecondsMisformat()
    ensures FormatTime(-1) == "-1:0-1"
  {
    assert NatToString(1) == "1";
  }
}
