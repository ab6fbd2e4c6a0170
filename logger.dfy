/**
 * `parse_size`, which reads the maximum size of the log file: a number with
 * an optional KB, MB or GB suffix, in any case and with surrounding white
 * space. `None` stands for the `ValueError` that `int()` raises.
 */
module Logger {
  import opened Wrappers
  import opened Text

  const Kilo: nat := 1024
  const Mega: nat := 1024 * 1024
  const Giga: nat := 1024 * 1024 * 1024

  /** The suffixes `parse_size` recognises, checked in this order, and what each multiplies by. */
  const Suffixes: seq<string> := ["KB", "MB", "GB"]
  const Multipliers: seq<nat> := [Kilo, Mega, Giga]

  function Times(n: Option<int>, m: nat): (r: Option<int>)
    ensures r.Some? <==> n.Some?
    ensures r.Some? ==> r.value == n.value * m
  {
    if n.Some? then Some(n.value * m) else None
  }

  /** `parse_size(size_str)` */
  function ParseSize(sizeStr: string): Option<int>
  {
    Scaled(Strip(Upper(sizeStr)))
  }

  /** `parse_size` once the text is upper-cased and stripped. */
  function Scaled(s: string): Option<int>
  {
    if EndsWith(s, "KB") then Times(ParseInt(s[..|s| - 2]), Kilo)
    else if EndsWith(s, "MB") then Times(ParseInt(s[..|s| - 2]), Mega)
    else if EndsWith(s, "GB") then Times(ParseInt(s[..|s| - 2]), Giga)
    else ParseInt(s)
  }

  /** Digits are left alone by upper-casing. */
  lemma UpperDigits(d: string)
    requires forall i :: 0 <= i < |d| ==> IsDigit(d[i])
    ensures Upper(d) == d
  {
  }

  /** White space is left alone by upper-casing. */
  lemma UpperSpaces(ws: string)
    requires AllSpace(ws)
    ensures Upper(ws) == ws
  {
  }

  /**
   * A number and a text in any case, surrounded by white space, read once
   * normalised as the number followed by the upper-cased text.
   */
  lemma Normalised(a: string, n: nat, suffix: string, b: string, u: string)
    requires AllSpace(a) && AllSpace(b)
    requires Upper(suffix) == u && u != [] && !IsSpace(u[|u| - 1])
    ensures Strip(Upper(a + NatToDecimal(n) + suffix + b)) == NatToDecimal(n) + u
  {
    var d := NatToDecimal(n);
    UpperDigits(d);
    UpperSpaces(a);
    UpperSpaces(b);
    assert Upper(a + d + suffix + b) == a + (d + u) + b;
    var t := d + u;
    assert !IsSpace(t[0]) && t[|t| - 1] == u[|u| - 1];
    StripPadded(a, t, b);
  }

  /**
   * A number followed by one of the suffixes, in any case and with white
   * space around it, is that many kilo-, mega- or gigabytes.
   */
  lemma ParseSizeScaled(a: string, n: nat, suffix: string, i: nat, b: string)
    requires AllSpace(a) && AllSpace(b)
    requires i < |Suffixes| && Upper(suffix) == Suffixes[i]
    ensures ParseSize(a + NatToDecimal(n) + suffix + b) == Some(n * Multipliers[i])
  {
    var d := NatToDecimal(n);
    var u := Suffixes[i];
    assert u[|u| - 1] == 'B';
    Normalised(a, n, suffix, b, u);
    ScaledSuffix(d, i);
    DecimalRoundTrip(n);
    ParseSizeVia(a + d + suffix + b, d + u);
  }

  lemma ParseSizeVia(x: string, t: string)
    requires Strip(Upper(x)) == t
    ensures ParseSize(x) == Scaled(t)
  {
  }

  lemma ScaledSuffix(d: string, i: nat)
    requires i < |Suffixes| && d != [] && IsDigit(d[|d| - 1])
    ensures Scaled(d + Suffixes[i]) == Times(ParseInt(d), Multipliers[i])
  {
    var t := d + Suffixes[i];
    assert t[..|t| - 2] == d;
    assert t[|t| - 2..] == Suffixes[i];
    assert IsDigit(t[|t| - 3]);
  }

  /** Text that does not end in one of the suffixes goes to `int()` whole. */
  lemma ScaledPlain(t: string)
    requires |t| < 2 || t[|t| - 1] != 'B' || (t[|t| - 2] != 'K' && t[|t| - 2] != 'M' && t[|t| - 2] != 'G')
    ensures Scaled(t) == ParseInt(t)
  {
    if |t| >= 2 {
      var e := t[|t| - 2..];
      assert e == [t[|t| - 2], t[|t| - 1]];
      assert e != "KB" && e != "MB" && e != "GB";
    }
  }

  /** `int()` rejects a stripped text whose last character is not a digit. */
  lemma ParseIntRejects(t: string)
    requires Strip(t) == t && t != [] && !IsDigit(t[|t| - 1])
    ensures ParseInt(t) == None
  {
    var body := if t[0] == '-' || t[0] == '+' then t[1..] else t;
    assert body != [] ==> body[|body| - 1] == t[|t| - 1];
    assert !IsDigitGroups(body);
  }

  /** A number is its own normal form. */
  lemma NormalDigits(n: nat)
    ensures Strip(Upper(NatToDecimal(n))) == NatToDecimal(n)
  {
    var d := NatToDecimal(n);
    UpperDigits(d);
    assert IsDigit(d[0]) && IsDigit(d[|d| - 1]);
    StripUntrimmed(d);
  }

  /** A bare number is a count of bytes. */
  lemma ParseSizeBytes(n: nat)
    ensures ParseSize(NatToDecimal(n)) == Some(n)
  {
    var d := NatToDecimal(n);
    NormalDigits(n);
    ParseSizeVia(d, d);
    assert IsDigit(d[|d| - 1]);
    ScaledPlain(d);
    DecimalRoundTrip(n);
  }

  /** A lone "B" is not a suffix: the whole text goes to `int()`, which rejects it. */
  lemma ParseSizeRejectsBytesSuffix(n: nat)
    ensures ParseSize(NatToDecimal(n) + "B") == None
  {
    var d := NatToDecimal(n);
    var t := d + "B";
    DigitsThenB(d);
    ParseSizeVia(t, t);
    assert t[|t| - 2] == d[|d| - 1];
    ScaledPlain(t);
    ParseIntRejects(t);
  }

  /** Digits followed by "B" are already upper-case and stripped. */
  lemma DigitsThenB(d: string)
    requires |d| >= 1 && forall i :: 0 <= i < |d| ==> IsDigit(d[i])
    ensures Upper(d + "B") == d + "B" && Strip(d + "B") == d + "B" && Strip(Upper(d + "B")) == d + "B"
  {
    var t := d + "B";
    assert forall i :: 0 <= i < |t| ==> Upper(t)[i] == t[i] by {
      forall i | 0 <= i < |t|
        ensures Upper(t)[i] == t[i]
      {
        if i < |d| { assert t[i] == d[i] && IsDigit(d[i]); } else { assert t[i] == 'B'; }
      }
    }
    assert Upper(t) == t;
    assert IsDigit(t[0]) && t[|t| - 1] == 'B';
    StripUntrimmed(t);
  }
}
