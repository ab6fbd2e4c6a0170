/**
 * String operations with the semantics of the Python built-ins the system uses:
 * `str.strip`, `str.upper`/`str.lower` (ASCII letters only), `str.split('\n')`,
 * `sep.join`, `str.replace`, `in`, `startswith`/`endswith`, `int(...)` on a
 * decimal string and `str(n)` for a natural number.
 */
module Text {
  import opened Wrappers

  /** The characters for which Python's `str.isspace` is true. */
  predicate IsSpace(c: char)
  {
    || ('\t' <= c <= '\r') || ('\U{1C}' <= c <= '\U{1F}') || c == ' '
    || c == '\U{85}' || c == '\U{A0}' || c == '\U{1680}'
    || ('\U{2000}' <= c <= '\U{200A}') || c == '\U{2028}' || c == '\U{2029}'
    || c == '\U{202F}' || c == '\U{205F}' || c == '\U{3000}'
  }

  predicate AllSpace(s: string)
  {
    forall i :: 0 <= i < |s| ==> IsSpace(s[i])
  }

  /** `s.lstrip()` */
  function TrimLeft(s: string): (r: string)
    ensures |r| <= |s| && r == s[|s| - |r|..]
    ensures r == [] || !IsSpace(r[0])
    ensures AllSpace(s[..|s| - |r|])
  {
    if s != [] && IsSpace(s[0]) then
      var r := TrimLeft(s[1..]);
      assert s[..|s| - |r|] == [s[0]] + s[1..][..|s| - 1 - |r|];
      assert s[1..][|s| - 1 - |r|..] == s[|s| - |r|..];
      r
    else s
  }

  /** `s.rstrip()` */
  function TrimRight(s: string): (r: string)
    ensures |r| <= |s| && r == s[..|r|]
    ensures r == [] || !IsSpace(r[|r| - 1])
    ensures AllSpace(s[|r|..])
  {
    if s != [] && IsSpace(s[|s| - 1]) then
      var r := TrimRight(s[..|s| - 1]);
      assert s[|r|..] == s[..|s| - 1][|r|..] + [s[|s| - 1]];
      r
    else s
  }

  /** `s.strip()`: a slice of `s` with no white space at either end, all of whose cut-off characters are white space. */
  function Strip(s: string): (r: string)
    ensures |r| <= |s|
    ensures r == [] || (!IsSpace(r[0]) && !IsSpace(r[|r| - 1]))
    ensures r == [] <==> AllSpace(s)
  {
    var l := TrimLeft(s);
    var r := TrimRight(l);
    assert r != [] ==> !IsSpace(r[0]) by {
      if r != [] { assert r[0] == l[0]; }
    }
    assert r == [] ==> AllSpace(s) by {
      if r == [] {
        assert s == s[..|s| - |l|] + l;
        assert l[|r|..] == l;
      }
    }
    r
  }

  /** Python's `not s or not s.strip()`: the string is empty or white space only. */
  predicate IsBlank(s: string)
  {
    Strip(s) == []
  }

  lemma {:induction false} TrimLeftSpaces(ws: string, s: string)
    requires AllSpace(ws) && s != [] && !IsSpace(s[0])
    ensures TrimLeft(ws + s) == s
    decreases |ws|
  {
    if ws == [] {
      assert ws + s == s;
      assert TrimLeft(s) == s;
    } else {
      var t := ws + s;
      assert t[0] == ws[0] && IsSpace(t[0]);
      assert t[1..] == ws[1..] + s;
      assert TrimLeft(t) == TrimLeft(t[1..]);
      TrimLeftSpaces(ws[1..], s);
    }
  }

  lemma {:induction false} TrimRightSpaces(s: string, ws: string)
    requires AllSpace(ws) && s != [] && !IsSpace(s[|s| - 1])
    ensures TrimRight(s + ws) == s
    decreases |ws|
  {
    if ws == [] {
      assert s + ws == s;
      assert TrimRight(s) == s;
    } else {
      var t := s + ws;
      assert t[|t| - 1] == ws[|ws| - 1] && IsSpace(t[|t| - 1]);
      assert t[..|t| - 1] == s + ws[..|ws| - 1];
      assert TrimRight(t) == TrimRight(t[..|t| - 1]);
      TrimRightSpaces(s, ws[..|ws| - 1]);
    }
  }

  /** Stripping removes exactly the white space around a text that neither starts nor ends with white space. */
  lemma StripPadded(a: string, s: string, b: string)
    requires AllSpace(a) && AllSpace(b) && s != [] && !IsSpace(s[0]) && !IsSpace(s[|s| - 1])
    ensures Strip(a + s + b) == s
  {
    assert a + s + b == a + (s + b);
    TrimLeftSpaces(a, s + b);
    TrimRightSpaces(s, b);
  }

  function UpperChar(c: char): char
  {
    if 'a' <= c <= 'z' then (c as int - 32) as char else c
  }

  function LowerChar(c: char): char
  {
    if 'A' <= c <= 'Z' then (c as int + 32) as char else c
  }

  /** `s.upper()` restricted to ASCII letters. */
  function Upper(s: string): (r: string)
    ensures |r| == |s| && forall i :: 0 <= i < |s| ==> r[i] == UpperChar(s[i])
  {
    seq(|s|, i requires 0 <= i < |s| => UpperChar(s[i]))
  }

  /** `s.lower()` restricted to ASCII letters. */
  function Lower(s: string): (r: string)
    ensures |r| == |s| && forall i :: 0 <= i < |s| ==> r[i] == LowerChar(s[i])
  {
    seq(|s|, i requires 0 <= i < |s| => LowerChar(s[i]))
  }

  predicate StartsWith(s: string, p: string)
  {
    |p| <= |s| && s[..|p|] == p
  }

  predicate EndsWith(s: string, p: string)
  {
    |p| <= |s| && s[|s| - |p|..] == p
  }

  /** `p` occurs in `s` starting at index `i`. */
  predicate OccursAt(s: string, p: string, i: nat)
  {
    i + |p| <= |s| && s[i..i + |p|] == p
  }

  /** Python's `p in s`. */
  predicate Contains(s: string, p: string)
  {
    exists i: nat | i <= |s| :: OccursAt(s, p, i)
  }

  /** The first index at or after `from` where `p` occurs in `s`, if any. */
  function FindFrom(s: string, p: string, from: nat): (r: Option<nat>)
    requires from <= |s|
    ensures r.Some? ==> from <= r.value && OccursAt(s, p, r.value)
    ensures r.Some? ==> forall k: nat :: from <= k < r.value ==> !OccursAt(s, p, k)
    ensures r.None? ==> forall k: nat :: from <= k ==> !OccursAt(s, p, k)
    decreases |s| - from
  {
    if |s| - from < |p| then None
    else if s[from..from + |p|] == p then Some(from)
    else FindFrom(s, p, from + 1)
  }

  /** `s.split(c)` for a single-character separator: never empty, pieces free of `c`. */
  function SplitOn(s: string, c: char): (r: seq<string>)
    ensures |r| >= 1
    ensures forall i :: 0 <= i < |r| ==> c !in r[i]
  {
    if c !in s then [s]
    else
      var i := IndexOf(s, c);
      [s[..i]] + SplitOn(s[i + 1..], c)
  }

  function IndexOf(s: string, c: char): (i: nat)
    requires c in s
    ensures i < |s| && s[i] == c && c !in s[..i]
  {
    if s[0] == c then 0 else 1 + IndexOf(s[1..], c)
  }

  /** `sep.join(parts)`. */
  function JoinWith(parts: seq<string>, sep: string): string
  {
    if parts == [] then []
    else if |parts| == 1 then parts[0]
    else parts[0] + sep + JoinWith(parts[1..], sep)
  }

  /** Joining the pieces of a split with the separator restores the string. */
  lemma {:induction false} JoinSplit(s: string, c: char)
    ensures JoinWith(SplitOn(s, c), [c]) == s
    decreases |s|
  {
    if c in s {
      var i := IndexOf(s, c);
      var rest := s[i + 1..];
      var tail := SplitOn(rest, c);
      JoinSplit(rest, c);
      JoinCons(s[..i], tail, [c]);
      assert s == s[..i] + [c] + rest;
    } else {
      assert SplitOn(s, c) == [s];
    }
  }

  /** Joining a first piece onto a non-empty list puts the separator between them. */
  lemma JoinCons(x: string, tail: seq<string>, sep: string)
    requires tail != []
    ensures JoinWith([x] + tail, sep) == x + sep + JoinWith(tail, sep)
  {
    assert ([x] + tail)[1..] == tail;
  }

  /** Splitting a join of separator-free pieces gives the pieces back. */
  lemma {:induction false} SplitJoin(parts: seq<string>, c: char)
    requires |parts| >= 1
    requires forall i :: 0 <= i < |parts| ==> c !in parts[i]
    ensures SplitOn(JoinWith(parts, [c]), c) == parts
  {
    if |parts| > 1 {
      var s := JoinWith(parts, [c]);
      var tail := JoinWith(parts[1..], [c]);
      assert s == parts[0] + [c] + tail;
      var k := |parts[0]|;
      assert s[k] == c;
      assert s[..k] == parts[0];
      var i := IndexOf(s, c);
      assert i == k;
      assert s[..i] == parts[0];
      assert s[i + 1..] == tail;
      SplitJoin(parts[1..], c);
    }
  }

  /** Joining two non-empty lists equals joining their joins. */
  lemma {:induction false} JoinAppend(a: seq<string>, b: seq<string>, sep: string)
    requires a != [] && b != []
    ensures JoinWith(a + b, sep) == JoinWith(a, sep) + sep + JoinWith(b, sep)
  {
    if |a| == 1 {
      assert (a + b)[1..] == b;
    } else {
      assert (a + b)[1..] == a[1..] + b;
      JoinAppend(a[1..], b, sep);
    }
  }

  /** Concatenation of a list of strings without separator. */
  function Concat(parts: seq<string>): string
  {
    if parts == [] then [] else parts[0] + Concat(parts[1..])
  }

  lemma {:induction false} ConcatAppend(a: seq<string>, b: seq<string>)
    ensures Concat(a + b) == Concat(a) + Concat(b)
  {
    if a != [] {
      calc {
        Concat(a + b);
        (a + b)[0] + Concat((a + b)[1..]);
        { assert (a + b)[1..] == a[1..] + b; }
        a[0] + Concat(a[1..] + b);
        { ConcatAppend(a[1..], b); }
        a[0] + (Concat(a[1..]) + Concat(b));
      }
    } else {
      assert a + b == b;
    }
  }

  /** `s.replace(p, x)`: every non-overlapping occurrence of `p`, left to right, becomes `x`. */
  function ReplaceAll(s: string, p: string, x: string): string
    requires p != []
  {
    if |s| < |p| then s
    else if s[..|p|] == p then x + ReplaceAll(s[|p|..], p, x)
    else [s[0]] + ReplaceAll(s[1..], p, x)
  }

  /** A string without the pattern is left alone by replace. */
  lemma {:induction false} ReplaceAbsent(s: string, p: string, x: string)
    requires p != [] && !Contains(s, p)
    ensures ReplaceAll(s, p, x) == s
  {
    if |s| >= |p| {
      assert s[..|p|] != p by { assert !OccursAt(s, p, 0); assert s[0..0 + |p|] == s[..|p|]; }
      assert !Contains(s[1..], p) by {
        if Contains(s[1..], p) {
          var i: nat :| i <= |s[1..]| && OccursAt(s[1..], p, i);
          assert i + |p| <= |s| - 1;
          assert s[1..][i..i + |p|] == s[i + 1..i + 1 + |p|];
          assert OccursAt(s, p, i + 1);
        }
      }
      ReplaceAbsent(s[1..], p, x);
    }
  }

  /** `n * c`: the character repeated. */
  function Repeat(c: char, n: nat): (r: string)
    ensures |r| == n && forall i :: 0 <= i < n ==> r[i] == c
  {
    if n == 0 then [] else [c] + Repeat(c, n - 1)
  }

  predicate IsDigit(c: char)
  {
    '0' <= c <= '9'
  }

  function DigitChar(d: nat): char
    requires d < 10
  {
    ('0' as int + d) as char
  }

  /** `str(n)` for a natural number. */
  function NatToDecimal(n: nat): (r: string)
    ensures |r| >= 1 && forall i :: 0 <= i < |r| ==> IsDigit(r[i])
  {
    if n < 10 then [DigitChar(n)] else NatToDecimal(n / 10) + [DigitChar(n % 10)]
  }

  /**
   * The body of a Python integer literal accepted by `int()`: decimal digits,
   * with single underscores allowed between two digits.
   */
  predicate IsDigitGroups(b: string)
  {
    && |b| >= 1 && IsDigit(b[0]) && IsDigit(b[|b| - 1])
    && (forall i :: 0 <= i < |b| ==> IsDigit(b[i]) || b[i] == '_')
    && (forall i :: 0 <= i < |b| - 1 ==> b[i] == '_' ==> b[i + 1] != '_')
  }

  /** The value of the digits of `b`, underscores skipped. */
  function DigitsValue(b: string): nat
  {
    if b == [] then 0
    else
      var c := b[|b| - 1];
      if IsDigit(c) then 10 * DigitsValue(b[..|b| - 1]) + (c as int - '0' as int)
      else DigitsValue(b[..|b| - 1])
  }

  /** Python's `int(s)` on a string: surrounding white space, an optional sign, then digit groups; `None` is a `ValueError`. */
  function ParseInt(s: string): (r: Option<int>)
    ensures r.Some? ==> !IsBlank(s)
  {
    var t := Strip(s);
    if t == [] then None
    else
      var neg := t[0] == '-';
      var body := if t[0] == '-' || t[0] == '+' then t[1..] else t;
      if !IsDigitGroups(body) then None
      else
        var v: int := DigitsValue(body);
        if neg then Some(-v) else Some(v)
  }

  /** `int(str(n)) == n`. */
  lemma DecimalRoundTrip(n: nat)
    ensures ParseInt(NatToDecimal(n)) == Some(n)
  {
    DecimalValue(n);
    ParseDigits(NatToDecimal(n));
  }

  /** A string of decimal digits parses to its value. */
  lemma ParseDigits(d: string)
    requires |d| >= 1 && forall i :: 0 <= i < |d| ==> IsDigit(d[i])
    ensures ParseInt(d) == Some(DigitsValue(d))
  {
    assert IsDigit(d[0]) && IsDigit(d[|d| - 1]);
    StripUntrimmed(d);
    assert IsDigitGroups(d);
    ParseUnsigned(d);
  }

  /** An unsigned literal with no surrounding white space parses to the value of its digits. */
  lemma ParseUnsigned(d: string)
    requires Strip(d) == d && IsDigitGroups(d) && d[0] != '-' && d[0] != '+'
    ensures ParseInt(d) == Some(DigitsValue(d))
  {
  }

  /** The digits of `str(n)` are worth `n`. */
  lemma {:induction false} DecimalValue(n: nat)
    ensures DigitsValue(NatToDecimal(n)) == n
  {
    var d := NatToDecimal(n);
    if n >= 10 {
      DecimalValue(n / 10);
      assert d[..|d| - 1] == NatToDecimal(n / 10);
    }
  }

  /** A string that neither starts nor ends with white space is its own strip. */
  lemma StripUntrimmed(s: string)
    requires s == [] || (!IsSpace(s[0]) && !IsSpace(s[|s| - 1]))
    ensures Strip(s) == s
  {
  }

  /** A text that starts with a character other than white space is not blank. */
  lemma NotBlankByFirst(s: string)
    requires s != [] && !IsSpace(s[0])
    ensures !IsBlank(s)
  {
    assert !AllSpace(s);
  }
}
