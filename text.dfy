/**
 * The string operations the pipeline relies on: decimal rendering of numbers
 * (template literals and `padStart(2, '0')`), reading a decimal number back,
 * `String.prototype.includes`, upper-casing the first character, and
 * `split('.')[0]`.
 */
module Text {
  import opened Wrappers

  predicate IsDigit(c: char) {
    '0' <= c <= '9'
  }

  predicate AllDigits(s: string) {
    forall i :: 0 <= i < |s| ==> IsDigit(s[i])
  }

  function DigitChar(d: nat): (c: char)
    requires d < 10
    ensures IsDigit(c)
  {
    ['0', '1', '2', '3', '4', '5', '6', '7', '8', '9'][d]
  }

  function DigitValue(c: char): (d: nat)
    requires IsDigit(c)
    ensures d < 10
  {
    (c as int - '0' as int) as nat
  }

  lemma DigitRoundTrip(d: nat)
    requires d < 10
    ensures DigitValue(DigitChar(d)) == d
  {
  }

  /** The decimal text of `n`, as a template literal renders a non-negative integer. */
  function NatToString(n: nat): (r: string)
    ensures |r| >= 1 && AllDigits(r)
    ensures |r| == 1 <==> n < 10
    ensures n > 0 ==> r[0] != '0'
  {
    if n < 10 then [DigitChar(n)] else NatToString(n / 10) + [DigitChar(n % 10)]
  }

  /** The value of a string of decimal digits, leading zeros allowed. */
  function DigitsValue(s: string): nat
    requires AllDigits(s)
  {
    if s == [] then 0 else 10 * DigitsValue(s[..|s| - 1]) + DigitValue(s[|s| - 1])
  }

  lemma {:induction false} NatToStringValue(n: nat)
    ensures DigitsValue(NatToString(n)) == n
  {
    var r := NatToString(n);
    if n < 10 {
      DigitRoundTrip(n);
    } else {
      assert r[..|r| - 1] == NatToString(n / 10);
      NatToStringValue(n / 10);
      DigitRoundTrip(n % 10);
    }
  }

  /** A leading zero does not change the value of a digit string. */
  lemma {:induction false} LeadingZeroValue(s: string)
    requires AllDigits(s)
    ensures AllDigits("0" + s) && DigitsValue("0" + s) == DigitsValue(s)
  {
    if s != [] {
      assert ("0" + s)[..|"0" + s| - 1] == "0" + s[..|s| - 1];
      LeadingZeroValue(s[..|s| - 1]);
    }
  }

  /** `String(n).padStart(2, '0')`. */
  function Pad2(n: nat): (r: string)
    ensures |r| >= 2 && AllDigits(r)
    ensures n < 100 ==> |r| == 2
    ensures n >= 10 ==> r[0] != '0'
    ensures DigitsValue(r) == n
  {
    NatToStringValue(n);
    if n < 10 then
      LeadingZeroValue(NatToString(n));
      "0" + NatToString(n)
    else
      NatToString(n)
  }

  /** The number of leading decimal digits of `s`. */
  function DigitRun(s: string): (k: nat)
    ensures k <= |s| && AllDigits(s[..k])
    ensures k < |s| ==> !IsDigit(s[k])
  {
    if s == [] || !IsDigit(s[0]) then 0
    else
      var k := 1 + DigitRun(s[1..]);
      assert s[..k] == [s[0]] + s[1..][..k - 1];
      k
  }

  lemma {:induction false} DigitRunOf(d: string, rest: string)
    requires AllDigits(d)
    requires rest == [] || !IsDigit(rest[0])
    ensures DigitRun(d + rest) == |d|
  {
    if d != [] {
      assert (d + rest)[1..] == d[1..] + rest;
      DigitRunOf(d[1..], rest);
    }
  }

  /** Reads the longest run of leading digits as a number and returns it with the rest of the text. */
  function ParseNat(s: string): Option<(nat, string)>
  {
    var k := DigitRun(s);
    if k == 0 then None else Some((DigitsValue(s[..k]), s[k..]))
  }

  /** Reading back a number rendered by `NatToString` or `Pad2` recovers the number and the text after it. */
  lemma ParseDigits(d: string, n: nat, rest: string)
    requires AllDigits(d) && |d| >= 1 && DigitsValue(d) == n
    requires rest == [] || !IsDigit(rest[0])
    ensures ParseNat(d + rest) == Some((n, rest))
  {
    DigitRunOf(d, rest);
    assert (d + rest)[..|d|] == d;
    assert (d + rest)[|d|..] == rest;
  }

  lemma ParseNatToString(n: nat, rest: string)
    requires rest == [] || !IsDigit(rest[0])
    ensures ParseNat(NatToString(n) + rest) == Some((n, rest))
  {
    NatToStringValue(n);
    ParseDigits(NatToString(n), n, rest);
  }

  /** `s.startsWith(p)`, returning the text after the prefix. */
  function After(p: string, s: string): (r: Option<string>)
    ensures r.Some? <==> |p| <= |s| && s[..|p|] == p
    ensures r.Some? ==> s == p + r.value
  {
    if |p| <= |s| && s[..|p|] == p then Some(s[|p|..]) else None
  }

  lemma AfterPrefix(p: string, rest: string)
    ensures After(p, p + rest) == Some(rest)
  {
    assert (p + rest)[..|p|] == p;
    assert (p + rest)[|p|..] == rest;
  }

  /** `d` occurs in `h` starting at position `i`. */
  predicate OccursAt(d: string, h: string, i: nat) {
    i + |d| <= |h| && h[i..i + |d|] == d
  }

  /** `h.includes(d)`, stated as the existence of a position where `d` occurs. */
  ghost predicate OccursIn(d: string, h: string) {
    exists i: nat :: OccursAt(d, h, i)
  }

  /** `h.includes(d)`, computed by scanning `h` from the left. */
  function Includes(h: string, d: string): (b: bool)
    ensures b <==> OccursIn(d, h)
  {
    if |h| < |d| then
      assert forall i: nat :: !OccursAt(d, h, i);
      false
    else if h[..|d|] == d then
      assert OccursAt(d, h, 0);
      true
    else
      var b := Includes(h[1..], d);
      if b then
        var i: nat :| OccursAt(d, h[1..], i);
        assert h[i + 1..i + 1 + |d|] == h[1..][i..i + |d|];
        assert OccursAt(d, h, i + 1);
        true
      else
        assert !OccursIn(d, h) by {
          forall i: nat
            ensures !OccursAt(d, h, i)
          {
            if i > 0 && i + |d| <= |h| {
              assert h[i..i + |d|] == h[1..][i - 1..i - 1 + |d|] by {
                var u, v := h[i..i + |d|], h[1..][i - 1..i - 1 + |d|];
                assert forall k :: 0 <= k < |u| ==> u[k] == v[k];
              }
              assert !OccursAt(d, h[1..], i - 1);
            }
          }
        }
        false
  }

  /** A string that holds a character the host text lacks does not occur in it. */
  lemma OccursChars(d: string, h: string, c: char)
    requires c in d && c !in h
    ensures !Includes(h, d)
  {
    forall i: nat
      ensures !OccursAt(d, h, i)
    {
      var j :| 0 <= j < |d| && d[j] == c;
      if i + |d| <= |h| {
        assert h[i..i + |d|][j] == h[i + j];
      }
    }
  }

  lemma IncludesAt(h: string, d: string, i: nat)
    requires OccursAt(d, h, i)
    ensures Includes(h, d)
  {
  }

  /** `c.toUpperCase()` for the ASCII letters; every other character is returned unchanged. */
  function UpperChar(c: char): (u: char)
    ensures 'a' <= c <= 'z' ==> 'A' <= u <= 'Z' && u as int == c as int - 32
    ensures !('a' <= c <= 'z') ==> u == c
  {
    if 'a' <= c <= 'z' then (c as int - 32) as char else c
  }

  /** `name.charAt(0).toUpperCase() + name.slice(1)`. */
  function Capitalize(name: string): (r: string)
    ensures |r| == |name|
    ensures name != [] ==> r[0] == UpperChar(name[0]) && r[1..] == name[1..]
  {
    if name == [] then [] else [UpperChar(name[0])] + name[1..]
  }

  /** `h.split('.')[0]`: the text before the first dot, or all of `h` when it has none. */
  function FirstLabel(h: string): (r: string)
    ensures |r| <= |h| && h[..|r|] == r
    ensures '.' !in r
    ensures |r| < |h| ==> h[|r|] == '.'
  {
    if h == [] || h[0] == '.' then []
    else
      var r := [h[0]] + FirstLabel(h[1..]);
      assert h[..|r|] == [h[0]] + h[1..][..|r| - 1];
      r
  }
}
