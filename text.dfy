/**
 * Decimal rendering and reading of integers, `padStart`, `join`, and the separator
 * facts that make the source's colon-joined cache keys unambiguous.
 */
module Text {

  predicate IsDigit(c: char) {
    '0' <= c <= '9'
  }

  predicate AllDigits(s: string) {
    forall i :: 0 <= i < |s| ==> IsDigit(s[i])
  }

  function DigitChar(d: nat): (c: char)
    requires d < 10
    ensures IsDigit(c)
  {
    ['0', '1', '2', '3', '4', '5', '6', '7', '8', '9'][d]
  }

  function DigitValue(c: char): nat
    requires IsDigit(c)
  {
    (c as int) - ('0' as int)
  }

  /** `String(n)` for a non-negative integer: its decimal digits, no leading zero. */
  function NatToString(n: nat): (s: string)
    ensures |s| >= 1 && AllDigits(s)
    ensures s[0] == '0' ==> s == "0"
    decreases n
  {
    if n < 10 then [DigitChar(n)] else NatToString(n / 10) + [DigitChar(n % 10)]
  }

  /** The number a string of decimal digits denotes (leading zeros allowed). */
  function DigitsValue(s: string): nat
    requires AllDigits(s)
    decreases |s|
  {
    if s == [] then 0 else 10 * DigitsValue(s[..|s| - 1]) + DigitValue(s[|s| - 1])
  }

  /** End of the run of digits that starts at `j`. */
  function DigitRunEnd(s: string, j: nat): (k: nat)
    requires j <= |s|
    ensures j <= k <= |s| && AllDigits(s[j..k]) && (k == |s| || !IsDigit(s[k]))
    decreases |s| - j
  {
    if j < |s| && IsDigit(s[j]) then
      var k := DigitRunEnd(s, j + 1);
      assert s[j..k] == [s[j]] + s[j + 1..k];
      k
    else j
  }

  lemma {:induction false} DigitRunEndOf(s: string, j: nat, len: nat)
    requires j + len <= |s| && AllDigits(s[j..j + len])
    requires j + len == |s| || !IsDigit(s[j + len])
    ensures DigitRunEnd(s, j) == j + len
    decreases len
  {
    if len > 0 {
      assert IsDigit(s[j..j + len][0]);
      assert s[j + 1..j + len] == s[j..j + len][1..];
      DigitRunEndOf(s, j + 1, len - 1);
    }
  }

  lemma DigitValueOfDigitChar(d: nat)
    requires d < 10
    ensures DigitValue(DigitChar(d)) == d
  {
  }

  /** Reading back what `NatToString` wrote gives the number again. */
  lemma {:induction false} NatToStringRoundTrip(n: nat)
    ensures DigitsValue(NatToString(n)) == n
    decreases n
  {
    var s := NatToString(n);
    if n < 10 {
      DigitValueOfDigitChar(n);
      assert s[..|s| - 1] == [];
    } else {
      NatToStringRoundTrip(n / 10);
      DigitValueOfDigitChar(n % 10);
      assert s[..|s| - 1] == NatToString(n / 10);
    }
  }

  lemma NatToStringInjective(a: nat, b: nat)
    requires NatToString(a) == NatToString(b)
    ensures a == b
  {
    NatToStringRoundTrip(a);
    NatToStringRoundTrip(b);
  }

  /** A leading zero does not change the value of a digit string. */
  lemma {:induction false} DigitsValueLeadingZero(s: string)
    requires AllDigits(s)
    ensures AllDigits(['0'] + s) && DigitsValue(['0'] + s) == DigitsValue(s)
    decreases |s|
  {
    var t := ['0'] + s;
    if s == [] {
      assert t[..|t| - 1] == [];
    } else {
      assert t[..|t| - 1] == ['0'] + s[..|s| - 1];
      DigitsValueLeadingZero(s[..|s| - 1]);
    }
  }

  /** `String(i)` for any integer. */
  function IntToString(i: int): string {
    if i < 0 then "-" + NatToString(-i) else NatToString(i)
  }

  lemma IntToStringInjective(a: int, b: int)
    requires IntToString(a) == IntToString(b)
    ensures a == b
  {
    if a < 0 && b < 0 {
      assert NatToString(-a) == IntToString(a)[1..] == IntToString(b)[1..] == NatToString(-b);
      NatToStringInjective(-a, -b);
    } else if a >= 0 && b >= 0 {
      NatToStringInjective(a, b);
    }
  }

  /** `s.padStart(2, "0")`. */
  function PadStart2(s: string): (r: string)
    ensures |s| >= 2 ==> r == s
    ensures |s| < 2 ==> |r| == 2 && r[2 - |s|..] == s && forall i :: 0 <= i < 2 - |s| ==> r[i] == '0'
  {
    if |s| >= 2 then s else if |s| == 1 then ['0'] + s else "00"
  }

  /** A number under 100 padded to two digits reads back as itself. */
  lemma TwoDigits(k: nat)
    requires k < 100
    ensures var p := PadStart2(NatToString(k)); |p| == 2 && AllDigits(p) && DigitsValue(p) == k
  {
    NatToStringRoundTrip(k);
    if k < 10 {
      DigitsValueLeadingZero(NatToString(k));
    } else {
      assert NatToString(k) == NatToString(k / 10) + [DigitChar(k % 10)];
    }
  }

  /** `"%0*d"`-style zero padding of a digit string to at least `width` characters. */
  function PadZeros(s: string, width: nat): (r: string)
    ensures |r| == if |s| >= width then |s| else width
    ensures r[|r| - |s|..] == s && forall i :: 0 <= i < |r| - |s| ==> r[i] == '0'
    decreases width - |s|
  {
    if |s| >= width then s else PadZeros(['0'] + s, width)
  }

  /** `parts.join(sep)`. */
  function Join(parts: seq<string>, sep: string): string {
    if parts == [] then "" else if |parts| == 1 then parts[0] else parts[0] + sep + Join(parts[1..], sep)
  }

  lemma JoinThree(a: string, b: string, c: string, sep: string)
    ensures Join([a, b, c], sep) == a + sep + (b + sep + c)
  {
    assert [a, b, c][1..] == [b, c] && [b, c][1..] == [c];
    assert Join([b, c], sep) == b + sep + c;
  }

  predicate Free(s: string, c: char) {
    forall i :: 0 <= i < |s| ==> s[i] != c
  }

  /** Index of the first `c` in `s`, or `|s|` when there is none. */
  function IndexOf(s: string, c: char): (k: nat)
    ensures k <= |s|
  {
    if s == [] then 0 else if s[0] == c then 0 else 1 + IndexOf(s[1..], c)
  }

  lemma {:induction false} IndexOfAfterFree(a: string, rest: string, c: char)
    requires Free(a, c) && rest != [] && rest[0] == c
    ensures IndexOf(a + rest, c) == |a|
    decreases |a|
  {
    if a != [] {
      assert (a + rest)[1..] == a[1..] + rest;
      IndexOfAfterFree(a[1..], rest, c);
    }
  }

  /**
   * A separator that occurs in neither left-hand part splits a concatenation uniquely:
   * `a + [c] + b == a' + [c] + b'` forces `a == a'` and `b == b'`.
   */
  lemma SplitAtSeparator(a: string, b: string, a': string, b': string, c: char)
    requires Free(a, c) && Free(a', c)
    requires a + [c] + b == a' + [c] + b'
    ensures a == a' && b == b'
  {
    var s := a + [c] + b;
    IndexOfAfterFree(a, [c] + b, c);
    IndexOfAfterFree(a', [c] + b', c);
    assert a + [c] + b == a + ([c] + b);
    assert a' + [c] + b' == a' + ([c] + b');
    assert a == s[..|a|] == a';
    assert b == s[|a| + 1..] == b';
  }

  lemma IntToStringFree(i: int, c: char)
    requires !IsDigit(c) && c != '-'
    ensures Free(IntToString(i), c)
  {
  }

  /** `s.split(c)`: the pieces between the occurrences of `c`. */
  function Split(s: string, c: char): (parts: seq<string>)
    ensures |parts| >= 1
    decreases |s|
  {
    var k := IndexOf(s, c);
    if k == |s| then [s] else [s[..k]] + Split(s[k + 1..], c)
  }

  lemma {:induction false} IndexOfFree(s: string, c: char)
    requires Free(s, c)
    ensures IndexOf(s, c) == |s|
    decreases |s|
  {
    if s != [] {
      IndexOfFree(s[1..], c);
    }
  }

  /** Splitting at a separator no part contains gives the joined parts back. */
  lemma {:induction false} SplitJoin(parts: seq<string>, c: char)
    requires |parts| >= 1 && forall i :: 0 <= i < |parts| ==> Free(parts[i], c)
    ensures Split(Join(parts, [c]), c) == parts
    decreases |parts|
  {
    if |parts| == 1 {
      IndexOfFree(parts[0], c);
    } else {
      var rest := Join(parts[1..], [c]);
      var s := parts[0] + [c] + rest;
      assert Join(parts, [c]) == s;
      IndexOfAfterFree(parts[0], [c] + rest, c);
      assert s == parts[0] + ([c] + rest);
      assert s[..|parts[0]|] == parts[0];
      assert s[|parts[0]| + 1..] == rest;
      SplitJoin(parts[1..], c);
      assert parts == [parts[0]] + parts[1..];
    }
  }
}
