/**
 * src/services/dateUtils.js: reading the ferry provider's timestamps, whole-minute
 * differences, and the `YYYY-MM-DD` trip date.
 */
module DateUtils {
  import opened Wrappers
  import opened Text
  import opened Js

  /**
   * What `parseWsdotDate` may be handed: a decoded JSON value, or a `Date` object given
   * by its time value (NaN for an invalid date).
   */
  datatype DateInput = Plain(v: Value) | DateObject(time: Num)

  const DatePrefix: string := "/Date("

  /** `)/` at position `k`. */
  predicate ClosesAt(s: string, k: nat) {
    k + 1 < |s| && s[k] == ')' && s[k + 1] == '/'
  }

  /**
   * The regular expression `/\/Date\((\d+)([+-]\d+)?\)\//` matched at position `i`:
   * the value of the first digit group, or `None`. Both digit groups are maximal runs,
   * because no backtracking into them can make the rest match.
   */
  function TokenAt(s: string, i: nat): Option<nat>
    requires i <= |s|
  {
    if |s| - i < |DatePrefix| || s[i..i + |DatePrefix|] != DatePrefix then None
    else
      var j := i + |DatePrefix|;
      var k := DigitRunEnd(s, j);
      if k == j then None
      else if ClosesAt(s, k) then Some(DigitsValue(s[j..k]))
      else if k < |s| && (s[k] == '+' || s[k] == '-') then
        var m := DigitRunEnd(s, k + 1);
        if m > k + 1 && ClosesAt(s, m) then Some(DigitsValue(s[j..k])) else None
      else None
  }

  /** `s.match(...)`: the leftmost position from `from` on where the expression matches. */
  function FindDateToken(s: string, from: nat): Option<nat>
    requires from <= |s|
    decreases |s| - from
  {
    var t := TokenAt(s, from);
    if t.Some? then t else if from == |s| then None else FindDateToken(s, from + 1)
  }

  /**
   * `parseWsdotDate(value)`. `parseDate` is the host's `new Date(string)` time value,
   * which this model does not define; NaN stands for an invalid date.
   */
  function ParseWsdotDate(input: DateInput, parseDate: string -> Num): (r: Option<Num>)
    ensures input.DateObject? ==> r == Some(input.time)
    ensures input.Plain? && !Truthy(input.v) ==> r.None?
    ensures input.Plain? && input.v.Number? && input.v.n != 0 ==> r == Some(Int(input.v.n))
    ensures input.Plain? && r.Some? ==> input.v.Number? || input.v.Str?
  {
    match input
    case DateObject(t) => Some(t)
    case Plain(v) =>
      if !Truthy(v) then None
      else
        match v
        case Number(n) => Some(Int(n))
        case Str(s) =>
          (match FindDateToken(s, 0)
           case Some(n) => Some(Int(n))
           case None =>
             var parsed := parseDate(s);
             if parsed.NaN? then None else Some(parsed))
        case Undefined => None
        case Null => None
        case Bool(_) => None
        case Arr(_) => None
        case Obj(_) => None
  }

  /** The digits right after `/Date(` at the start of `s` end at `k`. */
  lemma LeadingDigits(n: nat, rest: string) returns (k: nat)
    requires rest != [] && !IsDigit(rest[0])
    ensures var s := DatePrefix + NatToString(n) + rest;
      k == |DatePrefix| + |NatToString(n)| && k < |s| && s[k..] == rest
      && |s| >= |DatePrefix| && s[..|DatePrefix|] == DatePrefix
      && DigitRunEnd(s, |DatePrefix|) == k && AllDigits(s[|DatePrefix|..k])
      && DigitsValue(s[|DatePrefix|..k]) == n
  {
    var d := NatToString(n);
    var s := DatePrefix + d + rest;
    k := |DatePrefix| + |d|;
    assert s[|DatePrefix|..k] == d;
    assert s[k..] == rest;
    DigitRunEndOf(s, |DatePrefix|, |d|);
    NatToStringRoundTrip(n);
  }

  /** `/Date(N)/` reads as the instant `N` ms. */
  lemma LegacyTokenParses(n: nat, parseDate: string -> Num)
    ensures ParseWsdotDate(Plain(Str(DatePrefix + NatToString(n) + ")/")), parseDate) == Some(Int(n))
  {
    var s := DatePrefix + NatToString(n) + ")/";
    var k := LeadingDigits(n, ")/");
    assert ClosesAt(s, k);
    assert TokenAt(s, 0) == Some(n);
  }

  lemma TokenWithOffsetAt(s: string, k: nat, m: nat)
    requires |s| >= |DatePrefix| && s[..|DatePrefix|] == DatePrefix
    requires k > |DatePrefix| && DigitRunEnd(s, |DatePrefix|) == k
    requires k < |s| && (s[k] == '+' || s[k] == '-')
    requires m > k + 1 && DigitRunEnd(s, k + 1) == m && ClosesAt(s, m)
    ensures TokenAt(s, 0) == Some(DigitsValue(s[|DatePrefix|..k]))
  {
    assert !ClosesAt(s, k);
  }

  /** An offset `[+-]digits` followed by `)/` from position `k` on. */
  lemma OffsetFrom(s: string, k: nat, sign: char, offset: string) returns (m: nat)
    requires k <= |s| && s[k..] == [sign] + offset + ")/"
    requires offset != [] && AllDigits(offset)
    ensures k < |s| && s[k] == sign
    ensures m > k + 1 && DigitRunEnd(s, k + 1) == m && ClosesAt(s, m)
  {
    m := k + 1 + |offset|;
    var t := s[k..];
    assert t[0] == sign;
    assert t[1..1 + |offset|] == offset;
    assert t[1 + |offset|] == ')' && t[2 + |offset|] == '/';
    assert s[k + 1..m] == t[1..1 + |offset|];
    DigitRunEndOf(s, k + 1, |offset|);
  }

  lemma OffsetTokenFound(n: nat, sign: char, offset: string)
    requires sign == '+' || sign == '-'
    requires offset != [] && AllDigits(offset)
    ensures FindDateToken(DatePrefix + NatToString(n) + ([sign] + offset + ")/"), 0) == Some(n)
  {
    var rest := [sign] + offset + ")/";
    var s := DatePrefix + NatToString(n) + rest;
    var k := LeadingDigits(n, rest);
    var m := OffsetFrom(s, k, sign, offset);
    TokenWithOffsetAt(s, k, m);
    assert TokenAt(s, 0) == Some(n);
  }

  /** `/Date(N+HHMM)/` and `/Date(N-HHMM)/` read as the instant `N` ms: the offset is ignored. */
  lemma LegacyTokenWithOffsetParses(n: nat, sign: char, offset: string, parseDate: string -> Num)
    requires sign == '+' || sign == '-'
    requires offset != [] && AllDigits(offset)
    ensures ParseWsdotDate(Plain(Str(DatePrefix + NatToString(n) + ([sign] + offset + ")/"))), parseDate) == Some(Int(n))
  {
    var s := DatePrefix + NatToString(n) + ([sign] + offset + ")/");
    OffsetTokenFound(n, sign, offset);
    assert |s| > 0;
  }

  /** A string in which the expression matches anywhere is read as the first match's value. */
  lemma MatchedTokenParses(s: string, n: nat, parseDate: string -> Num)
    requires FindDateToken(s, 0) == Some(n)
    ensures ParseWsdotDate(Plain(Str(s)), parseDate) == Some(Int(n))
  {
    FoundTokenNonEmpty(s, 0);
  }

  lemma {:induction false} FoundTokenNonEmpty(s: string, from: nat)
    requires from <= |s| && FindDateToken(s, from).Some?
    ensures |s| > 0
    decreases |s| - from
  {
    if TokenAt(s, from).None? {
      FoundTokenNonEmpty(s, from + 1);
    }
  }

  /** The match found is the one at the leftmost position where the expression matches. */
  lemma {:induction false} LeftmostToken(s: string, from: nat, k: nat)
    requires from <= k <= |s| && TokenAt(s, k).Some?
    requires forall i :: from <= i < k ==> TokenAt(s, i).None?
    ensures FindDateToken(s, from) == TokenAt(s, k)
    decreases k - from
  {
    if from < k {
      LeftmostToken(s, from + 1, k);
    }
  }

  /** An optional offset: nothing, or a sign followed by one or more digits. */
  predicate OffsetText(o: string) {
    o == [] || (|o| >= 2 && (o[0] == '+' || o[0] == '-') && AllDigits(o[1..]))
  }

  /** Slicing inside the left part of a concatenation. */
  lemma SliceLeft(a: string, b: string, p: nat, q: nat)
    requires p <= q <= |a|
    ensures (a + b)[p..q] == a[p..q]
  {
  }

  /** Where the pieces of a token laid out after `pre` sit. */
  lemma TokenLayout(pre: string, digits: string, offset: string, rest: string)
    ensures var s := pre + DatePrefix + digits + offset + ")/" + rest;
      var j := |pre| + |DatePrefix|;
      var k := j + |digits|;
      var m := k + |offset|;
      && m + 1 < |s| && s[m] == ')' && s[m + 1] == '/'
      && s[|pre|..j] == DatePrefix && s[j..k] == digits && s[k..m] == offset
  {
    var a := pre + DatePrefix;
    var b := a + digits;
    var c := b + offset;
    var d := c + ")/";
    var j := |pre| + |DatePrefix|;
    var k := j + |digits|;
    var m := k + |offset|;
    assert a[|pre|..j] == DatePrefix;
    assert b[j..k] == digits;
    assert c[k..m] == offset;
    SliceLeft(a, digits, |pre|, j);
    SliceLeft(b, offset, |pre|, j);
    SliceLeft(b, offset, j, k);
    SliceLeft(c, ")/", |pre|, j);
    SliceLeft(c, ")/", j, k);
    SliceLeft(c, ")/", k, m);
    SliceLeft(d, rest, |pre|, j);
    SliceLeft(d, rest, j, k);
    SliceLeft(d, rest, k, m);
    assert d[m] == ')' && d[m + 1] == '/';
  }

  /** A token without an offset at position `i`. */
  lemma PlainTokenAt(s: string, i: nat, k: nat)
    requires i + |DatePrefix| <= |s| && s[i..i + |DatePrefix|] == DatePrefix
    requires k > i + |DatePrefix| && DigitRunEnd(s, i + |DatePrefix|) == k && ClosesAt(s, k)
    ensures TokenAt(s, i) == Some(DigitsValue(s[i + |DatePrefix|..k]))
  {
  }

  /** A token with an offset at position `i`. */
  lemma OffsetTokenAt(s: string, i: nat, k: nat, m: nat)
    requires i + |DatePrefix| <= |s| && s[i..i + |DatePrefix|] == DatePrefix
    requires k > i + |DatePrefix| && DigitRunEnd(s, i + |DatePrefix|) == k
    requires k < |s| && (s[k] == '+' || s[k] == '-')
    requires m > k + 1 && DigitRunEnd(s, k + 1) == m && ClosesAt(s, m)
    ensures TokenAt(s, i) == Some(DigitsValue(s[i + |DatePrefix|..k]))
  {
    assert !ClosesAt(s, k);
  }

  /** The digits of a token at position `i` of `s` end at `k`, where a non-digit follows. */
  lemma TokenDigits(s: string, i: nat, digits: string, k: nat)
    requires digits != [] && AllDigits(digits)
    requires k == i + |DatePrefix| + |digits| < |s| && !IsDigit(s[k])
    requires s[i + |DatePrefix|..k] == digits
    ensures DigitRunEnd(s, i + |DatePrefix|) == k
  {
    DigitRunEndOf(s, i + |DatePrefix|, |digits|);
  }

  /** The pieces of a token at position `i` of `s`, read back as a match. */
  lemma TokenFromLayout(s: string, i: nat, digits: string, offset: string, k: nat, m: nat)
    requires digits != [] && AllDigits(digits) && OffsetText(offset)
    requires k == i + |DatePrefix| + |digits| && m == k + |offset|
    requires m + 1 < |s| && s[m] == ')' && s[m + 1] == '/'
    requires s[i..i + |DatePrefix|] == DatePrefix && s[i + |DatePrefix|..k] == digits && s[k..m] == offset
    ensures TokenAt(s, i) == Some(DigitsValue(digits))
  {
    if offset == [] {
      TokenDigits(s, i, digits, k);
      PlainTokenAt(s, i, k);
    } else {
      var o := s[k..m];
      assert s[k] == o[0];
      TokenDigits(s, i, digits, k);
      assert s[k + 1..m] == o[1..];
      DigitRunEndOf(s, k + 1, |offset| - 1);
      OffsetTokenAt(s, i, k, m);
    }
  }

  /**
   * `/Date(` then a digit run (leading zeros allowed), an optional offset and `)/` at
   * position `|pre|` of `s`, whatever follows, is a match with the digits' value.
   */
  lemma TokenAtPosition(pre: string, digits: string, offset: string, rest: string)
    requires digits != [] && AllDigits(digits) && OffsetText(offset)
    ensures TokenAt(pre + DatePrefix + digits + offset + ")/" + rest, |pre|) == Some(DigitsValue(digits))
  {
    TokenLayout(pre, digits, offset, rest);
    var k := |pre| + |DatePrefix| + |digits|;
    TokenFromLayout(pre + DatePrefix + digits + offset + ")/" + rest, |pre|, digits, offset, k, k + |offset|);
  }

  /**
   * `/Date(N)/` or `/Date(N±HHMM)/` anywhere in a string, with no earlier position where the
   * expression matches, is read as the instant given by the digits N, leading zeros included;
   * the text around it and the offset are ignored.
   */
  lemma EmbeddedTokenParses(pre: string, digits: string, offset: string, rest: string, parseDate: string -> Num)
    requires digits != [] && AllDigits(digits) && OffsetText(offset)
    requires forall i :: 0 <= i < |pre| ==> TokenAt(pre + DatePrefix + digits + offset + ")/" + rest, i).None?
    ensures ParseWsdotDate(Plain(Str(pre + DatePrefix + digits + offset + ")/" + rest)), parseDate)
         == Some(Int(DigitsValue(digits)))
  {
    var s := pre + DatePrefix + digits + offset + ")/" + rest;
    TokenAtPosition(pre, digits, offset, rest);
    LeftmostToken(s, 0, |pre|);
    MatchedTokenParses(s, DigitsValue(digits), parseDate);
  }

  /** Text without a slash holds no match, so a token after it is the one read. */
  lemma NoTokenBeforeSlash(pre: string, tail: string)
    requires Free(pre, '/')
    ensures forall i :: 0 <= i < |pre| ==> TokenAt(pre + tail, i).None?
  {
    forall i | 0 <= i < |pre| ensures TokenAt(pre + tail, i).None? {
      assert (pre + tail)[i] == pre[i];
    }
  }

  /** `diffMinutes(earlier, later)`: null when either is missing, else the rounded minutes. */
  function DiffMinutes(earlier: Option<Num>, later: Option<Num>): (r: Option<Num>)
    ensures r.None? <==> earlier.None? || later.None?
  {
    if earlier.None? || later.None? then None
    else Some(RoundDiv(Sub(later.value, earlier.value), 60000))
  }

  /**
   * For two valid instants the result is the whole number of minutes nearest to their
   * distance (halves rounded up): zero for equal instants, never negative when `later`
   * is not before `earlier`.
   */
  lemma DiffMinutesMeaning(earlier: int, later: int)
    ensures var r := DiffMinutes(Some(Int(earlier)), Some(Int(later)));
      r.Some? && r.value.Int?
      && 2 * r.value.i * 60000 - 60000 <= 2 * (later - earlier) < 2 * r.value.i * 60000 + 60000
      && (earlier == later ==> r.value.i == 0)
      && (earlier <= later ==> r.value.i >= 0)
  {
  }

  /** The local calendar fields of a `Date`: `getFullYear()`, `getMonth()` (from 0), `getDate()`. */
  datatype LocalDate = LocalDate(year: int, month0: int, day: int)

  /** `formatTripDate(date)`. */
  function FormatTripDate(date: Option<LocalDate>): Option<string> {
    match date
    case None => None
    case Some(d) =>
      Some(IntToString(d.year) + "-" + PadStart2(IntToString(d.month0 + 1)) + "-" + PadStart2(IntToString(d.day)))
  }

  /** Reads a `YYYY-MM-DD` string (a year of one or more digits) back into calendar fields. */
  function ParseTripDate(s: string): Option<LocalDate> {
    var parts := Split(s, '-');
    if |parts| == 3 && parts[0] != [] && |parts[1]| == 2 && |parts[2]| == 2
      && AllDigits(parts[0]) && AllDigits(parts[1]) && AllDigits(parts[2])
    then Some(LocalDate(DigitsValue(parts[0]), DigitsValue(parts[1]) - 1, DigitsValue(parts[2])))
    else None
  }

  /**
   * The trip date is `YYYY-MM-DD` with the month counted from 1 and month and day padded
   * to two digits: reading it back gives the calendar fields it was made from.
   */
  lemma TripDateRoundTrip(d: LocalDate)
    requires d.year >= 0 && 0 <= d.month0 < 12 && 1 <= d.day <= 31
    ensures FormatTripDate(Some(d)).Some?
    ensures ParseTripDate(FormatTripDate(Some(d)).value) == Some(d)
  {
    var y := NatToString(d.year);
    var m := PadStart2(NatToString(d.month0 + 1));
    var dd := PadStart2(NatToString(d.day));
    TwoDigits(d.month0 + 1);
    TwoDigits(d.day);
    NatToStringRoundTrip(d.year);
    assert FormatTripDate(Some(d)).value == y + "-" + m + "-" + dd;
    SplitDate(y, m, dd);
  }

  lemma DigitsFree(s: string)
    requires AllDigits(s)
    ensures Free(s, '-')
  {
    forall i | 0 <= i < |s| ensures s[i] != '-' {
      assert IsDigit(s[i]);
    }
  }

  /** Digit runs joined by dashes split back into those runs. */
  lemma SplitDate(y: string, m: string, dd: string)
    requires AllDigits(y) && AllDigits(m) && AllDigits(dd)
    ensures Split(y + "-" + m + "-" + dd, '-') == [y, m, dd]
  {
    DigitsFree(y);
    DigitsFree(m);
    DigitsFree(dd);
    JoinThree(y, m, dd, "-");
    assert y + "-" + m + "-" + dd == Join([y, m, dd], ['-']);
    SplitJoin([y, m, dd], '-');
  }
}
