/**
 * public/ui.js: the minute and drive-leg formatting the page shows for each route.
 */
module Ui {
  import opened Wrappers
  import opened Text
  import opened Js

  /**
   * `formatMinutes(value)`. A value is an integer or null/undefined (`None`), which is what
   * the route service sends.
   */
  function FormatMinutes(value: Option<int>): string {
    match value
    case None => "-"
    case Some(v) =>
      if v < 60 then IntToString(v) + " min"
      else
        var hours := v / 60;
        var minutes := v % 60;
        if minutes == 0 then NatToString(hours) + " hr" else NatToString(hours) + " hr " + NatToString(minutes) + " min"
  }

  /** A reading of the three shapes of `FormatMinutes` back into minutes. */
  function ParseMinutes(s: string): Option<int> {
    var k := DigitRunEnd(s, 0);
    if k == 0 then None else ParseUnits(DigitsValue(s[..k]), s[k..])
  }

  /** What follows the leading number `n`: " min", " hr", or " hr " and more minutes. */
  function ParseUnits(n: nat, tail: string): Option<int> {
    if tail == " min" then Some(n)
    else if tail == " hr" then Some(60 * n)
    else if |tail| > 4 && tail[..4] == " hr " then ParseExtraMinutes(n, tail[4..])
    else None
  }

  /** The minutes after `n` hours. */
  function ParseExtraMinutes(hours: nat, t: string): Option<int> {
    var j := DigitRunEnd(t, 0);
    if j > 0 && t[j..] == " min" then Some(60 * hours + DigitsValue(t[..j])) else None
  }

  /** The digits of `NatToString(n)` at the front of `s`, followed by a non-digit, read as `n`. */
  lemma LeadingNumber(n: nat, rest: string)
    requires rest != [] && !IsDigit(rest[0])
    ensures var s := NatToString(n) + rest;
      var k := |NatToString(n)|;
      DigitRunEnd(s, 0) == k && s[..k] == NatToString(n) && s[k..] == rest && DigitsValue(s[..k]) == n
  {
    var s := NatToString(n) + rest;
    var k := |NatToString(n)|;
    assert s[0..k] == NatToString(n);
    DigitRunEndOf(s, 0, k);
    NatToStringRoundTrip(n);
  }

  lemma ParseWholeMinutes(n: nat)
    ensures ParseMinutes(NatToString(n) + " min") == Some(n)
  {
    LeadingNumber(n, " min");
  }

  lemma ParseWholeHours(n: nat)
    ensures ParseMinutes(NatToString(n) + " hr") == Some(60 * n)
  {
    LeadingNumber(n, " hr");
    var s := NatToString(n) + " hr";
    assert s[|NatToString(n)|..] != " min";
  }

  lemma ParseExtra(h: nat, m: nat)
    ensures ParseExtraMinutes(h, NatToString(m) + " min") == Some(60 * h + m)
  {
    LeadingNumber(m, " min");
  }

  lemma ParseHoursUnit(h: nat, t: string)
    requires t != []
    ensures ParseUnits(h, " hr " + t) == ParseExtraMinutes(h, t)
  {
    var tail := " hr " + t;
    assert |tail| > 4;
    assert tail[..4] == " hr " && tail[4..] == t;
  }

  lemma ParseLeading(n: nat, tail: string)
    requires tail != [] && !IsDigit(tail[0])
    ensures ParseMinutes(NatToString(n) + tail) == ParseUnits(n, tail)
  {
    LeadingNumber(n, tail);
  }

  lemma Reassociate(a: string, b: string, c: string, d: string)
    ensures a + b + c + d == a + (b + (c + d))
  {
  }

  lemma ParseHoursAndMinutes(h: nat, m: nat)
    ensures ParseMinutes(NatToString(h) + " hr " + NatToString(m) + " min") == Some(60 * h + m)
  {
    var hs, ms := NatToString(h), NatToString(m);
    var t := ms + " min";
    var tail := " hr " + t;
    Reassociate(hs, " hr ", ms, " min");
    ParseLeading(h, tail);
    ParseHoursUnit(h, t);
    ParseExtra(h, m);
  }

  /**
   * The formatted minutes read back as the minutes formatted: under an hour as minutes,
   * otherwise as whole hours and the remaining minutes.
   */
  lemma FormatMinutesRoundTrip(v: nat)
    ensures ParseMinutes(FormatMinutes(Some(v))) == Some(v)
  {
    if v < 60 {
      ParseWholeMinutes(v);
    } else if v % 60 == 0 {
      ParseWholeHours(v / 60);
    } else {
      ParseHoursAndMinutes(v / 60, v % 60);
    }
  }

  /** A negative count prints as its signed digits and " min", which starts with '-'. */
  lemma NegativeMinutes(v: int)
    requires v < 0
    ensures FormatMinutes(Some(v)) == IntToString(v) + " min" && FormatMinutes(Some(v))[0] == '-'
  {
  }

  /** A count that is not negative prints starting with a digit. */
  lemma NonNegativeMinutesLead(v: nat)
    ensures |FormatMinutes(Some(v))| > 0 && IsDigit(FormatMinutes(Some(v))[0])
  {
    NatToStringRoundTrip(if v < 60 then v else v / 60);
  }

  /** Values that format alike are equal, negative counts included: the formatting loses nothing. */
  lemma FormatMinutesInjective(a: int, b: int)
    requires FormatMinutes(Some(a)) == FormatMinutes(Some(b))
    ensures a == b
  {
    if a < 0 && b < 0 {
      NegativeMinutes(a);
      NegativeMinutes(b);
      var sa, sb := IntToString(a), IntToString(b);
      assert sa == (sa + " min")[..|sa|];
      assert |sa| == |sb|;
      assert sb == (sb + " min")[..|sb|];
      IntToStringInjective(a, b);
    } else if a < 0 {
      NegativeMinutes(a);
      NonNegativeMinutesLead(b);
    } else if b < 0 {
      NegativeMinutes(b);
      NonNegativeMinutesLead(a);
    } else {
      FormatMinutesRoundTrip(a);
      FormatMinutesRoundTrip(b);
    }
  }

  /** The fields a drive leg is read for: its name (any value) and its minutes. */
  datatype DriveLegView = DriveLegView(name: Value, minutes: Option<int>)

  /** `` `${leg.name || "Leg"}: ${formatMinutes(leg.minutes)}` ``. */
  function LegLine(leg: DriveLegView): string {
    (if Truthy(leg.name) then ToJsString(leg.name) else "Leg") + ": " + FormatMinutes(leg.minutes)
  }

  function LegLines(legs: seq<DriveLegView>): (lines: seq<string>)
    ensures |lines| == |legs| && forall i :: 0 <= i < |legs| ==> lines[i] == LegLine(legs[i])
  {
    seq(|legs|, i requires 0 <= i < |legs| => LegLine(legs[i]))
  }

  /** `formatDriveLegs(legs)`; `None` stands for a value that is not an array. */
  function FormatDriveLegs(legs: Option<seq<DriveLegView>>): string {
    if legs.None? || legs.value == [] then "-" else Join(LegLines(legs.value), "\n")
  }

  /** The name a leg line starts with. */
  function LegTitle(leg: DriveLegView): string {
    if Truthy(leg.name) then ToJsString(leg.name) else "Leg"
  }

  lemma FreeConcat(a: string, b: string, c: char)
    requires Free(a, c) && Free(b, c)
    ensures Free(a + b, c)
  {
    forall i | 0 <= i < |a + b| ensures (a + b)[i] != c {
      if i >= |a| {
        assert (a + b)[i] == b[i - |a|];
      }
    }
  }

  lemma FormatMinutesOneLine(value: Option<int>)
    ensures Free(FormatMinutes(value), '\n')
  {
    match value
    case None =>
    case Some(v) =>
      IntToStringFree(v, '\n');
      FreeConcat(IntToString(v), " min", '\n');
      if v >= 60 {
        var h, m := NatToString(v / 60), NatToString(v % 60);
        IntToStringFree(v / 60, '\n');
        IntToStringFree(v % 60, '\n');
        FreeConcat(h, " hr", '\n');
        FreeConcat(h, " hr ", '\n');
        FreeConcat(h + " hr ", m, '\n');
        FreeConcat(h + " hr " + m, " min", '\n');
      }
  }

  /**
   * With no leg name holding a line break, the text has one line per leg, in order, each
   * the leg's name (or "Leg") and its formatted minutes; "-" otherwise stands for no legs.
   */
  lemma DriveLegsLines(legs: seq<DriveLegView>)
    requires forall i :: 0 <= i < |legs| ==> Free(LegTitle(legs[i]), '\n')
    ensures FormatDriveLegs(Some(legs)) == "-" <== legs == []
    ensures legs != [] ==> Split(FormatDriveLegs(Some(legs)), '\n') == LegLines(legs)
    ensures FormatDriveLegs(None) == "-"
  {
    if legs != [] {
      var lines := LegLines(legs);
      forall i | 0 <= i < |lines| ensures Free(lines[i], '\n') {
        FormatMinutesOneLine(legs[i].minutes);
        FreeConcat(LegTitle(legs[i]), ": ", '\n');
        FreeConcat(LegTitle(legs[i]) + ": ", FormatMinutes(legs[i].minutes), '\n');
      }
      SplitJoin(lines, '\n');
    }
  }

  /** A leg without a truthy name is shown as "Leg". */
  lemma UnnamedLeg(minutes: Option<int>)
    ensures LegLine(DriveLegView(Str(""), minutes)) == "Leg: " + FormatMinutes(minutes)
    ensures LegLine(DriveLegView(Undefined, minutes)) == "Leg: " + FormatMinutes(minutes)
  {
  }

  /** The formatter on a few values: 45 minutes, 2 hours, 95 minutes, and null. */
  lemma FormatMinutesExamples()
    ensures FormatMinutes(Some(45)) == "45 min"
    ensures FormatMinutes(Some(120)) == "2 hr"
    ensures FormatMinutes(Some(95)) == "1 hr 35 min"
    ensures FormatMinutes(None) == "-"
  {
    assert NatToString(45) == "45";
    assert IntToString(45) == "45";
    assert NatToString(2) == "2";
    assert 120 / 60 == 2 && 120 % 60 == 0;
    assert NatToString(1) == "1";
    assert NatToString(35) == "35";
    assert 95 / 60 == 1 && 95 % 60 == 35;
  }
}
