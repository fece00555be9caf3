/**
 * take_me_home/routes.py: the sailing schedules on the anchor's date and the three
 * candidate routes from SeaTac to the Hood Canal Bridge.
 */
module Routes {
  import opened Wrappers
  import opened Text
  import opened TravelTime

  const Hour: int := 60 * Minute

  /** `int(s)` for unsigned decimal spellings; anything else raises `ValueError`. */
  function ParseInt(s: string): (r: Result<nat, string>)
    ensures r.Ok? <==> s != [] && AllDigits(s)
    ensures r.Ok? ==> r.value == DigitsValue(s)
    ensures r.Err? ==> r.error == "invalid literal for int() with base 10: '" + s + "'"
  {
    if s != [] && AllDigits(s) then Ok(DigitsValue(s))
    else Err("invalid literal for int() with base 10: '" + s + "'")
  }

  /**
   * The time of day that `anchor.replace(hour=int(t[:2]), minute=int(t[3:]), second=0,
   * microsecond=0)` sets, as an offset from midnight: the hour is read first, then the
   * minute, then `replace` checks the hour's range and then the minute's.
   */
  function ClockTime(t: string): (r: Result<int, string>)
    ensures r.Ok? ==> 0 <= r.value < Day && r.value % Minute == 0
  {
    var hour := ParseInt(t[..if |t| < 2 then |t| else 2]);
    var minute := ParseInt(t[if |t| < 3 then |t| else 3..]);
    if hour.Err? then Err(hour.error)
    else if minute.Err? then Err(minute.error)
    else if hour.value > 23 then Err("hour must be in 0..23")
    else if minute.value > 59 then Err("minute must be in 0..59")
    else
      var h, m := hour.value, minute.value;
      assert h * 3600000000 + m * 60000000 == (h * 60 + m) * 60000000;
      Ok(h * Hour + m * Minute)
  }

  /** Midnight of the day `t` falls on. */
  function DayStart(t: int): (r: int)
    ensures r <= t < r + Day && r % Day == 0
  {
    t - t % Day
  }

  /** `_schedule`: each entry placed on the anchor's date; the first entry that fails raises. */
  function Schedule(anchor: int, hhmm: seq<string>): Result<seq<int>, string> {
    if hhmm == [] then Ok([])
    else
      var first := ClockTime(hhmm[0]);
      if first.Err? then Err(first.error)
      else
        var rest := Schedule(anchor, hhmm[1..]);
        if rest.Err? then rest else Ok([DayStart(anchor) + first.value] + rest.value)
  }

  /**
   * The schedule holds one time per entry, in order, each the entry's time of day on the
   * anchor's date, when every entry reads; otherwise it reports the first that does not.
   */
  lemma {:induction false} ScheduleEntries(anchor: int, hhmm: seq<string>)
    ensures var r := Schedule(anchor, hhmm);
      && (r.Ok? <==> forall i :: 0 <= i < |hhmm| ==> ClockTime(hhmm[i]).Ok?)
      && (r.Ok? ==> |r.value| == |hhmm|
                    && forall i :: 0 <= i < |hhmm| ==> r.value[i] == DayStart(anchor) + ClockTime(hhmm[i]).value)
  {
    if hhmm != [] {
      ScheduleEntries(anchor, hhmm[1..]);
      assert forall i :: 1 <= i < |hhmm| ==> hhmm[i] == hhmm[1..][i - 1];
    }
  }

  /** The first entry that does not read is the one reported. */
  lemma {:induction false} ScheduleFirstError(anchor: int, hhmm: seq<string>, k: nat)
    requires k < |hhmm| && ClockTime(hhmm[k]).Err?
    requires forall i :: 0 <= i < k ==> ClockTime(hhmm[i]).Ok?
    ensures Schedule(anchor, hhmm) == Err(ClockTime(hhmm[k]).error)
    decreases k
  {
    if k > 0 {
      assert ClockTime(hhmm[0]).Ok?;
      ScheduleFirstError(anchor, hhmm[1..], k - 1);
    }
  }

  /** Reading back `f"{t:%H:%M}"` gives the time of day of `t` to the whole minute. */
  lemma ClockTimeOfHourMinute(t: int)
    ensures ClockTime(HourMinute(t)) == Ok(t % Day / Minute * Minute)
  {
    var ofDay := t % Day;
    var h := ofDay / Hour;
    var m := ofDay / Minute % 60;
    assert h < 24 && m < 60;
    TwoDigits(h);
    TwoDigits(m);
    var hh := PadStart2(NatToString(h));
    var mm := PadStart2(NatToString(m));
    var s := hh + ":" + mm;
    assert HourMinute(t) == s;
    assert s[..2] == hh && s[3..] == mm;
    assert ofDay / 60000000 == ofDay / 3600000000 * 60 + ofDay / 60000000 % 60;
  }

  // ---------------------------------------------------------------- candidate routes

  const EdmondsTimes: seq<string> := ["15:10", "15:40", "16:10", "16:40", "17:10"]
  const BainbridgeTimes: seq<string> := ["15:25", "15:55", "16:25", "16:55", "17:25"]

  /** The three routes, with the sailings of both ferries placed on the anchor's date. */
  function CandidateRoutes(edmonds: seq<int>, bainbridge: seq<int>): seq<Route> {
    [
      Route("Edmonds → Kingston", [
        Drive(DriveLeg("SeaTac to Edmonds terminal", 47 * Minute, "afternoon congestion")),
        Ferry(FerryLeg("Edmonds–Kingston ferry", edmonds, 32 * Minute, 20 * Minute, 7 * Minute,
                       "WSF Edmonds–Kingston")),
        Drive(DriveLeg("Kingston to Hood Canal Bridge", 36 * Minute, "SR-104 flow"))
      ]),
      Route("Seattle → Bainbridge", [
        Drive(DriveLeg("SeaTac to Seattle ferry terminal", 30 * Minute, "I-5 express lanes")),
        Ferry(FerryLeg("Seattle–Bainbridge ferry", bainbridge, 35 * Minute, 30 * Minute, 10 * Minute,
                       "WSF Seattle–Bainbridge")),
        Drive(DriveLeg("Bainbridge to Hood Canal Bridge", 48 * Minute, "SR-305 and SR-3"))
      ]),
      Route("Tacoma Narrows", [
        Drive(DriveLeg("SeaTac to Tacoma Narrows", 42 * Minute, "I-5 south")),
        Drive(DriveLeg("Tacoma Narrows to Hood Canal Bridge", 65 * Minute, "WA-16 + WA-3"))
      ])
    ]
  }

  /** `build_candidate_routes`: the two schedules are read first, Edmonds before Bainbridge. */
  function BuildCandidateRoutes(anchor: int): Result<seq<Route>, string> {
    var edmonds := Schedule(anchor, EdmondsTimes);
    if edmonds.Err? then Err(edmonds.error)
    else
      var bainbridge := Schedule(anchor, BainbridgeTimes);
      if bainbridge.Err? then Err(bainbridge.error)
      else Ok(CandidateRoutes(edmonds.value, bainbridge.value))
  }

  lemma TwoDigitValue(a: char, b: char)
    requires IsDigit(a) && IsDigit(b)
    ensures DigitsValue([a, b]) == 10 * DigitValue(a) + DigitValue(b)
  {
    assert [a, b][..1] == [a];
    assert [a][..0] == [];
    assert DigitsValue([a]) == DigitValue(a);
  }

  /** `HH:MM` with both fields in range reads as that time of day. */
  lemma ClockLiteral(t: string)
    requires |t| == 5 && t[2] == ':' && IsDigit(t[0]) && IsDigit(t[1]) && IsDigit(t[3]) && IsDigit(t[4])
    requires 10 * DigitValue(t[0]) + DigitValue(t[1]) < 24 && 10 * DigitValue(t[3]) + DigitValue(t[4]) < 60
    ensures ClockTime(t)
         == Ok(((10 * DigitValue(t[0]) + DigitValue(t[1])) * 60 + 10 * DigitValue(t[3]) + DigitValue(t[4])) * Minute)
  {
    assert t[..2] == [t[0], t[1]] && t[3..] == [t[3], t[4]];
    TwoDigitValue(t[0], t[1]);
    TwoDigitValue(t[3], t[4]);
  }

  /** Sailings starting at `first`, each `step` after the one before. */
  ghost predicate Spaced(s: seq<int>, first: int, step: int) {
    |s| > 0 && s[0] == first && forall i :: 0 < i < |s| ==> s[i] - s[i - 1] == step
  }

  /** Five sailings read from `ts`, half an hour apart from `first` minutes after midnight. */
  lemma HalfHourly(anchor: int, ts: seq<string>, first: int)
    requires |ts| == 5
    requires ClockTime(ts[0]) == Ok(first * Minute) && ClockTime(ts[1]) == Ok((first + 30) * Minute)
    requires ClockTime(ts[2]) == Ok((first + 60) * Minute) && ClockTime(ts[3]) == Ok((first + 90) * Minute)
    requires ClockTime(ts[4]) == Ok((first + 120) * Minute)
    ensures var r := Schedule(anchor, ts);
      r.Ok? && |r.value| == 5 && Spaced(r.value, DayStart(anchor) + first * Minute, 30 * Minute)
  {
    ScheduleEntries(anchor, ts);
  }

  lemma EdmondsSchedule(anchor: int)
    ensures var r := Schedule(anchor, EdmondsTimes);
      r.Ok? && |r.value| == 5 && Spaced(r.value, DayStart(anchor) + (15 * 60 + 10) * Minute, 30 * Minute)
  {
    var ts := EdmondsTimes;
    ClockLiteral(ts[0]);
    ClockLiteral(ts[1]);
    ClockLiteral(ts[2]);
    ClockLiteral(ts[3]);
    ClockLiteral(ts[4]);
    HalfHourly(anchor, ts, 15 * 60 + 10);
  }

  lemma BainbridgeSchedule(anchor: int)
    ensures var r := Schedule(anchor, BainbridgeTimes);
      r.Ok? && |r.value| == 5 && Spaced(r.value, DayStart(anchor) + (15 * 60 + 25) * Minute, 30 * Minute)
  {
    var ts := BainbridgeTimes;
    ClockLiteral(ts[0]);
    ClockLiteral(ts[1]);
    ClockLiteral(ts[2]);
    ClockLiteral(ts[3]);
    ClockLiteral(ts[4]);
    HalfHourly(anchor, ts, 15 * 60 + 25);
  }

  /**
   * The candidate routes are always built, whatever the anchor: Edmonds–Kingston leaving
   * 15:10 to 17:10 and Seattle–Bainbridge 15:25 to 17:25 on the anchor's date, every half
   * hour, and the all-road Tacoma Narrows route, in that order. Each ferry route is a drive,
   * the ferry and a drive; Edmonds–Kingston crosses in 32 minutes with a 20-minute loading
   * cutoff and a 7-minute buffer, Seattle–Bainbridge in 35 with 30 and 10.
   */
  lemma CandidateRoutesBuilt(anchor: int)
    ensures var r := BuildCandidateRoutes(anchor);
      && r.Ok? && |r.value| == 3
      && r.value[0].name == "Edmonds → Kingston"
      && r.value[1].name == "Seattle → Bainbridge"
      && r.value[2].name == "Tacoma Narrows"
      && |r.value[0].legs| == 3 && r.value[0].legs[0].Drive? && r.value[0].legs[1].Ferry? && r.value[0].legs[2].Drive?
      && r.value[0].legs[1].ferry.crossing == 32 * Minute && r.value[0].legs[1].ferry.loadingCutoff == 20 * Minute
      && r.value[0].legs[1].ferry.buffer == 7 * Minute
      && |r.value[0].legs[1].ferry.sailings| == 5
      && Spaced(r.value[0].legs[1].ferry.sailings, DayStart(anchor) + (15 * 60 + 10) * Minute, 30 * Minute)
      && |r.value[1].legs| == 3 && r.value[1].legs[0].Drive? && r.value[1].legs[1].Ferry? && r.value[1].legs[2].Drive?
      && r.value[1].legs[1].ferry.crossing == 35 * Minute && r.value[1].legs[1].ferry.loadingCutoff == 30 * Minute
      && r.value[1].legs[1].ferry.buffer == 10 * Minute
      && |r.value[1].legs[1].ferry.sailings| == 5
      && Spaced(r.value[1].legs[1].ferry.sailings, DayStart(anchor) + (15 * 60 + 25) * Minute, 30 * Minute)
      && |r.value[2].legs| == 2 && r.value[2].legs[0].Drive? && r.value[2].legs[1].Drive?
  {
    EdmondsSchedule(anchor);
    BainbridgeSchedule(anchor);
  }

  /** Every candidate ferry leg's cutoff plus buffer is not negative, as the totals lemmas need. */
  lemma CandidateCutoffsSane(anchor: int)
    ensures BuildCandidateRoutes(anchor).Ok?
    ensures forall route <- BuildCandidateRoutes(anchor).value :: SaneCutoffs(route)
  {
    CandidateRoutesBuilt(anchor);
  }
}
