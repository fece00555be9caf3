/**
 * take_me_home/travel_time.py: drive and ferry legs, viable sailings, slack risk, and the
 * evaluation of a route by walking a time cursor through its legs.
 *
 * A `datetime` is a count of microseconds from a midnight epoch (naive local time) and a
 * `timedelta` a count of microseconds, both unbounded integers.
 */
module TravelTime {
  import opened Wrappers
  import opened Text
  import opened Sorting

  const Second: int := 1_000_000
  const Minute: int := 60 * Second
  const Day: int := 86400 * Second

  // ---------------------------------------------------------------- printing times

  /** `str(td)`: `[D day[s], ]H:MM:SS[.ffffff]`, with days rounded down as Python normalises them. */
  function TimedeltaString(us: int): string {
    var days := us / Day;
    var rest := us % Day;
    var seconds := rest / Second;
    var micro := rest % Second;
    var clock := NatToString(seconds / 3600) + ":" + PadStart2(NatToString(seconds / 60 % 60)) + ":"
                 + PadStart2(NatToString(seconds % 60));
    (if days == 0 then "" else IntToString(days) + " day" + (if days == 1 || days == -1 then "" else "s") + ", ")
    + clock
    + (if micro == 0 then "" else "." + PadZeros(NatToString(micro), 6))
  }

  /** A whole number of minutes under a day prints as `H:MM:00`. */
  lemma TimedeltaMinutes(m: nat)
    requires m < 1440
    ensures TimedeltaString(m * Minute) == NatToString(m / 60) + ":" + PadStart2(NatToString(m % 60)) + ":00"
  {
    var us := m * 60000000;
    assert us / 86400000000 == 0 && us % 86400000000 == us;
    assert us / 1000000 == m * 60 && us % 1000000 == 0;
    assert (m * 60) / 3600 == m / 60 && (m * 60) / 60 % 60 == m % 60 && (m * 60) % 60 == 0;
  }

  /** `f"{dt:%H:%M}"`. */
  function HourMinute(t: int): string {
    var ofDay := t % Day;
    PadStart2(NatToString(ofDay / (60 * Minute))) + ":" + PadStart2(NatToString(ofDay / Minute % 60))
  }

  // ---------------------------------------------------------------- legs

  /** The slack categories, from least to most comfortable. */
  datatype Risk = Critical | Tight | Moderate | Comfortable

  function RiskName(r: Risk): string {
    match r
    case Critical => "critical"
    case Tight => "tight"
    case Moderate => "moderate"
    case Comfortable => "comfortable"
  }

  function Rank(r: Risk): nat {
    match r
    case Critical => 0
    case Tight => 1
    case Moderate => 2
    case Comfortable => 3
  }

  /** `LegResult`. */
  datatype LegResult = LegResult(
    name: string, departure: int, arrival: int, duration: int, wait: int,
    slack: Option<int>, risk: Option<Risk>, notes: Option<string>)

  /** `DriveLeg(name, duration, conditions)`. */
  datatype DriveLeg = DriveLeg(name: string, duration: int, conditions: string)

  /** `DriveLeg.traverse(start)`. */
  function DriveTraverse(leg: DriveLeg, start: int): (r: LegResult)
    ensures r.name == leg.name && r.departure == start && r.arrival == start + leg.duration
    ensures r.duration == leg.duration && r.wait == 0 && r.slack.None? && r.risk.None?
    ensures r.arrival - r.departure == r.duration
  {
    LegResult(leg.name, start, start + leg.duration, leg.duration, 0, None, None,
              Some(leg.conditions + " traffic assumption"))
  }

  /** `FerryLeg(name, sailings, crossing, loading_cutoff, buffer, label)`. */
  datatype FerryLeg = FerryLeg(name: string, sailings: seq<int>, crossing: int, loadingCutoff: int, buffer: int,
                               labelText: string)

  /** `FerryLeg._classify_risk(slack)`. */
  function ClassifyRisk(buffer: int, slack: int): Risk {
    if slack <= buffer then Critical
    else if slack <= buffer + 5 * Minute then Tight
    else if slack <= buffer + 15 * Minute then Moderate
    else Comfortable
  }

  /**
   * Slack up to the buffer is critical, up to five minutes more is tight, up to fifteen
   * minutes more is moderate, and anything beyond is comfortable.
   */
  lemma ClassifyRiskBands(buffer: int, slack: int)
    ensures ClassifyRisk(buffer, slack) == Critical <==> slack <= buffer
    ensures ClassifyRisk(buffer, slack) == Tight <==> buffer < slack <= buffer + 5 * Minute
    ensures ClassifyRisk(buffer, slack) == Moderate <==> buffer + 5 * Minute < slack <= buffer + 15 * Minute
    ensures ClassifyRisk(buffer, slack) == Comfortable <==> buffer + 15 * Minute < slack
  {
  }

  /** More slack never gives a worse category. */
  lemma ClassifyRiskMonotone(buffer: int, slack: int, more: int)
    requires slack <= more
    ensures Rank(ClassifyRisk(buffer, slack)) <= Rank(ClassifyRisk(buffer, more))
  {
  }

  /** `FerrySailingOption`. */
  datatype SailingOption = SailingOption(departure: int, wait: int, slack: int, risk: Risk)

  /** The option one departure gives for a terminal arrival, or `None` when its slack is below the buffer. */
  function OptionFor(leg: FerryLeg, departure: int, arrival: int): Option<SailingOption> {
    var slack := (departure - leg.loadingCutoff) - arrival;
    if slack < leg.buffer then None
    else Some(SailingOption(departure, if departure - arrival > 0 then departure - arrival else 0, slack,
                            ClassifyRisk(leg.buffer, slack)))
  }

  /** The options of `departures`, in their order, skipping those that are not viable. */
  function OptionsOf(leg: FerryLeg, departures: seq<int>, arrival: int): seq<SailingOption>
    decreases |departures|
  {
    if departures == [] then []
    else
      var rest := OptionsOf(leg, departures[..|departures| - 1], arrival);
      var last := OptionFor(leg, departures[|departures| - 1], arrival);
      if last.Some? then rest + [last.value] else rest
  }

  function Ascending(): int -> int {
    (d: int) => d
  }

  /** `FerryLeg.viable_sailings(arrival)`. */
  method ViableSailings(leg: FerryLeg, arrival: int) returns (options: seq<SailingOption>)
    ensures options == OptionsOf(leg, SortBy(leg.sailings, Ascending()), arrival)
  {
    var departures := SortBy(leg.sailings, Ascending());
    options := [];
    for i := 0 to |departures|
      invariant options == OptionsOf(leg, departures[..i], arrival)
    {
      assert departures[..i + 1][..i] == departures[..i];
      var departure := departures[i];
      var latestArrival := departure - leg.loadingCutoff;
      var slack := latestArrival - arrival;
      if slack < leg.buffer {
        continue;
      }
      var wait := if departure - arrival > 0 then departure - arrival else 0;
      options := options + [SailingOption(departure, wait, slack, ClassifyRisk(leg.buffer, slack))];
    }
    assert departures[..|departures|] == departures;
  }

  /** A departure is viable when the slack before its loading cutoff is at least the buffer. */
  predicate Viable(leg: FerryLeg, departure: int, arrival: int) {
    (departure - leg.loadingCutoff) - arrival >= leg.buffer
  }

  /** Every option is the option of one of `departures`. */
  ghost predicate Drawn(leg: FerryLeg, departures: seq<int>, arrival: int, r: seq<SailingOption>) {
    forall i :: 0 <= i < |r| ==> r[i].departure in departures && OptionFor(leg, r[i].departure, arrival) == Some(r[i])
  }

  /** Every viable departure has an option. */
  ghost predicate Covered(leg: FerryLeg, departures: seq<int>, arrival: int, r: seq<SailingOption>) {
    forall d :: d in departures && Viable(leg, d, arrival) ==> exists i :: 0 <= i < |r| && r[i].departure == d
  }

  /**
   * The options are exactly the viable departures, each with its slack, its wait
   * (never negative) and the risk of its slack.
   */
  lemma {:induction false} OptionsExactly(leg: FerryLeg, departures: seq<int>, arrival: int)
    ensures Drawn(leg, departures, arrival, OptionsOf(leg, departures, arrival))
    ensures Covered(leg, departures, arrival, OptionsOf(leg, departures, arrival))
    decreases |departures|
  {
    if departures != [] {
      var init := departures[..|departures| - 1];
      var last := departures[|departures| - 1];
      OptionsExactly(leg, init, arrival);
      var r := OptionsOf(leg, departures, arrival);
      var rest := OptionsOf(leg, init, arrival);
      assert departures == init + [last];
      var lo := OptionFor(leg, last, arrival);
      if lo.Some? {
        assert r == rest + [lo.value];
      } else {
        assert r == rest;
      }
      forall i | 0 <= i < |r|
        ensures r[i].departure in departures && OptionFor(leg, r[i].departure, arrival) == Some(r[i])
      {
        if i < |rest| {
          assert r[i] == rest[i];
        } else {
          assert r[i] == lo.value;
        }
      }
      forall d | d in departures && Viable(leg, d, arrival) ensures exists i :: 0 <= i < |r| && r[i].departure == d {
        if d in init {
          var i :| 0 <= i < |rest| && rest[i].departure == d;
          assert r[i] == rest[i];
        } else {
          assert d == last;
          assert r[|rest|].departure == d;
        }
      }
    }
  }

  ghost predicate DeparturesAscending(r: seq<SailingOption>) {
    forall i, j :: 0 <= i < j < |r| ==> r[i].departure <= r[j].departure
  }

  /** Options drawn from ascending departures are in ascending order of departure. */
  lemma {:induction false} OptionsAscending(leg: FerryLeg, departures: seq<int>, arrival: int)
    requires SortedBy(departures, Ascending())
    ensures DeparturesAscending(OptionsOf(leg, departures, arrival))
    decreases |departures|
  {
    if departures != [] {
      var init := departures[..|departures| - 1];
      var last := departures[|departures| - 1];
      assert SortedBy(init, Ascending());
      OptionsAscending(leg, init, arrival);
      OptionsExactly(leg, init, arrival);
      var rest := OptionsOf(leg, init, arrival);
      var r := OptionsOf(leg, departures, arrival);
      var lo := OptionFor(leg, last, arrival);
      if lo.Some? {
        assert r == rest + [lo.value];
        forall i | 0 <= i < |rest| ensures rest[i].departure <= last {
          var x := rest[i].departure;
          assert x in init;
          var p :| 0 <= p < |init| && init[p] == x;
          assert departures[p] == init[p];
        }
        forall i, j | 0 <= i < j < |r| ensures r[i].departure <= r[j].departure {
          assert r[i] == rest[i];
          if j < |rest| {
            assert r[j] == rest[j];
          } else {
            assert r[j].departure == last;
          }
        }
      } else {
        assert r == rest;
      }
    }
  }

  /** Why a route cannot be evaluated: a ferry leg with no viable sailing for the given terminal arrival. */
  datatype PlanError = NoViableSailing(legName: string, start: int)

  /** `FerryLeg.traverse(start)`. */
  function FerryTraverse(leg: FerryLeg, start: int): Result<LegResult, PlanError> {
    var options := OptionsOf(leg, SortBy(leg.sailings, Ascending()), start);
    if options == [] then Err(NoViableSailing(leg.name, start))
    else
      var choice := options[0];
      Ok(LegResult(leg.name, start, choice.departure + leg.crossing, leg.crossing, choice.wait,
                   Some(choice.slack), Some(choice.risk), Some(FerryNotes(leg, choice))))
  }

  /** The ferry leg's notes: the label, the chosen departure as `HH:MM`, its wait, its slack and its risk. */
  function FerryNotes(leg: FerryLeg, choice: SailingOption): string {
    leg.labelText + " departure " + HourMinute(choice.departure) + "; wait " + TimedeltaString(choice.wait)
    + "; slack " + TimedeltaString(choice.slack) + " (" + RiskName(choice.risk) + ")"
  }

  /**
   * The ferry leg fails exactly when no sailing is viable for `start`. Otherwise it takes
   * the earliest viable sailing: it departs at `start`, arrives a crossing after that
   * sailing, lasts the crossing, and waits until the sailing leaves.
   */
  lemma FerryTraverseChoice(leg: FerryLeg, start: int)
    ensures var r := FerryTraverse(leg, start);
      && (r.Err? <==> forall d :: d in leg.sailings ==> !Viable(leg, d, start))
      && (r.Ok? ==>
            exists d :: Earliest(leg, start, d)
              && r.value.departure == start && r.value.arrival == d + leg.crossing
              && r.value.duration == leg.crossing
              && r.value.wait == (if d - start > 0 then d - start else 0)
              && r.value.slack == Some((d - leg.loadingCutoff) - start)
              && r.value.risk == Some(ClassifyRisk(leg.buffer, (d - leg.loadingCutoff) - start)))
  {
    var options := OptionsOf(leg, SortBy(leg.sailings, Ascending()), start);
    ViableOptions(leg, start);
    FerryTraverseFields(leg, start);
    if options != [] {
      assert Earliest(leg, start, options[0].departure);
    }
  }

  /** The ferry leg's result read off the first option. */
  lemma FerryTraverseFields(leg: FerryLeg, start: int)
    ensures var options := OptionsOf(leg, SortBy(leg.sailings, Ascending()), start);
      var r := FerryTraverse(leg, start);
      && (r.Err? <==> options == [])
      && (r.Ok? ==>
            var o := options[0];
            && r.value.departure == start && r.value.arrival == o.departure + leg.crossing
            && r.value.duration == leg.crossing && r.value.wait == o.wait
            && r.value.slack == Some(o.slack) && r.value.risk == Some(o.risk))
  {
  }

  /** `d` is the earliest viable sailing of the leg. */
  ghost predicate Earliest(leg: FerryLeg, start: int, d: int) {
    d in leg.sailings && Viable(leg, d, start)
    && forall e :: e in leg.sailings && Viable(leg, e, start) ==> d <= e
  }

  lemma ViableOptions(leg: FerryLeg, start: int)
    ensures var options := OptionsOf(leg, SortBy(leg.sailings, Ascending()), start);
      && (options == [] <==> forall d :: d in leg.sailings ==> !Viable(leg, d, start))
      && (options != [] ==>
            var o := options[0];
            && Earliest(leg, start, o.departure)
            && o.slack == (o.departure - leg.loadingCutoff) - start
            && o.wait == (if o.departure - start > 0 then o.departure - start else 0)
            && o.risk == ClassifyRisk(leg.buffer, o.slack))
  {
    var sorted := SortBy(leg.sailings, Ascending());
    var options := OptionsOf(leg, sorted, start);
    OptionsExactly(leg, sorted, start);
    OptionsAscending(leg, sorted, start);
    SortedMembers(leg.sailings);
    if options != [] {
      var d := options[0].departure;
      forall e | e in leg.sailings && Viable(leg, e, start) ensures d <= e {
        var i :| 0 <= i < |options| && options[i].departure == e;
      }
    } else {
      assert forall d :: d in leg.sailings ==> !Viable(leg, d, start);
    }
  }

  lemma SortedMembers(s: seq<int>)
    ensures forall d :: d in s <==> d in SortBy(s, Ascending())
  {
    var sorted := SortBy(s, Ascending());
    forall d ensures d in s <==> d in sorted {
      assert d in s <==> d in multiset(s);
      assert d in sorted <==> d in multiset(sorted);
    }
  }

  // ---------------------------------------------------------------- routes

  /** A leg of a route. */
  datatype TravelLeg = Drive(drive: DriveLeg) | Ferry(ferry: FerryLeg)

  function LegName(leg: TravelLeg): string {
    match leg
    case Drive(d) => d.name
    case Ferry(f) => f.name
  }

  /** `leg.traverse(start)`. */
  function Traverse(leg: TravelLeg, start: int): Result<LegResult, PlanError> {
    match leg
    case Drive(d) => Ok(DriveTraverse(d, start))
    case Ferry(f) => FerryTraverse(f, start)
  }

  /** `Route(name, legs)`. */
  datatype Route = Route(name: string, legs: seq<TravelLeg>)

  /** `RouteResult`. */
  datatype RouteResult = RouteResult(route: Route, legs: seq<LegResult>, departure: int, arrival: int,
                                     totalDuration: int, waits: int)

  /** The legs traversed one after another from `cursor`, or the first leg's failure. */
  function Walk(legs: seq<TravelLeg>, cursor: int): Result<seq<LegResult>, PlanError>
    decreases |legs|
  {
    if legs == [] then Ok([])
    else
      match Traverse(legs[0], cursor)
      case Err(e) => Err(e)
      case Ok(first) =>
        match Walk(legs[1..], first.arrival)
        case Err(e) => Err(e)
        case Ok(rest) => Ok([first] + rest)
  }

  /** Where the cursor ends: the last leg's arrival, or `start` when there is none. */
  function EndOf(results: seq<LegResult>, start: int): int {
    if results == [] then start else results[|results| - 1].arrival
  }

  function SumWaits(results: seq<LegResult>): int
    decreases |results|
  {
    if results == [] then 0 else SumWaits(results[..|results| - 1]) + results[|results| - 1].wait
  }

  function SumDurations(results: seq<LegResult>): int
    decreases |results|
  {
    if results == [] then 0 else SumDurations(results[..|results| - 1]) + results[|results| - 1].duration
  }

  /** `evaluate_route(route, start)` as a value. */
  function Evaluation(route: Route, start: int): Result<RouteResult, PlanError> {
    match Walk(route.legs, start)
    case Err(e) => Err(e)
    case Ok(results) =>
      var arrival := EndOf(results, start);
      Ok(RouteResult(route, results, start, arrival, arrival - start, SumWaits(results)))
  }

  /** `results` put in front of whatever the rest of the walk gives. */
  function Prefixed(results: seq<LegResult>, rest: Result<seq<LegResult>, PlanError>): Result<seq<LegResult>, PlanError> {
    match rest
    case Err(e) => Err(e)
    case Ok(more) => Ok(results + more)
  }

  lemma EndOfAppend(results: seq<LegResult>, r: LegResult, start: int)
    ensures EndOf(results + [r], start) == r.arrival
  {
  }

  /** `evaluate_route(route, start)`: the cursor, the waits and the leg results are updated leg by leg. */
  method EvaluateRoute(route: Route, start: int) returns (r: Result<RouteResult, PlanError>)
    ensures r == Evaluation(route, start)
  {
    var legResults: seq<LegResult> := [];
    var cursor := start;
    var waits := 0;
    assert route.legs[0..] == route.legs;
    assert forall more: seq<LegResult> :: [] + more == more;
    for i := 0 to |route.legs|
      invariant cursor == EndOf(legResults, start)
      invariant waits == SumWaits(legResults)
      invariant Walk(route.legs, start) == Prefixed(legResults, Walk(route.legs[i..], cursor))
    {
      assert route.legs[i..][1..] == route.legs[i + 1..];
      var result := Traverse(route.legs[i], cursor);
      if result.Err? {
        return Err(result.error);
      }
      assert (legResults + [result.value])[..|legResults|] == legResults;
      assert forall more: seq<LegResult> :: legResults + ([result.value] + more) == (legResults + [result.value]) + more;
      legResults := legResults + [result.value];
      waits := waits + result.value.wait;
      cursor := result.value.arrival;
    }
    assert route.legs[|route.legs|..] == [];
    assert legResults + [] == legResults;
    var totalDuration := cursor - start;
    r := Ok(RouteResult(route, legResults, start, cursor, totalDuration, waits));
  }

  /** Each leg starts where the previous one arrived, the first at the starting cursor. */
  ghost predicate Chained(results: seq<LegResult>, start: int) {
    && (results != [] ==> results[0].departure == start)
    && forall i :: 0 <= i < |results| - 1 ==> results[i + 1].departure == results[i].arrival
  }

  lemma {:induction false} WalkChained(legs: seq<TravelLeg>, cursor: int)
    ensures var w := Walk(legs, cursor);
      w.Ok? ==> |w.value| == |legs| && Chained(w.value, cursor)
    decreases |legs|
  {
    if legs != [] {
      var t := Traverse(legs[0], cursor);
      if t.Ok? {
        WalkChained(legs[1..], t.value.arrival);
        var w := Walk(legs[1..], t.value.arrival);
        if w.Ok? {
          var all := [t.value] + w.value;
          forall i | 0 <= i < |all| - 1 ensures all[i + 1].departure == all[i].arrival {
            if i > 0 { assert all[i] == w.value[i - 1] && all[i + 1] == w.value[i]; }
          }
        }
      }
    }
  }

  /**
   * One leg result per leg, chained from `start`; arrival is the final cursor, the total
   * duration is arrival minus start, and the waits add up the leg waits.
   */
  lemma EvaluationShape(route: Route, start: int)
    ensures var r := Evaluation(route, start);
      r.Ok? ==>
        && |r.value.legs| == |route.legs| && Chained(r.value.legs, start)
        && r.value.departure == start && r.value.arrival == EndOf(r.value.legs, start)
        && r.value.totalDuration == r.value.arrival - start && r.value.waits == SumWaits(r.value.legs)
  {
    WalkChained(route.legs, start);
  }

  /** An empty route arrives when it starts, after no time and no waiting. */
  lemma EmptyRoute(name: string, start: int)
    ensures Evaluation(Route(name, []), start) == Ok(RouteResult(Route(name, []), [], start, start, 0, 0))
  {
  }

  /** A leg result that arrives its wait plus its duration after it departs. */
  predicate Punctual(r: LegResult) {
    r.arrival == r.departure + r.wait + r.duration
  }

  /** With a loading cutoff plus buffer that is not negative, every viable sailing leaves at or after the arrival. */
  lemma FerryPunctual(leg: FerryLeg, start: int)
    requires leg.loadingCutoff + leg.buffer >= 0
    ensures FerryTraverse(leg, start).Ok? ==> Punctual(FerryTraverse(leg, start).value)
  {
    FerryTraverseChoice(leg, start);
  }

  lemma {:induction false} SumsOfPunctual(results: seq<LegResult>, start: int)
    requires Chained(results, start)
    requires forall i :: 0 <= i < |results| ==> Punctual(results[i])
    ensures EndOf(results, start) - start == SumDurations(results) + SumWaits(results)
    decreases |results|
  {
    if results != [] {
      var init := results[..|results| - 1];
      assert Chained(init, start);
      SumsOfPunctual(init, start);
    }
  }

  /** Every ferry leg's loading cutoff plus buffer is not negative. */
  predicate SaneCutoffs(route: Route) {
    forall i :: 0 <= i < |route.legs| ==> route.legs[i].Ferry? ==> route.legs[i].ferry.loadingCutoff + route.legs[i].ferry.buffer >= 0
  }

  lemma {:induction false} WalkPunctual(legs: seq<TravelLeg>, cursor: int)
    requires forall i :: 0 <= i < |legs| ==> legs[i].Ferry? ==> legs[i].ferry.loadingCutoff + legs[i].ferry.buffer >= 0
    ensures var w := Walk(legs, cursor);
      w.Ok? ==> forall i :: 0 <= i < |w.value| ==> Punctual(w.value[i])
    decreases |legs|
  {
    if legs != [] {
      if legs[0].Ferry? {
        FerryPunctual(legs[0].ferry, cursor);
      }
      var t := Traverse(legs[0], cursor);
      if t.Ok? {
        assert Punctual(t.value);
        var tail := legs[1..];
        assert forall i :: 0 <= i < |tail| ==> tail[i] == legs[i + 1];
        WalkPunctual(tail, t.value.arrival);
        var w := Walk(tail, t.value.arrival);
        if w.Ok? {
          var all := [t.value] + w.value;
          assert Walk(legs, cursor) == Ok(all);
          forall i | 0 <= i < |all| ensures Punctual(all[i]) {
            if i > 0 { assert all[i] == w.value[i - 1]; }
          }
        }
      }
    }
  }

  /**
   * When no ferry leg lets a sailing leave before the terminal arrival, the total duration
   * is the legs' durations plus their waits.
   */
  lemma TotalIsTravelPlusWaits(route: Route, start: int)
    requires SaneCutoffs(route)
    ensures var r := Evaluation(route, start);
      r.Ok? ==> r.value.totalDuration == SumDurations(r.value.legs) + r.value.waits
  {
    WalkChained(route.legs, start);
    WalkPunctual(route.legs, start);
    var w := Walk(route.legs, start);
    if w.Ok? {
      SumsOfPunctual(w.value, start);
    }
  }

  // ---------------------------------------------------------------- slack warnings

  /** `leg.slack is not None and leg.risk in {"critical", "tight"}`. */
  predicate Flagged(leg: LegResult) {
    leg.slack.Some? && (leg.risk == Some(Critical) || leg.risk == Some(Tight))
  }

  /** The flagged legs, in leg order. */
  function FlaggedLegs(legs: seq<LegResult>): seq<LegResult>
    decreases |legs|
  {
    if legs == [] then []
    else FlaggedLegs(legs[..|legs| - 1]) + (if Flagged(legs[|legs| - 1]) then [legs[|legs| - 1]] else [])
  }

  /** `f"{leg.name} slack {leg.slack} classified as {leg.risk}"`. */
  function WarningText(leg: LegResult): string
    requires Flagged(leg)
  {
    leg.name + " slack " + TimedeltaString(leg.slack.value) + " classified as " + RiskName(leg.risk.value)
  }

  predicate AllFlagged(legs: seq<LegResult>) {
    forall i :: 0 <= i < |legs| ==> Flagged(legs[i])
  }

  function WarningTexts(legs: seq<LegResult>): seq<string>
    requires AllFlagged(legs)
    decreases |legs|
  {
    if legs == [] then [] else WarningTexts(legs[..|legs| - 1]) + [WarningText(legs[|legs| - 1])]
  }

  lemma {:induction false} FlaggedLegsFlagged(legs: seq<LegResult>)
    ensures AllFlagged(FlaggedLegs(legs))
    decreases |legs|
  {
    if legs != [] {
      FlaggedLegsFlagged(legs[..|legs| - 1]);
    }
  }

  /** `RouteResult.slack_warnings`. */
  method SlackWarnings(result: RouteResult) returns (warnings: seq<string>)
    ensures AllFlagged(FlaggedLegs(result.legs))
    ensures warnings == WarningTexts(FlaggedLegs(result.legs))
  {
    warnings := [];
    for i := 0 to |result.legs|
      invariant AllFlagged(FlaggedLegs(result.legs[..i]))
      invariant warnings == WarningTexts(FlaggedLegs(result.legs[..i]))
    {
      var legs := result.legs[..i + 1];
      assert legs[..i] == result.legs[..i];
      FlaggedLegsFlagged(legs);
      var before := FlaggedLegs(result.legs[..i]);
      var leg := result.legs[i];
      if leg.slack.Some? && (leg.risk == Some(Critical) || leg.risk == Some(Tight)) {
        assert (before + [leg])[..|before|] == before;
        warnings := warnings + [WarningText(leg)];
      } else {
        assert FlaggedLegs(legs) == before;
      }
    }
    assert result.legs[..|result.legs|] == result.legs;
  }

  /**
   * The warned legs are exactly the legs with a slack rated critical or tight, and
   * warnings of a concatenation are the warnings of its parts in order.
   */
  lemma {:induction false} FlaggedLegsExactly(legs: seq<LegResult>)
    ensures forall x :: x in FlaggedLegs(legs) <==> x in legs && Flagged(x)
    ensures |FlaggedLegs(legs)| <= |legs|
    decreases |legs|
  {
    if legs != [] {
      var init := legs[..|legs| - 1];
      FlaggedLegsExactly(init);
      assert legs == init + [legs[|legs| - 1]];
    }
  }

  lemma {:induction false} FlaggedLegsAppend(a: seq<LegResult>, b: seq<LegResult>)
    ensures FlaggedLegs(a + b) == FlaggedLegs(a) + FlaggedLegs(b)
    decreases |b|
  {
    if b != [] {
      var init := b[..|b| - 1];
      FlaggedLegsAppend(a, init);
      assert (a + b)[..|a + b| - 1] == a + init;
    } else {
      assert a + b == a;
    }
  }
}
