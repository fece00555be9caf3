/**
 * src/services/routesSource.js: composing each ferry route from a first drive leg, the
 * ferry schedule and a second drive leg, and the total ETA.
 */
module RoutesSource {
  import opened Wrappers
  import opened Js
  import opened Cache
  import opened DateUtils
  import opened Directions
  import opened Ferries

  /** The configured coordinates; `None` where configuration gave none. */
  datatype LocationCoords = LocationCoords(
    home: Option<Coords>, destination: Option<Coords>,
    edmondsTerminal: Option<Coords>, kingstonTerminal: Option<Coords>,
    seattleTerminal: Option<Coords>, bainbridgeTerminal: Option<Coords>)

  datatype Segment = Segment(origin: Option<Coords>, destination: Option<Coords>)

  /** The route keys `buildRoutes` composes, in output order. */
  const RouteKeys: seq<string> := ["edmonds-kingston", "seattle-bainbridge"]

  /** `getDriveSegments(routeId)`: home to the departure terminal, then the arrival terminal to the destination. */
  function DriveSegments(routeId: string, loc: LocationCoords): (r: Option<seq<Segment>>)
    ensures r.Some? <==> loc.home.Some? && loc.destination.Some? && routeId in RouteKeys
    ensures r.Some? ==> |r.value| == 2 && r.value[0].origin == loc.home && r.value[1].destination == loc.destination
  {
    if loc.home.None? || loc.destination.None? then None
    else if routeId == "edmonds-kingston" then
      Some([Segment(loc.home, loc.edmondsTerminal), Segment(loc.kingstonTerminal, loc.destination)])
    else if routeId == "seattle-bainbridge" then
      Some([Segment(loc.home, loc.seattleTerminal), Segment(loc.bainbridgeTerminal, loc.destination)])
    else None
  }

  /** `segments && !segments.some((segment) => !segment.origin || !segment.destination)`. */
  predicate Complete(segments: Option<seq<Segment>>) {
    segments.Some? && |segments.value| == 2
    && forall i :: 0 <= i < |segments.value| ==> segments.value[i].origin.Some? && segments.value[i].destination.Some?
  }

  /** What the composer needs from configuration and the host. */
  datatype RoutesEnv = RoutesEnv(
    loc: LocationCoords,
    apiKey: string,
    fetch: DirectionsRequest -> HttpResponse,
    ferry: FerryEnv)

  /** `getDriveTimeMinutes` with the configured key and TTL, reading and writing the cache at `clock`. */
  function Drive(store: Store<Num>, env: RoutesEnv, s: Segment, departAt: Option<Num>, clock: int): DriveOutcome {
    DriveTime(store, env.apiKey, env.ferry.ttlSeconds, s.origin, s.destination, departAt, clock, clock,
              env.fetch, env.ferry.strToNumber)
  }

  /** `getFirstLegDriveTime(segments, departAt)`. */
  function FirstLeg(store: Store<Num>, env: RoutesEnv, segments: Option<seq<Segment>>, departAt: Num, clock: int)
    : DriveOutcome
  {
    if !Complete(segments) then DriveOutcome(Ok(None), store, false)
    else Drive(store, env, segments.value[0], Some(departAt), clock)
  }

  /**
   * A route's ferry field as the composer reads it: missing from the record (the
   * missing-access-code record has no schedule fields), `null`, or a number.
   */
  datatype Field = Absent | Null | Present(n: Num)

  /** The field read in arithmetic: `undefined` becomes NaN and `null` becomes 0. */
  function FieldNum(f: Field): Num {
    match f
    case Absent => NaN
    case Null => Int(0)
    case Present(n) => n
  }

  function FromOption(n: Option<Num>): Field {
    if n.None? then Field.Null else Present(n.value)
  }

  /** `route.ferry_wait_minutes`. */
  function WaitField(route: FerryData): Field {
    match route.status
    case MissingAccessCode => Absent
    case Scheduled(wait, _, _, _, _) => FromOption(wait)
  }

  /** `route.ferry_crossing_minutes`. */
  function CrossingField(route: FerryData): Field {
    match route.status
    case MissingAccessCode => Absent
    case Scheduled(_, crossing, _, _, _) => FromOption(crossing)
  }

  /**
   * The second leg's departure: `departAt` plus the first leg, the wait and the crossing
   * in minutes when none of the three is `null`; otherwise `null`.
   */
  function SecondLegDeparture(departAt: Num, first: Option<Num>, wait: Field, crossing: Field): Option<Num> {
    if first.Some? && !wait.Null? && !crossing.Null? then
      Some(Add(departAt, Scale(Add(Add(first.value, FieldNum(wait)), FieldNum(crossing)), 60000)))
    else None
  }

  /** `getSecondLegDriveTime(segments, departAt, firstLegDriveTime, route)`. */
  function SecondLeg(store: Store<Num>, env: RoutesEnv, segments: Option<seq<Segment>>, departAt: Num,
                     first: Option<Num>, route: FerryData, clock: int): DriveOutcome
  {
    if !Complete(segments) then DriveOutcome(Ok(None), store, false)
    else Drive(store, env, segments.value[1], SecondLegDeparture(departAt, first, WaitField(route), CrossingField(route)), clock)
  }

  /** `getSecondLegDriveTime` on the directions cache; `secondLegDeparture` is reassigned as in the source. */
  method GetSecondLegDriveTime(cache: SimpleCache<Num>, env: RoutesEnv, segments: Option<seq<Segment>>, departAt: Num,
                               first: Option<Num>, route: FerryData, clock: int)
    returns (r: Result<Option<Num>, Error>)
    modifies cache
    ensures var outcome := SecondLeg(old(cache.store), env, segments, departAt, first, route, clock);
      r == outcome.result && cache.store == outcome.store
  {
    if !Complete(segments) {
      return Ok(None);
    }
    var secondLegDeparture: Option<Num> := None;
    var wait, crossing := WaitField(route), CrossingField(route);
    if first.Some? && !wait.Null? && !crossing.Null? {
      secondLegDeparture := Some(Add(departAt, Scale(Add(Add(first.value, FieldNum(wait)), FieldNum(crossing)), 60000)));
    }
    var s := segments.value[1];
    r := GetDriveTimeMinutes(cache, env.apiKey, env.ferry.ttlSeconds, s.origin, s.destination, secondLegDeparture,
                             clock, clock, env.fetch, env.ferry.strToNumber);
  }

  /** `firstLegDriveTime + secondLegDriveTime` when both are known, else `null`. */
  function DriveTotal(first: Option<Num>, second: Option<Num>): Option<Num> {
    if first.Some? && second.Some? then Some(Add(first.value, second.value)) else None
  }

  /** `calculateTotalEtaMinutes(route, driveTimeMinutes)`. */
  function CalculateTotalEta(wait: Field, crossing: Field, drive: Option<Num>): Option<Num> {
    if drive.None? || wait.Null? || crossing.Null? then None
    else Some(Add(Add(drive.value, FieldNum(wait)), FieldNum(crossing)))
  }

  /** `new Date(departAtDate.getTime() + firstLegDriveTime * 60000)` when the first leg is known. */
  function TerminalArrival(departAt: Num, first: Option<Num>): Option<Num> {
    if first.Some? then Some(Add(departAt, Scale(first.value, 60000))) else None
  }

  /** A composed route: the ferry record with the drive and ETA fields and its alerts. */
  datatype BuiltRoute = BuiltRoute(ferry: FerryData, totalEtaMinutes: Option<Num>, driveTimeMinutes: Option<Num>,
                                   alerts: seq<string>)

  /** One route's result and the two caches it leaves. */
  datatype RouteOutcome = RouteOutcome(result: Result<Option<BuiltRoute>, Error>, drive: Store<Num>, ferry: Store<Value>)

  /** The body of the per-route callback in `buildRoutes`, with the caches before it. */
  function Pipeline(drive: Store<Num>, ferry: Store<Value>, env: RoutesEnv, routeKey: string, departAt: Num, clock: int)
    : RouteOutcome
  {
    var segments := DriveSegments(routeKey, env.loc);
    var firstLeg := FirstLeg(drive, env, segments, departAt, clock);
    if firstLeg.result.Err? then RouteOutcome(Err(firstLeg.result.error), firstLeg.store, ferry)
    else
      var first := firstLeg.result.value;
      var data := RouteData(ferry, env.ferry, routeKey, Some(departAt), TerminalArrival(departAt, first), None, clock);
      if data.result.Err? then RouteOutcome(Err(data.result.error), firstLeg.store, data.store)
      else if data.result.value.None? then RouteOutcome(Ok(None), firstLeg.store, data.store)
      else
        var route := data.result.value.value;
        var secondLeg := SecondLeg(firstLeg.store, env, segments, departAt, first, route, clock);
        if secondLeg.result.Err? then RouteOutcome(Err(secondLeg.result.error), secondLeg.store, data.store)
        else
          var driveTime := DriveTotal(first, secondLeg.result.value);
          var total := CalculateTotalEta(WaitField(route), CrossingField(route), driveTime);
          RouteOutcome(Ok(Some(BuiltRoute(route, total, driveTime, []))), secondLeg.store, data.store)
  }

  /** The per-route callback on the two module caches. */
  method ComposeRoute(driveCache: SimpleCache<Num>, ferryCache: SimpleCache<Value>, env: RoutesEnv, routeKey: string,
                      departAt: Num, clock: int)
    returns (r: Result<Option<BuiltRoute>, Error>)
    requires driveCache as object != ferryCache
    modifies driveCache, ferryCache
    ensures var outcome := Pipeline(old(driveCache.store), old(ferryCache.store), env, routeKey, departAt, clock);
      r == outcome.result && driveCache.store == outcome.drive && ferryCache.store == outcome.ferry
  {
    var driveSegments := DriveSegments(routeKey, env.loc);
    var firstLegDriveTime: Option<Num> := None;
    if Complete(driveSegments) {
      var s := driveSegments.value[0];
      var firstLeg := GetDriveTimeMinutes(driveCache, env.apiKey, env.ferry.ttlSeconds, s.origin, s.destination,
                                          Some(departAt), clock, clock, env.fetch, env.ferry.strToNumber);
      if firstLeg.Err? {
        return Err(firstLeg.error);
      }
      firstLegDriveTime := firstLeg.value;
    }
    var terminalArrivalAt := TerminalArrival(departAt, firstLegDriveTime);
    var route := GetFerryRouteData(ferryCache, env.ferry, routeKey, Some(departAt), terminalArrivalAt, None, clock);
    if route.Err? {
      return Err(route.error);
    }
    if route.value.None? {
      return Ok(None);
    }
    var secondLegDriveTime := GetSecondLegDriveTime(driveCache, env, driveSegments, departAt, firstLegDriveTime,
                                                    route.value.value, clock);
    if secondLegDriveTime.Err? {
      return Err(secondLegDriveTime.error);
    }
    var driveTimeMinutes := DriveTotal(firstLegDriveTime, secondLegDriveTime.value);
    var totalEtaMinutes := CalculateTotalEta(WaitField(route.value.value), CrossingField(route.value.value), driveTimeMinutes);
    r := Ok(Some(BuiltRoute(route.value.value, totalEtaMinutes, driveTimeMinutes, [])));
  }

  /** The pipelines of `keys`, run one after another, each on the caches the previous left. */
  datatype Runs = Runs(results: seq<Result<Option<BuiltRoute>, Error>>, drive: Store<Num>, ferry: Store<Value>)

  function RunAll(drive: Store<Num>, ferry: Store<Value>, env: RoutesEnv, keys: seq<string>, departAt: Num, clock: int)
    : Runs
    decreases |keys|
  {
    if keys == [] then Runs([], drive, ferry)
    else
      var before := RunAll(drive, ferry, env, keys[..|keys| - 1], departAt, clock);
      var last := Pipeline(before.drive, before.ferry, env, keys[|keys| - 1], departAt, clock);
      Runs(before.results + [last.result], last.drive, last.ferry)
  }

  /** The routes of the settled results that are not `null`, in order (`filter(Boolean)`). */
  function Kept(results: seq<Result<Option<BuiltRoute>, Error>>): seq<BuiltRoute>
    requires forall i :: 0 <= i < |results| ==> results[i].Ok?
  {
    if results == [] then []
    else (if results[0].value.Some? then [results[0].value.value] else []) + Kept(results[1..])
  }

  /** `Promise.all(...)` then `filter(Boolean)`: the first failure in key order, or the kept routes. */
  function Settle(results: seq<Result<Option<BuiltRoute>, Error>>): Result<seq<BuiltRoute>, Error> {
    if results == [] then Ok([])
    else if results[0].Err? then Err(results[0].error)
    else
      match Settle(results[1..])
      case Err(e) => Err(e)
      case Ok(rest) => Ok((if results[0].value.Some? then [results[0].value.value] else []) + rest)
  }

  /** `new Date(departAt)` for a truthy `departAt`, the current time otherwise. */
  function DepartTime(departAt: Option<string>, clock: int, parseDate: string -> Num): Num {
    if departAt.Some? && departAt.value != "" then parseDate(departAt.value) else Int(clock)
  }

  /** `buildRoutes({ departAt })`, its routes and the two caches it leaves. */
  function Build(drive: Store<Num>, ferry: Store<Value>, env: RoutesEnv, departAt: Option<string>, clock: int)
    : (Result<seq<BuiltRoute>, Error>, Store<Num>, Store<Value>)
  {
    var runs := RunAll(drive, ferry, env, RouteKeys, DepartTime(departAt, clock, env.ferry.parseDate), clock);
    (Settle(runs.results), runs.drive, runs.ferry)
  }

  /** `buildRoutes` on the two module caches; the route pipelines run in key order. */
  method BuildRoutes(driveCache: SimpleCache<Num>, ferryCache: SimpleCache<Value>, env: RoutesEnv,
                     departAt: Option<string>, clock: int)
    returns (r: Result<seq<BuiltRoute>, Error>)
    requires driveCache as object != ferryCache
    modifies driveCache, ferryCache
    ensures (r, driveCache.store, ferryCache.store) == Build(old(driveCache.store), old(ferryCache.store), env, departAt, clock)
  {
    var departAtDate := DepartTime(departAt, clock, env.ferry.parseDate);
    var results: seq<Result<Option<BuiltRoute>, Error>> := [];
    for i := 0 to |RouteKeys|
      invariant RunAll(old(driveCache.store), old(ferryCache.store), env, RouteKeys[..i], departAtDate, clock)
                == Runs(results, driveCache.store, ferryCache.store)
    {
      assert RouteKeys[..i + 1][..i] == RouteKeys[..i];
      var result := ComposeRoute(driveCache, ferryCache, env, RouteKeys[i], departAtDate, clock);
      results := results + [result];
    }
    assert RouteKeys[..|RouteKeys|] == RouteKeys;
    r := Settle(results);
  }

  // ---------------------------------------------------------------- properties

  /**
   * The total ETA is `null` exactly when the drive total, the wait or the crossing is
   * `null`; otherwise it is their sum, NaN when a field is missing from the record.
   */
  lemma TotalEtaCases(wait: Field, crossing: Field, drive: Option<Num>)
    ensures CalculateTotalEta(wait, crossing, drive).None? <==> drive.None? || wait.Null? || crossing.Null?
    ensures drive.Some? && drive.value.Int? && wait.Present? && wait.n.Int? && crossing.Present? && crossing.n.Int? ==>
      CalculateTotalEta(wait, crossing, drive) == Some(Int(drive.value.i + wait.n.i + crossing.n.i))
    ensures drive.Some? && (wait.Absent? || crossing.Absent?) && !wait.Null? && !crossing.Null? ==>
      CalculateTotalEta(wait, crossing, drive) == Some(NaN)
  {
  }

  /** 20 + 10 minutes of driving, a 15-minute wait and a 35-minute crossing make 80 minutes. */
  lemma TotalEtaExample()
    ensures CalculateTotalEta(Present(Int(15)), Present(Int(35)), DriveTotal(Some(Int(20)), Some(Int(10)))) == Some(Int(80))
  {
  }

  /** The drive time is the sum of the legs exactly when both are known. */
  lemma DriveTotalCases(first: Option<Num>, second: Option<Num>)
    ensures DriveTotal(first, second).Some? <==> first.Some? && second.Some?
    ensures first.Some? && second.Some? && first.value.Int? && second.value.Int? ==>
      DriveTotal(first, second) == Some(Int(first.value.i + second.value.i))
  {
  }

  /** The ferry is reached `first` minutes after departure, when the first leg is known. */
  lemma TerminalArrivalTime(departAt: int, first: Option<Num>)
    ensures TerminalArrival(Int(departAt), first).Some? <==> first.Some?
    ensures first.Some? && first.value.Int? ==>
      TerminalArrival(Int(departAt), first) == Some(Int(departAt + first.value.i * 60000))
  {
  }

  /**
   * The second leg departs after the first leg, the wait and the crossing exactly when
   * none of them is `null`; otherwise it is asked for with no departure time.
   */
  lemma SecondLegDepartureCases(departAt: int, first: Option<Num>, wait: Field, crossing: Field)
    ensures SecondLegDeparture(Int(departAt), first, wait, crossing).Some? <==> first.Some? && !wait.Null? && !crossing.Null?
    ensures first.Some? && first.value.Int? && wait.Present? && wait.n.Int? && crossing.Present? && crossing.n.Int? ==>
      SecondLegDeparture(Int(departAt), first, wait, crossing)
        == Some(Int(departAt + (first.value.i + wait.n.i + crossing.n.i) * 60000))
  {
  }

  /**
   * Without home or destination coordinates, or with a segment end missing, both legs
   * are `null` without any request and the directions cache is untouched.
   */
  lemma LegsWithoutCoordinates(store: Store<Num>, env: RoutesEnv, routeKey: string, departAt: Num, first: Option<Num>,
                               route: FerryData, clock: int)
    requires !Complete(DriveSegments(routeKey, env.loc))
    ensures FirstLeg(store, env, DriveSegments(routeKey, env.loc), departAt, clock) == DriveOutcome(Ok(None), store, false)
    ensures SecondLeg(store, env, DriveSegments(routeKey, env.loc), departAt, first, route, clock)
      == DriveOutcome(Ok(None), store, false)
    ensures env.loc.home.None? || env.loc.destination.None? ==> DriveSegments(routeKey, env.loc).None?
  {
  }

  /**
   * Every composed route carries the stored definition with its terminals exchanged
   * (`direction` never reaches the ferry service), no alerts, and a total ETA that is
   * null exactly when the drive time, the wait or the crossing is null.
   */
  lemma PipelineRoute(drive: Store<Num>, ferry: Store<Value>, env: RoutesEnv, routeKey: string, departAt: Num, clock: int)
    ensures var outcome := Pipeline(drive, ferry, env, routeKey, departAt, clock);
      outcome.result.Ok? && outcome.result.value.Some? ==>
        var r := outcome.result.value.value;
        && GetFerryRouteDefinition(routeKey, env.ferry.ids).Some?
        && r.ferry.route == Swapped(GetFerryRouteDefinition(routeKey, env.ferry.ids).value)
        && r.alerts == []
        && (r.totalEtaMinutes.None? <==> r.driveTimeMinutes.None? || WaitField(r.ferry).Null? || CrossingField(r.ferry).Null?)
  {
    var segments := DriveSegments(routeKey, env.loc);
    var firstLeg := FirstLeg(drive, env, segments, departAt, clock);
    if firstLeg.result.Ok? {
      var first := firstLeg.result.value;
      var data := RouteData(ferry, env.ferry, routeKey, Some(departAt), TerminalArrival(departAt, first), None, clock);
      if GetFerryRouteDefinition(routeKey, env.ferry.ids).None? {
        RouteDataUnknownRoute(ferry, env.ferry, routeKey, Some(departAt), TerminalArrival(departAt, first), None, clock);
      } else if data.result.Ok? && data.result.value.Some? {
        RouteDataOrientation(ferry, env.ferry, routeKey, Some(departAt), TerminalArrival(departAt, first), None, clock);
      }
    }
  }

  /** A known route key always yields a record: `null` comes only from an unknown key. */
  lemma PipelineKnownRoute(drive: Store<Num>, ferry: Store<Value>, env: RoutesEnv, routeKey: string, departAt: Num, clock: int)
    requires routeKey in RouteKeys
    ensures var outcome := Pipeline(drive, ferry, env, routeKey, departAt, clock);
      outcome.result.Ok? ==> outcome.result.value.Some? && outcome.result.value.value.ferry.route.id == routeKey
  {
    var segments := DriveSegments(routeKey, env.loc);
    var firstLeg := FirstLeg(drive, env, segments, departAt, clock);
    if firstLeg.result.Ok? {
      var first := firstLeg.result.value;
      RouteDataOrientation(ferry, env.ferry, routeKey, Some(departAt), TerminalArrival(departAt, first), None, clock);
    }
  }

  /** Settling keeps the first failure, or every result, in order, with the `null` ones dropped. */
  lemma {:induction false} SettleCases(results: seq<Result<Option<BuiltRoute>, Error>>)
    ensures Settle(results).Ok? <==> forall i :: 0 <= i < |results| ==> results[i].Ok?
    ensures Settle(results).Ok? ==> Settle(results).value == Kept(results)
    ensures Settle(results).Err? ==> exists i :: 0 <= i < |results| && results[i] == Err(Settle(results).error)
                                                  && forall j :: 0 <= j < i ==> results[j].Ok?
    decreases |results|
  {
    if results != [] {
      SettleCases(results[1..]);
      if results[0].Ok? && Settle(results[1..]).Err? {
        var i :| 0 <= i < |results[1..]| && results[1..][i] == Err(Settle(results[1..]).error)
                 && forall j :: 0 <= j < i ==> results[1..][j].Ok?;
        assert results[i + 1] == Err(Settle(results).error);
        assert forall j :: 0 <= j < i + 1 ==> results[j].Ok? by {
          forall j | 0 <= j < i + 1 ensures results[j].Ok? {
            if j > 0 { assert results[j] == results[1..][j - 1]; }
          }
        }
      }
    }
  }

  lemma {:induction false} RunAllLength(drive: Store<Num>, ferry: Store<Value>, env: RoutesEnv, keys: seq<string>,
                                        departAt: Num, clock: int)
    ensures var runs := RunAll(drive, ferry, env, keys, departAt, clock);
      |runs.results| == |keys|
      && forall i :: 0 <= i < |keys| ==>
           var before := RunAll(drive, ferry, env, keys[..i], departAt, clock);
           runs.results[i] == Pipeline(before.drive, before.ferry, env, keys[i], departAt, clock).result
    decreases |keys|
  {
    if keys != [] {
      var init := keys[..|keys| - 1];
      RunAllLength(drive, ferry, env, init, departAt, clock);
      forall i | 0 <= i < |keys|
        ensures var before := RunAll(drive, ferry, env, keys[..i], departAt, clock);
          RunAll(drive, ferry, env, keys, departAt, clock).results[i]
            == Pipeline(before.drive, before.ferry, env, keys[i], departAt, clock).result
      {
        if i < |keys| - 1 {
          assert keys[..i] == init[..i];
          assert keys[i] == init[i];
        } else {
          assert keys[..i] == init;
        }
      }
    }
  }

  lemma SettleTwo(results: seq<Result<Option<BuiltRoute>, Error>>)
    requires |results| == 2
    ensures Settle(results).Ok? ==> results[0].Ok? && results[1].Ok?
    ensures Settle(results).Ok? && results[0].value.Some? && results[1].value.Some? ==>
      Settle(results).value == [results[0].value.value, results[1].value.value]
  {
    var rest := results[1..];
    assert rest[0] == results[1];
    assert rest[1..] == [];
    assert Settle(rest[1..]) == Ok([]);
    if results[0].Ok? && results[1].Err? {
      assert Settle(rest) == Err(results[1].error);
    }
  }

  /**
   * `buildRoutes` answers the Edmonds–Kingston route and then the Seattle–Bainbridge
   * route, each with its terminals exchanged and no alerts.
   */
  lemma BuildRoutesOrder(drive: Store<Num>, ferry: Store<Value>, env: RoutesEnv, departAt: Option<string>, clock: int)
    ensures var (r, _, _) := Build(drive, ferry, env, departAt, clock);
      r.Ok? ==>
        && |r.value| == 2
        && r.value[0].ferry.route == Swapped(GetFerryRouteDefinition("edmonds-kingston", env.ferry.ids).value)
        && r.value[1].ferry.route == Swapped(GetFerryRouteDefinition("seattle-bainbridge", env.ferry.ids).value)
        && r.value[0].alerts == [] && r.value[1].alerts == []
  {
    var t := DepartTime(departAt, clock, env.ferry.parseDate);
    var runs := RunAll(drive, ferry, env, RouteKeys, t, clock);
    RunAllLength(drive, ferry, env, RouteKeys, t, clock);
    var b0 := RunAll(drive, ferry, env, RouteKeys[..0], t, clock);
    var b1 := RunAll(drive, ferry, env, RouteKeys[..1], t, clock);
    PipelineKnownRoute(b0.drive, b0.ferry, env, RouteKeys[0], t, clock);
    PipelineKnownRoute(b1.drive, b1.ferry, env, RouteKeys[1], t, clock);
    PipelineRoute(b0.drive, b0.ferry, env, RouteKeys[0], t, clock);
    PipelineRoute(b1.drive, b1.ferry, env, RouteKeys[1], t, clock);
    SettleTwo(runs.results);

  }
}
