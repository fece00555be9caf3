# Take me home: a verified model of the route engine

The system plans the afternoon trip from SeaTac (or a configured home) across Puget Sound to
the Hood Canal Bridge. It has two engines.

The JavaScript service (`src/services`) composes each ferry route from three parts:
- a Google Directions drive to the departure terminal;
- the next Washington State Ferries sailing that can be caught;
- a second drive from the arrival terminal.

It keeps the responses of both remote services in a small expiring cache. It also normalises
the ferry provider's varied payloads and its `/Date(N)/` timestamps.

The Python planner (`take_me_home`) has three parts:
- a fixed table of three candidate routes with half-hourly sailings;
- a leg-by-leg evaluation that threads a time cursor through drives and ferries, and rates the
  slack before each sailing;
- a ranking of the routes by arrival.

It also holds validated travel-plan records and tunable scoring weights. The page
(`public/ui.js`) formats minutes and drive legs for display.

One Dafny module models each source file:

| module | file |
|---|---|
| `Cache` | simpleCache.js, plus the shared cache keys |
| `DateUtils` | dateUtils.js |
| `WsdotClient` | wsdotClient.js |
| `Directions` | googleDirections.js |
| `Ferries` | wsdotFerries.js |
| `RoutesSource` | routesSource.js |
| `TravelTime` | travel_time.py |
| `Models` | models.py |
| `Routes` | routes.py |
| `Planner` | planner.py |
| `ScoringConfig` | config.py |
| `Ui` | public/ui.js |

Four helper modules support them:
- `Wrappers`: Option and Result;
- `Text`: decimal strings, padding, joining and splitting;
- `Sorting`: a stable sort by an integer key, with its permutation, order, stability and
  uniqueness;
- `Js`: JavaScript values, nullish and truthy tests, `??` chains, and integer `Math.floor` and
  `Math.round` division.

Times are modelled as follows:
- JavaScript times are integer milliseconds. `Num = NaN | Int(i)` carries the NaN that
  `undefined` arithmetic and invalid dates produce.
- Python `datetime` and `timedelta` are integer microseconds.

State is modelled as follows:
- The cache is a class whose `store` map its `Get` and `Set` methods update.
- Each service operation that touches the cache is a method proved equal to a function of the
  cache before the call. The lemmas about that function state what the source promises.

## Model

| member | source | states |
|---|---|---|
| `Cache.SimpleCache.constructor` | src/services/simpleCache.js:2-4 | A new cache holds no entries. |
| `Cache.SimpleCache.Get` | src/services/simpleCache.js:6-18 | The value returned and the store left are those of `Read` on the store before the call (miss, expired-and-deleted, or live value). |
| `Cache.SimpleCache.Set` | src/services/simpleCache.js:20-25 | The store afterwards is the old store with the key bound to the value and `now + ttlMs`. |
| `Cache.ReadMissing` | src/services/simpleCache.js:7-10 | Reading a key never set answers null and leaves the store as it was. |
| `Cache.ReadExpiry` | src/services/simpleCache.js:12-17 | An entry with `expiresAt <= now` reads as null and is deleted, so the store shrinks by exactly one key. Strictly before expiry the stored value is returned and the store is unchanged. |
| `Cache.ReadOtherKeys` | src/services/simpleCache.js:13 | A read touches no other key: every other entry is present exactly when it was, with the same contents. |
| `Cache.WriteOtherKeys` | src/services/simpleCache.js:21-24 | A write binds the key to its value and `now + ttlMs`, and leaves every other key unchanged. |
| `Cache.WriteThenRead` | src/services/simpleCache.js:6-25 | A read after a write returns the written value while `now < t + ttl`. From then on it returns null and removes the key. |
| `Cache.StoredNullReadsAsMiss` | src/services/simpleCache.js:9-17 | A stored null reads exactly as a missing key. |
| `Cache.ExpiredIsForgotten` | src/services/simpleCache.js:12-15 | After an expired read the key is gone, and any later read is a miss. |
| `Cache.KeyThreeInjective` | src/services/wsdotFerries.js:13-15 | Three-part `prefix:a:b:c` keys whose first two parts hold no colon determine their parts. |
| `DateUtils.ParseWsdotDate` | src/services/dateUtils.js:1-27 | A falsy input (including the number 0 and `""`) is null. A Date is returned as it is. A non-zero number is that instant. Only numbers and strings otherwise yield an instant. |
| `DateUtils.LegacyTokenParses` | src/services/dateUtils.js:15-18 | The bare token `/Date(N)/`, with N written without leading zeros, parses to the instant N ms. |
| `DateUtils.LegacyTokenWithOffsetParses` | src/services/dateUtils.js:15-18 | The bare tokens `/Date(N+HHMM)/` and `/Date(N-HHMM)/` parse to N ms: the offset is ignored. |
| `DateUtils.MatchedTokenParses` | src/services/dateUtils.js:14-18 | Any string in which the expression matches, wherever the match is, parses to the value of the first match's digit group. |
| `DateUtils.LeftmostToken` | src/services/dateUtils.js:15 | The match found is the one at the leftmost position where the expression matches. |
| `DateUtils.TokenAtPosition` | src/services/dateUtils.js:15 | `/Date(`, any non-empty digit run (leading zeros too), an optional sign-and-digits offset and `)/` match at their position whatever follows, with the digits' value. |
| `DateUtils.EmbeddedTokenParses` | src/services/dateUtils.js:14-18 | A string with text before and after `/Date(N)/` or `/Date(N±HHMM)/`, and no earlier match, parses to the instant N ms, leading zeros included; the surrounding text and the offset are ignored. |
| `DateUtils.NoTokenBeforeSlash` | src/services/dateUtils.js:15 | Text holding no `/` holds no match, so the token after it is the first. |
| `DateUtils.DiffMinutes` | src/services/dateUtils.js:29-34 | The difference is null exactly when either instant is missing. |
| `DateUtils.DiffMinutesMeaning` | src/services/dateUtils.js:33 | For two instants the result is the nearest whole minute to `later - earlier`, with halves rounded up. It is 0 for equal instants and never negative when `later >= earlier`. |
| `DateUtils.TripDateRoundTrip` | src/services/dateUtils.js:36-44 | The trip date is `YYYY-MM-DD`, with the month counted from 1 and month and day padded to two digits: reading it back gives the calendar fields it came from. |
| `WsdotClient.NormalizeBase` | src/services/wsdotClient.js:4 | The base always ends in `/`. It is unchanged when it already did, and otherwise gains exactly one `/`. |
| `WsdotClient.NormalizeBaseIdempotent` | src/services/wsdotClient.js:4 | Normalising the base twice is normalising it once. |
| `WsdotClient.NormalizePath` | src/services/wsdotClient.js:5 | One leading `/` is removed when present. Any other path is unchanged. |
| `WsdotClient.NormalizePathDropsOneSlash` | src/services/wsdotClient.js:5 | Exactly one slash is removed: `//x` becomes `/x`. |
| `WsdotClient.SetParamEffect` | src/services/wsdotClient.js:11 | `searchParams.set(k, v)` leaves exactly one value `v` for `k` and the values of every other key unchanged. |
| `WsdotClient.ApplyQuery` | src/services/wsdotClient.js:7-12 | The loop over the query entries gives the URL whose parameters are those of `ApplyAll`. |
| `WsdotClient.ApplyAllEffect` | src/services/wsdotClient.js:7-12 | For distinct query keys, a null, undefined or `""` value leaves the key's parameters as they were. Any other value sets them to the single `String(value)`. Keys outside the query are unchanged. |
| `WsdotClient.ApplyAllFromEmpty` | src/services/wsdotClient.js:7-12 | On a URL with no parameters, the result is exactly the kept entries in query order. |
| `WsdotClient.KeptEntriesKeys` | src/services/wsdotClient.js:8-10 | Every parameter that is set comes from a query entry. |
| `WsdotClient.BuildUrl` | src/services/wsdotClient.js:3-14 | The URL is the normalised path resolved against the normalised base, with the filtered query applied. |
| `WsdotClient.FetchJson` | src/services/wsdotClient.js:16-32 | A response that is not ok is an error carrying its status and body, never the body as data. An ok response answers its JSON, or a malformed-body error. |
| `Directions.DepartureBucketSameSecond` | src/services/googleDirections.js:20 | Two departures, before or after 1970, share a bucket exactly when they fall in the same second (`floor(ms/1000)`, rounding down for negative time values too). |
| `Directions.DriveKeyInjective` | src/services/googleDirections.js:7-25 | With colon-free coordinates, equal `drivetime:origin:destination:bucket` keys mean equal endpoints and buckets. |
| `Directions.GetDriveTimeMinutes` | src/services/googleDirections.js:15-56 | The answer and the cache afterwards are those of `DriveTime` on the cache before the call. |
| `Directions.DriveGuard` | src/services/googleDirections.js:16-18 | A missing API key, origin or destination answers null, with no request and the cache untouched. |
| `Directions.DriveCacheUse` | src/services/googleDirections.js:26-29 | The service is contacted exactly when the cache read is null. Otherwise the cached value is returned and the cache is unchanged. |
| `Directions.DriveFailureCachesNothing` | src/services/googleDirections.js:40-43 | A response that is not ok is an error carrying status and body. Nothing is cached; only an expired entry for the key has been evicted. |
| `Directions.TrafficPreferred` | src/services/googleDirections.js:46-47 | The duration read is `duration_in_traffic.value` whenever it is present, else `duration.value`, from the first leg of the first route. |
| `Directions.DriveSuccess` | src/services/googleDirections.js:45-55 | A missing or zero duration caches null and answers null. A number of seconds caches and answers its nearest whole minute, with the key's expiry at `writeAt + ttl`. |
| `Directions.CachedNullRefetches` | src/services/googleDirections.js:26-50 | After a null answer the next call contacts the service again, however soon it comes. |
| `Directions.CachedMinutesReused` | src/services/googleDirections.js:26-55 | A fetched drive time is answered from the cache, with the same result and no request, until its TTL expires. |
| `Ferries.ToArrayCases` | src/services/wsdotFerries.js:17-29 | An array maps to itself, and an object with an array field to its first such field. Any other object maps to a one-element list, and anything else to `[]`. |
| `Ferries.FirstArrayAt` | src/services/wsdotFerries.js:22 | `Object.values(value).find(Array.isArray)` picks the first array-valued field. |
| `Ferries.FirstArrayNone` | src/services/wsdotFerries.js:22-26 | With no array-valued field there is none to find. |
| `Ferries.AllTimesAppend` | src/services/wsdotFerries.js:34 | The flat map over terminal combos is the in-order concatenation of each combo's `toArray(combo.Times)`. |
| `Ferries.AllTimesFails` | src/services/wsdotFerries.js:34 | The flat map fails (reading `Times` of null) exactly when some combo is null or undefined. |
| `Ferries.Coalesce4` | src/services/wsdotFerries.js:37-40 | The four-way `??` chain answers its first value that is not nullish, or else its last. |
| `Ferries.ExtractFromNothing` | src/services/wsdotFerries.js:32-41 | A null or undefined payload yields no sailings. |
| `Ferries.ExtractPlainAndWrapped` | src/services/wsdotFerries.js:37-41 | A bare array of sailings and one wrapped in `GetTodaysScheduleByTerminalComboResult` both yield those sailings. |
| `Ferries.UpcomingMembers` | src/services/wsdotFerries.js:46-74 | A candidate is upcoming exactly when it comes from a sailing of the list and is eligible: it has a departure, departs at or after the reference, and is not cancelled. |
| `Ferries.NextSailingChoice` | src/services/wsdotFerries.js:44-78 | The result is null exactly when no sailing is eligible. Otherwise it is an eligible sailing of the list that no eligible sailing departs before, and the first in list order among those that depart at that instant. |
| `Ferries.AllEligibleUpcoming` | src/services/wsdotFerries.js:68-74 | Every eligible sailing survives the filter. |
| `Ferries.HeadDepartsFirst` | src/services/wsdotFerries.js:75-77 | The head of the sorted candidates departs no later than any eligible sailing. |
| `Ferries.NextSailingOrderIndependent` | src/services/wsdotFerries.js:73-77 | Two lists holding the same sailings give the same kind of outcome and the same departure instant. |
| `Ferries.NoLaterThan` | src/services/wsdotFerries.js:73-77 | When every sailing of one list is in another, the larger list's choice departs no later; the smaller list offers a sailing only if the larger one does. |
| `Ferries.CancellationFirstFlagWins` | src/services/wsdotFerries.js:69-72 | Cancellation is read from the first flag present: `IsCancelled: false` before `IsCanceled: true` means not cancelled. |
| `Ferries.DepartureFieldPriority` | src/services/wsdotFerries.js:48-59 | The departure is parsed from the first of the five departure fields that is not nullish. |
| `Ferries.ArrivalFieldPriority` | src/services/wsdotFerries.js:53-60 | The arrival is parsed from the first of the five arrival fields that is not nullish. |
| `Ferries.CancelFieldPriority` | src/services/wsdotFerries.js:69-73 | A sailing is cancelled exactly when the first of the four cancellation flags that is not nullish is truthy; later flags are not consulted. |
| `Ferries.KnownFerryRoutes` | src/services/wsdotFerries.js:124-148 | Exactly `edmonds-kingston` and `seattle-bainbridge` have a definition, whose id is the key. |
| `Ferries.OrientSwaps` | src/services/wsdotFerries.js:156-163 | Any direction but `west_east` (including none) exchanges the departing and arriving terminals and keeps everything else. `west_east` keeps the definition. Swapping twice restores it. |
| `Ferries.FetchWithoutAccessCode` | src/services/wsdotFerries.js:81-107 | Without an access code both fetch helpers answer null with no request and the cache untouched. |
| `Ferries.CachedFetchBehaviour` | src/services/wsdotFerries.js:90-121 | A live, truthy cached response is answered without a request. Anything else makes exactly one request. A failure caches nothing; a success is cached until `now + ttl`. |
| `Ferries.ColdFetch` | src/services/wsdotFerries.js:90-101 | A key not in the cache makes exactly one request, and a success adds exactly that key. |
| `Ferries.DetailsKeyFresh` | src/services/wsdotFerries.js:85-109 | A schedule key is never a route-details key, so one fetch never answers the other. |
| `Ferries.ScheduleKeyInjective` | src/services/wsdotFerries.js:85-89 | The schedule key determines the two terminal ids. |
| `Ferries.FetchCached` | src/services/wsdotFerries.js:90-101 | The answer, the cache afterwards and the requests are those of `CachedFetch` on the cache before the call. |
| `Ferries.FetchScheduleToday` | src/services/wsdotFerries.js:80-102 | Equal to `ScheduleToday` on the cache before the call: the guard, the `schedule:dep:arr:true` key and the `/scheduletoday/dep/arr/true` path. |
| `Ferries.FetchRouteDetails` | src/services/wsdotFerries.js:104-122 | Equal to `RouteDetails` on the cache before the call: the guard, the `routedetails:date:dep:arr` key and the path. |
| `Ferries.ScheduleFieldsRules` | src/services/wsdotFerries.js:189-222 | The schedule count is every extracted sailing, past and cancelled ones included. With no sailing chosen, the wait is null and the route's crossing is kept. With one, the wait is the rounded minutes to its departure, never below 0. The crossing is then the route's when truthy, else the sailing's rounded duration when it has an arrival. |
| `Ferries.GetFerryRouteData` | src/services/wsdotFerries.js:150-224 | The answer, the cache afterwards and the requests are those of `RouteData` on the cache before the call. |
| `Ferries.RouteDataUnknownRoute` | src/services/wsdotFerries.js:151-154 | An unknown route key answers null with no request. |
| `Ferries.RouteDataMissingAccessCode` | src/services/wsdotFerries.js:165-170 | Without an access code, a known route answers its oriented definition marked `missing_access_code`, with no request and the cache untouched. |
| `Ferries.RouteDataOrientation` | src/services/wsdotFerries.js:151-163 | A known route always answers a record, never null, carrying the definition oriented for the direction. The definition comes from `getFerryRouteDefinition` (line 124, called at line 151) and is oriented at lines 156-163: its terminals are exchanged unless the direction is `west_east`. |
| `Ferries.RouteDataRequestOrder` | src/services/wsdotFerries.js:172-183 | The schedule is requested first. The route details are requested only when the schedule request succeeded. |
| `Ferries.RouteDataRequests` | src/services/wsdotFerries.js:156-183 | With no direction and a cold cache, the first request is the schedule from the stored arriving terminal to the stored departing one. When it succeeds, a second request follows. |
| `RoutesSource.DriveSegments` | src/services/routesSource.js:52-72 | There are segments exactly when home and destination are configured and the key is a known route. They are two segments, from home and to the destination. |
| `RoutesSource.GetSecondLegDriveTime` | src/services/routesSource.js:86-108 | The answer and the drive cache afterwards are those of `SecondLeg` on the cache before the call. |
| `RoutesSource.SecondLegDepartureCases` | src/services/routesSource.js:91-101 | The second leg has a departure exactly when the first leg, wait and crossing are all non-null. It is then `departAt + (first + wait + crossing) * 60000`. |
| `RoutesSource.LegsWithoutCoordinates` | src/services/routesSource.js:52-89 | Without home or destination, or with a segment missing an endpoint, both legs are null with no request and the cache untouched. |
| `RoutesSource.TerminalArrivalTime` | src/services/routesSource.js:13-15 | The terminal arrival exists exactly when the first leg is non-null. It is then `departAt + first * 60000`. |
| `RoutesSource.DriveTotalCases` | src/services/routesSource.js:34-36 | The drive time is non-null exactly when both legs are, and is then their sum. |
| `RoutesSource.TotalEtaCases` | src/services/routesSource.js:110-120 | The total ETA is null exactly when the drive time, wait or crossing is null. Otherwise it is their sum. An absent field (missing access code) gives NaN, not null. |
| `RoutesSource.TotalEtaExample` | src/services/routesSource.js:110-120 | A 20 + 10 minute drive, a 15 minute wait and a 35 minute crossing give 80. |
| `RoutesSource.ComposeRoute` | src/services/routesSource.js:10-46 | One route's pipeline (first leg, terminal arrival, ferry, second leg, totals) equals `Pipeline` on both caches before the call. |
| `RoutesSource.PipelineRoute` | src/services/routesSource.js:17-45 | Every composed route carries the stored definition with its terminals exchanged (no direction is passed) and no alerts. Its total ETA is null exactly when the drive time, wait or crossing is. |
| `RoutesSource.PipelineKnownRoute` | src/services/routesSource.js:23-25 | A known route key always yields a record with that id: null comes only from an unknown key. |
| `RoutesSource.RunAllLength` | src/services/routesSource.js:9-47 | The fan-out gives one result per route key, each computed on the caches its predecessors left. |
| `RoutesSource.SettleCases` | src/services/routesSource.js:9-49 | The routes are built exactly when every pipeline succeeds, and then hold the non-null records in key order. Otherwise the first failure is reported. |
| `RoutesSource.SettleTwo` | src/services/routesSource.js:9-49 | With two results both present, the output is both records in order. |
| `RoutesSource.BuildRoutes` | src/services/routesSource.js:5-50 | The answer and both caches afterwards are those of `Build` on the caches before the call. |
| `RoutesSource.BuildRoutesOrder` | src/services/routesSource.js:5-50 | A successful build answers Edmonds–Kingston then Seattle–Bainbridge, each with its terminals exchanged and `alerts: []`. |
| `TravelTime.DriveTraverse` | take_me_home/travel_time.py:41-50 | A drive departs at the start and arrives its duration later, with no wait, slack or risk. |
| `TravelTime.TimedeltaMinutes` | take_me_home/travel_time.py:111-112 | A whole number of minutes under a day prints as `H:MM:00`, as `str(timedelta)` does. |
| `TravelTime.ClassifyRiskBands` | take_me_home/travel_time.py:73-82 | Each risk holds exactly on its band: critical up to the buffer, tight up to buffer + 5 min, moderate up to buffer + 15 min, comfortable beyond. |
| `TravelTime.ClassifyRiskMonotone` | take_me_home/travel_time.py:73-82 | More slack never gives a worse risk. |
| `TravelTime.ViableSailings` | take_me_home/travel_time.py:84-100 | The loop over the sorted sailings gives `OptionsOf` the ascending sailings. |
| `TravelTime.OptionsExactly` | take_me_home/travel_time.py:87-99 | The options are exactly the sailings whose slack `dep - cutoff - arrival` is at least the buffer. Each has `wait = max(0, dep - arrival)`, that slack, and its classified risk. |
| `TravelTime.OptionsAscending` | take_me_home/travel_time.py:86 | From ascending sailings the options are in ascending departure order. |
| `TravelTime.SortedMembers` | take_me_home/travel_time.py:86 | Sorting keeps exactly the same sailings. |
| `TravelTime.ViableOptions` | take_me_home/travel_time.py:84-100 | There are no options exactly when no sailing is viable. Otherwise the first is the earliest viable sailing, with its slack, wait and risk. |
| `TravelTime.FerryTraverseChoice` | take_me_home/travel_time.py:102-123 | The ferry leg fails exactly when no sailing is viable. Otherwise it takes the earliest viable sailing: it departs at the start, arrives a crossing after that sailing, and lasts the crossing, with that sailing's wait, slack and risk. |
| `TravelTime.FerryPunctual` | take_me_home/travel_time.py:102-123 | With a cutoff plus buffer that is not negative, a ferry leg arrives its wait plus its duration after it starts. |
| `TravelTime.EvaluateRoute` | take_me_home/travel_time.py:156-175 | The loop over the legs gives `Evaluation` of the route from the start. |
| `TravelTime.WalkChained` | take_me_home/travel_time.py:162-166 | There is one result per leg, and each leg starts at the previous leg's arrival (the first at the start). |
| `TravelTime.EvaluationShape` | take_me_home/travel_time.py:159-175 | An evaluation has one leg result per leg, chained. It departs at the start, arrives at the final cursor, lasts arrival − start, and its waits are the sum of the leg waits. |
| `TravelTime.EmptyRoute` | take_me_home/travel_time.py:167-175 | An empty route arrives at the start with total duration 0 and no waits. |
| `TravelTime.SumsOfPunctual` | take_me_home/travel_time.py:159-167 | Along chained, punctual legs the time elapsed is the sum of the durations plus the sum of the waits. |
| `TravelTime.WalkPunctual` | take_me_home/travel_time.py:162-166 | With sane cutoffs every traversed leg is punctual. |
| `TravelTime.TotalIsTravelPlusWaits` | take_me_home/travel_time.py:159-175 | With sane cutoffs the total duration is the legs' durations plus the waits. |
| `TravelTime.SlackWarnings` | take_me_home/travel_time.py:145-153 | The loop gives one warning text per flagged leg, in leg order. |
| `TravelTime.FlaggedLegsFlagged` | take_me_home/travel_time.py:149 | Every leg warned about has a slack and is rated critical or tight. |
| `TravelTime.FlaggedLegsExactly` | take_me_home/travel_time.py:148-152 | The legs warned about are exactly the legs with a slack rated critical or tight. |
| `TravelTime.FlaggedLegsAppend` | take_me_home/travel_time.py:148-152 | The warnings of two runs of legs are the first run's followed by the second's, so order is kept. |
| `Models.NewFerryOption` | take_me_home/models.py:21-27 | An option is built exactly when arrival is after departure, risk is in [0, 1] and the buffer is not negative, and then holds the given fields. Otherwise the first failing check's message is raised. |
| `Models.DurationMinutes` | take_me_home/models.py:29-33 | The duration is the whole minutes between departure and arrival, rounded down, and not negative for a valid option. |
| `Models.NewTravelPlan` | take_me_home/models.py:90-94 | A plan is built exactly when no minute field is negative. Otherwise the first negative field, in declaration order, is named: `<field> cannot be negative`. |
| `Models.DoorToDoorSpan` | take_me_home/models.py:96-124 | The departure-to-arrival span is the sailing plus every drive and buffer minute. It equals `total_travel_minutes` exactly when the sailing lasts a whole number of minutes. |
| `Models.PlanBracketsSailing` | take_me_home/models.py:112-124 | A valid plan leaves no later than its sailing departs and arrives no earlier than its sailing lands. Its total travel is at least its drive and buffer minutes. |
| `Routes.ParseInt` | take_me_home/routes.py:13 | `int(s)` succeeds exactly on a non-empty digit string, with that value. Otherwise it raises Python's `invalid literal` message. |
| `Routes.ClockTime` | take_me_home/routes.py:13 | A time read from `t[:2]` and `t[3:]` is within the day and on a whole minute. |
| `Routes.DayStart` | take_me_home/routes.py:13 | The anchor's midnight is on or before it, within one day, and on a day boundary. |
| `Routes.ScheduleEntries` | take_me_home/routes.py:11-13 | The schedule succeeds exactly when every entry reads, keeping length and order. Each entry is the anchor's date at the entry's hour and minute, with seconds and microseconds 0. |
| `Routes.ScheduleFirstError` | take_me_home/routes.py:13 | The first entry that does not read is the error raised. |
| `Routes.ClockTimeOfHourMinute` | take_me_home/routes.py:13 | Reading back an `HH:MM` rendering gives the time of day to the whole minute. |
| `Routes.EdmondsSchedule` | take_me_home/routes.py:19-22 | The Edmonds schedule is 5 sailings from 15:10 on the anchor's date, 30 minutes apart. |
| `Routes.BainbridgeSchedule` | take_me_home/routes.py:23-26 | The Bainbridge schedule is 5 sailings from 15:25 on the anchor's date, 30 minutes apart. |
| `Routes.CandidateRoutesBuilt` | take_me_home/routes.py:16-90 | Building never fails and gives three routes, in this order: Edmonds → Kingston (drive, ferry, drive), Seattle → Bainbridge (drive, ferry, drive) and Tacoma Narrows (two drives), with the half-hourly sailings above. The Edmonds–Kingston ferry crosses in 32 minutes with a 20-minute loading cutoff and a 7-minute buffer; Seattle–Bainbridge in 35 minutes with 30 and 10. |
| `Routes.CandidateCutoffsSane` | take_me_home/routes.py:37-67 | Every candidate ferry leg has a cutoff plus buffer that is not negative, so the totals lemmas apply. |
| `Planner.RoutePlanner.constructor` | take_me_home/planner.py:15-17 | The planner keeps its start time and the candidate routes built for it. |
| `Planner.RoutePlanner.Evaluate` | take_me_home/planner.py:19-22 | The loop of evaluations followed by the sort gives `Ranked` of the routes from the start time. |
| `Planner.EvaluateAllEntries` | take_me_home/planner.py:20 | The evaluations succeed exactly when every route's does, and then hold one result per route, in route order. |
| `Planner.EvaluateAllFirstError` | take_me_home/planner.py:20 | The error raised is that of the first route that cannot be evaluated. |
| `Planner.RankedOrder` | take_me_home/planner.py:19-22 | The ranking is a permutation of the evaluations, ascending by arrival, with equal arrivals kept in route order. Every result departs at the start time. |
| `Planner.RankedUnique` | take_me_home/planner.py:21 | Any stable arrangement of the evaluations by arrival is the ranking. |
| `Planner.RankedHead` | take_me_home/planner.py:21-22 | The best-ranked route arrives no later than any route, and no earlier route in route order arrives as early. |
| `Planner.RankedFailure` | take_me_home/planner.py:20 | Evaluation fails exactly when some route has no viable sailing. |
| `Sorting.SortBy` | take_me_home/planner.py:21 | The result is a stable sort by the key: the same length and multiset, ascending by key, with the same order within each key. |
| `Sorting.StableSortUnique` | take_me_home/planner.py:21 | Two sorted sequences with the same order within each key are equal: a stable sort has one outcome. |
| `ScoringConfig.DefaultsAndUnknownName` | take_me_home/config.py:33-73 | The defaults are 0.6, 0.3, 0.1, 0.0 and 0.0. Tuning the total travel time to 0.5 changes only it. An unknown name raises `Unknown scoring weights: unknown`. |
| `ScoringConfig.TunedRejects` | take_me_home/config.py:60-64 | Tuning fails exactly when an unknown name is passed. The message lists exactly the unknown names passed, each once, in sorted order. |
| `ScoringConfig.TunedAccepts` | take_me_home/config.py:65 | With known names, each field is its override when one is passed, and otherwise its old value. |
| `ScoringConfig.ToDict` | take_me_home/config.py:67-70 | The dictionary has the five field names in declaration order, mapped to the current weights. |
| `ScoringConfig.TunedToDict` | take_me_home/config.py:65-70 | Tuning any weights with another's dictionary gives that other. Tuning with nothing gives the same weights. |
| `ScoringConfig.SetWeightReads` | take_me_home/config.py:65 | Replacing one field sets it and leaves the other fields unchanged. |
| `ScoringConfig.ReplaceReads` | take_me_home/config.py:65 | Replacing with distinct names sets each field to its override, or else keeps it. |
| `ScoringConfig.SortedNamesSorted` | take_me_home/config.py:63 | `sorted(unexpected)` is strictly ascending in Python's string order and holds exactly the given names. |
| `ScoringConfig.UnknownNamesMembers` | take_me_home/config.py:60-61 | The unexpected names are exactly the passed names that are not fields. |
| `ScoringConfig.LessTotal` | take_me_home/config.py:63 | Python's string order is total and asymmetric. |
| `ScoringConfig.LessTransitive` | take_me_home/config.py:63 | Python's string order is transitive. |
| `Ui.FormatMinutesExamples` | public/ui.js:3-13 | 45 is `45 min`, 120 is `2 hr`, 95 is `1 hr 35 min` and null is `-`. |
| `Ui.FormatMinutesRoundTrip` | public/ui.js:7-12 | Every minute count reads back from its text: under 60 as `<v> min`, otherwise as `⌊v/60⌋` hours and `v mod 60` minutes, with the minutes left out when 0. |
| `Ui.FormatMinutesInjective` | public/ui.js:3-13 | Different minute counts, negative ones included, never format alike. |
| `Ui.FormatMinutesOneLine` | public/ui.js:3-13 | The formatted minutes hold no line break. |
| `Ui.DriveLegsLines` | public/ui.js:26-33 | The result is `-` for a non-array or an empty list. Otherwise, when no title has a line break, splitting the text at line breaks gives one `<name or Leg>: <minutes>` line per leg, in order. |
| `Ui.UnnamedLeg` | public/ui.js:31 | A leg with an empty or undefined name is shown as `Leg`. |

## Left out

- Concurrency: `Promise.all` in routesSource.js runs the two route pipelines concurrently. The model runs them in key order, each on the caches the previous one left, and reports the first failure.
- Settling: every pipeline runs and leaves its cache writes, as in the source, where a rejected `Promise.all` does not cancel the other pipeline. The error reported is the first in key order; the source reports whichever rejects first in time.
- Clock: each call reads the clock once, so time does not advance between a cache read and a network response. The directions estimator keeps separate read and write times.
- Host behaviour: HTTP, `URL` resolution and percent-encoding, JSON decoding, `new Date(string)`, `Number(string)` and the local calendar of a `Date` are parameters of the model. A decoded JSON object is an `Obj` holding its fields as a sequence, read in order, with the first field of a name winning; the decoder is taken to hand over the fields in JavaScript property order (integer-like names first, as `Object.values` lists them) and with distinct names (`JSON.parse` keeps the last of two duplicates).
- `Ferries.FerryStatus`: `next_departure` and `next_arrival` are kept as time values; the ISO 8601 text that `toISOString()` makes of them is not produced. For a valid `Date` the two correspond one to one; the `RangeError` that `toISOString()` throws for an invalid `Date` does not arise, since every integer is taken as a valid time value (next line).
- `new Date(n)` range limits are not modelled: every integer is a valid time value.
- Numbers: JavaScript numbers are integers or NaN. Fractional values (coordinates, fractional minutes or seconds) are not modelled. Coordinates are opaque strings.
- Configuration: reading the environment (`src/config.js`, `take_me_home` constants) is done through parameters (API key, access code, TTL, terminal ids, coordinates).
- `Models.NewFerryOption`: `risk` is an exact real, so Python's float NaN and infinities cannot be passed. The source rejects all three with the risk message, since `not 0.0 <= risk <= 1.0` holds for each of them; the model has no such inputs.
- `Models.DurationMinutes`: floors the exact microsecond span. The source floors the float `total_seconds()`, which can differ for spans far beyond any sailing.
- `Routes.ParseInt`: accepts decimal digits only. Python's `int()` also accepts signs, surrounding whitespace and underscores, none of which occur in the fixed schedule strings.
- Python `datetime` limits and time zones: the year range of `datetime`, `tzinfo` and daylight-saving shifts on `replace` are not modelled. Datetimes are naive microsecond counts.
- `TravelTime.FerryTraverse`: the error carries the leg name and start time. The `isoformat()` text of the message is not produced.
- `FutureContext`, `WeatherDisruption` and `ReservationAvailability`: float scoring hooks that are not part of this model. `TravelPlan` carries no future context.
- Float scoring: `scoring.py` and `explain.py` are not part of this model.
- Text output: `RoutePlanner.describe` and `summary` format text with `strftime` and are not part of this model.
- Scoring weights are reals. `tuned` passes keyword arguments, modelled as a list of distinct (name, value) pairs, since Python refuses a repeated keyword.
- Value semantics: `tuned` leaves the receiver unchanged, which holds by construction because `ScoringWeights` is a value.
- Page code: the React `App`, `formatDate` and `buildDepartAt` in `public/ui.js` are not part of this model.
- `Ui.FormatMinutesRoundTrip`: stated for minute counts that are not negative. Any integer formats, and a negative one prints as `<v> min`.
- Leg views: `formatDriveLegs` is modelled on lists of (name, minutes) views. Non-object legs and non-numeric minutes are not modelled.
- `Ferries.NextSailingChoice`: stated for lists without null sailings. A null sailing makes the source throw, which the model reports as an error.
- `Ferries.SameChoice`: stated for lists without null sailings, for the same reason; `Ferries.NextSailingOrderIndependent` covers lists with them.
- `Ferries.NoLaterThan`: stated for lists without null sailings, for the same reason.
- `Ferries.NextSailingOrderIndependent`: only the departure instant is promised. Two sailings leaving at the same instant may be picked differently for different list orders, as in the source.
- `DateUtils.DiffMinutesMeaning`: stated for valid instants. An invalid date gives NaN.
- `Directions.DriveSuccess`: stated for a numeric duration. A duration given as a string goes through `Number(string)`, which is a parameter.
- `DateUtils.TripDateRoundTrip`: stated for years without a sign and for months and days in calendar range.
- HTTP wiring is not part of this model: `src/app.js`, `src/index.js` and `routePlanner.js`. Of `routePlanner.js`, only its dropping of `direction` is reflected, in `RoutesSource.PipelineRoute`.
- Network clients: the Python clients in `src/data_fetch` are not part of this model.
