/**
 * src/services/wsdotFerries.js: reading the ferry provider's schedule payloads, choosing
 * the next sailing, and putting together the ferry part of a route.
 */
module Ferries {
  import opened Wrappers
  import opened Text
  import opened Sorting
  import opened Js
  import opened Cache
  import opened DateUtils
  import WsdotClient

  const ScheduleBaseUrl: string := "https://wsdot.wa.gov/Ferries/API/Schedule/rest"

  // ---------------------------------------------------------------- payload lists

  /** The items of the first field (in field order) whose value is an array. */
  function FirstArray(fields: seq<(string, Value)>): Option<seq<Value>> {
    if fields == [] then None
    else if fields[0].1.Arr? then Some(fields[0].1.items)
    else FirstArray(fields[1..])
  }

  /** `toArray(value)`. */
  function ToArray(v: Value): seq<Value> {
    match v
    case Arr(items) => items
    case Obj(fields) => (match FirstArray(fields) case Some(items) => items case None => [v])
    case Undefined => []
    case Null => []
    case Bool(_) => []
    case Number(_) => []
    case Str(_) => []
  }

  lemma {:induction false} FirstArrayAt(fields: seq<(string, Value)>, i: nat)
    requires i < |fields| && fields[i].1.Arr?
    requires forall j :: 0 <= j < i ==> !fields[j].1.Arr?
    ensures FirstArray(fields) == Some(fields[i].1.items)
    decreases i
  {
    if i > 0 {
      FirstArrayAt(fields[1..], i - 1);
    }
  }

  lemma {:induction false} FirstArrayNone(fields: seq<(string, Value)>)
    requires forall j :: 0 <= j < |fields| ==> !fields[j].1.Arr?
    ensures FirstArray(fields) == None
    decreases |fields|
  {
    if fields != [] {
      FirstArrayNone(fields[1..]);
    }
  }

  /**
   * An array is its own list; an object yields its first array-valued field, or else
   * itself as a one-element list; every other value yields the empty list.
   */
  lemma ToArrayCases(v: Value)
    ensures v.Arr? ==> ToArray(v) == v.items
    ensures v.Obj? ==> forall i :: 0 <= i < |v.fields| && v.fields[i].1.Arr? && (forall j :: 0 <= j < i ==> !v.fields[j].1.Arr?)
                                   ==> ToArray(v) == v.fields[i].1.items
    ensures v.Obj? && (forall j :: 0 <= j < |v.fields| ==> !v.fields[j].1.Arr?) ==> ToArray(v) == [v]
    ensures !v.Arr? && !v.Obj? ==> ToArray(v) == []
  {
    if v.Obj? {
      forall i | 0 <= i < |v.fields| && v.fields[i].1.Arr? && (forall j :: 0 <= j < i ==> !v.fields[j].1.Arr?)
        ensures ToArray(v) == v.fields[i].1.items
      {
        FirstArrayAt(v.fields, i);
      }
      if forall j :: 0 <= j < |v.fields| ==> !v.fields[j].1.Arr? {
        FirstArrayNone(v.fields);
      }
    }
  }

  /** `terminalCombos.flatMap((combo) => toArray(combo.Times))`; a null or undefined combo throws. */
  function AllTimes(combos: seq<Value>): Result<seq<Value>, Error> {
    if combos == [] then Ok([])
    else if Nullish(combos[0]) then Err(TypeError)
    else
      match AllTimes(combos[1..])
      case Err(e) => Err(e)
      case Ok(rest) => Ok(ToArray(Get(combos[0], "Times")) + rest)
  }

  /** The flat list of two runs of combos is the first run's list followed by the second's. */
  lemma {:induction false} AllTimesAppend(a: seq<Value>, b: seq<Value>)
    requires AllTimes(a).Ok? && AllTimes(b).Ok?
    ensures AllTimes(a + b) == Ok(AllTimes(a).value + AllTimes(b).value)
    decreases |a|
  {
    if a == [] {
      assert a + b == b;
      assert AllTimes(a).value + AllTimes(b).value == AllTimes(b).value;
    } else {
      assert (a + b)[0] == a[0] && (a + b)[1..] == a[1..] + b;
      AllTimesAppend(a[1..], b);
      var head := ToArray(Get(a[0], "Times"));
      var x, y := AllTimes(a[1..]).value, AllTimes(b).value;
      assert AllTimes(a) == Ok(head + x);
      assert AllTimes(a + b) == Ok(head + (x + y));
      assert head + (x + y) == (head + x) + y;
    }
  }

  /** Flattening fails exactly when some combo is null or undefined. */
  lemma {:induction false} AllTimesFails(combos: seq<Value>)
    ensures AllTimes(combos).Err? <==> exists i :: 0 <= i < |combos| && Nullish(combos[i])
    decreases |combos|
  {
    if combos != [] {
      AllTimesFails(combos[1..]);
      if exists i :: 0 <= i < |combos[1..]| && Nullish(combos[1..][i]) {
        var i :| 0 <= i < |combos[1..]| && Nullish(combos[1..][i]);
        assert Nullish(combos[i + 1]);
      }
      if exists i :: 0 <= i < |combos| && Nullish(combos[i]) {
        var i :| 0 <= i < |combos| && Nullish(combos[i]);
        if i > 0 {
          assert Nullish(combos[1..][i - 1]);
        }
      }
    }
  }

  const ResultFields: seq<string> :=
    ["GetTodaysScheduleByTerminalComboResult", "GetScheduleByTerminalComboResult", "GetScheduleByRouteResult"]

  /** `extractSailings(scheduleResponse)`. */
  function ExtractSailings(response: Value): Result<seq<Value>, Error> {
    var combos := Get(response, "TerminalCombos");
    if combos.Arr? then AllTimes(combos.items)
    else
      Ok(ToArray(Coalesce([Get(response, ResultFields[0]), Get(response, ResultFields[1]),
                           Get(response, ResultFields[2]), response])))
  }

  lemma Coalesce4(a: Value, b: Value, c: Value, d: Value)
    ensures Coalesce([a, b, c, d]) ==
      if !Nullish(a) then a else if !Nullish(b) then b else if !Nullish(c) then c else d
  {
    var vs := [a, b, c, d];
    assert vs[1..] == [b, c, d] && vs[1..][1..] == [c, d] && vs[1..][1..][1..] == [d];
    assert Coalesce([c, d]) == if !Nullish(c) then c else d;
    assert Coalesce([b, c, d]) == if !Nullish(b) then b else Coalesce([c, d]);
  }

  /** A missing payload has no sailings. */
  lemma ExtractFromNothing(response: Value)
    requires Nullish(response)
    ensures ExtractSailings(response) == Ok([])
  {
    Coalesce4(Get(response, ResultFields[0]), Get(response, ResultFields[1]), Get(response, ResultFields[2]), response);
  }

  /**
   * A payload that is itself the list of sailings, and one that wraps the list in the
   * first fallback field, both give that list.
   */
  lemma ExtractPlainAndWrapped(sailings: seq<Value>)
    ensures ExtractSailings(Arr(sailings)) == Ok(sailings)
    ensures ExtractSailings(Obj([(ResultFields[0], Arr(sailings))])) == Ok(sailings)
  {
    var plain := Arr(sailings);
    Coalesce4(Get(plain, ResultFields[0]), Get(plain, ResultFields[1]), Get(plain, ResultFields[2]), plain);
    var wrapped := Obj([(ResultFields[0], plain)]);
    assert ResultFields[0][0] == 'G' && "TerminalCombos"[0] == 'T';
    assert ResultFields[0] != "TerminalCombos";
    assert wrapped.fields[0].0 != "TerminalCombos";
    assert Lookup(wrapped.fields[1..], "TerminalCombos") == Undefined;
    assert Get(wrapped, "TerminalCombos") == Undefined;
    assert Get(wrapped, ResultFields[0]) == plain;
    Coalesce4(plain, Get(wrapped, ResultFields[1]), Get(wrapped, ResultFields[2]), wrapped);
  }

  // ---------------------------------------------------------------- next sailing

  const DepartureFields: seq<string> :=
    ["DepartingTime", "DepartureTime", "DepartingDateTime", "DepartureDateTime", "ScheduledDeparture"]
  const ArrivalFields: seq<string> :=
    ["ArrivingTime", "ArrivalTime", "ArrivingDateTime", "ArrivalDateTime", "ScheduledArrival"]
  const CancelFields: seq<string> := ["IsCancelled", "IsCanceled", "Canceled", "Cancelled"]

  /** A sailing with its parsed departure and arrival instants. */
  datatype Candidate = Candidate(sailing: Value, departingAt: Option<Num>, arrivingAt: Option<Num>)

  function ToCandidate(sailing: Value, parseDate: string -> Num): Candidate {
    Candidate(sailing,
              ParseWsdotDate(Plain(FirstPresent(sailing, DepartureFields)), parseDate),
              ParseWsdotDate(Plain(FirstPresent(sailing, ArrivalFields)), parseDate))
  }

  /** The first present cancellation flag is truthy; later flags are not consulted. */
  predicate Cancelled(sailing: Value) {
    Truthy(FirstPresent(sailing, CancelFields))
  }

  /** The filter: a departure not before `now`, and not cancelled. */
  predicate Eligible(c: Candidate, now: Num) {
    c.departingAt.Some? && AtLeast(c.departingAt.value, now) && !Cancelled(c.sailing)
  }

  /** The eligible candidates, in sailing order. */
  function Upcoming(sailings: seq<Value>, now: Num, parseDate: string -> Num): seq<Candidate> {
    if sailings == [] then []
    else
      var c := ToCandidate(sailings[0], parseDate);
      (if Eligible(c, now) then [c] else []) + Upcoming(sailings[1..], now, parseDate)
  }

  /** The sort key `a.departingAt - b.departingAt` compares; every eligible candidate has it. */
  function DepartureKey(c: Candidate): int {
    if c.departingAt.Some? && c.departingAt.value.Int? then c.departingAt.value.i else 0
  }

  /** `departAt || new Date()`, given the clock reading `clock`. */
  function ReferenceOf(departAt: Option<Num>, clock: int): Num {
    if departAt.Some? then departAt.value else Int(clock)
  }

  /**
   * `findNextSailing(sailings, departAt)`: a null or undefined sailing throws while its
   * fields are read; otherwise the head of the eligible candidates sorted (stably) by
   * departure, or `null`.
   */
  function FindNextSailing(sailings: seq<Value>, departAt: Option<Num>, clock: int, parseDate: string -> Num)
    : Result<Option<Candidate>, Error>
  {
    if exists i :: 0 <= i < |sailings| && Nullish(sailings[i]) then Err(TypeError)
    else
      var upcoming := Upcoming(sailings, ReferenceOf(departAt, clock), parseDate);
      if upcoming == [] then Ok(None) else Ok(Some(SortBy(upcoming, DepartureKey)[0]))
  }

  lemma {:induction false} UpcomingMembers(sailings: seq<Value>, now: Num, parseDate: string -> Num, c: Candidate)
    ensures c in Upcoming(sailings, now, parseDate) <==>
      exists i :: 0 <= i < |sailings| && c == ToCandidate(sailings[i], parseDate) && Eligible(c, now)
    decreases |sailings|
  {
    if sailings != [] {
      UpcomingMembers(sailings[1..], now, parseDate, c);
      if exists i :: 0 <= i < |sailings[1..]| && c == ToCandidate(sailings[1..][i], parseDate) && Eligible(c, now) {
        var i :| 0 <= i < |sailings[1..]| && c == ToCandidate(sailings[1..][i], parseDate) && Eligible(c, now);
        assert sailings[1..][i] == sailings[i + 1];
      }
      if exists i :: 0 <= i < |sailings| && c == ToCandidate(sailings[i], parseDate) && Eligible(c, now) {
        var i :| 0 <= i < |sailings| && c == ToCandidate(sailings[i], parseDate) && Eligible(c, now);
        if i > 0 {
          assert sailings[1..][i - 1] == sailings[i];
        }
      }
    }
  }

  /**
   * Without null sailings the result is `null` exactly when no sailing is eligible;
   * otherwise it is an eligible sailing of the list that no eligible sailing departs
   * before, and the first such among the eligible ones in list order.
   */
  lemma NextSailingChoice(sailings: seq<Value>, departAt: Option<Num>, clock: int, parseDate: string -> Num)
    requires forall i :: 0 <= i < |sailings| ==> !Nullish(sailings[i])
    ensures var r := FindNextSailing(sailings, departAt, clock, parseDate);
      var now := ReferenceOf(departAt, clock);
      && r.Ok?
      && (r.value.None? <==> forall i :: 0 <= i < |sailings| ==> !Eligible(ToCandidate(sailings[i], parseDate), now))
      && (r.value.Some? ==>
            var c := r.value.value;
            && Eligible(c, now)
            && (exists i :: 0 <= i < |sailings| && c == ToCandidate(sailings[i], parseDate))
            && (forall i :: 0 <= i < |sailings| && Eligible(ToCandidate(sailings[i], parseDate), now) ==>
                  c.departingAt.value.i <= ToCandidate(sailings[i], parseDate).departingAt.value.i)
            && exists k :: IsFirstMin(Upcoming(sailings, now, parseDate), DepartureKey, k)
                           && c == Upcoming(sailings, now, parseDate)[k])
  {
    var now := ReferenceOf(departAt, clock);
    var upcoming := Upcoming(sailings, now, parseDate);
    AllEligibleUpcoming(sailings, now, parseDate);
    if upcoming != [] {
      var k := SortByHead(upcoming, DepartureKey);
      UpcomingMembers(sailings, now, parseDate, upcoming[k]);
      HeadDepartsFirst(sailings, now, parseDate, k);
    } else {
      assert forall i :: 0 <= i < |sailings| ==> !Eligible(ToCandidate(sailings[i], parseDate), now);
    }
  }

  lemma AllEligibleUpcoming(sailings: seq<Value>, now: Num, parseDate: string -> Num)
    ensures forall i :: 0 <= i < |sailings| && Eligible(ToCandidate(sailings[i], parseDate), now) ==>
      ToCandidate(sailings[i], parseDate) in Upcoming(sailings, now, parseDate)
  {
    forall i | 0 <= i < |sailings| && Eligible(ToCandidate(sailings[i], parseDate), now)
      ensures ToCandidate(sailings[i], parseDate) in Upcoming(sailings, now, parseDate)
    {
      UpcomingMembers(sailings, now, parseDate, ToCandidate(sailings[i], parseDate));
    }
  }

  lemma HeadDepartsFirst(sailings: seq<Value>, now: Num, parseDate: string -> Num, k: int)
    requires IsFirstMin(Upcoming(sailings, now, parseDate), DepartureKey, k)
    requires forall i :: 0 <= i < |sailings| && Eligible(ToCandidate(sailings[i], parseDate), now) ==>
      ToCandidate(sailings[i], parseDate) in Upcoming(sailings, now, parseDate)
    requires Eligible(Upcoming(sailings, now, parseDate)[k], now)
    ensures forall i :: 0 <= i < |sailings| && Eligible(ToCandidate(sailings[i], parseDate), now) ==>
      Upcoming(sailings, now, parseDate)[k].departingAt.value.i <= ToCandidate(sailings[i], parseDate).departingAt.value.i
  {
    var upcoming := Upcoming(sailings, now, parseDate);
    forall i | 0 <= i < |sailings| && Eligible(ToCandidate(sailings[i], parseDate), now)
      ensures upcoming[k].departingAt.value.i <= ToCandidate(sailings[i], parseDate).departingAt.value.i
    {
      var x := ToCandidate(sailings[i], parseDate);
      var p :| 0 <= p < |upcoming| && upcoming[p] == x;
      assert DepartureKey(upcoming[k]) <= DepartureKey(upcoming[p]);
    }
  }

  /**
   * The departure chosen does not depend on the order of the sailings: two lists with the
   * same sailings yield the same outcome kind and the same departure instant.
   */
  lemma NextSailingOrderIndependent(s: seq<Value>, t: seq<Value>, departAt: Option<Num>, clock: int, parseDate: string -> Num)
    requires multiset(s) == multiset(t)
    ensures var a := FindNextSailing(s, departAt, clock, parseDate);
      var b := FindNextSailing(t, departAt, clock, parseDate);
      && (a.Err? <==> b.Err?)
      && (a.Ok? ==> (a.value.None? <==> b.value.None?))
      && (a.Ok? && a.value.Some? ==> a.value.value.departingAt == b.value.value.departingAt)
  {
    SameElements(s, t);
    SameElements(t, s);
    SameNullish(s, t);
    if forall i :: 0 <= i < |s| ==> !Nullish(s[i]) {
      SameChoice(s, t, departAt, clock, parseDate);
    }
  }

  lemma SameNullish(s: seq<Value>, t: seq<Value>)
    requires forall i :: 0 <= i < |t| ==> t[i] in s
    requires forall i :: 0 <= i < |s| ==> s[i] in t
    ensures (forall i :: 0 <= i < |s| ==> !Nullish(s[i])) <==> (forall i :: 0 <= i < |t| ==> !Nullish(t[i]))
  {
  }

  lemma SameChoice(s: seq<Value>, t: seq<Value>, departAt: Option<Num>, clock: int, parseDate: string -> Num)
    requires forall i :: 0 <= i < |t| ==> t[i] in s
    requires forall i :: 0 <= i < |s| ==> s[i] in t
    requires forall i :: 0 <= i < |s| ==> !Nullish(s[i])
    requires forall i :: 0 <= i < |t| ==> !Nullish(t[i])
    ensures var a := FindNextSailing(s, departAt, clock, parseDate);
      var b := FindNextSailing(t, departAt, clock, parseDate);
      && a.Ok? && b.Ok?
      && (a.value.None? <==> b.value.None?)
      && (a.value.Some? ==> a.value.value.departingAt == b.value.value.departingAt)
  {
    NoLaterThan(s, t, departAt, clock, parseDate);
    NoLaterThan(t, s, departAt, clock, parseDate);
  }

  /** When every sailing of `t` is in `s`, the choice from `s` departs no later than that from `t`. */
  lemma NoLaterThan(s: seq<Value>, t: seq<Value>, departAt: Option<Num>, clock: int, parseDate: string -> Num)
    requires forall i :: 0 <= i < |t| ==> t[i] in s
    requires forall i :: 0 <= i < |s| ==> !Nullish(s[i])
    requires forall i :: 0 <= i < |t| ==> !Nullish(t[i])
    ensures var a := FindNextSailing(s, departAt, clock, parseDate);
      var b := FindNextSailing(t, departAt, clock, parseDate);
      && a.Ok? && b.Ok?
      && (a.value.Some? ==> a.value.value.departingAt.Some? && a.value.value.departingAt.value.Int?)
      && (b.value.Some? ==> b.value.value.departingAt.Some? && b.value.value.departingAt.value.Int?)
      && (b.value.Some? ==> a.value.Some? && a.value.value.departingAt.value.i <= b.value.value.departingAt.value.i)
  {
    NextSailingChoice(s, departAt, clock, parseDate);
    NextSailingChoice(t, departAt, clock, parseDate);
    var b := FindNextSailing(t, departAt, clock, parseDate);
    if b.value.Some? {
      var j :| 0 <= j < |t| && b.value.value == ToCandidate(t[j], parseDate);
      assert ToCandidate(t[j], parseDate) == ToCandidate(s[IndexIn(s, t[j])], parseDate);
    }
  }

  /** A position of `x` in `s`. */
  function IndexIn(s: seq<Value>, x: Value): (i: nat)
    requires x in s
    ensures i < |s| && s[i] == x
  {
    if s[0] == x then 0 else 1 + IndexIn(s[1..], x)
  }

  lemma SameElements(s: seq<Value>, t: seq<Value>)
    requires multiset(s) == multiset(t)
    ensures forall i :: 0 <= i < |t| ==> t[i] in s
  {
    forall i | 0 <= i < |t| ensures t[i] in s {
      assert t[i] in multiset(t);
    }
  }

  /**
   * Cancellation follows the first flag that is present: a sailing whose `IsCancelled` is
   * `false` counts as running even when `IsCanceled` says `true`.
   */
  lemma CancellationFirstFlagWins(rest: seq<(string, Value)>)
    ensures !Cancelled(Obj([("IsCancelled", Bool(false)), ("IsCanceled", Bool(true))] + rest))
  {
    var s := Obj([("IsCancelled", Bool(false)), ("IsCanceled", Bool(true))] + rest);
    assert Get(s, CancelFields[0]) == Bool(false);
  }

  /** The departure is read from the first present field among the five names. */
  lemma DepartureFieldPriority(sailing: Value, parseDate: string -> Num, i: nat)
    requires i < |DepartureFields| && !Nullish(Get(sailing, DepartureFields[i]))
    requires forall j :: 0 <= j < i ==> Nullish(Get(sailing, DepartureFields[j]))
    ensures ToCandidate(sailing, parseDate).departingAt == ParseWsdotDate(Plain(Get(sailing, DepartureFields[i])), parseDate)
  {
    FirstPresentAt(sailing, DepartureFields, i);
  }

  /** The arrival is read from the first present field among the five names. */
  lemma ArrivalFieldPriority(sailing: Value, parseDate: string -> Num, i: nat)
    requires i < |ArrivalFields| && !Nullish(Get(sailing, ArrivalFields[i]))
    requires forall j :: 0 <= j < i ==> Nullish(Get(sailing, ArrivalFields[j]))
    ensures ToCandidate(sailing, parseDate).arrivingAt == ParseWsdotDate(Plain(Get(sailing, ArrivalFields[i])), parseDate)
  {
    FirstPresentAt(sailing, ArrivalFields, i);
  }

  /** A sailing is cancelled exactly when the first present of the four flags is truthy. */
  lemma CancelFieldPriority(sailing: Value, i: nat)
    requires i < |CancelFields| && !Nullish(Get(sailing, CancelFields[i]))
    requires forall j :: 0 <= j < i ==> Nullish(Get(sailing, CancelFields[j]))
    ensures Cancelled(sailing) <==> Truthy(Get(sailing, CancelFields[i]))
  {
    FirstPresentAt(sailing, CancelFields, i);
  }

  // ---------------------------------------------------------------- route definitions

  /** The configured terminal ids. */
  datatype TerminalIds = TerminalIds(edmonds: int, kingston: int, seattle: int, bainbridge: int)

  datatype RouteDefinition = RouteDefinition(
    id: string, name: string, routeId: int,
    departingTerminalId: int, arrivingTerminalId: int, components: seq<string>)

  /** `getFerryRouteDefinition(routeKey)`. */
  function GetFerryRouteDefinition(routeKey: string, ids: TerminalIds): Option<RouteDefinition> {
    if routeKey == "edmonds-kingston" then
      Some(RouteDefinition("edmonds-kingston", "Edmonds ↔ Kingston Ferry", 6, ids.edmonds, ids.kingston,
                           ["Hood Canal Bridge", "Edmonds/Kingston Ferry"]))
    else if routeKey == "seattle-bainbridge" then
      Some(RouteDefinition("seattle-bainbridge", "Seattle ↔ Bainbridge Ferry", 5, ids.seattle, ids.bainbridge,
                           ["Hood Canal Bridge", "Seattle/Bainbridge Ferry"]))
    else None
  }

  /** Exactly the two ferry route keys have a definition, and each keeps its own key as id. */
  lemma KnownFerryRoutes(routeKey: string, ids: TerminalIds)
    ensures GetFerryRouteDefinition(routeKey, ids).Some? <==> routeKey == "edmonds-kingston" || routeKey == "seattle-bainbridge"
    ensures GetFerryRouteDefinition(routeKey, ids).Some? ==> GetFerryRouteDefinition(routeKey, ids).value.id == routeKey
  {
  }

  function Swapped(d: RouteDefinition): RouteDefinition {
    d.(departingTerminalId := d.arrivingTerminalId, arrivingTerminalId := d.departingTerminalId)
  }

  /** The definition oriented for `direction`: only `"west_east"` keeps the stored orientation. */
  function Orient(d: RouteDefinition, direction: Option<string>): RouteDefinition {
    if direction == Some("west_east") then d else Swapped(d)
  }

  /**
   * Every direction but `"west_east"` (a missing one included) exchanges the two terminal
   * ids and keeps the rest; exchanging twice gives back the definition.
   */
  lemma OrientSwaps(d: RouteDefinition, direction: Option<string>)
    ensures direction != Some("west_east") ==>
      var o := Orient(d, direction);
      && o.departingTerminalId == d.arrivingTerminalId && o.arrivingTerminalId == d.departingTerminalId
      && o.id == d.id && o.name == d.name && o.routeId == d.routeId && o.components == d.components
    ensures direction == Some("west_east") ==> Orient(d, direction) == d
    ensures Swapped(Swapped(d)) == d
  {
  }

  // ---------------------------------------------------------------- cached fetches

  /** What the service needs from configuration and the host. */
  datatype FerryEnv = FerryEnv(
    accessCode: string,
    ttlSeconds: int,
    ids: TerminalIds,
    resolve: (string, string) -> WsdotClient.Url,
    http: WsdotClient.Url -> HttpResponse,
    parseDate: string -> Num,
    strToNumber: string -> Num,
    calendar: int -> LocalDate)

  /** A fetch helper's result, the cache it leaves, and the URLs it requested. */
  datatype Fetched = Fetched(result: Result<Value, Error>, store: Store<Value>, requests: seq<WsdotClient.Url>)

  function AccessQuery(code: string): seq<(string, Value)> {
    [("apiaccesscode", Str(code))]
  }

  function ScheduleKey(dep: int, arr: int): string {
    Key("schedule", [IntToString(dep), IntToString(arr), "true"])
  }

  function SchedulePath(dep: int, arr: int): string {
    "/scheduletoday/" + IntToString(dep) + "/" + IntToString(arr) + "/true"
  }

  function RouteDetailsKey(tripDate: string, dep: int, arr: int): string {
    Key("routedetails", [tripDate, IntToString(dep), IntToString(arr)])
  }

  function RouteDetailsPath(tripDate: string, dep: int, arr: int): string {
    "/routedetails/" + tripDate + "/" + IntToString(dep) + "/" + IntToString(arr)
  }

  /**
   * The shared body of both fetch helpers: a truthy cached response is returned; otherwise
   * the service is asked and a successful response is cached for the TTL.
   */
  function CachedFetch(store: Store<Value>, env: FerryEnv, key: string, path: string, now: int): Fetched {
    var (cached, afterRead) := Read(store, key, now);
    if cached.Some? && Truthy(cached.value) then Fetched(Ok(cached.value), afterRead, [])
    else
      var url := WsdotClient.UrlFor(ScheduleBaseUrl, path, AccessQuery(env.accessCode), env.resolve);
      match WsdotClient.JsonOf(env.http(url))
      case Err(e) => Fetched(Err(e), afterRead, [url])
      case Ok(response) => Fetched(Ok(response), Write(afterRead, key, Some(response), env.ttlSeconds * 1000, now), [url])
  }

  /** `fetchScheduleToday({ departingTerminalId, arrivingTerminalId, onlyRemainingTimes: true })`. */
  function ScheduleToday(store: Store<Value>, env: FerryEnv, dep: int, arr: int, now: int): Fetched {
    if env.accessCode == "" then Fetched(Ok(Null), store, [])
    else CachedFetch(store, env, ScheduleKey(dep, arr), SchedulePath(dep, arr), now)
  }

  /** `fetchRouteDetails({ tripDate, departingTerminalId, arrivingTerminalId })`. */
  function RouteDetails(store: Store<Value>, env: FerryEnv, tripDate: string, dep: int, arr: int, now: int): Fetched {
    if env.accessCode == "" then Fetched(Ok(Null), store, [])
    else CachedFetch(store, env, RouteDetailsKey(tripDate, dep, arr), RouteDetailsPath(tripDate, dep, arr), now)
  }

  /** Both helpers answer `null` without a request and without touching the cache when there is no access code. */
  lemma FetchWithoutAccessCode(store: Store<Value>, env: FerryEnv, tripDate: string, dep: int, arr: int, now: int)
    requires env.accessCode == ""
    ensures ScheduleToday(store, env, dep, arr, now) == Fetched(Ok(Null), store, [])
    ensures RouteDetails(store, env, tripDate, dep, arr, now) == Fetched(Ok(Null), store, [])
  {
  }

  /**
   * A live truthy cached response is answered without a request; anything else (a miss,
   * an expired entry, a falsy response) makes exactly one request. A failed request
   * throws and caches nothing; a successful one is cached until `now + ttl`.
   */
  lemma CachedFetchBehaviour(store: Store<Value>, env: FerryEnv, key: string, path: string, now: int)
    ensures var f := CachedFetch(store, env, key, path, now);
      var url := WsdotClient.UrlFor(ScheduleBaseUrl, path, AccessQuery(env.accessCode), env.resolve);
      var (cached, afterRead) := Read(store, key, now);
      && (cached.Some? && Truthy(cached.value) ==> f == Fetched(Ok(store[key].value.value), store, []))
      && (!(cached.Some? && Truthy(cached.value)) ==>
            && f.requests == [url]
            && (f.result.Err? ==> f.store == afterRead && f.result == WsdotClient.JsonOf(env.http(url)))
            && (f.result.Ok? ==> key in f.store && f.store[key] == Entry(Some(f.result.value), now + env.ttlSeconds * 1000)))
  {
  }

  /** A key that is not cached makes exactly one request. */
  lemma ColdFetch(store: Store<Value>, env: FerryEnv, key: string, path: string, now: int)
    requires key !in store
    ensures var f := CachedFetch(store, env, key, path, now);
      && f.requests == [WsdotClient.UrlFor(ScheduleBaseUrl, path, AccessQuery(env.accessCode), env.resolve)]
      && (f.result.Ok? ==> f.store == store[key := Entry(Some(f.result.value), now + env.ttlSeconds * 1000)])
  {
  }

  lemma DetailsKeyFresh(tripDate: string, dep: int, arr: int, v: Value, expiresAt: int)
    ensures RouteDetailsKey(tripDate, dep, arr) !in map[ScheduleKey(dep, arr) := Entry(Some(v), expiresAt)]
  {
    assert RouteDetailsKey(tripDate, dep, arr)[0] == 'r' && ScheduleKey(dep, arr)[0] == 's';
  }

  /** Distinct terminal pairs never share a schedule cache entry. */
  lemma ScheduleKeyInjective(dep: int, arr: int, dep': int, arr': int)
    requires ScheduleKey(dep, arr) == ScheduleKey(dep', arr')
    ensures dep == dep' && arr == arr'
  {
    IntToStringFree(dep, ':');
    IntToStringFree(arr, ':');
    IntToStringFree(dep', ':');
    IntToStringFree(arr', ':');
    KeyThreeInjective("schedule", IntToString(dep), IntToString(arr), "true", IntToString(dep'), IntToString(arr'), "true");
    IntToStringInjective(dep, dep');
    IntToStringInjective(arr, arr');
  }

  method FetchCached(cache: SimpleCache<Value>, env: FerryEnv, key: string, path: string, now: int)
    returns (r: Result<Value, Error>)
    modifies cache
    ensures var f := CachedFetch(old(cache.store), env, key, path, now);
      r == f.result && cache.store == f.store
  {
    var cached := cache.Get(key, now);
    if cached.Some? && Truthy(cached.value) {
      return Ok(cached.value);
    }
    r := WsdotClient.FetchJson(ScheduleBaseUrl, path, AccessQuery(env.accessCode), env.resolve, env.http);
    if r.Ok? {
      cache.Set(key, Some(r.value), env.ttlSeconds * 1000, now);
    }
  }

  /** `fetchScheduleToday` on the module's cache. */
  method FetchScheduleToday(cache: SimpleCache<Value>, env: FerryEnv, dep: int, arr: int, now: int)
    returns (r: Result<Value, Error>)
    modifies cache
    ensures var f := ScheduleToday(old(cache.store), env, dep, arr, now);
      r == f.result && cache.store == f.store
  {
    if env.accessCode == "" {
      return Ok(Null);
    }
    r := FetchCached(cache, env, ScheduleKey(dep, arr), SchedulePath(dep, arr), now);
  }

  /** `fetchRouteDetails` on the module's cache. */
  method FetchRouteDetails(cache: SimpleCache<Value>, env: FerryEnv, tripDate: string, dep: int, arr: int, now: int)
    returns (r: Result<Value, Error>)
    modifies cache
    ensures var f := RouteDetails(old(cache.store), env, tripDate, dep, arr, now);
      r == f.result && cache.store == f.store
  {
    if env.accessCode == "" {
      return Ok(Null);
    }
    r := FetchCached(cache, env, RouteDetailsKey(tripDate, dep, arr), RouteDetailsPath(tripDate, dep, arr), now);
  }

  // ---------------------------------------------------------------- route data

  /**
   * The ferry fields of a route. With no access code the record carries only
   * `data_status: "missing_access_code"`: the schedule fields are absent, which is not the
   * same as null.
   */
  datatype FerryStatus =
    | MissingAccessCode
    | Scheduled(waitMinutes: Option<Num>, crossingMinutes: Option<Num>,
                nextDeparture: Option<Num>, nextArrival: Option<Num>, scheduleCount: nat)

  datatype FerryData = FerryData(route: RouteDefinition, status: FerryStatus)

  /** `Array.isArray(response) ? response[0] : response`. */
  function RouteDetailsOf(response: Value): Value {
    if response.Arr? then (if response.items == [] then Undefined else response.items[0]) else response
  }

  /** `routeDetails?.CrossingTime ? Number(routeDetails.CrossingTime) : null`. */
  function CrossingFromRoute(details: Value, strToNumber: string -> Num): Option<Num> {
    var crossing := Get(details, "CrossingTime");
    if Truthy(crossing) then Some(ToNumber(crossing, strToNumber)) else None
  }

  predicate OptionTruthy(n: Option<Num>) {
    n.Some? && NumTruthy(n.value)
  }

  /** `formatTripDate(departAt || new Date())`; an invalid date prints its fields as NaN. */
  function TripDateFor(departAt: Option<Num>, clock: int, calendar: int -> LocalDate): string {
    var t := ReferenceOf(departAt, clock);
    if t.Int? then FormatTripDate(Some(calendar(t.i))).value else "NaN-NaN-NaN"
  }

  /** `terminalArrivalAt || departAt || new Date()`. */
  function ReferenceTime(terminalArrivalAt: Option<Num>, departAt: Option<Num>, clock: int): Num {
    if terminalArrivalAt.Some? then terminalArrivalAt.value else ReferenceOf(departAt, clock)
  }

  /** The computed fields, from the sailings, the chosen sailing, the route's crossing time and the reference. */
  function ScheduleFields(sailings: seq<Value>, next: Option<Candidate>, crossingFromRoute: Option<Num>, reference: Num)
    : FerryStatus
  {
    match next
    case None => Scheduled(None, crossingFromRoute, None, None, |sailings|)
    case Some(c) =>
      var wait := DiffMinutes(Some(reference), c.departingAt);
      var crossing :=
        if !OptionTruthy(crossingFromRoute) && c.arrivingAt.Some? then DiffMinutes(c.departingAt, c.arrivingAt)
        else crossingFromRoute;
      Scheduled(if wait.None? then None else Some(Max(wait.value, Int(0))), crossing, c.departingAt, c.arrivingAt, |sailings|)
  }

  /**
   * The schedule count is every extracted sailing, past and cancelled ones included. With
   * no sailing chosen the wait is null and the route's crossing time is kept. With one,
   * the wait is the rounded minutes from the reference to its departure, never below zero;
   * the crossing is the route's when truthy, else the sailing's rounded duration when it
   * has an arrival.
   */
  lemma ScheduleFieldsRules(sailings: seq<Value>, next: Option<Candidate>, crossingFromRoute: Option<Num>, reference: int)
    requires next.Some? ==> next.value.departingAt.Some? && next.value.departingAt.value.Int?
    ensures var f := ScheduleFields(sailings, next, crossingFromRoute, Int(reference));
      && f.Scheduled? && f.scheduleCount == |sailings|
      && (next.None? ==> f.waitMinutes.None? && f.crossingMinutes == crossingFromRoute
                         && f.nextDeparture.None? && f.nextArrival.None?)
      && (next.Some? ==>
            var c := next.value;
            var d := c.departingAt.value.i;
            && f.nextDeparture == c.departingAt && f.nextArrival == c.arrivingAt
            && f.waitMinutes.Some? && f.waitMinutes.value.Int? && f.waitMinutes.value.i >= 0
            && (d >= reference ==> 2 * f.waitMinutes.value.i * 60000 - 60000 <= 2 * (d - reference)
                                                                  < 2 * f.waitMinutes.value.i * 60000 + 60000)
            && (OptionTruthy(crossingFromRoute) ==> f.crossingMinutes == crossingFromRoute)
            && (!OptionTruthy(crossingFromRoute) && c.arrivingAt.Some? ==>
                  f.crossingMinutes == DiffMinutes(c.departingAt, c.arrivingAt))
            && (c.arrivingAt.None? ==> f.crossingMinutes == crossingFromRoute))
  {
    if next.Some? {
      DiffMinutesMeaning(reference, next.value.departingAt.value.i);
    }
  }

  /** What one `getFerryRouteData` call returns, the cache it leaves, and the URLs it requested. */
  datatype RouteDataOutcome = RouteDataOutcome(result: Result<Option<FerryData>, Error>, store: Store<Value>,
                                               requests: seq<WsdotClient.Url>)

  /**
   * `getFerryRouteData({ routeKey, departAt, terminalArrivalAt, direction })` as a
   * function of the cache before the call; `clock` is the time of the call.
   */
  function RouteData(store: Store<Value>, env: FerryEnv, routeKey: string, departAt: Option<Num>,
                     terminalArrivalAt: Option<Num>, direction: Option<string>, clock: int): RouteDataOutcome
  {
    var definition := GetFerryRouteDefinition(routeKey, env.ids);
    if definition.None? then RouteDataOutcome(Ok(None), store, [])
    else
      var route := Orient(definition.value, direction);
      if env.accessCode == "" then RouteDataOutcome(Ok(Some(FerryData(route, MissingAccessCode))), store, [])
      else
        var schedule := ScheduleToday(store, env, route.departingTerminalId, route.arrivingTerminalId, clock);
        if schedule.result.Err? then RouteDataOutcome(Err(schedule.result.error), schedule.store, schedule.requests)
        else
          var tripDate := TripDateFor(departAt, clock, env.calendar);
          var details := RouteDetails(schedule.store, env, tripDate, route.departingTerminalId, route.arrivingTerminalId, clock);
          var requests := schedule.requests + details.requests;
          if details.result.Err? then RouteDataOutcome(Err(details.result.error), details.store, requests)
          else
            var crossingFromRoute := CrossingFromRoute(RouteDetailsOf(details.result.value), env.strToNumber);
            match ExtractSailings(schedule.result.value)
            case Err(e) => RouteDataOutcome(Err(e), details.store, requests)
            case Ok(sailings) =>
              var reference := ReferenceTime(terminalArrivalAt, departAt, clock);
              match FindNextSailing(sailings, Some(reference), clock, env.parseDate)
              case Err(e) => RouteDataOutcome(Err(e), details.store, requests)
              case Ok(next) =>
                RouteDataOutcome(Ok(Some(FerryData(route, ScheduleFields(sailings, next, crossingFromRoute, reference)))),
                                 details.store, requests)
  }

  /** `getFerryRouteData` on the module's cache. */
  method GetFerryRouteData(cache: SimpleCache<Value>, env: FerryEnv, routeKey: string, departAt: Option<Num>,
                           terminalArrivalAt: Option<Num>, direction: Option<string>, clock: int)
    returns (r: Result<Option<FerryData>, Error>)
    modifies cache
    ensures var outcome := RouteData(old(cache.store), env, routeKey, departAt, terminalArrivalAt, direction, clock);
      r == outcome.result && cache.store == outcome.store
  {
    var definition := GetFerryRouteDefinition(routeKey, env.ids);
    if definition.None? {
      return Ok(None);
    }
    var route := Orient(definition.value, direction);
    if env.accessCode == "" {
      return Ok(Some(FerryData(route, MissingAccessCode)));
    }
    var scheduleResponse := FetchScheduleToday(cache, env, route.departingTerminalId, route.arrivingTerminalId, clock);
    if scheduleResponse.Err? {
      return Err(scheduleResponse.error);
    }
    var tripDate := TripDateFor(departAt, clock, env.calendar);
    var routeDetailsResponse := FetchRouteDetails(cache, env, tripDate, route.departingTerminalId, route.arrivingTerminalId, clock);
    if routeDetailsResponse.Err? {
      return Err(routeDetailsResponse.error);
    }
    var routeDetails := RouteDetailsOf(routeDetailsResponse.value);
    var crossingTimeFromRoute := CrossingFromRoute(routeDetails, env.strToNumber);
    var extracted := ExtractSailings(scheduleResponse.value);
    if extracted.Err? {
      return Err(extracted.error);
    }
    var sailings := extracted.value;
    var referenceTime := ReferenceTime(terminalArrivalAt, departAt, clock);
    var found := FindNextSailing(sailings, Some(referenceTime), clock, env.parseDate);
    if found.Err? {
      return Err(found.error);
    }
    var nextSailing := found.value;

    var ferryWaitMinutes: Option<Num> := None;
    var ferryCrossingMinutes := crossingTimeFromRoute;
    var nextSailingDeparture: Option<Num> := None;
    var nextSailingArrival: Option<Num> := None;
    if nextSailing.Some? {
      var c := nextSailing.value;
      var wait := DiffMinutes(Some(referenceTime), c.departingAt);
      ferryWaitMinutes := if wait.None? then None else Some(Max(wait.value, Int(0)));
      if !OptionTruthy(ferryCrossingMinutes) && c.arrivingAt.Some? {
        ferryCrossingMinutes := DiffMinutes(c.departingAt, c.arrivingAt);
      }
      nextSailingDeparture := c.departingAt;
      nextSailingArrival := c.arrivingAt;
    }
    r := Ok(Some(FerryData(route, Scheduled(ferryWaitMinutes, ferryCrossingMinutes,
                                            nextSailingDeparture, nextSailingArrival, |sailings|))));
  }

  /** An unknown route key answers `null` with no request. */
  lemma RouteDataUnknownRoute(store: Store<Value>, env: FerryEnv, routeKey: string, departAt: Option<Num>,
                              terminalArrivalAt: Option<Num>, direction: Option<string>, clock: int)
    requires routeKey != "edmonds-kingston" && routeKey != "seattle-bainbridge"
    ensures RouteData(store, env, routeKey, departAt, terminalArrivalAt, direction, clock) == RouteDataOutcome(Ok(None), store, [])
  {
  }

  /**
   * Without an access code a known route answers its oriented definition marked
   * `missing_access_code`, with no request and the cache untouched.
   */
  lemma RouteDataMissingAccessCode(store: Store<Value>, env: FerryEnv, routeKey: string, departAt: Option<Num>,
                                   terminalArrivalAt: Option<Num>, direction: Option<string>, clock: int)
    requires env.accessCode == ""
    requires routeKey == "edmonds-kingston" || routeKey == "seattle-bainbridge"
    ensures var outcome := RouteData(store, env, routeKey, departAt, terminalArrivalAt, direction, clock);
      && outcome.store == store && outcome.requests == []
      && outcome.result == Ok(Some(FerryData(Orient(GetFerryRouteDefinition(routeKey, env.ids).value, direction), MissingAccessCode)))
  {
  }

  /**
   * A known route always answers a record, never `null`, and the record carries the
   * definition oriented for `direction`.
   */
  lemma RouteDataOrientation(store: Store<Value>, env: FerryEnv, routeKey: string, departAt: Option<Num>,
                             terminalArrivalAt: Option<Num>, direction: Option<string>, clock: int)
    ensures var definition := GetFerryRouteDefinition(routeKey, env.ids);
      var outcome := RouteData(store, env, routeKey, departAt, terminalArrivalAt, direction, clock);
      outcome.result.Ok? ==>
        (outcome.result.value.Some? <==> definition.Some?)
        && (definition.Some? ==> outcome.result.value.value.route == Orient(definition.value, direction))
  {
    var definition := GetFerryRouteDefinition(routeKey, env.ids);
    if definition.Some? && env.accessCode != "" {
      var route := Orient(definition.value, direction);
      var schedule := ScheduleToday(store, env, route.departingTerminalId, route.arrivingTerminalId, clock);
      if schedule.result.Ok? {
        var details := RouteDetails(schedule.store, env, TripDateFor(departAt, clock, env.calendar),
                                    route.departingTerminalId, route.arrivingTerminalId, clock);
        if details.result.Ok? {
          match ExtractSailings(schedule.result.value)
          case Err(_) =>
          case Ok(sailings) =>
            var reference := ReferenceTime(terminalArrivalAt, departAt, clock);
            match FindNextSailing(sailings, Some(reference), clock, env.parseDate)
            case Err(_) =>
            case Ok(_) =>
        }
      }
    }
  }

  /** The requests of a call with an access code: the schedule's, then, when it succeeded, the route details'. */
  lemma RouteDataRequestOrder(store: Store<Value>, env: FerryEnv, routeKey: string, departAt: Option<Num>,
                              terminalArrivalAt: Option<Num>, direction: Option<string>, clock: int)
    requires env.accessCode != ""
    requires GetFerryRouteDefinition(routeKey, env.ids).Some?
    ensures var route := Orient(GetFerryRouteDefinition(routeKey, env.ids).value, direction);
      var schedule := ScheduleToday(store, env, route.departingTerminalId, route.arrivingTerminalId, clock);
      var details := RouteDetails(schedule.store, env, TripDateFor(departAt, clock, env.calendar),
                                  route.departingTerminalId, route.arrivingTerminalId, clock);
      RouteData(store, env, routeKey, departAt, terminalArrivalAt, direction, clock).requests
        == schedule.requests + (if schedule.result.Ok? then details.requests else [])
  {
    var route := Orient(GetFerryRouteDefinition(routeKey, env.ids).value, direction);
    var schedule := ScheduleToday(store, env, route.departingTerminalId, route.arrivingTerminalId, clock);
    if schedule.result.Ok? {
      var details := RouteDetails(schedule.store, env, TripDateFor(departAt, clock, env.calendar),
                                  route.departingTerminalId, route.arrivingTerminalId, clock);
      if details.result.Ok? {
        match ExtractSailings(schedule.result.value)
        case Err(_) =>
        case Ok(sailings) =>
          var reference := ReferenceTime(terminalArrivalAt, departAt, clock);
          match FindNextSailing(sailings, Some(reference), clock, env.parseDate)
          case Err(_) =>
          case Ok(_) =>
      }
    } else {
      assert schedule.requests + [] == schedule.requests;
    }
  }

  /**
   * With an access code and a cold cache, the first request is the schedule of the
   * oriented route (departing terminal first), the second its route details; with
   * `direction` missing, that is the stored definition's arriving terminal first.
   */
  lemma RouteDataRequests(env: FerryEnv, routeKey: string, departAt: Option<Num>,
                          terminalArrivalAt: Option<Num>, clock: int)
    requires env.accessCode != ""
    requires routeKey == "edmonds-kingston" || routeKey == "seattle-bainbridge"
    ensures var d := GetFerryRouteDefinition(routeKey, env.ids).value;
      var outcome := RouteData(map[], env, routeKey, departAt, terminalArrivalAt, None, clock);
      var scheduleUrl := WsdotClient.UrlFor(ScheduleBaseUrl, SchedulePath(d.arrivingTerminalId, d.departingTerminalId),
                                            AccessQuery(env.accessCode), env.resolve);
      |outcome.requests| >= 1 && outcome.requests[0] == scheduleUrl
      && (WsdotClient.JsonOf(env.http(scheduleUrl)).Ok? ==> |outcome.requests| == 2)
  {
    var d := GetFerryRouteDefinition(routeKey, env.ids).value;
    var dep, arr := d.arrivingTerminalId, d.departingTerminalId;
    RouteDataRequestOrder(map[], env, routeKey, departAt, terminalArrivalAt, None, clock);
    ColdFetch(map[], env, ScheduleKey(dep, arr), SchedulePath(dep, arr), clock);
    var schedule := ScheduleToday(map[], env, dep, arr, clock);
    if schedule.result.Ok? {
      var tripDate := TripDateFor(departAt, clock, env.calendar);
      DetailsKeyFresh(tripDate, dep, arr, schedule.result.value, clock + env.ttlSeconds * 1000);
      ColdFetch(schedule.store, env, RouteDetailsKey(tripDate, dep, arr), RouteDetailsPath(tripDate, dep, arr), clock);
    }
  }
}
