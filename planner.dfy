/**
 * take_me_home/planner.py: a planner fixed to a start time and the candidate routes built
 * for it, whose evaluation ranks every route by arrival.
 */
module Planner {
  import opened Wrappers
  import opened Sorting
  import opened TravelTime
  import Routes

  /** The sort key `lambda r: r.arrival`. */
  function ByArrival(): RouteResult -> int {
    (r: RouteResult) => r.arrival
  }

  /** `[evaluate_route(route, start) for route in routes]`: the first route that fails raises. */
  function EvaluateAll(routes: seq<Route>, start: int): Result<seq<RouteResult>, PlanError>
    decreases |routes|
  {
    if routes == [] then Ok([])
    else
      match Evaluation(routes[0], start)
      case Err(e) => Err(e)
      case Ok(first) =>
        match EvaluateAll(routes[1..], start)
        case Err(e) => Err(e)
        case Ok(rest) => Ok([first] + rest)
  }

  /** What `evaluate` returns: the evaluations, sorted by arrival with ties kept in route order. */
  function Ranked(routes: seq<Route>, start: int): Result<seq<RouteResult>, PlanError> {
    match EvaluateAll(routes, start)
    case Err(e) => Err(e)
    case Ok(results) => Ok(SortBy(results, ByArrival()))
  }

  /** `results` put in front of whatever the remaining evaluations give. */
  function PrefixedAll(results: seq<RouteResult>, rest: Result<seq<RouteResult>, PlanError>)
    : Result<seq<RouteResult>, PlanError>
  {
    match rest
    case Err(e) => Err(e)
    case Ok(more) => Ok(results + more)
  }

  /** `RoutePlanner`. */
  class RoutePlanner {
    var startTime: int
    var routes: seq<Route>

    /** `RoutePlanner(start_time)`: building the candidate routes always succeeds. */
    constructor(startTime: int)
      ensures this.startTime == startTime
      ensures Routes.BuildCandidateRoutes(startTime) == Ok(routes)
    {
      Routes.CandidateRoutesBuilt(startTime);
      this.startTime := startTime;
      this.routes := Routes.BuildCandidateRoutes(startTime).value;
    }

    /** `evaluate`: each route evaluated in turn from the start time, then sorted by arrival. */
    method Evaluate() returns (r: Result<seq<RouteResult>, PlanError>)
      ensures r == Ranked(routes, startTime)
    {
      var results: seq<RouteResult> := [];
      assert routes[0..] == routes;
      assert forall more: seq<RouteResult> :: [] + more == more;
      for i := 0 to |routes|
        invariant EvaluateAll(routes, startTime) == PrefixedAll(results, EvaluateAll(routes[i..], startTime))
      {
        assert routes[i..][1..] == routes[i + 1..];
        var result := EvaluateRoute(routes[i], startTime);
        if result.Err? {
          return Err(result.error);
        }
        assert forall more: seq<RouteResult> :: results + ([result.value] + more) == (results + [result.value]) + more;
        results := results + [result.value];
      }
      assert routes[|routes|..] == [];
      assert results + [] == results;
      results := SortBy(results, ByArrival());
      r := Ok(results);
    }
  }

  /**
   * The evaluations succeed exactly when every route's does, and then hold one result per
   * route, in route order.
   */
  lemma {:induction false} EvaluateAllEntries(routes: seq<Route>, start: int)
    ensures var r := EvaluateAll(routes, start);
      && (r.Ok? <==> forall i :: 0 <= i < |routes| ==> Evaluation(routes[i], start).Ok?)
      && (r.Ok? ==> |r.value| == |routes|
                    && forall i :: 0 <= i < |routes| ==> r.value[i] == Evaluation(routes[i], start).value)
    decreases |routes|
  {
    if routes != [] {
      EvaluateAllEntries(routes[1..], start);
      assert forall i :: 1 <= i < |routes| ==> routes[i] == routes[1..][i - 1];
    }
  }

  /** The failure reported is that of the first route that cannot be evaluated. */
  lemma {:induction false} EvaluateAllFirstError(routes: seq<Route>, start: int, k: nat)
    requires k < |routes| && Evaluation(routes[k], start).Err?
    requires forall i :: 0 <= i < k ==> Evaluation(routes[i], start).Ok?
    ensures EvaluateAll(routes, start) == Err(Evaluation(routes[k], start).error)
    decreases k
  {
    if k > 0 {
      assert Evaluation(routes[0], start).Ok?;
      EvaluateAllFirstError(routes[1..], start, k - 1);
    }
  }

  /** The evaluations, one per route, in route order (defined when they all succeed). */
  ghost predicate AreEvaluations(results: seq<RouteResult>, routes: seq<Route>, start: int) {
    && |results| == |routes|
    && forall i :: 0 <= i < |routes| ==> Evaluation(routes[i], start) == Ok(results[i])
  }

  /**
   * When every route can be evaluated the outcome is a stable sort by arrival of the
   * per-route evaluations: a permutation of them, ascending by arrival, with routes that
   * arrive together in route order, each departing at the start time.
   */
  lemma RankedOrder(routes: seq<Route>, start: int, results: seq<RouteResult>)
    requires AreEvaluations(results, routes, start)
    ensures var r := Ranked(routes, start);
      && r.Ok? && |r.value| == |routes|
      && multiset(r.value) == multiset(results)
      && SortedBy(r.value, ByArrival())
      && (forall k :: WithKey(r.value, ByArrival(), k) == WithKey(results, ByArrival(), k))
      && (forall i :: 0 <= i < |r.value| ==> r.value[i].departure == start)
  {
    EvaluateAllEntries(routes, start);
    var all := EvaluateAll(routes, start).value;
    assert all == results;
    var r := SortBy(results, ByArrival());
    forall i | 0 <= i < |r| ensures r[i].departure == start {
      assert r[i] in multiset(results);
      var j :| 0 <= j < |results| && results[j] == r[i];
      EvaluationShape(routes[j], start);
    }
  }

  /** The ranking is determined: any stable arrangement of the evaluations by arrival is it. */
  lemma RankedUnique(routes: seq<Route>, start: int, results: seq<RouteResult>, other: seq<RouteResult>)
    requires AreEvaluations(results, routes, start)
    requires SortedBy(other, ByArrival())
    requires forall k :: WithKey(other, ByArrival(), k) == WithKey(results, ByArrival(), k)
    ensures Ranked(routes, start) == Ok(other)
  {
    RankedOrder(routes, start, results);
    StableSortUnique(Ranked(routes, start).value, other, ByArrival());
  }

  /** The best-ranked route arrives first, and is the earliest in route order among those that do. */
  lemma RankedHead(routes: seq<Route>, start: int, results: seq<RouteResult>) returns (i: nat)
    requires AreEvaluations(results, routes, start) && routes != []
    ensures i < |routes| && Ranked(routes, start).Ok? && Ranked(routes, start).value[0] == results[i]
    ensures forall j :: 0 <= j < |routes| ==> results[i].arrival <= results[j].arrival
    ensures forall j :: 0 <= j < i ==> results[i].arrival < results[j].arrival
  {
    EvaluateAllEntries(routes, start);
    assert EvaluateAll(routes, start).value == results;
    assert Ranked(routes, start).value == SortBy(results, ByArrival());
    i := SortByHead(results, ByArrival());
    assert IsFirstMin(results, ByArrival(), i);
    forall j | 0 <= j < |routes| ensures results[i].arrival <= results[j].arrival {
      assert ByArrival()(results[i]) <= ByArrival()(results[j]);
    }
    forall j | 0 <= j < i ensures results[i].arrival < results[j].arrival {
      assert ByArrival()(results[i]) < ByArrival()(results[j]);
    }
  }

  /** A route that cannot be evaluated makes the whole evaluation fail. */
  lemma RankedFailure(routes: seq<Route>, start: int)
    ensures Ranked(routes, start).Err? <==> exists i :: 0 <= i < |routes| && Evaluation(routes[i], start).Err?
  {
    EvaluateAllEntries(routes, start);
  }
}
