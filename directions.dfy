/**
 * src/services/googleDirections.js: drive time between two points from the directions
 * service, through the TTL cache.
 */
module Directions {
  import opened Wrappers
  import opened Text
  import opened Js
  import opened Cache

  /**
   * A location's coordinates as they print in `${coords.lat}`; the numbers themselves are
   * parsed from configuration and treated as opaque text here.
   */
  datatype Coords = Coords(lat: string, lng: string)

  /** `formatCoords(coords)`. */
  function FormatCoords(c: Coords): string {
    c.lat + "," + c.lng
  }

  /**
   * The `departure_time` parameter: the departure's whole seconds since the epoch
   * (`Math.floor(ms / 1000)`) or `"now"` when there is no departure. `departAt` is the
   * departure `Date`'s time value.
   */
  function DepartureBucket(departAt: Option<Num>): string {
    match departAt
    case None => "now"
    case Some(t) => NumToString(FloorDiv(t, 1000))
  }

  /** Two instants share a bucket exactly when they fall in the same second. */
  lemma DepartureBucketSameSecond(a: int, b: int)
    ensures DepartureBucket(Some(Int(a))) == DepartureBucket(Some(Int(b))) <==> a / 1000 == b / 1000
  {
    if DepartureBucket(Some(Int(a))) == DepartureBucket(Some(Int(b))) {
      IntToStringInjective(a / 1000, b / 1000);
    }
  }

  /** `cacheKey("drivetime", [origin, destination, bucket])`. */
  function DriveKey(origin: Coords, destination: Coords, bucket: string): string {
    Key("drivetime", [FormatCoords(origin), FormatCoords(destination), bucket])
  }

  /**
   * With coordinates that contain no colon, different requests never share a cache
   * entry: the key determines both endpoints and the bucket.
   */
  lemma DriveKeyInjective(o: Coords, d: Coords, b: string, o': Coords, d': Coords, b': string)
    requires Free(FormatCoords(o), ':') && Free(FormatCoords(d), ':')
    requires Free(FormatCoords(o'), ':') && Free(FormatCoords(d'), ':')
    requires DriveKey(o, d, b) == DriveKey(o', d', b')
    ensures FormatCoords(o) == FormatCoords(o') && FormatCoords(d) == FormatCoords(d') && b == b'
  {
    KeyThreeInjective("drivetime", FormatCoords(o), FormatCoords(d), b, FormatCoords(o'), FormatCoords(d'), b');
  }

  /** The four query parameters of the directions request, in their order. */
  datatype DirectionsRequest = DirectionsRequest(origin: string, destination: string, key: string, departureTime: string)

  /** `leg?.duration_in_traffic?.value ?? leg?.duration?.value` with `leg = payload.routes?.[0]?.legs?.[0]`. */
  function DurationSeconds(payload: Value): Value {
    var leg := Index0(Get(Index0(Get(payload, "routes")), "legs"));
    Coalesce([Get(Get(leg, "duration_in_traffic"), "value"), Get(Get(leg, "duration"), "value")])
  }

  /** What one call returns, the cache it leaves, and whether it contacted the service. */
  datatype DriveOutcome = DriveOutcome(result: Result<Option<Num>, Error>, store: Store<Num>, fetched: bool)

  /**
   * `getDriveTimeMinutes({ origin, destination, departAt })` as a function of the cache
   * before the call. `apiKey` and `ttlSeconds` are the configured key and TTL, `readAt`
   * and `writeAt` the clock when the cache is read and written, `fetch` the service and
   * `strToNumber` JavaScript's `Number(string)`.
   */
  function DriveTime(store: Store<Num>, apiKey: string, ttlSeconds: int,
                     origin: Option<Coords>, destination: Option<Coords>, departAt: Option<Num>,
                     readAt: int, writeAt: int,
                     fetch: DirectionsRequest -> HttpResponse, strToNumber: string -> Num): DriveOutcome
  {
    if apiKey == "" || origin.None? || destination.None? then DriveOutcome(Ok(None), store, false)
    else
      var bucket := DepartureBucket(departAt);
      var key := DriveKey(origin.value, destination.value, bucket);
      var (cached, afterRead) := Read(store, key, readAt);
      if cached.Some? then DriveOutcome(Ok(cached), afterRead, false)
      else
        var response := fetch(DirectionsRequest(FormatCoords(origin.value), FormatCoords(destination.value), apiKey, bucket));
        if !response.ok then
          DriveOutcome(Err(RequestFailed("Google Directions", response.status, response.body)), afterRead, true)
        else if response.json.None? then DriveOutcome(Err(MalformedBody), afterRead, true)
        else if response.json.value.Null? then DriveOutcome(Err(TypeError), afterRead, true)
        else
          var seconds := DurationSeconds(response.json.value);
          if !Truthy(seconds) then
            DriveOutcome(Ok(None), Write(afterRead, key, None, ttlSeconds * 1000, writeAt), true)
          else
            var minutes := RoundDiv(ToNumber(seconds, strToNumber), 60);
            DriveOutcome(Ok(Some(minutes)), Write(afterRead, key, Some(minutes), ttlSeconds * 1000, writeAt), true)
  }

  /** `getDriveTimeMinutes` on the module's cache. */
  method GetDriveTimeMinutes(cache: SimpleCache<Num>, apiKey: string, ttlSeconds: int,
                             origin: Option<Coords>, destination: Option<Coords>, departAt: Option<Num>,
                             readAt: int, writeAt: int,
                             fetch: DirectionsRequest -> HttpResponse, strToNumber: string -> Num)
    returns (r: Result<Option<Num>, Error>)
    modifies cache
    ensures var outcome := DriveTime(old(cache.store), apiKey, ttlSeconds, origin, destination, departAt,
                                    readAt, writeAt, fetch, strToNumber);
      r == outcome.result && cache.store == outcome.store
  {
    if apiKey == "" || origin.None? || destination.None? {
      return Ok(None);
    }
    var departureTime := DepartureBucket(departAt);
    var key := DriveKey(origin.value, destination.value, departureTime);
    var cached := cache.Get(key, readAt);
    if cached.Some? {
      return Ok(cached);
    }
    var response := fetch(DirectionsRequest(FormatCoords(origin.value), FormatCoords(destination.value), apiKey, departureTime));
    if !response.ok {
      return Err(RequestFailed("Google Directions", response.status, response.body));
    }
    if response.json.None? {
      return Err(MalformedBody);
    }
    var payload := response.json.value;
    if payload.Null? {
      return Err(TypeError);
    }
    var durationSeconds := DurationSeconds(payload);
    if !Truthy(durationSeconds) {
      cache.Set(key, None, ttlSeconds * 1000, writeAt);
      return Ok(None);
    }
    var minutes := RoundDiv(ToNumber(durationSeconds, strToNumber), 60);
    cache.Set(key, Some(minutes), ttlSeconds * 1000, writeAt);
    r := Ok(Some(minutes));
  }

  /** A missing API key, origin or destination answers `null` without touching cache or service. */
  lemma DriveGuard(store: Store<Num>, apiKey: string, ttlSeconds: int,
                   origin: Option<Coords>, destination: Option<Coords>, departAt: Option<Num>,
                   readAt: int, writeAt: int,
                   fetch: DirectionsRequest -> HttpResponse, strToNumber: string -> Num)
    requires apiKey == "" || origin.None? || destination.None?
    ensures DriveTime(store, apiKey, ttlSeconds, origin, destination, departAt, readAt, writeAt, fetch, strToNumber)
      == DriveOutcome(Ok(None), store, false)
  {
  }

  /**
   * With a key and both endpoints, a live cached number is answered without a request
   * and leaves the cache as it was; anything else (a miss, an expired entry, a cached
   * `null`) goes to the service.
   */
  lemma DriveCacheUse(store: Store<Num>, apiKey: string, ttlSeconds: int,
                      origin: Coords, destination: Coords, departAt: Option<Num>,
                      readAt: int, writeAt: int,
                      fetch: DirectionsRequest -> HttpResponse, strToNumber: string -> Num)
    requires apiKey != ""
    ensures var key := DriveKey(origin, destination, DepartureBucket(departAt));
      var outcome := DriveTime(store, apiKey, ttlSeconds, Some(origin), Some(destination), departAt,
                               readAt, writeAt, fetch, strToNumber);
      && (outcome.fetched <==> Read(store, key, readAt).0.None?)
      && (!outcome.fetched ==> key in store && outcome == DriveOutcome(Ok(store[key].value), store, false))
  {
  }

  /**
   * A response that is not ok is an error carrying status and body, and nothing is
   * written to the cache (an expired entry for the key has still been evicted).
   */
  lemma DriveFailureCachesNothing(store: Store<Num>, apiKey: string, ttlSeconds: int,
                                  origin: Coords, destination: Coords, departAt: Option<Num>,
                                  readAt: int, writeAt: int,
                                  fetch: DirectionsRequest -> HttpResponse, strToNumber: string -> Num)
    requires apiKey != ""
    ensures var bucket := DepartureBucket(departAt);
      var key := DriveKey(origin, destination, bucket);
      var response := fetch(DirectionsRequest(FormatCoords(origin), FormatCoords(destination), apiKey, bucket));
      var outcome := DriveTime(store, apiKey, ttlSeconds, Some(origin), Some(destination), departAt,
                               readAt, writeAt, fetch, strToNumber);
      outcome.fetched && !response.ok ==>
        outcome.result == Err(RequestFailed("Google Directions", response.status, response.body))
        && outcome.store == Read(store, key, readAt).1
        && (key in outcome.store ==> outcome.store[key].value.None?)
  {
  }

  /** The traffic-aware duration wins whenever it is present; the plain one is the fallback. */
  lemma TrafficPreferred(payload: Value)
    ensures var leg := Index0(Get(Index0(Get(payload, "routes")), "legs"));
      var traffic := Get(Get(leg, "duration_in_traffic"), "value");
      DurationSeconds(payload) == if Nullish(traffic) then Get(Get(leg, "duration"), "value") else traffic
  {
    var leg := Index0(Get(Index0(Get(payload, "routes")), "legs"));
    var vs := [Get(Get(leg, "duration_in_traffic"), "value"), Get(Get(leg, "duration"), "value")];
    assert vs[1..] == [vs[1]];
    assert Coalesce(vs[1..]) == vs[1];
    assert DurationSeconds(payload) == Coalesce(vs);
  }

  /**
   * An ok response whose duration is a non-zero number of seconds answers the nearest
   * whole minute and caches it for the TTL; a missing or zero duration answers `null`
   * and caches `null`.
   */
  lemma DriveSuccess(store: Store<Num>, apiKey: string, ttlSeconds: int,
                     origin: Coords, destination: Coords, departAt: Option<Num>,
                     readAt: int, writeAt: int,
                     fetch: DirectionsRequest -> HttpResponse, strToNumber: string -> Num)
    requires apiKey != ""
    ensures var bucket := DepartureBucket(departAt);
      var key := DriveKey(origin, destination, bucket);
      var response := fetch(DirectionsRequest(FormatCoords(origin), FormatCoords(destination), apiKey, bucket));
      var outcome := DriveTime(store, apiKey, ttlSeconds, Some(origin), Some(destination), departAt,
                               readAt, writeAt, fetch, strToNumber);
      var afterRead := Read(store, key, readAt).1;
      outcome.fetched && response.ok && response.json.Some? && !response.json.value.Null? ==>
        var seconds := DurationSeconds(response.json.value);
        && (!Truthy(seconds) ==>
              outcome == DriveOutcome(Ok(None), Write(afterRead, key, None, ttlSeconds * 1000, writeAt), true))
        && (seconds.Number? && seconds.n != 0 ==>
              exists m: int ::
                && outcome == DriveOutcome(Ok(Some(Int(m))), Write(afterRead, key, Some(Int(m)), ttlSeconds * 1000, writeAt), true)
                && 2 * m * 60 - 60 <= 2 * seconds.n < 2 * m * 60 + 60)
  {
    var bucket := DepartureBucket(departAt);
    var response := fetch(DirectionsRequest(FormatCoords(origin), FormatCoords(destination), apiKey, bucket));
    if response.ok && response.json.Some? && !response.json.value.Null? {
      var seconds := DurationSeconds(response.json.value);
      if seconds.Number? && seconds.n != 0 {
        var m := RoundDiv(Int(seconds.n), 60).i;
        assert 2 * m * 60 - 60 <= 2 * seconds.n < 2 * m * 60 + 60;
      }
    }
  }

  /**
   * A cached `null` does not stop the next call: whenever it comes, it reaches the
   * service again.
   */
  lemma CachedNullRefetches(store: Store<Num>, apiKey: string, ttlSeconds: int,
                            origin: Coords, destination: Coords, departAt: Option<Num>,
                            readAt: int, writeAt: int, nextRead: int, nextWrite: int,
                            fetch: DirectionsRequest -> HttpResponse, strToNumber: string -> Num)
    requires apiKey != ""
    requires DriveTime(store, apiKey, ttlSeconds, Some(origin), Some(destination), departAt,
                       readAt, writeAt, fetch, strToNumber).result == Ok(None)
    ensures var first := DriveTime(store, apiKey, ttlSeconds, Some(origin), Some(destination), departAt,
                                   readAt, writeAt, fetch, strToNumber);
      DriveTime(first.store, apiKey, ttlSeconds, Some(origin), Some(destination), departAt,
                nextRead, nextWrite, fetch, strToNumber).fetched
  {
  }

  /** A computed drive time is answered from the cache, without a request, until it expires. */
  lemma CachedMinutesReused(store: Store<Num>, apiKey: string, ttlSeconds: int,
                            origin: Coords, destination: Coords, departAt: Option<Num>,
                            readAt: int, writeAt: int, nextRead: int, nextWrite: int,
                            fetch: DirectionsRequest -> HttpResponse, strToNumber: string -> Num)
    requires apiKey != ""
    requires var first := DriveTime(store, apiKey, ttlSeconds, Some(origin), Some(destination), departAt,
                                    readAt, writeAt, fetch, strToNumber);
      first.fetched && first.result.Ok? && first.result.value.Some?
    requires nextRead < writeAt + ttlSeconds * 1000
    ensures var first := DriveTime(store, apiKey, ttlSeconds, Some(origin), Some(destination), departAt,
                                   readAt, writeAt, fetch, strToNumber);
      DriveTime(first.store, apiKey, ttlSeconds, Some(origin), Some(destination), departAt,
                nextRead, nextWrite, fetch, strToNumber) == DriveOutcome(first.result, first.store, false)
  {
  }
}
