/**
 * take_me_home/models.py: a validated ferry option and a validated door-to-door travel
 * plan with its totals, its arrival and its departure. Times are microsecond counts as
 * in `TravelTime`; minute fields are integers.
 */
module Models {
  import opened Wrappers
  import opened TravelTime

  /** `FerryOption`; `risk` is the sailing's risk on a 0..1 scale. */
  datatype FerryOption = FerryOption(name: string, departure: int, arrival: int, risk: real, bufferMinutes: int,
                                     notes: Option<string>)

  predicate ValidFerryOption(f: FerryOption) {
    f.departure < f.arrival && 0.0 <= f.risk <= 1.0 && f.bufferMinutes >= 0
  }

  /**
   * `FerryOption(...)`: the checks of `__post_init__` in their order. An option is built
   * exactly when it is valid, and then holds the given fields; an arrival not after the
   * departure is reported first, then a risk outside 0..1, then a negative buffer.
   */
  function NewFerryOption(name: string, departure: int, arrival: int, risk: real, bufferMinutes: int,
                          notes: Option<string>): (r: Result<FerryOption, string>)
    ensures var f := FerryOption(name, departure, arrival, risk, bufferMinutes, notes);
      && (r.Ok? <==> ValidFerryOption(f))
      && (r.Ok? ==> r.value == f)
    ensures arrival <= departure ==> r == Err("Ferry arrival time must be after departure time")
    ensures arrival > departure && (risk < 0.0 || risk > 1.0) ==> r == Err("Ferry risk must be between 0 and 1")
    ensures arrival > departure && 0.0 <= risk <= 1.0 && bufferMinutes < 0 ==> r == Err("Buffer minutes cannot be negative")
  {
    if arrival <= departure then Err("Ferry arrival time must be after departure time")
    else if !(0.0 <= risk <= 1.0) then Err("Ferry risk must be between 0 and 1")
    else if bufferMinutes < 0 then Err("Buffer minutes cannot be negative")
    else Ok(FerryOption(name, departure, arrival, risk, bufferMinutes, notes))
  }

  /** `duration_minutes`: the whole minutes between departure and arrival, rounded down. */
  function DurationMinutes(f: FerryOption): (d: int)
    ensures d * Minute <= f.arrival - f.departure < (d + 1) * Minute
    ensures f.departure < f.arrival ==> d >= 0
  {
    (f.arrival - f.departure) / Minute
  }

  /** `TravelPlan`; the future context is not part of this model. */
  datatype TravelPlan = TravelPlan(drivingMinutesPre: int, drivingMinutesPost: int, ferry: FerryOption,
                                   prepBufferMinutes: int, arrivalBufferMinutes: int)

  predicate ValidTravelPlan(p: TravelPlan) {
    p.drivingMinutesPre >= 0 && p.drivingMinutesPost >= 0 && p.prepBufferMinutes >= 0 && p.arrivalBufferMinutes >= 0
  }

  /**
   * `TravelPlan(...)`: a plan is built exactly when no minute field is negative, and then
   * holds the given fields; otherwise the first negative field in declaration order is named.
   */
  function NewTravelPlan(pre: int, post: int, ferry: FerryOption, prep: int, arrivalBuffer: int)
    : (r: Result<TravelPlan, string>)
    ensures var p := TravelPlan(pre, post, ferry, prep, arrivalBuffer);
      && (r.Ok? <==> ValidTravelPlan(p))
      && (r.Ok? ==> r.value == p)
    ensures pre < 0 ==> r == Err("driving_minutes_pre cannot be negative")
    ensures pre >= 0 && post < 0 ==> r == Err("driving_minutes_post cannot be negative")
    ensures pre >= 0 && post >= 0 && prep < 0 ==> r == Err("prep_buffer_minutes cannot be negative")
    ensures pre >= 0 && post >= 0 && prep >= 0 && arrivalBuffer < 0 ==> r == Err("arrival_buffer_minutes cannot be negative")
  {
    if pre < 0 then Err("driving_minutes_pre cannot be negative")
    else if post < 0 then Err("driving_minutes_post cannot be negative")
    else if prep < 0 then Err("prep_buffer_minutes cannot be negative")
    else if arrivalBuffer < 0 then Err("arrival_buffer_minutes cannot be negative")
    else Ok(TravelPlan(pre, post, ferry, prep, arrivalBuffer))
  }

  function TotalDrivingMinutes(p: TravelPlan): int {
    p.drivingMinutesPre + p.drivingMinutesPost
  }

  function TotalBufferMinutes(p: TravelPlan): int {
    p.prepBufferMinutes + p.arrivalBufferMinutes + p.ferry.bufferMinutes
  }

  function TotalTravelMinutes(p: TravelPlan): int {
    TotalDrivingMinutes(p) + DurationMinutes(p.ferry) + TotalBufferMinutes(p)
  }

  /** `estimated_arrival`: the ferry's arrival plus the post drive and the arrival buffer. */
  function EstimatedArrival(p: TravelPlan): int {
    p.ferry.arrival + (p.drivingMinutesPost + p.arrivalBufferMinutes) * Minute
  }

  /** `departure_time`: the ferry's departure minus the pre drive, the prep buffer and the ferry buffer. */
  function DepartureTime(p: TravelPlan): int {
    p.ferry.departure - (p.drivingMinutesPre + p.prepBufferMinutes + p.ferry.bufferMinutes) * Minute
  }

  /**
   * The door-to-door span is the sailing itself plus every drive and buffer minute, and it
   * equals the total travel time exactly when the sailing lasts a whole number of minutes.
   */
  lemma DoorToDoorSpan(p: TravelPlan)
    ensures EstimatedArrival(p) - DepartureTime(p)
      == (p.ferry.arrival - p.ferry.departure) + (TotalDrivingMinutes(p) + TotalBufferMinutes(p)) * Minute
    ensures EstimatedArrival(p) - DepartureTime(p) == TotalTravelMinutes(p) * Minute
      <==> (p.ferry.arrival - p.ferry.departure) % Minute == 0
  {
    var span := p.ferry.arrival - p.ferry.departure;
    var rest := TotalDrivingMinutes(p) + TotalBufferMinutes(p);
    assert EstimatedArrival(p) - DepartureTime(p) == span + rest * Minute;
    assert TotalTravelMinutes(p) * Minute == DurationMinutes(p.ferry) * Minute + rest * Minute;
    assert span == DurationMinutes(p.ferry) * Minute + span % Minute;
  }

  /** A valid plan leaves no later than its sailing and arrives no earlier than the sailing lands. */
  lemma PlanBracketsSailing(p: TravelPlan)
    requires ValidTravelPlan(p) && ValidFerryOption(p.ferry)
    ensures DepartureTime(p) <= p.ferry.departure < p.ferry.arrival <= EstimatedArrival(p)
    ensures TotalTravelMinutes(p) >= TotalDrivingMinutes(p) + TotalBufferMinutes(p) >= 0
  {
  }
}
