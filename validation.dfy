/**
 * The input check of `_newWorkout` (script.js:134-178): the two local helpers
 * `areNumbers` and `arePositiveNumber` and the guard each workout kind applies.
 */
module Validation {
  import opened JsNumbers
  import opened Workouts

  /** `areNumbers(...numbers)`: every value passes `Number.isFinite`. */
  function AreNumbers(ns: seq<Num>): (r: bool)
    ensures r <==> forall i :: 0 <= i < |ns| ==> IsFinite(ns[i])
  {
    |ns| == 0 || (IsFinite(ns[0]) && AreNumbers(ns[1..]))
  }

  /** `arePositiveNumber(...numbers)`: every value compares `> 0`. */
  function ArePositive(ns: seq<Num>): (r: bool)
    ensures r <==> forall i :: 0 <= i < |ns| ==> IsPositive(ns[i])
  {
    |ns| == 0 || (IsPositive(ns[0]) && ArePositive(ns[1..]))
  }

  /**
   * Whether `_newWorkout` goes on to build a workout rather than returning with
   * an alert: a run checks all three values for finiteness and positivity, a
   * ride checks all three for finiteness but only distance and duration for
   * positivity.
   */
  predicate Accepts(kind: Kind, distance: Num, duration: Num, metric: Num) {
    match kind
    case RunningKind =>
      AreNumbers([distance, duration, metric]) && ArePositive([distance, duration, metric])
    case CyclingKind =>
      AreNumbers([distance, duration, metric]) && ArePositive([distance, duration])
  }

  /** A run is accepted iff distance, duration and cadence are finite and positive. */
  lemma RunningAcceptedIff(distance: Num, duration: Num, temp: Num)
    ensures Accepts(RunningKind, distance, duration, temp) <==>
      distance.Finite? && duration.Finite? && temp.Finite? &&
      distance.value > 0.0 && duration.value > 0.0 && temp.value > 0.0
  {
    var ns := [distance, duration, temp];
    assert ns[0] == distance && ns[1] == duration && ns[2] == temp;
  }

  /**
   * A ride is accepted iff distance, duration and climb are finite and distance
   * and duration are positive; the climb's sign is never looked at.
   */
  lemma CyclingAcceptedIff(distance: Num, duration: Num, climb: Num)
    ensures Accepts(CyclingKind, distance, duration, climb) <==>
      distance.Finite? && duration.Finite? && climb.Finite? &&
      distance.value > 0.0 && duration.value > 0.0
  {
    var ns := [distance, duration, climb];
    assert ns[0] == distance && ns[1] == duration && ns[2] == climb;
    assert [distance, duration][0] == distance && [distance, duration][1] == duration;
  }

  /**
   * The asymmetry: with finite positive distance and duration, a non-positive
   * third value is accepted as a ride's climb and rejected as a run's cadence.
   */
  lemma NonPositiveMetricAcceptedOnlyForCycling(distance: Num, duration: Num, metric: Num)
    requires distance.Finite? && duration.Finite? && metric.Finite?
    requires distance.value > 0.0 && duration.value > 0.0 && metric.value <= 0.0
    ensures Accepts(CyclingKind, distance, duration, metric)
    ensures !Accepts(RunningKind, distance, duration, metric)
  {
    RunningAcceptedIff(distance, duration, metric);
    CyclingAcceptedIff(distance, duration, metric);
  }

  /**
   * A non-finite value in any of the three fields is rejected for either kind,
   * even +Infinity, which compares `> 0`.
   */
  lemma NonFiniteRejected(kind: Kind, distance: Num, duration: Num, metric: Num)
    requires !IsFinite(distance) || !IsFinite(duration) || !IsFinite(metric)
    ensures !Accepts(kind, distance, duration, metric)
  {
    var ns := [distance, duration, metric];
    assert ns[0] == distance && ns[1] == duration && ns[2] == metric;
  }
}
