/**
 * The workout records of script.js:11-63: a base `Workout` with two variants,
 * `Running` (cadence `temp`, derived `pace`) and `Cycling` (elevation `climb`,
 * derived `speed`). The class hierarchy becomes one datatype whose two
 * constructors share the base fields.
 */
module Workouts {
  /** A map location `[lat, lng]`. */
  datatype Coords = Coords(lat: real, lng: real)

  /** The `type` field: 'running' or 'cycling'. */
  datatype Kind = RunningKind | CyclingKind

  datatype Workout =
    | Running(id: string, coords: Coords, distance: real, duration: real,
              clickNumber: nat, description: string, temp: real, pace: real)
    | Cycling(id: string, coords: Coords, distance: real, duration: real,
              clickNumber: nat, description: string, climb: real, speed: real)
  {
    function TypeOf(): Kind {
      if Running? then RunningKind else CyclingKind
    }
  }

  const RunningPrefix: string := "Пробежка"
  const CyclingPrefix: string := "Велотренировка"

  /**
   * `_setDescription` (script.js:22-29): the kind's Russian name, a space and the
   * creation date as formatted for the 'ru-RU' locale, given here as `date`.
   */
  function Description(kind: Kind, date: string): (r: string)
    ensures kind == RunningKind ==> |r| > |RunningPrefix| && r[..|RunningPrefix|] == RunningPrefix
    ensures kind == CyclingKind ==> |r| > |CyclingPrefix| && r[..|CyclingPrefix|] == CyclingPrefix
    ensures |r| > |date| && r[|r| - |date|..] == date
  {
    (if kind == RunningKind then RunningPrefix else CyclingPrefix) + " " + date
  }

  /** Two descriptions are equal only for the same kind and the same date. */
  lemma DescriptionInjective(k1: Kind, d1: string, k2: Kind, d2: string)
    requires Description(k1, d1) == Description(k2, d2)
    ensures k1 == k2 && d1 == d2
  {
    var s := Description(k1, d1);
    // the two prefixes already differ in their first letter
    assert s[0] == (if k1 == RunningKind then 'П' else 'В');
    assert Description(k2, d2)[0] == (if k2 == RunningKind then 'П' else 'В');
    var p := |(if k1 == RunningKind then RunningPrefix else CyclingPrefix) + " "|;
    assert d1 == s[p..] == d2;
  }

  /**
   * `new Running(coords, distance, duration, temp)` (script.js:14-20, script.js:38-48).
   * `pace` is minutes per kilometre: pace * distance == 60 * duration.
   */
  function NewRunning(id: string, coords: Coords, distance: real, duration: real,
                      temp: real, date: string): (w: Workout)
    requires distance != 0.0
    ensures w.Running? && w.TypeOf() == RunningKind
    ensures w.id == id && w.coords == coords && w.distance == distance
    ensures w.duration == duration && w.temp == temp && w.clickNumber == 0
    ensures w.pace * distance == 60.0 * duration
    ensures w.description == Description(RunningKind, date)
  {
    Running(id, coords, distance, duration, 0, Description(RunningKind, date), temp,
            duration / (distance / 60.0))
  }

  /**
   * `new Cycling(coords, distance, duration, climb)` (script.js:14-20, script.js:53-62).
   * `speed` is distance per minute: speed * duration == distance.
   */
  function NewCycling(id: string, coords: Coords, distance: real, duration: real,
                      climb: real, date: string): (w: Workout)
    requires duration != 0.0
    ensures w.Cycling? && w.TypeOf() == CyclingKind
    ensures w.id == id && w.coords == coords && w.distance == distance
    ensures w.duration == duration && w.climb == climb && w.clickNumber == 0
    ensures w.speed * duration == distance
    ensures w.description == Description(CyclingKind, date)
  {
    Cycling(id, coords, distance, duration, 0, Description(CyclingKind, date), climb,
            distance / duration)
  }

  /** `click()` (script.js:31-33): one more click, every other field as it was. */
  function Click(w: Workout): (r: Workout)
    ensures r.clickNumber == w.clickNumber + 1
    ensures r.TypeOf() == w.TypeOf() && r.id == w.id && r.coords == w.coords
    ensures r.distance == w.distance && r.duration == w.duration
    ensures r.description == w.description
    ensures r.Running? ==> r.temp == w.temp && r.pace == w.pace
    ensures r.Cycling? ==> r.climb == w.climb && r.speed == w.speed
  {
    w.(clickNumber := w.clickNumber + 1)
  }

  /**
   * A record as validated input produces it: positive distance and duration, a
   * positive cadence for a run, and the derived metric consistent with them.
   */
  predicate WellFormed(w: Workout) {
    w.distance > 0.0 && w.duration > 0.0 &&
    match w
    case Running(_, _, _, _, _, _, temp, pace) => temp > 0.0 && pace * w.distance == 60.0 * w.duration
    case Cycling(_, _, _, _, _, _, _, speed) => speed * w.duration == w.distance
  }

  /** Clicking never touches what `WellFormed` constrains; `n` clicks add exactly `n`. */
  lemma {:induction false} ClicksKeepRecord(w: Workout, n: nat)
    ensures WellFormed(Clicks(w, n)) == WellFormed(w)
    ensures Clicks(w, n) == w.(clickNumber := w.clickNumber + n)
  {
    if n > 0 {
      ClicksKeepRecord(w, n - 1);
    }
  }

  /** `n` successive calls of `click()`. */
  function Clicks(w: Workout, n: nat): Workout {
    if n == 0 then w else Click(Clicks(w, n - 1))
  }

  /** A run's pace and a ride's speed are positive on a well-formed record. */
  lemma MetricPositive(w: Workout)
    requires WellFormed(w)
    ensures w.Running? ==> w.pace > 0.0
    ensures w.Cycling? ==> w.speed > 0.0
  {
  }
}
