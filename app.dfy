/**
 * The state `App` keeps between events (script.js:67-81): the workout list
 * `#workouts` and the last map click `#mapEvent`, together with the handlers
 * that change or read them: `_showForm`, `_newWorkout` and `_moveToWorkout`.
 */
module Tracker {
  import opened Wrappers
  import opened JsNumbers
  import opened Workouts
  import opened Validation

  /** The zoom level `setView` is called with (script.js:271). */
  const MapZoom: int := 13

  /** A `setView(center, zoom)` command for the map. */
  datatype View = View(center: Coords, zoom: int)

  /**
   * `workouts.find(item => item.id === id)` (script.js:268-270), giving the
   * position of the element found: the first one in list order with that id.
   */
  function FindIndex(ws: seq<Workout>, id: string): (r: Option<nat>)
    ensures r.None? <==> forall i :: 0 <= i < |ws| ==> ws[i].id != id
    ensures r.Some? ==> r.value < |ws| && ws[r.value].id == id &&
                        forall j :: 0 <= j < r.value ==> ws[j].id != id
  {
    if |ws| == 0 then None
    else if ws[0].id == id then Some(0)
    else match FindIndex(ws[1..], id)
         case None => None
         case Some(i) => Some(i + 1)
  }

  /**
   * Appending a workout leaves every lookup that already succeeded unchanged;
   * a lookup that failed now finds the new workout if it carries that id.
   */
  lemma {:induction false} FindIndexAppend(ws: seq<Workout>, w: Workout, id: string)
    ensures FindIndex(ws + [w], id) ==
      if FindIndex(ws, id).Some? then FindIndex(ws, id)
      else if w.id == id then Some(|ws|)
      else None
  {
    if |ws| > 0 && ws[0].id != id {
      assert (ws + [w])[1..] == ws[1..] + [w];
      FindIndexAppend(ws[1..], w, id);
    }
  }

  class App {
    /** `#workouts`: every workout, in the order it was added. */
    var workouts: seq<Workout>
    /** `#mapEvent`: where the map was last clicked, if it has been. */
    var mapEvent: Option<Coords>
    /** Whether `#map` has been created; it stays undefined until geolocation answers. */
    var mapLoaded: bool

    /** Every workout in the list satisfies `WellFormed`. */
    predicate AllWellFormed()
      reads this
    {
      forall i :: 0 <= i < |workouts| ==> WellFormed(workouts[i])
    }

    /**
     * `new App()` (script.js:71-81) with `_getLocalStarageDate` (script.js:281-290):
     * `stored` is the parsed value of the 'workouts' entry, `None` when it is null.
     */
    constructor (stored: Option<seq<Workout>>)
      ensures stored.None? ==> workouts == []
      ensures stored.Some? ==> workouts == stored.value
      ensures mapEvent.None? && !mapLoaded
    {
      workouts := if stored.Some? then stored.value else [];
      mapEvent := None;
      mapLoaded := false;
    }

    /**
     * `_loadMap(position)` (script.js:94-115), run once geolocation succeeds:
     * `#map` now exists and map clicks reach `_showForm`.
     */
    method LoadMap()
      modifies this
      ensures mapLoaded
      ensures workouts == old(workouts) && mapEvent == old(mapEvent)
    {
      mapLoaded := true;
    }

    /**
     * `_showForm(e)` (script.js:116-120): remember the clicked location. Only the
     * map's click handler calls it, so the map exists.
     */
    method ShowForm(at: Coords)
      requires mapLoaded
      modifies this
      ensures mapEvent == Some(at)
      ensures workouts == old(workouts) && mapLoaded == old(mapLoaded)
    {
      mapEvent := Some(at);
    }

    /**
     * `_newWorkout(e)` (script.js:134-180): validate the form values, build the
     * workout at the clicked location and append it; on invalid input return
     * before the list is touched. `id` and `date` stand for `Math.random()` and
     * the formatted creation date.
     */
    method NewWorkout(kind: Kind, distance: Num, duration: Num, metric: Num,
                      id: string, date: string) returns (added: Option<Workout>)
      requires mapEvent.Some?
      modifies this
      ensures mapEvent == old(mapEvent) && mapLoaded == old(mapLoaded)
      ensures added.Some? <==> Accepts(kind, distance, duration, metric)
      ensures added.None? ==> workouts == old(workouts)
      ensures added.Some? ==> workouts == old(workouts) + [added.value]
      ensures added.Some? ==> distance.Finite? && duration.Finite? && metric.Finite? &&
                              distance.value > 0.0 && duration.value > 0.0
      ensures added.Some? && kind == RunningKind ==>
        added.value == NewRunning(id, mapEvent.value, distance.value, duration.value, metric.value, date)
      ensures added.Some? && kind == CyclingKind ==>
        added.value == NewCycling(id, mapEvent.value, distance.value, duration.value, metric.value, date)
      ensures added.Some? ==> WellFormed(added.value)
      ensures old(AllWellFormed()) ==> AllWellFormed()
      ensures forall other :: FindIndex(old(workouts), other).Some? ==>
        FindIndex(workouts, other) == FindIndex(old(workouts), other)
      ensures added.Some? && FindIndex(old(workouts), id).None? ==>
        FindIndex(workouts, id) == Some(|old(workouts)|)
    {
      var at := mapEvent.value;
      var workout: Workout;
      match kind {
        case RunningKind =>
          RunningAcceptedIff(distance, duration, metric);
          if !Accepts(kind, distance, duration, metric) {
            return None;
          }
          workout := NewRunning(id, at, distance.value, duration.value, metric.value, date);
        case CyclingKind =>
          CyclingAcceptedIff(distance, duration, metric);
          if !Accepts(kind, distance, duration, metric) {
            return None;
          }
          workout := NewCycling(id, at, distance.value, duration.value, metric.value, date);
      }
      forall other | FindIndex(workouts, other).Some?
        ensures FindIndex(workouts + [workout], other) == FindIndex(workouts, other)
      {
        FindIndexAppend(workouts, workout, other);
      }
      FindIndexAppend(workouts, workout, id);
      workouts := workouts + [workout];
      added := Some(workout);
    }

    /**
     * `_moveToWorkout(e)` (script.js:262-277): `target` is the `data-id` of the
     * workout card that was clicked, `None` when the click was outside any card.
     * The map is re-centred on the first workout with that id. A card click
     * before the map exists throws at `this.#map.setView`, so the map must exist.
     */
    method MoveToWorkout(target: Option<string>) returns (view: Option<View>)
      requires target.Some? ==> mapLoaded
      requires target.Some? ==> exists i :: 0 <= i < |workouts| && workouts[i].id == target.value
      ensures target.None? ==> view.None?
      ensures target.Some? ==>
        (exists i :: 0 <= i < |workouts| && workouts[i].id == target.value &&
           (forall j :: 0 <= j < i ==> workouts[j].id != target.value) &&
           view == Some(View(workouts[i].coords, MapZoom)))
    {
      if target.None? {
        return None;
      }
      var found := FindIndex(workouts, target.value);
      view := Some(View(workouts[found.value].coords, MapZoom));
    }
  }
}
