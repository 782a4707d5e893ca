/**
 * One Home Assistant sensor per road incident: its construction, the refresh
 * rule run on every update, and the setup that builds one sensor per fetched
 * record. The clock and the HTTP reply are parameters.
 */
module Sensor {
  import opened Wrappers
  import opened Roads
  import IntText

  /** `timedelta(weeks=1)` in seconds. */
  const WeekSeconds: int := 604800

  /** The entries of the config entry that the sensor platform reads. */
  datatype Config = Config(
    latitude: real,
    longitude: real,
    radius: int,
    typeSelection: string,
    weeksActive: int)

  datatype RemovalReason =
    | Expired            // older than the configured number of weeks
    | NoLongerAvailable  // the refreshed list no longer holds the sensor's id

  /**
   * What one refresh leads to. `Removed` stands for the removal task the
   * sensor schedules; `FetchFailed` for the GET or JSON decoding raising,
   * which leaves the update with nothing changed.
   */
  datatype Outcome = Updated | Removed(reason: RemovalReason) | FetchFailed

  /** The age test: strictly more than `weeksActive` weeks have passed since creation. */
  predicate IsExpired(createddate: int, weeksActive: int, now: int) {
    now - createddate > weeksActive * WeekSeconds
  }

  /** `roads[k]` is the first record in `roads` whose id is `id`. */
  predicate IsFirstWithId(roads: seq<Record>, id: int, k: int) {
    0 <= k < |roads| && roads[k].id == id && forall j :: 0 <= j < k ==> roads[j].id != id
  }

  predicate HasId(roads: seq<Record>, id: int) {
    exists k :: 0 <= k < |roads| && roads[k].id == id
  }

  class RoadSensor {
    var road: Record
    var state: string
    const config: Config
    const weeksActive: int
    const name: string
    const uniqueId: string
    const icon: string

    /** The sensor's registered unique id is the one of the record it holds. */
    predicate Valid()
      reads this
    {
      uniqueId == IntText.Show(road.id)
    }

    constructor (road: Record, config: Config, weeksActive: int)
      ensures Valid()
      ensures this.road == road && this.config == config && this.weeksActive == weeksActive
      ensures name == road.title && uniqueId == IntText.Show(road.id) && icon == "mdi:alert"
      ensures state == "Title: " + road.title + "\nDescription: " + road.description
    {
      this.road := road;
      this.config := config;
      this.weeksActive := weeksActive;
      name := road.title;
      uniqueId := IntText.Show(road.id);
      state := "Title: " + road.title + "\nDescription: " + road.description;
      icon := "mdi:alert";
    }

    /**
     * One refresh at time `now` (seconds). `reply` is the decoded reply to
     * the GET for the record's own coordinates and the configured radius,
     * or None when that GET or its decoding raised.
     */
    method Update(now: int, reply: Option<Body>) returns (outcome: Outcome)
      requires Valid()
      modifies this`road, this`state
      ensures Valid()
      ensures road.id == old(road).id
      // The age test comes first and does not look at the reply.
      ensures IsExpired(old(road).createddate, weeksActive, now) ==> outcome == Removed(Expired)
      ensures !IsExpired(old(road).createddate, weeksActive, now) && reply.None? ==> outcome == FetchFailed
      ensures !IsExpired(old(road).createddate, weeksActive, now) && reply.Some? ==>
                (outcome == Updated <==> HasId(FetchRoadData(reply.value, config.typeSelection), old(road).id))
      ensures !IsExpired(old(road).createddate, weeksActive, now) && reply.Some?
              && !HasId(FetchRoadData(reply.value, config.typeSelection), old(road).id) ==>
                outcome == Removed(NoLongerAvailable)
      // A match takes the first record with the same id and shows its description.
      ensures outcome == Updated ==>
                reply.Some? &&
                (exists k :: IsFirstWithId(FetchRoadData(reply.value, config.typeSelection), old(road).id, k)
                             && road == FetchRoadData(reply.value, config.typeSelection)[k])
      ensures outcome == Updated ==> state == road.description
      // Whatever does not update leaves the sensor as it was.
      ensures outcome != Updated ==> road == old(road) && state == old(state)
    {
      if IsExpired(road.createddate, weeksActive, now) {
        return Removed(Expired);
      }
      if reply.None? {
        return FetchFailed;
      }
      var fetched := FetchRoadData(reply.value, config.typeSelection);
      var i := 0;
      while i < |fetched|
        invariant 0 <= i <= |fetched|
        invariant road == old(road) && state == old(state)
        invariant forall j :: 0 <= j < i ==> fetched[j].id != road.id
      {
        if fetched[i].id == road.id {
          assert IsFirstWithId(fetched, road.id, i);
          road := fetched[i];
          state := fetched[i].description;
          return Updated;
        }
        i := i + 1;
      }
      return Removed(NoLongerAvailable);
    }
  }

  /**
   * `async_setup_entry`: one sensor per record of the filtered reply, in
   * order; None when the GET or its decoding raised, and nothing is added.
   */
  method SetupEntry(config: Config, reply: Option<Body>) returns (added: Option<seq<RoadSensor>>)
    ensures reply.None? <==> added.None?
    ensures reply.Some? ==>
              var roads := FetchRoadData(reply.value, config.typeSelection);
              |added.value| == |roads| &&
              forall i :: 0 <= i < |roads| ==>
                && fresh(added.value[i])
                && added.value[i].Valid()
                && added.value[i].road == roads[i]
                && added.value[i].config == config
                && added.value[i].weeksActive == config.weeksActive
                && added.value[i].name == roads[i].title
                && added.value[i].icon == "mdi:alert"
                && added.value[i].state == "Title: " + roads[i].title + "\nDescription: " + roads[i].description
    ensures reply.Some? ==>
              forall i, j :: 0 <= i < j < |added.value| ==> added.value[i] != added.value[j]
  {
    if reply.None? {
      return None;
    }
    var roads := FetchRoadData(reply.value, config.typeSelection);
    var sensors: seq<RoadSensor> := [];
    for i := 0 to |roads|
      invariant |sensors| == i
      invariant forall k :: 0 <= k < i ==>
                  && fresh(sensors[k])
                  && sensors[k].Valid()
                  && sensors[k].road == roads[k]
                  && sensors[k].config == config
                  && sensors[k].weeksActive == config.weeksActive
                  && sensors[k].name == roads[k].title
                  && sensors[k].icon == "mdi:alert"
                  && sensors[k].state == "Title: " + roads[k].title + "\nDescription: " + roads[k].description
      invariant forall k, l :: 0 <= k < l < i ==> sensors[k] != sensors[l]
    {
      var s := new RoadSensor(roads[i], config, config.weeksActive);
      sensors := sensors + [s];
    }
    return Some(sensors);
  }

  /**
   * A client of the contracts above: with a one-week window an age of
   * exactly one week survives and refreshes from the reply, one second more
   * removes the sensor whatever the reply is.
   */
  method BoundaryScenario(road: Record, latitude: real, longitude: real)
  {
    var config := Config(latitude, longitude, 40, ShowAll, 1);
    var reply := Some(Body(Some([road])));
    var young := new RoadSensor(road, config, 1);
    var o1 := young.Update(road.createddate + WeekSeconds, reply);
    assert [road][0].id == road.id;
    assert HasId(FetchRoadData(reply.value, ShowAll), road.id);
    assert o1 == Updated && young.state == road.description;
    var stale := new RoadSensor(road, config, 1);
    var o2 := stale.Update(road.createddate + WeekSeconds + 1, reply);
    assert o2 == Removed(Expired) && stale.road == road;
  }
}
