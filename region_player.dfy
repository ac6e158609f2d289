/**
 * The `Game_Player` side of RegionBase.js: on every moving-to-stopped transition
 * the player compares the rule under its feet with the previous one (per axis:
 * region, then terrain tag), queues common events, toggles switches and
 * remembers the current rule. Also the trait objects a tile adds to an actor.
 */
module RegionPlayer {
  import opened Common
  import opened RegionData
  import opened RegionMap

  /** The id of a record; an absent record (`{}` in the source) has an undefined id. */
  function IdOf(record: Option<RuleRecord>): (r: Option<int>)
  {
    if record.Some? then Some(record.value.id) else None
  }

  /** `current.id !== prev.id` */
  predicate IdChanged(current: Option<RuleRecord>, prev: Option<RuleRecord>)
  {
    IdOf(current) != IdOf(prev)
  }

  /** `record.commonEvent || []` */
  function EventsOf(record: Option<RuleRecord>): (r: seq<CommonEventCall>)
  {
    if record.Some? then record.value.commonEvent else []
  }

  /** `record.switchId`, 0 (never `> 0`) for an absent record. */
  function SwitchOf(record: Option<RuleRecord>): (r: int)
  {
    if record.Some? then record.value.switchId else 0
  }

  /** An event of the current record runs: on entering when the id changed, and on every stop while inside. */
  predicate FiresOnArrival(e: CommonEventCall, changed: bool)
  {
    (e.trigger == TRIGGER_ENTER && changed) || e.trigger == TRIGGER_WHILE_INSIDE
  }

  /** An event of the previous record runs on leaving, when the id changed. */
  predicate FiresOnDeparture(e: CommonEventCall, changed: bool)
  {
    e.trigger == TRIGGER_LEAVE && changed
  }

  /** The ids of the current record's events that run, in list order. */
  function ArrivalEvents(events: seq<CommonEventCall>, changed: bool): (r: seq<int>)
    decreases |events|
  {
    if events == [] then []
    else
      var last := events[|events| - 1];
      ArrivalEvents(events[..|events| - 1], changed) + (if FiresOnArrival(last, changed) then [last.id] else [])
  }

  /** The ids of the previous record's events that run, in list order. */
  function DepartureEvents(events: seq<CommonEventCall>, changed: bool): (r: seq<int>)
    decreases |events|
  {
    if events == [] then []
    else
      var last := events[|events| - 1];
      DepartureEvents(events[..|events| - 1], changed) + (if FiresOnDeparture(last, changed) then [last.id] else [])
  }

  /** The ids of the events with a given trigger, in list order. */
  function IdsWithTrigger(events: seq<CommonEventCall>, trigger: int): (r: seq<int>)
    decreases |events|
  {
    if events == [] then []
    else
      var last := events[|events| - 1];
      IdsWithTrigger(events[..|events| - 1], trigger) + (if last.trigger == trigger then [last.id] else [])
  }

  /**
   * `checkRegionCommonTrigger(current, prev)`: what one axis queues on a stop —
   * all of the current record's events first, then the previous record's.
   */
  function TriggeredEvents(current: Option<RuleRecord>, prev: Option<RuleRecord>): (r: seq<int>)
  {
    ArrivalEvents(EventsOf(current), IdChanged(current, prev))
      + DepartureEvents(EventsOf(prev), IdChanged(current, prev))
  }

  /** An id is queued by the arrival pass exactly when some event with that id fires on arrival. */
  lemma {:induction false} ArrivalEventsMembership(events: seq<CommonEventCall>, changed: bool, id: int)
    ensures id in ArrivalEvents(events, changed) <==>
      exists k :: 0 <= k < |events| && events[k].id == id && FiresOnArrival(events[k], changed)
  {
    if events != [] {
      var front := events[..|events| - 1];
      ArrivalEventsMembership(front, changed, id);
      if id in ArrivalEvents(events, changed) {
        if id in ArrivalEvents(front, changed) {
          var k :| 0 <= k < |front| && front[k].id == id && FiresOnArrival(front[k], changed);
          assert events[k] == front[k];
        }
      }
      if exists k :: 0 <= k < |events| && events[k].id == id && FiresOnArrival(events[k], changed) {
        var k :| 0 <= k < |events| && events[k].id == id && FiresOnArrival(events[k], changed);
        if k < |events| - 1 {
          assert front[k] == events[k];
        }
      }
    }
  }

  /** An id is queued by the departure pass exactly when some event with that id fires on departure. */
  lemma {:induction false} DepartureEventsMembership(events: seq<CommonEventCall>, changed: bool, id: int)
    ensures id in DepartureEvents(events, changed) <==>
      exists k :: 0 <= k < |events| && events[k].id == id && FiresOnDeparture(events[k], changed)
  {
    if events != [] {
      var front := events[..|events| - 1];
      DepartureEventsMembership(front, changed, id);
      if id in DepartureEvents(events, changed) {
        if id in DepartureEvents(front, changed) {
          var k :| 0 <= k < |front| && front[k].id == id && FiresOnDeparture(front[k], changed);
          assert events[k] == front[k];
        }
      }
      if exists k :: 0 <= k < |events| && events[k].id == id && FiresOnDeparture(events[k], changed) {
        var k :| 0 <= k < |events| && events[k].id == id && FiresOnDeparture(events[k], changed);
        if k < |events| - 1 {
          assert front[k] == events[k];
        }
      }
    }
  }

  /** Without an id change only the while-inside events run on arrival, and nothing runs on departure. */
  lemma {:induction false} UnchangedIdRunsOnlyWhileInside(events: seq<CommonEventCall>)
    ensures ArrivalEvents(events, false) == IdsWithTrigger(events, TRIGGER_WHILE_INSIDE)
    ensures DepartureEvents(events, false) == []
  {
    if events != [] {
      UnchangedIdRunsOnlyWhileInside(events[..|events| - 1]);
    }
  }

  /** With an id change the departure pass runs exactly the leave events. */
  lemma {:induction false} ChangedIdRunsLeaveEvents(events: seq<CommonEventCall>)
    ensures DepartureEvents(events, true) == IdsWithTrigger(events, TRIGGER_LEAVE)
  {
    if events != [] {
      ChangedIdRunsLeaveEvents(events[..|events| - 1]);
    }
  }

  /**
   * `checkRegionSwitch(current, prev)` on the switch store: when the id changed,
   * the current record's switch (if > 0) is turned ON and then the previous
   * record's (if > 0) OFF; when it did not, nothing changes.
   */
  function SwitchesAfterStop(store: SwitchStore, current: Option<RuleRecord>, prev: Option<RuleRecord>): (r: SwitchStore)
    ensures !IdChanged(current, prev) ==> r == store
    ensures IdChanged(current, prev) && SwitchOf(prev) > 0 ==> !SwitchValue(r, SwitchOf(prev))
    ensures IdChanged(current, prev) && SwitchOf(current) > 0 && SwitchOf(current) != SwitchOf(prev) ==>
      SwitchValue(r, SwitchOf(current))
    ensures forall k :: k != SwitchOf(current) && k != SwitchOf(prev) ==>
      (k in r <==> k in store) && (k in r ==> r[k] == store[k])
    ensures forall k :: k <= 0 ==> (k in r <==> k in store) && (k in r ==> r[k] == store[k])
  {
    if !IdChanged(current, prev) then store
    else
      var afterEnter := if SwitchOf(current) > 0 then store[SwitchOf(current) := true] else store;
      if SwitchOf(prev) > 0 then afterEnter[SwitchOf(prev) := false] else afterEnter
  }

  /**
   * A stop on the same rule as before: only the while-inside events of the
   * current record are queued, and no switch changes.
   */
  lemma StopWithoutIdChange(store: SwitchStore, current: Option<RuleRecord>, prev: Option<RuleRecord>)
    requires !IdChanged(current, prev)
    ensures TriggeredEvents(current, prev) == IdsWithTrigger(EventsOf(current), TRIGGER_WHILE_INSIDE)
    ensures SwitchesAfterStop(store, current, prev) == store
  {
    UnchangedIdRunsOnlyWhileInside(EventsOf(current));
    UnchangedIdRunsOnlyWhileInside(EventsOf(prev));
  }

  /**
   * A stop that moves from one rule to another queues the enter and while-inside
   * events of the new rule, then the leave events of the old one.
   */
  lemma StopWithIdChange(current: Option<RuleRecord>, prev: Option<RuleRecord>, id: int)
    requires IdChanged(current, prev)
    ensures id in TriggeredEvents(current, prev) <==>
      (exists k :: 0 <= k < |EventsOf(current)| && EventsOf(current)[k].id == id
                   && EventsOf(current)[k].trigger in {TRIGGER_ENTER, TRIGGER_WHILE_INSIDE})
      || id in IdsWithTrigger(EventsOf(prev), TRIGGER_LEAVE)
  {
    ArrivalEventsMembership(EventsOf(current), true, id);
    ChangedIdRunsLeaveEvents(EventsOf(prev));
  }

  /** What a tile adds to an actor's trait objects: an engine object, or a rule record with traits. */
  datatype TraitObject = DatabaseObject(traits: seq<Trait>) | TileRule(rule: RuleRecord)

  /** A present record that carries traits (`record && record.traits`). */
  predicate HasTraits(record: Option<RuleRecord>)
  {
    record.Some? && record.value.traits.Some?
  }

  /**
   * The rule records of the tile that carry traits: one entry per such record,
   * the region's first and the terrain tag's last.
   */
  function TileTraitObjects(m: GameMap, x: int, y: int): (r: seq<TraitObject>)
    ensures |r| == (if HasTraits(FindCurrentRegion(m, x, y)) then 1 else 0)
                 + (if HasTraits(FindCurrentTerrainTag(m, x, y)) then 1 else 0)
    ensures HasTraits(FindCurrentRegion(m, x, y)) ==> r[0] == TileRule(FindCurrentRegion(m, x, y).value)
    ensures HasTraits(FindCurrentTerrainTag(m, x, y)) ==> r[|r| - 1] == TileRule(FindCurrentTerrainTag(m, x, y).value)
  {
    var region := FindCurrentRegion(m, x, y);
    var terrain := FindCurrentTerrainTag(m, x, y);
    (if HasTraits(region) then [TileRule(region.value)] else [])
      + (if HasTraits(terrain) then [TileRule(terrain.value)] else [])
  }

  /**
   * `appendRegionTraits(traitsObjects)` for a player at (x, y): the list is left
   * as it is when no map is active (`mapId <= 0` or no map data loaded);
   * otherwise the region record and then the terrain record are appended, each
   * only when it has traits, and nothing else.
   */
  function AppendRegionTraits(objects: seq<TraitObject>, mapId: int, mapLoaded: bool,
                              m: GameMap, x: int, y: int): (r: seq<TraitObject>)
    ensures mapId <= 0 || !mapLoaded ==> r == objects
    ensures mapId > 0 && mapLoaded ==> r == objects + TileTraitObjects(m, x, y)
    ensures |objects| <= |r| <= |objects| + 2 && r[..|objects|] == objects
    ensures forall k :: |objects| <= k < |r| ==> r[k].TileRule? && r[k].rule.traits.Some?
    ensures mapId > 0 && mapLoaded ==>
      |r| == |objects| + (if HasTraits(FindCurrentRegion(m, x, y)) then 1 else 0)
                       + (if HasTraits(FindCurrentTerrainTag(m, x, y)) then 1 else 0)
    ensures mapId > 0 && mapLoaded && HasTraits(FindCurrentRegion(m, x, y)) ==>
      r[|objects|] == TileRule(FindCurrentRegion(m, x, y).value)
    ensures mapId > 0 && mapLoaded && HasTraits(FindCurrentTerrainTag(m, x, y)) ==>
      r[|r| - 1] == TileRule(FindCurrentTerrainTag(m, x, y).value)
  {
    if mapId <= 0 || !mapLoaded then objects
    else objects + TileTraitObjects(m, x, y)
  }

  /**
   * The player's region state, and the two engine stores its stop handling
   * writes: the dynamic common-event queue (`setupDynamicCommon`) and the switches.
   */
  class Player {
    var region: Option<RuleRecord>
    var prevRegion: Option<RuleRecord>
    var terrainTags: Option<RuleRecord>
    var prevTerrainTags: Option<RuleRecord>
    var commonQueue: seq<int>
    var switches: SwitchStore

    constructor (store: SwitchStore)
      ensures region == None && prevRegion == None && terrainTags == None && prevTerrainTags == None
      ensures commonQueue == [] && switches == store
    {
      region, prevRegion, terrainTags, prevTerrainTags := None, None, None, None;
      commonQueue := [];
      switches := store;
    }

    /** `checkRegionCommonTrigger(current, prev)` */
    method CheckRegionCommonTrigger(current: Option<RuleRecord>, prev: Option<RuleRecord>)
      modifies this`commonQueue
      ensures commonQueue == old(commonQueue) + TriggeredEvents(current, prev)
    {
      var changed := IdOf(current) != IdOf(prev);
      QueueArrivalEvents(EventsOf(current), changed);
      QueueDepartureEvents(EventsOf(prev), changed);
    }

    /** The first `forEach` of `checkRegionCommonTrigger`, over the current record's events. */
    method QueueArrivalEvents(events: seq<CommonEventCall>, changed: bool)
      modifies this`commonQueue
      ensures commonQueue == old(commonQueue) + ArrivalEvents(events, changed)
    {
      var i := 0;
      while i < |events|
        invariant 0 <= i <= |events|
        invariant commonQueue == old(commonQueue) + ArrivalEvents(events[..i], changed)
      {
        var event := events[i];
        assert events[..i + 1][..i] == events[..i];
        assert ArrivalEvents(events[..i + 1], changed)
          == ArrivalEvents(events[..i], changed) + (if FiresOnArrival(event, changed) then [event.id] else []);
        if event.trigger == TRIGGER_ENTER && changed {
          commonQueue := commonQueue + [event.id];
        } else if event.trigger == TRIGGER_WHILE_INSIDE {
          commonQueue := commonQueue + [event.id];
        }
        i := i + 1;
      }
      assert events[..|events|] == events;
    }

    /** The second `forEach` of `checkRegionCommonTrigger`, over the previous record's events. */
    method QueueDepartureEvents(events: seq<CommonEventCall>, changed: bool)
      modifies this`commonQueue
      ensures commonQueue == old(commonQueue) + DepartureEvents(events, changed)
    {
      var i := 0;
      while i < |events|
        invariant 0 <= i <= |events|
        invariant commonQueue == old(commonQueue) + DepartureEvents(events[..i], changed)
      {
        var event := events[i];
        assert events[..i + 1][..i] == events[..i];
        assert DepartureEvents(events[..i + 1], changed)
          == DepartureEvents(events[..i], changed) + (if FiresOnDeparture(event, changed) then [event.id] else []);
        if event.trigger == TRIGGER_LEAVE && changed {
          commonQueue := commonQueue + [event.id];
        }
        i := i + 1;
      }
      assert events[..|events|] == events;
    }

    /** `checkRegionSwitch(current, prev)` */
    method CheckRegionSwitch(current: Option<RuleRecord>, prev: Option<RuleRecord>)
      modifies this`switches
      ensures switches == SwitchesAfterStop(old(switches), current, prev)
    {
      if IdOf(current) != IdOf(prev) {
        if SwitchOf(current) > 0 {
          switches := switches[SwitchOf(current) := true];
        }
        if SwitchOf(prev) > 0 {
          switches := switches[SwitchOf(prev) := false];
        }
      }
    }

    /** `updateCurrentRegionAndTerrain(current, prev)`: events first, then switches. */
    method UpdateCurrentRegionAndTerrain(current: Option<RuleRecord>, prev: Option<RuleRecord>)
      modifies this`commonQueue, this`switches
      ensures commonQueue == old(commonQueue) + TriggeredEvents(current, prev)
      ensures switches == SwitchesAfterStop(old(switches), current, prev)
    {
      CheckRegionCommonTrigger(current, prev);
      CheckRegionSwitch(current, prev);
    }

    /** `updateCurrentRegion()` at the player's position (x, y). */
    method UpdateCurrentRegion(m: GameMap, x: int, y: int)
      modifies this`region, this`prevRegion, this`commonQueue, this`switches
      ensures region == FindCurrentRegion(m, x, y) && prevRegion == region
      ensures commonQueue == old(commonQueue) + TriggeredEvents(region, old(prevRegion))
      ensures switches == SwitchesAfterStop(old(switches), region, old(prevRegion))
    {
      region := FindCurrentRegion(m, x, y);
      UpdateCurrentRegionAndTerrain(region, prevRegion);
      prevRegion := region;
    }

    /** `updateCurrentTerrainTags()` at the player's position (x, y). */
    method UpdateCurrentTerrainTags(m: GameMap, x: int, y: int)
      modifies this`terrainTags, this`prevTerrainTags, this`commonQueue, this`switches
      ensures terrainTags == FindCurrentTerrainTag(m, x, y) && prevTerrainTags == terrainTags
      ensures commonQueue == old(commonQueue) + TriggeredEvents(terrainTags, old(prevTerrainTags))
      ensures switches == SwitchesAfterStop(old(switches), terrainTags, old(prevTerrainTags))
    {
      terrainTags := FindCurrentTerrainTag(m, x, y);
      UpdateCurrentRegionAndTerrain(terrainTags, prevTerrainTags);
      prevTerrainTags := terrainTags;
    }

    /**
     * The `Game_Player.update` hook: when the player was moving before the
     * engine's update and is not moving after it, the region axis and then the
     * terrain-tag axis are updated; otherwise nothing changes.
     */
    method Update(m: GameMap, x: int, y: int, wasMoving: bool, isMoving: bool)
      modifies this
      ensures !(wasMoving && !isMoving) ==>
        && region == old(region) && prevRegion == old(prevRegion)
        && terrainTags == old(terrainTags) && prevTerrainTags == old(prevTerrainTags)
        && commonQueue == old(commonQueue) && switches == old(switches)
      ensures wasMoving && !isMoving ==>
        && region == prevRegion == FindCurrentRegion(m, x, y)
        && terrainTags == prevTerrainTags == FindCurrentTerrainTag(m, x, y)
        && commonQueue == old(commonQueue)
             + TriggeredEvents(region, old(prevRegion))
             + TriggeredEvents(terrainTags, old(prevTerrainTags))
        && switches == SwitchesAfterStop(SwitchesAfterStop(old(switches), region, old(prevRegion)),
                                         terrainTags, old(prevTerrainTags))
    {
      if !isMoving && wasMoving {
        UpdateCurrentRegion(m, x, y);
        UpdateCurrentTerrainTags(m, x, y);
      }
    }
  }
}
