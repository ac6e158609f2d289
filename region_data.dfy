/**
 * The region and terrain-tag rule database of RegionBase.js: the rule record, the
 * two sparse tables indexed by configured id, and how they are built from the
 * plugin parameters when the game data finishes loading.
 */
module RegionData {
  import opened Common

  /** Values of the `collisionForPlayer` / `collisionForEvent` select lists. */
  datatype Collision = CollisionAll | CollisionUp | CollisionRight | CollisionDown | CollisionLeft

  /** Values of the `tileAttribute` select list. */
  datatype TileAttribute = Ladder | Bush | Counter | DamageFloor

  /** One trait of a database class (code, data id, value). */
  datatype Trait = Trait(code: int, dataId: int, value: real)

  /** One entry of a record's `commonEvent` list. */
  datatype CommonEventCall = CommonEventCall(id: int, trigger: int)

  /** Trigger values of a `commonEvent` entry. */
  const TRIGGER_ENTER := 0
  const TRIGGER_WHILE_INSIDE := 1
  const TRIGGER_LEAVE := 2

  /**
   * One configured region or terrain-tag rule. `commonEvent` is `[]` when the
   * parameter is unset (the source reads it as `commonEvent || []`), `switchId`
   * and `traitsId` are 0 when unset, and `traits` is filled in from the class
   * table while the tables are built.
   */
  datatype RuleRecord = RuleRecord(
    id: int,
    name: string,
    collisionForPlayer: seq<Collision>,
    collisionForEvent: seq<Collision>,
    through: bool,
    tileAttribute: seq<TileAttribute>,
    commonEvent: seq<CommonEventCall>,
    switchId: int,
    traitsId: int,
    note: string,
    traits: Option<seq<Trait>>)

  /** A sparse table (`$dataSystem.regions` or `$dataSystem.terrainTags`): ids with no entry are absent. */
  type RuleTable = map<int, RuleRecord>

  /** The traits of every present, non-null entry of `$dataClasses`, by class id. */
  type ClassTable = map<int, seq<Trait>>

  /** Attaches the traits of class `traitsId` when the class table has it; otherwise nothing changes. */
  function AttachTraits(item: RuleRecord, classes: ClassTable): (r: RuleRecord)
    ensures item.traitsId in classes ==> r.traits == Some(classes[item.traitsId])
    ensures item.traitsId !in classes ==> r == item
    ensures r == item.(traits := r.traits)
  {
    if item.traitsId in classes then item.(traits := Some(classes[item.traitsId])) else item
  }

  /** The set of ids the list configures. */
  ghost function ConfiguredIds(items: seq<RuleRecord>): (r: set<int>)
  {
    set k | 0 <= k < |items| :: items[k].id
  }

  /**
   * The table that storing the items one after the other at their own id yields.
   * Every key is the id of the record stored under it, and the keys are exactly the
   * configured ids.
   */
  function BuildTable(items: seq<RuleRecord>, classes: ClassTable): (table: RuleTable)
    ensures forall id :: id in table ==> table[id].id == id
    ensures table.Keys == ConfiguredIds(items)
    decreases |items|
  {
    if items == [] then map[]
    else
      var last := items[|items| - 1];
      var front := items[..|items| - 1];
      assert ConfiguredIds(items) == ConfiguredIds(front) + {last.id} by {
        forall id | id in ConfiguredIds(items) ensures id in ConfiguredIds(front) + {last.id} {
          var k :| 0 <= k < |items| && items[k].id == id;
          if k < |items| - 1 { assert front[k] == items[k]; }
        }
        forall id | id in ConfiguredIds(front) ensures id in ConfiguredIds(items) {
          var k :| 0 <= k < |front| && front[k].id == id;
          assert items[k] == front[k];
        }
      }
      BuildTable(front, classes)[last.id := AttachTraits(last, classes)]
  }

  /**
   * A later entry with the same id overwrites an earlier one: the record stored
   * under a configured id is the LAST entry with that id, with its traits attached.
   */
  lemma {:induction false} BuildTableLastWins(items: seq<RuleRecord>, classes: ClassTable, id: int)
    requires id in ConfiguredIds(items)
    ensures exists k :: 0 <= k < |items| && items[k].id == id
                        && BuildTable(items, classes)[id] == AttachTraits(items[k], classes)
                        && forall m :: k < m < |items| ==> items[m].id != id
  {
    var last := items[|items| - 1];
    var front := items[..|items| - 1];
    if last.id == id {
      assert items[|items| - 1].id == id
             && BuildTable(items, classes)[id] == AttachTraits(items[|items| - 1], classes);
    } else {
      var j :| 0 <= j < |items| && items[j].id == id;
      assert j < |items| - 1 && front[j] == items[j];
      BuildTableLastWins(front, classes, id);
      var k :| 0 <= k < |front| && front[k].id == id
               && BuildTable(front, classes)[id] == AttachTraits(front[k], classes)
               && forall m :: k < m < |front| ==> front[m].id != id;
      assert items[k] == front[k];
      assert forall m :: k < m < |items| ==> items[m].id != id by {
        forall m | k < m < |items| ensures items[m].id != id {
          if m < |items| - 1 { assert items[m] == front[m]; }
        }
      }
    }
  }

  /** Storing one more item updates the table at that item's id only. */
  lemma BuildTableSnoc(front: seq<RuleRecord>, item: RuleRecord, classes: ClassTable)
    ensures BuildTable(front + [item], classes) == BuildTable(front, classes)[item.id := AttachTraits(item, classes)]
  {
    assert (front + [item])[..|front|] == front;
  }

  /**
   * `PluginManagerEx.setupRegionData`: a list that is not an array yields an empty
   * table; otherwise each item is stored at index `item.id` in list order, with
   * the traits of class `traitsId` attached when that class exists.
   */
  method SetupRegionData(paramList: Option<seq<RuleRecord>>, classes: ClassTable) returns (table: RuleTable)
    ensures paramList.None? ==> table == map[]
    ensures paramList.Some? ==> table == BuildTable(paramList.value, classes)
  {
    table := map[];
    if paramList.None? {
      return;
    }
    var items := paramList.value;
    var i := 0;
    while i < |items|
      invariant 0 <= i <= |items|
      invariant table == BuildTable(items[..i], classes)
    {
      var item := items[i];
      assert items[..i + 1] == items[..i] + [item];
      BuildTableSnoc(items[..i], item, classes);
      table := table[item.id := AttachTraits(item, classes)];
      i := i + 1;
    }
    assert items[..|items|] == items;
  }

  /**
   * The two tables of `$dataSystem`. They are built once, on the first data load
   * at which both `$dataSystem` and `$dataClasses` exist, and never rebuilt.
   */
  class DataSystem {
    var regions: Option<RuleTable>
    var terrainTags: Option<RuleTable>

    constructor ()
      ensures regions == None && terrainTags == None
    {
      regions := None;
      terrainTags := None;
    }

    /** The `DataManager.onLoad` hook; `classes` is `None` while `$dataClasses` is not loaded. */
    method OnLoad(regionList: Option<seq<RuleRecord>>, terrainTagList: Option<seq<RuleRecord>>,
                  classes: Option<ClassTable>)
      modifies this
      ensures old(regions).None? && classes.Some? ==>
        && regions == Some(if regionList.Some? then BuildTable(regionList.value, classes.value) else map[])
        && terrainTags == Some(if terrainTagList.Some? then BuildTable(terrainTagList.value, classes.value) else map[])
      ensures old(regions).Some? || classes.None? ==>
        regions == old(regions) && terrainTags == old(terrainTags)
    {
      if classes.Some? && regions.None? {
        var r := SetupRegionData(regionList, classes.value);
        regions := Some(r);
        var t := SetupRegionData(terrainTagList, classes.value);
        terrainTags := Some(t);
      }
    }
  }
}
