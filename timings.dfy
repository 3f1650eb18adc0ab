/**
  The SpigotTimings registry: the catalog handles that parent the dynamic
  entries, and three independent get-or-create caches keyed by plugin task,
  entity type and tile-entity type.
 */
module Timings {
  import opened Names

  /** A timer handle as the registry sees it: a display name and an optional parent, fixed at construction. */
  class TimingsHandler {
    const name: string
    const parent: TimingsHandler?

    constructor (name: string, parent: TimingsHandler?)
      ensures this.name == name && this.parent == parent
    {
      this.name := name;
      this.parent := parent;
    }
  }

  /** `h` carries the display name and parent that its registry gives every entry it creates. */
  predicate Labelled(h: TimingsHandler, name: string, parent: TimingsHandler) {
    h.name == name && h.parent == parent
  }

  class SpigotTimings {
    const schedulerSyncTimer: TimingsHandler
    const activatedEntityTimer: TimingsHandler
    const tickTileEntityTimer: TimingsHandler

    var entityTypeTimingMap: map<string, TimingsHandler>
    var tileEntityTypeTimingMap: map<string, TimingsHandler>
    var pluginTaskTimingMap: map<string, TimingsHandler>

    /** Every cached handle was made by its registry's getter for its own key. */
    ghost predicate Valid()
      reads this
    {
      && (forall key | key in pluginTaskTimingMap :: Labelled(pluginTaskTimingMap[key], key, schedulerSyncTimer))
      && (forall t | t in entityTypeTimingMap :: Labelled(entityTypeTimingMap[t], EntityTimerName(t), activatedEntityTimer))
      && (forall t | t in tileEntityTypeTimingMap :: Labelled(tileEntityTypeTimingMap[t], TileEntityTimerName(t), tickTileEntityTimer))
    }

    /** The static initialisation: the three parent handles, and three empty registries. */
    constructor (pluginParentTimer: TimingsHandler?)
      ensures Valid()
      ensures fresh(schedulerSyncTimer) && fresh(activatedEntityTimer) && fresh(tickTileEntityTimer)
      ensures schedulerSyncTimer.name == "** Scheduler - Sync Tasks" && schedulerSyncTimer.parent == pluginParentTimer
      ensures activatedEntityTimer.name == "** activatedTickEntity" && activatedEntityTimer.parent == null
      ensures tickTileEntityTimer.name == "** tickTileEntity" && tickTileEntityTimer.parent == null
      ensures entityTypeTimingMap == map[] && tileEntityTypeTimingMap == map[] && pluginTaskTimingMap == map[]
    {
      activatedEntityTimer := new TimingsHandler("** activatedTickEntity", null);
      tickTileEntityTimer := new TimingsHandler("** tickTileEntity", null);
      schedulerSyncTimer := new TimingsHandler("** Scheduler - Sync Tasks", pluginParentTimer);
      entityTypeTimingMap := map[];
      tileEntityTypeTimingMap := map[];
      pluginTaskTimingMap := map[];
    }

    /**
      The timer of a plugin task: none for a task off the main thread;
      otherwise the cached handle for the task's key, created on first use.
     */
    method GetPluginTaskTimings(task: Task, period: int) returns (r: TimingsHandler?)
      requires Valid()
      modifies this`pluginTaskTimingMap
      ensures Valid()
      ensures !task.isSync ==> r == null && pluginTaskTimingMap == old(pluginTaskTimingMap)
      ensures task.isSync ==> r != null && Labelled(r, TaskKey(task, period), schedulerSyncTimer)
      ensures task.isSync && TaskKey(task, period) in old(pluginTaskTimingMap) ==>
                r == old(pluginTaskTimingMap)[TaskKey(task, period)] && pluginTaskTimingMap == old(pluginTaskTimingMap)
      ensures task.isSync && TaskKey(task, period) !in old(pluginTaskTimingMap) ==>
                fresh(r) && pluginTaskTimingMap == old(pluginTaskTimingMap)[TaskKey(task, period) := r]
      ensures entityTypeTimingMap == old(entityTypeTimingMap) && tileEntityTypeTimingMap == old(tileEntityTypeTimingMap)
    {
      if !task.isSync {
        return null;
      }
      var name := TaskKey(task, period);
      if name in pluginTaskTimingMap {
        r := pluginTaskTimingMap[name];
      } else {
        r := new TimingsHandler(name, schedulerSyncTimer);
        pluginTaskTimingMap := pluginTaskTimingMap[name := r];
      }
    }

    /** The timer of an entity type, keyed by the type's simple name, created on first use. */
    method GetEntityTimings(entityType: string) returns (r: TimingsHandler)
      requires Valid()
      modifies this`entityTypeTimingMap
      ensures Valid()
      ensures Labelled(r, EntityTimerName(entityType), activatedEntityTimer)
      ensures entityType in old(entityTypeTimingMap) ==>
                r == old(entityTypeTimingMap)[entityType] && entityTypeTimingMap == old(entityTypeTimingMap)
      ensures entityType !in old(entityTypeTimingMap) ==>
                fresh(r) && entityTypeTimingMap == old(entityTypeTimingMap)[entityType := r]
      ensures tileEntityTypeTimingMap == old(tileEntityTypeTimingMap) && pluginTaskTimingMap == old(pluginTaskTimingMap)
    {
      if entityType in entityTypeTimingMap {
        r := entityTypeTimingMap[entityType];
      } else {
        r := new TimingsHandler(EntityTimerName(entityType), activatedEntityTimer);
        entityTypeTimingMap := entityTypeTimingMap[entityType := r];
      }
    }

    /** The timer of a tile-entity type, keyed by the type's simple name, created on first use. */
    method GetTileEntityTimings(entityType: string) returns (r: TimingsHandler)
      requires Valid()
      modifies this`tileEntityTypeTimingMap
      ensures Valid()
      ensures Labelled(r, TileEntityTimerName(entityType), tickTileEntityTimer)
      ensures entityType in old(tileEntityTypeTimingMap) ==>
                r == old(tileEntityTypeTimingMap)[entityType] && tileEntityTypeTimingMap == old(tileEntityTypeTimingMap)
      ensures entityType !in old(tileEntityTypeTimingMap) ==>
                fresh(r) && tileEntityTypeTimingMap == old(tileEntityTypeTimingMap)[entityType := r]
      ensures entityTypeTimingMap == old(entityTypeTimingMap) && pluginTaskTimingMap == old(pluginTaskTimingMap)
    {
      if entityType in tileEntityTypeTimingMap {
        r := tileEntityTypeTimingMap[entityType];
      } else {
        r := new TimingsHandler(TileEntityTimerName(entityType), tickTileEntityTimer);
        tileEntityTypeTimingMap := tileEntityTypeTimingMap[entityType := r];
      }
    }
  }

  /** In a valid registry, distinct keys of one cache hold distinct handles. */
  lemma DistinctKeysDistinctHandles(reg: SpigotTimings, k1: string, k2: string)
    requires reg.Valid() && k1 != k2
    ensures k1 in reg.pluginTaskTimingMap && k2 in reg.pluginTaskTimingMap ==>
              reg.pluginTaskTimingMap[k1] != reg.pluginTaskTimingMap[k2]
    ensures k1 in reg.entityTypeTimingMap && k2 in reg.entityTypeTimingMap ==>
              reg.entityTypeTimingMap[k1] != reg.entityTypeTimingMap[k2]
    ensures k1 in reg.tileEntityTypeTimingMap && k2 in reg.tileEntityTypeTimingMap ==>
              reg.tileEntityTypeTimingMap[k1] != reg.tileEntityTypeTimingMap[k2]
  {
  }

  /**
    Two lookups of plugin tasks: they return one handle exactly when the
    tasks derive the same key, and a second lookup of a key leaves the
    registry as the first left it.
   */
  method PluginTaskTimingsTwice(reg: SpigotTimings, t1: Task, p1: int, t2: Task, p2: int)
    returns (r1: TimingsHandler?, r2: TimingsHandler?, ghost between: map<string, TimingsHandler>)
    requires reg.Valid() && t1.isSync && t2.isSync
    modifies reg`pluginTaskTimingMap
    ensures reg.Valid() && r1 != null && r2 != null
    ensures r1 == r2 <==> TaskKey(t1, p1) == TaskKey(t2, p2)
    ensures TaskKey(t1, p1) == TaskKey(t2, p2) ==> reg.pluginTaskTimingMap == between
  {
    r1 := reg.GetPluginTaskTimings(t1, p1);
    between := reg.pluginTaskTimingMap;
    r2 := reg.GetPluginTaskTimings(t2, p2);
  }

  /** Two lookups of entity types: one handle exactly when the simple names agree. */
  method EntityTimingsTwice(reg: SpigotTimings, a: string, b: string)
    returns (ra: TimingsHandler, rb: TimingsHandler, ghost between: map<string, TimingsHandler>)
    requires reg.Valid()
    modifies reg`entityTypeTimingMap
    ensures reg.Valid()
    ensures ra == rb <==> a == b
    ensures a == b ==> reg.entityTypeTimingMap == between
  {
    ra := reg.GetEntityTimings(a);
    between := reg.entityTypeTimingMap;
    rb := reg.GetEntityTimings(b);
    EntityTimerNameInjective(a, b);
  }

  /** Two lookups of tile-entity types: one handle exactly when the simple names agree. */
  method TileEntityTimingsTwice(reg: SpigotTimings, a: string, b: string)
    returns (ra: TimingsHandler, rb: TimingsHandler, ghost between: map<string, TimingsHandler>)
    requires reg.Valid()
    modifies reg`tileEntityTypeTimingMap
    ensures reg.Valid()
    ensures ra == rb <==> a == b
    ensures a == b ==> reg.tileEntityTypeTimingMap == between
  {
    ra := reg.GetTileEntityTimings(a);
    between := reg.tileEntityTypeTimingMap;
    rb := reg.GetTileEntityTimings(b);
    TileEntityTimerNameInjective(a, b);
  }
}
