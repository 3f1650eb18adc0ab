/**
  The per-world bundle of timers (WorldTimingsHandler): 22 parentless
  handles whose names are the world's name, " - " and a fixed suffix;
  all but three also carry the "** " marker in front.
 */
module WorldTimings {
  import opened Timings

  const Marker := "** "

  /** Suffixes of the marked handles, in the order the constructor creates them. */
  const MarkedSuffixes: seq<string> := [
    "mobSpawn", "doChunkUnload", "doTickPending", "doTickTiles", "doVillages",
    "doChunkMap", "doSounds", "doChunkGC", "doPortalForcer", "entityTick",
    "tileEntityTick", "tileEntityPending", "syncChunkLoad", "syncChunkLoad - Data",
    "chunkLoad - Structures", "chunkLoad - Entities", "chunkLoad - TileEntities",
    "chunkLoad - TileTicks", "chunkLoad - Post"]

  /** Suffixes of the three unmarked handles: tracker, doTick, tickEntities. */
  const PlainSuffixes: seq<string> := ["tracker", "doTick", "tickEntities"]

  function MarkedName(world: string, suffix: string): string {
    Marker + world + " - " + suffix
  }

  function PlainName(world: string, suffix: string): string {
    world + " - " + suffix
  }

  /** The names of a world's bundle, in construction order. */
  function BundleNames(world: string): (names: seq<string>)
    ensures |names| == |MarkedSuffixes| + |PlainSuffixes| == 22
  {
    seq(|MarkedSuffixes|, i requires 0 <= i < |MarkedSuffixes| => MarkedName(world, MarkedSuffixes[i]))
    + seq(|PlainSuffixes|, i requires 0 <= i < |PlainSuffixes| => PlainName(world, PlainSuffixes[i]))
  }

  /** The bundle's names written out one by one. */
  lemma BundleNamesListed(world: string)
    ensures BundleNames(world) == [
      MarkedName(world, "mobSpawn"),
      MarkedName(world, "doChunkUnload"),
      MarkedName(world, "doTickPending"),
      MarkedName(world, "doTickTiles"),
      MarkedName(world, "doVillages"),
      MarkedName(world, "doChunkMap"),
      MarkedName(world, "doSounds"),
      MarkedName(world, "doChunkGC"),
      MarkedName(world, "doPortalForcer"),
      MarkedName(world, "entityTick"),
      MarkedName(world, "tileEntityTick"),
      MarkedName(world, "tileEntityPending"),
      MarkedName(world, "syncChunkLoad"),
      MarkedName(world, "syncChunkLoad - Data"),
      MarkedName(world, "chunkLoad - Structures"),
      MarkedName(world, "chunkLoad - Entities"),
      MarkedName(world, "chunkLoad - TileEntities"),
      MarkedName(world, "chunkLoad - TileTicks"),
      MarkedName(world, "chunkLoad - Post"),
      PlainName(world, "tracker"),
      PlainName(world, "doTick"),
      PlainName(world, "tickEntities")]
  {
  }

  class WorldTimingsHandler {
    const mobSpawn: TimingsHandler
    const doChunkUnload: TimingsHandler
    const doPortalForcer: TimingsHandler
    const doTickPending: TimingsHandler
    const doTickTiles: TimingsHandler
    const doVillages: TimingsHandler
    const doChunkMap: TimingsHandler
    const doChunkGC: TimingsHandler
    const doSounds: TimingsHandler
    const entityTick: TimingsHandler
    const tileEntityTick: TimingsHandler
    const tileEntityPending: TimingsHandler
    const tracker: TimingsHandler
    const doTick: TimingsHandler
    const tickEntities: TimingsHandler

    const syncChunkLoadTimer: TimingsHandler
    const syncChunkLoadDataTimer: TimingsHandler
    const syncChunkLoadStructuresTimer: TimingsHandler
    const syncChunkLoadEntitiesTimer: TimingsHandler
    const syncChunkLoadTileEntitiesTimer: TimingsHandler
    const syncChunkLoadTileTicksTimer: TimingsHandler
    const syncChunkLoadPostTimer: TimingsHandler

    /** The display names of the bundle's handles, in construction order. */
    function Names(): (names: seq<string>)
      ensures |names| == 22
    {
      [mobSpawn.name, doChunkUnload.name, doTickPending.name, doTickTiles.name,
       doVillages.name, doChunkMap.name, doSounds.name, doChunkGC.name,
       doPortalForcer.name, entityTick.name, tileEntityTick.name, tileEntityPending.name,
       syncChunkLoadTimer.name, syncChunkLoadDataTimer.name,
       syncChunkLoadStructuresTimer.name, syncChunkLoadEntitiesTimer.name,
       syncChunkLoadTileEntitiesTimer.name, syncChunkLoadTileTicksTimer.name,
       syncChunkLoadPostTimer.name,
       tracker.name, doTick.name, tickEntities.name]
    }

    /** No handle of the bundle has a parent. */
    predicate Parentless() {
      mobSpawn.parent == null && doChunkUnload.parent == null && doTickPending.parent == null
      && doTickTiles.parent == null && doVillages.parent == null && doChunkMap.parent == null
      && doSounds.parent == null && doChunkGC.parent == null && doPortalForcer.parent == null
      && entityTick.parent == null && tileEntityTick.parent == null && tileEntityPending.parent == null
      && syncChunkLoadTimer.parent == null && syncChunkLoadDataTimer.parent == null && syncChunkLoadStructuresTimer.parent == null
      && syncChunkLoadEntitiesTimer.parent == null && syncChunkLoadTileEntitiesTimer.parent == null && syncChunkLoadTileTicksTimer.parent == null
      && syncChunkLoadPostTimer.parent == null && tracker.parent == null && doTick.parent == null
      && tickEntities.parent == null
    }

    /** Builds every handle of the bundle, fresh and parentless, named after `worldName`. */
    constructor (worldName: string)
      ensures Parentless()
      ensures fresh(mobSpawn) && fresh(doChunkUnload) && fresh(doTickPending)
           && fresh(doTickTiles) && fresh(doVillages) && fresh(doChunkMap)
           && fresh(doSounds) && fresh(doChunkGC) && fresh(doPortalForcer)
           && fresh(entityTick) && fresh(tileEntityTick) && fresh(tileEntityPending)
           && fresh(syncChunkLoadTimer) && fresh(syncChunkLoadDataTimer) && fresh(syncChunkLoadStructuresTimer)
           && fresh(syncChunkLoadEntitiesTimer) && fresh(syncChunkLoadTileEntitiesTimer) && fresh(syncChunkLoadTileTicksTimer)
           && fresh(syncChunkLoadPostTimer) && fresh(tracker) && fresh(doTick)
           && fresh(tickEntities)
      ensures Names() == BundleNames(worldName)
      ensures mobSpawn.name == MarkedName(worldName, "mobSpawn")
      ensures doChunkUnload.name == MarkedName(worldName, "doChunkUnload")
      ensures doTickPending.name == MarkedName(worldName, "doTickPending")
      ensures doTickTiles.name == MarkedName(worldName, "doTickTiles")
      ensures doVillages.name == MarkedName(worldName, "doVillages")
      ensures doChunkMap.name == MarkedName(worldName, "doChunkMap")
      ensures doSounds.name == MarkedName(worldName, "doSounds")
      ensures doChunkGC.name == MarkedName(worldName, "doChunkGC")
      ensures doPortalForcer.name == MarkedName(worldName, "doPortalForcer")
      ensures entityTick.name == MarkedName(worldName, "entityTick")
      ensures tileEntityTick.name == MarkedName(worldName, "tileEntityTick")
      ensures tileEntityPending.name == MarkedName(worldName, "tileEntityPending")
      ensures syncChunkLoadTimer.name == MarkedName(worldName, "syncChunkLoad")
      ensures syncChunkLoadDataTimer.name == MarkedName(worldName, "syncChunkLoad - Data")
      ensures syncChunkLoadStructuresTimer.name == MarkedName(worldName, "chunkLoad - Structures")
      ensures syncChunkLoadEntitiesTimer.name == MarkedName(worldName, "chunkLoad - Entities")
      ensures syncChunkLoadTileEntitiesTimer.name == MarkedName(worldName, "chunkLoad - TileEntities")
      ensures syncChunkLoadTileTicksTimer.name == MarkedName(worldName, "chunkLoad - TileTicks")
      ensures syncChunkLoadPostTimer.name == MarkedName(worldName, "chunkLoad - Post")
      ensures tracker.name == PlainName(worldName, "tracker")
      ensures doTick.name == PlainName(worldName, "doTick")
      ensures tickEntities.name == PlainName(worldName, "tickEntities")
    {
      mobSpawn := new TimingsHandler(MarkedName(worldName, "mobSpawn"), null);
      doChunkUnload := new TimingsHandler(MarkedName(worldName, "doChunkUnload"), null);
      doTickPending := new TimingsHandler(MarkedName(worldName, "doTickPending"), null);
      doTickTiles := new TimingsHandler(MarkedName(worldName, "doTickTiles"), null);
      doVillages := new TimingsHandler(MarkedName(worldName, "doVillages"), null);
      doChunkMap := new TimingsHandler(MarkedName(worldName, "doChunkMap"), null);
      doSounds := new TimingsHandler(MarkedName(worldName, "doSounds"), null);
      doChunkGC := new TimingsHandler(MarkedName(worldName, "doChunkGC"), null);
      doPortalForcer := new TimingsHandler(MarkedName(worldName, "doPortalForcer"), null);
      entityTick := new TimingsHandler(MarkedName(worldName, "entityTick"), null);
      tileEntityTick := new TimingsHandler(MarkedName(worldName, "tileEntityTick"), null);
      tileEntityPending := new TimingsHandler(MarkedName(worldName, "tileEntityPending"), null);

      syncChunkLoadTimer := new TimingsHandler(MarkedName(worldName, "syncChunkLoad"), null);
      syncChunkLoadDataTimer := new TimingsHandler(MarkedName(worldName, "syncChunkLoad - Data"), null);
      syncChunkLoadStructuresTimer := new TimingsHandler(MarkedName(worldName, "chunkLoad - Structures"), null);
      syncChunkLoadEntitiesTimer := new TimingsHandler(MarkedName(worldName, "chunkLoad - Entities"), null);
      syncChunkLoadTileEntitiesTimer := new TimingsHandler(MarkedName(worldName, "chunkLoad - TileEntities"), null);
      syncChunkLoadTileTicksTimer := new TimingsHandler(MarkedName(worldName, "chunkLoad - TileTicks"), null);
      syncChunkLoadPostTimer := new TimingsHandler(MarkedName(worldName, "chunkLoad - Post"), null);

      tracker := new TimingsHandler(PlainName(worldName, "tracker"), null);
      doTick := new TimingsHandler(PlainName(worldName, "doTick"), null);
      tickEntities := new TimingsHandler(PlainName(worldName, "tickEntities"), null);
      new;
      BundleNamesListed(worldName);
    }
  }

  /**
    Each bundle name carries the world's name followed by " - " (after the
    "** " marker for the first 19), and ends with its suffix.
   */
  lemma BundleNamesQualified(world: string, i: nat)
    requires i < 22
    ensures var n := BundleNames(world)[i];
      if i < 19 then
        n == MarkedName(world, MarkedSuffixes[i]) && n[..3] == Marker && n[3..|world| + 6] == world + " - "
      else
        n == PlainName(world, PlainSuffixes[i - 19]) && n[..|world| + 3] == world + " - "
  {
  }

  lemma MarkedNameCancel(world: string, s1: string, s2: string)
    ensures MarkedName(world, s1) == MarkedName(world, s2) ==> s1 == s2
  {
    if MarkedName(world, s1) == MarkedName(world, s2) {
      assert s1 == MarkedName(world, s1)[|world| + 6..];
    }
  }

  lemma PlainNameCancel(world: string, s1: string, s2: string)
    ensures PlainName(world, s1) == PlainName(world, s2) ==> s1 == s2
  {
    if PlainName(world, s1) == PlainName(world, s2) {
      assert s1 == PlainName(world, s1)[|world| + 3..];
    }
  }

  /** A marked name equals an unmarked one of the same world only if its suffix ends the other suffix. */
  lemma MarkedPlainCancel(world: string, s1: string, s2: string)
    ensures MarkedName(world, s1) == PlainName(world, s2) ==>
              |s2| == |s1| + 3 && s2[3..] == s1
  {
    var m, p := MarkedName(world, s1), PlainName(world, s2);
    if m == p {
      assert s1 == m[|m| - |s1|..];
      assert s2 == p[|world| + 3..];
    }
  }

  lemma MarkedSuffixesDistinct(i: nat, j: nat)
    requires i < j < |MarkedSuffixes|
    ensures MarkedSuffixes[i] != MarkedSuffixes[j]
  {
  }

  lemma PlainSuffixesDistinct(i: nat, j: nat)
    requires i < j < |PlainSuffixes|
    ensures PlainSuffixes[i] != PlainSuffixes[j]
  {
  }

  /** No marked suffix, behind three more characters, ends an unmarked one. */
  lemma NoMarkedSuffixEndsPlain(i: nat, j: nat)
    requires i < |MarkedSuffixes| && j < |PlainSuffixes|
    ensures !(|PlainSuffixes[j]| == |MarkedSuffixes[i]| + 3 && PlainSuffixes[j][3..] == MarkedSuffixes[i])
  {
  }

  /** Within one bundle no two handles share a name. */
  lemma BundleNamesDistinct(world: string, i: nat, j: nat)
    requires i < j < 22
    ensures BundleNames(world)[i] != BundleNames(world)[j]
  {
    BundleNamesQualified(world, i);
    BundleNamesQualified(world, j);
    if j < 19 {
      MarkedNameCancel(world, MarkedSuffixes[i], MarkedSuffixes[j]);
      MarkedSuffixesDistinct(i, j);
    } else if i >= 19 {
      PlainNameCancel(world, PlainSuffixes[i - 19], PlainSuffixes[j - 19]);
      PlainSuffixesDistinct(i - 19, j - 19);
    } else {
      MarkedPlainCancel(world, MarkedSuffixes[i], PlainSuffixes[j - 19]);
      NoMarkedSuffixEndsPlain(i, j - 19);
    }
  }
}
