# SpigotTimings: a Dafny model of the timer registry

This project models the registry of named performance-timer handles in
`SpigotTimings.java`. It covers four things:

- **Timer handles** (`CustomTimingsHandler`). A handle is reduced to its display name and optional
  parent, both fixed when it is constructed. It is the class `Timings.TimingsHandler`, so a cached
  handle can be compared by reference.
- **The static catalog**, limited to the three handles that parent dynamic entries:
  `schedulerSyncTimer`, `activatedEntityTimer` and `tickTileEntityTimer`. Together with the three
  registries, they are the fields of the class `Timings.SpigotTimings`. The Java statics become one
  object, and the constructor plays the part of the static initialiser.
- **Three get-or-create registries.** They map plugin-task keys, entity type names and tile-entity type
  names to handles. On a hit, a getter returns the stored handle and leaves its map alone. On a miss, it
  builds a handle with the registry's display name and parent, inserts it and returns it. Each getter
  modifies only its own map.
- **The per-world bundle** (`WorldTimingsHandler`). It holds 22 parentless handles. Each name is the
  world name, `" - "` and a fixed suffix. All but `tracker`, `doTick` and `tickEntities` also start
  with the `"** "` marker.

The plugin-task key and the handle names are pure string functions (module `Names`). The repeat
period is written with a decimal rendering (module `Decimal`). Each derivation is proved against a
partner:

- the key has a parser, and every key reads back to the text owner + `" Runnable: "` + task name, and to
  its repeat. Owner and task name cannot be separated: different pairs can share a key, and so a cached handle;
- the decimal rendering has a parser with a round-trip proof;
- the entity and tile-entity names are injective in the type name;
- the 22 bundle names are pairwise distinct.

The host objects are plain inputs:

- a task is the value `Names.Task`: sync flag, owner full name if any, scheduler timing name if any,
  and task name;
- an entity or tile entity is the simple name of its class;
- a world is its name.

`CraftTask` (which provides the task name and the timing name) is not part of this model.

`tracker`, `doTick` and `tickEntities` carry no `"** "` marker (SpigotTimings.java lines 176-178).

## Model

| member | source | states |
|---|---|---|
| `Decimal.DecimalString` | src/main/java/org/bukkit/craftbukkit/SpigotTimings.java:80 | the rendered period is a non-empty string of digits with no leading zero unless the value is 0 |
| `Decimal.ParseDecimalString` | src/main/java/org/bukkit/craftbukkit/SpigotTimings.java:80 | reading back the decimal rendering of any period gives the period again |
| `Decimal.DecimalStringInjective` | src/main/java/org/bukkit/craftbukkit/SpigotTimings.java:80 | two periods have the same rendering exactly when they are equal |
| `Names.OwnerLabel` | src/main/java/org/bukkit/craftbukkit/SpigotTimings.java:68-74 | the owner label is the owner's full name when there is an owner; otherwise it is "CraftScheduler" exactly when a timing name is set, and "Unknown" exactly when none is |
| `Names.RepeatOf` | src/main/java/org/bukkit/craftbukkit/SpigotTimings.java:79-83 | a task counts as repeating exactly when its period is positive, and then it carries that period |
| `Names.PluginTaskKey` | src/main/java/org/bukkit/craftbukkit/SpigotTimings.java:77-84 | every plugin-task key starts with "Task: " |
| `Names.ParseIntervalRoundTrip` | src/main/java/org/bukkit/craftbukkit/SpigotTimings.java:80 | text followed by "(interval:" and a rendered period reads back to that text and that period |
| `Names.ParseTailRoundTrip` | src/main/java/org/bukkit/craftbukkit/SpigotTimings.java:79-83 | text followed by "(Single)" or "(interval:N)" reads back to that text and repeat, whatever the text contains |
| `Names.ParseKeyRoundTrip` | src/main/java/org/bukkit/craftbukkit/SpigotTimings.java:77-84 | every key "Task: " + owner + " Runnable: " + taskname + suffix reads back to the text owner + " Runnable: " + taskname, and to "(interval:period)" when period > 0 or "(Single)" otherwise |
| `Names.KeysCollideAcrossOwners` | src/main/java/org/bukkit/craftbukkit/SpigotTimings.java:77-89 | for any a, b, c and period, owner a + " Runnable: " + b with task c and the different owner a with task b + " Runnable: " + c get the same key, so the two tasks share one cached handle |
| `Names.PluginTaskKeyInjective` | src/main/java/org/bukkit/craftbukkit/SpigotTimings.java:77-84 | for one owner, two keys are equal exactly when the task names are equal and the repeats are equal |
| `Names.PluginTaskKeyPeriods` | src/main/java/org/bukkit/craftbukkit/SpigotTimings.java:79-83 | distinct positive periods give distinct keys; every period <= 0 gives the same "(Single)" key |
| `Names.EntityTimerName` | src/main/java/org/bukkit/craftbukkit/SpigotTimings.java:102 | the entity handle's name is "** tickEntity - " followed by exactly the type name |
| `Names.TileEntityTimerName` | src/main/java/org/bukkit/craftbukkit/SpigotTimings.java:117 | the tile-entity handle's name is "** tickTileEntity - " followed by exactly the type name |
| `Names.EntityTimerNameInjective` | src/main/java/org/bukkit/craftbukkit/SpigotTimings.java:99-102 | two entity types get the same handle name exactly when their simple names are equal |
| `Names.TileEntityTimerNameInjective` | src/main/java/org/bukkit/craftbukkit/SpigotTimings.java:114-117 | two tile-entity types get the same handle name exactly when their simple names are equal |
| `Names.NameSpacesDisjoint` | src/main/java/org/bukkit/craftbukkit/SpigotTimings.java:87-117 | no entity handle name equals a tile-entity handle name, and neither equals a plugin-task key |
| `Timings.TimingsHandler.constructor` | src/main/java/org/bukkit/craftbukkit/SpigotTimings.java:87 | a new handle has exactly the given display name and parent |
| `Timings.SpigotTimings.constructor` | src/main/java/org/bukkit/craftbukkit/SpigotTimings.java:33-52 | the three parent handles are fresh, with the catalog's names; the sync-task parent hangs under the plugin loader's timer; all three registries start empty and consistent |
| `Timings.SpigotTimings.GetPluginTaskTimings` | src/main/java/org/bukkit/craftbukkit/SpigotTimings.java:61-91 | a task that is not sync yields null with the map unchanged; otherwise the result is named by the task's key and parented to schedulerSyncTimer; a hit returns the stored handle with the map unchanged; a miss returns a fresh handle and the map gains only key -> result; the other two maps are unchanged |
| `Timings.SpigotTimings.GetEntityTimings` | src/main/java/org/bukkit/craftbukkit/SpigotTimings.java:98-106 | the result is named "** tickEntity - " + type and parented to activatedEntityTimer; a hit returns the stored handle with the map unchanged; a miss returns a fresh handle and the map gains only type -> result; the other two maps are unchanged |
| `Timings.SpigotTimings.GetTileEntityTimings` | src/main/java/org/bukkit/craftbukkit/SpigotTimings.java:113-121 | the result is named "** tickTileEntity - " + type and parented to tickTileEntityTimer; a hit returns the stored handle with the map unchanged; a miss returns a fresh handle and the map gains only type -> result; the other two maps are unchanged |
| `Timings.DistinctKeysDistinctHandles` | src/main/java/org/bukkit/craftbukkit/SpigotTimings.java:85-119 | in each registry, different keys hold different handle objects |
| `Timings.PluginTaskTimingsTwice` | src/main/java/org/bukkit/craftbukkit/SpigotTimings.java:85-90 | two sync lookups return the same handle exactly when the tasks derive the same key; when they do, the second lookup leaves the map as the first left it |
| `Timings.EntityTimingsTwice` | src/main/java/org/bukkit/craftbukkit/SpigotTimings.java:99-105 | two entity lookups return the same handle exactly when the simple type names are equal; when they are, the second lookup leaves the map unchanged |
| `Timings.TileEntityTimingsTwice` | src/main/java/org/bukkit/craftbukkit/SpigotTimings.java:114-120 | two tile-entity lookups return the same handle exactly when the simple type names are equal; when they are, the second lookup leaves the map unchanged |
| `WorldTimings.BundleNamesListed` | src/main/java/org/bukkit/craftbukkit/SpigotTimings.java:152-178 | the bundle's names, one by one in construction order: 19 "** " + world + " - " + suffix names, then tracker, doTick and tickEntities without the marker |
| `WorldTimings.WorldTimingsHandler.constructor` | src/main/java/org/bukkit/craftbukkit/SpigotTimings.java:151-179 | all 22 handles are fresh and parentless, and their names are the bundle's names for the world |
| `WorldTimings.BundleNamesQualified` | src/main/java/org/bukkit/craftbukkit/SpigotTimings.java:152-178 | each of the first 19 names is "** " + world + " - " + its suffix; each of the last three is world + " - " + its suffix; so every name contains world + " - " |
| `WorldTimings.BundleNamesDistinct` | src/main/java/org/bukkit/craftbukkit/SpigotTimings.java:154-178 | no two handles of one bundle share a name, including marked against unmarked names |

## Left out

- The internals of `CustomTimingsHandler` are left out: starting, stopping, accumulating and reporting. A handle is only its name and parent.
- Concurrency is left out. The registries are `ConcurrentHashMap`s, and two racing misses may each construct a handle, with the last `put` winning. The model runs one call at a time.
- The `(CraftTask)` cast and its possible `ClassCastException` are left out. Every task is taken to be a `CraftTask`.
- The host objects are left out. The owner's full name, the task name, the timing name, the simple class name and the world name are plain string inputs.
- The period is an unbounded `int` rather than a 64-bit `long`. It is only compared with 0 and printed, so its width does not matter.
- `JavaPluginLoader.pluginParentTimer` is a handle passed to the registry's constructor.
- The other static catalog entries (lines 21-48) are left out. They are constant-name allocations that no getter uses.
