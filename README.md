# Adaptive Performance Tweaks: server load, view distance and player positions

This Dafny project models three pieces of control logic from the Adaptive Performance Tweaks
Minecraft Forge mod. It proves properties of each.

- **Server load** (`server_load.dfy`, module `CoreServer`). The classifier maps a server's
  average tick time to one of six ordered levels, `VERY_LOW` to `VERY_HIGH`. The class
  `ServerLoad` holds the current level, the previous level and the last tick time. Each
  measurement rotates previous <- current and posts a `ServerLoadEvent`. Three tier queries
  (high, normal, low) group the levels.
- **View distance** (`view_distance.dfy`, module `ViewDistance`). On each load event the
  controller moves the server view distance down or up by one. A decision table picks the
  direction from the load tier and the player count. Every write is clamped to the configured
  `[min, max]`. Nothing is written when no player is connected or when the value would not
  change. The value functions (`SetResult`, `LoadEventResult`, `StartingResult`) state what
  each operation does to a `Host` record (player count, view distance). The classes
  `PlayerList` and `PlayerViewDistance` do the same thing in place, and their methods are
  proved against those functions.
- **Player positions** (`position_tracking.dfy`, module `PositionTracking`). A registry maps
  user names to position snapshots. A tick counter counts END phases. When it reaches exactly
  50, the next non-END phase resamples every living, connected player and resets the counter.
  Logout removes the user's entry. Two queries ask which registered positions have a point
  inside their view area.

The host server is plain state here. "No running server" is `None`. The player list is a
count and a view distance, or a sequence of `Player` records. Posting to the event bus is the
event that `MeasureLoadAndPost` returns. Configuration values are constructor and method
parameters. Tick time is a `real`.

Notes on the code's behaviour, as the model follows it:

- An event is posted on every successful measurement, not only when the level changes.
  `RepeatedMeasurementPostsAgain` shows two identical samples posting twice. Only the log
  line depends on a change.
- The `numOfPlayers == 1` increase branch in `handleServerLoadEvent` can never run, because
  the `numOfPlayers >= 1` decrease branch before it catches the same case. `Decide` keeps the
  branch, and an `assert false` in it proves that it cannot be entered. The handler's method
  does the same; there the `assert false` stands in place of the source's
  `increaseViewDistance()` call, because a call placed after it would be reported as verified
  from contradictory assumptions. `DecideTable` states what the chain does: decrease under normal load with at
  least one player, and never increase under normal load.
- The clamp tests the maximum first. The range bounds are proved only for `min <= max`.
  Nothing in these classes rejects a configuration with `min > max`.
- `ServerLifecycleHooks.getCurrentServer()` is dereferenced without a null check in
  PlayerViewDistance.java (lines 74, 92-93 and 110-111) and in PlayerPositionManager.java
  (line 80). Without a running server those handlers throw a `NullPointerException`; they
  are not silent no-ops. Only `measureLoadAndPost` checks for a missing server. The model
  always has a player list, so it does not show this case.
- The resample happens every 50 server ticks. `ResampleEveryFiftyCycles` proves this from
  START/END phase pairs. `TicksAfterCyclesValue` proves the counter never exceeds 50.

## Model

| member | source | states |
|---|---|---|
| CoreServer.LevelFromTickTime | core/src/main/java/de/markusbordihn/adaptiveperformancetweakscore/server/ServerLoad.java:68-83 | The classifier: the level's ordinal equals the number of thresholds 20, 40, 46, 49 and 55 that the tick time exceeds. The fallback branch is proved unreachable by `assert false`. |
| CoreServer.LevelBuckets | core/src/main/java/de/markusbordihn/adaptiveperformancetweakscore/server/ServerLoad.java:68-83 | Each level holds exactly on its interval: up to 20, (20,40], (40,46], (46,49], (49,55], above 55, upper ends included. The six intervals cover every real, so the NORMAL fallback at line 82 is unreachable (the `assert false` in `LevelFromTickTime`). |
| CoreServer.LevelFromTickTimeMonotone | core/src/main/java/de/markusbordihn/adaptiveperformancetweakscore/server/ServerLoad.java:68-81 | A tick time no larger than another never gets a heavier level in enum order. |
| CoreServer.TierOfTickTime | core/src/main/java/de/markusbordihn/adaptiveperformancetweakscore/server/ServerLoad.java:68-109 | The tiers as tick-time ranges: high above 46 ms, normal in (40,46], low up to 40 ms. |
| CoreServer.TiersPartitionLevels | core/src/main/java/de/markusbordihn/adaptiveperformancetweakscore/server/ServerLoad.java:93-109 | Exactly one of high, normal and low holds for each level. VERY_HIGH implies high. High is the ordinals from MEDIUM up; low is the ordinals up to LOW. |
| CoreServer.ServerLoad.constructor | core/src/main/java/de/markusbordihn/adaptiveperformancetweakscore/server/ServerLoad.java:39-42 | The current and last levels both start as NORMAL; the tick time starts at 0. |
| CoreServer.ServerLoad.MeasureLoadAndPost | core/src/main/java/de/markusbordihn/adaptiveperformancetweakscore/server/ServerLoad.java:53-66 | With no server: nothing changes and nothing is posted. Otherwise: the tick time is stored, last becomes the old current, current becomes the classification, and the event (current, last) is posted whether or not the level changed. |
| CoreServer.ServerLoad.HasVeryHighServerLoad | core/src/main/java/de/markusbordihn/adaptiveperformancetweakscore/server/ServerLoad.java:93-95 | True exactly when the current level is the last one in enum order. |
| CoreServer.ServerLoad.HasHighServerLoad | core/src/main/java/de/markusbordihn/adaptiveperformancetweakscore/server/ServerLoad.java:97-100 | True exactly when the current level is MEDIUM or heavier. |
| CoreServer.ServerLoad.HasNormalServerLoad | core/src/main/java/de/markusbordihn/adaptiveperformancetweakscore/server/ServerLoad.java:102-104 | True exactly when the current level's ordinal is NORMAL's. |
| CoreServer.ServerLoad.HasLowServerLoad | core/src/main/java/de/markusbordihn/adaptiveperformancetweakscore/server/ServerLoad.java:106-109 | True exactly when the current level is LOW or lighter. |
| CoreServer.RepeatedMeasurementPostsAgain | core/src/main/java/de/markusbordihn/adaptiveperformancetweakscore/server/ServerLoad.java:58-65 | Two measurements of 30 ms from the initial state post (LOW, NORMAL) and then (LOW, LOW): an unchanged level is posted again. |
| CoreServer.MeasureWithoutServer | core/src/main/java/de/markusbordihn/adaptiveperformancetweakscore/server/ServerLoad.java:54-57 | Without a server a measurement posts nothing, and both levels stay NORMAL. |
| ViewDistance.Clamp | player/src/main/java/de/markusbordihn/adaptiveperformancetweaksplayer/player/PlayerViewDistance.java:87-91 | With min <= max the result lies in [min,max]. An in-range request is kept. A request above max gives max, which is tested first even when min > max. |
| ViewDistance.ClampIsNearestInRange | player/src/main/java/de/markusbordihn/adaptiveperformancetweaksplayer/player/PlayerViewDistance.java:87-91 | With min <= max the clamped value lies in [min,max], and it is the point of that range nearest the request. |
| ViewDistance.CurrentViewDistance | player/src/main/java/de/markusbordihn/adaptiveperformancetweaksplayer/player/PlayerViewDistance.java:109-113 | The host's value when it is positive, otherwise the configured default. |
| ViewDistance.SetResult | player/src/main/java/de/markusbordihn/adaptiveperformancetweaksplayer/player/PlayerViewDistance.java:86-99 | The effect of setViewDistance on the host: the player count is kept, the view distance is either unchanged or the clamped request, and with no players the host is unchanged. |
| ViewDistance.SetResultGuard | player/src/main/java/de/markusbordihn/adaptiveperformancetweaksplayer/player/PlayerViewDistance.java:86-99 | The host changes if and only if a player is connected and the clamped request differs from the host's value. The player count is never changed, and the value written is the clamped request. |
| ViewDistance.SetResultWithinRange | player/src/main/java/de/markusbordihn/adaptiveperformancetweaksplayer/player/PlayerViewDistance.java:86-99 | With min <= max, setViewDistance either leaves the host as it was or writes a value in [min,max]. |
| ViewDistance.Decide | player/src/main/java/de/markusbordihn/adaptiveperformancetweaksplayer/player/PlayerViewDistance.java:74-83 | The branch chain of the handler: high load always decreases, and an increase happens only under low load with a player. The branch at line 79 is proved unreachable by `assert false`. |
| ViewDistance.LoadEventResult | player/src/main/java/de/markusbordihn/adaptiveperformancetweaksplayer/player/PlayerViewDistance.java:70-84 | The effect of a load event: the player count is kept, nothing changes when disabled, and otherwise the host is unchanged or holds the clamp of getViewDistance() - 1 or + 1. |
| ViewDistance.StartingResult | player/src/main/java/de/markusbordihn/adaptiveperformancetweaksplayer/player/PlayerViewDistance.java:60-67 | The effect of server start: the player count is kept, and with min <= max the host is unchanged or holds min. When enabled, with a connected player and min <= max, the host ends holding min. |
| ViewDistance.DecideTable | player/src/main/java/de/markusbordihn/adaptiveperformancetweaksplayer/player/PlayerViewDistance.java:74-83 | Decrease if and only if the load is high, or normal with at least one player. Increase if and only if the load is low with at least one player (never under normal load: the branch at line 79 is dead). Keep if and only if the load is not high and no player is connected. |
| ViewDistance.DisabledChangesNothing | player/src/main/java/de/markusbordihn/adaptiveperformancetweaksplayer/player/PlayerViewDistance.java:60-73 | With the optimisation disabled, neither a load event nor server start changes the host. |
| ViewDistance.NoPlayersNoChange | player/src/main/java/de/markusbordihn/adaptiveperformancetweaksplayer/player/PlayerViewDistance.java:70-99 | With no players connected, no load event (of any tier) and no server start changes the host. |
| ViewDistance.LoadEventTargets | player/src/main/java/de/markusbordihn/adaptiveperformancetweaksplayer/player/PlayerViewDistance.java:75-107 | When enabled, high load sets getViewDistance() - 1, normal load with a player sets getViewDistance() - 1, and low load with a player sets getViewDistance() + 1. |
| ViewDistance.LoadEventStepBounded | player/src/main/java/de/markusbordihn/adaptiveperformancetweaksplayer/player/PlayerViewDistance.java:86-107 | From a positive host value in [min,max], one load event changes the view distance by at most 1. |
| ViewDistance.StepKeepsRange | player/src/main/java/de/markusbordihn/adaptiveperformancetweaksplayer/player/PlayerViewDistance.java:60-107 | A server start, a load event or a change in player count keeps an in-range view distance in [min,max]. |
| ViewDistance.RunKeepsRange | player/src/main/java/de/markusbordihn/adaptiveperformancetweaksplayer/player/PlayerViewDistance.java:60-107 | Any sequence of such steps keeps an in-range view distance in [min,max] (by induction on the sequence). |
| ViewDistance.OnePlayerScenario | player/src/main/java/de/markusbordihn/adaptiveperformancetweaksplayer/player/PlayerViewDistance.java:70-107 | With one player, range [3,16] and start 3, tick times 10, 45, 52 and 15 ms give view distances 4, 3, 3 and 4. |
| ViewDistance.PlayerViewDistance.constructor | player/src/main/java/de/markusbordihn/adaptiveperformancetweaksplayer/player/PlayerViewDistance.java:44-47 | The fields hold the given configuration. |
| ViewDistance.PlayerViewDistance.OnServerAboutToStart | player/src/main/java/de/markusbordihn/adaptiveperformancetweaksplayer/player/PlayerViewDistance.java:52-57 | Reloads the four configuration fields. |
| ViewDistance.PlayerViewDistance.OnServerStarting | player/src/main/java/de/markusbordihn/adaptiveperformancetweaksplayer/player/PlayerViewDistance.java:60-67 | The player list ends as `StartingResult`: unchanged when disabled, otherwise setViewDistance(min). |
| ViewDistance.PlayerViewDistance.HandleServerLoadEvent | player/src/main/java/de/markusbordihn/adaptiveperformancetweaksplayer/player/PlayerViewDistance.java:70-84 | The player list ends as `LoadEventResult`. The proof passes through an `assert false` in the dead branch. |
| ViewDistance.PlayerViewDistance.SetViewDistance | player/src/main/java/de/markusbordihn/adaptiveperformancetweaksplayer/player/PlayerViewDistance.java:86-99 | The player list ends as `SetResult` of the request: clamped, and written only when guarded. |
| ViewDistance.PlayerViewDistance.IncreaseViewDistance | player/src/main/java/de/markusbordihn/adaptiveperformancetweaksplayer/player/PlayerViewDistance.java:101-103 | The player list ends as setViewDistance(getViewDistance() + 1). |
| ViewDistance.PlayerViewDistance.DecreaseViewDistance | player/src/main/java/de/markusbordihn/adaptiveperformancetweaksplayer/player/PlayerViewDistance.java:105-107 | The player list ends as setViewDistance(getViewDistance() - 1). |
| ViewDistance.PlayerViewDistance.GetViewDistance | player/src/main/java/de/markusbordihn/adaptiveperformancetweaksplayer/player/PlayerViewDistance.java:109-113 | Returns the host's positive value, or the default. |
| PositionTracking.NextTicks | src/main/java/de/markusbordihn/adaptiveperformancetweaks/player/PlayerPositionManager.java:75-79 | END adds one to the counter. A non-END phase leaves it unchanged unless it is 50, and then resets it to 0. |
| PositionTracking.TicksAfterCyclesValue | src/main/java/de/markusbordihn/adaptiveperformancetweaks/player/PlayerPositionManager.java:74-88 | After n >= 1 START/END pairs from 0, the counter holds (n-1) % 50 + 1, so it never exceeds 50. |
| PositionTracking.ResampleEveryFiftyCycles | src/main/java/de/markusbordihn/adaptiveperformancetweaks/player/PlayerPositionManager.java:74-88 | The START phase after n completed START/END pairs resamples if and only if n is a positive multiple of 50; the first resample is at the START of the 51st pair. |
| PositionTracking.LoggedOut | src/main/java/de/markusbordihn/adaptiveperformancetweaks/player/PlayerPositionManager.java:65-71 | Removes exactly the user name's key (none for an empty name), and leaves every other entry as it was. |
| PositionTracking.LoggedOutIdempotent | src/main/java/de/markusbordihn/adaptiveperformancetweaks/player/PlayerPositionManager.java:65-71 | Logging out twice is the same as logging out once. |
| PositionTracking.Track | src/main/java/de/markusbordihn/adaptiveperformancetweaks/player/PlayerPositionManager.java:114-121 | Adds the player's name to the keys. The entry becomes the refreshed old entry, or a refreshed new one if the name was absent. Every other entry is left as it was. |
| PositionTracking.Resample | src/main/java/de/markusbordihn/adaptiveperformancetweaks/player/PlayerPositionManager.java:80-85 | The resample loop over the player list in order, skipping dead and disconnecting players. No name is ever removed. |
| PositionTracking.ResampleKeys | src/main/java/de/markusbordihn/adaptiveperformancetweaks/player/PlayerPositionManager.java:79-87 | After a resample the keys are exactly the old keys plus the name of every alive, connected player. |
| PositionTracking.ResampleLeavesOthers | src/main/java/de/markusbordihn/adaptiveperformancetweaks/player/PlayerPositionManager.java:80-85 | A name carried by no alive, connected player (dead, disconnecting or absent) keeps its entry unchanged through a resample. |
| PositionTracking.ResampleRefreshes | src/main/java/de/markusbordihn/adaptiveperformancetweaks/player/PlayerPositionManager.java:80-85 | For the last alive, connected player of a name in the list, the name's entry becomes update(earlier entry, or a new position built from that player if there was none). The earlier entry is the one the loop left before reaching that player. |
| PositionTracking.PlayerPositionManager.constructor | src/main/java/de/markusbordihn/adaptiveperformancetweaks/player/PlayerPositionManager.java:44-45 | An empty registry with the counter at 0. |
| PositionTracking.PlayerPositionManager.OnServerAboutToStart | src/main/java/de/markusbordihn/adaptiveperformancetweaks/player/PlayerPositionManager.java:50-53 | Empties the registry and keeps the counter. |
| PositionTracking.PlayerPositionManager.HandlePlayerLoggedOut | src/main/java/de/markusbordihn/adaptiveperformancetweaks/player/PlayerPositionManager.java:64-71 | The registry ends as `LoggedOut` of the user name; the counter is kept. |
| PositionTracking.PlayerPositionManager.HandleServerTick | src/main/java/de/markusbordihn/adaptiveperformancetweaks/player/PlayerPositionManager.java:73-88 | END only increments the counter. A non-END phase at exactly 50 resets it and leaves the registry as `Resample` of the player list. Any other phase changes nothing. |
| PositionTracking.PlayerPositionManager.UpdatePlayerPosition | src/main/java/de/markusbordihn/adaptiveperformancetweaks/player/PlayerPositionManager.java:114-121 | The registry ends as `Track` of the player (create if absent, then update); the counter is kept. |
| PositionTracking.PlayerPositionManager.GetPlayerPositionsInsideViewArea | src/main/java/de/markusbordihn/adaptiveperformancetweaks/player/PlayerPositionManager.java:90-99 | Each position occurs in the result once per registry entry that holds it and is inside the view area; nothing else occurs. The result is non-empty if and only if some entry is inside. |
| PositionTracking.PlayerPositionManager.IsInsidePlayersViewArea | src/main/java/de/markusbordihn/adaptiveperformancetweaks/player/PlayerPositionManager.java:101-108 | True if and only if some registry entry is inside the view area, which is exactly when the list query is non-empty. |

## Left out

- Forge event dispatch (`@SubscribeEvent`), `ServerLifecycleHooks`, `MinecraftServer` and `PlayerList` are framework code. They become explicit state and explicit method calls.
- Logging is left out: the load-change log line, the view-distance debug lines, and `handleServerStartingEvent` in PlayerPositionManager (it only logs). For the same reason the `logServerLoad` flag and `ServerLoad.handleServerAboutToStartEvent`, which reloads it, are left out.
- Configuration loading (`CommonConfig`) is left out. Its values are constructor and method parameters.
- The getters `getServerLoad`, `getLastServerLoad`, `getAvgTickTime`, `getMaxViewDistance`, `getMinViewDistance` and `getPlayerPositionMap` are not separate members. They return a field, and the model reads that field directly.
- `ServerLoadEvent` is not part of this model. Its tier queries are assumed to be those of ServerLoad.java applied to the event's current level.
- PlayerPosition is not part of this model. Its constructor, `update` and `isInsidePlayerViewArea` are functions given to the registry at construction. So the view-area geometry (scale factors, same-world test) is not modelled, and neither is the debug-only boolean that `update` returns.
- A missing server in the view-distance handlers and the tick handler is left out. The source dereferences it without a check and would throw; the model always receives a player list (see the notes above).
- In-place mutation and aliasing of positions are left out. `PlayerPosition.update` mutates the object stored in the map. The list returned by `getPlayerPositionsInsideViewArea` holds those same live objects, so a later resample changes what a caller holds. The model treats positions as values, replaces the map entry, and returns a snapshot.
- `ConcurrentHashMap` thread safety is left out. The model is sequential with a single writer.
- NaN and IEEE behaviour of the `double` tick time are left out. Tick time is a `real`. NaN is the only input that reaches the fallback at ServerLoad.java:82.
- Player coordinates are `real` and are read only by the PlayerPosition functions.
- ViewDistance.LoadEventResult: Java's 32-bit wrap-around of `getViewDistance() +/- 1` is not modelled. It needs a host value or default at the edge of the int range.
- PositionTracking.PlayerPositionManager.HandleServerTick: the counter is an unbounded `nat`, not a 32-bit int. `TicksAfterCyclesValue` shows it stays at or below 50 when START and END phases alternate.
