/** The view-distance controller of the player module (PlayerViewDistance).

    The host's player list is reduced to what the controller reads and writes:
    the number of connected players and the server view distance. The value
    functions below say what each operation does to that state; the classes
    at the end do it in place and are proved against them. */
module ViewDistance {
  import opened CoreServer

  /** The controller's configuration, as loaded when the server is about to start. */
  datatype Config = Config(
    optimizeViewDistance: bool,
    viewDistanceDefault: int,
    viewDistanceMin: int,
    viewDistanceMax: int)

  /** What the controller sees of the host's player list. */
  datatype Host = Host(playerCount: nat, viewDistance: int)

  predicate InRange(cfg: Config, viewDistance: int)
  {
    cfg.viewDistanceMin <= viewDistance <= cfg.viewDistanceMax
  }

  /** The clamp at the top of setViewDistance: the maximum is tested first. */
  function Clamp(cfg: Config, viewDistance: int): (r: int)
    ensures cfg.viewDistanceMin <= cfg.viewDistanceMax ==> InRange(cfg, r)
    ensures InRange(cfg, viewDistance) ==> r == viewDistance
    ensures viewDistance > cfg.viewDistanceMax ==> r == cfg.viewDistanceMax
  {
    if viewDistance > cfg.viewDistanceMax then cfg.viewDistanceMax
    else if viewDistance < cfg.viewDistanceMin then cfg.viewDistanceMin
    else viewDistance
  }

  function Abs(x: int): nat { if x < 0 then -x else x }

  /** With a non-empty range the clamp lands in the range, and it is the point of
      the range nearest the requested value (so a value in range is kept). */
  lemma ClampIsNearestInRange(cfg: Config, viewDistance: int, other: int)
    requires cfg.viewDistanceMin <= cfg.viewDistanceMax
    requires InRange(cfg, other)
    ensures InRange(cfg, Clamp(cfg, viewDistance))
    ensures Abs(Clamp(cfg, viewDistance) - viewDistance) <= Abs(other - viewDistance)
  {
  }

  /** getViewDistance: the host's value when positive, else the configured default. */
  function CurrentViewDistance(cfg: Config, host: Host): (r: int)
    ensures host.viewDistance > 0 ==> r == host.viewDistance
    ensures host.viewDistance <= 0 ==> r == cfg.viewDistanceDefault
  {
    if host.viewDistance > 0 then host.viewDistance else cfg.viewDistanceDefault
  }

  /** setViewDistance: clamp the request, then write it to the host only when
      some player is connected and the value differs from the host's. */
  function SetResult(cfg: Config, host: Host, viewDistance: int): (r: Host)
    ensures r.playerCount == host.playerCount
    ensures r.viewDistance == host.viewDistance || r.viewDistance == Clamp(cfg, viewDistance)
    ensures host.playerCount == 0 ==> r == host
  {
    var target := Clamp(cfg, viewDistance);
    if host.playerCount != 0 && host.viewDistance != target then host.(viewDistance := target)
    else host
  }

  /** The write guard: the host changes exactly when a player is connected and
      the clamped request differs from the host's value; the player count is
      never touched, and whatever is written is the clamped request. */
  lemma SetResultGuard(cfg: Config, host: Host, viewDistance: int)
    ensures SetResult(cfg, host, viewDistance).playerCount == host.playerCount
    ensures SetResult(cfg, host, viewDistance) != host
      <==> host.playerCount > 0 && Clamp(cfg, viewDistance) != host.viewDistance
    ensures SetResult(cfg, host, viewDistance) != host
      ==> SetResult(cfg, host, viewDistance).viewDistance == Clamp(cfg, viewDistance)
  {
  }

  /** Every value setViewDistance writes lies in [min, max] (when min <= max). */
  lemma SetResultWithinRange(cfg: Config, host: Host, viewDistance: int)
    requires cfg.viewDistanceMin <= cfg.viewDistanceMax
    ensures var r := SetResult(cfg, host, viewDistance);
      r == host || InRange(cfg, r.viewDistance)
  {
  }

  /** What handleServerLoadEvent decides to do. */
  datatype Adjustment = Decrease | Increase | Keep

  /** The decision chain of handleServerLoadEvent, branch for branch. Its third
      branch (NORMAL load with exactly one player: increase) is shadowed by the
      second (NORMAL load with at least one player: decrease); the verifier
      proves that branch cannot be entered. */
  function Decide(event: ServerLoadEvent, numOfPlayers: nat): (r: Adjustment)
    ensures IsHighLoad(event.current) ==> r == Decrease
    ensures r == Increase ==> IsLowLoad(event.current) && numOfPlayers >= 1
  {
    if event.HasHighServerLoad() then Decrease
    else if event.HasNormalServerLoad() && numOfPlayers >= 1 then Decrease
    else if event.HasNormalServerLoad() && numOfPlayers == 1 then assert false; Increase
    else if event.HasLowServerLoad() && numOfPlayers >= 1 then Increase
    else Keep
  }

  /** The decision table as it actually behaves: decrease under high load or
      under normal load with a player; increase only under low load with a
      player (never under normal load); otherwise keep. */
  lemma DecideTable(event: ServerLoadEvent, numOfPlayers: nat)
    ensures Decide(event, numOfPlayers) == Decrease
      <==> IsHighLoad(event.current) || (IsNormalLoad(event.current) && numOfPlayers >= 1)
    ensures Decide(event, numOfPlayers) == Increase
      <==> IsLowLoad(event.current) && numOfPlayers >= 1
    ensures Decide(event, numOfPlayers) == Keep
      <==> !IsHighLoad(event.current) && numOfPlayers == 0
  {
  }

  /** handleServerLoadEvent: nothing when the optimisation is off; otherwise
      the decision applied through decrease/increaseViewDistance, i.e.
      setViewDistance(getViewDistance() -/+ 1). */
  function LoadEventResult(cfg: Config, host: Host, event: ServerLoadEvent): (r: Host)
    ensures r.playerCount == host.playerCount
    ensures !cfg.optimizeViewDistance ==> r == host
    ensures r == host
      || r.viewDistance == Clamp(cfg, CurrentViewDistance(cfg, host) - 1)
      || r.viewDistance == Clamp(cfg, CurrentViewDistance(cfg, host) + 1)
  {
    if !cfg.optimizeViewDistance then host
    else match Decide(event, host.playerCount)
      case Decrease => SetResult(cfg, host, CurrentViewDistance(cfg, host) - 1)
      case Increase => SetResult(cfg, host, CurrentViewDistance(cfg, host) + 1)
      case Keep => host
  }

  /** onServerStarting: when enabled, setViewDistance(min). */
  function StartingResult(cfg: Config, host: Host): (r: Host)
    ensures r.playerCount == host.playerCount
    ensures cfg.viewDistanceMin <= cfg.viewDistanceMax ==> r == host || r.viewDistance == cfg.viewDistanceMin
    ensures cfg.optimizeViewDistance && host.playerCount >= 1 && cfg.viewDistanceMin <= cfg.viewDistanceMax
      ==> r == host.(viewDistance := cfg.viewDistanceMin)
  {
    if !cfg.optimizeViewDistance then host
    else SetResult(cfg, host, cfg.viewDistanceMin)
  }

  /** With the optimisation disabled, load events and server start change nothing. */
  lemma DisabledChangesNothing(cfg: Config, host: Host, event: ServerLoadEvent)
    requires !cfg.optimizeViewDistance
    ensures LoadEventResult(cfg, host, event) == host
    ensures StartingResult(cfg, host) == host
  {
  }

  /** With no players connected, no event and no start changes the host. */
  lemma NoPlayersNoChange(cfg: Config, host: Host, event: ServerLoadEvent)
    requires host.playerCount == 0
    ensures LoadEventResult(cfg, host, event) == host
    ensures StartingResult(cfg, host) == host
  {
  }

  /** The targets: one below the current view distance under high load, one
      above it under low load with a player. */
  lemma LoadEventTargets(cfg: Config, host: Host, event: ServerLoadEvent)
    requires cfg.optimizeViewDistance
    ensures IsHighLoad(event.current) ==>
      LoadEventResult(cfg, host, event) == SetResult(cfg, host, CurrentViewDistance(cfg, host) - 1)
    ensures IsLowLoad(event.current) && host.playerCount >= 1 ==>
      LoadEventResult(cfg, host, event) == SetResult(cfg, host, CurrentViewDistance(cfg, host) + 1)
    ensures IsNormalLoad(event.current) && host.playerCount >= 1 ==>
      LoadEventResult(cfg, host, event) == SetResult(cfg, host, CurrentViewDistance(cfg, host) - 1)
  {
  }

  /** One load event moves a positive in-range view distance by at most one. */
  lemma LoadEventStepBounded(cfg: Config, host: Host, event: ServerLoadEvent)
    requires InRange(cfg, host.viewDistance) && host.viewDistance > 0
    ensures Abs(LoadEventResult(cfg, host, event).viewDistance - host.viewDistance) <= 1
  {
  }

  /** Something the host goes through between two looks at the view distance. */
  datatype HostStep =
    | ServerStarting
    | LoadEvent(event: ServerLoadEvent)
    | PlayersChanged(playerCount: nat)

  function Step(cfg: Config, host: Host, step: HostStep): Host
  {
    match step
    case ServerStarting => StartingResult(cfg, host)
    case LoadEvent(event) => LoadEventResult(cfg, host, event)
    case PlayersChanged(n) => host.(playerCount := n)
  }

  function Run(cfg: Config, host: Host, steps: seq<HostStep>): Host
    decreases |steps|
  {
    if steps == [] then host else Run(cfg, Step(cfg, host, steps[0]), steps[1..])
  }

  /** One step keeps the view distance in [min, max] once it is there. */
  lemma StepKeepsRange(cfg: Config, host: Host, step: HostStep)
    requires cfg.viewDistanceMin <= cfg.viewDistanceMax
    requires InRange(cfg, host.viewDistance)
    ensures InRange(cfg, Step(cfg, host, step).viewDistance)
  {
    match step
    case ServerStarting =>
      SetResultWithinRange(cfg, host, cfg.viewDistanceMin);
    case LoadEvent(event) =>
      SetResultWithinRange(cfg, host, CurrentViewDistance(cfg, host) - 1);
      SetResultWithinRange(cfg, host, CurrentViewDistance(cfg, host) + 1);
    case PlayersChanged(n) =>
  }

  /** Any sequence of starts, load events and player-count changes keeps an
      in-range view distance in range. */
  lemma {:induction false} RunKeepsRange(cfg: Config, host: Host, steps: seq<HostStep>)
    requires cfg.viewDistanceMin <= cfg.viewDistanceMax
    requires InRange(cfg, host.viewDistance)
    ensures InRange(cfg, Run(cfg, host, steps).viewDistance)
    decreases |steps|
  {
    if steps != [] {
      StepKeepsRange(cfg, host, steps[0]);
      RunKeepsRange(cfg, Step(cfg, host, steps[0]), steps[1..]);
    }
  }

  /** The event a measurement posts, given the previous level. */
  function Measured(previous: ServerLoadLevel, tickTime: real): ServerLoadEvent
  {
    ServerLoadEvent(LevelFromTickTime(tickTime), previous)
  }

  /** One player, range [3, 16], starting at 3: tick times 10, 45, 52 and 15 ms
      give VERY_LOW, NORMAL, HIGH, VERY_LOW and view distances 4, 3, 3, 4
      (the decrease at HIGH is clamped back to the minimum and so not written). */
  lemma OnePlayerScenario()
    ensures var cfg := Config(true, 10, 3, 16);
      var h0 := Host(1, 3);
      var h1 := LoadEventResult(cfg, h0, Measured(Normal, 10.0));
      var h2 := LoadEventResult(cfg, h1, Measured(VeryLow, 45.0));
      var h3 := LoadEventResult(cfg, h2, Measured(Normal, 52.0));
      var h4 := LoadEventResult(cfg, h3, Measured(High, 15.0));
      [h1.viewDistance, h2.viewDistance, h3.viewDistance, h4.viewDistance] == [4, 3, 3, 4]
  {
  }

  /** The host's player list, updated in place by setViewDistance. */
  class PlayerList {
    var playerCount: nat
    var viewDistance: int

    constructor (playerCount: nat, viewDistance: int)
      ensures this.playerCount == playerCount && this.viewDistance == viewDistance
    {
      this.playerCount := playerCount;
      this.viewDistance := viewDistance;
    }

    function Snapshot(): Host
      reads this
    {
      Host(playerCount, viewDistance)
    }
  }

  /** The controller's static state: the configuration it last loaded. */
  class PlayerViewDistance {
    var optimizeViewDistance: bool
    var viewDistanceDefault: int
    var viewDistanceMax: int
    var viewDistanceMin: int

    function Settings(): Config
      reads this
    {
      Config(optimizeViewDistance, viewDistanceDefault, viewDistanceMin, viewDistanceMax)
    }

    constructor (cfg: Config)
      ensures Settings() == cfg
    {
      optimizeViewDistance := cfg.optimizeViewDistance;
      viewDistanceDefault := cfg.viewDistanceDefault;
      viewDistanceMax := cfg.viewDistanceMax;
      viewDistanceMin := cfg.viewDistanceMin;
    }

    /** Reloads the configuration; the host is not touched. */
    method OnServerAboutToStart(cfg: Config)
      modifies this
      ensures Settings() == cfg
    {
      optimizeViewDistance := cfg.optimizeViewDistance;
      viewDistanceDefault := cfg.viewDistanceDefault;
      viewDistanceMin := cfg.viewDistanceMin;
      viewDistanceMax := cfg.viewDistanceMax;
    }

    method OnServerStarting(playerList: PlayerList)
      modifies playerList
      ensures playerList.Snapshot() == StartingResult(Settings(), old(playerList.Snapshot()))
    {
      if !optimizeViewDistance {
        return;
      }
      SetViewDistance(viewDistanceMin, playerList);
    }

    method HandleServerLoadEvent(event: ServerLoadEvent, playerList: PlayerList)
      modifies playerList
      ensures playerList.Snapshot() == LoadEventResult(Settings(), old(playerList.Snapshot()), event)
    {
      if !optimizeViewDistance {
        return;
      }
      var numOfPlayers := playerList.playerCount;
      if event.HasHighServerLoad() {
        DecreaseViewDistance(playerList);
      } else if event.HasNormalServerLoad() && numOfPlayers >= 1 {
        DecreaseViewDistance(playerList);
      } else if event.HasNormalServerLoad() && numOfPlayers == 1 {
        // the source calls increaseViewDistance() here; the branch is unreachable
        assert false;
      } else if event.HasLowServerLoad() && numOfPlayers >= 1 {
        IncreaseViewDistance(playerList);
      }
    }

    method SetViewDistance(viewDistance: int, playerList: PlayerList)
      modifies playerList
      ensures playerList.Snapshot() == SetResult(Settings(), old(playerList.Snapshot()), viewDistance)
    {
      var target := viewDistance;
      if target > viewDistanceMax {
        target := viewDistanceMax;
      } else if target < viewDistanceMin {
        target := viewDistanceMin;
      }
      if playerList.playerCount != 0 && playerList.viewDistance != target {
        playerList.viewDistance := target;
      }
    }

    method IncreaseViewDistance(playerList: PlayerList)
      modifies playerList
      ensures playerList.Snapshot()
        == SetResult(Settings(), old(playerList.Snapshot()), CurrentViewDistance(Settings(), old(playerList.Snapshot())) + 1)
    {
      var current := GetViewDistance(playerList);
      SetViewDistance(current + 1, playerList);
    }

    method DecreaseViewDistance(playerList: PlayerList)
      modifies playerList
      ensures playerList.Snapshot()
        == SetResult(Settings(), old(playerList.Snapshot()), CurrentViewDistance(Settings(), old(playerList.Snapshot())) - 1)
    {
      var current := GetViewDistance(playerList);
      SetViewDistance(current - 1, playerList);
    }

    method GetViewDistance(playerList: PlayerList) returns (r: int)
      ensures r == CurrentViewDistance(Settings(), playerList.Snapshot())
    {
      r := if playerList.viewDistance > 0 then playerList.viewDistance else viewDistanceDefault;
    }
  }
}
