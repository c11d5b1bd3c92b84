/** The player position registry of the main module (PlayerPositionManager).

    The registry maps user names to position snapshots and is refreshed every
    fifty server ticks. What a position snapshot holds, how it is built from a
    player, how it is refreshed and how its view-area containment is computed
    belong to the PlayerPosition class, whose source is not part of this model:
    the registry takes those three operations as functions and treats them as
    unknown. */
module PositionTracking {

  /** The two phases of a server tick event. */
  datatype Phase = Start | End

  /** What the registry reads from a server player: its name, liveness,
      connection state and coordinates. */
  datatype Player = Player(name: string, alive: bool, disconnected: bool,
                           world: string, x: real, y: real, z: real)

  /** The arguments of a view-area query: a world and a block position. */
  datatype ViewQuery = ViewQuery(world: string, x: int, y: int, z: int)

  /** The tick count at which the next non-END phase resamples positions. */
  const ResampleTicks: nat := 50

  /** Only players that are alive and not disconnecting are resampled. */
  predicate Eligible(player: Player)
  {
    player.alive && !player.disconnected
  }

  /** The counter after one tick event: END increments, a non-END phase at the
      cadence resets, any other non-END phase leaves it. */
  function NextTicks(ticks: nat, phase: Phase): (r: nat)
    ensures phase == End ==> r == ticks + 1
    ensures phase != End ==> r <= ticks
    ensures phase != End ==> (r == 0 <==> ticks == 0 || ticks == ResampleTicks)
    ensures phase != End && ticks != ResampleTicks ==> r == ticks
  {
    if phase == End then ticks + 1
    else if ticks == ResampleTicks then 0
    else ticks
  }

  /** The tick events at which the positions are resampled. */
  predicate ResampleDue(ticks: nat, phase: Phase)
  {
    phase != End && ticks == ResampleTicks
  }

  /** The counter after `cycles` full server ticks (a START then an END phase),
      starting from 0 as at class load. */
  function TicksAfterCycles(cycles: nat): nat
  {
    if cycles == 0 then 0 else NextTicks(NextTicks(TicksAfterCycles(cycles - 1), Start), End)
  }

  /** The counter runs 1, 2, ..., 50, 1, 2, ...: after n >= 1 cycles it holds
      (n - 1) % 50 + 1, so it never exceeds 50 and Java's int cannot overflow. */
  lemma {:induction false} TicksAfterCyclesValue(cycles: nat)
    ensures TicksAfterCycles(cycles) == if cycles == 0 then 0 else (cycles - 1) % 50 + 1
    ensures TicksAfterCycles(cycles) <= ResampleTicks
  {
    if cycles > 0 {
      TicksAfterCyclesValue(cycles - 1);
      var before := TicksAfterCycles(cycles - 1);
      var started := NextTicks(before, Start);
      assert started == if before == ResampleTicks then 0 else before;
      assert TicksAfterCycles(cycles) == started + 1;
      if cycles - 1 > 0 {
        RemainderSuccessor(cycles - 2);
      }
    }
  }

  /** One past a count whose remainder by 50 is r: the remainder moves to r + 1,
      wrapping to 0 after 49. */
  lemma RemainderSuccessor(n: nat)
    ensures (n + 1) % 50 == if n % 50 == 49 then 0 else n % 50 + 1
  {
    var q, r := n / 50, n % 50;
    assert n == 50 * q + r;
    if r == 49 {
      assert n + 1 == 50 * (q + 1);
    } else {
      assert n + 1 == 50 * q + (r + 1);
    }
  }

  /** Positions are resampled at the START phase after n completed START/END
      pairs exactly when n is a positive multiple of 50: once every 50 server
      ticks, the first time at the START of the 51st pair. */
  lemma ResampleEveryFiftyCycles(cycles: nat)
    ensures ResampleDue(TicksAfterCycles(cycles), Start) <==> cycles > 0 && cycles % 50 == 0
  {
    TicksAfterCyclesValue(cycles);
    if cycles > 0 {
      RemainderSuccessor(cycles - 1);
    }
  }

  /** Logout: the user name's entry is removed unless the name is empty. */
  function LoggedOut<P>(positions: map<string, P>, username: string): (r: map<string, P>)
    ensures r.Keys == if username == "" then positions.Keys else positions.Keys - {username}
    ensures forall name :: name in r ==> r[name] == positions[name]
  {
    if username == "" then positions else positions - {username}
  }

  /** Logging the same user out twice is the same as once. */
  lemma LoggedOutIdempotent<P>(positions: map<string, P>, username: string)
    ensures LoggedOut(LoggedOut(positions, username), username) == LoggedOut(positions, username)
  {
  }

  /** updatePlayerPosition: create the entry if absent, then refresh it from the player. */
  function Track<P>(positions: map<string, P>, player: Player,
                    create: Player -> P, update: (P, Player) -> P): (r: map<string, P>)
    ensures r.Keys == positions.Keys + {player.name}
    ensures forall name :: name in positions && name != player.name ==> r[name] == positions[name]
    ensures player.name in positions ==> r[player.name] == update(positions[player.name], player)
    ensures player.name !in positions ==> r[player.name] == update(create(player), player)
  {
    var current := if player.name in positions then positions[player.name] else create(player);
    positions[player.name := update(current, player)]
  }

  /** The resample loop over the server's player list, in list order, skipping
      players that are dead or disconnecting. */
  function Resample<P>(positions: map<string, P>, players: seq<Player>,
                       create: Player -> P, update: (P, Player) -> P): (r: map<string, P>)
    ensures positions.Keys <= r.Keys
    decreases |players|
  {
    if players == [] then positions
    else
      var before := Resample(positions, players[..|players| - 1], create, update);
      var player := players[|players| - 1];
      if Eligible(player) then Track(before, player, create, update) else before
  }

  /** Names of the players a resample refreshes. */
  function EligibleNames(players: seq<Player>): set<string>
  {
    set player | player in players && Eligible(player) :: player.name
  }

  lemma EligibleNamesSnoc(players: seq<Player>, player: Player)
    ensures EligibleNames(players + [player])
      == EligibleNames(players) + (if Eligible(player) then {player.name} else {})
  {
    var all := players + [player];
    forall name | name in EligibleNames(all)
      ensures name in EligibleNames(players) + (if Eligible(player) then {player.name} else {})
    {
      var p :| p in all && Eligible(p) && p.name == name;
      if p != player {
        assert p in players;
      }
    }
  }

  /** After a resample the registry holds the old names plus the names of all
      eligible players, and no other. */
  lemma {:induction false} ResampleKeys<P>(positions: map<string, P>, players: seq<Player>,
                                          create: Player -> P, update: (P, Player) -> P)
    ensures Resample(positions, players, create, update).Keys == positions.Keys + EligibleNames(players)
    decreases |players|
  {
    if players != [] {
      var prefix := players[..|players| - 1];
      var player := players[|players| - 1];
      ResampleKeys(positions, prefix, create, update);
      assert players == prefix + [player];
      EligibleNamesSnoc(prefix, player);
    }
  }

  /** Entries of names that no eligible player carries (dead or disconnecting
      players, players no longer listed) come through a resample untouched. */
  lemma {:induction false} ResampleLeavesOthers<P>(positions: map<string, P>, players: seq<Player>,
                                                  create: Player -> P, update: (P, Player) -> P,
                                                  name: string)
    requires name in positions && name !in EligibleNames(players)
    ensures name in Resample(positions, players, create, update)
    ensures Resample(positions, players, create, update)[name] == positions[name]
    decreases |players|
  {
    if players != [] {
      var prefix := players[..|players| - 1];
      var player := players[|players| - 1];
      assert players == prefix + [player];
      EligibleNamesSnoc(prefix, player);
      ResampleLeavesOthers(positions, prefix, create, update, name);
    }
  }

  /** A resample refreshes each alive, connected player: for the last such
      player of a name in the list, the name's entry becomes that player's
      update of the entry the earlier part of the loop left (or of a new
      position built from the player if there was none). */
  lemma {:induction false} ResampleRefreshes<P>(positions: map<string, P>, players: seq<Player>,
                                               create: Player -> P, update: (P, Player) -> P, i: nat)
    requires i < |players| && Eligible(players[i])
    requires forall j :: i < j < |players| && Eligible(players[j]) ==> players[j].name != players[i].name
    ensures var prior := Resample(positions, players[..i], create, update);
      var name := players[i].name;
      && name in Resample(positions, players, create, update)
      && Resample(positions, players, create, update)[name]
         == update(if name in prior then prior[name] else create(players[i]), players[i])
    decreases |players|
  {
    var prefix := players[..|players| - 1];
    if |players| == i + 1 {
      assert prefix == players[..i];
    } else {
      assert prefix[..i] == players[..i];
      ResampleRefreshes(positions, prefix, create, update, i);
    }
  }

  /** The registry entries, among `keys`, holding `position` and inside the view area. */
  ghost function Matching<P>(positions: map<string, P>, keys: set<string>, position: P,
                             isInside: (P, ViewQuery) -> bool, query: ViewQuery): set<string>
  {
    set name | name in keys && name in positions && positions[name] == position && isInside(position, query)
  }

  /** Adding one key to the scanned keys adds it to the matches of its own
      value when that value is inside, and changes nothing else. */
  lemma MatchingAdd<P>(positions: map<string, P>, keys: set<string>, key: string, position: P,
                       isInside: (P, ViewQuery) -> bool, query: ViewQuery)
    requires key in positions && key !in keys
    ensures |Matching(positions, keys + {key}, position, isInside, query)|
      == |Matching(positions, keys, position, isInside, query)|
         + (if positions[key] == position && isInside(position, query) then 1 else 0)
  {
    if positions[key] == position && isInside(position, query) {
      assert Matching(positions, keys + {key}, position, isInside, query)
        == Matching(positions, keys, position, isInside, query) + {key};
    } else {
      assert Matching(positions, keys + {key}, position, isInside, query)
        == Matching(positions, keys, position, isInside, query);
    }
  }

  /** The registry. The three PlayerPosition operations are fixed at construction. */
  class PlayerPositionManager<Position(==)> {
    var playerPositionMap: map<string, Position>
    var ticks: nat
    const create: Player -> Position
    const update: (Position, Player) -> Position
    const isInside: (Position, ViewQuery) -> bool

    constructor (create: Player -> Position, update: (Position, Player) -> Position,
                 isInside: (Position, ViewQuery) -> bool)
      ensures playerPositionMap == map[] && ticks == 0
      ensures this.create == create && this.update == update && this.isInside == isInside
    {
      playerPositionMap := map[];
      ticks := 0;
      this.create := create;
      this.update := update;
      this.isInside := isInside;
    }

    /** A fresh, empty registry; the tick counter is kept. */
    method OnServerAboutToStart()
      modifies this
      ensures playerPositionMap == map[] && ticks == old(ticks)
    {
      playerPositionMap := map[];
    }

    method HandlePlayerLoggedOut(username: string)
      modifies this
      ensures playerPositionMap == LoggedOut(old(playerPositionMap), username)
      ensures ticks == old(ticks)
    {
      if username != "" {
        playerPositionMap := playerPositionMap - {username};
      }
    }

    /** END only counts; a non-END phase at the cadence resamples every listed
        player and resets the counter; any other phase does nothing. */
    method HandleServerTick(phase: Phase, players: seq<Player>)
      modifies this
      ensures ticks == NextTicks(old(ticks), phase)
      ensures playerPositionMap == if ResampleDue(old(ticks), phase)
        then Resample(old(playerPositionMap), players, create, update)
        else old(playerPositionMap)
    {
      if phase == End {
        ticks := ticks + 1;
        return;
      }
      if ticks == ResampleTicks {
        for i := 0 to |players|
          invariant playerPositionMap == Resample(old(playerPositionMap), players[..i], create, update)
        {
          assert players[..i + 1][..i] == players[..i];
          if players[i].alive && !players[i].disconnected {
            UpdatePlayerPosition(players[i]);
          }
        }
        assert players[..|players|] == players;
        ticks := 0;
      }
    }

    method UpdatePlayerPosition(player: Player)
      modifies this
      ensures playerPositionMap == Track(old(playerPositionMap), player, create, update)
      ensures ticks == old(ticks)
    {
      var username := player.name;
      if username !in playerPositionMap {
        playerPositionMap := playerPositionMap[username := create(player)];
      }
      var playerPosition := playerPositionMap[username];
      playerPositionMap := playerPositionMap[username := update(playerPosition, player)];
    }

    /** Every registered position inside the view area, once per registry
        entry, in no particular order. */
    method GetPlayerPositionsInsideViewArea(query: ViewQuery) returns (result: seq<Position>)
      ensures forall position ::
        multiset(result)[position] == |Matching(playerPositionMap, playerPositionMap.Keys, position, isInside, query)|
      ensures forall position :: position in result ==> isInside(position, query)
      ensures result != [] <==> exists name :: name in playerPositionMap && isInside(playerPositionMap[name], query)
    {
      result := [];
      var pending := playerPositionMap.Keys;
      while pending != {}
        invariant pending <= playerPositionMap.Keys
        invariant forall position ::
          multiset(result)[position] == |Matching(playerPositionMap, playerPositionMap.Keys - pending, position, isInside, query)|
        invariant forall position :: position in result ==> isInside(position, query)
        invariant result != [] <==> exists name :: name in playerPositionMap.Keys - pending && isInside(playerPositionMap[name], query)
        decreases pending
      {
        var name :| name in pending;
        var playerPosition := playerPositionMap[name];
        ghost var scanned := playerPositionMap.Keys - pending;
        assert playerPositionMap.Keys - (pending - {name}) == scanned + {name};
        forall position
          ensures |Matching(playerPositionMap, scanned + {name}, position, isInside, query)|
            == |Matching(playerPositionMap, scanned, position, isInside, query)|
               + (if playerPosition == position && isInside(position, query) then 1 else 0)
        {
          MatchingAdd(playerPositionMap, scanned, name, position, isInside, query);
        }
        if isInside(playerPosition, query) {
          result := result + [playerPosition];
        }
        pending := pending - {name};
      }
      assert playerPositionMap.Keys - pending == playerPositionMap.Keys;
    }

    /** Whether any registered position has the point inside its view area. */
    method IsInsidePlayersViewArea(query: ViewQuery) returns (inside: bool)
      ensures inside <==> exists name :: name in playerPositionMap && isInside(playerPositionMap[name], query)
    {
      var pending := playerPositionMap.Keys;
      while pending != {}
        invariant pending <= playerPositionMap.Keys
        invariant forall name :: name in playerPositionMap.Keys - pending ==> !isInside(playerPositionMap[name], query)
        decreases pending
      {
        var name :| name in pending;
        if isInside(playerPositionMap[name], query) {
          return true;
        }
        pending := pending - {name};
      }
      return false;
    }
  }
}
