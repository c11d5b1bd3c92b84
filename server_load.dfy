/** Server load sampling and classification (the core module's ServerLoad class).

    The running server is abstracted to its average tick time: `Some(t)` while a
    server is running, `None` before one exists. Posting to the event bus becomes
    the returned event. */
module CoreServer {

  datatype Option<T> = None | Some(value: T)

  /** The six load levels, declared (and ordered) from lightest to heaviest. */
  datatype ServerLoadLevel = VeryLow | Low | Normal | Medium | High | VeryHigh

  /** Position of a level in declaration order, i.e. Java's `ordinal()`. */
  function Ordinal(level: ServerLoadLevel): nat
  {
    match level
    case VeryLow => 0
    case Low => 1
    case Normal => 2
    case Medium => 3
    case High => 4
    case VeryHigh => 5
  }

  /** `a` is no heavier than `b` in declaration order. */
  predicate AtMost(a: ServerLoadLevel, b: ServerLoadLevel)
  {
    Ordinal(a) <= Ordinal(b)
  }

  /** The upper ends of the first five buckets, in milliseconds. */
  const Thresholds: seq<real> := [20.0, 40.0, 46.0, 49.0, 55.0]

  /** How many of the thresholds a tick time exceeds. */
  function ThresholdsBelow(thresholds: seq<real>, tickTime: real): nat
  {
    if thresholds == [] then 0
    else (if thresholds[0] < tickTime then 1 else 0) + ThresholdsBelow(thresholds[1..], tickTime)
  }

  /** The threshold count spelled out, one threshold at a time. */
  lemma ThresholdsBelowUnfolded(tickTime: real)
    ensures ThresholdsBelow(Thresholds, tickTime)
      == (if 20.0 < tickTime then 1 else 0) + (if 40.0 < tickTime then 1 else 0)
         + (if 46.0 < tickTime then 1 else 0) + (if 49.0 < tickTime then 1 else 0)
         + (if 55.0 < tickTime then 1 else 0)
  {
    assert Thresholds[1..] == [40.0, 46.0, 49.0, 55.0];
    assert Thresholds[1..][1..] == [46.0, 49.0, 55.0];
    assert Thresholds[1..][1..][1..] == [49.0, 55.0];
    assert Thresholds[1..][1..][1..][1..] == [55.0];
    assert ThresholdsBelow([55.0], tickTime) == if 55.0 < tickTime then 1 else 0;
    assert ThresholdsBelow([49.0, 55.0], tickTime)
      == (if 49.0 < tickTime then 1 else 0) + ThresholdsBelow([55.0], tickTime);
    assert ThresholdsBelow([46.0, 49.0, 55.0], tickTime)
      == (if 46.0 < tickTime then 1 else 0) + ThresholdsBelow([49.0, 55.0], tickTime);
    assert ThresholdsBelow([40.0, 46.0, 49.0, 55.0], tickTime)
      == (if 40.0 < tickTime then 1 else 0) + ThresholdsBelow([46.0, 49.0, 55.0], tickTime);
  }

  /** The classifier: an if-chain over the average tick time in milliseconds,
      each bucket closed on its upper end. The source ends the chain with a
      fallback `NORMAL` that only a NaN tick time can reach; for a real number
      one of the six branches always fires, which the `assert false` records.
      The level's ordinal is the number of thresholds the tick time exceeds. */
  function LevelFromTickTime(tickTime: real): (level: ServerLoadLevel)
    ensures Ordinal(level) == ThresholdsBelow(Thresholds, tickTime)
  {
    ThresholdsBelowUnfolded(tickTime);
    if tickTime <= 20.0 then VeryLow
    else if tickTime <= 40.0 then Low
    else if tickTime <= 46.0 then Normal
    else if tickTime <= 49.0 then Medium
    else if tickTime <= 55.0 then High
    else if tickTime > 55.0 then VeryHigh
    else assert false; Normal
  }

  /** The load tiers the rest of the mod reacts to. */
  predicate IsVeryHighLoad(level: ServerLoadLevel) { level == VeryHigh }
  predicate IsHighLoad(level: ServerLoadLevel) { level == Medium || level == High || level == VeryHigh }
  predicate IsNormalLoad(level: ServerLoadLevel) { level == Normal }
  predicate IsLowLoad(level: ServerLoadLevel) { level == VeryLow || level == Low }

  /** Each level belongs to exactly one of the three tiers, the tiers are
      contiguous ranges of the order, and VERY_HIGH is a high load. */
  lemma TiersPartitionLevels(level: ServerLoadLevel)
    ensures IsHighLoad(level) <==> !IsNormalLoad(level) && !IsLowLoad(level)
    ensures !(IsNormalLoad(level) && IsLowLoad(level))
    ensures IsVeryHighLoad(level) ==> IsHighLoad(level)
    ensures IsHighLoad(level) <==> Ordinal(level) >= Ordinal(Medium)
    ensures IsLowLoad(level) <==> Ordinal(level) <= Ordinal(Low)
  {
  }

  /** The buckets partition the real line: each level holds exactly for the
      tick times of its half-open interval (upper end included). */
  lemma LevelBuckets(tickTime: real)
    ensures LevelFromTickTime(tickTime) == VeryLow <==> tickTime <= 20.0
    ensures LevelFromTickTime(tickTime) == Low <==> 20.0 < tickTime <= 40.0
    ensures LevelFromTickTime(tickTime) == Normal <==> 40.0 < tickTime <= 46.0
    ensures LevelFromTickTime(tickTime) == Medium <==> 46.0 < tickTime <= 49.0
    ensures LevelFromTickTime(tickTime) == High <==> 49.0 < tickTime <= 55.0
    ensures LevelFromTickTime(tickTime) == VeryHigh <==> 55.0 < tickTime
  {
  }

  /** A longer tick time never yields a lighter level. */
  lemma LevelFromTickTimeMonotone(t1: real, t2: real)
    requires t1 <= t2
    ensures AtMost(LevelFromTickTime(t1), LevelFromTickTime(t2))
  {
  }

  /** The tiers as tick-time ranges: high above 46 ms, normal in (40, 46],
      low up to 40 ms. */
  lemma TierOfTickTime(tickTime: real)
    ensures IsHighLoad(LevelFromTickTime(tickTime)) <==> tickTime > 46.0
    ensures IsNormalLoad(LevelFromTickTime(tickTime)) <==> 40.0 < tickTime <= 46.0
    ensures IsLowLoad(LevelFromTickTime(tickTime)) <==> tickTime <= 40.0
  {
  }

  /** The event posted after a measurement: the new level and the one before it.
      Its tier queries look at the new level. */
  datatype ServerLoadEvent = ServerLoadEvent(current: ServerLoadLevel, last: ServerLoadLevel)
  {
    predicate HasVeryHighServerLoad() { IsVeryHighLoad(current) }
    predicate HasHighServerLoad() { IsHighLoad(current) }
    predicate HasNormalServerLoad() { IsNormalLoad(current) }
    predicate HasLowServerLoad() { IsLowLoad(current) }
  }

  /** The process-wide load state: the current and previous level and the last
      average tick time read from the server. */
  class ServerLoad {
    var currentServerLoad: ServerLoadLevel
    var lastServerLoad: ServerLoadLevel
    var avgTickTime: real

    /** Both levels start at NORMAL; the tick time starts at Java's 0.0. */
    constructor ()
      ensures currentServerLoad == Normal && lastServerLoad == Normal
      ensures avgTickTime == 0.0
    {
      currentServerLoad := Normal;
      lastServerLoad := Normal;
      avgTickTime := 0.0;
    }

    /** Reads the running server's average tick time, rotates last <- current,
        classifies the new time and posts an event on EVERY measurement, whether
        or not the level changed. Without a running server nothing changes and
        nothing is posted. */
    method MeasureLoadAndPost(currentServer: Option<real>) returns (posted: Option<ServerLoadEvent>)
      modifies this
      ensures currentServer.None? ==>
        posted == None && unchanged(this)
      ensures currentServer.Some? ==>
        && avgTickTime == currentServer.value
        && lastServerLoad == old(currentServerLoad)
        && currentServerLoad == LevelFromTickTime(currentServer.value)
        && posted == Some(ServerLoadEvent(currentServerLoad, lastServerLoad))
    {
      if currentServer.None? {
        return None;
      }
      avgTickTime := currentServer.value;
      lastServerLoad := currentServerLoad;
      currentServerLoad := LevelFromTickTime(avgTickTime);
      posted := Some(ServerLoadEvent(currentServerLoad, lastServerLoad));
    }

    predicate HasVeryHighServerLoad()
      reads this
      ensures HasVeryHighServerLoad() <==> Ordinal(currentServerLoad) == 5
    {
      IsVeryHighLoad(currentServerLoad)
    }

    predicate HasHighServerLoad()
      reads this
      ensures HasHighServerLoad() <==> Ordinal(currentServerLoad) >= Ordinal(Medium)
    {
      IsHighLoad(currentServerLoad)
    }

    predicate HasNormalServerLoad()
      reads this
      ensures HasNormalServerLoad() <==> Ordinal(currentServerLoad) == Ordinal(Normal)
    {
      IsNormalLoad(currentServerLoad)
    }

    predicate HasLowServerLoad()
      reads this
      ensures HasLowServerLoad() <==> Ordinal(currentServerLoad) <= Ordinal(Low)
    {
      IsLowLoad(currentServerLoad)
    }
  }

  /** Two identical measurements in a row both post an event; the second one
      carries the same level as current and last. */
  method RepeatedMeasurementPostsAgain() returns (first: Option<ServerLoadEvent>, second: Option<ServerLoadEvent>)
    ensures first == Some(ServerLoadEvent(Low, Normal))
    ensures second == Some(ServerLoadEvent(Low, Low))
  {
    var load := new ServerLoad();
    first := load.MeasureLoadAndPost(Some(30.0));
    second := load.MeasureLoadAndPost(Some(30.0));
  }

  /** With no server, a measurement posts nothing and the state stays initial. */
  method MeasureWithoutServer() returns (posted: Option<ServerLoadEvent>, current: ServerLoadLevel, last: ServerLoadLevel)
    ensures posted == None && current == Normal && last == Normal
  {
    var load := new ServerLoad();
    posted := load.MeasureLoadAndPost(None);
    current, last := load.currentServerLoad, load.lastServerLoad;
  }
}
