/**
 * The periodic statistics of the node (io/StatsCollector.js): player totals over
 * every live session, the frame statistics of one session's playing players, the
 * memory block, and the CPU baseline kept between two collections.
 *
 * The players' playback state and the operating system's figures are outside
 * this model: the first is an observation function, the second a sample taken
 * by the caller.
 */
module Stats {
  import opened Wrappers
  import opened JsMaps
  import opened Protocol
  import opened Session
  import opened Server

  /** The frames a player is expected to send per minute (50 per second). */
  const ExpectedPacketCountPerMin: nat := 3000

  /** A player's frame counter over the last minute. */
  datatype AudioLossCounter = AudioLossCounter(isDataUsable: bool, lastMinuteSuccess: nat, lastMinuteLoss: nat)

  /** What the stats read from a player: whether it is playing and its frame counter. */
  datatype PlayerState = PlayerState(isPlaying: bool, counter: AudioLossCounter)

  type Observe = LavalinkPlayer -> PlayerState

  /** An opaque CPU tick sample of the operating system. */
  datatype Ticks = Ticks(id: nat)

  /**
   * The operating-system figures one collection reads: clock and process uptime,
   * the two free-memory and three total-memory readings in the order they are
   * taken, core count, the tick samples taken before and after the load is read,
   * the system load since a given tick sample (`oshi.cpuUsage(ticks)`), and the
   * process load.
   */
  datatype HostSample = HostSample(
    now: real, processUptime: real, freeMem: (int, int), totalMem: (int, int, int), cores: nat,
    baselineTicks: Ticks, systemLoadSince: Ticks -> real, lavalinkLoad: real, nextTicks: Ticks)

  /** A session's playing players, in the order of its player map. */
  function PlayingPlayers(ps: seq<LavalinkPlayer>, observe: Observe): (r: seq<LavalinkPlayer>)
    ensures |r| <= |ps|
    ensures forall i :: 0 <= i < |r| ==> observe(r[i]).isPlaying
    ensures forall i :: 0 <= i < |r| ==> r[i] in ps
    ensures forall i :: 0 <= i < |ps| && observe(ps[i]).isPlaying ==> ps[i] in r
  {
    if ps == [] then []
    else (if observe(ps[0]).isPlaying then [ps[0]] else []) + PlayingPlayers(ps[1..], observe)
  }

  /** `a` is `b` with some elements left out, the rest in their order. */
  predicate Subsequence<T(==)>(a: seq<T>, b: seq<T>)
    decreases |b|
  {
    a == [] || (b != [] && ((a[0] == b[0] && Subsequence(a[1..], b[1..])) || Subsequence(a, b[1..])))
  }

  /**
   * The playing players keep the order of the player map, and each player occurs
   * among them as often as in the map when it is playing, otherwise not at all.
   */
  lemma {:induction false} PlayingPlayersFilter(ps: seq<LavalinkPlayer>, observe: Observe)
    ensures Subsequence(PlayingPlayers(ps, observe), ps)
    ensures forall p :: multiset(PlayingPlayers(ps, observe))[p] == if observe(p).isPlaying then multiset(ps)[p] else 0
  {
    if ps != [] {
      PlayingPlayersFilter(ps[1..], observe);
      assert ps == [ps[0]] + ps[1..];
      var rest := PlayingPlayers(ps[1..], observe);
      if observe(ps[0]).isPlaying {
        assert PlayingPlayers(ps, observe) == [ps[0]] + rest;
        assert ([ps[0]] + rest)[1..] == rest;
      } else {
        assert PlayingPlayers(ps, observe) == rest;
      }
    }
  }

  /** The sum of `players.size` over the sessions. */
  function TotalPlayers(cs: seq<SocketContext>): nat
    reads cs
  {
    if cs == [] then 0 else TotalPlayers(cs[..|cs| - 1]) + |cs[|cs| - 1].players|
  }

  /** The sum of `playingPlayers.size` over the sessions. */
  function TotalPlaying(cs: seq<SocketContext>, observe: Observe): nat
    reads cs
  {
    if cs == [] then 0
    else TotalPlaying(cs[..|cs| - 1], observe) + |PlayingPlayers(Values(cs[|cs| - 1].players), observe)|
  }

  /** No more players are playing than there are players. */
  lemma {:induction false} PlayingAtMostTotal(cs: seq<SocketContext>, observe: Observe)
    ensures TotalPlaying(cs, observe) <= TotalPlayers(cs)
  {
    if cs != [] {
      PlayingAtMostTotal(cs[..|cs| - 1], observe);
    }
  }

  /** The usable counters among `ps`: how many, and the frames they sent and lost. */
  function UsableTotals(ps: seq<LavalinkPlayer>, observe: Observe): (t: (nat, nat, nat))
    ensures t.0 <= |ps|
    ensures t.0 == 0 <==> NoUsableCounter(ps, observe)
  {
    if ps == [] then (0, 0, 0)
    else
      var rest := UsableTotals(ps[..|ps| - 1], observe);
      var c := observe(ps[|ps| - 1]).counter;
      assert forall i :: 0 <= i < |ps| - 1 ==> ps[..|ps| - 1][i] == ps[i];
      if c.isDataUsable then (rest.0 + 1, rest.1 + c.lastMinuteSuccess, rest.2 + c.lastMinuteLoss)
      else rest
  }

  /** Extending the prefix by one player adds that player's counter if it is usable. */
  lemma UsableTotalsStep(ps: seq<LavalinkPlayer>, i: nat, observe: Observe)
    requires i < |ps|
    ensures var c := observe(ps[i]).counter;
      var t := UsableTotals(ps[..i], observe);
      UsableTotals(ps[..i + 1], observe)
        == if c.isDataUsable then (t.0 + 1, t.1 + c.lastMinuteSuccess, t.2 + c.lastMinuteLoss) else t
  {
    assert ps[..i + 1][..i] == ps[..i];
  }

  /**
   * The frame statistics of a session's playing players: averages over the players
   * whose counter is usable, with the deficit measured against the expected rate;
   * absent when there is no session or no usable player.
   */
  function FrameStatsOf(context: Option<SocketContext>, observe: Observe): Option<FrameStats>
    reads if context.Some? then {context.value} else {}
  {
    if context.None? then None else FrameStatsFor(PlayingPlayers(Values(context.value.players), observe), observe)
  }

  /** The frame statistics of the given playing players. */
  function FrameStatsFor(ps: seq<LavalinkPlayer>, observe: Observe): Option<FrameStats> {
    var t := UsableTotals(ps, observe);
    if t.0 == 0 then None else Some(Averages(t.0, t.1, t.2))
  }

  /** The per-player averages of `count` usable counters with the given totals. */
  function Averages(count: nat, totalSent: nat, totalNulled: nat): FrameStats
    requires count > 0
  {
    var totalDeficit := (count * ExpectedPacketCountPerMin) as real - (totalSent + totalNulled) as real;
    var n := count as real;
    FrameStats(totalSent as real / n, totalNulled as real / n, totalDeficit / n)
  }

  /** Per player, sent, nulled and deficit add up to the expected frames per minute. */
  lemma AveragesBalance(count: nat, totalSent: nat, totalNulled: nat)
    requires count > 0
    ensures var f := Averages(count, totalSent, totalNulled);
      f.sent + f.nulled + f.deficit == ExpectedPacketCountPerMin as real
  {
    var n := count as real;
    var e := ExpectedPacketCountPerMin as real;
    var s := totalSent as real;
    var l := totalNulled as real;
    assert (count * ExpectedPacketCountPerMin) as real == n * e;
    DivisionSum(s, l, n * e - (s + l), n);
    assert s + l + (n * e - (s + l)) == n * e;
    assert (n * e) / n == e;
  }

  lemma DivisionSum(a: real, b: real, c: real, n: real)
    requires n > 0.0
    ensures a / n + b / n + c / n == (a + b + c) / n
  {
  }

  /** Sent, nulled and deficit always add up to the expected frames per minute. */
  lemma FrameStatsBalance(context: Option<SocketContext>, observe: Observe)
    requires FrameStatsOf(context, observe).Some?
    ensures var f := FrameStatsOf(context, observe).value;
      f.sent + f.nulled + f.deficit == ExpectedPacketCountPerMin as real
  {
    var t := UsableTotals(PlayingPlayers(Values(context.value.players), observe), observe);
    AveragesBalance(t.0, t.1, t.2);
  }

  /** None of the players' counters is usable. */
  predicate NoUsableCounter(ps: seq<LavalinkPlayer>, observe: Observe) {
    forall i :: 0 <= i < |ps| ==> !observe(ps[i]).counter.isDataUsable
  }

  /** Frame statistics are absent exactly when no session is given or none of its playing players is usable. */
  lemma FrameStatsAbsent(context: Option<SocketContext>, observe: Observe)
    ensures FrameStatsOf(context, observe).None? <==>
      context.None? || NoUsableCounter(PlayingPlayers(Values(context.value.players), observe), observe)
  {
    if context.Some? {
      var t := UsableTotals(PlayingPlayers(Values(context.value.players), observe), observe);
    }
  }

  /**
   * The memory block from the readings in the order the source takes them: `free`
   * is the first free reading, `used` the first total minus the second free one,
   * `allocated` the second total and `reservable` the third. When the readings
   * agree, used and free partition the total.
   */
  function MemoryOf(free: (int, int), total: (int, int, int)): (m: Memory)
    ensures m.free == free.0 && m.allocatedBytes == total.1 && m.reservable == total.2
    ensures free.0 == free.1 && total.0 == total.1 ==> m.used + m.free == m.allocatedBytes
    ensures total.1 == total.2 ==> m.reservable == m.allocatedBytes
  {
    Memory(free.0, total.0 - free.1, total.1, total.2)
  }

  /** Memory freed between the two free readings breaks the partition. */
  lemma MemoryDrift()
    ensures var m := MemoryOf((100, 60), (1000, 1000, 1000));
      m.used + m.free != m.allocatedBytes
  {
  }

  class StatsCollector {
    const server: SocketServer
    var prevTicks: Option<Ticks>

    constructor(server: SocketServer)
      ensures this.server == server && prevTicks == None
    {
      this.server := server;
      prevTicks := None;
    }

    /** Accumulates the player totals over the sessions, one session at a time. */
    method CountPlayers(cs: seq<SocketContext>, observe: Observe) returns (playersTotal: nat, playersPlaying: nat)
      ensures playersTotal == TotalPlayers(cs) && playersPlaying == TotalPlaying(cs, observe)
      ensures playersPlaying <= playersTotal
    {
      playersTotal, playersPlaying := 0, 0;
      var i := 0;
      while i < |cs|
        invariant 0 <= i <= |cs|
        invariant playersTotal == TotalPlayers(cs[..i]) && playersPlaying == TotalPlaying(cs[..i], observe)
      {
        assert cs[..i + 1][..i] == cs[..i];
        playersTotal := playersTotal + |cs[i].players|;
        playersPlaying := playersPlaying + |PlayingPlayers(Values(cs[i].players), observe)|;
        i := i + 1;
      }
      assert cs[..i] == cs;
      PlayingAtMostTotal(cs, observe);
    }

    /** The frame-statistics loop over a session's playing players, skipping unusable counters. */
    method CollectFrameStats(playing: seq<LavalinkPlayer>, observe: Observe) returns (frameStats: Option<FrameStats>)
      ensures frameStats == FrameStatsFor(playing, observe)
    {
      var playerCount: nat, totalSent: nat, totalNulled: nat := 0, 0, 0;
      var i := 0;
      while i < |playing|
        invariant 0 <= i <= |playing|
        invariant (playerCount, totalSent, totalNulled) == UsableTotals(playing[..i], observe)
      {
        UsableTotalsStep(playing, i, observe);
        var counter := observe(playing[i]).counter;
        if counter.isDataUsable {
          playerCount := playerCount + 1;
          totalSent := totalSent + counter.lastMinuteSuccess;
          totalNulled := totalNulled + counter.lastMinuteLoss;
        }
        i := i + 1;
      }
      assert playing[..i] == playing;
      if playerCount != 0 {
        frameStats := Some(Averages(playerCount, totalSent, totalNulled));
      } else {
        frameStats := None;
      }
    }

    /**
     * `retrieveStats`: totals over every live session, the frame statistics of the
     * given session, the memory block and the loads; afterwards a CPU baseline is set.
     */
    method RetrieveStats(context: Option<SocketContext>, observe: Observe, host: HostSample) returns (stats: Stats)
      modifies this`prevTicks
      ensures stats.playersTotal == TotalPlayers(server.Contexts())
      ensures stats.playersPlaying == TotalPlaying(server.Contexts(), observe)
      ensures stats.frameStats == FrameStatsOf(context, observe)
      ensures stats.memory == MemoryOf(host.freeMem, host.totalMem)
      ensures stats.uptime == host.now - host.processUptime * 1000.0
      ensures stats.cpu == Cpu(host.cores, host.systemLoadSince(old(prevTicks).GetOr(host.baselineTicks)), host.lavalinkLoad)
      ensures prevTicks == Some(host.nextTicks)
    {
      var contexts := server.Contexts();
      var playersTotal, playersPlaying := CountPlayers(contexts, observe);
      var uptime := host.now - host.processUptime * 1000.0;
      var mem := MemoryOf(host.freeMem, host.totalMem);
      var frameStats := None;
      if context.Some? {
        frameStats := CollectFrameStats(PlayingPlayers(Values(context.value.players), observe), observe);
      }
      assert frameStats == FrameStatsOf(context, observe);
      var cpu := SampleCpu(host);
      stats := Stats(frameStats, playersTotal, playersPlaying, uptime, mem, cpu);
    }

    /**
     * The CPU block: the system load is measured since the previous collection's
     * baseline, or, on the first collection, since a sample taken just before;
     * afterwards the baseline moves on to the latest sample.
     */
    method SampleCpu(host: HostSample) returns (cpu: Cpu)
      modifies this`prevTicks
      ensures cpu == Cpu(host.cores, host.systemLoadSince(old(prevTicks).GetOr(host.baselineTicks)), host.lavalinkLoad)
      ensures prevTicks == Some(host.nextTicks)
    {
      if prevTicks.None? {
        prevTicks := Some(host.baselineTicks);
      }
      cpu := Cpu(host.cores, host.systemLoadSince(prevTicks.value), host.lavalinkLoad);
      prevTicks := Some(host.nextTicks);
    }

    /**
     * One run of the closure `createTask(context)` returns: collect the statistics and
     * send them to the session. A failure to read the host (`host` is an error)
     * is caught and logged, so the run sends nothing and raises nothing.
     */
    method RunTask(context: SocketContext, observe: Observe, host: Result<HostSample, string>)
      modifies this`prevTicks, context.trace
      ensures host.Err? ==> prevTicks == old(prevTicks) && context.trace.events == old(context.trace.events)
      ensures host.Ok? ==> prevTicks == Some(host.value.nextTicks)
      ensures host.Ok? ==> exists stats: Stats ::
        && stats.playersTotal == old(TotalPlayers(server.Contexts()))
        && stats.frameStats == old(FrameStatsOf(Some(context), observe))
        && context.trace.events == old(context.trace.events) + SendEffects(context, context.session, [StatsEvent(stats)])
    {
      if host.Err? {
        return;
      }
      var stats := RetrieveStats(Some(context), observe, host.value);
      context.SendMessage(StatsEvent(stats));
    }
  }
}
