/**
 * The audio player set-up (config/AudioPlayerConfiguration.js): the tuning
 * settings fall back to their defaults and the chosen values are written back
 * into the server configuration; the enabled source managers are registered in a
 * fixed order with the plugin-provided ones after the built-in ones and HTTP
 * last; and the static `routePlanner` builds the IP route planner from the
 * rate-limit block, rejecting malformed IP blocks and unknown strategies.
 *
 * The audio player manager, the source managers, the route planners and the
 * CIDR recognisers are foreign. The manager is modelled as the log of the calls made
 * on it, the source managers as the values they are built from, and the CIDR
 * recognisers as parameters.
 */
module AudioPlayerConfig {
  import opened Wrappers
  import opened JsText

  // ---------------------------------------------------------------------------
  // The configuration read and written

  /** A numeric setting is taken when it is truthy: present and not zero. */
  predicate IsSet(v: Option<int>) {
    v.Some? && v.value != 0
  }

  /** `serverConfig.httpConfig`. */
  datatype HttpConfig = HttpConfig(proxyHost: Option<string>, proxyPort: Option<int>, proxyUser: Option<string>, proxyPassword: Option<string>)

  /** The `{}` the HTTP set-up falls back to. */
  const EmptyHttpConfig: HttpConfig := HttpConfig(None, None, None, None)

  datatype YoutubeConfig = YoutubeConfig(email: Option<string>, password: Option<string>)

  /** `serverConfig.ratelimit` (config/RateLimitConfig.js). */
  datatype RateLimitConfig = RateLimitConfig(
    ipBlocks: seq<string>, excludedIps: seq<string>, strategy: string, retryLimit: Option<int>, searchTriggersFail: bool)

  /** The defaults of a rate-limit block. */
  const DefaultRateLimitConfig: RateLimitConfig := RateLimitConfig([], [], "RotateOnBan", Some(-1), true)

  /** The five tuning settings. */
  datatype Tuning = Tuning(
    frameBufferDurationMs: Option<int>,
    opusEncodingQuality: Option<int>,
    resamplingQuality: Option<int>,
    trackStuckThresholdMs: Option<int>,
    useSeekGhosting: Option<bool>)

  /** The fields of the server configuration this set-up reads or writes. */
  datatype ConfigState = ConfigState(
    tuning: Tuning,
    isGcWarnings: bool,
    isNonAllocatingFrameBuffer: bool,
    isYoutubeSearchEnabled: bool,
    isSoundcloudSearchEnabled: bool,
    youtubePlaylistLoadLimit: Option<int>,
    youtubeConfig: Option<YoutubeConfig>,
    ratelimit: Option<RateLimitConfig>,
    httpConfig: Option<HttpConfig>)

  /** The server configuration object (config/ServerConfig.js). */
  class ServerConfig {
    var frameBufferDurationMs: Option<int>
    var opusEncodingQuality: Option<int>
    var resamplingQuality: Option<int>
    var trackStuckThresholdMs: Option<int>
    var useSeekGhosting: Option<bool>
    var isGcWarnings: bool
    var isNonAllocatingFrameBuffer: bool
    var isYoutubeSearchEnabled: bool
    var isSoundcloudSearchEnabled: bool
    var youtubePlaylistLoadLimit: Option<int>
    var youtubeConfig: Option<YoutubeConfig>
    var ratelimit: Option<RateLimitConfig>
    var httpConfig: Option<HttpConfig>

    /** The defaults: every tuning setting unset, GC warnings and both searches on. */
    constructor()
      ensures State() == ConfigState(Tuning(None, None, None, None, None), true, false, true, true, None, None, None, None)
    {
      frameBufferDurationMs := None;
      opusEncodingQuality := None;
      resamplingQuality := None;
      trackStuckThresholdMs := None;
      useSeekGhosting := None;
      isGcWarnings := true;
      isNonAllocatingFrameBuffer := false;
      isYoutubeSearchEnabled := true;
      isSoundcloudSearchEnabled := true;
      youtubePlaylistLoadLimit := None;
      youtubeConfig := None;
      ratelimit := None;
      httpConfig := None;
    }

    function TuningState(): Tuning
      reads this
    {
      Tuning(frameBufferDurationMs, opusEncodingQuality, resamplingQuality, trackStuckThresholdMs, useSeekGhosting)
    }

    function State(): ConfigState
      reads this
    {
      ConfigState(TuningState(), isGcWarnings, isNonAllocatingFrameBuffer, isYoutubeSearchEnabled,
        isSoundcloudSearchEnabled, youtubePlaylistLoadLimit, youtubeConfig, ratelimit, httpConfig)
    }
  }

  // ---------------------------------------------------------------------------
  // Tuning defaults

  /** The defaults the manager itself reports, and the maximum opus quality. */
  datatype ManagerDefaults = ManagerDefaults(frameBufferDuration: int, opusQualityMax: int, trackStuckThresholdNanos: nat)

  /** `TimeUnit.NANOSECONDS.toMillis`, truncating. */
  function NanosToMillis(n: nat): nat {
    n / 1000000
  }

  function OrDefault(v: Option<int>, default: int): int {
    if IsSet(v) then v.value else default
  }

  /** The settings after the fall-backs: a set value is kept, an unset one gets its default. */
  function WithDefaults(t: Tuning, d: ManagerDefaults): (r: Tuning)
    ensures IsSet(t.frameBufferDurationMs) ==> r.frameBufferDurationMs == t.frameBufferDurationMs
    ensures !IsSet(t.frameBufferDurationMs) ==> r.frameBufferDurationMs == Some(d.frameBufferDuration)
    ensures IsSet(t.opusEncodingQuality) ==> r.opusEncodingQuality == t.opusEncodingQuality
    ensures !IsSet(t.opusEncodingQuality) ==> r.opusEncodingQuality == Some(d.opusQualityMax)
    ensures IsSet(t.resamplingQuality) ==> r.resamplingQuality == t.resamplingQuality
    ensures !IsSet(t.resamplingQuality) ==> r.resamplingQuality == Some(1)
    ensures IsSet(t.trackStuckThresholdMs) ==> r.trackStuckThresholdMs == t.trackStuckThresholdMs
    ensures !IsSet(t.trackStuckThresholdMs) ==> r.trackStuckThresholdMs == Some(NanosToMillis(d.trackStuckThresholdNanos))
    ensures r.useSeekGhosting == Some(t.useSeekGhosting == Some(true))
  {
    Tuning(
      Some(OrDefault(t.frameBufferDurationMs, d.frameBufferDuration)),
      Some(OrDefault(t.opusEncodingQuality, d.opusQualityMax)),
      Some(OrDefault(t.resamplingQuality, 1)),
      Some(OrDefault(t.trackStuckThresholdMs, NanosToMillis(d.trackStuckThresholdNanos))),
      Some(t.useSeekGhosting == Some(true)))
  }

  /** Writing the chosen values back makes a second set-up choose the same values. */
  lemma WithDefaultsIdempotent(t: Tuning, d: ManagerDefaults)
    ensures WithDefaults(WithDefaults(t, d), d) == WithDefaults(t, d)
  {
  }

  // ---------------------------------------------------------------------------
  // Source managers and the calls on the manager

  /** The `lavalink.server.sources` switches. */
  datatype Sources = Sources(
    isYoutube: bool, isSoundcloud: bool, isBandcamp: bool, isTwitch: bool,
    isVimeo: bool, isNico: bool, isLocal: bool, isHttp: bool)

  /** How the YouTube IP rotator is set up. */
  datatype RotatorRetry = DefaultRetries | UnlimitedRetries | RetryLimit(limit: int)

  datatype HttpProxy = HttpProxy(host: string, port: Option<int>, credentials: Option<(Option<string>, Option<string>)>)

  /** A source manager, as the values it is built from. */
  datatype SourceManager =
    | YoutubeSource(searchEnabled: bool, email: Option<string>, password: Option<string>,
                    rotator: Option<RotatorRetry>, playlistPageCount: Option<int>)
    | SoundCloudSource(searchEnabled: bool)
    | BandcampSource
    | TwitchSource
    | VimeoSource
    | NicoSource
    | LocalSource(containerProbes: seq<string>)
    | PluginSource(id: nat)
    | HttpSource(containerProbes: seq<string>, proxy: Option<HttpProxy>)

  /** A call made on the audio player manager. */
  datatype ManagerCall =
    | EnableGcMonitoring
    | SetNonAllocatingFrameBuffer
    | SetFrameBufferDuration(ms: int)
    | SetOpusEncodingQuality(quality: int)
    | SetResamplingQuality(quality: int)
    | SetTrackStuckThreshold(ms: int)
    | SetUseSeekGhosting(enabled: bool)
    | RegisterSourceManager(manager: SourceManager)
    | EnableFilterHotSwap
    | ConfiguredBy(plugin: nat)

  /** The audio player manager, as the log of the calls made on it. */
  class AudioPlayerManager {
    var calls: seq<ManagerCall>

    constructor()
      ensures calls == []
    {
      calls := [];
    }

    method Call(c: ManagerCall)
      modifies this`calls
      ensures calls == old(calls) + [c]
    {
      calls := calls + [c];
    }
  }

  /** `serverConfig.ratelimit?.retryLimit || -1`. */
  function RetryLimitOf(ratelimit: Option<RateLimitConfig>): int {
    if ratelimit.Some? && IsSet(ratelimit.value.retryLimit) then ratelimit.value.retryLimit.value else -1
  }

  /** The switch on the retry limit. */
  function RotatorFor(retryLimit: int): RotatorRetry {
    if retryLimit == -1 then DefaultRetries
    else if retryLimit == 0 then UnlimitedRetries
    else RetryLimit(retryLimit)
  }

  /**
   * A configured zero becomes -1 before the switch, so the rotator is never set up
   * with unlimited retries: the default set-up when the limit is unset, zero or -1,
   * and the configured limit otherwise.
   */
  lemma RetryLimitMapping(ratelimit: Option<RateLimitConfig>)
    ensures RotatorFor(RetryLimitOf(ratelimit)) != UnlimitedRetries
    ensures RotatorFor(RetryLimitOf(ratelimit)) == DefaultRetries <==>
      ratelimit.None? || !IsSet(ratelimit.value.retryLimit) || ratelimit.value.retryLimit == Some(-1)
    ensures RotatorFor(RetryLimitOf(ratelimit)).RetryLimit? ==>
      RotatorFor(RetryLimitOf(ratelimit)).limit == ratelimit.value.retryLimit.value
  {
  }

  /** The YouTube source manager, or the `TypeError` of reading `email` of a missing YouTube block. */
  function YoutubeSourceFor(c: ConfigState, routePlanner: bool): Result<SourceManager, string> {
    if c.youtubeConfig.None? then Err("Cannot read properties of null (reading 'email')")
    else Ok(YoutubeSource(c.isYoutubeSearchEnabled, c.youtubeConfig.value.email, c.youtubeConfig.value.password,
      if routePlanner then Some(RotatorFor(RetryLimitOf(c.ratelimit))) else None, c.youtubePlaylistLoadLimit))
  }

  /** The HTTP source manager, with a proxy when a proxy host is set and credentials when a proxy user is. */
  function HttpSourceFor(h: HttpConfig, probes: seq<string>): SourceManager {
    HttpSource(probes,
      if Truthy(h.proxyHost) then
        Some(HttpProxy(h.proxyHost.value, h.proxyPort, if Truthy(h.proxyUser) then Some((h.proxyUser, h.proxyPassword)) else None))
      else None)
  }

  /** The built-in source managers after YouTube, each with its switch, in registration order. */
  function BuiltInCandidates(s: Sources, c: ConfigState, probes: seq<string>): seq<(bool, SourceManager)> {
    [(s.isSoundcloud, SoundCloudSource(c.isSoundcloudSearchEnabled)), (s.isBandcamp, BandcampSource),
     (s.isTwitch, TwitchSource), (s.isVimeo, VimeoSource), (s.isNico, NicoSource), (s.isLocal, LocalSource(probes))]
  }

  /** The candidates whose switch is on, in order. */
  function Enabled(cs: seq<(bool, SourceManager)>): seq<SourceManager> {
    if cs == [] then []
    else Enabled(cs[..|cs| - 1]) + (if cs[|cs| - 1].0 then [cs[|cs| - 1].1] else [])
  }

  function Registrations(ms: seq<SourceManager>): (r: seq<ManagerCall>)
    ensures |r| == |ms| && forall i :: 0 <= i < |ms| ==> r[i] == RegisterSourceManager(ms[i])
  {
    seq(|ms|, i requires 0 <= i < |ms| => RegisterSourceManager(ms[i]))
  }

  lemma RegistrationsAppend(a: seq<SourceManager>, b: seq<SourceManager>)
    ensures Registrations(a + b) == Registrations(a) + Registrations(b)
  {
  }

  function PluginSources(plugins: seq<nat>): (r: seq<SourceManager>)
    ensures |r| == |plugins| && forall i :: 0 <= i < |plugins| ==> r[i] == PluginSource(plugins[i])
  {
    seq(|plugins|, i requires 0 <= i < |plugins| => PluginSource(plugins[i]))
  }

  function Configurations(configurators: seq<nat>): (r: seq<ManagerCall>)
    ensures |r| == |configurators| && forall i :: 0 <= i < |configurators| ==> r[i] == ConfiguredBy(configurators[i])
  {
    seq(|configurators|, i requires 0 <= i < |configurators| => ConfiguredBy(configurators[i]))
  }

  /** The calls before any source is registered: GC monitoring, the frame buffer, then the five settings. */
  function TuningCalls(c: ConfigState, d: ManagerDefaults): seq<ManagerCall> {
    FlagCalls(c) + SettingCalls(WithDefaults(c.tuning, d))
  }

  function FlagCalls(c: ConfigState): seq<ManagerCall> {
    (if c.isGcWarnings then [EnableGcMonitoring] else [])
    + (if c.isNonAllocatingFrameBuffer then [SetNonAllocatingFrameBuffer] else [])
  }

  function SettingCalls(t: Tuning): seq<ManagerCall> {
    [SetFrameBufferDuration(t.frameBufferDurationMs.GetOr(0)), SetOpusEncodingQuality(t.opusEncodingQuality.GetOr(0)),
     SetResamplingQuality(t.resamplingQuality.GetOr(0)), SetTrackStuckThreshold(t.trackStuckThresholdMs.GetOr(0)),
     SetUseSeekGhosting(t.useSeekGhosting.GetOr(false))]
  }

  /** YouTube is switched on but its configuration block is missing: the set-up throws. */
  predicate YoutubeFails(s: Sources, c: ConfigState) {
    s.isYoutube && c.youtubeConfig.None?
  }

  function YoutubeSources(s: Sources, c: ConfigState, routePlanner: bool): seq<SourceManager> {
    if s.isYoutube && c.youtubeConfig.Some? then [YoutubeSourceFor(c, routePlanner).value] else []
  }

  /** The sources registered before the configurators run: YouTube, the other built-in ones, the plugins' ones. */
  function EarlySources(s: Sources, c: ConfigState, routePlanner: bool, plugins: seq<nat>, probes: seq<string>): seq<SourceManager> {
    YoutubeSources(s, c, routePlanner) + Enabled(BuiltInCandidates(s, c, probes)) + PluginSources(plugins)
  }

  /** HTTP, which is registered last. */
  function LateSources(s: Sources, c: ConfigState, probes: seq<string>): seq<SourceManager> {
    if s.isHttp then [HttpSourceFor(c.httpConfig.GetOr(EmptyHttpConfig), probes)] else []
  }

  function MiddleCalls(configurators: seq<nat>): seq<ManagerCall> {
    [EnableFilterHotSwap] + Configurations(configurators)
  }

  /** The source managers registered, in order, or the error of a missing YouTube block. */
  function SourceManagers(s: Sources, c: ConfigState, routePlanner: bool, plugins: seq<nat>, probes: seq<string>): Result<seq<SourceManager>, string> {
    if YoutubeFails(s, c) then Err(YoutubeSourceFor(c, routePlanner).error)
    else Ok(EarlySources(s, c, routePlanner, plugins, probes) + LateSources(s, c, probes))
  }

  /** Every call made on the manager, and whether the set-up throws. */
  function SetupCalls(s: Sources, c: ConfigState, d: ManagerDefaults, routePlanner: bool, plugins: seq<nat>,
                      configurators: seq<nat>, probes: seq<string>): (seq<ManagerCall>, Option<string>) {
    if YoutubeFails(s, c) then (TuningCalls(c, d), Some(YoutubeSourceFor(c, routePlanner).error))
    else
      (TuningCalls(c, d) + Registrations(EarlySources(s, c, routePlanner, plugins, probes))
        + MiddleCalls(configurators) + Registrations(LateSources(s, c, probes)), None)
  }

  /** The configuration after the set-up: the settings with their defaults, and `{}` for a missing HTTP block. */
  function ConfigAfter(s: Sources, c: ConfigState, d: ManagerDefaults): ConfigState {
    var tuned := c.(tuning := WithDefaults(c.tuning, d));
    if !YoutubeFails(s, c) && s.isHttp then tuned.(httpConfig := Some(c.httpConfig.GetOr(EmptyHttpConfig)))
    else tuned
  }

  /** The source managers registered through the calls, in call order. */
  function Registered(calls: seq<ManagerCall>): seq<SourceManager> {
    if calls == [] then []
    else
      Registered(calls[..|calls| - 1])
      + (if calls[|calls| - 1].RegisterSourceManager? then [calls[|calls| - 1].manager] else [])
  }

  lemma {:induction false} RegisteredAppend(a: seq<ManagerCall>, b: seq<ManagerCall>)
    ensures Registered(a + b) == Registered(a) + Registered(b)
  {
    if b == [] {
      assert a + b == a;
    } else {
      assert (a + b)[..|a + b| - 1] == a + b[..|b| - 1];
      RegisteredAppend(a, b[..|b| - 1]);
    }
  }

  lemma {:induction false} RegisteredOfRegistrations(ms: seq<SourceManager>)
    ensures Registered(Registrations(ms)) == ms
  {
    if ms != [] {
      assert Registrations(ms)[..|ms| - 1] == Registrations(ms[..|ms| - 1]);
      RegisteredOfRegistrations(ms[..|ms| - 1]);
    }
  }

  lemma {:induction false} RegisteredNone(calls: seq<ManagerCall>)
    requires forall i :: 0 <= i < |calls| ==> !calls[i].RegisterSourceManager?
    ensures Registered(calls) == []
  {
    if calls != [] {
      RegisteredNone(calls[..|calls| - 1]);
    }
  }

  /** The managers registered through the calls are exactly the source managers, in their order. */
  lemma SetupRegistersSources(s: Sources, c: ConfigState, d: ManagerDefaults, routePlanner: bool, plugins: seq<nat>,
                               configurators: seq<nat>, probes: seq<string>)
    ensures var r := SetupCalls(s, c, d, routePlanner, plugins, configurators, probes);
      var sources := SourceManagers(s, c, routePlanner, plugins, probes);
      && (r.1.Some? <==> sources.Err?)
      && (r.1.None? ==> Registered(r.0) == sources.value)
      && (r.1.Some? ==> Registered(r.0) == [])
  {
    var tuning := TuningCalls(c, d);
    RegisteredNone(tuning);
    if !YoutubeFails(s, c) {
      var middle := MiddleCalls(configurators);
      RegisteredNone(middle);
      RegisteredOfPhases(tuning, EarlySources(s, c, routePlanner, plugins, probes), middle, LateSources(s, c, probes));
    }
  }

  /** Calls that register nothing around two runs of registrations register exactly those two runs. */
  lemma RegisteredOfPhases(tuning: seq<ManagerCall>, early: seq<SourceManager>, middle: seq<ManagerCall>, late: seq<SourceManager>)
    requires Registered(tuning) == [] && Registered(middle) == []
    ensures Registered(tuning + Registrations(early) + middle + Registrations(late)) == early + late
  {
    RegisteredOfRegistrations(early);
    RegisteredOfRegistrations(late);
    RegisteredAppend(tuning, Registrations(early));
    RegisteredAppend(tuning + Registrations(early), middle);
    RegisteredAppend(tuning + Registrations(early) + middle, Registrations(late));
  }

  /** The position of a source manager in the registration order. */
  function Rank(m: SourceManager): nat {
    match m
    case YoutubeSource(_, _, _, _, _) => 0
    case SoundCloudSource(_) => 1
    case BandcampSource => 2
    case TwitchSource => 3
    case VimeoSource => 4
    case NicoSource => 5
    case LocalSource(_) => 6
    case PluginSource(_) => 7
    case HttpSource(_, _) => 8
  }

  /** The switch that enables the source managers of a rank (the plugins' rank has none). */
  predicate SwitchOn(s: Sources, rank: nat) {
    match rank
    case 0 => s.isYoutube
    case 1 => s.isSoundcloud
    case 2 => s.isBandcamp
    case 3 => s.isTwitch
    case 4 => s.isVimeo
    case 5 => s.isNico
    case 6 => s.isLocal
    case 8 => s.isHttp
    case _ => false
  }

  predicate RankOrdered(ms: seq<SourceManager>) {
    forall i, j :: 0 <= i < j < |ms| ==> Rank(ms[i]) <= Rank(ms[j])
  }

  /** Some manager of the list has the rank. */
  predicate HasRank(ms: seq<SourceManager>, rank: nat) {
    exists i :: 0 <= i < |ms| && Rank(ms[i]) == rank
  }

  lemma HasRankAppend(a: seq<SourceManager>, b: seq<SourceManager>, rank: nat)
    ensures HasRank(a + b, rank) <==> HasRank(a, rank) || HasRank(b, rank)
  {
    if HasRank(a + b, rank) {
      var i :| 0 <= i < |a + b| && Rank((a + b)[i]) == rank;
      if i >= |a| {
        assert b[i - |a|] == (a + b)[i];
      }
    }
    if HasRank(a, rank) {
      var i :| 0 <= i < |a| && Rank(a[i]) == rank;
      assert (a + b)[i] == a[i];
    }
    if HasRank(b, rank) {
      var i :| 0 <= i < |b| && Rank(b[i]) == rank;
      assert (a + b)[|a| + i] == b[i];
    }
  }

  lemma RankOrderedAppend(a: seq<SourceManager>, b: seq<SourceManager>)
    requires RankOrdered(a) && RankOrdered(b)
    requires forall i, j :: 0 <= i < |a| && 0 <= j < |b| ==> Rank(a[i]) <= Rank(b[j])
    ensures RankOrdered(a + b)
  {
  }

  lemma {:induction false} EnabledMembers(cs: seq<(bool, SourceManager)>, m: SourceManager)
    ensures m in Enabled(cs) <==> (true, m) in cs
  {
    if cs != [] {
      EnabledMembers(cs[..|cs| - 1], m);
      assert cs == cs[..|cs| - 1] + [cs[|cs| - 1]];
    }
  }

  /** Dropping the switched-off candidates keeps the order of the rest. */
  lemma {:induction false} EnabledOrdered(cs: seq<(bool, SourceManager)>)
    requires forall i, j :: 0 <= i < j < |cs| ==> Rank(cs[i].1) <= Rank(cs[j].1)
    ensures RankOrdered(Enabled(cs))
  {
    if cs != [] {
      var init := cs[..|cs| - 1];
      var last := cs[|cs| - 1];
      EnabledOrdered(init);
      if last.0 {
        forall i | 0 <= i < |Enabled(init)| ensures Rank(Enabled(init)[i]) <= Rank(last.1) {
          var m := Enabled(init)[i];
          EnabledMembers(init, m);
          var k :| 0 <= k < |init| && init[k] == (true, m);
          assert cs[k] == init[k];
        }
        RankOrderedAppend(Enabled(init), [last.1]);
      }
    }
  }

  /** The enabled built-in managers keep their order, and each has its own rank, whose switch is on. */
  lemma BuiltInRanks(s: Sources, c: ConfigState, probes: seq<string>)
    ensures RankOrdered(Enabled(BuiltInCandidates(s, c, probes)))
    ensures forall m :: m in Enabled(BuiltInCandidates(s, c, probes)) ==> 1 <= Rank(m) <= 6 && SwitchOn(s, Rank(m))
  {
    var cs := BuiltInCandidates(s, c, probes);
    assert forall i :: 0 <= i < |cs| ==> Rank(cs[i].1) == i + 1;
    EnabledOrdered(cs);
    forall m | m in Enabled(cs) ensures 1 <= Rank(m) <= 6 && SwitchOn(s, Rank(m)) {
      EnabledMembers(cs, m);
      var i :| 0 <= i < |cs| && cs[i] == (true, m);
      assert Rank(m) == i + 1;
    }
  }

  /** A built-in manager whose switch is on is registered. */
  lemma BuiltInSwitchedOn(s: Sources, c: ConfigState, probes: seq<string>, rank: nat)
    requires 1 <= rank <= 6 && SwitchOn(s, rank)
    ensures HasRank(Enabled(BuiltInCandidates(s, c, probes)), rank)
  {
    var cs := BuiltInCandidates(s, c, probes);
    var m := cs[rank - 1].1;
    assert cs[rank - 1] == (true, m) && Rank(m) == rank;
    EnabledMembers(cs, m);
    var i :| 0 <= i < |Enabled(cs)| && Enabled(cs)[i] == m;
  }

  predicate RanksWithin(ms: seq<SourceManager>, lo: nat, hi: nat) {
    forall i :: 0 <= i < |ms| ==> lo <= Rank(ms[i]) <= hi
  }

  /** Ordered blocks of increasing rank ranges make an ordered list. */
  lemma BlocksOrdered(y: seq<SourceManager>, e: seq<SourceManager>, p: seq<SourceManager>, l: seq<SourceManager>)
    requires RanksWithin(y, 0, 0) && RanksWithin(e, 1, 6) && RanksWithin(p, 7, 7) && RanksWithin(l, 8, 8) && RankOrdered(e)
    ensures RankOrdered(y + e + p + l)
  {
    RankOrderedAppend(y, e);
    RankOrderedAppend(y + e, p);
    assert RanksWithin(y + e + p, 0, 7);
    RankOrderedAppend(y + e + p, l);
  }

  /**
   * The registrations follow the fixed order: YouTube, SoundCloud, Bandcamp,
   * Twitch, Vimeo, Nico, local, the plugins' managers in list order, HTTP last.
   */
  lemma RegistrationOrder(s: Sources, c: ConfigState, routePlanner: bool, plugins: seq<nat>, probes: seq<string>)
    requires !YoutubeFails(s, c)
    ensures var ms := SourceManagers(s, c, routePlanner, plugins, probes).value;
      && RankOrdered(ms)
      && (s.isHttp ==> ms[|ms| - 1].HttpSource?)
  {
    var y := YoutubeSources(s, c, routePlanner);
    var e := Enabled(BuiltInCandidates(s, c, probes));
    var p := PluginSources(plugins);
    var l := LateSources(s, c, probes);
    BuiltInRanks(s, c, probes);
    assert RanksWithin(e, 1, 6) by {
      forall i | 0 <= i < |e| ensures 1 <= Rank(e[i]) <= 6 {
        assert e[i] in e;
      }
    }
    BlocksOrdered(y, e, p, l);
  }

  /** The managers of each built-in rank are registered exactly when their switch is on, the plugins' when there are any. */
  lemma RegisteredIffSwitchedOn(s: Sources, c: ConfigState, routePlanner: bool, plugins: seq<nat>, probes: seq<string>, rank: nat)
    requires !YoutubeFails(s, c)
    ensures var ms := SourceManagers(s, c, routePlanner, plugins, probes).value;
      && (rank != 7 ==> (HasRank(ms, rank) <==> SwitchOn(s, rank)))
      && (rank == 7 ==> (HasRank(ms, rank) <==> plugins != []))
  {
    var y := YoutubeSources(s, c, routePlanner);
    var e := Enabled(BuiltInCandidates(s, c, probes));
    var p := PluginSources(plugins);
    var l := LateSources(s, c, probes);
    assert y + e + p + l == SourceManagers(s, c, routePlanner, plugins, probes).value;
    BuiltInRanks(s, c, probes);
    assert RanksWithin(e, 1, 6) by {
      forall i | 0 <= i < |e| ensures 1 <= Rank(e[i]) <= 6 {
        assert e[i] in e;
      }
    }
    HasRankBlocks(y, e, p, l, rank);
    if HasRank(e, rank) {
      var i :| 0 <= i < |e| && Rank(e[i]) == rank;
      assert e[i] in e;
    }
    if 1 <= rank <= 6 && SwitchOn(s, rank) {
      BuiltInSwitchedOn(s, c, probes, rank);
    }
  }

  /** In blocks of increasing rank ranges, a rank outside the built-in range is present exactly when its block is non-empty. */
  lemma HasRankBlocks(y: seq<SourceManager>, e: seq<SourceManager>, p: seq<SourceManager>, l: seq<SourceManager>, rank: nat)
    requires RanksWithin(y, 0, 0) && RanksWithin(e, 1, 6) && RanksWithin(p, 7, 7) && RanksWithin(l, 8, 8)
    ensures HasRank(y + e + p + l, rank) <==>
      (rank == 0 && y != []) || (1 <= rank <= 6 && HasRank(e, rank)) || (rank == 7 && p != []) || (rank == 8 && l != [])
  {
    HasRankAppend(y, e, rank);
    HasRankAppend(y + e, p, rank);
    HasRankAppend(y + e + p, l, rank);
    if y != [] { assert Rank(y[0]) == 0; }
    if p != [] { assert Rank(p[0]) == 7; }
    if l != [] { assert Rank(l[0]) == 8; }
  }

  /** The manager when its switch is on. */
  function IfOn(on: bool, m: SourceManager): seq<SourceManager> {
    if on then [m] else []
  }

  /** The enabled built-in managers, candidate by candidate. */
  lemma EnabledBuiltIns(s: Sources, c: ConfigState, probes: seq<string>)
    ensures Enabled(BuiltInCandidates(s, c, probes)) ==
      IfOn(s.isSoundcloud, SoundCloudSource(c.isSoundcloudSearchEnabled)) + IfOn(s.isBandcamp, BandcampSource)
      + IfOn(s.isTwitch, TwitchSource) + IfOn(s.isVimeo, VimeoSource) + IfOn(s.isNico, NicoSource)
      + IfOn(s.isLocal, LocalSource(probes))
  {
    EnabledSix((s.isSoundcloud, SoundCloudSource(c.isSoundcloudSearchEnabled)), (s.isBandcamp, BandcampSource),
      (s.isTwitch, TwitchSource), (s.isVimeo, VimeoSource), (s.isNico, NicoSource), (s.isLocal, LocalSource(probes)));
  }

  /** Six candidates, one at a time. */
  lemma EnabledSix(a: (bool, SourceManager), b: (bool, SourceManager), c: (bool, SourceManager),
                   d: (bool, SourceManager), e: (bool, SourceManager), f: (bool, SourceManager))
    ensures Enabled([a, b, c, d, e, f]) ==
      IfOn(a.0, a.1) + IfOn(b.0, b.1) + IfOn(c.0, c.1) + IfOn(d.0, d.1) + IfOn(e.0, e.1) + IfOn(f.0, f.1)
  {
    EnabledAppend([a, b, c], [d, e, f]);
    assert [a, b, c] + [d, e, f] == [a, b, c, d, e, f];
    EnabledThree(a, b, c);
    EnabledThree(d, e, f);
    SixAssociative(IfOn(a.0, a.1), IfOn(b.0, b.1), IfOn(c.0, c.1), IfOn(d.0, d.1), IfOn(e.0, e.1), IfOn(f.0, f.1));
  }

  lemma SixAssociative<T>(x1: seq<T>, x2: seq<T>, x3: seq<T>, x4: seq<T>, x5: seq<T>, x6: seq<T>)
    ensures (x1 + x2 + x3) + (x4 + x5 + x6) == x1 + x2 + x3 + x4 + x5 + x6
  {
  }

  lemma EnabledThree(a: (bool, SourceManager), b: (bool, SourceManager), c: (bool, SourceManager))
    ensures Enabled([a, b, c]) == IfOn(a.0, a.1) + IfOn(b.0, b.1) + IfOn(c.0, c.1)
  {
    var cs := [a, b, c];
    assert cs[..2] == [a, b];
    assert [a, b][..1] == [a];
    assert [a][..0] == [];
    assert Enabled([a]) == IfOn(a.0, a.1);
    assert Enabled([a, b]) == IfOn(a.0, a.1) + IfOn(b.0, b.1);
  }

  lemma {:induction false} EnabledAppend(x: seq<(bool, SourceManager)>, y: seq<(bool, SourceManager)>)
    ensures Enabled(x + y) == Enabled(x) + Enabled(y)
  {
    if y == [] {
      assert x + y == x;
    } else {
      assert (x + y)[..|x + y| - 1] == x + y[..|y| - 1];
      EnabledAppend(x, y[..|y| - 1]);
    }
  }

  /** The registration one `if (sources.x) manager.registerSourceManager(...)` makes. */
  function RegistrationIf(on: bool, m: SourceManager): (r: seq<ManagerCall>)
    ensures r == Registrations(IfOn(on, m))
  {
    if on then [RegisterSourceManager(m)] else []
  }

  /** The calls of the six `if`s, written out one switch at a time. */
  function BuiltInCalls(s: Sources, soundcloudSearch: bool, probes: seq<string>): seq<ManagerCall> {
    RegistrationIf(s.isSoundcloud, SoundCloudSource(soundcloudSearch))
      + RegistrationIf(s.isBandcamp, BandcampSource)
      + RegistrationIf(s.isTwitch, TwitchSource)
      + RegistrationIf(s.isVimeo, VimeoSource)
      + RegistrationIf(s.isNico, NicoSource)
      + RegistrationIf(s.isLocal, LocalSource(probes))
  }

  /** The six `if`s register exactly the enabled built-in candidates, in order. */
  lemma BuiltInCallsRegisterEnabled(s: Sources, c: ConfigState, probes: seq<string>)
    ensures BuiltInCalls(s, c.isSoundcloudSearchEnabled, probes) == Registrations(Enabled(BuiltInCandidates(s, c, probes)))
  {
    EnabledBuiltIns(s, c, probes);
    var a := IfOn(s.isSoundcloud, SoundCloudSource(c.isSoundcloudSearchEnabled));
    var b := IfOn(s.isBandcamp, BandcampSource);
    var t := IfOn(s.isTwitch, TwitchSource);
    var v := IfOn(s.isVimeo, VimeoSource);
    var n := IfOn(s.isNico, NicoSource);
    var l := IfOn(s.isLocal, LocalSource(probes));
    RegistrationsAppend(a, b);
    RegistrationsAppend(a + b, t);
    RegistrationsAppend(a + b + t, v);
    RegistrationsAppend(a + b + t + v, n);
    RegistrationsAppend(a + b + t + v + n, l);
  }

  lemma AppendAssociative(a: seq<ManagerCall>, b: seq<ManagerCall>, c: seq<ManagerCall>)
    ensures a + b + c == a + (b + c)
  {
  }

  /** One `if (sources.x) manager.registerSourceManager(...)` of the constructor. */
  method RegisterIfOn(on: bool, m: SourceManager, manager: AudioPlayerManager)
    modifies manager
    ensures manager.calls == old(manager.calls) + RegistrationIf(on, m)
  {
    if on {
      manager.Call(RegisterSourceManager(m));
    }
  }

  /** The enabled built-in managers are registered in the fixed order, one `if` after another. */
  method RegisterBuiltIns(sources: Sources, config: ServerConfig, manager: AudioPlayerManager, probes: seq<string>)
    modifies manager
    ensures manager.calls == old(manager.calls) + BuiltInCalls(sources, config.isSoundcloudSearchEnabled, probes)
  {
    ghost var before := manager.calls;
    RegisterIfOn(sources.isSoundcloud, SoundCloudSource(config.isSoundcloudSearchEnabled), manager);
    ghost var done := RegistrationIf(sources.isSoundcloud, SoundCloudSource(config.isSoundcloudSearchEnabled));
    RegisterIfOn(sources.isBandcamp, BandcampSource, manager);
    AppendAssociative(before, done, RegistrationIf(sources.isBandcamp, BandcampSource));
    done := done + RegistrationIf(sources.isBandcamp, BandcampSource);
    RegisterIfOn(sources.isTwitch, TwitchSource, manager);
    AppendAssociative(before, done, RegistrationIf(sources.isTwitch, TwitchSource));
    done := done + RegistrationIf(sources.isTwitch, TwitchSource);
    RegisterIfOn(sources.isVimeo, VimeoSource, manager);
    AppendAssociative(before, done, RegistrationIf(sources.isVimeo, VimeoSource));
    done := done + RegistrationIf(sources.isVimeo, VimeoSource);
    RegisterIfOn(sources.isNico, NicoSource, manager);
    AppendAssociative(before, done, RegistrationIf(sources.isNico, NicoSource));
    done := done + RegistrationIf(sources.isNico, NicoSource);
    RegisterIfOn(sources.isLocal, LocalSource(probes), manager);
    AppendAssociative(before, done, RegistrationIf(sources.isLocal, LocalSource(probes)));
  }

  /** The fall-backs, written back into the configuration and passed on to the manager. */
  method ApplyTuning(config: ServerConfig, manager: AudioPlayerManager, d: ManagerDefaults)
    modifies config, manager
    ensures manager.calls == old(manager.calls) + TuningCalls(old(config.State()), d)
    ensures config.State() == old(config.State()).(tuning := WithDefaults(old(config.State()).tuning, d))
  {
    ApplyFlags(config, manager);
    ApplySettings(config, manager, WithDefaults(config.TuningState(), d));
  }

  method ApplyFlags(config: ServerConfig, manager: AudioPlayerManager)
    modifies manager
    ensures manager.calls == old(manager.calls) + FlagCalls(config.State())
  {
    if config.isGcWarnings {
      manager.Call(EnableGcMonitoring);
    }
    if config.isNonAllocatingFrameBuffer {
      manager.Call(SetNonAllocatingFrameBuffer);
    }
  }

  /** The five chosen `config.x || default` values `t`: each is written back, then passed to its setter. */
  method ApplySettings(config: ServerConfig, manager: AudioPlayerManager, t: Tuning)
    modifies config, manager
    ensures manager.calls == old(manager.calls) + SettingCalls(t)
    ensures config.State() == old(config.State()).(tuning := t)
  {
    config.frameBufferDurationMs := t.frameBufferDurationMs;
    manager.Call(SetFrameBufferDuration(t.frameBufferDurationMs.GetOr(0)));
    config.opusEncodingQuality := t.opusEncodingQuality;
    manager.Call(SetOpusEncodingQuality(t.opusEncodingQuality.GetOr(0)));
    config.resamplingQuality := t.resamplingQuality;
    manager.Call(SetResamplingQuality(t.resamplingQuality.GetOr(0)));
    config.trackStuckThresholdMs := t.trackStuckThresholdMs;
    manager.Call(SetTrackStuckThreshold(t.trackStuckThresholdMs.GetOr(0)));
    config.useSeekGhosting := t.useSeekGhosting;
    manager.Call(SetUseSeekGhosting(t.useSeekGhosting.GetOr(false)));
  }

  /** The set-up's calls when it does not throw, piece by piece in the order they are made. */
  lemma SetupCallsInOrder(s: Sources, c: ConfigState, d: ManagerDefaults, routePlanner: bool, plugins: seq<nat>,
                          configurators: seq<nat>, probes: seq<string>)
    requires !YoutubeFails(s, c)
    ensures SetupCalls(s, c, d, routePlanner, plugins, configurators, probes).0
      == TuningCalls(c, d) + Registrations(YoutubeSources(s, c, routePlanner)) + BuiltInCalls(s, c.isSoundcloudSearchEnabled, probes)
         + Registrations(PluginSources(plugins)) + [EnableFilterHotSwap] + Configurations(configurators)
         + Registrations(LateSources(s, c, probes))
  {
    var t := TuningCalls(c, d);
    var y := YoutubeSources(s, c, routePlanner);
    var e := Enabled(BuiltInCandidates(s, c, probes));
    var p := PluginSources(plugins);
    var b := BuiltInCalls(s, c.isSoundcloudSearchEnabled, probes);
    var m := Configurations(configurators);
    BuiltInCallsRegisterEnabled(s, c, probes);
    RegistrationsAppend(y, e);
    RegistrationsAppend(y + e, p);
    assert Registrations(EarlySources(s, c, routePlanner, plugins, probes)) == Registrations(y) + b + Registrations(p);
    AppendAssociative(t, Registrations(y) + b, Registrations(p));
    AppendAssociative(t, Registrations(y), b);
    AppendAssociative(t + Registrations(y) + b + Registrations(p), [EnableFilterHotSwap], m);
  }

  /** The YouTube registration, or the error of reading the missing YouTube block. */
  method RegisterYoutube(sources: Sources, config: ServerConfig, manager: AudioPlayerManager, routePlanner: bool)
    returns (failure: Option<string>)
    modifies manager
    ensures failure.Some? <==> YoutubeFails(sources, config.State())
    ensures failure.Some? ==>
      failure.value == YoutubeSourceFor(config.State(), routePlanner).error && manager.calls == old(manager.calls)
    ensures failure.None? ==> manager.calls == old(manager.calls) + Registrations(YoutubeSources(sources, config.State(), routePlanner))
  {
    failure := None;
    if sources.isYoutube {
      if config.youtubeConfig.None? {
        failure := Some("Cannot read properties of null (reading 'email')");
        return;
      }
      var rotator := if routePlanner then Some(RotatorFor(RetryLimitOf(config.ratelimit))) else None;
      manager.Call(RegisterSourceManager(YoutubeSource(config.isYoutubeSearchEnabled, config.youtubeConfig.value.email,
        config.youtubeConfig.value.password, rotator, config.youtubePlaylistLoadLimit)));
    }
  }

  /** `pluginManagers.forEach(...)`: each plugin's source manager, in order. */
  method RegisterPlugins(plugins: seq<nat>, manager: AudioPlayerManager)
    modifies manager
    ensures manager.calls == old(manager.calls) + Registrations(PluginSources(plugins))
  {
    var i := 0;
    while i < |plugins|
      invariant 0 <= i <= |plugins|
      invariant manager.calls == old(manager.calls) + Registrations(PluginSources(plugins[..i]))
    {
      RegistrationsAppend(PluginSources(plugins[..i]), [PluginSource(plugins[i])]);
      assert PluginSources(plugins[..i + 1]) == PluginSources(plugins[..i]) + [PluginSource(plugins[i])];
      manager.Call(RegisterSourceManager(PluginSource(plugins[i])));
      i := i + 1;
    }
    assert plugins[..i] == plugins;
  }

  /** The `reduce` over the configurators: each is handed the manager, in order. */
  method RunConfigurators(configurators: seq<nat>, manager: AudioPlayerManager)
    modifies manager
    ensures manager.calls == old(manager.calls) + Configurations(configurators)
  {
    var j := 0;
    while j < |configurators|
      invariant 0 <= j <= |configurators|
      invariant manager.calls == old(manager.calls) + Configurations(configurators[..j])
    {
      assert Configurations(configurators[..j + 1]) == Configurations(configurators[..j]) + [ConfiguredBy(configurators[j])];
      manager.Call(ConfiguredBy(configurators[j]));
      j := j + 1;
    }
    assert configurators[..j] == configurators;
  }

  /** HTTP last, with `{}` written back for a missing HTTP block. */
  method RegisterHttp(sources: Sources, config: ServerConfig, manager: AudioPlayerManager, probes: seq<string>)
    modifies config`httpConfig, manager
    ensures manager.calls == old(manager.calls) + Registrations(LateSources(sources, old(config.State()), probes))
    ensures config.State() == if sources.isHttp then old(config.State()).(httpConfig := Some(old(config.httpConfig).GetOr(EmptyHttpConfig)))
      else old(config.State())
  {
    if sources.isHttp {
      config.httpConfig := Some(config.httpConfig.GetOr(EmptyHttpConfig));
      manager.Call(RegisterSourceManager(HttpSourceFor(config.httpConfig.value, probes)));
    }
  }

  /**
   * The set-up: falls back to the defaults and writes them back, calls the tuning
   * setters, registers the enabled sources, hands the manager to each configurator
   * in order, and registers HTTP last.
   */
  method ConfigureAudioPlayer(
    sources: Sources, config: ServerConfig, d: ManagerDefaults, routePlanner: bool,
    plugins: seq<nat>, configurators: seq<nat>, probes: seq<string>) returns (manager: AudioPlayerManager, failure: Option<string>)
    modifies config
    ensures fresh(manager)
    ensures (manager.calls, failure) == SetupCalls(sources, old(config.State()), d, routePlanner, plugins, configurators, probes)
    ensures config.State() == ConfigAfter(sources, old(config.State()), d)
  {
    ghost var c := config.State();
    manager := new AudioPlayerManager();
    ApplyTuning(config, manager, d);
    ghost var tuned := config.State();
    assert tuned == c.(tuning := WithDefaults(c.tuning, d));
    assert manager.calls == TuningCalls(c, d);
    failure := RegisterYoutube(sources, config, manager, routePlanner);
    assert config.State() == tuned;
    if failure.Some? {
      ConfigureFails(sources, c, d, routePlanner, plugins, configurators, probes, tuned, failure.value);
      return;
    }
    assert manager.calls == TuningCalls(c, d) + Registrations(YoutubeSources(sources, tuned, routePlanner));
    RegisterAfterYoutube(sources, config, manager, plugins, configurators, probes);
    ConfigureSucceeds(sources, c, d, routePlanner, plugins, configurators, probes, tuned, manager.calls, config.State());
  }

  /** A set-up that throws at the YouTube block has made only the tuning calls and changed only the tuning. */
  lemma ConfigureFails(s: Sources, c: ConfigState, d: ManagerDefaults, routePlanner: bool, plugins: seq<nat>,
                       configurators: seq<nat>, probes: seq<string>, tuned: ConfigState, error: string)
    requires tuned == c.(tuning := WithDefaults(c.tuning, d))
    requires YoutubeFails(s, tuned) && error == YoutubeSourceFor(tuned, routePlanner).error
    ensures SetupCalls(s, c, d, routePlanner, plugins, configurators, probes) == (TuningCalls(c, d), Some(error))
    ensures tuned == ConfigAfter(s, c, d)
  {
    TuningIrrelevant(s, c, WithDefaults(c.tuning, d), routePlanner, probes);
  }

  /** The calls and the configuration of a set-up that does not throw, put together from its steps. */
  lemma ConfigureSucceeds(s: Sources, c: ConfigState, d: ManagerDefaults, routePlanner: bool, plugins: seq<nat>,
                          configurators: seq<nat>, probes: seq<string>, tuned: ConfigState,
                          calls: seq<ManagerCall>, final: ConfigState)
    requires tuned == c.(tuning := WithDefaults(c.tuning, d)) && !YoutubeFails(s, tuned)
    requires calls == TuningCalls(c, d) + Registrations(YoutubeSources(s, tuned, routePlanner))
      + BuiltInCalls(s, tuned.isSoundcloudSearchEnabled, probes) + Registrations(PluginSources(plugins))
      + [EnableFilterHotSwap] + Configurations(configurators) + Registrations(LateSources(s, tuned, probes))
    requires final == if s.isHttp then tuned.(httpConfig := Some(tuned.httpConfig.GetOr(EmptyHttpConfig))) else tuned
    ensures (calls, None) == SetupCalls(s, c, d, routePlanner, plugins, configurators, probes)
    ensures final == ConfigAfter(s, c, d)
  {
    TuningIrrelevant(s, c, WithDefaults(c.tuning, d), routePlanner, probes);
    SetupCallsInOrder(s, c, d, routePlanner, plugins, configurators, probes);
  }

  /** The tuning settings play no part in which source managers are built. */
  lemma TuningIrrelevant(s: Sources, c: ConfigState, t: Tuning, routePlanner: bool, probes: seq<string>)
    ensures var tuned := c.(tuning := t);
      && YoutubeFails(s, tuned) == YoutubeFails(s, c)
      && YoutubeSourceFor(tuned, routePlanner) == YoutubeSourceFor(c, routePlanner)
      && YoutubeSources(s, tuned, routePlanner) == YoutubeSources(s, c, routePlanner)
      && LateSources(s, tuned, probes) == LateSources(s, c, probes)
  {
  }

  /** Everything after the YouTube registration: the built-ins, the plugins, hot-swap, the configurators, HTTP. */
  method RegisterAfterYoutube(sources: Sources, config: ServerConfig, manager: AudioPlayerManager,
                              plugins: seq<nat>, configurators: seq<nat>, probes: seq<string>)
    modifies config`httpConfig, manager
    ensures manager.calls == old(manager.calls) + BuiltInCalls(sources, config.isSoundcloudSearchEnabled, probes)
      + Registrations(PluginSources(plugins)) + [EnableFilterHotSwap] + Configurations(configurators)
      + Registrations(LateSources(sources, old(config.State()), probes))
    ensures config.State() == if sources.isHttp then old(config.State()).(httpConfig := Some(old(config.httpConfig).GetOr(EmptyHttpConfig)))
      else old(config.State())
  {
    RegisterBuiltIns(sources, config, manager, probes);
    RegisterPlugins(plugins, manager);
    manager.Call(EnableFilterHotSwap);
    RunConfigurators(configurators, manager);
    RegisterHttp(sources, config, manager, probes);
  }

  // ---------------------------------------------------------------------------
  // `routePlanner`

  datatype IpBlock = Ipv4Block(cidr: string) | Ipv6Block(cidr: string)

  datatype PlannerKind = RotatingIpRoutePlanner | BalancingIpRoutePlanner | NanoIpRoutePlanner | RotatingNanoIpRoutePlanner

  /** A route planner: its kind, its blocks, the addresses its filter rejects (none for nano-switch), and the search flag. */
  datatype RoutePlanner = RoutePlanner(kind: PlannerKind, blocks: seq<IpBlock>, excluded: Option<seq<string>>, searchTriggersFail: bool)

  /** The planner's address filter; the nano-switch planner has none and admits every address. */
  predicate Admits(p: RoutePlanner, ip: string) {
    p.excluded.None? || ip !in p.excluded.value
  }

  function InvalidBlock(block: string): string {
    "Invalid IP Block '" + block + "', make sure to provide a valid CIDR notation"
  }

  /** The block at `i` is the first that is neither IPv4 nor IPv6 CIDR, and `error` names it. */
  predicate FirstInvalidAt(blocks: seq<string>, isIpv4: string -> bool, isIpv6: string -> bool, i: int, error: string) {
    && 0 <= i < |blocks| && !isIpv4(blocks[i]) && !isIpv6(blocks[i]) && error == InvalidBlock(blocks[i])
    && forall j :: 0 <= j < i ==> isIpv4(blocks[j]) || isIpv6(blocks[j])
  }

  /** The IP blocks in order; the first that is neither IPv4 nor IPv6 CIDR is an error naming it. */
  function IpBlocksOf(blocks: seq<string>, isIpv4: string -> bool, isIpv6: string -> bool): (r: Result<seq<IpBlock>, string>)
    ensures r.Ok? <==> forall i :: 0 <= i < |blocks| ==> isIpv4(blocks[i]) || isIpv6(blocks[i])
    ensures r.Ok? ==> |r.value| == |blocks| && forall i :: 0 <= i < |blocks| ==>
      r.value[i] == (if isIpv4(blocks[i]) then Ipv4Block(blocks[i]) else Ipv6Block(blocks[i]))
    ensures r.Err? ==> exists i :: FirstInvalidAt(blocks, isIpv4, isIpv6, i, r.error)
  {
    if blocks == [] then Ok([])
    else
      var b := blocks[0];
      if !isIpv4(b) && !isIpv6(b) then
        assert FirstInvalidAt(blocks, isIpv4, isIpv6, 0, InvalidBlock(b));
        Err(InvalidBlock(b))
      else
        var rest := IpBlocksOf(blocks[1..], isIpv4, isIpv6);
        if rest.Err? then
          FirstInvalidShift(blocks, isIpv4, isIpv6, rest.error);
          Err(rest.error)
        else
          assert forall i :: 1 <= i < |blocks| ==> blocks[i] == blocks[1..][i - 1];
          Ok([if isIpv4(b) then Ipv4Block(b) else Ipv6Block(b)] + rest.value)
  }

  /** An invalid block after a valid first block is invalid in the whole list, one position later. */
  lemma FirstInvalidShift(blocks: seq<string>, isIpv4: string -> bool, isIpv6: string -> bool, error: string)
    requires blocks != [] && (isIpv4(blocks[0]) || isIpv6(blocks[0]))
    requires exists k :: FirstInvalidAt(blocks[1..], isIpv4, isIpv6, k, error)
    ensures exists i :: FirstInvalidAt(blocks, isIpv4, isIpv6, i, error)
  {
    var k :| FirstInvalidAt(blocks[1..], isIpv4, isIpv6, k, error);
    assert forall j :: 1 <= j < |blocks| ==> blocks[j] == blocks[1..][j - 1];
    assert FirstInvalidAt(blocks, isIpv4, isIpv6, k + 1, error);
  }

  /** The strategy, lower-cased and trimmed, names one of the four planner kinds. */
  function StrategyKind(strategy: string): (k: Option<PlannerKind>) {
    var s := Trim(ToLowerAscii(strategy));
    if s == "rotateonban" then Some(RotatingIpRoutePlanner)
    else if s == "loadbalance" then Some(BalancingIpRoutePlanner)
    else if s == "nanoswitch" then Some(NanoIpRoutePlanner)
    else if s == "rotatingnanoswitch" then Some(RotatingNanoIpRoutePlanner)
    else None
  }

  /** `routePlanner`: `null`, the planner, or the error it throws. */
  function RoutePlannerFor(ratelimit: Option<RateLimitConfig>, isIpv4: string -> bool, isIpv6: string -> bool): Result<Option<RoutePlanner>, string> {
    if ratelimit.None? || |ratelimit.value.ipBlocks| == 0 then Ok(None)
    else
      var r := ratelimit.value;
      match IpBlocksOf(r.ipBlocks, isIpv4, isIpv6)
      case Err(e) => Err(e)
      case Ok(blocks) =>
        match StrategyKind(r.strategy)
        case None => Err("Unknown strategy!")
        case Some(kind) =>
          Ok(Some(RoutePlanner(kind, blocks, if kind == NanoIpRoutePlanner then None else Some(r.excludedIps), r.searchTriggersFail)))
  }

  /**
   * No planner without a rate-limit block or with no IP blocks; otherwise an invalid
   * block is reported before the strategy is looked at, an unknown strategy is an
   * error, and a planner has the strategy's kind and one block per configured block.
   */
  lemma RoutePlannerOutcomes(ratelimit: Option<RateLimitConfig>, isIpv4: string -> bool, isIpv6: string -> bool)
    ensures var r := RoutePlannerFor(ratelimit, isIpv4, isIpv6);
      && (r == Ok(None) <==> ratelimit.None? || ratelimit.value.ipBlocks == [])
      && (ratelimit.Some? && ratelimit.value.ipBlocks != [] && IpBlocksOf(ratelimit.value.ipBlocks, isIpv4, isIpv6).Err? ==>
            r == Err(IpBlocksOf(ratelimit.value.ipBlocks, isIpv4, isIpv6).error))
      && (ratelimit.Some? && ratelimit.value.ipBlocks != [] && IpBlocksOf(ratelimit.value.ipBlocks, isIpv4, isIpv6).Ok? ==>
            (r == Err("Unknown strategy!") <==> StrategyKind(ratelimit.value.strategy).None?))
      && (r.Ok? && r.value.Some? ==>
            && Some(r.value.value.kind) == StrategyKind(ratelimit.value.strategy)
            && |r.value.value.blocks| == |ratelimit.value.ipBlocks|
            && r.value.value.searchTriggersFail == ratelimit.value.searchTriggersFail)
  {
  }

  /** The filter rejects exactly the excluded addresses, except on the nano-switch planner, which has none. */
  lemma PlannerFilter(ratelimit: Option<RateLimitConfig>, isIpv4: string -> bool, isIpv6: string -> bool, ip: string)
    requires RoutePlannerFor(ratelimit, isIpv4, isIpv6).Ok? && RoutePlannerFor(ratelimit, isIpv4, isIpv6).value.Some?
    ensures var p := RoutePlannerFor(ratelimit, isIpv4, isIpv6).value.value;
      (Admits(p, ip) <==> p.kind == NanoIpRoutePlanner || ip !in ratelimit.value.excludedIps)
  {
  }

  /** The default strategy `RotateOnBan` selects the rotating planner. */
  lemma DefaultStrategyRotates()
    ensures StrategyKind(DefaultRateLimitConfig.strategy) == Some(RotatingIpRoutePlanner)
  {
    var lowered := ToLowerAscii("RotateOnBan");
    assert lowered == "rotateonban" by {
      assert forall i :: 0 <= i < |lowered| ==> lowered[i] == ToLowerChar("RotateOnBan"[i]);
    }
    TrimUntouched(lowered);
  }
}
