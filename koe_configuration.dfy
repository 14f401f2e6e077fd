/**
 * The voice-client options (config/KoeConfiguration.js): the gateway version is
 * always V8, and a native UDP frame-poller factory is installed only when the
 * configured buffer duration is positive and the host's (architecture, operating
 * system) pair is one of the ten supported ones; a buffer shorter than 40 ms is
 * replaced by the default duration.
 *
 * Host detection, the factory's default duration and the CPU count are foreign;
 * they are parameters. Logging is not modelled.
 */
module KoeConfig {
  import opened Wrappers

  datatype Architecture = Arm | X86_64 | X86_32 | ArmV8_64 | OtherArchitecture(name: string)

  datatype OperatingSystem = Linux | LinuxMusl | Windows | Darwin | OtherOperatingSystem(name: string)

  datatype SystemType = SystemType(architectureType: Architecture, osType: OperatingSystem)

  datatype GatewayVersion = V8

  /** The UDP-queue frame poller factory with its buffer duration and thread count. */
  datatype FramePollerFactory = UdpQueueFramePollerFactory(bufferDuration: int, cpuCount: nat)

  /** The smallest buffer duration the native sender is given. */
  const MinimumBufferDuration: int := 40

  /** The hosts with native audio sending, in the order they are listed. */
  const SupportedSystems: seq<SystemType> := [
    SystemType(Arm, Linux),
    SystemType(X86_64, Linux),
    SystemType(X86_32, Linux),
    SystemType(ArmV8_64, Linux),
    SystemType(X86_64, LinuxMusl),
    SystemType(ArmV8_64, LinuxMusl),
    SystemType(X86_64, Windows),
    SystemType(X86_32, Windows),
    SystemType(X86_64, Darwin),
    SystemType(ArmV8_64, Darwin)
  ]

  /** `detectSystemType`: the detected pair, or `null` when either detection throws. */
  function DetectSystemType(architecture: Result<Architecture, string>, os: Result<OperatingSystem, string>): (r: Option<SystemType>)
    ensures r.Some? <==> architecture.Ok? && os.Ok?
    ensures r.Some? ==> r.value.architectureType == architecture.value && r.value.osType == os.value
  {
    if architecture.Err? || os.Err? then None else Some(SystemType(architecture.value, os.value))
  }

  /**
   * The `some` over the supported systems: a listed pair equals the detected one.
   * With no detected pair both sides compare against `undefined`, so nothing matches.
   */
  predicate NasSupported(supported: seq<SystemType>, detected: Option<SystemType>) {
    detected.Some? && exists i :: 0 <= i < |supported| && supported[i] == detected.value
  }

  /** The supported hosts described by operating system. */
  predicate SupportedByTable(s: SystemType) {
    match s.osType
    case Linux => s.architectureType in {Arm, X86_64, X86_32, ArmV8_64}
    case LinuxMusl => s.architectureType in {X86_64, ArmV8_64}
    case Windows => s.architectureType in {X86_64, X86_32}
    case Darwin => s.architectureType in {X86_64, ArmV8_64}
    case OtherOperatingSystem(_) => false
  }

  /** The listed pairs are exactly the hosts of the table. */
  lemma SupportedSystemsTable(s: SystemType)
    ensures NasSupported(SupportedSystems, Some(s)) <==> SupportedByTable(s)
  {
    if SupportedByTable(s) {
      var i := match (s.osType, s.architectureType)
        case (Linux, Arm) => 0
        case (Linux, X86_64) => 1
        case (Linux, X86_32) => 2
        case (Linux, ArmV8_64) => 3
        case (LinuxMusl, X86_64) => 4
        case (LinuxMusl, ArmV8_64) => 5
        case (Windows, X86_64) => 6
        case (Windows, X86_32) => 7
        case (Darwin, X86_64) => 8
        case (_, _) => 9;
      assert SupportedSystems[i] == s;
    }
  }

  /** A failed detection never enables native sending. */
  lemma UndetectedUnsupported(supported: seq<SystemType>)
    ensures !NasSupported(supported, None)
  {
  }

  /** `bufferDurationMs || DEFAULT_BUFFER_DURATION`: `null` and `0` use the default. */
  function BufferSize(bufferDurationMs: Option<int>, defaultBufferDuration: int): int {
    if bufferDurationMs.Some? && bufferDurationMs.value != 0 then bufferDurationMs.value else defaultBufferDuration
  }

  /** The frame-poller factory the options end up with. */
  function FramePollerFor(
    bufferDurationMs: Option<int>, supported: seq<SystemType>, detected: Option<SystemType>,
    defaultBufferDuration: int, cpuCount: nat, factoryThrows: bool): Option<FramePollerFactory>
  {
    var bufferSize := BufferSize(bufferDurationMs, defaultBufferDuration);
    if bufferSize <= 0 || !NasSupported(supported, detected) || factoryThrows then None
    else Some(UdpQueueFramePollerFactory(if bufferSize < MinimumBufferDuration then defaultBufferDuration else bufferSize, cpuCount))
  }

  /**
   * A factory is installed exactly when the buffer size is positive, the host is
   * supported and building the factory does not throw; its duration is the
   * configured one when that is at least 40 ms and the default otherwise.
   */
  lemma FramePollerConditions(
    bufferDurationMs: Option<int>, supported: seq<SystemType>, detected: Option<SystemType>,
    defaultBufferDuration: int, cpuCount: nat, factoryThrows: bool)
    ensures var f := FramePollerFor(bufferDurationMs, supported, detected, defaultBufferDuration, cpuCount, factoryThrows);
      var size := BufferSize(bufferDurationMs, defaultBufferDuration);
      && (f.Some? <==> size > 0 && NasSupported(supported, detected) && !factoryThrows)
      && (f.Some? ==> f.value.cpuCount == cpuCount)
      && (f.Some? && size >= MinimumBufferDuration ==> f.value.bufferDuration == size)
      && (f.Some? && size < MinimumBufferDuration ==> f.value.bufferDuration == defaultBufferDuration)
  {
  }

  /** An unset and a zero buffer duration behave alike. */
  lemma ZeroBufferIsUnset(supported: seq<SystemType>, detected: Option<SystemType>, defaultBufferDuration: int, cpuCount: nat, factoryThrows: bool)
    ensures FramePollerFor(Some(0), supported, detected, defaultBufferDuration, cpuCount, factoryThrows)
      == FramePollerFor(None, supported, detected, defaultBufferDuration, cpuCount, factoryThrows)
  {
  }

  /** The options the voice client is built with. */
  class KoeOptions {
    const gatewayVersion: GatewayVersion
    var framePollerFactory: Option<FramePollerFactory>

    constructor(gatewayVersion: GatewayVersion)
      ensures this.gatewayVersion == gatewayVersion && framePollerFactory == None
    {
      this.gatewayVersion := gatewayVersion;
      framePollerFactory := None;
    }

    method SetFramePollerFactory(factory: FramePollerFactory)
      modifies this`framePollerFactory
      ensures framePollerFactory == Some(factory)
    {
      framePollerFactory := Some(factory);
    }
  }

  class KoeConfiguration {
    /** `serverConfig.bufferDurationMs`. */
    const bufferDurationMs: Option<int>
    const supportedSystems: seq<SystemType>

    constructor(bufferDurationMs: Option<int>)
      ensures this.bufferDurationMs == bufferDurationMs && supportedSystems == SupportedSystems
    {
      this.bufferDurationMs := bufferDurationMs;
      supportedSystems := SupportedSystems;
    }

    /**
     * `getKoeOptions`: builds V8 options, then decides on the frame poller from the
     * buffer size and the detected host.
     */
    method GetKoeOptions(
      architecture: Result<Architecture, string>, os: Result<OperatingSystem, string>,
      defaultBufferDuration: int, cpuCount: nat, factoryThrows: bool) returns (options: KoeOptions)
      ensures fresh(options)
      ensures options.gatewayVersion == V8
      ensures options.framePollerFactory == FramePollerFor(
        bufferDurationMs, supportedSystems, DetectSystemType(architecture, os), defaultBufferDuration, cpuCount, factoryThrows)
    {
      options := new KoeOptions(V8);
      var systemType := DetectSystemType(architecture, os);
      var bufferSize := if bufferDurationMs.Some? && bufferDurationMs.value != 0 then bufferDurationMs.value else defaultBufferDuration;
      if bufferSize <= 0 {
        return;
      }
      var nasSupported := NasSupported(supportedSystems, systemType);
      if nasSupported {
        if bufferSize < MinimumBufferDuration {
          bufferSize := defaultBufferDuration;
        }
        if !factoryThrows {
          options.SetFramePollerFactory(UdpQueueFramePollerFactory(bufferSize, cpuCount));
        }
      }
    }
  }
}
