/**
 * The default plugin-info modifier (io/DefaultAudioPluginInfoModifier.js): the
 * probe info of a media container is its probe's name, followed by `|` and the
 * probe parameters when there are any; local-file and HTTP tracks expose that
 * probe info under the key `probeInfo` of their plugin info.
 *
 * The container track factory of a track is a foreign object: a track carries
 * the probe info its factory reports.
 */
module PluginInfo {
  import opened Wrappers
  import opened JsText

  /** A media container probe together with its parameters. */
  datatype ProbeDescriptor = ProbeDescriptor(probeName: string, parameters: Option<string>)

  /** `probeInfo`: the probe name, then `|` and the parameters when they are truthy. */
  function ProbeInfo(d: ProbeDescriptor): (s: string)
    ensures StartsWith(s, d.probeName)
    ensures Truthy(d.parameters) ==> s == d.probeName + "|" + d.parameters.value
    ensures !Truthy(d.parameters) ==> s == d.probeName
  {
    d.probeName + (if Truthy(d.parameters) then "|" + d.parameters.value else "")
  }

  /** The position of the first `|`, if any. */
  function FirstBar(s: string): (k: Option<nat>)
    ensures k.Some? ==> k.value < |s| && s[k.value] == '|' && '|' !in s[..k.value]
    ensures k.None? ==> '|' !in s
  {
    if s == [] then None
    else if s[0] == '|' then Some(0)
    else
      var k := FirstBar(s[1..]);
      if k.Some? then
        assert s[..k.value + 1] == [s[0]] + s[1..][..k.value];
        Some(k.value + 1)
      else None
  }

  /** Reads a probe info back: the name runs up to the first `|`, the parameters are the rest. */
  function ParseProbeInfo(s: string): ProbeDescriptor {
    match FirstBar(s)
    case None => ProbeDescriptor(s, None)
    case Some(k) => ProbeDescriptor(s[..k], Some(s[k + 1..]))
  }

  lemma {:induction false} FirstBarAfter(name: string, rest: string)
    requires '|' !in name
    ensures FirstBar(name + "|" + rest) == Some(|name|)
  {
    if name != [] {
      assert (name + "|" + rest)[1..] == name[1..] + "|" + rest;
      FirstBarAfter(name[1..], rest);
    }
  }

  /**
   * A probe name without `|` and parameters that are absent or non-empty are read
   * back from the probe info unchanged.
   */
  lemma ProbeInfoRoundTrip(d: ProbeDescriptor)
    requires '|' !in d.probeName && d.parameters != Some("")
    ensures ParseProbeInfo(ProbeInfo(d)) == d
  {
    var s := ProbeInfo(d);
    if d.parameters.Some? {
      FirstBarAfter(d.probeName, d.parameters.value);
      assert s[..|d.probeName|] == d.probeName;
      assert s[|d.probeName| + 1..] == d.parameters.value;
    } else {
      assert FirstBar(s) == None;
    }
  }

  /** Empty parameters are rendered as no parameters at all. */
  lemma EmptyParametersDropped(name: string)
    ensures ProbeInfo(ProbeDescriptor(name, Some(""))) == ProbeInfo(ProbeDescriptor(name, None)) == name
  {
  }

  /** The audio tracks the modifier distinguishes. */
  datatype AudioTrack =
    | LocalAudioTrack(containerProbeInfo: string)
    | HttpAudioTrack(containerProbeInfo: string)
    | OtherAudioTrack

  /** The key the plugin info uses for the container probe. */
  const ProbeInfoKey: string := "probeInfo"

  /** The single-entry object `{ [key]: value }` when both are truthy, otherwise `null`. */
  function Entry(key: string, value: string): (r: Option<map<string, string>>)
    ensures r.Some? <==> key != "" && value != ""
    ensures r.Some? ==> r.value.Keys == {key} && r.value[key] == value
  {
    if key != "" && value != "" then Some(map[key := value]) else None
  }

  /**
   * `modifyAudioTrackPluginInfo` as written: for a track that is neither local nor
   * HTTP the switch yields `null`, and destructuring it throws a `TypeError`.
   */
  function ModifyAudioTrackPluginInfoAsWritten(track: AudioTrack): Result<Option<map<string, string>>, string> {
    match track
    case LocalAudioTrack(info) => Ok(Entry(ProbeInfoKey, info))
    case HttpAudioTrack(info) => Ok(Entry(ProbeInfoKey, info))
    case OtherAudioTrack => Err("Cannot destructure property 'key' of null")
  }

  /** Any other track makes the modifier as written throw instead of answering `null`. */
  lemma OtherTrackThrows()
    ensures ModifyAudioTrackPluginInfoAsWritten(OtherAudioTrack).Err?
  {
  }

  /**
   * `modifyAudioTrackPluginInfo` as intended: local and HTTP tracks get
   * `{ probeInfo: ... }` when their probe info is non-empty; every other case is `null`.
   */
  function ModifyAudioTrackPluginInfo(track: AudioTrack): (r: Option<map<string, string>>)
    ensures r.Some? <==> (track.LocalAudioTrack? || track.HttpAudioTrack?) && track.containerProbeInfo != ""
    ensures r.Some? ==> r.value == map[ProbeInfoKey := track.containerProbeInfo]
  {
    match track
    case LocalAudioTrack(info) => Entry(ProbeInfoKey, info)
    case HttpAudioTrack(info) => Entry(ProbeInfoKey, info)
    case OtherAudioTrack => None
  }

  /** On the tracks the source handles, the intended modifier agrees with the one written. */
  lemma ModifierAgreesOnHandledTracks(track: AudioTrack)
    requires !track.OtherAudioTrack?
    ensures ModifyAudioTrackPluginInfoAsWritten(track) == Ok(ModifyAudioTrackPluginInfo(track))
  {
  }

  /** A local track whose container was probed with parameters reports `name|parameters`. */
  lemma LocalTrackProbeInfo(d: ProbeDescriptor)
    requires d.probeName != "" || Truthy(d.parameters)
    ensures ModifyAudioTrackPluginInfo(LocalAudioTrack(ProbeInfo(d))) == Some(map[ProbeInfoKey := ProbeInfo(d)])
  {
  }
}
