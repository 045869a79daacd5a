/** The health summary the adapter reports to the host: configuration is
    checked first, then the Recording Service is probed; a failing probe is
    absorbed into the same "unavailable" record as a bad configuration. */
module Status {
  import opened Base

  datatype LiveTvServiceStatus = Ok | Unavailable

  datatype LiveTvServiceStatusInfo = LiveTvServiceStatusInfo(
    hasUpdateAvailable: bool,
    status: LiveTvServiceStatus,
    statusMessage: string,
    version: string)

  const ConnectedMessage: string := "Successfully connected to DVBViewer Recording Service API"
  const CannotConnectMessage: string := "Cannot connect to DVBViewer Recording Service - check your settings"
  const ProductLabel: string := "DVBViewer Live TV Plugin V"
  const VersionSeparator: string := " - "

  /** "DVBViewer Live TV Plugin V{pluginVersion}" */
  function PluginVersionLabel(pluginVersion: string): string
  {
    ProductLabel + pluginVersion
  }

  /** The record returned both for an invalid configuration and for a failed probe. */
  function UnavailableStatus(pluginVersion: string): LiveTvServiceStatusInfo
  {
    LiveTvServiceStatusInfo(false, Unavailable, CannotConnectMessage, PluginVersionLabel(pluginVersion))
  }

  /** GetStatusInfoAsync. `probe` is what the backend's status query would
      yield: the service version, or the exception it raises. */
  function GetStatusInfo(configValid: bool, pluginVersion: string, probe: Result<string>): (r: LiveTvServiceStatusInfo)
    ensures !r.hasUpdateAvailable
    ensures r.status == Ok <==> configValid && probe.Success?
    ensures r.status == Unavailable ==> r == UnavailableStatus(pluginVersion)
    ensures r.status == Ok ==> r.statusMessage == ConnectedMessage
    ensures r.status == Ok ==> r.version == PluginVersionLabel(pluginVersion) + VersionSeparator + probe.value
  {
    if !configValid then
      UnavailableStatus(pluginVersion)
    else
      match probe
      case Success(serviceVersion) =>
        LiveTvServiceStatusInfo(false, Ok, ConnectedMessage, PluginVersionLabel(pluginVersion) + VersionSeparator + serviceVersion)
      case Failure(_) =>
        UnavailableStatus(pluginVersion)
  }

  /** With an invalid configuration the probe's answer cannot influence the
      status: the backend is never consulted. */
  lemma InvalidConfigurationIgnoresProbe(pluginVersion: string, p1: Result<string>, p2: Result<string>)
    ensures GetStatusInfo(false, pluginVersion, p1) == GetStatusInfo(false, pluginVersion, p2)
    ensures GetStatusInfo(false, pluginVersion, p1).status == Unavailable
    ensures GetStatusInfo(false, pluginVersion, p1).statusMessage == CannotConnectMessage
  {
  }

  /** A failed probe is indistinguishable from an invalid configuration; no
      exception escapes. */
  lemma FailedProbeLooksLikeInvalidConfiguration(pluginVersion: string, f: Fault, p: Result<string>)
    ensures GetStatusInfo(true, pluginVersion, Failure(f)) == GetStatusInfo(false, pluginVersion, p)
  {
  }

  /** Both the plugin version and the service version can be read back from an
      Ok status's version label, so distinct service versions give distinct labels. */
  lemma OkVersionEmbedsBothVersions(pluginVersion: string, serviceVersion: string)
    ensures var v := GetStatusInfo(true, pluginVersion, Success(serviceVersion)).version;
      var k := |ProductLabel| + |pluginVersion|;
      |v| == k + |VersionSeparator| + |serviceVersion| &&
      v[..|ProductLabel|] == ProductLabel &&
      v[|ProductLabel|..k] == pluginVersion &&
      v[k..k + |VersionSeparator|] == VersionSeparator &&
      v[k + |VersionSeparator|..] == serviceVersion
  {
  }

  lemma {:induction false} OkVersionDeterminesServiceVersion(pluginVersion: string, s1: string, s2: string)
    requires GetStatusInfo(true, pluginVersion, Success(s1)).version == GetStatusInfo(true, pluginVersion, Success(s2)).version
    ensures s1 == s2
  {
    OkVersionEmbedsBothVersions(pluginVersion, s1);
    OkVersionEmbedsBothVersions(pluginVersion, s2);
  }
}
