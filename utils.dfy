/**
  The version string and user-agent header that the Google community
  integration attaches to the API clients it builds.

  The two outside inputs of the source are parameters here:
  - `installed` is the result of looking up the installed version of the
    package `langchain-google-community` in the package metadata registry;
    `None` stands for the registry raising "package not found";
  - `agentEngineId` is the value of the environment variable
    `GOOGLE_CLOUD_AGENT_ENGINE_ID`, `None` when it is unset.
*/
module Utils {
  import opened Wrappers

  /** The tag appended when the code runs on a managed agent engine. */
  const TelemetryTag: string := "remote_reasoning_engine"
  /** The environment variable whose value `agentEngineId` stands for. */
  const TelemetryEnvVariableName: string := "GOOGLE_CLOUD_AGENT_ENGINE_ID"
  /** The distribution whose version is looked up; also the product token of the header. */
  const PackageName: string := "langchain-google-community"
  /** The version used when the package metadata is missing. */
  const DefaultVersion: string := "0.0.0"

  /** The text that the telemetry step appends to the version: `+remote_reasoning_engine`. */
  const TelemetrySuffix: string := "+" + TelemetryTag
  /** The text in front of the version in the user-agent header: `langchain-google-community/`. */
  const UserAgentPrefix: string := PackageName + "/"

  /** Python truthiness of an `Optional[str]`: `None` and `""` are false. */
  predicate Truthy(o: Option<string>) {
    o.Some? && o.value != ""
  }

  predicate StartsWith(s: string, p: string) {
    |p| <= |s| && s[..|p|] == p
  }

  predicate EndsWith(s: string, p: string) {
    |p| <= |s| && s[|s| - |p|..] == p
  }

  /** The record handed to the SDK's client constructors. */
  datatype ClientInfo = ClientInfo(client_library_version: string, user_agent: string)

  /** Step 1: the installed version, or the default when the lookup fails. */
  function BaseVersion(installed: Option<string>): string {
    match installed
    case Some(v) => v
    case None => DefaultVersion
  }

  /** Step 2: the base version, joined with the module by a hyphen when the module is truthy. */
  function WithModule(base: string, moduleName: Option<string>): string {
    if Truthy(moduleName) then base + "-" + moduleName.value else base
  }

  /** Step 3: the telemetry tag, appended when the environment variable is truthy. */
  function WithTelemetry(version: string, agentEngineId: Option<string>): string {
    if Truthy(agentEngineId) then version + TelemetrySuffix else version
  }

  /** `get_user_agent`: the pair (client library version, user agent). */
  function GetUserAgent(moduleName: Option<string>, installed: Option<string>, agentEngineId: Option<string>)
    : (r: (string, string))
    ensures StartsWith(r.1, UserAgentPrefix)
    ensures r.1[|UserAgentPrefix|..] == r.0
  {
    var version := WithTelemetry(WithModule(BaseVersion(installed), moduleName), agentEngineId);
    (version, UserAgentPrefix + version)
  }

  /** `get_client_info`: the same pair as a client-info record. */
  function GetClientInfo(moduleName: Option<string>, installed: Option<string>, agentEngineId: Option<string>)
    : (info: ClientInfo)
    ensures StartsWith(info.user_agent, UserAgentPrefix)
    ensures info.user_agent == UserAgentPrefix + info.client_library_version
  {
    var (version, userAgent) := GetUserAgent(moduleName, installed, agentEngineId);
    ClientInfo(version, userAgent)
  }

  /** The version in one formula: base, optional module part, optional telemetry part. */
  lemma VersionShape(moduleName: Option<string>, installed: Option<string>, agentEngineId: Option<string>)
    ensures GetUserAgent(moduleName, installed, agentEngineId).0
         == BaseVersion(installed)
          + (if Truthy(moduleName) then "-" + moduleName.value else "")
          + (if Truthy(agentEngineId) then TelemetrySuffix else "")
  {
    var base := BaseVersion(installed);
    var m := if Truthy(moduleName) then "-" + moduleName.value else "";
    var t := if Truthy(agentEngineId) then TelemetrySuffix else "";
    assert WithModule(base, moduleName) == base + m;
    assert WithTelemetry(base + m, agentEngineId) == base + m + t;
  }

  /** A missing package behaves exactly as if version "0.0.0" were installed; nothing fails. */
  lemma MissingPackageUsesDefault(moduleName: Option<string>, agentEngineId: Option<string>)
    ensures GetUserAgent(moduleName, None, agentEngineId) == GetUserAgent(moduleName, Some("0.0.0"), agentEngineId)
    ensures StartsWith(GetUserAgent(moduleName, None, agentEngineId).0, "0.0.0")
  {
    VersionShape(moduleName, None, agentEngineId);
  }

  /** When neither the module nor the telemetry variable is truthy, the version is the base version. */
  lemma PlainVersionIsBase(moduleName: Option<string>, installed: Option<string>, agentEngineId: Option<string>)
    requires !Truthy(moduleName) && !Truthy(agentEngineId)
    ensures GetUserAgent(moduleName, installed, agentEngineId)
         == (BaseVersion(installed), "langchain-google-community/" + BaseVersion(installed))
  {
    assert UserAgentPrefix == "langchain-google-community/";
  }

  /** An absent module and an empty module give the same result. */
  lemma EmptyModuleIsAbsent(installed: Option<string>, agentEngineId: Option<string>)
    ensures GetUserAgent(Some(""), installed, agentEngineId) == GetUserAgent(None, installed, agentEngineId)
  {
  }

  /** A non-empty module `m` turns the base version into `base + "-" + m`, before any telemetry part. */
  lemma ModuleIsJoined(m: string, installed: Option<string>, agentEngineId: Option<string>)
    requires m != ""
    ensures var base := BaseVersion(installed);
      var version := GetUserAgent(Some(m), installed, agentEngineId).0;
      StartsWith(version, base + "-" + m)
      && (!Truthy(agentEngineId) ==> version == base + "-" + m)
  {
    var base := BaseVersion(installed);
    var version := GetUserAgent(Some(m), installed, agentEngineId).0;
    VersionShape(Some(m), installed, agentEngineId);
    assert version[..|base + "-" + m|] == base + "-" + m;
  }

  /** With a truthy telemetry variable the version is the untagged version plus "+remote_reasoning_engine", once. */
  lemma TelemetryTagAppended(moduleName: Option<string>, installed: Option<string>, agentEngineId: Option<string>)
    requires Truthy(agentEngineId)
    ensures var version := GetUserAgent(moduleName, installed, agentEngineId).0;
      var untagged := GetUserAgent(moduleName, installed, None).0;
      version == untagged + TelemetrySuffix
      && EndsWith(version, TelemetrySuffix)
  {
    var version := GetUserAgent(moduleName, installed, agentEngineId).0;
    var untagged := GetUserAgent(moduleName, installed, None).0;
    assert version == untagged + TelemetrySuffix;
    assert version[|version| - |TelemetrySuffix|..] == TelemetrySuffix;
  }

  /** An empty telemetry variable behaves exactly as an unset one. */
  lemma EmptyTelemetryIsUnset(moduleName: Option<string>, installed: Option<string>)
    ensures GetUserAgent(moduleName, installed, Some("")) == GetUserAgent(moduleName, installed, None)
  {
  }

  /** The telemetry variable is read only for its truthiness: any two truthy values give the same result. */
  lemma TelemetryValueIrrelevant(moduleName: Option<string>, installed: Option<string>, a: Option<string>, b: Option<string>)
    requires Truthy(a) == Truthy(b)
    ensures GetUserAgent(moduleName, installed, a) == GetUserAgent(moduleName, installed, b)
  {
  }

  /** The client-info record carries exactly the two components of the user-agent pair. */
  lemma ClientInfoMatchesUserAgent(moduleName: Option<string>, installed: Option<string>, agentEngineId: Option<string>)
    ensures var info := GetClientInfo(moduleName, installed, agentEngineId);
      var pair := GetUserAgent(moduleName, installed, agentEngineId);
      info.client_library_version == pair.0 && info.user_agent == pair.1
  {
  }

  /**
    For a fixed installed version and telemetry setting, two modules give the
    same pair exactly when they are equal up to falsiness (`None` and `""` alike).
  */
  lemma ModuleDeterminesVersion(m1: Option<string>, m2: Option<string>, installed: Option<string>, agentEngineId: Option<string>)
    ensures GetUserAgent(m1, installed, agentEngineId) == GetUserAgent(m2, installed, agentEngineId)
        <==> (Truthy(m1) == Truthy(m2) && (Truthy(m1) ==> m1.value == m2.value))
  {
    var base := BaseVersion(installed);
    var v1 := WithModule(base, m1);
    var v2 := WithModule(base, m2);
    var t := if Truthy(agentEngineId) then TelemetrySuffix else "";
    assert WithTelemetry(v1, agentEngineId) == v1 + t;
    assert WithTelemetry(v2, agentEngineId) == v2 + t;
    if GetUserAgent(m1, installed, agentEngineId) == GetUserAgent(m2, installed, agentEngineId) {
      assert v1 + t == v2 + t;
      assert |v1| == |v2|;
      assert v1 == (v1 + t)[..|v1|] == (v2 + t)[..|v2|] == v2;
      if Truthy(m1) && Truthy(m2) {
        assert m1.value == v1[|base| + 1..] == v2[|base| + 1..] == m2.value;
      }
    }
  }

  /**
    The version alone does not tell the telemetry tag from a module that ends
    in the same text: for every non-empty module `m` and every truthy telemetry
    value, module `m + "+remote_reasoning_engine"` without telemetry yields the
    same pair as module `m` with telemetry.
  */
  lemma TagIndistinguishableFromModule(m: string, installed: Option<string>, agentEngineId: Option<string>)
    requires m != "" && Truthy(agentEngineId)
    ensures GetUserAgent(Some(m + TelemetrySuffix), installed, None)
         == GetUserAgent(Some(m), installed, agentEngineId)
  {
    var base := BaseVersion(installed);
    assert base + "-" + m + TelemetrySuffix == base + "-" + (m + TelemetrySuffix);
  }
}
