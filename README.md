# User-agent construction of the Google community integration

The integration tags every API client it builds with a version string and a
user-agent header, so that the service can attribute traffic to a library
version and, optionally, to a managed agent engine. `get_user_agent`
(`_utils.py`) builds the pair in four steps:

1. the installed version of the package `langchain-google-community`, or
   `"0.0.0"` when the package metadata is missing;
2. `-<module>` appended when the caller's module is truthy (neither `None`
   nor `""`);
3. `+remote_reasoning_engine` appended when the environment variable
   `GOOGLE_CLOUD_AGENT_ENGINE_ID` is truthy;
4. the header `langchain-google-community/<version>`.

`get_client_info` wraps the pair into a client-info record.

The model (module `Utils` in `utils.dfy`) is a set of total, pure functions.
The two outside inputs are parameters: `installed : Option<string>` is the
result of the metadata lookup, with `None` for "package not found", and
`agentEngineId : Option<string>` is the value of the environment variable,
with `None` when it is unset. The constant `TelemetryEnvVariableName` gives
the name of that variable. Python truthiness of `Optional[str]` is the
predicate `Truthy`.

The `moduleName` parameter is `None` also when the caller omits the
argument, so `get_user_agent()` is `GetUserAgent(None, installed,
agentEngineId)` and `get_client_info()` is `GetClientInfo(None, installed,
agentEngineId)`.

Module `UserAgentHeader` (`header.dfy`) splits a user-agent string at its
first `/` (`ParseUserAgent`). It is the inverse of step 4 and applies to the
`user_agent` string that `get_user_agent` returns: that string always splits
back into the package name and the version unchanged. `Wrappers` (`wrappers.dfy`) holds `Option`.

## Model

| member | source | states |
|---|---|---|
| Utils.GetUserAgent | libs/community/langchain_google_community/_utils.py:13-34 | the header always starts with `langchain-google-community/`, and what follows that prefix is exactly the returned version |
| Utils.GetClientInfo | libs/community/langchain_google_community/_utils.py:37-50 | the record's user agent is the prefix followed by the record's client library version |
| Utils.VersionShape | libs/community/langchain_google_community/_utils.py:22-30 | the version is the base version, then `-m` if the module `m` is truthy, then `+remote_reasoning_engine` if the telemetry variable is truthy, in that order |
| Utils.MissingPackageUsesDefault | libs/community/langchain_google_community/_utils.py:22-25 | a failed metadata lookup gives the same pair as an installed version `0.0.0`, and the version then starts with `0.0.0`; the result is defined for every input |
| Utils.PlainVersionIsBase | libs/community/langchain_google_community/_utils.py:26-34 | with no truthy module and no truthy telemetry variable, the pair is (base version, `langchain-google-community/` + base version) |
| Utils.EmptyModuleIsAbsent | libs/community/langchain_google_community/_utils.py:26-28 | module `""` and an absent module give the same pair |
| Utils.ModuleIsJoined | libs/community/langchain_google_community/_utils.py:26-28 | a non-empty module `m` makes the version start with `base + "-" + m`, and without telemetry the version is exactly that |
| Utils.TelemetryTagAppended | libs/community/langchain_google_community/_utils.py:29-30 | with a truthy telemetry variable the version is the untagged version plus `+remote_reasoning_engine`, appended once after the module join, so it ends with that tag |
| Utils.EmptyTelemetryIsUnset | libs/community/langchain_google_community/_utils.py:29 | a telemetry variable set to `""` gives the same pair as an unset one |
| Utils.TelemetryValueIrrelevant | libs/community/langchain_google_community/_utils.py:29-30 | only the truthiness of the telemetry variable matters: two values of equal truthiness give the same pair |
| Utils.ClientInfoMatchesUserAgent | libs/community/langchain_google_community/_utils.py:46-50 | the record's `client_library_version` and `user_agent` are the first and second components of the user-agent pair for the same inputs |
| Utils.ModuleDeterminesVersion | libs/community/langchain_google_community/_utils.py:26-28 | with the installed version and telemetry fixed, two modules give the same pair if and only if they are both falsy or are the same non-empty string |
| Utils.TagIndistinguishableFromModule | libs/community/langchain_google_community/_utils.py:26-30 | for every non-empty module `m` and every truthy telemetry value, module `m + "+remote_reasoning_engine"` without telemetry gives the same pair as module `m` with telemetry, so the tag alone does not prove the telemetry variable was set |
| UserAgentHeader.UserAgentRoundTrip | libs/community/langchain_google_community/_utils.py:31-34 | splitting any user-agent string built at line 33 at its first `/` gives back the package name `langchain-google-community` and the returned version |

## Left out

- The metadata lookup `metadata.version(...)` is a call into the package registry; only its result is modelled, as `installed`.
- Reading `os.environ` is process I/O; only the variable's value is modelled, as `agentEngineId`.
- `ClientInfo` of the Google API core library is a foreign class; a two-field datatype with `client_library_version` and `user_agent` stands in for it, and its other fields and defaults are not modelled.
- Python would also accept a non-string truthy `module` and format it with `str()`; the model follows the declared type `Optional[str]`.
- How the SDK turns the client-info record into the header it sends, and how a service parses that header, is not modelled; `ParseUserAgent` applies to the `user_agent` string alone.
- Dafny's `char` is a Unicode scalar value, so Python strings holding lone surrogates (possible in `os.environ` values and in caller-supplied modules) are not representable; the model only concatenates and tests emptiness, so nothing else depends on this.
- There is no shared state and no concurrency to model.
