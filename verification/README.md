# Zebrunner agent core in Dafny

This project models the configuration and reporting core of the Zebrunner Java agent (`java-core`) as pure Dafny functions, and proves properties of the model.

- **Configuration provider chain** (`configuration.dfy`, module `Configuration`):
  - An ordered list of providers is consulted. Each provider's configuration is normalised.
  - The configurations are merged first-wins on `enabled`, hostname, access token and run id.
  - A provider that throws is skipped. The loop stops early once one provider supplies everything.
  - The mandatory fields are checked at the end.
- **YAML provider** (`yaml_provider.dfy`, module `YamlProvider`):
  - the dotted-key walk through a nested YAML document;
  - validation and parsing of `reporting.enabled`;
  - the precedence of `agent.yaml` over `agent.yml`;
  - the provider's partial configuration.
- **Reporting API client** (`api_client.dfy`, module `ApiClient`): each request is a value made of a method, a route template with its parameters, headers, query parameters and a body. This covers:
  - the endpoint URL format;
  - the default headers;
  - the screenshot header override;
  - the comma-joined `tests` and `statuses` query parameters of the rerun lookup.
- **Test-run registrar** (`registrar.dfy`, module `Registrar`):
  - the choice between the reporting, no-op and stdout strategies;
  - the lifecycle contract of `startTest` and `finishTest`. A test's finish is registered under the test id its start received, keyed by the caller's `uniqueId`.

Two support modules hold the Java library behaviour the code depends on:
- `wrappers.dfy`: `Option` and `Result`.
- `text.dfy`:
  - `String.isBlank` and `Character.isWhitespace`;
  - `String.split` on one character, including its dropping of trailing empty pieces;
  - `Collectors.joining`;
  - `Long.toString`;
  - `equalsIgnoreCase` against a lower-case ASCII literal.

`ReportingConfiguration.isEnabled()` is not part of this model. Every member that depends on it takes it as a parameter `isEnabled: Option<bool> -> bool`. Each provider is represented by the outcome of its one `getConfiguration` call: a configuration, or `Failed` when it throws `TestAgentException`.

The server-section normaliser is a parameter of the chain: `AsWritten` models the source line by line, and `PerField` is the corrected reading (see Findings). Every chain property below holds in both modes unless its row says otherwise.

## Model

Source paths are relative to the repository root.

| member | source | states |
|---|---|---|
| Configuration.NewChain | src/main/java/com/zebrunner/agent/core/config/ConfigurationProviderChain.java:14-19 | The chain is built exactly when the provider list is present and non-empty. A built chain keeps the providers in order. A null or empty list is an error. |
| Configuration.NormalizeServerAsWritten | src/main/java/com/zebrunner/agent/core/config/ConfigurationProviderChain.java:62-76 | As written, with the token read from the hostname field: a blank hostname clears both hostname and access token. Otherwise the server section is returned unchanged, a blank access token included. |
| Configuration.NormalizeServerPerField | src/main/java/com/zebrunner/agent/core/config/ConfigurationProviderChain.java:62-76 | The intended normaliser. Hostname and access token are each unset exactly when missing or blank; a kept value is unchanged; no blank value survives. |
| Configuration.Normalize | src/main/java/com/zebrunner/agent/core/config/ConfigurationProviderChain.java:57-88 | Both sections are present afterwards. A missing server section becomes an empty one; a present one goes through the server normaliser. A blank run id becomes unset and a non-blank one is kept. `enabled` and the project key are untouched. |
| Configuration.NormalizeRerun | src/main/java/com/zebrunner/agent/core/config/ConfigurationProviderChain.java:78-88 | A missing rerun section becomes an empty one. The run id is unset exactly when it was missing or blank; a kept run id is unchanged, so no blank run id survives. |
| Configuration.PerFieldLeavesNoBlank | src/main/java/com/zebrunner/agent/core/config/ConfigurationProviderChain.java:62-88 | With the per-field normaliser, no hostname, access token or run id is blank after normalisation. |
| Configuration.NormalizeIdempotent | src/main/java/com/zebrunner/agent/core/config/ConfigurationProviderChain.java:57-88 | In either mode, normalising an already normalised configuration changes nothing. |
| Configuration.Merge | src/main/java/com/zebrunner/agent/core/config/ConfigurationProviderChain.java:96-113 | A field already set in the accumulator is never overwritten. An unset field takes the provider's value. The project key is not merged, and both sections stay present. |
| Configuration.MergeAssociative | src/main/java/com/zebrunner/agent/core/config/ConfigurationProviderChain.java:96-113 | First-wins merging is associative. Merging providers one at a time into the accumulator therefore equals merging them among themselves first. |
| Configuration.MergeIntoCompleteIsIdentity | src/main/java/com/zebrunner/agent/core/config/ConfigurationProviderChain.java:96-113 | Once every merged field is set, further merges change nothing. |
| Configuration.AreMandatoryArgsSet | src/main/java/com/zebrunner/agent/core/config/ConfigurationProviderChain.java:115-120 | The final check passes exactly when reporting reads as disabled or both hostname and access token are set; the run id is not required, so a configuration with every field set always passes. |
| Configuration.AreAllArgsSet | src/main/java/com/zebrunner/agent/core/config/ConfigurationProviderChain.java:122-131 | The early-stop test passes exactly when reporting reads as disabled or `enabled`, hostname, access token and run id are all set. It is stricter than the final check, and a configuration that leaves `enabled` unset, while unset reads as enabled, never passes it. |
| Configuration.Assemble | src/main/java/com/zebrunner/agent/core/config/ConfigurationProviderChain.java:41-55 | The assembly loop never unsets or replaces a field the accumulator already holds, and it keeps both sections. |
| Configuration.AssembleTakesFirstSet | src/main/java/com/zebrunner/agent/core/config/ConfigurationProviderChain.java:35-55 | Reference reading of the loop: each of `enabled`, hostname, access token and run id is the value of the first configuration that sets it. The configurations run from the accumulator through the normalised configurations of the providers actually consulted. A higher-priority value always takes precedence. |
| Configuration.FailedProviderIsSkipped | src/main/java/com/zebrunner/agent/core/config/ConfigurationProviderChain.java:42-54 | A provider that throws contributes nothing, and the providers after it are still consulted. The result equals that of the list without it. |
| Configuration.EarlyStopIgnoresLowerPriority | src/main/java/com/zebrunner/agent/core/config/ConfigurationProviderChain.java:42-50 | Once a provider's own normalised configuration satisfies `areAllArgsSet`, replacing every lower-priority provider by any others leaves the result unchanged. |
| Configuration.GetConfiguration | src/main/java/com/zebrunner/agent/core/config/ConfigurationProviderChain.java:21-33 | A returned configuration has both sections, has no project key, and is either disabled or carries both hostname and access token. |
| Configuration.GetConfigurationOutcome | src/main/java/com/zebrunner/agent/core/config/ConfigurationProviderChain.java:21-33 | `getConfiguration` returns normally exactly in two cases: the first `enabled` value set by a consulted provider reads as disabled, or some consulted provider sets a hostname and some sets an access token. On success each field is that first-set value; otherwise it throws. |
| Configuration.DisabledNeverFails | src/main/java/com/zebrunner/agent/core/config/ConfigurationProviderChain.java:115-120 | If the highest-priority `enabled` value reads as disabled, the chain succeeds whatever else is missing. |
| Configuration.TwoProviderScenario | src/main/java/com/zebrunner/agent/core/config/ConfigurationProviderChain.java:41-113 | Assuming an unset `enabled` reads as enabled (otherwise the first provider alone already passes the early-stop test and the second is never consulted): the first provider supplies only a token. The second supplies a hostname, another token and a blank run id. The result takes the hostname from the second provider and the token from the first, and the run id is unset. |
| Configuration.BlankTokenSurvivesAsWritten | src/main/java/com/zebrunner/agent/core/config/ConfigurationProviderChain.java:66-74 | As written, an enabled configuration with hostname `h.test` and access token `"  "` passes the mandatory check and keeps the blank token. |
| Configuration.BlankHostnameDropsTokenAsWritten | src/main/java/com/zebrunner/agent/core/config/ConfigurationProviderChain.java:66-74 | As written, a blank hostname also discards a non-blank access token. |
| Configuration.BlankTokenRejectedPerField | src/main/java/com/zebrunner/agent/core/config/ConfigurationProviderChain.java:66-74 | With the per-field normaliser, the same blank-token input fails the mandatory check. |
| Configuration.PerFieldResultHasNoBlank | src/main/java/com/zebrunner/agent/core/config/ConfigurationProviderChain.java:62-88 | With the per-field normaliser, a successful configuration never carries a blank hostname, access token or run id. |
| YamlProvider.GetProperty | src/main/java/com/zebrunner/agent/core/config/YamlConfigurationProvider.java:70-93 | A key yields a value exactly when its dot-separated segments lead, through mappings, to a scalar, and the value is that scalar's text. A key that splits into no segments yields nothing. |
| YamlProvider.Walk | src/main/java/com/zebrunner/agent/core/config/YamlConfigurationProvider.java:70-93 | The dotted-key walk yields a value only when the path is non-empty and its first segment is a top-level key. |
| YamlProvider.WalkFindsScalarAt | src/main/java/com/zebrunner/agent/core/config/YamlConfigurationProvider.java:70-93 | `getProperty` yields a value exactly when every segment but the last resolves to a map and the last resolves to a non-map value. The value yielded is that node's string form. |
| YamlProvider.AtPrefix | src/main/java/com/zebrunner/agent/core/config/YamlConfigurationProvider.java:75-81 | Resolving a path is resolving a prefix and then the rest from the node reached, which is how the loop narrows `slice`. |
| YamlProvider.MissingSegmentYieldsNothing | src/main/java/com/zebrunner/agent/core/config/YamlConfigurationProvider.java:88-90 | A segment missing from the map reached so far yields null. |
| YamlProvider.LeafBeforeLastYieldsNothing | src/main/java/com/zebrunner/agent/core/config/YamlConfigurationProvider.java:82-86 | A non-map value reached before the last segment yields null. |
| YamlProvider.MappingAtLastYieldsNothing | src/main/java/com/zebrunner/agent/core/config/YamlConfigurationProvider.java:79-92 | A path whose last segment resolves to a map yields null. |
| YamlProvider.HostnameKeySegments | src/main/java/com/zebrunner/agent/core/config/YamlConfigurationProvider.java:73 | `reporting.server.hostname` splits on `.` into `reporting`, `server`, `hostname`. The other four key lemmas state the same for their keys. |
| YamlProvider.ParseEnabled | src/main/java/com/zebrunner/agent/core/config/YamlConfigurationProvider.java:34-41 | Failure happens exactly when a value is present that equals neither `true` nor `false` ignoring case, and its message is "YAML configuration is malformed, skipping". An absent value parses to unset. A parsed boolean is the one whose name the value matches ignoring case. |
| YamlProvider.ParseEnabledAnyCase | src/main/java/com/zebrunner/agent/core/config/YamlConfigurationProvider.java:34-41 | `true` or `false` in any mix of letter cases parses to the matching boolean. |
| YamlProvider.LoadYaml | src/main/java/com/zebrunner/agent/core/config/YamlConfigurationProvider.java:53-67 | `agent.yaml` takes precedence over `agent.yml`. The first resource found is used, and with neither there is no document. |
| YamlProvider.FirstExisting | src/main/java/com/zebrunner/agent/core/config/YamlConfigurationProvider.java:55-61 | The index chosen is that of the first file name that exists, or the end of the list when none does. |
| YamlProvider.GetConfiguration | src/main/java/com/zebrunner/agent/core/config/YamlConfigurationProvider.java:22-51 | With no file, the result has every field unset and empty sections. With a file, it fails exactly when `enabled` is malformed. Otherwise `enabled` is the parsed `reporting.enabled` value (unset when absent), and the project key, hostname, access token and run id are the values found under their dotted keys. |
| YamlProvider.AsChainOutcome | src/main/java/com/zebrunner/agent/core/config/YamlConfigurationProvider.java:37-39 | As one link of the chain, the provider fails exactly when it throws, and otherwise provides its configuration. |
| YamlProvider.RenderRoundTrip | src/main/java/com/zebrunner/agent/core/config/YamlConfigurationProvider.java:22-51 | Any configuration with both sections, written as an `agent.yaml` document under the five dotted keys, reads back unchanged, whatever `agent.yml` holds. |
| ApiClient.Url | src/main/java/com/zebrunner/agent/core/rest/ZebrunnerApiClient.java:46-48 | An endpoint URL is the host, then `/api/reporting/v1/`, then the endpoint path. |
| ApiClient.NewClient | src/main/java/com/zebrunner/agent/core/rest/ZebrunnerApiClient.java:50-57 | The client's default headers are one `Authorization: Bearer <token>`, one `Content-Type: application/json` and one `Accept: application/json`, and nothing else. |
| ApiClient.AddHeader | src/main/java/com/zebrunner/agent/core/rest/ZebrunnerApiClient.java:103 | Adding a header appends one value under its name and leaves every other name's values unchanged. |
| ApiClient.ReplaceHeader | src/main/java/com/zebrunner/agent/core/rest/ZebrunnerApiClient.java:100 | Replacing a header leaves exactly the one new value under its name and leaves every other name's values unchanged. |
| ApiClient.RemoveHeader | src/main/java/com/zebrunner/agent/core/rest/ZebrunnerApiClient.java:100 | Removing a header leaves no value under its name and every other name's values unchanged. |
| ApiClient.RegisterTestRunStart | src/main/java/com/zebrunner/agent/core/rest/ZebrunnerApiClient.java:59-64 | Starting a run is a POST of the run to `<host>/api/reporting/v1/test-runs`, with the default headers and no query parameters. |
| ApiClient.RegisterTestRunFinish | src/main/java/com/zebrunner/agent/core/rest/ZebrunnerApiClient.java:66-72 | Finishing a run is a PUT of the run to `test-runs/<id>`, where the id is the run's own, rendered `null` when absent. It has the default headers and no query parameters. |
| ApiClient.RegisterTestStart | src/main/java/com/zebrunner/agent/core/rest/ZebrunnerApiClient.java:74-80 | Starting a test is a POST of the test to `test-runs/<runId>/tests`, with the default headers and no query parameters. |
| ApiClient.RegisterTestFinish | src/main/java/com/zebrunner/agent/core/rest/ZebrunnerApiClient.java:82-89 | Finishing a test is a PUT of the test to `test-runs/<runId>/tests/<test.id>`, with the default headers and no query parameters. |
| ApiClient.FinishTestAddressesTest | src/main/java/com/zebrunner/agent/core/rest/ZebrunnerApiClient.java:82-89 | The text after the last `/` of a test-finish URL reads back as the test's own id. |
| ApiClient.SendLogs | src/main/java/com/zebrunner/agent/core/rest/ZebrunnerApiClient.java:91-96 | Sending logs is a POST of the log batch to `test-runs/<runId>/logs`, with the default headers and no query parameters. |
| ApiClient.SendScreenshot | src/main/java/com/zebrunner/agent/core/rest/ZebrunnerApiClient.java:98-106 | A screenshot is a POST of the PNG bytes to `test-runs/<runId>/tests/<testId>/screenshots`, with no query parameters. The request has exactly one `Content-Type`, `image/png`, and adds the decimal `capturedAt` as `x-zbr-screenshot-captured-at`. Every other header keeps the client's default values. |
| ApiClient.EveryRequestAuthorized | src/main/java/com/zebrunner/agent/core/rest/ZebrunnerApiClient.java:50-57 | Every request from a client built from a hostname and token carries exactly one `Authorization: Bearer <token>` and one `Accept: application/json`. It also carries exactly one content type: `image/png` for a screenshot, `application/json` otherwise. The capture-time header appears only on screenshots. |
| ApiClient.GetTestsByCiRunId | src/main/java/com/zebrunner/agent/core/rest/ZebrunnerApiClient.java:108-136 | The rerun lookup is a GET of `test-runs/<ciRunId>/tests` with the default headers. The `tests` parameter is present, exactly once, iff there are test ids, and its value is the comma-joined decimal ids. The `statuses` parameter is present, exactly once, iff there are statuses, and its value is the comma-joined enum names. There are no other query parameters. |
| ApiClient.SetTestIds | src/main/java/com/zebrunner/agent/core/rest/ZebrunnerApiClient.java:120-127 | With test ids, one `tests` parameter is added whose value is the ids' decimal forms joined by `,`. Without ids nothing is added. Every other parameter is left as it was. |
| ApiClient.SetStatuses | src/main/java/com/zebrunner/agent/core/rest/ZebrunnerApiClient.java:129-136 | With statuses, one `statuses` parameter is added whose value is the enum names joined by `,`. Without statuses nothing is added. Every other parameter is left as it was. |
| ApiClient.TestIdsRoundTrip | src/main/java/com/zebrunner/agent/core/rest/ZebrunnerApiClient.java:120-127 | Splitting the `tests` value on `,` recovers the decimal ids one by one, and each reads back as the original id. |
| ApiClient.StatusesRoundTrip | src/main/java/com/zebrunner/agent/core/rest/ZebrunnerApiClient.java:129-136 | Splitting the `statuses` value on `,` recovers exactly the enum names, since no name contains a comma. |
| Text.SplitJoin | src/main/java/com/zebrunner/agent/core/rest/ZebrunnerApiClient.java:122-124 | Splitting undoes `Collectors.joining` whenever no element contains the separator. |
| Text.JoinSplit | src/main/java/com/zebrunner/agent/core/config/YamlConfigurationProvider.java:73 | For the raw piece-by-piece split that `String.split` starts from, before trailing empty pieces are dropped, joining the pieces restores the text exactly. |
| Text.JavaSplitLosesOnlyTrailing | src/main/java/com/zebrunner/agent/core/config/YamlConfigurationProvider.java:73 | Joining what `String.split` returns gives a prefix of the input, and every character after that prefix is a separator. The only thing splitting loses is the run of separators at the end. |
| Text.JavaSplitDropsTrailingPiece | src/main/java/com/zebrunner/agent/core/config/YamlConfigurationProvider.java:73 | `"a.".split("\\.")` is `["a"]`, so joining it does not restore `a.`. |
| Text.JavaSplitJoin | src/main/java/com/zebrunner/agent/core/config/YamlConfigurationProvider.java:73 | `String.split` on `.` of a key made of non-empty, dot-free segments returns exactly those segments. |
| Text.DecimalRoundTrip | src/main/java/com/zebrunner/agent/core/rest/ZebrunnerApiClient.java:103 | The decimal rendering of a `long` reads back as that number. |
| Registrar.SelectRegistrar | src/main/java/com/zebrunner/agent/core/registrar/TestRunRegistrar.java:14-16 | `registrar()` yields the reporting strategy exactly when reporting is enabled, and the no-op strategy exactly when it is not. |
| Registrar.StdoutRegistrar | src/main/java/com/zebrunner/agent/core/registrar/TestRunRegistrar.java:22-24 | `stdoutRegistrar()` yields the stdout strategy regardless of configuration, and `registrar()` never yields it for any configuration. |
| Registrar.ReportingHasCredentials | src/main/java/com/zebrunner/agent/core/registrar/TestRunRegistrar.java:14-16 | When the chain has resolved and the reporting registrar is chosen, a hostname and an access token are both present. |
| Registrar.Step | src/main/java/com/zebrunner/agent/core/registrar/TestRunRegistrar.java:26-53 | The no-op strategy ignores every call. Registered events are only ever appended. `start` and `finish` register the run's start and finish and change nothing else. `startTest` registers the test's start and maps its `uniqueId` to the id the test receives. `finishTest` registers the finish under the mapped id and forgets the mapping, and does nothing for an unmapped id. |
| Registrar.NoOpLeavesStateUnchanged | src/main/java/com/zebrunner/agent/core/registrar/TestRunRegistrar.java:15 | In the no-op strategy, any sequence of lifecycle calls leaves the state unchanged. |
| Registrar.OtherCallsKeepMapping | src/main/java/com/zebrunner/agent/core/registrar/TestRunRegistrar.java:38-53 | Calls about other tests neither add, change nor remove a test's mapping. |
| Registrar.StartThenFinish | src/main/java/com/zebrunner/agent/core/registrar/TestRunRegistrar.java:38-53 | After `startTest(u)`, then any calls about other tests, then `finishTest(u)`, the last registered event is the finish of `u` under the id its start received, and `u` is no longer mapped. |
| Registrar.UnmatchedFinishIsNoOp | src/main/java/com/zebrunner/agent/core/registrar/TestRunRegistrar.java:46-53 | `finishTest` for a `uniqueId` with no matching start registers nothing. |
| Registrar.FinishesFollowStartsFromInitial | src/main/java/com/zebrunner/agent/core/registrar/TestRunRegistrar.java:38-53 | Whatever calls arrive, every registered test finish is preceded by a registered start with the same `uniqueId` and test id. Every mapped id has its start registered. |

## Left out

- HTTP execution: Unirest `asObject` and `asEmpty`, JSON mapping through `ObjectMapperImpl`, and response bodies are foreign library calls. Requests are modelled as data only.
- Route parameters are substituted verbatim. Unirest's URL encoding of them is not modelled.
- `ZebrunnerApiClient.getInstance` and `ConfigurationHolder` are left out. They are memoised, `synchronized` global state, and `ConfigurationHolder` is not part of this model. The client is built directly from a hostname and token.
- Exceptions other than `TestAgentException` are not modelled. The chain catches only `TestAgentException` (`ConfigurationProviderChain.java` line 51), so any other exception a provider throws escapes `getConfiguration`. Examples are a `ClassCastException` when a YAML document's root is not a mapping, a SnakeYAML syntax error, and a `NullPointerException` at `ConfigurationProviderChain.java` line 63 when a provider returns null. A provider here either returns a configuration or fails with `TestAgentException`, and a YAML document is always a mapping.
- ApiClient.SendScreenshot: `capturedAt` is a non-null integer. A null `Long` makes `capturedAt.toString()` throw a `NullPointerException` (`ZebrunnerApiClient.java` line 103), which the model does not express.
- Logging: `log.warn` in the chain is dropped, since it has no effect on the result.
- Resource streams and SnakeYAML parsing are I/O. Resources are an input map from the names that exist to an already parsed document.
  - The `IOException` on close that becomes "Unable to load agent configuration from YAML file" is not modelled.
  - A YAML scalar is kept as its `toString` form.
- `ReportingConfiguration.isEnabled()`, `Status`, the DTOs and the concrete registrars are not part of this model. `isEnabled` is a parameter, `Status` is a name, and the DTOs carry an optional id and an opaque body.
- The registrar models the interface contract only. The stdout registrar's output format and the reporting registrar's server calls are not modelled; the id a test receives is an input of the start call.
- `DriverSessionsAgent`, `TestCaseKey` and `Maintainer` are left out: runtime bytecode instrumentation and annotation markers with no logic to model.
- The rerun filter is left out because its source is not part of this model.
- Java `Set`s of test ids and statuses are sequences without duplicates, taken in iteration order.
- `long` is an unbounded integer. Only its decimal rendering matters here, and that is exact for every in-range value.
- Configuration.EarlyStopIgnoresLowerPriority: follows the code. The test looks at the provider's own normalised configuration (line 48), not the merged accumulator. So a chain whose fields are spread over several providers keeps consulting lower-priority providers even after the accumulator is complete.
- Configuration.GetConfiguration: `merge` copies `enabled`, hostname, access token and run id, but not the project key. A configuration assembled by the chain therefore never carries a project key, and the model states exactly that.
- YamlProvider.GetProperty: `key.split("\\.")` is modelled for the five fixed keys, which are proved to split into their segments. Regular-expression splitting in general is not modelled.

## Findings

| source | as written | input that shows it | evidently intended | confidence | as-written member | corrected member |
|---|---|---|---|---|---|---|
| src/main/java/com/zebrunner/agent/core/config/ConfigurationProviderChain.java:68 | `accessToken` is read with `getHostname()`. A blank hostname therefore clears both fields, and a blank access token is never cleared. | One enabled provider with hostname `h.test`, access token `"  "` and run id `7`. `getConfiguration` accepts it and returns the blank token. | Each field is cleared when it, itself, is blank, so a blank access token fails the mandatory check. | high; not executed | Configuration.NormalizeServerAsWritten, Configuration.BlankTokenSurvivesAsWritten | Configuration.NormalizeServerPerField, Configuration.PerFieldResultHasNoBlank |
