# Session cache and authorized-action invoker of the Checkmarx client SDK

This project models the core of the Checkmarx SDK client (`CxClientImpl`):

- the single-slot session cache `singletonSession`;
- the login strategy selector, which sends `login()` to exactly one of the
  credentials, SSO and SAML flows of the login service, according to the
  configured login type;
- the authorized-action invoker, `AuthorizedActionInvoker.invoke`. It logs in
  when the cache is empty and runs the action. On a `NotAuthorizedException`
  it clears the cache, logs in again and runs the action once more. Every other
  `SdkException` passes through unchanged;
- the facade operations `login`, `getEngineConfigurations`, `getPresets`,
  `getTeams` and `validateProjectName`. They turn every failure, and a
  `false` project-name verdict, into `CxClientException`;
- the construction check in `createNewInstance` (server URL and login type
  are required) and the empty cache of a new client;
- two helpers: the credentials validator, and the factory that builds the
  immutable SDK configuration provider.

`CxClientImpl`'s behaviour is modelled from its unit tests,
`CxClientImplTest.java`.

Files:

- `wrappers.dfy`: `Option`, for Java references that may be null.
- `credentials_validator.dfy`: `CredentialsValidator.Validate`.
- `configuration_factory.dfy`: `LoginType`, the provider record and both
  `create` overloads.
- `domain.dfy`: `Session`, `SessionDto` and the mapping between them;
  `SdkError` (NotAuthorized or any other SDK failure); `Outcome` (a
  collaborator's call returns or throws); `Script`, the successive answers of
  a collaborator whose implementation is outside the model.
- `authorized_invoker.dfy`: the pure state machine. It covers one login
  (`LoginAttempt`), "use the cache or log in" (`EnsureSession`), one
  invocation (`Invoke`) and a series of invocations (`RunAll`). The lemmas
  state the tested behaviour for all inputs.
- `client.dfy`: the classes. `CxClient` holds the mutable
  `singletonSession` field. `LoginService` and `Provider<T>` answer from
  their scripts and record every call they receive, like the tests' mocks.
  `CxClient`'s methods change the cache and the collaborators' call
  records, and each is proved to do exactly what the pure state machine
  prescribes.
- `client_scenarios.dfy`: the invoker's unit tests replayed on concrete
  objects, with their outcomes derived from the class contracts alone.

Collaborators are scripted. The k-th call of a login flow or of a provider
gets the k-th scripted answer, and every later call gets a fixed last answer.
This matches consecutive stubbing (`thenThrow(...).thenReturn(...)`). The
login service's call record is what "logs in exactly twice" is stated about.

## Model

| member | source | states |
|---|---|---|
| `CredentialsValidator.Validate` | CX-SDK-Domain/src/main/java/com/cx/sdk/IntegrationTests/login/CredentialsValidatorImp.java:9-12 | rejected (IllegalArgumentException) exactly when the user name or the password is empty; accepted exactly when both are non-empty |
| `CredentialsValidator.BlankCredentialsAccepted` | CX-SDK-Domain/src/main/java/com/cx/sdk/IntegrationTests/login/CredentialsValidatorImp.java:10 | only length zero is rejected: all-blank, non-empty strings pass |
| `CredentialsValidator.ValidateMonotone` | CX-SDK-Domain/src/main/java/com/cx/sdk/IntegrationTests/login/CredentialsValidatorImp.java:10-11 | rejection depends only on emptiness: extending accepted credentials keeps them accepted |
| `ConfigurationFactory.InitSdkConfigurationProvider` | CX-SDK-Infrastructure/src/main/java/com/cx/sdk/infrastructure/SDKConfigurationProviderFactory.java:35-67 | each getter returns exactly the argument it captured, for any arguments |
| `ConfigurationFactory.CreateWithKerberos` | CX-SDK-Infrastructure/src/main/java/com/cx/sdk/infrastructure/SDKConfigurationProviderFactory.java:25-33 | server URL, origin, login type, user name, password and the given Kerberos flag come back unchanged; no validation |
| `ConfigurationFactory.Create` | CX-SDK-Infrastructure/src/main/java/com/cx/sdk/infrastructure/SDKConfigurationProviderFactory.java:16-23 | equals the six-argument create with Kerberos false, so useKerberosAuthentication is false |
| `ConfigurationFactory.CreateWithKerberosInjective` | CX-SDK-Infrastructure/src/main/java/com/cx/sdk/infrastructure/SDKConfigurationProviderFactory.java:38-65 | the getters recover every argument: equal providers come from equal arguments |
| `Domain.ToSessionDto` | CX-SDK-API/src/test/com/cx/sdk/api/unittests/CxClientImplTest.java:328-333 | sessionId, cookies, isScanner and isAllowedToChangeNotExploitable are copied verbatim |
| `Domain.ToSessionDtoInjective` | CX-SDK-API/src/test/com/cx/sdk/api/unittests/CxClientImplTest.java:328-333 | the mapping loses nothing: equal DTOs come from equal sessions |
| `AuthorizedInvoker.FlowFor` | CX-SDK-API/src/test/com/cx/sdk/api/unittests/CxClientImplTest.java:138-177 | CREDENTIALS, SSO and SAML each select their own flow, and each flow is selected by its type only |
| `AuthorizedInvoker.Count` | CX-SDK-API/src/test/com/cx/sdk/api/unittests/CxClientImplTest.java:303 | the number of calls of a flow is exactly how many times the flow occurs in the call record (what `times(2)` counts), and so at most the number of calls |
| `AuthorizedInvoker.LoginAttempt` | CX-SDK-API/src/test/com/cx/sdk/api/unittests/CxClientImplTest.java:138-177 | one login records exactly one call, of the configured type's flow, and its outcome is that flow's next scripted answer; success caches the returned session, failure leaves the cache as it was |
| `AuthorizedInvoker.EnsureSession` | CX-SDK-API/src/test/com/cx/sdk/api/unittests/CxClientImplTest.java:267-283 | with a cached session, it is used and nothing is called; with none, it is exactly one LoginAttempt, so its outcome is the configured flow's answer; a failed login leaves the cache empty |
| `AuthorizedInvoker.Invoke` | CX-SDK-API/src/test/com/cx/sdk/api/unittests/CxClientImplTest.java:266-318 | at most two logins and two runs, all logins through the configured flow; a second run only after NotAuthorized; success leaves the session of the last run cached and returns that run's value; an action error comes out unchanged |
| `AuthorizedInvoker.LogsInOnceWhenCacheEmpty` | CX-SDK-API/src/test/com/cx/sdk/api/unittests/CxClientImplTest.java:267-283 | empty cache and succeeding action: exactly one login, the action's result is returned, the new session is cached |
| `AuthorizedInvoker.NoLoginWhenCached` | CX-SDK-API/src/test/com/cx/sdk/api/unittests/CxClientImplTest.java:180-196 | with a cached session and no NotAuthorized, no login is made, the action runs once with the cached session, and its value is returned (or its error surfaced) |
| `AuthorizedInvoker.RetriesOnceAfterNotAuthorized` | CX-SDK-API/src/test/com/cx/sdk/api/unittests/CxClientImplTest.java:286-304 | from any cache, NotAuthorized then success replaces the session by one more login and returns the second run's value; from an empty cache that is exactly two logins |
| `AuthorizedInvoker.ReloginFailureSurfaces` | CX-SDK-API/src/test/com/cx/sdk/api/unittests/CxClientImplTest.java:286-304 | from any cache, NotAuthorized then a failing re-login surfaces the login error, leaves the cache empty and does not run the action again |
| `AuthorizedInvoker.GivesUpAfterRetriedFailure` | CX-SDK-API/src/test/com/cx/sdk/api/unittests/CxClientImplTest.java:286-304 | from any cache, NotAuthorized then a retried run failing for any reason (NotAuthorized again included): that error is surfaced unchanged after two runs, with no third run, and the fresh session stays cached |
| `AuthorizedInvoker.OtherErrorPassesThrough` | CX-SDK-API/src/test/com/cx/sdk/api/unittests/CxClientImplTest.java:306-318 | any other SdkException is surfaced unchanged after one run, with no re-login |
| `AuthorizedInvoker.LoginFailureStopsInvoke` | CX-SDK-API/src/test/com/cx/sdk/api/unittests/CxClientImplTest.java:341-344 | a failed login is surfaced at once; the action never runs and nothing is cached |
| `AuthorizedInvoker.RunAll` | CX-SDK-API/src/test/com/cx/sdk/api/unittests/CxClientImplTest.java:180-196 | a series of invocations yields one result per action and at most two logins per invocation |
| `AuthorizedInvoker.CachedSessionIsReused` | CX-SDK-API/src/test/com/cx/sdk/api/unittests/CxClientImplTest.java:180-196 | when logins succeed and no action reports NotAuthorized, a whole series of calls logs in once from an empty cache and never from a full one, and each call returns its action's value or surfaces its action's error |
| `AuthorizedInvoker.FailedLoginIsNotCached` | CX-SDK-API/src/test/com/cx/sdk/api/unittests/CxClientImplTest.java:198-206 | when every login fails, every call of a series tries to log in again and fails, and the cache stays empty |
| `Client.ToClientResult` | CX-SDK-API/src/test/com/cx/sdk/api/unittests/CxClientImplTest.java:198-264 | a facade list operation succeeds exactly when the invocation did, with its value; otherwise CxClientException with the original cause |
| `Client.ProjectNameVerdict` | CX-SDK-API/src/test/com/cx/sdk/api/unittests/CxClientImplTest.java:350-384 | validateProjectName passes exactly when the provider answered true; false, a failed login or a thrown error give CxClientException |
| `Client.LoginResult` | CX-SDK-API/src/test/com/cx/sdk/api/unittests/CxClientImplTest.java:138-177 | login() returns the session's four fields verbatim, or CxClientException with the login error |
| `Client.FacadeFailsWhenLoginFails` | CX-SDK-API/src/test/com/cx/sdk/api/unittests/CxClientImplTest.java:198-264 | with an empty cache and a failing login, the facade raises CxClientException carrying the login error |
| `Client.LoginService.Login` | CX-SDK-API/src/test/com/cx/sdk/api/unittests/CxClientImplTest.java:141-145 | the credentials flow answers from its script and records one credentials call |
| `Client.LoginService.SsoLogin` | CX-SDK-API/src/test/com/cx/sdk/api/unittests/CxClientImplTest.java:155-159 | the SSO flow answers from its script and records one SSO call |
| `Client.LoginService.SamlLogin` | CX-SDK-API/src/test/com/cx/sdk/api/unittests/CxClientImplTest.java:169-173 | the SAML flow answers from its script and records one SAML call |
| `Client.Provider.Call` | CX-SDK-API/src/test/com/cx/sdk/api/unittests/CxClientImplTest.java:346-348 | an action answers from its script and records the session it was run with |
| `Client.CxClient.constructor` | CX-SDK-API/src/test/com/cx/sdk/api/unittests/CxClientImplTest.java:51-65 | a client over the given collaborators starts with an empty session cache (a choice of this model, see Left out) |
| `Client.CxClient.CreateNewInstance` | CX-SDK-API/src/test/com/cx/sdk/api/unittests/CxClientImplTest.java:87-135 | IllegalArgumentException exactly when the server URL or the login type is missing; otherwise a fresh client with an empty cache, the given configuration and its login type, the given login service and the four given providers |
| `Client.CxClient.Authenticate` | CX-SDK-API/src/test/com/cx/sdk/api/unittests/CxClientImplTest.java:138-177 | calls exactly the configured flow and updates the cache and the call record as LoginAttempt prescribes |
| `Client.CxClient.Login` | CX-SDK-API/src/test/com/cx/sdk/api/unittests/CxClientImplTest.java:137-177 | login() returns LoginResult of that one login; the cache and call record follow LoginAttempt |
| `Client.CxClient.Invoke` | CX-SDK-API/src/test/com/cx/sdk/api/unittests/CxClientImplTest.java:266-318 | result, new cache, login calls and the sessions the action ran with are exactly those of AuthorizedInvoker.Invoke |
| `Client.CxClient.GetEngineConfigurations` | CX-SDK-API/src/test/com/cx/sdk/api/unittests/CxClientImplTest.java:179-206 | the configuration provider's call routed through Invoke, its failures mapped by ToClientResult |
| `Client.CxClient.GetPresets` | CX-SDK-API/src/test/com/cx/sdk/api/unittests/CxClientImplTest.java:208-235 | the preset provider's call routed through Invoke, its failures mapped by ToClientResult |
| `Client.CxClient.GetTeams` | CX-SDK-API/src/test/com/cx/sdk/api/unittests/CxClientImplTest.java:237-264 | the team provider's call routed through Invoke, its failures mapped by ToClientResult |
| `Client.CxClient.ValidateProjectName` | CX-SDK-API/src/test/com/cx/sdk/api/unittests/CxClientImplTest.java:350-384 | the project provider's call routed through Invoke, its verdict mapped by ProjectNameVerdict |
| `ClientScenarios.NoSessionScenario` | CX-SDK-API/src/test/com/cx/sdk/api/unittests/CxClientImplTest.java:267-283 | on a new client, invoke returns "my-result" after exactly one credentials login |
| `ClientScenarios.NotAuthorizedScenario` | CX-SDK-API/src/test/com/cx/sdk/api/unittests/CxClientImplTest.java:286-304 | an action failing with NotAuthorized once returns "my-result" after exactly two credentials logins |
| `ClientScenarios.UnhandledErrorScenario` | CX-SDK-API/src/test/com/cx/sdk/api/unittests/CxClientImplTest.java:306-318 | an action failing with another SdkException surfaces that same error after a single login |

## Left out

- The body of `CxClientImpl` is not part of this model; its behaviour is modelled from its unit tests. Two points the tests leave open are this model's own choices. First, on NotAuthorized the invoker clears the cache before it logs in again. Second, a failed login leaves the cache as it was.
- `Client.CxClient.Login`: the explicit `login()` always calls the login service through the configured flow, even when a session is cached, and replaces the cached session on success. This is a choice of this model: the tests call `login()` only on a client with an empty cache, and a `login()` that returned a cached session without calling the service is not modelled.
- The session cache is an instance field here, and `Client.CxClient.constructor`'s `ensures singletonSession == None` is a choice of this model. The test helper that calls the constructor directly (CX-SDK-API/src/test/com/cx/sdk/api/unittests/CxClientImplTest.java:61-63) empties the field itself afterwards, so construction alone may not clear it; only `createNewInstance` is tested to clear it (CX-SDK-API/src/test/com/cx/sdk/api/unittests/CxClientImplTest.java:100-115).
- If `singletonSession` is shared by all instances, as its name suggests, `createNewInstance` also empties the cache of clients that already exist, and one client's login fills the cache of all. An instance field cannot express this sharing, so the model does not capture it.
- `Client.CxClient.constructor` requires a login type. The public path, `CreateNewInstance`, rejects a missing one with IllegalArgumentException. What the injected constructor's login dispatch does with a null login type is not modelled.
- The API-level `SdkConfiguration` and `LoginTypeDTO` are identified with the provider record and `LoginType`; the conversion between them is not modelled.
- The network implementations of the login service and the configuration, preset, team and project providers are replaced by scripted answers. A provider's answer depends on the call number only, not on the session or the project name and team id it is given.
- Field-by-field DTO mapping of engine configurations, presets and teams is not modelled. The facade returns the provider's items as they are.
- The fifth, boolean argument of `Session` (CX-SDK-API/src/test/com/cx/sdk/api/unittests/CxClientImplTest.java:84) is not modelled. It is not one of the four fields copied into the DTO.
- URL parsing and `MalformedURLException` are left out: the URL is an opaque optional value.
- Null `String` arguments and a null boxed Kerberos flag are not modelled, and neither is the NullPointerException `validate` throws on a null argument.
- Concurrency is left out; the model is sequential.
- The commented-out one-argument `create` is not modelled.
