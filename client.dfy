/**
 * The client: a session cache in a mutable field, the login dispatch, the
 * authorized-action invoker and the facade operations. Its collaborators
 * (the login service and the data providers) answer from scripts and
 * record the calls they receive. Every method is proved against the pure
 * state machine of module AuthorizedInvoker.
 */
module Client {
  import opened Wrappers
  import opened Domain
  import opened ConfigurationFactory
  import opened AuthorizedInvoker

  /** A facade result: a value, or `CxClientException` carrying the SDK error behind it, if any. */
  datatype ClientResult<+T> = Ok(value: T) | CxClientException(cause: Option<SdkError>)

  /** Every failure of an invocation, login or action, becomes one CxClientException with its cause. */
  function ToClientResult<T>(r: InvokeResult<T>): (c: ClientResult<T>)
    ensures c.Ok? <==> r.Done?
    ensures r.Done? ==> c.value == r.value
    ensures !r.Done? ==> c.cause == Some(r.cause)
  {
    match r
    case Done(x) => Ok(x)
    case LoginFailed(e) => CxClientException(Some(e))
    case ActionFailed(e) => CxClientException(Some(e))
  }

  /** `validateProjectName`: a false answer is rejected like an error; only true passes. */
  function ProjectNameVerdict(r: InvokeResult<bool>): (c: ClientResult<()>)
    ensures c.Ok? <==> r == Done(true)
    ensures r == Done(false) ==> c == CxClientException(None)
    ensures !r.Done? ==> c == CxClientException(Some(r.cause))
  {
    match r
    case Done(valid) => if valid then Ok(()) else CxClientException(None)
    case LoginFailed(e) => CxClientException(Some(e))
    case ActionFailed(e) => CxClientException(Some(e))
  }

  /** The explicit `login()`: the session's four fields copied into a DTO, or a CxClientException. */
  function LoginResult(o: Outcome<Session>): (c: ClientResult<SessionDto>)
    ensures c.Ok? <==> o.Returned?
    ensures o.Returned? ==>
              && c.value.sessionId == o.value.sessionId && c.value.cookies == o.value.cookies
              && c.value.isScanner == o.value.isScanner
              && c.value.isAllowedToChangeNotExploitable == o.value.isAllowedToChangeNotExploitable
    ensures o.Threw? ==> c == CxClientException(Some(o.error))
  {
    match o
    case Returned(s) => Ok(ToSessionDto(s))
    case Threw(e) => CxClientException(Some(e))
  }

  /** The login service: three operations, each answering from its script; `log` records every call. */
  class LoginService {
    const script: LoginScript
    var log: seq<LoginFlow>

    constructor (script: LoginScript)
      ensures this.script == script && log == []
    {
      this.script := script;
      log := [];
    }

    method Login() returns (r: Outcome<Session>)
      modifies this
      ensures log == old(log) + [CredentialsFlow]
      ensures r == script.credentials.Answer(Count(old(log), CredentialsFlow))
    {
      r := script.credentials.Answer(Count(log, CredentialsFlow));
      log := log + [CredentialsFlow];
    }

    method SsoLogin() returns (r: Outcome<Session>)
      modifies this
      ensures log == old(log) + [SsoFlow]
      ensures r == script.sso.Answer(Count(old(log), SsoFlow))
    {
      r := script.sso.Answer(Count(log, SsoFlow));
      log := log + [SsoFlow];
    }

    method SamlLogin() returns (r: Outcome<Session>)
      modifies this
      ensures log == old(log) + [SamlFlow]
      ensures r == script.saml.Answer(Count(old(log), SamlFlow))
    {
      r := script.saml.Answer(Count(log, SamlFlow));
      log := log + [SamlFlow];
    }
  }

  /** A data provider (or any action run under a session): answers from its script, records the session of each call. */
  class Provider<T> {
    const script: Script<Outcome<T>>
    var received: seq<Session>

    constructor (script: Script<Outcome<T>>)
      ensures this.script == script && received == []
    {
      this.script := script;
      received := [];
    }

    method Call(session: Session) returns (r: Outcome<T>)
      modifies this
      ensures received == old(received) + [session]
      ensures r == script.Answer(|old(received)|)
    {
      r := script.Answer(|received|);
      received := received + [session];
    }
  }

  /** What `createNewInstance` gives back. */
  datatype Instance = Created(client: CxClient) | IllegalArgumentException

  class CxClient {
    const configuration: SdkConfigurationProvider
    const loginType: LoginType
    const loginService: LoginService
    const configurationProvider: Provider<seq<EngineConfiguration>>
    const presetProvider: Provider<seq<Preset>>
    const teamProvider: Provider<seq<Team>>
    const projectProvider: Provider<bool>
    /** The session cache: at most one session, or none. */
    var singletonSession: Option<Session>

    /**
     * The client over its collaborators. It starts with an empty cache: a
     * choice of this model, which keeps the cache in the instance.
     */
    constructor (configuration: SdkConfigurationProvider, loginService: LoginService,
                 configurationProvider: Provider<seq<EngineConfiguration>>, presetProvider: Provider<seq<Preset>>,
                 teamProvider: Provider<seq<Team>>, projectProvider: Provider<bool>)
      requires configuration.loginType.Some?
      ensures this.configuration == configuration && loginType == configuration.loginType.value
      ensures this.loginService == loginService && this.configurationProvider == configurationProvider
      ensures this.presetProvider == presetProvider && this.teamProvider == teamProvider
      ensures this.projectProvider == projectProvider
      ensures singletonSession == None
    {
      this.configuration := configuration;
      loginType := configuration.loginType.value;
      this.loginService := loginService;
      this.configurationProvider := configurationProvider;
      this.presetProvider := presetProvider;
      this.teamProvider := teamProvider;
      this.projectProvider := projectProvider;
      singletonSession := None;
    }

    /** `createNewInstance`: reject a configuration without server URL or login type; a new client has no session. */
    static method CreateNewInstance(configuration: SdkConfigurationProvider, loginService: LoginService,
                                    configurationProvider: Provider<seq<EngineConfiguration>>,
                                    presetProvider: Provider<seq<Preset>>, teamProvider: Provider<seq<Team>>,
                                    projectProvider: Provider<bool>) returns (r: Instance)
      ensures r.IllegalArgumentException? <==> configuration.cxServerUrl.None? || configuration.loginType.None?
      ensures r.Created? ==> fresh(r.client) && r.client.singletonSession == None
      ensures r.Created? ==> r.client.configuration == configuration && r.client.loginType == configuration.loginType.value
      ensures r.Created? ==> r.client.loginService == loginService && r.client.configurationProvider == configurationProvider
      ensures r.Created? ==> r.client.presetProvider == presetProvider && r.client.teamProvider == teamProvider
      ensures r.Created? ==> r.client.projectProvider == projectProvider
    {
      if configuration.cxServerUrl.None? || configuration.loginType.None? {
        return IllegalArgumentException;
      }
      var client := new CxClient(configuration, loginService, configurationProvider, presetProvider,
                                 teamProvider, projectProvider);
      r := Created(client);
    }

    /** Log in through the flow of the configured type and cache the session on success. */
    method Authenticate() returns (o: Outcome<Session>)
      modifies this, loginService
      ensures var s := LoginAttempt(loginService.script, loginType, CacheState(old(singletonSession), old(loginService.log)));
              o == s.outcome && singletonSession == s.after.session && loginService.log == s.after.loginLog
    {
      match loginType {
        case Credentials => o := loginService.Login();
        case SSO => o := loginService.SsoLogin();
        case SAML => o := loginService.SamlLogin();
      }
      if o.Returned? {
        singletonSession := Some(o.value);
      }
    }

    /** The facade's `login()`. */
    method Login() returns (r: ClientResult<SessionDto>)
      modifies this, loginService
      ensures var s := LoginAttempt(loginService.script, loginType, CacheState(old(singletonSession), old(loginService.log)));
              r == LoginResult(s.outcome) && singletonSession == s.after.session && loginService.log == s.after.loginLog
    {
      var o := Authenticate();
      r := LoginResult(o);
    }

    /** `AuthorizedActionInvoker.invoke`. */
    method Invoke<T>(action: Provider<T>) returns (r: InvokeResult<T>)
      modifies this, loginService, action
      ensures var v := AuthorizedInvoker.Invoke(loginService.script, loginType, action.script, |old(action.received)|,
                                                CacheState(old(singletonSession), old(loginService.log)));
              r == v.result && singletonSession == v.after.session && loginService.log == v.after.loginLog
              && action.received == old(action.received) + v.ran
    {
      if singletonSession.None? {
        var o := Authenticate();
        if o.Threw? {
          return LoginFailed(o.error);
        }
      }
      var session := singletonSession.value;
      var out := action.Call(session);
      if out.Returned? {
        r := Done(out.value);
      } else if !out.error.NotAuthorized? {
        r := ActionFailed(out.error);
      } else {
        singletonSession := None;
        var o := Authenticate();
        if o.Threw? {
          return LoginFailed(o.error);
        }
        var retried := action.Call(o.value);
        r := if retried.Returned? then Done(retried.value) else ActionFailed(retried.error);
      }
    }

    method GetEngineConfigurations() returns (r: ClientResult<seq<EngineConfiguration>>)
      modifies this, loginService, configurationProvider
      ensures var v := AuthorizedInvoker.Invoke(loginService.script, loginType, configurationProvider.script,
                                                |old(configurationProvider.received)|,
                                                CacheState(old(singletonSession), old(loginService.log)));
              r == ToClientResult(v.result) && singletonSession == v.after.session
              && loginService.log == v.after.loginLog
              && configurationProvider.received == old(configurationProvider.received) + v.ran
    {
      var v := Invoke(configurationProvider);
      r := ToClientResult(v);
    }

    method GetPresets() returns (r: ClientResult<seq<Preset>>)
      modifies this, loginService, presetProvider
      ensures var v := AuthorizedInvoker.Invoke(loginService.script, loginType, presetProvider.script,
                                                |old(presetProvider.received)|,
                                                CacheState(old(singletonSession), old(loginService.log)));
              r == ToClientResult(v.result) && singletonSession == v.after.session
              && loginService.log == v.after.loginLog
              && presetProvider.received == old(presetProvider.received) + v.ran
    {
      var v := Invoke(presetProvider);
      r := ToClientResult(v);
    }

    method GetTeams() returns (r: ClientResult<seq<Team>>)
      modifies this, loginService, teamProvider
      ensures var v := AuthorizedInvoker.Invoke(loginService.script, loginType, teamProvider.script,
                                                |old(teamProvider.received)|,
                                                CacheState(old(singletonSession), old(loginService.log)));
              r == ToClientResult(v.result) && singletonSession == v.after.session
              && loginService.log == v.after.loginLog
              && teamProvider.received == old(teamProvider.received) + v.ran
    {
      var v := Invoke(teamProvider);
      r := ToClientResult(v);
    }

    method ValidateProjectName(projectName: string, teamId: string) returns (r: ClientResult<()>)
      modifies this, loginService, projectProvider
      ensures var v := AuthorizedInvoker.Invoke(loginService.script, loginType, projectProvider.script,
                                                |old(projectProvider.received)|,
                                                CacheState(old(singletonSession), old(loginService.log)));
              r == ProjectNameVerdict(v.result) && singletonSession == v.after.session
              && loginService.log == v.after.loginLog
              && projectProvider.received == old(projectProvider.received) + v.ran
    {
      var v := Invoke(projectProvider);
      r := ProjectNameVerdict(v);
    }
  }

  /** The facade operations fail with CxClientException whenever the login they need fails. */
  lemma FacadeFailsWhenLoginFails<T>(script: LoginScript, t: LoginType, action: Script<Outcome<T>>, runs: nat,
                                     log: seq<LoginFlow>, e: SdkError)
    requires NextLoginAnswer(script, t, log) == Threw(e)
    ensures ToClientResult(AuthorizedInvoker.Invoke(script, t, action, runs, CacheState(None, log)).result)
         == CxClientException(Some(e))
  {
  }
}
