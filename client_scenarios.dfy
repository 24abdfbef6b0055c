/** The invoker's unit tests replayed on concrete objects, from the class contracts alone. */
module ClientScenarios {
  import opened Wrappers
  import opened Domain
  import opened ConfigurationFactory
  import opened AuthorizedInvoker
  import opened Client

  function TestSession(): Session
  {
    Session("sessionId", map["key" := "value"], true, true)
  }

  /** A client from `createNewInstance` whose logins always succeed with the test session and whose providers answer with empty lists. */
  method NewClient() returns (client: CxClient, loginService: LoginService)
    ensures fresh(client) && fresh(loginService) && client.loginService == loginService
    ensures client.loginType == Credentials && client.singletonSession == None && loginService.log == []
    ensures loginService.script.credentials == Script([], Returned(TestSession()))
  {
    var always := Script([], Returned(TestSession()));
    loginService := new LoginService(LoginScript(always, always, always));
    var configuration := Create(Some(Url("http://some-fake-url.com")), "", Some(Credentials), "user", "pass");
    var configurations := new Provider<seq<EngineConfiguration>>(Script([], Returned([])));
    var presets := new Provider<seq<Preset>>(Script([], Returned([])));
    var teams := new Provider<seq<Team>>(Script([], Returned([])));
    var projects := new Provider<bool>(Script([], Returned(true)));
    var instance := CxClient.CreateNewInstance(configuration, loginService, configurations, presets, teams, projects);
    assert instance.Created?;
    client := instance.client;
  }

  /** No session: one credentials login, then the action's value. */
  method NoSessionScenario() returns (r: InvokeResult<string>, logins: seq<LoginFlow>)
    ensures r == Done("my-result") && logins == [CredentialsFlow]
  {
    var client, loginService := NewClient();
    var action := new Provider<string>(Script([], Returned("my-result")));
    r := client.Invoke(action);
    logins := loginService.log;
  }

  /** NotAuthorized, then success: two credentials logins, the second value. */
  method NotAuthorizedScenario() returns (r: InvokeResult<string>, logins: seq<LoginFlow>)
    ensures r == Done("my-result") && logins == [CredentialsFlow, CredentialsFlow]
  {
    var client, loginService := NewClient();
    var action := new Provider<string>(Script([Threw(NotAuthorized("OMG!"))], Returned("my-result")));
    r := client.Invoke(action);
    logins := loginService.log;
  }

  /** Any other SdkException comes out as it was thrown, after a single login. */
  method UnhandledErrorScenario() returns (r: InvokeResult<string>, logins: seq<LoginFlow>)
    ensures r == ActionFailed(SdkFailure("Runtime exception")) && logins == [CredentialsFlow]
  {
    var client, loginService := NewClient();
    var action := new Provider<string>(Script([], Threw(SdkFailure("Runtime exception"))));
    r := client.Invoke(action);
    logins := loginService.log;
  }
}
