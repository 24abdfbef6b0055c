/**
 * The session cache, the login strategy selector and the authorized-action
 * invoker as a pure state machine. The client class proves its methods
 * against these functions; the lemmas here state what the unit tests of the
 * client pin down.
 */
module AuthorizedInvoker {
  import opened Wrappers
  import opened Domain
  import opened ConfigurationFactory

  /** The three operations of the login service. */
  datatype LoginFlow = CredentialsFlow | SsoFlow | SamlFlow

  /** The login type selects exactly one flow, and no two types share one. */
  function FlowFor(t: LoginType): (f: LoginFlow)
    ensures f == CredentialsFlow <==> t == Credentials
    ensures f == SsoFlow <==> t == SSO
    ensures f == SamlFlow <==> t == SAML
  {
    match t
    case Credentials => CredentialsFlow
    case SSO => SsoFlow
    case SAML => SamlFlow
  }

  /** The scripted answers of each of the login service's three operations. */
  datatype LoginScript = LoginScript(
    credentials: Script<Outcome<Session>>,
    sso: Script<Outcome<Session>>,
    saml: Script<Outcome<Session>>)
  {
    function For(f: LoginFlow): Script<Outcome<Session>>
    {
      match f
      case CredentialsFlow => credentials
      case SsoFlow => sso
      case SamlFlow => saml
    }
  }

  /** How many calls of flow `f` the log records: the number of earlier calls a scripted answer is chosen by. */
  function Count(log: seq<LoginFlow>, f: LoginFlow): (n: nat)
    ensures n == multiset(log)[f]
    ensures n <= |log|
  {
    if log == [] then 0
    else
      assert log == log[..|log| - 1] + [log[|log| - 1]];
      Count(log[..|log| - 1], f) + (if log[|log| - 1] == f then 1 else 0)
  }

  /** The client's view of the world: the cached session and every login call made so far. */
  datatype CacheState = CacheState(session: Option<Session>, loginLog: seq<LoginFlow>)

  /** What the login service answers to the next call of the flow `t` selects. */
  function NextLoginAnswer(script: LoginScript, t: LoginType, log: seq<LoginFlow>): Outcome<Session>
  {
    script.For(FlowFor(t)).Answer(Count(log, FlowFor(t)))
  }

  datatype LoginStep = LoginStep(outcome: Outcome<Session>, after: CacheState)

  /**
   * One login: dispatch on the login type to exactly one flow, store the
   * session on success, leave the cache as it was on failure.
   */
  function LoginAttempt(script: LoginScript, t: LoginType, c: CacheState): (s: LoginStep)
    ensures s.after.loginLog == c.loginLog + [FlowFor(t)]
    ensures s.outcome == script.For(FlowFor(t)).Answer(multiset(c.loginLog)[FlowFor(t)])
    ensures s.outcome.Returned? ==> s.after.session == Some(s.outcome.value)
    ensures s.outcome.Threw? ==> s.after.session == c.session
  {
    var answer := NextLoginAnswer(script, t, c.loginLog);
    LoginStep(answer, CacheState(if answer.Returned? then Some(answer.value) else c.session, c.loginLog + [FlowFor(t)]))
  }

  /** Use the cached session if there is one; otherwise log in. */
  function EnsureSession(script: LoginScript, t: LoginType, c: CacheState): (s: LoginStep)
    ensures c.session.Some? ==> s == LoginStep(Returned(c.session.value), c)
    ensures c.session.None? ==> s == LoginAttempt(script, t, c)
    ensures s.outcome.Returned? ==> s.after.session == Some(s.outcome.value)
    ensures s.outcome.Threw? ==> s.after == CacheState(None, c.loginLog + [FlowFor(t)])
  {
    if c.session.Some? then LoginStep(Returned(c.session.value), c)
    else LoginAttempt(script, t, c)
  }

  /** The result of `invoke`: the action's value, or the error that ended it. */
  datatype InvokeResult<+T> = Done(value: T) | LoginFailed(cause: SdkError) | ActionFailed(cause: SdkError)

  /** One invocation: its result, the cache afterwards, and the sessions the action was run with, in order. */
  datatype Invocation<+T> = Invocation(result: InvokeResult<T>, after: CacheState, ran: seq<Session>)

  /**
   * `invoke(action)`: make sure a session exists, run the action; on
   * NotAuthorized clear the cache, log in again and run the action once
   * more. `runs` is the number of times the action has been called before.
   */
  function Invoke<T>(script: LoginScript, t: LoginType, action: Script<Outcome<T>>, runs: nat, c: CacheState): (v: Invocation<T>)
    // never more than two logins and two runs
    ensures c.loginLog <= v.after.loginLog && |v.after.loginLog| <= |c.loginLog| + 2
    ensures |v.ran| <= 2
    // every login made goes to the flow of the configured type
    ensures forall i | |c.loginLog| <= i < |v.after.loginLog| :: v.after.loginLog[i] == FlowFor(t)
    // a run happens with a session in hand; a success leaves that session cached
    ensures v.result.Done? ==> v.ran != [] && v.after.session == Some(v.ran[|v.ran| - 1])
    ensures v.result.Done? ==> action.Answer(runs + |v.ran| - 1) == Returned(v.result.value)
    // only NotAuthorized leads to a second run
    ensures |v.ran| == 2 ==> action.Answer(runs).Threw? && action.Answer(runs).error.NotAuthorized?
    // an action's error comes out unchanged
    ensures v.result.ActionFailed? ==> v.ran != [] && Threw(v.result.cause) == action.Answer(runs + |v.ran| - 1)
  {
    var first := EnsureSession(script, t, c);
    match first.outcome
    case Threw(e) => Invocation(LoginFailed(e), first.after, [])
    case Returned(session) =>
      match action.Answer(runs)
      case Returned(x) => Invocation(Done(x), first.after, [session])
      case Threw(SdkFailure(m)) => Invocation(ActionFailed(SdkFailure(m)), first.after, [session])
      case Threw(NotAuthorized(_)) =>
        var again := LoginAttempt(script, t, CacheState(None, first.after.loginLog));
        match again.outcome
        case Threw(e) => Invocation(LoginFailed(e), again.after, [session])
        case Returned(renewed) =>
          var retried := action.Answer(runs + 1);
          Invocation(if retried.Returned? then Done(retried.value) else ActionFailed(retried.error),
                     again.after, [session, renewed])
  }

  // ---------------------------------------------------------------------
  // The behaviour the unit tests pin down, stated for all inputs.

  /** With an empty cache, invoke logs in once through the configured flow and returns the action's value. */
  lemma LogsInOnceWhenCacheEmpty<T>(script: LoginScript, t: LoginType, action: Script<Outcome<T>>, runs: nat,
                                    log: seq<LoginFlow>, session: Session, x: T)
    requires NextLoginAnswer(script, t, log) == Returned(session)
    requires action.Answer(runs) == Returned(x)
    ensures Invoke(script, t, action, runs, CacheState(None, log))
         == Invocation(Done(x), CacheState(Some(session), log + [FlowFor(t)]), [session])
  {
  }

  /** With a cached session, invoke does not log in; the action runs with that session. */
  lemma NoLoginWhenCached<T>(script: LoginScript, t: LoginType, action: Script<Outcome<T>>, runs: nat,
                             log: seq<LoginFlow>, session: Session)
    requires !(action.Answer(runs).Threw? && action.Answer(runs).error.NotAuthorized?)
    ensures var v := Invoke(script, t, action, runs, CacheState(Some(session), log));
            v.after == CacheState(Some(session), log) && v.ran == [session]
            && v.result == (if action.Answer(runs).Returned? then Done(action.Answer(runs).value)
                            else ActionFailed(action.Answer(runs).error))
  {
  }

  /**
   * NotAuthorized then success, from any cache: the session the action ran
   * with (cached or fresh) is replaced by one more login, and the second
   * run's value is returned. From an empty cache that makes two logins in all.
   */
  lemma RetriesOnceAfterNotAuthorized<T>(script: LoginScript, t: LoginType, action: Script<Outcome<T>>, runs: nat,
                                         c: CacheState, s1: Session, s2: Session, m: string, x: T)
    requires EnsureSession(script, t, c).outcome == Returned(s1)
    requires NextLoginAnswer(script, t, EnsureSession(script, t, c).after.loginLog) == Returned(s2)
    requires action.Answer(runs) == Threw(NotAuthorized(m))
    requires action.Answer(runs + 1) == Returned(x)
    ensures Invoke(script, t, action, runs, c)
         == Invocation(Done(x),
                       CacheState(Some(s2), c.loginLog + (if c.session.None? then [FlowFor(t), FlowFor(t)] else [FlowFor(t)])),
                       [s1, s2])
  {
  }

  /** NotAuthorized, then the re-login fails: its error is surfaced, the cache stays empty, and the action is not run again. */
  lemma ReloginFailureSurfaces<T>(script: LoginScript, t: LoginType, action: Script<Outcome<T>>, runs: nat,
                                  c: CacheState, s1: Session, m: string, e: SdkError)
    requires EnsureSession(script, t, c).outcome == Returned(s1)
    requires NextLoginAnswer(script, t, EnsureSession(script, t, c).after.loginLog) == Threw(e)
    requires action.Answer(runs) == Threw(NotAuthorized(m))
    ensures Invoke(script, t, action, runs, c)
         == Invocation(LoginFailed(e),
                       CacheState(None, c.loginLog + (if c.session.None? then [FlowFor(t), FlowFor(t)] else [FlowFor(t)])),
                       [s1])
  {
  }

  /**
   * NotAuthorized, then the retried run fails for any reason (NotAuthorized
   * again included): that error is surfaced after two runs, with no third
   * attempt, and the fresh session stays cached.
   */
  lemma GivesUpAfterRetriedFailure<T>(script: LoginScript, t: LoginType, action: Script<Outcome<T>>, runs: nat,
                                      c: CacheState, s2: Session, m1: string, e2: SdkError)
    requires EnsureSession(script, t, c).outcome.Returned?
    requires NextLoginAnswer(script, t, EnsureSession(script, t, c).after.loginLog) == Returned(s2)
    requires action.Answer(runs) == Threw(NotAuthorized(m1))
    requires action.Answer(runs + 1) == Threw(e2)
    ensures var v := Invoke(script, t, action, runs, c);
            v.result == ActionFailed(e2) && |v.ran| == 2 && v.after.session == Some(s2)
            && v.after.loginLog == c.loginLog + (if c.session.None? then [FlowFor(t), FlowFor(t)] else [FlowFor(t)])
  {
  }

  /** Any other SdkException passes through unchanged, with no re-login and a single run. */
  lemma OtherErrorPassesThrough<T>(script: LoginScript, t: LoginType, action: Script<Outcome<T>>, runs: nat,
                                   c: CacheState, m: string)
    requires EnsureSession(script, t, c).outcome.Returned?
    requires action.Answer(runs) == Threw(SdkFailure(m))
    ensures var v := Invoke(script, t, action, runs, c);
            v.result == ActionFailed(SdkFailure(m)) && |v.ran| == 1
            && v.after == EnsureSession(script, t, c).after
  {
  }

  /** A failed first login is surfaced at once: the action never runs and nothing is cached. */
  lemma LoginFailureStopsInvoke<T>(script: LoginScript, t: LoginType, action: Script<Outcome<T>>, runs: nat,
                                   log: seq<LoginFlow>, e: SdkError)
    requires NextLoginAnswer(script, t, log) == Threw(e)
    ensures Invoke(script, t, action, runs, CacheState(None, log))
         == Invocation(LoginFailed(e), CacheState(None, log + [FlowFor(t)]), [])
  {
  }

  // ---------------------------------------------------------------------
  // Several invocations through one client: what the cache is for.

  datatype Batch<+T> = Batch(results: seq<InvokeResult<T>>, after: CacheState)

  /** Invoke each action in turn (each called for the first time), threading the cache through. */
  function RunAll<T>(script: LoginScript, t: LoginType, actions: seq<Script<Outcome<T>>>, c: CacheState): (b: Batch<T>)
    ensures |b.results| == |actions|
    ensures c.loginLog <= b.after.loginLog && |b.after.loginLog| <= |c.loginLog| + 2 * |actions|
    decreases |actions|
  {
    if actions == [] then Batch([], c)
    else
      var v := Invoke(script, t, actions[0], 0, c);
      var rest := RunAll(script, t, actions[1..], v.after);
      Batch([v.result] + rest.results, rest.after)
  }

  /** Every call of this login script's operation succeeds. */
  ghost predicate LoginAlwaysSucceeds(script: LoginScript, f: LoginFlow)
  {
    forall k: nat :: script.For(f).Answer(k).Returned?
  }

  /** What one invocation with a session at hand and no NotAuthorized gives: the action's value or its error. */
  function FirstRunResult<T>(action: Script<Outcome<T>>): InvokeResult<T>
  {
    if action.Answer(0).Returned? then Done(action.Answer(0).value) else ActionFailed(action.Answer(0).error)
  }

  /**
   * When logins succeed and no action reports NotAuthorized, a whole series
   * of calls logs in at most once: once if the cache started empty, never
   * if it held a session. Each call returns its action's value or surfaces
   * its action's error.
   */
  lemma {:induction false} CachedSessionIsReused<T>(script: LoginScript, t: LoginType,
                                                    actions: seq<Script<Outcome<T>>>, c: CacheState)
    requires LoginAlwaysSucceeds(script, FlowFor(t))
    requires forall i | 0 <= i < |actions| :: !(actions[i].Answer(0).Threw? && actions[i].Answer(0).error.NotAuthorized?)
    ensures var b := RunAll(script, t, actions, c);
            (forall i | 0 <= i < |b.results| :: b.results[i] == FirstRunResult(actions[i]))
            && b.after.loginLog == c.loginLog + (if c.session.None? && actions != [] then [FlowFor(t)] else [])
            && (actions != [] ==> b.after.session.Some?)
    decreases |actions|
  {
    if actions != [] {
      var v := Invoke(script, t, actions[0], 0, c);
      assert NextLoginAnswer(script, t, c.loginLog).Returned?;
      assert v.result == FirstRunResult(actions[0]) && v.after.session.Some?;
      assert v.after.loginLog == c.loginLog + (if c.session.None? then [FlowFor(t)] else []);
      CachedSessionIsReused(script, t, actions[1..], v.after);
      var rest := RunAll(script, t, actions[1..], v.after);
      assert forall i | 1 <= i < |actions| :: actions[1..][i - 1] == actions[i];
      assert RunAll(script, t, actions, c).results == [v.result] + rest.results;
    }
  }

  /**
   * A failed login is not cached: when every login fails, each call of a
   * series tries to log in again, and none of them runs its action.
   */
  lemma {:induction false} FailedLoginIsNotCached<T>(script: LoginScript, t: LoginType,
                                                     actions: seq<Script<Outcome<T>>>, log: seq<LoginFlow>)
    requires forall k: nat :: script.For(FlowFor(t)).Answer(k).Threw?
    ensures var b := RunAll(script, t, actions, CacheState(None, log));
            (forall i | 0 <= i < |b.results| :: b.results[i].LoginFailed?)
            && b.after.session.None? && |b.after.loginLog| == |log| + |actions|
    decreases |actions|
  {
    if actions != [] {
      var v := Invoke(script, t, actions[0], 0, CacheState(None, log));
      assert NextLoginAnswer(script, t, log).Threw?;
      assert v.after == CacheState(None, log + [FlowFor(t)]) && v.result.LoginFailed?;
      FailedLoginIsNotCached(script, t, actions[1..], log + [FlowFor(t)]);
    }
  }
}
