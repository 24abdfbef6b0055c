/**
 * Values shared by the client and its collaborators: the session, its
 * client-facing copy, the SDK's error kinds, and the scripted answers of
 * a collaborator whose implementation is outside the model.
 */
module Domain {

  /** An authenticated identity, immutable once obtained. */
  datatype Session = Session(
    sessionId: string,
    cookies: map<string, string>,
    isScanner: bool,
    isAllowedToChangeNotExploitable: bool)

  /** The session as handed to callers of the client. */
  datatype SessionDto = SessionDto(
    sessionId: string,
    cookies: map<string, string>,
    isScanner: bool,
    isAllowedToChangeNotExploitable: bool)

  /** The Session to SessionDto mapping copies the four fields verbatim. */
  function ToSessionDto(s: Session): (d: SessionDto)
    ensures d.sessionId == s.sessionId && d.cookies == s.cookies
    ensures d.isScanner == s.isScanner
    ensures d.isAllowedToChangeNotExploitable == s.isAllowedToChangeNotExploitable
  {
    SessionDto(s.sessionId, s.cookies, s.isScanner, s.isAllowedToChangeNotExploitable)
  }

  /** No information is lost: distinct sessions map to distinct DTOs. */
  lemma ToSessionDtoInjective(a: Session, b: Session)
    requires ToSessionDto(a) == ToSessionDto(b)
    ensures a == b
  {
  }

  /** `NotAuthorizedException` and every other `SdkException`. */
  datatype SdkError = NotAuthorized(message: string) | SdkFailure(message: string)

  /** What one call of a collaborator does: return a value or throw. */
  datatype Outcome<+T> = Returned(value: T) | Threw(error: SdkError)

  /**
   * The successive answers of a collaborator whose implementation is not
   * modelled: the k-th call (from 0) gets `answers[k]`, and every call
   * after the listed ones gets `thereafter`.
   */
  datatype Script<+T> = Script(answers: seq<T>, thereafter: T) {
    function Answer(k: nat): T
    {
      if k < |answers| then answers[k] else thereafter
    }
  }

  /** Domain entities listed by the facade; only their identity is modelled. */
  datatype EngineConfiguration = EngineConfiguration(id: string, name: string)
  datatype Preset = Preset(id: string, name: string)
  datatype Team = Team(id: string, name: string)
}
