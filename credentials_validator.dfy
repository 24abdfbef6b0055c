/**
 * The credentials validator: a precondition check on a user name and a
 * password, which rejects either one when it is empty.
 */
module CredentialsValidator {

  /** `validate` returns normally or throws IllegalArgumentException. */
  datatype Verdict = Accepted | IllegalArgumentException

  /** Only length zero is rejected; the check keeps no state. */
  function Validate(userName: string, password: string): (r: Verdict)
    ensures r == IllegalArgumentException <==> |userName| == 0 || |password| == 0
    ensures r == Accepted <==> |userName| > 0 && |password| > 0
  {
    if |userName| == 0 || |password| == 0 then IllegalArgumentException else Accepted
  }

  /** Blank but non-empty strings are not trimmed, so they pass. */
  lemma BlankCredentialsAccepted(userName: string, password: string)
    requires |userName| > 0 && |password| > 0
    requires forall i | 0 <= i < |userName| :: userName[i] == ' '
    requires forall i | 0 <= i < |password| :: password[i] == ' '
    ensures Validate(userName, password) == Accepted
  {
  }

  /** Rejection depends on the emptiness of each argument alone: growing either one never turns a pass into a rejection. */
  lemma ValidateMonotone(userName: string, password: string, moreUser: string, morePassword: string)
    requires Validate(userName, password) == Accepted
    ensures Validate(userName + moreUser, password + morePassword) == Accepted
  {
  }
}
