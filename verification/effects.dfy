/** Side effects a service performs besides changing its store: the
    emails it hands to the mail provider. Sending never fails the caller
    (the provider's errors are swallowed), so an email is just recorded. */
module Effects {
  import opened Base
  import opened ApiErrors

  datatype Email =
    | Welcome(to: string, name: string)
    | PasswordReset(to: string, resetUrl: string)
    | NewIssue(to: string, issueId: string)
    | ProfileUpdated(to: string)

  /** The outcome of one service call: its result or the error it raised,
      the store afterwards and the emails sent, in order. */
  datatype Step<+T, +S> = Step(result: Result<T, Thrown>, state: S, mail: seq<Email>)
}
