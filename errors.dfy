/** The exceptions the builder throws, one variant per exception class, and the
    character test every validation is made of. */
module Errors {
  import opened Wrappers

  datatype Error =
    | AtInUserName                // AtInUserNameException
    | SlashInHostname             // SlashInHostnameException
    | ColonInHostname             // ColonInHostnameException
    | SlashInPathComponent        // SlashInPathComponentException
    | HashInPathComponent         // HashInPathComponentException
    | QuestionMarkInPathComponent // QuestionMarkInPathComponentException
    | PathAlreadySet              // PathAlreadySetException
    | ParameterAlreadySet         // ParameterAlreadySetException
    | MissingHost                 // NullPointerException from requireNonNull(host)

  /** `reject(rejected, e, subject)`: throws `e` when `subject` contains `rejected`. */
  function Reject(rejected: char, e: Error, subject: string): (r: Outcome<Error>)
    ensures r.Fail? <==> rejected in subject
    ensures r.Fail? ==> r.error == e
  {
    if rejected in subject then Fail(e) else Pass
  }

  /** Runs `first`, and `second` only when `first` did not throw. */
  function AndThen(first: Outcome<Error>, second: Outcome<Error>): (r: Outcome<Error>)
    ensures r.Pass? <==> first.Pass? && second.Pass?
    ensures first.Fail? ==> r == first
    ensures first.Pass? ==> r == second
  {
    if first.Fail? then first else second
  }
}
