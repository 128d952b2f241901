/**
 * The errors the facade reports through its callbacks (or throws, for the constructor),
 * with the message texts of index.js. A refused bind is reported with the corrected, prefixed
 * message; the text index.js:91 builds as written is `BindFailureMessageAsWritten`.
 */
module Errors {
  import opened Js

  const SETTINGS_INVALID := "Constructor's argument is missing or invalid."
  const URL_INVALID := MissingProperty("url")
  const CREDENTIALS_INVALID := NotAnObject("credentials")
  const USERNAME_INVALID := MissingProperty("username")
  const PASSWORD_INVALID := MissingProperty("password")
  const ARGS_INVALID := NotAnObject("args")
  const BASE_INVALID := "'args.base' is missing or invalid."
  const OPTIONS_INVALID := "'args.options' is invalid."
  const AUTH_INVALID := "invalid 'auth' property."
  const AUTH_FAILED_PREFIX := "Authentication failed. "

  /** What the directory client hands to the bind callback on refusal. */
  datatype BindError = BindError(isError: bool, message: string, text: string)

  datatype Error =
    | InvalidArgument(message: string)
    /** the directory refused the bind */
    | AuthenticationFailed(refusal: BindError)
    /** a token that is not (or no longer) in the session cache */
    | InvalidToken
    /** the directory client reported an error when the search was issued */
    | SearchFailed(cause: string)
    /** an 'error' event arrived on the search result stream */
    | StreamFailed(cause: string)
    /** an exception escapes `query` instead of reaching its callback */
    | Uncaught
  {
    /**
     * The error's message text. For a refused bind this is the intended `Authentication failed. `
     * text, not the bare cause message the program as written reports (index.js:91).
     */
    function Message(): string {
      match this
      case InvalidArgument(m) => m
      case AuthenticationFailed(e) => BindFailureMessage(e)
      case InvalidToken => AUTH_INVALID
      case SearchFailed(c) => c
      case StreamFailed(c) => c
      case Uncaught => "Err is not defined"
    }
  }

  /**
   * The bind-failure message exactly as index.js:91 builds it: `+` binds tighter than `?:`,
   * so the condition is the (always non-empty) string prefix + "true"/"false" and the
   * prefix never reaches the message.
   */
  function BindFailureMessageAsWritten(e: BindError): string {
    if Truthy(Str(AUTH_FAILED_PREFIX + BoolText(e.isError))) then e.message else e.text
  }

  /** The message the line evidently intends: the prefix followed by the cause. */
  function BindFailureMessage(e: BindError): (m: string)
    ensures |m| >= |AUTH_FAILED_PREFIX|
    ensures m[..|AUTH_FAILED_PREFIX|] == AUTH_FAILED_PREFIX
    ensures e.isError ==> m[|AUTH_FAILED_PREFIX|..] == e.message
    ensures !e.isError ==> m[|AUTH_FAILED_PREFIX|..] == e.text
  {
    AUTH_FAILED_PREFIX + (if e.isError then e.message else e.text)
  }

  /**
   * As written, the message is the bare `message` field whatever the cause is; for a cause
   * that is an Error it therefore always differs from the intended, prefixed message.
   */
  lemma BindFailurePrefixLost(e: BindError)
    ensures BindFailureMessageAsWritten(e) == e.message
    ensures e.isError ==> BindFailureMessageAsWritten(e) != BindFailureMessage(e)
  {
    assert Truthy(Str(AUTH_FAILED_PREFIX + BoolText(e.isError)));
    if e.isError {
      assert |BindFailureMessage(e)| == |AUTH_FAILED_PREFIX| + |e.message|;
    }
  }

  /** The message for a property that is absent or not a non-empty string. */
  function MissingProperty(name: string): string {
    "'" + name + "' property is missing or invalid."
  }

  /** The message for an argument that is neither falsy nor an object. */
  function NotAnObject(name: string): string {
    "'" + name + "' argument is invalid."
  }

  // Each validation message names, in quotes, the field it is about; the tests look for these words.

  lemma MissingPropertyNamesIt(name: string)
    ensures OccursAt(MissingProperty(name), name, 1)
    ensures Mentions(MissingProperty(name), name)
  {
    OccursBetween("'", name, "' property is missing or invalid.");
  }

  lemma NotAnObjectNamesIt(name: string)
    ensures OccursAt(NotAnObject(name), name, 1)
    ensures Mentions(NotAnObject(name), name)
  {
    OccursBetween("'", name, "' argument is invalid.");
  }
}
