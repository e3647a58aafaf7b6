/**
 * The configuration flow (custom_components/themo/config_flow.py): the user
 * step turns the outcome of one authentication attempt into either a new
 * config entry or the credential form with one error code; the options step
 * only shows the form.
 */
module ConfigFlow {
  import opened Wrappers
  import Integration

  const EntryTitle := "Themo"

  /** How the attempt inside the user step's `try` ends. */
  datatype AuthOutcome =
    | Authenticated
    | AuthenticationError   // ThemoAuthenticationError
    | ConnectionError       // ThemoConnectionError
    | OtherException        // any other exception

  datatype FlowResult =
    | CreateEntry(title: string, data: map<string, string>)
    | ShowForm(stepId: string, errors: Option<map<string, string>>)

  /** The error code each failed attempt is reported under. */
  function ErrorCode(outcome: AuthOutcome): (code: string)
    requires !outcome.Authenticated?
    ensures outcome.AuthenticationError? ==> code == "invalid_auth"
    ensures outcome.ConnectionError? ==> code == "cannot_connect"
    ensures outcome.OtherException? ==> code == "unknown"
  {
    match outcome
    case AuthenticationError => "invalid_auth"
    case ConnectionError => "cannot_connect"
    case OtherException => "unknown"
  }

  /** The three failure categories stay distinguishable. */
  lemma ErrorCodesDistinct(a: AuthOutcome, b: AuthOutcome)
    requires !a.Authenticated? && !b.Authenticated?
    ensures ErrorCode(a) == ErrorCode(b) <==> a == b
  {
    if a != b {
      assert ErrorCode(a)[0] != ErrorCode(b)[0];
    }
  }

  /**
   * How the attempt ends: reading a missing credential raises a KeyError,
   * which the last `except` catches; otherwise `auth` is what creating the
   * client and authenticating does.
   */
  function Attempt(input: map<string, string>, auth: AuthOutcome): AuthOutcome
  {
    if Integration.Username !in input || Integration.Password !in input then OtherException
    else auth
  }

  /**
   * `async_step_user`. With no input the form is shown with no errors; a
   * successful attempt creates an entry titled "Themo" holding the input as
   * it is; a failed one shows the form with one "base" error.
   */
  function StepUser(userInput: Option<map<string, string>>, auth: AuthOutcome): (r: FlowResult)
    ensures userInput.None? ==> r == ShowForm("user", Some(map[]))
    ensures r.CreateEntry? <==> userInput.Some? && Attempt(userInput.value, auth).Authenticated?
    ensures r.CreateEntry? ==> r.title == EntryTitle && r.data == userInput.value
    ensures userInput.Some? && !Attempt(userInput.value, auth).Authenticated? ==>
      r == ShowForm("user", Some(map["base" := ErrorCode(Attempt(userInput.value, auth))]))
  {
    if userInput.None? then ShowForm("user", Some(map[]))
    else
      var outcome := Attempt(userInput.value, auth);
      if outcome.Authenticated? then CreateEntry(EntryTitle, userInput.value)
      else ShowForm("user", Some(map["base" := ErrorCode(outcome)]))
  }

  /**
   * With input, exactly one of two things happens: an entry is created, or
   * the form is shown again with exactly one error, under "base".
   */
  lemma ExactlyOneOutcome(input: map<string, string>, auth: AuthOutcome)
    ensures var r := StepUser(Some(input), auth);
      r.CreateEntry? != (r.ShowForm? && r.errors.Some? && r.errors.value.Keys == {"base"})
  {
  }

  /** Missing credentials are reported as "unknown", whatever the client would have done. */
  lemma MissingCredentialsUnknown(input: map<string, string>, auth: AuthOutcome)
    requires Integration.Username !in input || Integration.Password !in input
    ensures StepUser(Some(input), auth) == ShowForm("user", Some(map["base" := "unknown"]))
  {
  }

  /** `async_step_init` of the options flow: the credential form, with no errors and no entry. */
  function StepInit(userInput: Option<map<string, string>>): (r: FlowResult)
    ensures r.ShowForm? && r.stepId == "init" && r.errors.None?
  {
    ShowForm("init", None)
  }
}
