/**
 * The auth service's registration page (accounts/static/js/register.js):
 * the password match check, the request, the error message chosen from the
 * service's field errors, the button and spinner, and the email autofill.
 */
module Register {
  import opened Common
  import opened AuthClientApi

  /** The body `register` posts. */
  datatype RegisterRequest = RegisterRequest(
    username: string, email: string, password: string, password2: string, firstName: string, lastName: string)

  /**
   * A reply body of the registration endpoint: the token on success, and on
   * failure the per-field error lists (absent when a field has none).
   */
  datatype RegisterPayload = RegisterPayload(
    token: string, password: Option<seq<string>>, username: Option<seq<string>>, email: Option<seq<string>>)

  /** A caught failure carries only `{error}`, none of the field lists. */
  function ThrownRegister(message: string): RegisterPayload {
    RegisterPayload("", None, None, None)
  }

  /** `list[0]`; an empty list gives undefined, which is written as 'undefined'. */
  function FirstOf(errors: seq<string>): string {
    if |errors| > 0 then errors[0] else "undefined"
  }

  /**
   * The failure message: the password's first error, else the username's,
   * else the email's, else 'Registration failed'.
   */
  function ErrorMessage(data: RegisterPayload): (m: string)
    ensures data.password.Some? ==> m == FirstOf(data.password.value)
    ensures data.password.None? && data.username.Some? ==> m == FirstOf(data.username.value)
    ensures data.password.None? && data.username.None? && data.email.Some? ==> m == FirstOf(data.email.value)
    ensures data.password.None? && data.username.None? && data.email.None? ==> m == "Registration failed"
  {
    if data.password.Some? then FirstOf(data.password.value)
    else if data.username.Some? then FirstOf(data.username.value)
    else if data.email.Some? then FirstOf(data.email.value)
    else "Registration failed"
  }

  /**
   * A registration that does not reach the service (or whose reply is not
   * JSON) shows the generic message, not the reason it failed.
   */
  lemma UnreachedShowsGeneric(reply: Reply<RegisterPayload>)
    requires !reply.Replied?
    ensures !ApiCall(reply, ThrownRegister).success
    ensures ErrorMessage(ApiCall(reply, ThrownRegister).data) == "Registration failed"
  {
  }

  /** A password error outranks every other field's error, whatever they say. */
  lemma PasswordErrorFirst(data: RegisterPayload, username: Option<seq<string>>, email: Option<seq<string>>)
    requires data.password.Some?
    ensures ErrorMessage(data.(username := username, email := email)) == ErrorMessage(data)
  {
  }

  /** The form's message line, its style, the submit button and the spinner. */
  class RegisterForm {
    var message: string
    var messageClass: string
    var buttonDisabled: bool
    var spinnerShown: bool

    constructor ()
      ensures message == "" && messageClass == "message" && !buttonDisabled && !spinnerShown
    {
      message := "";
      messageClass := "message";
      buttonDisabled := false;
      spinnerShown := false;
    }
  }

  /**
   * `handleRegister`: differing passwords stop with an error and nothing
   * sent. Otherwise the request goes out with the button disabled and the
   * spinner shown; success stores the returned token and leads to the
   * dashboard, failure shows the chosen error and gives the button and the
   * spinner back.
   */
  method HandleRegister(client: Client, form: RegisterForm, username: string, email: string, firstName: string, lastName: string,
                        password: string, password2: string, reply: Reply<RegisterPayload>)
    returns (sent: Option<RegisterRequest>, target: Option<string>)
    modifies form, client`token
    ensures password != password2 ==>
      sent.None? && target.None? && form.message == "✗ Passwords do not match!" && form.messageClass == "message error" &&
      form.buttonDisabled == old(form.buttonDisabled) && form.spinnerShown == old(form.spinnerShown) &&
      client.token == old(client.token)
    ensures password == password2 ==>
      sent == Some(RegisterRequest(username, email, password, password2, firstName, lastName))
    ensures password == password2 && ApiCall(reply, ThrownRegister).success ==>
      client.token == Some(ApiCall(reply, ThrownRegister).data.token) &&
      form.message == "✓ Registration successful! Redirecting..." && form.messageClass == "message success" &&
      form.buttonDisabled && form.spinnerShown && target == Some("/dashboard/")
    ensures password == password2 && !ApiCall(reply, ThrownRegister).success ==>
      client.token == old(client.token) && target.None? &&
      form.message == "✗ " + ErrorMessage(ApiCall(reply, ThrownRegister).data) && form.messageClass == "message error" &&
      !form.buttonDisabled && !form.spinnerShown
  {
    form.message := "";
    form.messageClass := "message";
    if password != password2 {
      form.message := "✗ Passwords do not match!";
      form.messageClass := "message error";
      return None, None;
    }
    form.spinnerShown := true;
    form.buttonDisabled := true;
    sent := Some(RegisterRequest(username, email, password, password2, firstName, lastName));
    var response := ApiCall(reply, ThrownRegister);
    if response.success {
      client.SetToken(response.data.token);
      form.message := "✓ Registration successful! Redirecting...";
      form.messageClass := "message success";
      target := Some("/dashboard/");
    } else {
      form.message := "✗ " + ErrorMessage(response.data);
      form.messageClass := "message error";
      form.spinnerShown := false;
      form.buttonDisabled := false;
      target := None;
    }
  }

  /** The domain the autofilled email gets. */
  const EmailDomain: string := "@bamazon.com"

  /** The email autofill: the trimmed username and '@bamazon.com', or '' for a blank username. */
  function AutofillEmail(username: string): (email: string)
    ensures Trim(username) != "" ==> email == Trim(username) + EmailDomain
    ensures Trim(username) == "" ==> email == ""
  {
    var name := Trim(username);
    if name != "" then name + EmailDomain else ""
  }

  /**
   * The autofilled email is empty exactly for an all-blank username;
   * otherwise it starts with a non-space and ends with the domain.
   */
  lemma AutofillShape(username: string)
    ensures var email := AutofillEmail(username);
      (email == "" <==> forall i :: 0 <= i < |username| ==> IsSpace(username[i])) &&
      (email != "" ==> |email| > |EmailDomain| && email[|email| - |EmailDomain|..] == EmailDomain && !IsSpace(email[0]))
  {
    var name := Trim(username);
    if name != "" {
      var email := name + EmailDomain;
      assert email[|email| - |EmailDomain|..] == EmailDomain;
      assert email[0] == name[0];
    }
  }

  /** The page start: a stored token means the user is sent on to the dashboard. */
  method Start(client: Client) returns (target: Option<string>)
    ensures target.Some? <==> client.token.Some?
    ensures target.Some? ==> target.value == "/dashboard/"
  {
    var signedIn := client.IsAuthenticated();
    target := if signedIn then Some("/dashboard/") else None;
  }
}
