/**
 * The login form: one input that routes the text "admin" to the username and anything else
 * to the email, and the credentials built from it.
 */
module ClientLogin {
  import opened Wrappers
  import opened Text
  import opened ClientTypes
  import opened AuthRoutes
  import opened Database
  import opened Middleware

  /** The credentials `handleLogin` builds from the form's fields. */
  function CredentialsFor(email: string, username: string, password: string): (c: Credentials)
    ensures c.pwd == Some(password)
    ensures c.username.Some? <==> username != ""
    ensures c.email.Some? <==> username == ""
    ensures c.username.Some? ==> c.username.value == username
    ensures c.email.Some? ==> c.email.value == email
  {
    if username != "" then Credentials(None, Some(password), Some(username))
    else Credentials(Some(email), Some(password), None)
  }

  class LoginForm {
    var email: string
    var password: string
    var username: string
    var error: string
    /** The token kept for the next page load. */
    var storedToken: Option<string>

    constructor(storedToken: Option<string>)
      ensures email == "" && password == "" && username == "" && error == ""
      ensures this.storedToken == storedToken
    {
      email, password, username, error := "", "", "", "";
      this.storedToken := storedToken;
    }

    /** What the single input shows: `email || username`. */
    function Shown(): (s: string)
      reads this
      ensures s == "" <==> email == "" && username == ""
      ensures email != "" ==> s == email
    {
      if email != "" then email else username
    }

    /** The input's `onChange`. */
    method OnChange(value: string)
      modifies this`email, this`username
      ensures value == ADMIN_USERNAME ==> username == value && email == ""
      ensures value != ADMIN_USERNAME ==> email == value && username == ""
      ensures Shown() == value
    {
      if value == ADMIN_USERNAME {
        username := value;
        email := "";
      } else {
        email := value;
        username := "";
      }
    }

    /** The password input's `onChange`. */
    method OnPasswordChange(value: string)
      modifies this`password
      ensures password == value
    {
      password := value;
    }

    /** `handleLogin`: builds the credentials, keeps the token on success and reports
        'Invalid credentials' on failure. */
    method HandleLogin(response: ApiResult<string>) returns (sent: Credentials)
      modifies this`storedToken, this`error
      ensures sent == CredentialsFor(email, username, password)
      ensures response.Ok? ==> storedToken == Some(response.value) && error == old(error)
      ensures response.Failed? ==> error == "Invalid credentials" && storedToken == old(storedToken)
    {
      sent := Credentials(None, Some(password), None);
      if username != "" {
        sent := sent.(username := Some(username));
      } else {
        sent := sent.(email := Some(email));
      }
      if response.Ok? {
        storedToken := Some(response.value);
      } else {
        error := "Invalid credentials";
      }
    }
  }

  /** Typing "admin" with the fixed password takes the server's admin branch. */
  lemma AdminInputLogsInAsAdmin(db: Db, sign: Signer)
    ensures IsAdminLogin(CredentialsFor("", ADMIN_USERNAME, ADMIN_PASSWORD))
    ensures Login(db, CredentialsFor("", ADMIN_USERNAME, ADMIN_PASSWORD), sign)
            == LoginReply(200, Some(sign(ADMIN_PAYLOAD)), Some(ADMIN_PAYLOAD))
  {
  }

  /** Typing "admin" with any other non-empty password sends no email, which the server
      answers with 500, not 401. */
  lemma AdminInputWrongPasswordIsServerError(db: Db, sign: Signer, password: string)
    requires password != "" && password != ADMIN_PASSWORD
    ensures Login(db, CredentialsFor("", ADMIN_USERNAME, password), sign).status == 500
  {
  }
}
