/**
 * The login screen's rules: two length checks on the entered credentials,
 * in a fixed order, then a comparison with one hard-coded account.
 */
module Login {
  import opened Wrappers
  import opened Texts
  import opened Regex

  /** The pattern `isValidEmail` matches the whole email against. */
  const EmailPattern: string := "[A-Z0-9a-z._%+-]+@[A-Za-z0-9.-]+\\.[A-Za-z]{2,64}"

  const MinUserNameLength: nat := 3
  const MinPasswordLength: nat := 6

  /** The one account that logs in. */
  const TestUser: string := "testuser"
  const TestPassword: string := "password123"

  datatype LoginModel = LoginModel(email: string, password: string) {

    /** `isValidEmail`: the email as a whole matches the email pattern. */
    predicate IsValidEmail(engine: RegexEngine) {
      engine.fullMatch(EmailPattern, email)
    }

    /** `isValidUserName`: at least three characters. */
    predicate IsValidUserName() {
      |email| >= MinUserNameLength
    }

    /** `isValidPassword`: at least six characters. */
    predicate IsValidPassword() {
      |password| >= MinPasswordLength
    }

    /**
     * `validate`: the user name is checked before the password, so a short
     * user name is what is reported even when the password is short too; the
     * email pattern is not consulted.
     */
    function Validate(): (result: (bool, Text))
      ensures result.0 <==> |email| >= 3 && |password| >= 6
      ensures result.0 ==> result.1 == Literal("")
      ensures |email| < 3 ==> result.1 == Key("invalid_username")
      ensures |email| >= 3 && |password| < 6 ==> result.1 == Key("invalid_password")
    {
      if !IsValidUserName() then (false, Key("invalid_username"))
      else if !IsValidPassword() then (false, Key("invalid_password"))
      else (true, Literal(""))
    }
  }

  /** ASCII lower-casing of one character. */
  function LowerChar(c: char): char {
    if 'A' <= c <= 'Z' then (c as int - 'A' as int + 'a' as int) as char else c
  }

  /** `lowercased()`, restricted to the ASCII letters. */
  function Lowercased(s: string): string {
    seq(|s|, i requires 0 <= i < |s| => LowerChar(s[i]))
  }

  /** Lower-casing an already lower-cased string changes nothing. */
  lemma LowercasedIdempotent(s: string)
    ensures Lowercased(Lowercased(s)) == Lowercased(s)
  {
    var t := Lowercased(s);
    assert forall i :: 0 <= i < |t| ==> LowerChar(t[i]) == t[i];
  }

  /** What one call of `login` reports: the completion's argument and the new `errorMessage`. */
  datatype LoginResult = LoginResult(success: bool, errorMessage: Option<Text>)

  /**
   * `login` on the entered credentials: the shape check first, then the
   * account comparison, case-insensitive on the email and exact on the
   * password.
   */
  function Authenticate(email: string, password: string): (r: LoginResult)
    ensures r.success <==> Lowercased(email) == TestUser && password == TestPassword
    ensures r.success <==> r.errorMessage.None?
    ensures !LoginModel(email, password).Validate().0 ==>
              r.errorMessage == Some(LoginModel(email, password).Validate().1)
    ensures LoginModel(email, password).Validate().0 && !r.success ==>
              r.errorMessage == Some(Key("user_not_found"))
  {
    var (isValid, validationError) := LoginModel(email, password).Validate();
    if !isValid then LoginResult(false, Some(validationError))
    else if Lowercased(email) == TestUser && password == TestPassword then LoginResult(true, None)
    else LoginResult(false, Some(Key("user_not_found")))
  }

  /** The hard-coded account always passes the shape check. */
  lemma TestAccountHasValidShape()
    ensures LoginModel(TestUser, TestPassword).Validate() == (true, Literal(""))
  {
  }

  /**
   * The shape check ignores the email pattern: with an engine that rejects
   * every email, the hard-coded account still passes it and logs in.
   */
  lemma ValidateIgnoresEmailFormat(engine: RegexEngine)
    requires forall s :: !engine.fullMatch(EmailPattern, s)
    ensures !LoginModel(TestUser, TestPassword).IsValidEmail(engine)
    ensures LoginModel(TestUser, TestPassword).Validate().0
    ensures Authenticate(TestUser, TestPassword).success
  {
    assert Lowercased(TestUser) == TestUser;
  }

  /** The email comparison ignores case: a login depends only on the lower-cased email. */
  lemma EmailCaseInsensitive(email: string, password: string)
    ensures Authenticate(Lowercased(email), password).success == Authenticate(email, password).success
  {
    LowercasedIdempotent(email);
  }

  /** The password comparison does not: the right password in capitals is refused. */
  lemma PasswordCaseSensitive()
    ensures Authenticate(TestUser, "PASSWORD123") == LoginResult(false, Some(Key("user_not_found")))
  {
    assert Lowercased(TestUser) == TestUser;
  }

  /** A user name in capitals still logs in. */
  lemma CapitalisedUserLogsIn()
    ensures Authenticate("TestUser", TestPassword) == LoginResult(true, None)
  {
    assert Lowercased("TestUser") == TestUser;
  }

  class LoginViewModel {
    var email: string
    var password: string
    var errorMessage: Option<Text>

    constructor ()
      ensures email == "" && password == "" && errorMessage == None
    {
      email := "";
      password := "";
      errorMessage := None;
    }

    /**
     * `login`: writes `errorMessage` on every path and reports the outcome
     * once, as the completion would; the credentials are left as they are.
     */
    method Login() returns (success: bool)
      modifies this`errorMessage
      ensures Authenticate(email, password) == LoginResult(success, errorMessage)
    {
      var r := Authenticate(email, password);
      errorMessage := r.errorMessage;
      success := r.success;
    }
  }
}
