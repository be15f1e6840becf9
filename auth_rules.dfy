/**
 * The rule sets of src/auth/authRules.validation.ts: login credentials and the
 * `Authorization` header.
 */
module AuthRules {
  import opened Wrappers
  import opened Domain
  import opened Messages
  import opened Validation
  import opened FieldErrors

  function UserLoginRules(): seq<Chain> {
    [ Chain(Body, "username", false,
        [Rule(NotEmpty, UsernameRequired), Rule(IsLength(3, None), UsernameMinLength), Rule(IsLength(0, Some(20)), UsernameMaxLength)]),
      Chain(Body, "password", false,
        [Rule(NotEmpty, PasswordRequired), Rule(IsLength(7, None), PasswordMinLength), Rule(Matches(PasswordPattern), PasswordMustHaveCharacters)]) ]
  }

  /** `header("Authorization")`: header names are matched in lower case. */
  function HeaderValidationRules(): seq<Chain> {
    [Chain(Headers, "authorization", false, [Rule(NotEmpty, AuthHeaderRequired)])]
  }

  lemma UsernameChainErrors(req: Request)
    ensures RunChain(UserLoginRules()[0], req) == UsernameErrors(FieldValue(req, Body, "username"))
  {
    RunRulesUnfold(UserLoginRules()[0].rules, AsInput(FieldValue(req, Body, "username")));
  }

  lemma PasswordChainErrors(req: Request)
    ensures RunChain(UserLoginRules()[1], req) == LoginPasswordErrors(FieldValue(req, Body, "password"))
  {
    RunRulesUnfold(UserLoginRules()[1].rules, AsInput(FieldValue(req, Body, "password")));
  }

  /** The login errors: the username's, then the password's. */
  function LoginErrors(req: Request): (errors: seq<string>)
    ensures errors == UsernameErrors(FieldValue(req, Body, "username"))
                    + LoginPasswordErrors(FieldValue(req, Body, "password"))
  {
    var rules := UserLoginRules();
    ValidateTwo(rules[0], rules[1], req);
    UsernameChainErrors(req);
    PasswordChainErrors(req);
    Validate(rules, req)
  }

  /** The header errors: one message exactly when the header is missing or empty. */
  function HeaderErrors(req: Request): (errors: seq<string>)
    ensures errors == AuthorizationErrors(FieldValue(req, Headers, "authorization"))
  {
    var rules := HeaderValidationRules();
    ValidateOne(rules[0], req);
    RunRulesUnfold(rules[0].rules, AsInput(FieldValue(req, Headers, "authorization")));
    Validate(rules, req)
  }

  /** A login request with neither field reports five messages, the username's first. */
  lemma LoginWithoutCredentials(req: Request)
    requires "username" !in req.body && "password" !in req.body
    ensures LoginErrors(req) ==
      [UsernameRequired, UsernameMinLength, PasswordRequired, PasswordMinLength, PasswordMustHaveCharacters]
  {
  }
}
