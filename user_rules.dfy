/**
 * The registration rule set of src/presentation/middleware/userRules.validation.ts: one
 * presence check per field, each with the empty message, which the library reports with
 * its default text.
 */
module UserRules {
  import opened Domain
  import opened Validation
  import opened FieldErrors

  const RegistrationFields := ["username", "email", "password", "role"]

  function UserRegistrationRules(): seq<Chain> {
    [PresenceChain("username"), PresenceChain("email"), PresenceChain("password"), PresenceChain("role")]
  }

  function PresenceChain(field: string): Chain {
    Chain(Body, field, false, [Rule(NotEmpty, "")])
  }

  lemma PresenceChainErrors(field: string, req: Request)
    ensures RunChain(PresenceChain(field), req) == RegistrationFieldErrors(FieldValue(req, Body, field))
  {
    RunRulesUnfold(PresenceChain(field).rules, AsInput(FieldValue(req, Body, field)));
  }

  /** Registered users are checked field by field, in the order username, email, password, role. */
  function RegistrationErrors(req: Request): (errors: seq<string>)
    ensures errors == RegistrationFieldErrors(FieldValue(req, Body, "username"))
                    + RegistrationFieldErrors(FieldValue(req, Body, "email"))
                    + RegistrationFieldErrors(FieldValue(req, Body, "password"))
                    + RegistrationFieldErrors(FieldValue(req, Body, "role"))
  {
    var rules := UserRegistrationRules();
    ValidateFour(rules[0], rules[1], rules[2], rules[3], req);
    PresenceChainErrors("username", req);
    PresenceChainErrors("email", req);
    PresenceChainErrors("password", req);
    PresenceChainErrors("role", req);
    AppendAssociative4(
      RegistrationFieldErrors(FieldValue(req, Body, "username")), RegistrationFieldErrors(FieldValue(req, Body, "email")),
      RegistrationFieldErrors(FieldValue(req, Body, "password")), RegistrationFieldErrors(FieldValue(req, Body, "role")));
    Validate(rules, req)
  }

  /** Registration passes exactly when all four fields are present and non-empty; there is
      no length or format check. */
  lemma RegistrationAccepts(req: Request)
    ensures RegistrationErrors(req) == [] <==>
      forall f :: f in RegistrationFields ==> f in req.body && req.body[f] != ""
  {
    assert RegistrationFields == ["username", "email", "password", "role"];
  }

  /** The empty `withMessage` texts are reported as the library's default: every
      registration error reads "Invalid value". */
  lemma RegistrationMessagesDefault(req: Request)
    ensures forall m :: m in RegistrationErrors(req) ==> m == DefaultMessage
  {
  }

  /** Without a length check, a two-character username passes. */
  lemma RegistrationAcceptsShortUsername(req: Request)
    requires req.body == map["username" := "ab", "email" := "e", "password" := "p", "role" := "r"]
    ensures RegistrationErrors(req) == []
  {
  }
}
