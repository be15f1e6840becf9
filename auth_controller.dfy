/**
 * src/auth/auth.controller.ts: `loginUser`. The stages run in the order validation, user
 * lookup, password comparison, token signing; the first that fails decides the single
 * response. The user model's `findOne`, bcrypt's `compare`, jsonwebtoken's `sign` and the
 * `KEY` environment variable are parameters.
 */
module AuthController {
  import opened Wrappers
  import opened Domain
  import opened Messages
  import opened Errors
  import opened Validation
  import opened AuthRules
  import opened Http

  /** The payload signed into the token. */
  datatype Claims = Claims(username: string)

  /** The token lifetime given to `sign`. */
  const TokenLifetime := "1h"

  /** The calls into libraries a login makes, in order. */
  datatype Stage = FindUser | ComparePassword | SignToken

  const AllStages := [FindUser, ComparePassword, SignToken]

  /** The response of one login, with the library calls it made. */
  datatype LoginRun = LoginRun(response: Write, calls: seq<Stage>)

  const AuthFailure := Write(401, Message(Some(AuthFailed)))
  const ServerFailure := Write(ServerErrorHttpCode, Message(Some(CommonServerError)))

  function Username(req: Request): Value {
    FieldValue(req, Body, "username")
  }

  function Password(req: Request): Value {
    FieldValue(req, Body, "password")
  }

  /** The lookup found no user with that username. */
  predicate UnknownUser(req: Request, findOne: Value -> Outcome<Option<User>>) {
    findOne(Username(req)) == Returned(None)
  }

  /** A user was found and the comparison answered. */
  predicate Compared(req: Request, findOne: Value -> Outcome<Option<User>>, compare: (Value, string) -> Outcome<bool>) {
    && findOne(Username(req)).Returned? && findOne(Username(req)).value.Some?
    && compare(Password(req), findOne(Username(req)).value.value.password).Returned?
  }

  predicate WrongPassword(req: Request, findOne: Value -> Outcome<Option<User>>, compare: (Value, string) -> Outcome<bool>) {
    Compared(req, findOne, compare) && !compare(Password(req), findOne(Username(req)).value.value.password).value
  }

  predicate PasswordMatches(req: Request, findOne: Value -> Outcome<Option<User>>, compare: (Value, string) -> Outcome<bool>) {
    Compared(req, findOne, compare) && compare(Password(req), findOne(Username(req)).value.value.password).value
  }

  /** `loginUser`. */
  function LoginUser(req: Request, key: Value, findOne: Value -> Outcome<Option<User>>,
                     compare: (Value, string) -> Outcome<bool>,
                     sign: (Claims, Value, string) -> Outcome<string>): (run: LoginRun)
    ensures run.calls <= AllStages
    ensures run.response.status in {400, 401, 200, ServerErrorHttpCode}
    ensures run.response.status == 400 <==> LoginErrors(req) != []
    ensures run.response.status == 400 ==> run == LoginRun(BadRequestWrite(LoginErrors(req)), [])
    ensures run.response.status == 401 <==>
      LoginErrors(req) == [] && (UnknownUser(req, findOne) || WrongPassword(req, findOne, compare))
    ensures run.response.status == 401 ==> run.response == AuthFailure
    ensures LoginErrors(req) == [] && UnknownUser(req, findOne) ==> run.calls == [FindUser]
    ensures run.response.status == 200 <==>
      && LoginErrors(req) == [] && PasswordMatches(req, findOne, compare)
      && sign(Claims(findOne(Username(req)).value.value.username), key, TokenLifetime).Returned?
    ensures run.response.status == 200 ==>
      && run.calls == AllStages
      && run.response.body == Token(sign(Claims(findOne(Username(req)).value.value.username), key, TokenLifetime).value)
    ensures run.response.status == ServerErrorHttpCode <==>
      LoginErrors(req) == [] &&
      (|| findOne(Username(req)).Threw?
       || (findOne(Username(req)).Returned? && findOne(Username(req)).value.Some?
           && compare(Password(req), findOne(Username(req)).value.value.password).Threw?)
       || (PasswordMatches(req, findOne, compare)
           && sign(Claims(findOne(Username(req)).value.value.username), key, TokenLifetime).Threw?))
    ensures run.response.status == ServerErrorHttpCode ==> run.response == ServerFailure
  {
    var errors := LoginErrors(req);
    if errors != [] then LoginRun(BadRequestWrite(errors), [])
    else match findOne(Username(req))
      case Threw => LoginRun(ServerFailure, [FindUser])
      case Returned(None) => LoginRun(AuthFailure, [FindUser])
      case Returned(Some(user)) =>
        match compare(Password(req), user.password)
        case Threw => LoginRun(ServerFailure, [FindUser, ComparePassword])
        case Returned(false) => LoginRun(AuthFailure, [FindUser, ComparePassword])
        case Returned(true) =>
          match sign(Claims(user.username), key, TokenLifetime)
          case Threw => LoginRun(ServerFailure, AllStages)
          case Returned(token) => LoginRun(Write(200, Token(token)), AllStages)
  }

  /** An unknown username and a wrong password cannot be told apart from the response. */
  lemma FailedLoginsIndistinguishable(req: Request, key: Value, findOne: Value -> Outcome<Option<User>>,
                                      compare: (Value, string) -> Outcome<bool>, sign: (Claims, Value, string) -> Outcome<string>,
                                      other: Request, otherFindOne: Value -> Outcome<Option<User>>,
                                      otherCompare: (Value, string) -> Outcome<bool>)
    requires LoginErrors(req) == [] && UnknownUser(req, findOne)
    requires LoginErrors(other) == [] && WrongPassword(other, otherFindOne, otherCompare)
    ensures LoginUser(req, key, findOne, compare, sign).response == LoginUser(other, key, otherFindOne, otherCompare, sign).response
  {
  }

  /** When the lookup finds no user, the password is never compared and no token is signed:
      the run does not depend on `compare` or `sign`. */
  lemma UnknownUserSkipsCompareAndSign(req: Request, key: Value, findOne: Value -> Outcome<Option<User>>,
                                       compare: (Value, string) -> Outcome<bool>, sign: (Claims, Value, string) -> Outcome<string>,
                                       otherCompare: (Value, string) -> Outcome<bool>,
                                       otherSign: (Claims, Value, string) -> Outcome<string>)
    requires UnknownUser(req, findOne)
    ensures LoginUser(req, key, findOne, compare, sign) == LoginUser(req, key, findOne, otherCompare, otherSign)
  {
  }

  /** A wrong password is answered without signing a token: the run does not depend on `sign`. */
  lemma WrongPasswordSkipsSign(req: Request, key: Value, findOne: Value -> Outcome<Option<User>>,
                               compare: (Value, string) -> Outcome<bool>, sign: (Claims, Value, string) -> Outcome<string>,
                               otherSign: (Claims, Value, string) -> Outcome<string>)
    requires WrongPassword(req, findOne, compare)
    ensures LoginUser(req, key, findOne, compare, sign) == LoginUser(req, key, findOne, compare, otherSign)
  {
  }

  /** A request that fails validation is answered without consulting the database. */
  lemma InvalidLoginSkipsLookup(req: Request, key: Value, findOne: Value -> Outcome<Option<User>>,
                                compare: (Value, string) -> Outcome<bool>, sign: (Claims, Value, string) -> Outcome<string>,
                                otherFindOne: Value -> Outcome<Option<User>>)
    requires LoginErrors(req) != []
    ensures LoginUser(req, key, findOne, compare, sign) == LoginUser(req, key, otherFindOne, compare, sign)
  {
  }
}
