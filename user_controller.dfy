/**
 * src/presentation/controllers/user.controller.ts: `registerUser`. Every branch returns
 * its response, so a request gets at most one; an error that is neither a NotFoundError nor
 * a ServerError falls off the end of the catch block with no response at all.
 */
module UserController {
  import opened Wrappers
  import opened Domain
  import opened Messages
  import opened Errors
  import opened Validation
  import opened UserRules
  import opened UserService
  import opened Http
  import TaskController

  /** The user `registerUser` builds: username, email and password; a `role` in the body is
      not passed on. */
  function NewUserFromBody(req: Request): UserDraft {
    UserDraft(FieldValue(req, Body, "username"), FieldValue(req, Body, "email"), FieldValue(req, Body, "password"))
  }

  /** The catch block: a response for the two service error classes, none for anything else. */
  function CaughtResponse(e: Error): Option<Write> {
    match e
    case NotFoundError(message) => Some(Write(NotFoundHttpCode, Message(Some(message))))
    case ServerError(message) => Some(Write(ServerErrorHttpCode, Message(Some(message))))
    case ForeignError => None
  }

  /** `registerUser`: a 400 and no service call when validation failed; otherwise 201 for a
      saved user and the caught error's response for a failure. */
  function RegisterUser(req: Request, addUser: UserDraft -> Outcome<User>): (w: Option<Write>)
    ensures RegistrationErrors(req) != [] ==> w == Some(BadRequestWrite(RegistrationErrors(req)))
    ensures RegistrationErrors(req) == [] ==>
      (w == Some(Write(201, Message(Some(UserRegistered)))) <==> addUser(NewUserFromBody(req)).Returned?)
    ensures RegistrationErrors(req) == [] && addUser(NewUserFromBody(req)).Threw? ==>
      w == Some(Write(ServerErrorHttpCode, Message(Some(UserServerError))))
  {
    var errors := RegistrationErrors(req);
    if errors != [] then Some(BadRequestWrite(errors))
    else match CreateUserProfile(NewUserFromBody(req), addUser)
      case Ok(_) => Some(Write(201, Message(Some(UserRegistered))))
      case Err(e) => CaughtResponse(e)
  }

  /** Since the user service lets only its own error classes escape, registration always
      answers. */
  lemma RegistrationAlwaysAnswers(req: Request, addUser: UserDraft -> Outcome<User>)
    ensures RegisterUser(req, addUser).Some?
  {
  }

  /** A rejected registration never reaches the repository: its response is the same
      whatever the repository would have done. */
  lemma RejectedRegistrationSkipsService(req: Request, addUser: UserDraft -> Outcome<User>,
                                         otherAddUser: UserDraft -> Outcome<User>)
    requires RegistrationErrors(req) != []
    ensures RegisterUser(req, addUser) == RegisterUser(req, otherAddUser)
  {
  }

  /** The registration catch, which returns after each response, answers with exactly the
      first write of the task handlers' catch; those write a second response only after a
      404. An error of neither class gets no answer here, where the task handlers write a
      500 without a message. */
  lemma CaughtResponseIsFirstCatchWrite(e: Error)
    ensures CaughtResponse(e).Some? <==> !e.ForeignError?
    ensures !e.ForeignError? ==> CaughtResponse(e) == Some(TaskController.CatchWrites(e)[0])
    ensures e.ServerError? ==> [CaughtResponse(e).value] == TaskController.CatchWrites(e)
    ensures e.ForeignError? ==> TaskController.CatchWrites(e) == [Write(ServerErrorHttpCode, Message(None))]
  {
  }

  /** The role in the body does not reach the new user. */
  lemma RoleIsIgnored(req: Request, role: string)
    ensures NewUserFromBody(req) == NewUserFromBody(Request(req.body["role" := role], req.headers))
  {
  }
}
