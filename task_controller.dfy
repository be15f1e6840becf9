/**
 * src/presentation/controllers/task.controller.ts: the six task handlers. Each one writes
 * a 400 when validation failed but does not return, so it goes on to call the service and
 * writes again; the catch blocks of all but `createTask` write a 404 for a NotFoundError
 * and then, unconditionally, a 500.
 */
module TaskController {
  import opened Wrappers
  import opened Domain
  import opened Messages
  import opened Errors
  import opened Validation
  import opened TaskRules
  import opened TaskService
  import opened Http

  /** The write of the validation block, if any. */
  function RejectionWrites(errors: seq<string>): seq<Write> {
    if errors == [] then [] else [BadRequestWrite(errors)]
  }

  /** The catch block of `createTask`: one 500, carrying the message only of a ServerError. */
  function CreateCatchWrites(e: Error): seq<Write> {
    [Write(ServerErrorHttpCode, Message(if e.ServerError? then Some(e.message) else None))]
  }

  /** The catch block of the other five handlers: a NotFoundError writes a 404 with its
      message and then a 500 without one; a ServerError writes one 500 with its message. */
  function CatchWrites(e: Error): (w: seq<Write>)
    ensures 1 <= |w| <= 2
    ensures w[|w| - 1].status == ServerErrorHttpCode
    ensures |w| == 2 <==> e.NotFoundError?
    ensures e.NotFoundError? ==> w == [Write(NotFoundHttpCode, Message(Some(e.message))), Write(ServerErrorHttpCode, Message(None))]
    ensures e.ServerError? ==> w == [Write(ServerErrorHttpCode, Message(Some(e.message)))]
  {
    (if e.NotFoundError? then [Write(NotFoundHttpCode, Message(Some(e.message)))] else [])
    + [Write(ServerErrorHttpCode, Message(if e.ServerError? then Some(e.message) else None))]
  }

  /** The record `createTask` builds: exactly subject, description, status and username. */
  function NewTaskFromBody(req: Request): TaskDraft {
    TaskDraft(BodyField(req, "subject"), BodyField(req, "description"), BodyField(req, "status"), BodyField(req, "username"))
  }

  /** The update request `updateTask` builds: exactly id, subject, description and status. */
  function TaskUpdateFromBody(req: Request): TaskUpdate {
    TaskUpdate(BodyField(req, "id"), BodyField(req, "subject"), BodyField(req, "description"), BodyField(req, "status"))
  }

  /** Other body fields do not reach the service. */
  lemma RecordsIgnoreOtherFields(req: Request, other: Request)
    requires forall f :: f in ["id", "subject", "description", "status", "username"] ==> BodyField(req, f) == BodyField(other, f)
    ensures NewTaskFromBody(req) == NewTaskFromBody(other)
    ensures TaskUpdateFromBody(req) == TaskUpdateFromBody(other)
  {
    assert "id" in ["id", "subject", "description", "status", "username"];
    assert "subject" in ["id", "subject", "description", "status", "username"];
    assert "description" in ["id", "subject", "description", "status", "username"];
    assert "status" in ["id", "subject", "description", "status", "username"];
    assert "username" in ["id", "subject", "description", "status", "username"];
  }

  // What the handlers write, as functions of the validation errors and the service result.

  /** The success write of each handler, applied to the service result. */
  function Created(r: Result<Task>): Result<Write> {
    match r case Ok(_) => Ok(Write(201, Message(Some(TaskCreated)))) case Err(e) => Err(e)
  }

  function Updated(r: Result<Task>): Result<Write> {
    match r case Ok(_) => Ok(Write(200, Message(Some(TaskUpdated)))) case Err(e) => Err(e)
  }

  function Deleted(r: Result<Task>): Result<Write> {
    match r case Ok(_) => Ok(Write(204, EmptyObject)) case Err(e) => Err(e)
  }

  function TasksFound(r: Result<seq<Task>>): Result<Write> {
    match r case Ok(tasks) => Ok(Write(200, TaskList(tasks))) case Err(e) => Err(e)
  }

  function TaskFound(r: Result<Task>): Result<Write> {
    match r case Ok(task) => Ok(Write(200, OneTask(task))) case Err(e) => Err(e)
  }

  /** What `createTask` writes: the 400 if validation failed, then the outcome of the
      service call, which is made in either case. */
  function CreateTaskWrites(errors: seq<string>, outcome: Result<Write>): (w: seq<Write>)
    ensures errors == [] ==> |w| == 1
    ensures errors != [] ==> |w| == 2 && w[0] == BadRequestWrite(errors)
    ensures outcome.Ok? ==> w[|w| - 1] == outcome.value
    ensures outcome.Err? && outcome.error.ServerError? ==>
      w[|w| - 1] == Write(ServerErrorHttpCode, Message(Some(outcome.error.message)))
    ensures outcome.Err? && !outcome.error.ServerError? ==> w[|w| - 1] == Write(ServerErrorHttpCode, Message(None))
  {
    RejectionWrites(errors) + match outcome case Ok(success) => [success] case Err(e) => CreateCatchWrites(e)
  }

  /** What the other five handlers write: the 400 if validation failed, then the success
      write or the catch block's writes. A rejected request therefore always gets a second
      response, and a NotFoundError a 404 followed by a 500. */
  function HandlerWrites(errors: seq<string>, outcome: Result<Write>): (w: seq<Write>)
    ensures 1 <= |w| <= 3
    ensures errors != [] ==> w[0] == BadRequestWrite(errors) && |w| >= 2
    ensures errors == [] && outcome.Ok? ==> w == [outcome.value]
    ensures errors != [] && outcome.Ok? ==> w == [BadRequestWrite(errors), outcome.value]
    ensures errors == [] && outcome.Err? ==> w == CatchWrites(outcome.error)
    ensures errors != [] && outcome.Err? ==> w == [BadRequestWrite(errors)] + CatchWrites(outcome.error)
    ensures |w| == 1 <==> errors == [] && (outcome.Ok? || !outcome.error.NotFoundError?)
  {
    RejectionWrites(errors) + match outcome case Ok(success) => [success] case Err(e) => CatchWrites(e)
  }

  /** A task the service did not find is answered twice: 404 with the message, then 500
      without one. */
  lemma NotFoundAnsweredTwice(errors: seq<string>, message: string)
    ensures HandlerWrites(errors, Err(NotFoundError(message)))
      == (if errors == [] then [] else [BadRequestWrite(errors)])
         + [Write(NotFoundHttpCode, Message(Some(message))), Write(ServerErrorHttpCode, Message(None))]
  {
  }

  /** A ServerError after successful validation is answered exactly once. */
  lemma ServerErrorAnsweredOnce(message: string)
    ensures HandlerWrites([], Err(ServerError(message))) == [Write(ServerErrorHttpCode, Message(Some(message)))]
  {
  }

  // The handlers, writing to the response step by step.

  /** The validation block: a 400 when there are errors, and no return. */
  method RejectIfInvalid(errors: seq<string>, res: Response)
    modifies res
    ensures res.writes == old(res.writes) + RejectionWrites(errors)
  {
    if errors != [] {
      res.Json(400, BadRequest(BadRequestMessage, errors));
    }
  }

  /** The catch block shared by update, delete and the fetches. */
  method WriteCaught(e: Error, res: Response)
    modifies res
    ensures res.writes == old(res.writes) + CatchWrites(e)
  {
    if e.NotFoundError? {
      res.Json(NotFoundHttpCode, Message(Some(e.message)));
    }
    var message := None;
    if e.ServerError? {
      message := Some(e.message);
    }
    res.Json(ServerErrorHttpCode, Message(message));
  }

  /** The validation block and the `try`/`catch` that follows it, shared by update, delete
      and the fetches: the 400 is written without returning. */
  method Handle(errors: seq<string>, outcome: Result<Write>, res: Response)
    modifies res
    ensures res.writes == old(res.writes) + HandlerWrites(errors, outcome)
  {
    ghost var before := res.writes;
    RejectIfInvalid(errors, res);
    ghost var tail: seq<Write>;
    if outcome.Ok? {
      res.Json(outcome.value.status, outcome.value.body);
      tail := [outcome.value];
    } else {
      WriteCaught(outcome.error, res);
      tail := CatchWrites(outcome.error);
    }
    assert HandlerWrites(errors, outcome) == RejectionWrites(errors) + tail;
    assert res.writes == before + RejectionWrites(errors) + tail;
  }

  /** The validation block and the `try`/`catch` of `createTask`. */
  method HandleCreation(errors: seq<string>, outcome: Result<Write>, res: Response)
    modifies res
    ensures res.writes == old(res.writes) + CreateTaskWrites(errors, outcome)
  {
    RejectIfInvalid(errors, res);
    if outcome.Ok? {
      res.Json(outcome.value.status, outcome.value.body);
    } else {
      var serverErrorMessage := None;
      if outcome.error.ServerError? {
        serverErrorMessage := Some(outcome.error.message);
      }
      res.Json(ServerErrorHttpCode, Message(serverErrorMessage));
    }
  }

  method CreateTask(req: Request, addTask: TaskDraft -> Outcome<Task>, res: Response)
    modifies res
    ensures res.writes == old(res.writes)
      + CreateTaskWrites(TaskCreationErrors(req), Created(CreateTaskRecord(NewTaskFromBody(req), addTask)))
  {
    HandleCreation(TaskCreationErrors(req), Created(CreateTaskRecord(NewTaskFromBody(req), addTask)), res);
  }

  method UpdateTask(req: Request, toObjectId: Value -> Outcome<ObjectId>,
                    updateTask: (ObjectId, TaskChanges) -> Outcome<Option<Task>>, res: Response)
    modifies res
    ensures res.writes == old(res.writes)
      + HandlerWrites(TaskUpdateErrors(req), Updated(UpdateTaskRecord(TaskUpdateFromBody(req), toObjectId, updateTask)))
  {
    Handle(TaskUpdateErrors(req), Updated(UpdateTaskRecord(TaskUpdateFromBody(req), toObjectId, updateTask)), res);
  }

  method DeleteTask(req: Request, toObjectId: Value -> Outcome<ObjectId>,
                    deleteTask: ObjectId -> Outcome<Option<Task>>, res: Response)
    modifies res
    ensures res.writes == old(res.writes)
      + HandlerWrites(TaskDeletionErrors(req), Deleted(DeleteTaskRecord(BodyField(req, "id"), toObjectId, deleteTask)))
  {
    Handle(TaskDeletionErrors(req), Deleted(DeleteTaskRecord(BodyField(req, "id"), toObjectId, deleteTask)), res);
  }

  method FetchTasksByUsername(req: Request, getTasksByUsername: Value -> Outcome<seq<Task>>, res: Response)
    modifies res
    ensures res.writes == old(res.writes)
      + HandlerWrites(TaskFetchingByUsernameErrors(req), TasksFound(RetrieveTasksByUsername(BodyField(req, "username"), getTasksByUsername)))
  {
    Handle(TaskFetchingByUsernameErrors(req), TasksFound(RetrieveTasksByUsername(BodyField(req, "username"), getTasksByUsername)), res);
  }

  method FetchTaskBySubject(req: Request, getTaskBySubject: Value -> Outcome<Option<Task>>, res: Response)
    modifies res
    ensures res.writes == old(res.writes)
      + HandlerWrites(TaskFetchingBySubjectErrors(req), TaskFound(RetrieveTaskBySubject(BodyField(req, "subject"), getTaskBySubject)))
  {
    Handle(TaskFetchingBySubjectErrors(req), TaskFound(RetrieveTaskBySubject(BodyField(req, "subject"), getTaskBySubject)), res);
  }

  method FetchTasksByStatus(req: Request, getTasksByStatus: Value -> Outcome<seq<Task>>, res: Response)
    modifies res
    ensures res.writes == old(res.writes)
      + HandlerWrites(TaskFetchingByStatusErrors(req), TasksFound(RetrieveTasksByStatus(BodyField(req, "status"), getTasksByStatus)))
  {
    Handle(TaskFetchingByStatusErrors(req), TasksFound(RetrieveTasksByStatus(BodyField(req, "status"), getTasksByStatus)), res);
  }

  // The handlers as evidently intended: returning after each response.

  /** One response per request: the 400 when validation failed (and no service call), else
      the success write, else the catch block's first write. */
  function SingleResponse(errors: seq<string>, outcome: Result<Write>): (w: seq<Write>)
    ensures |w| == 1
    ensures errors != [] ==> w[0] == BadRequestWrite(errors)
    ensures errors == [] && outcome.Ok? ==> w[0] == outcome.value
    ensures errors == [] && outcome.Err? && outcome.error.NotFoundError? ==>
      w[0] == Write(NotFoundHttpCode, Message(Some(outcome.error.message)))
    ensures errors == [] && outcome.Err? && !outcome.error.NotFoundError? ==> w[0].status == ServerErrorHttpCode
    ensures errors == [] && outcome.Err? && outcome.error.ServerError? ==>
      w[0] == Write(ServerErrorHttpCode, Message(Some(outcome.error.message)))
  {
    if errors != [] then RejectionWrites(errors)
    else match outcome case Ok(success) => [success] case Err(e) => [CatchWrites(e)[0]]
  }

  /** `updateTask` with a `return` after the 400 and after the 404. */
  method UpdateTaskReturningEarly(req: Request, toObjectId: Value -> Outcome<ObjectId>,
                                  updateTask: (ObjectId, TaskChanges) -> Outcome<Option<Task>>, res: Response)
    modifies res
    ensures res.writes == old(res.writes)
      + SingleResponse(TaskUpdateErrors(req), Updated(UpdateTaskRecord(TaskUpdateFromBody(req), toObjectId, updateTask)))
  {
    var errors := TaskUpdateErrors(req);
    if errors != [] {
      res.Json(400, BadRequest(BadRequestMessage, errors));
      return;
    }
    var outcome := Updated(UpdateTaskRecord(TaskUpdateFromBody(req), toObjectId, updateTask));
    if outcome.Ok? {
      res.Json(outcome.value.status, outcome.value.body);
      return;
    }
    if outcome.error.NotFoundError? {
      res.Json(NotFoundHttpCode, Message(Some(outcome.error.message)));
      return;
    }
    res.Json(ServerErrorHttpCode, Message(if outcome.error.ServerError? then Some(outcome.error.message) else None));
  }
}
