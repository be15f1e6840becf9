/**
 * src/service/task.service.ts: each function awaits one repository call inside a `try`,
 * throws a NotFoundError on an empty answer, and its `catch` rethrows that NotFoundError
 * while turning anything else into a ServerError. The repository functions and the
 * ObjectId constructor are parameters.
 */
module TaskService {
  import opened Wrappers
  import opened Domain
  import opened Messages
  import opened Errors

  /** `retrieveTasksByStatus`: the repository's non-empty list, NotFound for an empty one,
      ServerError when the repository throws. */
  function RetrieveTasksByStatus(status: Value, getTasksByStatus: Value -> Outcome<seq<Task>>): (r: Result<seq<Task>>)
    ensures Classified(r)
    ensures r.Ok? <==> getTasksByStatus(status).Returned? && getTasksByStatus(status).value != []
    ensures r.Ok? ==> r.value == getTasksByStatus(status).value
    ensures r == Err(NotFoundError(TasksNotFound)) <==> getTasksByStatus(status) == Returned([])
    ensures r == Err(ServerError(CommonServerError)) <==> getTasksByStatus(status).Threw?
  {
    RethrowNotFound(ListAttempt(getTasksByStatus(status), TasksNotFound), CommonServerError)
  }

  /** `retrieveTasksByUsername`: the same shape over the username query. */
  function RetrieveTasksByUsername(username: Value, getTasksByUsername: Value -> Outcome<seq<Task>>): (r: Result<seq<Task>>)
    ensures Classified(r)
    ensures r.Ok? <==> getTasksByUsername(username).Returned? && getTasksByUsername(username).value != []
    ensures r.Ok? ==> r.value == getTasksByUsername(username).value
    ensures r == Err(NotFoundError(TasksNotFound)) <==> getTasksByUsername(username) == Returned([])
    ensures r == Err(ServerError(CommonServerError)) <==> getTasksByUsername(username).Threw?
  {
    RethrowNotFound(ListAttempt(getTasksByUsername(username), TasksNotFound), CommonServerError)
  }

  /** The two list queries translate a repository answer identically. */
  lemma ListQueriesAgree(status: Value, username: Value,
                         getTasksByStatus: Value -> Outcome<seq<Task>>, getTasksByUsername: Value -> Outcome<seq<Task>>)
    requires getTasksByStatus(status) == getTasksByUsername(username)
    ensures RetrieveTasksByStatus(status, getTasksByStatus) == RetrieveTasksByUsername(username, getTasksByUsername)
  {
  }

  /** `retrieveTaskBySubject`: the document found, NotFound for `null`. */
  function RetrieveTaskBySubject(subject: Value, getTaskBySubject: Value -> Outcome<Option<Task>>): (r: Result<Task>)
    ensures Classified(r)
    ensures r.Ok? <==> getTaskBySubject(subject).Returned? && getTaskBySubject(subject).value.Some?
    ensures r.Ok? ==> r.value == getTaskBySubject(subject).value.value
    ensures r == Err(NotFoundError(TaskNotFound)) <==> getTaskBySubject(subject) == Returned(None)
    ensures r == Err(ServerError(CommonServerError)) <==> getTaskBySubject(subject).Threw?
  {
    RethrowNotFound(RecordAttempt(getTaskBySubject(subject), TaskNotFound), CommonServerError)
  }

  /** `createTaskRecord`: the saved document; it never reports NotFound, and every failure
      becomes a ServerError. */
  function CreateTaskRecord(newTask: TaskDraft, addTask: TaskDraft -> Outcome<Task>): (r: Result<Task>)
    ensures Classified(r)
    ensures r.Ok? <==> addTask(newTask).Returned?
    ensures r.Ok? ==> r.value == addTask(newTask).value
    ensures r.Err? ==> r.error == ServerError(CommonServerError)
  {
    var attempt := match addTask(newTask)
      case Threw => Err(ForeignError)
      case Returned(saved) => Ok(saved);
    WrapAll(attempt, CommonServerError)
  }

  /** What `updateTaskRecord` hands the repository: exactly subject, description and
      status, never the id or the owner. */
  function UpdateSent(info: TaskUpdate): TaskChanges {
    TaskChanges(info.subject, info.description, info.status)
  }

  /** `updateTaskRecord`: the id is converted inside the `try`, so a failed conversion is a
      ServerError; otherwise the repository's answer for those changes decides. */
  function UpdateTaskRecord(info: TaskUpdate, toObjectId: Value -> Outcome<ObjectId>,
                            updateTask: (ObjectId, TaskChanges) -> Outcome<Option<Task>>): (r: Result<Task>)
    ensures Classified(r)
    ensures toObjectId(info.id).Threw? ==> r == Err(ServerError(CommonServerError))
    ensures toObjectId(info.id).Returned? ==>
      var answer := updateTask(toObjectId(info.id).value, TaskChanges(info.subject, info.description, info.status));
      && (r.Ok? <==> answer.Returned? && answer.value.Some?)
      && (r.Ok? ==> r.value == answer.value.value)
      && (r == Err(NotFoundError(TaskNotFound)) <==> answer == Returned(None))
      && (r == Err(ServerError(CommonServerError)) <==> answer.Threw?)
  {
    var attempt := match toObjectId(info.id)
      case Threw => Err(ForeignError)
      case Returned(id) => RecordAttempt(updateTask(id, UpdateSent(info)), TaskNotFound);
    RethrowNotFound(attempt, CommonServerError)
  }

  /** The update consults the repository at one point only: two repositories that agree on
      the converted id and those three fields give the same result. */
  lemma UpdateSendsOnlyTaskFields(info: TaskUpdate, toObjectId: Value -> Outcome<ObjectId>,
                                  updateTask: (ObjectId, TaskChanges) -> Outcome<Option<Task>>,
                                  otherUpdateTask: (ObjectId, TaskChanges) -> Outcome<Option<Task>>)
    requires toObjectId(info.id).Returned? ==>
      updateTask(toObjectId(info.id).value, TaskChanges(info.subject, info.description, info.status))
        == otherUpdateTask(toObjectId(info.id).value, TaskChanges(info.subject, info.description, info.status))
    ensures UpdateTaskRecord(info, toObjectId, updateTask) == UpdateTaskRecord(info, toObjectId, otherUpdateTask)
  {
  }

  /** `deleteTaskRecord`: the deleted document, NotFound for `null`, ServerError for a failed
      conversion or a throwing repository. */
  function DeleteTaskRecord(id: Value, toObjectId: Value -> Outcome<ObjectId>,
                            deleteTask: ObjectId -> Outcome<Option<Task>>): (r: Result<Task>)
    ensures Classified(r)
    ensures toObjectId(id).Threw? ==> r == Err(ServerError(CommonServerError))
    ensures toObjectId(id).Returned? ==>
      var answer := deleteTask(toObjectId(id).value);
      && (r.Ok? <==> answer.Returned? && answer.value.Some?)
      && (r.Ok? ==> r.value == answer.value.value)
      && (r == Err(NotFoundError(TaskNotFound)) <==> answer == Returned(None))
      && (r == Err(ServerError(CommonServerError)) <==> answer.Threw?)
  {
    var attempt := match toObjectId(id)
      case Threw => Err(ForeignError)
      case Returned(oid) => RecordAttempt(deleteTask(oid), TaskNotFound);
    RethrowNotFound(attempt, CommonServerError)
  }
}
