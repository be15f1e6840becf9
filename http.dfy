/**
 * The responses the controllers write: `res.status(code).json(body)` as one entry of a
 * log, in the order the handler issued them.
 */
module Http {
  import opened Wrappers
  import opened Domain
  import opened Messages

  /** The JSON bodies the controllers send. `Message(None)` is `{message: undefined}`;
      `BadRequest` is `{message, errors}`, and `TaskList`/`OneTask` are `{data}`. */
  datatype Body =
    | Message(message: Value)
    | BadRequest(summary: string, errors: seq<string>)
    | TaskList(tasks: seq<Task>)
    | OneTask(task: Task)
    | Token(token: string)
    | EmptyObject

  datatype Write = Write(status: int, body: Body)

  /** `{message: "Bad request", errors: [{message: m}, ...]}` with status 400. */
  function BadRequestWrite(errors: seq<string>): Write {
    Write(400, BadRequest(BadRequestMessage, errors))
  }

  /** The Express response object, reduced to what the handlers do with it: every
      `status(...).json(...)` call is recorded. */
  class Response {
    var writes: seq<Write>

    constructor()
      ensures writes == []
    {
      writes := [];
    }

    method Json(status: int, body: Body)
      modifies this
      ensures writes == old(writes) + [Write(status, body)]
    {
      writes := writes + [Write(status, body)];
    }
  }
}
