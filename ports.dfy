/**
 * The shapes shared between the layers: error kinds, Go's `(value, error)`
 * replies, and the two interfaces through which one layer calls the next
 * (`TaskRepository` in internal/service/service.go and `TaskService` in
 * internal/handler/handler.go, which declare the same five signatures).
 */
module Ports {
  import opened Wrappers
  import opened Entity

  /**
   * Error kinds. `InvalidData` is the service's sentinel, `NoRows` any error
   * for which `errors.Is(err, sql.ErrNoRows)` holds, `Backend` every other
   * error with its message.
   */
  datatype Error = InvalidData | NoRows | Backend(message: string)

  /** The text `err.Error()` yields. */
  function Message(e: Error): string
  {
    match e
    case InvalidData => "invalid data"
    case NoRows => "sql: no rows in result set"
    case Backend(m) => m
  }

  /** `(int64, error)`: a generated id, or a sentinel beside the error. */
  datatype IdReply = IdReply(id: int, err: Option<Error>)
  /** `(*entity.Task, error)`; a nil pointer is `None`. */
  datatype TaskReply = TaskReply(task: Option<Task>, err: Option<Error>)
  /** `([]*entity.Task, error)`; a nil slice is the empty sequence. */
  datatype ListReply = ListReply(tasks: seq<Task>, err: Option<Error>)

  /** One call through either interface, with the arguments it was given. */
  datatype Call =
    | CreateCall(task: Task)
    | GetCall(id: int)
    | UpdateCall(id: int, task: Task)
    | DeleteCall(id: int)
    | ListCall(offset: int, completed: string, pageSize: int, date: string)

  /** A reply together with the calls made to the layer below to produce it. */
  datatype Traced<+R> = Traced(reply: R, calls: seq<Call>)

  /** The repository as the service sees it: any implementation will do. */
  datatype TaskRepository = TaskRepository(
    insertTask: Task -> IdReply,
    getTask: int -> TaskReply,
    updateTask: (int, Task) -> Option<Error>,
    deleteTask: int -> Option<Error>,
    getTaskList: (int, string, int, string) -> ListReply)

  /** The service as the handler sees it. */
  datatype TaskService = TaskService(
    createTask: Task -> IdReply,
    getTask: int -> TaskReply,
    updateTask: (int, Task) -> Option<Error>,
    deleteTask: int -> Option<Error>,
    getTaskList: (int, string, int, string) -> ListReply)
}
