/**
 * The validation service (internal/service/task.go). Each operation checks
 * its inputs and either rejects them with `ErrInvalidData` or hands them,
 * unchanged, to the repository and returns whatever it answers. The
 * repository is any `TaskRepository`; every reply comes with the log of the
 * repository calls made to produce it.
 */
module Service {
  import opened Wrappers
  import opened Entity
  import opened Ports
  import Repository

  /** A task the service accepts for writing: a title and a set date. */
  predicate Writable(task: Task)
  {
    task.title != "" && !task.date.IsZero()
  }

  /** An id the service accepts: a positive one. */
  predicate ValidId(id: int)
  {
    id > 0
  }

  /** A page the service accepts: a non-negative offset and a positive size. */
  predicate ValidPage(offset: int, pageSize: int)
  {
    offset >= 0 && pageSize > 0
  }

  /** The requests the service lets through to the repository. */
  predicate Admitted(c: Call)
  {
    match c
    case CreateCall(task) => Writable(task)
    case GetCall(id) => ValidId(id)
    case UpdateCall(id, task) => Writable(task) && ValidId(id)
    case DeleteCall(id) => ValidId(id)
    case ListCall(offset, _, pageSize, _) => ValidPage(offset, pageSize)
  }

  function CreateTask(repo: TaskRepository, task: Task): (r: Traced<IdReply>)
    ensures r.calls == (if Writable(task) then [CreateCall(task)] else [])
    ensures !Writable(task) ==> r.reply == IdReply(-1, Some(InvalidData))
    ensures Writable(task) ==> r.reply == repo.insertTask(task)
  {
    if task.title == "" || task.date.IsZero() then Traced(IdReply(-1, Some(InvalidData)), [])
    else Traced(repo.insertTask(task), [CreateCall(task)])
  }

  function GetTask(repo: TaskRepository, id: int): (r: Traced<TaskReply>)
    ensures r.calls == (if ValidId(id) then [GetCall(id)] else [])
    ensures !ValidId(id) ==> r.reply == TaskReply(None, Some(InvalidData))
    ensures ValidId(id) ==> r.reply == repo.getTask(id)
  {
    if id <= 0 then Traced(TaskReply(None, Some(InvalidData)), [])
    else Traced(repo.getTask(id), [GetCall(id)])
  }

  function UpdateTask(repo: TaskRepository, id: int, task: Task): (r: Traced<Option<Error>>)
    ensures r.calls == (if Writable(task) && ValidId(id) then [UpdateCall(id, task)] else [])
    ensures task.title == "" ==> r.reply == Some(InvalidData)
    ensures task.date.IsZero() ==> r.reply == Some(InvalidData)
    ensures id <= 0 ==> r.reply == Some(InvalidData)
    ensures Writable(task) && ValidId(id) ==> r.reply == repo.updateTask(id, task)
  {
    if task.title == "" || task.date.IsZero() || id <= 0 then Traced(Some(InvalidData), [])
    else Traced(repo.updateTask(id, task), [UpdateCall(id, task)])
  }

  function DeleteTask(repo: TaskRepository, id: int): (r: Traced<Option<Error>>)
    ensures r.calls == (if ValidId(id) then [DeleteCall(id)] else [])
    ensures !ValidId(id) ==> r.reply == Some(InvalidData)
    ensures ValidId(id) ==> r.reply == repo.deleteTask(id)
  {
    if id <= 0 then Traced(Some(InvalidData), [])
    else Traced(repo.deleteTask(id), [DeleteCall(id)])
  }

  function GetTaskList(repo: TaskRepository, offset: int, completed: string, pageSize: int, date: string): (r: Traced<ListReply>)
    ensures r.calls == (if ValidPage(offset, pageSize) then [ListCall(offset, completed, pageSize, date)] else [])
    ensures !ValidPage(offset, pageSize) ==> r.reply == ListReply([], Some(InvalidData))
    ensures ValidPage(offset, pageSize) ==> r.reply == repo.getTaskList(offset, completed, pageSize, date)
  {
    if offset < 0 || pageSize <= 0 then Traced(ListReply([], Some(InvalidData)), [])
    else Traced(repo.getTaskList(offset, completed, pageSize, date), [ListCall(offset, completed, pageSize, date)])
  }

  /** A reply of any of the five operations. */
  datatype Reply = IdOf(i: IdReply) | TaskOf(t: TaskReply) | DoneOf(e: Option<Error>) | ListOf(l: ListReply)

  /** Serves one request through the service. */
  function Serve(repo: TaskRepository, c: Call): Traced<Reply>
  {
    match c
    case CreateCall(task) => var r := CreateTask(repo, task); Traced(IdOf(r.reply), r.calls)
    case GetCall(id) => var r := GetTask(repo, id); Traced(TaskOf(r.reply), r.calls)
    case UpdateCall(id, task) => var r := UpdateTask(repo, id, task); Traced(DoneOf(r.reply), r.calls)
    case DeleteCall(id) => var r := DeleteTask(repo, id); Traced(DoneOf(r.reply), r.calls)
    case ListCall(offset, completed, pageSize, date) =>
      var r := GetTaskList(repo, offset, completed, pageSize, date); Traced(ListOf(r.reply), r.calls)
  }

  /** Sends the request straight to the same-named repository operation. */
  function Forward(repo: TaskRepository, c: Call): Reply
  {
    match c
    case CreateCall(task) => IdOf(repo.insertTask(task))
    case GetCall(id) => TaskOf(repo.getTask(id))
    case UpdateCall(id, task) => DoneOf(repo.updateTask(id, task))
    case DeleteCall(id) => DoneOf(repo.deleteTask(id))
    case ListCall(offset, completed, pageSize, date) => ListOf(repo.getTaskList(offset, completed, pageSize, date))
  }

  /** The rejection each operation answers with: `ErrInvalidData` beside its zero value. */
  function Rejection(c: Call): Reply
  {
    match c
    case CreateCall(_) => IdOf(IdReply(-1, Some(InvalidData)))
    case GetCall(_) => TaskOf(TaskReply(None, Some(InvalidData)))
    case UpdateCall(_, _) => DoneOf(Some(InvalidData))
    case DeleteCall(_) => DoneOf(Some(InvalidData))
    case ListCall(_, _, _, _) => ListOf(ListReply([], Some(InvalidData)))
  }

  /** The error a reply carries, if any. */
  function ErrorOf(r: Reply): Option<Error>
  {
    match r
    case IdOf(i) => i.err
    case TaskOf(t) => t.err
    case DoneOf(e) => e
    case ListOf(l) => l.err
  }

  /**
   * Every operation of the service: an admitted request is sent once, with
   * the very same arguments, to the same-named repository operation, whose
   * answer is returned unchanged; any other request is rejected with
   * `ErrInvalidData` and the repository is not called at all.
   */
  lemma ServeForwardsAdmitted(repo: TaskRepository, c: Call)
    ensures Admitted(c) ==> Serve(repo, c) == Traced(Forward(repo, c), [c])
    ensures !Admitted(c) ==> Serve(repo, c) == Traced(Rejection(c), [])
  {
  }

  /** Which requests get through depends on the request alone, never on the repository. */
  lemma RejectionIndependentOfRepository(repo1: TaskRepository, repo2: TaskRepository, c: Call)
    ensures |Serve(repo1, c).calls| == |Serve(repo2, c).calls| <= 1
    ensures !Admitted(c) ==> Serve(repo1, c) == Serve(repo2, c)
  {
    ServeForwardsAdmitted(repo1, c);
    ServeForwardsAdmitted(repo2, c);
  }

  /**
   * `ErrInvalidData` from the service means the guard rejected the request,
   * as long as the repository itself never answers with that sentinel.
   */
  lemma InvalidDataMeansRejected(repo: TaskRepository, c: Call)
    requires ErrorOf(Forward(repo, c)) != Some(InvalidData)
    ensures ErrorOf(Serve(repo, c).reply) == Some(InvalidData) <==> !Admitted(c)
    ensures ErrorOf(Serve(repo, c).reply) == Some(InvalidData) <==> Serve(repo, c).calls == []
  {
    ServeForwardsAdmitted(repo, c);
  }

  /** The service as the handler sees it, over the given repository. */
  function ServiceOver(repo: TaskRepository): TaskService
  {
    TaskService(
      task => CreateTask(repo, task).reply,
      id => GetTask(repo, id).reply,
      (id, task) => UpdateTask(repo, id, task).reply,
      id => DeleteTask(repo, id).reply,
      (offset, completed, pageSize, date) => GetTaskList(repo, offset, completed, pageSize, date).reply)
  }

  /**
   * Over the SQL repository, a failed create always carries the id -1,
   * whether the service rejected the task or the database failed.
   */
  lemma CreateErrorSentinel(db: Repository.Database, task: Task)
    ensures var r := CreateTask(Repository.SqlRepository(db), task).reply;
      r.err.Some? ==> r.id == -1
  {
  }

  /** Over the SQL repository, a failed get never carries a task, from either layer. */
  lemma GetErrorSentinel(db: Repository.Database, id: int)
    ensures var r := GetTask(Repository.SqlRepository(db), id).reply;
      r.err.Some? ==> r.task.None?
  {
  }

  /** Over the SQL repository, a failed list never carries a task, from either layer. */
  lemma ListErrorSentinel(db: Repository.Database, offset: int, completed: string, pageSize: int, date: string)
    ensures var r := GetTaskList(Repository.SqlRepository(db), offset, completed, pageSize, date).reply;
      r.err.Some? ==> r.tasks == []
  {
    Repository.ListTasksMeaning(db, offset, completed, pageSize, date);
  }
}
