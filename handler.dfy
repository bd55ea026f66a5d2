/**
 * The HTTP handlers (internal/handler/handler.go) without the web framework:
 * each handler turns the request's path parameter, query parameters or
 * decoded body into at most one service call, and the service's reply into
 * one status code and one response body. Go's `int` is 64 bits wide here.
 */
module Handler {
  import opened Wrappers
  import opened Entity
  import opened Ports
  import opened SqlText
  import Service

  const MaxInt64: int := 0x7fff_ffff_ffff_ffff
  const MinInt64: int := -0x8000_0000_0000_0000
  const TwoTo64: int := 0x1_0000_0000_0000_0000

  predicate InInt64(x: int) { MinInt64 <= x <= MaxInt64 }

  /** Two's-complement wrap-around of a mathematical integer into a 64-bit `int`. */
  function Wrap64(x: int): (r: int)
    ensures InInt64(r)
    ensures (r - x) % TwoTo64 == 0
    ensures InInt64(x) ==> r == x
  {
    var m := x % TwoTo64;
    if m > MaxInt64 then m - TwoTo64 else m
  }

  // ---------------------------------------------------------------------
  // strconv.Atoi
  // ---------------------------------------------------------------------

  /** What `strconv.Atoi` reports: a number, a syntax error, or a range error with the clamped value. */
  datatype Parsed = Number(value: int) | SyntaxError | RangeError(clamped: int)

  const MaxUint64: int := 0xffff_ffff_ffff_ffff

  /** `s` without its leading sign, if it has one. */
  function Unsigned(s: string): string
  {
    if |s| > 0 && (s[0] == '+' || s[0] == '-') then s[1..] else s
  }

  /** The digits after the sign, up to the first character that is not a digit. */
  function LeadingDigits(s: string): string
  {
    Unsigned(s)[..DigitRun(Unsigned(s))]
  }

  /** The value of the digits after the sign, negated after a minus sign. */
  function SignedValue(s: string): int
  {
    if |s| > 0 && s[0] == '-' then -DigitsValue(Unsigned(s)) else DigitsValue(Unsigned(s))
  }

  /**
   * `strconv.Atoi` for a 64-bit `int`: an optional sign, then one or more
   * decimal digits; out-of-range values clamp. The digits are read left to
   * right, and a value beyond 2^64 - 1 is reported as out of range as soon
   * as it is reached, before any later character that is not a digit.
   */
  function Atoi(s: string): (p: Parsed)
    ensures p.Number? ==> InInt64(p.value)
    ensures p.Number? ==> Unsigned(s) != [] && AllDigits(Unsigned(s))
    ensures p.Number? ==> p.value == SignedValue(s)
    ensures Unsigned(s) != [] && AllDigits(Unsigned(s)) ==>
      && (InInt64(SignedValue(s)) ==> p == Number(SignedValue(s)))
      && (!InInt64(SignedValue(s)) ==> p.RangeError?)
    ensures p.RangeError? ==> |s| > 0 && p.clamped == (if s[0] == '-' then MinInt64 else MaxInt64)
    ensures Unsigned(s) == [] ==> p.SyntaxError?
    ensures DigitsValue(LeadingDigits(s)) > MaxUint64 ==> p.RangeError?
    ensures !AllDigits(Unsigned(s)) && DigitsValue(LeadingDigits(s)) <= MaxUint64 ==> p.SyntaxError?
  {
    var u := Unsigned(s);
    var v := DigitsValue(LeadingDigits(s));
    DigitRunSpan(u);
    DigitsValueNatural(LeadingDigits(s));
    assert DigitRun(u) == |u| ==> LeadingDigits(s) == u;
    if u == [] then SyntaxError
    else if v > MaxUint64 then (if s[0] == '-' then RangeError(MinInt64) else RangeError(MaxInt64))
    else if DigitRun(u) < |u| then SyntaxError
    else if s[0] == '-' then (if v > -MinInt64 then RangeError(MinInt64) else Number(-v))
    else if v > MaxInt64 then RangeError(MaxInt64)
    else Number(v)
  }

  /** Reading back a number written in decimal, with or without a minus sign, gives that number. */
  lemma AtoiOfDecimal(n: nat)
    ensures n <= MaxInt64 ==> Atoi(Decimal(n)) == Number(n)
    ensures n <= MaxInt64 + 1 ==> Atoi("-" + Decimal(n)) == Number(-(n as int))
    ensures n > MaxInt64 ==> Atoi(Decimal(n)) == RangeError(MaxInt64)
    ensures n > MaxInt64 + 1 ==> Atoi("-" + Decimal(n)) == RangeError(MinInt64)
  {
    var d := Decimal(n);
    AtoiOfDigitsThen(n, []);
    assert d + [] == d;
    assert "-" + d + [] == "-" + d;
  }

  /** The decimal digits of n followed by text that does not start with a digit, with or without a minus sign. */
  lemma AtoiOfDigitsThen(n: nat, rest: string)
    requires StartsPlain(rest)
    ensures Unsigned(Decimal(n) + rest) == Decimal(n) + rest
    ensures Unsigned("-" + Decimal(n) + rest) == Decimal(n) + rest
    ensures LeadingDigits(Decimal(n) + rest) == Decimal(n)
    ensures LeadingDigits("-" + Decimal(n) + rest) == Decimal(n)
    ensures DigitsValue(Decimal(n)) == n
  {
    var d := Decimal(n);
    var u := d + rest;
    DecimalRoundTrip(n);
    UnsignedOfDigits(d, rest);
    DigitRunOver(d, rest);
    assert u[..|d|] == d;
  }

  /** Text that starts with a digit has no sign to drop; after a minus sign it is what remains. */
  lemma UnsignedOfDigits(d: string, rest: string)
    requires |d| > 0 && AllDigits(d)
    ensures Unsigned(d + rest) == d + rest
    ensures Unsigned("-" + d + rest) == d + rest
  {
    assert IsDigit(d[0]);
    assert (d + rest)[0] == d[0];
    assert ("-" + d + rest)[1..] == d + rest;
  }

  /**
   * A digit run beyond 2^64 - 1 is out of range even when a character that
   * is not a digit follows it; with a run that fits, that character is a
   * syntax error.
   */
  lemma AtoiOverflowComesFirst(n: nat, rest: string)
    requires rest != [] && !IsDigit(rest[0])
    ensures n > MaxUint64 ==> Atoi(Decimal(n) + rest) == RangeError(MaxInt64)
    ensures n > MaxUint64 ==> Atoi("-" + Decimal(n) + rest) == RangeError(MinInt64)
    ensures n <= MaxUint64 ==> Atoi(Decimal(n) + rest).SyntaxError?
    ensures n <= MaxUint64 ==> Atoi("-" + Decimal(n) + rest).SyntaxError?
  {
    AtoiOfDigitsThen(n, rest);
    var u := Decimal(n) + rest;
    assert u[|Decimal(n)|] == rest[0];
    assert !AllDigits(u);
  }

  /** The value Go keeps when the error of `Atoi` is discarded: 0 for bad syntax, the clamped value out of range. */
  function ValueIgnoringError(p: Parsed): (n: int)
    ensures p.Number? ==> n == p.value
    ensures p.SyntaxError? ==> n == 0
    ensures p.RangeError? ==> n == p.clamped
  {
    match p
    case Number(v) => v
    case SyntaxError => 0
    case RangeError(c) => c
  }

  // ---------------------------------------------------------------------
  // Requests and responses
  // ---------------------------------------------------------------------

  /** The query string, first value per key: `ctx.DefaultQuery` returns it when the key is present, even if empty. */
  type Query = map<string, string>

  function DefaultQuery(q: Query, key: string, default: string): (v: string)
    ensures key in q ==> v == q[key]
    ensures key !in q ==> v == default
  {
    if key in q then q[key] else default
  }

  /** What `ctx.ShouldBindJSON` makes of the request body. */
  datatype Body = Bound(task: Task) | Malformed

  /** The JSON the handler writes. */
  datatype Payload =
    | IdBody(id: int)                  // {"id": id}
    | TaskBody(task: Option<Task>)     // the task, `null` for a nil pointer
    | TasksBody(tasks: seq<Task>)      // the task list
    | ErrorBody(message: string)       // {"error": message}
    | RequestErrorBody                 // {"error": ...} with a parse or bind error text

  datatype Response = Response(status: int, payload: Payload)

  const OK := 200
  const Created := 201
  const BadRequest := 400
  const NotFound := 404
  const InternalServerError := 500

  const TaskNotFound := "task not found"

  // ---------------------------------------------------------------------
  // The five handlers
  // ---------------------------------------------------------------------

  /** POST /task. */
  function CreateTask(svc: TaskService, body: Body): (r: Traced<Response>)
    ensures r.reply.status in {Created, BadRequest, InternalServerError}
    ensures r.reply.status == BadRequest <==> body.Malformed?
    ensures body.Malformed? ==> r.calls == []
    ensures body.Bound? ==> r.calls == [CreateCall(body.task)]
    ensures body.Bound? ==> (r.reply.status == InternalServerError <==> svc.createTask(body.task).err.Some?)
    ensures r.reply.status == Created ==> r.reply.payload == IdBody(svc.createTask(body.task).id)
  {
    match body
    case Malformed => Traced(Response(BadRequest, RequestErrorBody), [])
    case Bound(task) =>
      var reply := svc.createTask(task);
      if reply.err.Some? then Traced(Response(InternalServerError, ErrorBody(Message(reply.err.value))), [CreateCall(task)])
      else Traced(Response(Created, IdBody(reply.id)), [CreateCall(task)])
  }

  /** GET /task/{id}. The not-found answer is never given: any error has already become 500. */
  function GetTask(svc: TaskService, idParam: string): (r: Traced<Response>)
    ensures r.reply.status in {OK, BadRequest, InternalServerError}
    ensures r.reply.status != NotFound
    ensures r.reply.status == BadRequest <==> !Atoi(idParam).Number?
    ensures !Atoi(idParam).Number? ==> r.calls == []
    ensures Atoi(idParam).Number? ==> r.calls == [GetCall(Atoi(idParam).value)]
    ensures Atoi(idParam).Number? ==>
      (r.reply.status == InternalServerError <==> svc.getTask(Atoi(idParam).value).err.Some?)
    ensures r.reply.status == OK ==> r.reply.payload == TaskBody(svc.getTask(Atoi(idParam).value).task)
  {
    match Atoi(idParam)
    case Number(id) =>
      var reply := svc.getTask(id);
      if reply.err.Some? then Traced(Response(InternalServerError, ErrorBody(Message(reply.err.value))), [GetCall(id)])
      else if reply.err == Some(NoRows) then Traced(Response(NotFound, ErrorBody(TaskNotFound)), [GetCall(id)])
      else Traced(Response(OK, TaskBody(reply.task)), [GetCall(id)])
    case _ => Traced(Response(BadRequest, RequestErrorBody), [])
  }

  /** How Update and Delete answer the service's error: not found, failure, or the path id. */
  function Outcome(err: Option<Error>, id: int): (resp: Response)
    ensures resp.status == NotFound <==> err == Some(NoRows)
    ensures resp.status == InternalServerError <==> err.Some? && err != Some(NoRows)
    ensures resp.status == OK <==> err.None?
    ensures resp.status == OK ==> resp.payload == IdBody(id)
  {
    if err.Some? && err.value != NoRows then Response(InternalServerError, ErrorBody(Message(err.value)))
    else if err == Some(NoRows) then Response(NotFound, ErrorBody(TaskNotFound))
    else Response(OK, IdBody(id))
  }

  /** PUT /task/{id}: the id is parsed before the body is decoded. */
  function UpdateTask(svc: TaskService, idParam: string, body: Body): (r: Traced<Response>)
    ensures r.reply.status in {OK, BadRequest, NotFound, InternalServerError}
    ensures r.reply.status == BadRequest <==> !Atoi(idParam).Number? || body.Malformed?
    ensures r.reply.status == BadRequest ==> r.calls == []
    ensures r.reply.status != BadRequest ==>
      r.calls == [UpdateCall(Atoi(idParam).value, body.task)] &&
      r.reply == Outcome(svc.updateTask(Atoi(idParam).value, body.task), Atoi(idParam).value)
  {
    match Atoi(idParam)
    case Number(id) =>
      (match body
       case Malformed => Traced(Response(BadRequest, RequestErrorBody), [])
       case Bound(task) => Traced(Outcome(svc.updateTask(id, task), id), [UpdateCall(id, task)]))
    case _ => Traced(Response(BadRequest, RequestErrorBody), [])
  }

  /** DELETE /task/{id}. */
  function DeleteTask(svc: TaskService, idParam: string): (r: Traced<Response>)
    ensures r.reply.status in {OK, BadRequest, NotFound, InternalServerError}
    ensures r.reply.status == BadRequest <==> !Atoi(idParam).Number?
    ensures r.reply.status == BadRequest ==> r.calls == []
    ensures r.reply.status != BadRequest ==>
      r.calls == [DeleteCall(Atoi(idParam).value)] &&
      r.reply == Outcome(svc.deleteTask(Atoi(idParam).value), Atoi(idParam).value)
  {
    match Atoi(idParam)
    case Number(id) => Traced(Outcome(svc.deleteTask(id), id), [DeleteCall(id)])
    case _ => Traced(Response(BadRequest, RequestErrorBody), [])
  }

  /** `(page - 1) * pageSize` in 64-bit arithmetic. */
  function Offset(page: int, pageSize: int): int
  {
    Wrap64(Wrap64(page - 1) * pageSize)
  }

  /** The service call GET /task makes for a query string. */
  function ListCallFor(q: Query): Call
  {
    var page := ValueIgnoringError(Atoi(DefaultQuery(q, "page", "1")));
    var pageSize := ValueIgnoringError(Atoi(DefaultQuery(q, "pageSize", "10")));
    ListCall(Offset(page, pageSize), DefaultQuery(q, "completed", ""), pageSize, DefaultQuery(q, "date", ""))
  }

  /** GET /task. */
  function GetTaskList(svc: TaskService, q: Query): (r: Traced<Response>)
    ensures r.calls == [ListCallFor(q)]
    ensures r.reply.status in {OK, BadRequest, InternalServerError}
    ensures var c := ListCallFor(q);
      var reply := svc.getTaskList(c.offset, c.completed, c.pageSize, c.date);
      && (r.reply.status == BadRequest <==> reply.err == Some(InvalidData))
      && (r.reply.status == InternalServerError <==> reply.err.Some? && reply.err != Some(InvalidData))
      && (r.reply.status == OK <==> reply.err.None?)
      && (r.reply.status == OK ==> r.reply.payload == TasksBody(reply.tasks))
  {
    var page := ValueIgnoringError(Atoi(DefaultQuery(q, "page", "1")));
    var pageSize := ValueIgnoringError(Atoi(DefaultQuery(q, "pageSize", "10")));
    var completed := DefaultQuery(q, "completed", "");
    var date := DefaultQuery(q, "date", "");
    var offset := Offset(page, pageSize);
    var reply := svc.getTaskList(offset, completed, pageSize, date);
    var calls := [ListCall(offset, completed, pageSize, date)];
    if reply.err.Some? && reply.err.value != InvalidData then
      Traced(Response(InternalServerError, ErrorBody(Message(reply.err.value))), calls)
    else if reply.err == Some(InvalidData) then
      Traced(Response(BadRequest, ErrorBody(Message(InvalidData))), calls)
    else Traced(Response(OK, TasksBody(reply.tasks)), calls)
  }

  // ---------------------------------------------------------------------
  // Pagination
  // ---------------------------------------------------------------------

  /** Without overflow the offset is the mathematical `(page - 1) * pageSize`. */
  lemma OffsetExact(page: int, pageSize: int)
    requires InInt64(page - 1) && InInt64((page - 1) * pageSize)
    ensures Offset(page, pageSize) == (page - 1) * pageSize
  {
  }

  /** The product wraps around: page 2^62 + 1 of size 4 starts at offset 0, like the first page. */
  lemma OffsetWrapsAround()
    ensures Offset(0x4000_0000_0000_0001, 4) == 0
    ensures Offset(1, 4) == 0
  {
  }

  /** With no paging parameters the first ten tasks are asked for, unfiltered. */
  lemma ListDefaults()
    ensures ListCallFor(map[]) == ListCall(0, "", 10, "")
    ensures ListCallFor(map["page" := "1", "pageSize" := "10"]) == ListCall(0, "", 10, "")
  {
    AtoiOfDecimal(1);
    AtoiOfDecimal(10);
    assert Decimal(1) == "1";
    assert Decimal(10) == "10";
  }

  /** A page parameter that Atoi rejects as bad syntax counts as page 0, not as the default page 1. */
  lemma ListBadSyntaxPage(q: Query)
    requires "page" in q && Atoi(q["page"]).SyntaxError?
    ensures ListCallFor(q).offset == Offset(0, ListCallFor(q).pageSize)
    ensures !Service.Admitted(ListCallFor(q))
  {
    assert ValueIgnoringError(Atoi(q["page"])) == 0;
    var p := Atoi(DefaultQuery(q, "pageSize", "10"));
    assert InInt64(ValueIgnoringError(p));
    OffsetOfPageZero(ValueIgnoringError(p));
  }

  /** Page 0 starts one page before the first: its offset is minus the page size. */
  lemma OffsetOfPageZero(pageSize: int)
    requires InInt64(pageSize)
    ensures pageSize > 0 ==> Offset(0, pageSize) == -pageSize
  {
  }

  /** A page size that Atoi rejects as bad syntax counts as 0, which the service refuses. */
  lemma ListBadSyntaxPageSize(q: Query)
    requires "pageSize" in q && Atoi(q["pageSize"]).SyntaxError?
    ensures ListCallFor(q).pageSize == 0
    ensures !Service.Admitted(ListCallFor(q))
  {
  }

  // ---------------------------------------------------------------------
  // Through the real service
  // ---------------------------------------------------------------------

  /** A page or page size that Atoi rejects as bad syntax is answered 400 through the service, without touching the repository. */
  lemma ListBadSyntaxIsBadRequest(repo: TaskRepository, q: Query)
    requires ("page" in q && Atoi(q["page"]).SyntaxError?) || ("pageSize" in q && Atoi(q["pageSize"]).SyntaxError?)
    ensures GetTaskList(Service.ServiceOver(repo), q).reply.status == BadRequest
    ensures Service.Serve(repo, ListCallFor(q)).calls == []
  {
    if "page" in q && Atoi(q["page"]).SyntaxError? {
      ListBadSyntaxPage(q);
    } else {
      ListBadSyntaxPageSize(q);
    }
    Service.ServeForwardsAdmitted(repo, ListCallFor(q));
  }

  /** The service's `ErrInvalidData` is a server error on create: an invalid task is answered 500. */
  lemma CreateInvalidIsServerError(repo: TaskRepository, task: Task)
    requires !Service.Writable(task)
    ensures CreateTask(Service.ServiceOver(repo), Bound(task)).reply.status == InternalServerError
    ensures Service.Serve(repo, CreateCall(task)).calls == []
  {
  }

  /** A non-positive id is answered 500, not 400 or 404, by get, update and delete alike. */
  lemma NonPositiveIdIsServerError(repo: TaskRepository, idParam: string, task: Task)
    requires Atoi(idParam).Number? && Atoi(idParam).value <= 0
    ensures GetTask(Service.ServiceOver(repo), idParam).reply.status == InternalServerError
    ensures UpdateTask(Service.ServiceOver(repo), idParam, Bound(task)).reply.status == InternalServerError
    ensures DeleteTask(Service.ServiceOver(repo), idParam).reply.status == InternalServerError
    ensures var id := Atoi(idParam).value;
      && Service.Serve(repo, GetCall(id)).calls == []
      && Service.Serve(repo, UpdateCall(id, task)).calls == []
      && Service.Serve(repo, DeleteCall(id)).calls == []
  {
  }
}
