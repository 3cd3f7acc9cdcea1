/**
 * services/task/routes.go: the HTTP handlers of the task resource. A request is
 * reduced to what the handler reads from it (the query, the path variables, the
 * decoded body) and a response to a status code and a body.
 */
module TaskRoutes {
  import opened Wrappers
  import opened GoInt
  import opened Types
  import opened TaskStore
  import Pagination
  import Strconv
  import Strings

  const StatusOK: int := 200
  const StatusCreated: int := 201
  const StatusNoContent: int := 204
  const StatusBadRequest: int := 400
  const StatusNotFound: int := 404
  const StatusInternalServerError: int := 500

  /** The sort keys a task listing may ask for. */
  const TaskSortFields: seq<string> := ["user_id", "status", "priority", "due_date"]

  /** The error a handler writes, by cause. */
  datatype Failure =
    | MissingTaskId                                  // "missing task ID"
    | InvalidTaskId                                  // "invalid task ID"
    | UserNotFound                                   // "user not found"
    | TaskNotFound                                   // "task not found"
    | BadQuery(reason: Pagination.ParseError)
    | BadJson                                        // the body did not decode
    | BadPayload                                     // "invalid payload: ..."
    | StoreError(cause: DbError)                     // the store's error as it is
    | StoreErrorIn(context: string, cause: DbError)  // "<context>: <error>"

  datatype Body =
    | NoBody
    | NullBody
    | ErrorBody(failure: Failure)
    | TaskBody(task: Task)
    | CreatedBody(payload: CreateTaskPayload)
    | PageBody(page: int, limit: int, total: int, totalPages: int, data: seq<Task>)

  datatype Response = Response(status: int, body: Body)

  /** The `task_id` path variable read as an `int`. */
  function TaskIdOf(vars: map<string, string>): (r: Result<int, Failure>)
    ensures r == Err(MissingTaskId) <==> "task_id" !in vars
    ensures r.Ok? <==> "task_id" in vars && Strconv.Atoi(vars["task_id"]).Some?
    ensures r.Err? ==> r.error == MissingTaskId || r.error == InvalidTaskId
    ensures r.Ok? ==> r.value == Strconv.Atoi(vars["task_id"]).value
  {
    if "task_id" !in vars then Err(MissingTaskId)
    else match Strconv.Atoi(vars["task_id"])
      case None => Err(InvalidTaskId)
      case Some(n) => Ok(n)
  }

  // ---------------------------------------------------------------------------
  // The update merge

  /**
   * The payload handleUpdateTask persists: each of title, description, status and
   * priority taken from the request when present and from the existing task otherwise;
   * due_date likewise, kept nil when both are nil; user_id as the request has it.
   */
  function MergeUpdate(p: UpdateTaskPayload, existing: Task): (m: UpdateTaskPayload)
    ensures p.title.Some? ==> m.title == p.title
    ensures p.title.None? ==> m.title == Some(existing.title)
    ensures p.description.Some? ==> m.description == p.description
    ensures p.description.None? ==> m.description == Some(existing.description)
    ensures p.status.Some? ==> m.status == p.status
    ensures p.status.None? ==> m.status == Some(existing.status)
    ensures p.priority.Some? ==> m.priority == p.priority
    ensures p.priority.None? ==> m.priority == Some(existing.priority)
    ensures p.dueDate.Some? ==> m.dueDate == p.dueDate
    ensures p.dueDate.None? ==> m.dueDate == existing.dueDate
    ensures m.userId == p.userId
  {
    UpdateTaskPayload(
      p.userId,
      Some(p.title.GetOr(existing.title)),
      Some(p.description.GetOr(existing.description)),
      Some(p.status.GetOr(existing.status)),
      Some(p.priority.GetOr(existing.priority)),
      if p.dueDate.Some? then p.dueDate else existing.dueDate)
  }

  /** handleUpdateTask's in-place fill: each nil field of the payload pointed at the existing task's value. */
  method FillFromExisting(payload: UpdateTaskPayload, existingTask: Task) returns (task: UpdateTaskPayload)
    ensures task == MergeUpdate(payload, existingTask)
  {
    task := payload;
    if task.title.None? {
      task := task.(title := Some(existingTask.title));
    }
    if task.description.None? {
      task := task.(description := Some(existingTask.description));
    }
    if task.status.None? {
      task := task.(status := Some(existingTask.status));
    }
    if task.priority.None? {
      task := task.(priority := Some(existingTask.priority));
    }
    if task.dueDate.None? {
      task := task.(dueDate := existingTask.dueDate);
    }
  }

  const NothingSet: UpdateTaskPayload := UpdateTaskPayload(None, None, None, None, None, None)

  /** The fields the merge fills in. */
  datatype Field = Title | Description | Status | Priority | DueDate

  /** The value a payload binds for `f`. */
  function PayloadColumn(p: UpdateTaskPayload, f: Field): Value
  {
    match f
    case Title => NullableString(p.title)
    case Description => NullableString(p.description)
    case Status => NullableString(p.status)
    case Priority => NullableInt(p.priority)
    case DueDate => NullableTime(p.dueDate)
  }

  /** The value a stored task holds in the column of `f`. */
  function TaskColumn(t: Task, f: Field): Value
  {
    match f
    case Title => StrV(t.title)
    case Description => StrV(t.description)
    case Status => StrV(t.status)
    case Priority => IntV(t.priority)
    case DueDate => NullableTime(t.dueDate)
  }

  /** `p` sets field `f` and nothing else that the merge fills in. */
  predicate SetsOnly(p: UpdateTaskPayload, f: Field)
  {
    (p.title.Some? <==> f == Title) && (p.description.Some? <==> f == Description) &&
    (p.status.Some? <==> f == Status) && (p.priority.Some? <==> f == Priority) &&
    (p.dueDate.Some? <==> f == DueDate)
  }

  /** An all-absent payload writes back every merged column of the existing task, and NULL as its owner. */
  lemma MergeNothingSet(taskID: int, existing: Task)
    ensures UpdateStatement(taskID, MergeUpdate(NothingSet, existing)).args ==
      TaskRow(existing.(userId := None))[1..7] + [IntV(taskID)]
  {
    UpdateBindsColumns(taskID, MergeUpdate(NothingSet, existing), existing.(userId := None));
  }

  /** A payload that sets one field writes that field's new value and the existing value of every other one. */
  lemma MergeOneField(p: UpdateTaskPayload, existing: Task, f: Field)
    requires SetsOnly(p, f)
    ensures PayloadColumn(MergeUpdate(p, existing), f) == PayloadColumn(p, f)
    ensures forall g: Field :: g != f ==> PayloadColumn(MergeUpdate(p, existing), g) == TaskColumn(existing, g)
  {
  }

  /** The update written for {priority: n}: priority n, title, description, status and due date unchanged. */
  lemma MergePriorityOnly(taskID: int, existing: Task, n: int)
    ensures UpdateStatement(taskID, MergeUpdate(NothingSet.(priority := Some(n)), existing)).args ==
      TaskRow(existing.(userId := None, priority := n))[1..7] + [IntV(taskID)]
  {
    UpdateBindsColumns(taskID, MergeUpdate(NothingSet.(priority := Some(n)), existing),
                       existing.(userId := None, priority := n));
  }

  /** Merging a second time against the same task changes nothing. */
  lemma MergeIdempotent(p: UpdateTaskPayload, existing: Task)
    ensures MergeUpdate(MergeUpdate(p, existing), existing) == MergeUpdate(p, existing)
  {
  }

  /** A payload that sets every merged field is persisted as sent, whatever the existing task holds. */
  lemma MergeComplete(p: UpdateTaskPayload, existing: Task, other: Task)
    requires p.title.Some? && p.description.Some? && p.status.Some? && p.priority.Some? && p.dueDate.Some?
    ensures MergeUpdate(p, existing) == p
    ensures MergeUpdate(p, existing) == MergeUpdate(p, other)
  {
  }

  /** The owner column is written from the request alone: left out, it becomes NULL whatever the task had. */
  lemma MergeOwnerFromRequest(taskID: int, p: UpdateTaskPayload, existing: Task)
    ensures UpdateStatement(taskID, MergeUpdate(p, existing)).args[0] == NullableInt(p.userId)
    ensures p.userId.None? ==> UpdateStatement(taskID, MergeUpdate(p, existing)).args[0] == Null
  {
  }

  // ---------------------------------------------------------------------------
  // What each handler answers

  /** handleGetTasks once the parameters parsed: a store error is 500, otherwise the paginated envelope. */
  function ListingResponse(p: Pagination.PaginationParams, l: Listing): (r: Response)
    requires 1 <= p.limit <= MaxInt64
    requires l.err.None? ==> IsInt64(l.total)
    ensures r.status == StatusInternalServerError <==> l.err.Some?
    ensures l.err.None? ==> r.status == StatusOK
    ensures l.err.Some? ==> r.body == ErrorBody(StoreErrorIn("failed to get tasks", l.err.value))
    ensures r.status == StatusOK ==>
      r.body.PageBody? && r.body.page == p.page && r.body.limit == p.limit && r.body.total == l.total &&
      r.body.data == l.tasks &&
      r.body.totalPages * p.limit >= l.total && (r.body.totalPages - 1) * p.limit < l.total
    ensures r.status == StatusOK && 0 <= l.total && l.total + p.limit - 1 <= MaxInt64 ==>
      r.body.totalPages == Pagination.TotalPagesAsWritten(l.total, p.limit)
  {
    if l.err.Some? then Response(StatusInternalServerError, ErrorBody(StoreErrorIn("failed to get tasks", l.err.value)))
    else
      Pagination.TotalPagesIsCeiling(l.total, p.limit);
      Pagination.TotalPagesAgree(l.total, p.limit);
      Response(StatusOK, PageBody(p.page, p.limit, l.total, Pagination.TotalPages(l.total, p.limit), l.tasks))
  }

  /**
   * Where handleUpdateTask stops before writing, in the order it checks: the existing
   * task could not be read, the body did not decode, the payload is invalid, the new
   * owner is unknown. None when it goes on to write.
   */
  function UpdateRejection(existing: Result<Task, DbError>, body: Option<UpdateTaskPayload>, valid: bool, ownerKnown: bool)
    : (r: Option<Response>)
    ensures existing.Err? ==> r == Some(Response(StatusNotFound, ErrorBody(StoreError(existing.error))))
    ensures r.None? <==> existing.Ok? && body.Some? && valid && (body.value.userId.Some? ==> ownerKnown)
    ensures r.Some? ==> r.value.status == StatusBadRequest || r.value.status == StatusNotFound
    ensures existing.Ok? && body.None? ==> r == Some(Response(StatusBadRequest, ErrorBody(BadJson)))
    ensures existing.Ok? && body.Some? && !valid ==> r == Some(Response(StatusBadRequest, ErrorBody(BadPayload)))
    ensures existing.Ok? && body.Some? && valid && body.value.userId.Some? && !ownerKnown ==>
      r == Some(Response(StatusNotFound, ErrorBody(UserNotFound)))
  {
    if existing.Err? then Some(Response(StatusNotFound, ErrorBody(StoreError(existing.error))))
    else if body.None? then Some(Response(StatusBadRequest, ErrorBody(BadJson)))
    else if !valid then Some(Response(StatusBadRequest, ErrorBody(BadPayload)))
    else if body.value.userId.Some? && !ownerKnown then Some(Response(StatusNotFound, ErrorBody(UserNotFound)))
    else None
  }

  /** handleDeleteTask after the delete: 500 on an error, 404 when no row went, 204 otherwise. */
  function DeleteResponse(o: (int, Option<DbError>)): (r: Response)
    ensures r.status == StatusInternalServerError <==> o.1.Some?
    ensures r.status == StatusNotFound <==> o.1.None? && o.0 == 0
    ensures r.status == StatusNoContent <==> o.1.None? && o.0 != 0
    ensures r.status == StatusNotFound ==> r.body == ErrorBody(TaskNotFound)
    ensures o.1.Some? ==> r.body == ErrorBody(StoreErrorIn("failed to delete task", o.1.value))
  {
    if o.1.Some? then Response(StatusInternalServerError, ErrorBody(StoreErrorIn("failed to delete task", o.1.value)))
    else if o.0 == 0 then Response(StatusNotFound, ErrorBody(TaskNotFound))
    else Response(StatusNoContent, NoBody)
  }

  /** Every listing text the handler can send: one per accepted sort key and order. */
  const ListTexts: set<string> :=
    set s, o | s in [Pagination.DefaultSortBy] + TaskSortFields && o in [Pagination.Asc, Pagination.Desc] :: ListSql(s, o)

  /** Whatever the query holds, an accepted listing request sends one of the fixed texts: no caller text reaches the SQL. */
  lemma ListTextIsFixed(query: map<string, string>)
    requires Pagination.Parse(query, TaskSortFields).Ok?
    ensures ListStatement(Pagination.Parse(query, TaskSortFields).value).sql in ListTexts
  {
    var p := Pagination.Parse(query, TaskSortFields).value;
    assert p.sortBy in [Pagination.DefaultSortBy] + TaskSortFields;
    assert p.order in [Pagination.Asc, Pagination.Desc];
  }

  /**
   * The listing text depends on `sort_by` and the lower-cased `order` alone: two queries
   * that agree on those are accepted together and send the same text, whatever their
   * `page` and `limit`; only the bound limit and offset differ.
   */
  lemma ListTextIgnoresPaging(query: map<string, string>, other: map<string, string>)
    requires Pagination.Parse(query, TaskSortFields).Ok?
    requires Pagination.Get(query, "sort_by") == Pagination.Get(other, "sort_by")
    requires Strings.ToLower(Pagination.Get(query, "order")) == Strings.ToLower(Pagination.Get(other, "order"))
    ensures Pagination.Parse(other, TaskSortFields).Ok?
    ensures ListStatement(Pagination.Parse(query, TaskSortFields).value).sql ==
            ListStatement(Pagination.Parse(other, TaskSortFields).value).sql
  {
    assert Pagination.SortByOf(query, TaskSortFields) == Pagination.SortByOf(other, TaskSortFields);
    assert Pagination.OrderOf(query) == Pagination.OrderOf(other);
  }

  /** Page 2 of 5 over 12 tasks: rows from offset 5 are asked for, and the envelope reports 3 pages. */
  lemma SecondPageOfTwelve(tasks: seq<Task>)
    ensures Pagination.Parse(map["page" := "2", "limit" := "5"], TaskSortFields) ==
      Ok(Pagination.PaginationParams(2, 5, Pagination.DefaultSortBy, Pagination.Asc, 5))
    ensures ListingResponse(Pagination.PaginationParams(2, 5, Pagination.DefaultSortBy, Pagination.Asc, 5),
                            Listing(tasks, 12, None)) ==
      Response(StatusOK, PageBody(2, 5, 12, 3, tasks))
  {
    var q := map["page" := "2", "limit" := "5"];
    assert Strconv.Atoi("2") == Some(2) by { Strconv.AtoiItoa(2); }
    assert Strconv.Atoi("5") == Some(5) by { Strconv.AtoiItoa(5); }
    assert Pagination.Get(q, "sort_by") == "" && Pagination.Get(q, "order") == "";
  }

  // ---------------------------------------------------------------------------
  // The user store the update handler consults

  /** The users the service knows, by id. */
  class UserStore {
    var users: map<int, User>

    constructor (users: map<int, User>)
      ensures this.users == users
    {
      this.users := users;
    }

    method GetUserByID(userID: int) returns (r: Option<User>)
      ensures r.Some? <==> userID in users
      ensures r.Some? ==> r.value == users[userID]
    {
      if userID in users {
        return Some(users[userID]);
      }
      return None;
    }
  }

  // ---------------------------------------------------------------------------
  // The handlers

  /**
   * Handler: the task store and the user store, and the payload validator, which
   * stands for the struct-tag rules and may reject any payload.
   */
  class Handler {
    const store: Store
    const userStore: UserStore
    const validCreate: CreateTaskPayload -> bool
    const validUpdate: UpdateTaskPayload -> bool

    constructor (store: Store, userStore: UserStore,
                 validCreate: CreateTaskPayload -> bool, validUpdate: UpdateTaskPayload -> bool)
      ensures this.store == store && this.userStore == userStore
      ensures this.validCreate == validCreate && this.validUpdate == validUpdate
    {
      this.store := store;
      this.userStore := userStore;
      this.validCreate := validCreate;
      this.validUpdate := validUpdate;
    }

    /** GET /tasks: parse the paging parameters, then list one page. */
    method HandleGetTasks(query: map<string, string>) returns (resp: Response)
      modifies store
      ensures store.table == old(store.table)
      ensures Pagination.Parse(query, TaskSortFields).Err? ==>
        resp == Response(StatusBadRequest, ErrorBody(BadQuery(Pagination.Parse(query, TaskSortFields).error))) &&
        store.issued == old(store.issued)
      ensures Pagination.Parse(query, TaskSortFields).Ok? ==>
        var p := Pagination.Parse(query, TaskSortFields).value;
        var listing := ListingOf(old(store.Answer(CountStatement)), old(store.Answer(ListStatement(p))));
        store.issued == old(store.issued) + [CountStatement] +
          (if CountOf(old(store.Answer(CountStatement))).Ok? then [ListStatement(p)] else []) &&
        (listing.err.None? ==> IsInt64(listing.total)) &&
        resp == ListingResponse(p, listing)
    {
      var pagination := Pagination.ParsePaginationParams(query, TaskSortFields);
      if pagination.Err? {
        return Response(StatusBadRequest, ErrorBody(BadQuery(pagination.error)));
      }
      var p := pagination.value;
      var tasks, total, err := store.GetPaginatedTasks(p);
      if err.Some? {
        return Response(StatusInternalServerError, ErrorBody(StoreErrorIn("failed to get tasks", err.value)));
      }
      return Response(StatusOK, PageBody(p.page, p.limit, total, Pagination.TotalPages(total, p.limit), tasks));
    }

    /** POST /tasks: decode, validate, store, and echo the request's payload. */
    method HandleCreateTask(body: Option<CreateTaskPayload>) returns (resp: Response)
      modifies store
      ensures body.None? ==> resp == Response(StatusBadRequest, ErrorBody(BadJson)) && unchanged(store)
      ensures body.Some? && !validCreate(body.value) ==>
        resp == Response(StatusBadRequest, ErrorBody(BadPayload)) && unchanged(store)
      ensures body.Some? && validCreate(body.value) ==>
        var st := InsertStatement(WithDefaultStatus(body.value));
        var res := old(store.Outcome(st));
        store.issued == old(store.issued) + [st] &&
        store.table == Applied(res, old(store.table)) &&
        resp == (if res.ExecFailed? then Response(StatusInternalServerError, ErrorBody(StoreError(res.err)))
                 else Response(StatusCreated, CreatedBody(body.value)))
    {
      if body.None? {
        return Response(StatusBadRequest, ErrorBody(BadJson));
      }
      var task := body.value;
      if !validCreate(task) {
        return Response(StatusBadRequest, ErrorBody(BadPayload));
      }
      var err := store.CreateTask(task);
      if err.Some? {
        return Response(StatusInternalServerError, ErrorBody(StoreError(err.value)));
      }
      return Response(StatusCreated, CreatedBody(task));
    }

    /** PUT /tasks/{task_id}: read the task, check the payload and its owner, merge, write, read back. */
    method HandleUpdateTask(vars: map<string, string>, body: Option<UpdateTaskPayload>) returns (resp: Response)
      modifies store
      ensures TaskIdOf(vars).Err? ==>
        resp == Response(StatusBadRequest, ErrorBody(TaskIdOf(vars).error)) && unchanged(store)
      ensures TaskIdOf(vars).Ok? ==>
        var id := TaskIdOf(vars).value;
        var existing := TaskOf(old(store.Answer(SelectById(id))));
        var rejected := UpdateRejection(existing, body, body.Some? && validUpdate(body.value),
                                        body.Some? && body.value.userId.Some? && body.value.userId.value in userStore.users);
        rejected.Some? ==>
          resp == rejected.value && store.issued == old(store.issued) + [SelectById(id)] &&
          store.table == old(store.table)
      ensures TaskIdOf(vars).Ok? ==>
        var id := TaskIdOf(vars).value;
        var existing := TaskOf(old(store.Answer(SelectById(id))));
        var rejected := UpdateRejection(existing, body, body.Some? && validUpdate(body.value),
                                        body.Some? && body.value.userId.Some? && body.value.userId.value in userStore.users);
        rejected.None? ==>
          var st := UpdateStatement(id, MergeUpdate(body.value, existing.value));
          var res := old(store.Outcome(st));
          store.table == Applied(res, old(store.table)) &&
          (res.ExecFailed? ==>
             resp == Response(StatusInternalServerError, ErrorBody(StoreError(res.err))) &&
             store.issued == old(store.issued) + [SelectById(id), st]) &&
          (res.Executed? ==>
             store.issued == old(store.issued) + [SelectById(id), st, SelectById(id)] &&
             resp == Response(StatusOK, match TaskOf(store.Answer(SelectById(id)))
                                        case Ok(t) => TaskBody(t)
                                        case Err(_) => NullBody))
    {
      if "task_id" !in vars {
        return Response(StatusBadRequest, ErrorBody(MissingTaskId));
      }
      var parsed := Strconv.Atoi(vars["task_id"]);
      if parsed.None? {
        return Response(StatusBadRequest, ErrorBody(InvalidTaskId));
      }
      var taskID := parsed.value;
      ghost var before := store.table;
      ghost var issuedBefore := store.issued;
      var existing := store.GetTaskByID(taskID);
      ghost var valid := body.Some? && validUpdate(body.value);
      ghost var ownerKnown := body.Some? && body.value.userId.Some? && body.value.userId.value in userStore.users;
      ghost var rejected := UpdateRejection(existing, body, valid, ownerKnown);
      if existing.Err? {
        return Response(StatusNotFound, ErrorBody(StoreError(existing.error)));
      }
      if body.None? {
        return Response(StatusBadRequest, ErrorBody(BadJson));
      }
      var task := body.value;
      if !validUpdate(task) {
        return Response(StatusBadRequest, ErrorBody(BadPayload));
      }
      if task.userId.Some? {
        var user := userStore.GetUserByID(task.userId.value);
        if user.None? {
          return Response(StatusNotFound, ErrorBody(UserNotFound));
        }
      }
      assert rejected.None?;

      task := FillFromExisting(task, existing.value);

      ghost var res := store.Outcome(UpdateStatement(taskID, task));
      var err := store.UpdateTask(taskID, task);
      assert store.table == Applied(res, before);
      if err.Some? {
        assert res.ExecFailed?;
        return Response(StatusInternalServerError, ErrorBody(StoreError(err.value)));
      }
      assert res.Executed?;
      var updatedTask := store.GetTaskByID(taskID);
      assert store.issued == issuedBefore + [SelectById(taskID), UpdateStatement(taskID, task), SelectById(taskID)];
      if updatedTask.Ok? {
        return Response(StatusOK, TaskBody(updatedTask.value));
      }
      return Response(StatusOK, NullBody);
    }

    /** DELETE /tasks/{task_id}: delete and report whether a row went. */
    method HandleDeleteTask(vars: map<string, string>) returns (resp: Response)
      modifies store
      ensures TaskIdOf(vars).Err? ==>
        resp == Response(StatusBadRequest, ErrorBody(TaskIdOf(vars).error)) && unchanged(store)
      ensures TaskIdOf(vars).Ok? ==>
        var st := DeleteStatement(TaskIdOf(vars).value);
        var res := old(store.Outcome(st));
        store.issued == old(store.issued) + [st] &&
        store.table == Applied(res, old(store.table)) &&
        resp == DeleteResponse(DeleteOutcome(res))
    {
      if "task_id" !in vars {
        return Response(StatusBadRequest, ErrorBody(MissingTaskId));
      }
      var parsed := Strconv.Atoi(vars["task_id"]);
      if parsed.None? {
        return Response(StatusBadRequest, ErrorBody(InvalidTaskId));
      }
      var taskID := parsed.value;
      var rowsAffected, err := store.DeleteTask(taskID);
      if err.Some? {
        return Response(StatusInternalServerError, ErrorBody(StoreErrorIn("failed to delete task", err.value)));
      }
      if rowsAffected == 0 {
        return Response(StatusNotFound, ErrorBody(TaskNotFound));
      }
      return Response(StatusNoContent, NoBody);
    }
  }
}
