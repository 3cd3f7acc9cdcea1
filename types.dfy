/** The records the task service reads and writes (types/types.go, completed from their uses). */
module Types {
  import opened Wrappers

  /** An instant; no arithmetic is done on times, so a number stands for `time.Time`. 0 is Go's zero time. */
  type Timestamp = int

  /** A row of the tasks table as the service sees it. A nil `user_id` or `due_date` is `None`. */
  datatype Task = Task(
    id: int,
    userId: Option<int>,
    title: string,
    description: string,
    status: string,
    priority: int,
    dueDate: Option<Timestamp>,
    createdAt: Timestamp,
    updatedAt: Timestamp)

  /** What `new(types.Task)` holds: every field at Go's zero value. */
  const ZeroTask: Task := Task(0, None, "", "", "", 0, None, 0, 0)

  /** The body of a create request; an empty `status` means "not given". */
  datatype CreateTaskPayload = CreateTaskPayload(
    userId: Option<int>,
    title: string,
    description: string,
    status: string,
    priority: int,
    dueDate: Option<Timestamp>)

  /** The body of an update request: every field is a pointer that is nil when the client left it out. */
  datatype UpdateTaskPayload = UpdateTaskPayload(
    userId: Option<int>,
    title: Option<string>,
    description: Option<string>,
    status: Option<string>,
    priority: Option<int>,
    dueDate: Option<Timestamp>)

  datatype User = User(id: int, firstName: string, lastName: string, email: string, createdAt: Timestamp)
}
