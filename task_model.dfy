/** The two records the app exchanges with the to-do service: a task as the
    server returns it, and the payload the app sends to create or update one. */
module TaskModel {

  /** A value that may be absent (Kotlin's nullable types). */
  datatype Option<+T> = None | Some(value: T) {
    /** The value, or `default` when absent (Kotlin's `?:`). */
    function GetOr(default: T): T {
      match this
      case Some(v) => v
      case None => default
    }
  }

  /** `java.util.Date`, kept opaque beyond its epoch-millisecond value. */
  type Date = int

  /** A task held by the service; `id` and `createdDate` are server-assigned. */
  datatype Task = Task(
    id: string,
    taskDescription: string,
    createdDate: Date,
    dueDate: Date,
    completed: bool)

  /** The body of a create or update request: no id, no creation date. */
  datatype TaskRequest = TaskRequest(
    taskDescription: string,
    dueDate: Date,
    completed: bool)
}
