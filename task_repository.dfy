/** The gateway between the task store and the remote service. Each of its four
    operations maps what the HTTP client handed back — a response, or one of the
    two exception types it catches — to a uniform outcome. The HTTP call itself
    is not modelled: its result is the function's argument. */
module TaskRepository {
  import opened TaskModel

  /** A Retrofit `Response`: the success flag (a 2xx status), the decoded body,
      which may be absent, and the HTTP status message. */
  datatype Response<T> = Response(isSuccessful: bool, body: Option<T>, message: string)

  /** What one call into the HTTP client produced. `IOException.localizedMessage`
      may be null; `HttpException.status` is what its `message()` returns. */
  datatype Transport<T> =
    | Responded(response: Response<T>)
    | IOException(localizedMessage: Option<string>)
    | HttpException(status: string)

  /** What a repository function does: return `Result.success`, return
      `Result.failure` with a message, or let an uncaught exception escape. */
  datatype Outcome<T> =
    | Success(value: T)
    | Failure(message: string)
    | Escaped(message: string)

  /** The four repository operations, which differ in their protocol-error prefix. */
  datatype Operation = Fetching | Creating | Updating | Deleting

  /** The three failure categories: non-2xx response, connectivity, HTTP exception. */
  datatype Category = Protocol | Network | Http

  /** A failure message taken apart: its category and the text after the prefix. */
  datatype Diagnosis = Diagnosis(category: Category, detail: string)

  const NetworkPrefix := "Network error: "
  const HttpPrefix := "HTTP error: "
  /** The message of the exception thrown when a create or update has no body. */
  const EmptyTaskResponse := "Empty task response"

  /** The call reached the service and it answered with a 2xx status. */
  predicate Succeeded<T>(t: Transport<T>) {
    t.Responded? && t.response.isSuccessful
  }

  function ProtocolPrefix(op: Operation): string {
    match op
    case Fetching => "Error fetching tasks: "
    case Creating => "Error creating task: "
    case Updating => "Error updating task: "
    case Deleting => "Error deleting task: "
  }

  /** Kotlin's string template renders a null value as "null". */
  function Rendered(s: Option<string>): string {
    match s
    case Some(v) => v
    case None => "null"
  }

  function CategoryOf<T>(t: Transport<T>): Category {
    match t
    case Responded(_) => Protocol
    case IOException(_) => Network
    case HttpException(_) => Http
  }

  function DetailOf<T>(t: Transport<T>): string {
    match t
    case Responded(resp) => resp.message
    case IOException(m) => Rendered(m)
    case HttpException(s) => s
  }

  function PrefixOf(op: Operation, c: Category): string {
    match c
    case Protocol => ProtocolPrefix(op)
    case Network => NetworkPrefix
    case Http => HttpPrefix
  }

  /** Reference definition of the failure message for a failed call: the
      category's prefix followed by the detail the client reported. */
  function FailureMessage<T>(op: Operation, t: Transport<T>): string {
    PrefixOf(op, CategoryOf(t)) + DetailOf(t)
  }

  /** Recovers the category and detail from a failure message of operation `op`. */
  function Classify(op: Operation, msg: string): Option<Diagnosis> {
    if NetworkPrefix <= msg then Some(Diagnosis(Network, msg[|NetworkPrefix|..]))
    else if HttpPrefix <= msg then Some(Diagnosis(Http, msg[|HttpPrefix|..]))
    else if ProtocolPrefix(op) <= msg then Some(Diagnosis(Protocol, msg[|ProtocolPrefix(op)|..]))
    else None
  }

  lemma PrefixOfConcat(p: string, m: string)
    ensures p <= p + m && (p + m)[|p|..] == m
  {
    assert (p + m)[..|p|] == p;
  }

  lemma NotPrefixOfConcat(q: string, p: string, m: string)
    requires |q| > 0 && |p| > 0 && q[0] != p[0]
    ensures !(q <= p + m)
  {
    assert (p + m)[0] == p[0];
  }

  /** Failure messages are unambiguous: the category and the client's detail
      can be read back from the message, so the three categories never clash. */
  lemma {:induction false} ClassifyFailureMessage<T>(op: Operation, t: Transport<T>)
    ensures Classify(op, FailureMessage(op, t)) == Some(Diagnosis(CategoryOf(t), DetailOf(t)))
  {
    var p, m := PrefixOf(op, CategoryOf(t)), DetailOf(t);
    PrefixOfConcat(p, m);
    match CategoryOf(t)
    case Network =>
    case Http =>
      NotPrefixOfConcat(NetworkPrefix, p, m);
    case Protocol =>
      NotPrefixOfConcat(NetworkPrefix, p, m);
      NotPrefixOfConcat(HttpPrefix, p, m);
  }

  /** `TaskRepository.fetchTasks`: a 2xx response yields its body, or the empty
      list when the body is absent; every other outcome is a failure. */
  function FetchTasks(t: Transport<seq<Task>>): (r: Outcome<seq<Task>>)
    ensures r.Success? <==> Succeeded(t)
    ensures Succeeded(t) && t.response.body.Some? ==> r == Success(t.response.body.value)
    ensures Succeeded(t) && t.response.body.None? ==> r == Success([])
    ensures !Succeeded(t) ==> r == Failure(FailureMessage(Fetching, t))
  {
    match t
    case Responded(resp) =>
      if resp.isSuccessful then Success(resp.body.GetOr([]))
      else Failure("Error fetching tasks: " + resp.message)
    case IOException(m) => Failure("Network error: " + Rendered(m))
    case HttpException(s) => Failure("HTTP error: " + s)
  }

  /** Shared by create and update: a 2xx response with a body yields it; a 2xx
      response without one throws "Empty task response", which neither catch
      clause handles, so it escapes instead of becoming a failure. */
  function TaskOutcome(op: Operation, t: Transport<Task>): (r: Outcome<Task>)
    requires op == Creating || op == Updating
    ensures r.Success? <==> Succeeded(t) && t.response.body.Some?
    ensures r.Success? ==> r.value == t.response.body.value
    ensures r.Escaped? <==> Succeeded(t) && t.response.body.None?
    ensures r.Escaped? ==> r.message == EmptyTaskResponse
    ensures r.Failure? <==> !Succeeded(t)
    ensures r.Failure? ==> r.message == FailureMessage(op, t)
  {
    match t
    case Responded(resp) =>
      if resp.isSuccessful then
        (match resp.body
         case Some(task) => Success(task)
         case None => Escaped("Empty task response"))
      else Failure((if op == Creating then "Error creating task: " else "Error updating task: ") + resp.message)
    case IOException(m) => Failure("Network error: " + Rendered(m))
    case HttpException(s) => Failure("HTTP error: " + s)
  }

  /** `TaskRepository.createTask`. */
  function CreateTask(t: Transport<Task>): (r: Outcome<Task>)
    ensures r.Success? <==> Succeeded(t) && t.response.body.Some?
    ensures r.Success? ==> r.value == t.response.body.value
    ensures r.Escaped? <==> Succeeded(t) && t.response.body.None?
    ensures r.Escaped? ==> r.message == EmptyTaskResponse
    ensures r.Failure? ==> r.message == FailureMessage(Creating, t)
  {
    TaskOutcome(Creating, t)
  }

  /** `TaskRepository.updateTask`; the id and request only address the call. */
  function UpdateTask(t: Transport<Task>): (r: Outcome<Task>)
    ensures r.Success? <==> Succeeded(t) && t.response.body.Some?
    ensures r.Success? ==> r.value == t.response.body.value
    ensures r.Escaped? <==> Succeeded(t) && t.response.body.None?
    ensures r.Escaped? ==> r.message == EmptyTaskResponse
    ensures r.Failure? ==> r.message == FailureMessage(Updating, t)
  {
    TaskOutcome(Updating, t)
  }

  /** `TaskRepository.deleteTask`: any 2xx response, whatever its body, is
      `success(true)`; `success(false)` is never produced. */
  function DeleteTask(t: Transport<()>): (r: Outcome<bool>)
    ensures r.Success? <==> Succeeded(t)
    ensures r != Success(false) && !r.Escaped?
    ensures !Succeeded(t) ==> r == Failure(FailureMessage(Deleting, t))
  {
    match t
    case Responded(resp) =>
      if resp.isSuccessful then Success(true)
      else Failure("Error deleting task: " + resp.message)
    case IOException(m) => Failure("Network error: " + Rendered(m))
    case HttpException(s) => Failure("HTTP error: " + s)
  }

  /** The exact messages of the two caught exception kinds, the same for all four
      operations. */
  lemma ExceptionMessages(
    ft: Transport<seq<Task>>, ct: Transport<Task>, ut: Transport<Task>, dt: Transport<()>, m: string)
    ensures ft == IOException(Some(m)) ==> FetchTasks(ft) == Failure("Network error: " + m)
    ensures ct == IOException(Some(m)) ==> CreateTask(ct) == Failure("Network error: " + m)
    ensures ut == IOException(Some(m)) ==> UpdateTask(ut) == Failure("Network error: " + m)
    ensures dt == IOException(Some(m)) ==> DeleteTask(dt) == Failure("Network error: " + m)
    ensures ft == HttpException(m) ==> FetchTasks(ft) == Failure("HTTP error: " + m)
    ensures ct == HttpException(m) ==> CreateTask(ct) == Failure("HTTP error: " + m)
    ensures ut == HttpException(m) ==> UpdateTask(ut) == Failure("HTTP error: " + m)
    ensures dt == HttpException(m) ==> DeleteTask(dt) == Failure("HTTP error: " + m)
  {
  }

  /** A non-2xx response fails with the operation's own prefix and the status
      message, and the message names the operation it came from. */
  lemma ProtocolMessages(resp: Response<Task>, op: Operation)
    requires !resp.isSuccessful
    requires op == Creating || op == Updating
    ensures TaskOutcome(op, Responded(resp)) == Failure(ProtocolPrefix(op) + resp.message)
    ensures Classify(op, TaskOutcome(op, Responded(resp)).message) == Some(Diagnosis(Protocol, resp.message))
  {
    ClassifyFailureMessage(op, Responded(resp));
  }
}
