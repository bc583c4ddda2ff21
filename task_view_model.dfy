/** The task store: the cached task list, the last error and the three
    filter/sort settings, reconciled with the outcome of one repository call per
    operation. The coroutine around each call is removed: a method receives the
    repository's outcome as a parameter and performs the reconcile step. */
module TaskViewModel {
  import opened TaskModel
  import opened TaskRepository

  // ---------------------------------------------------------------------------
  // Query parameters derived from the settings

  /** The `completed` query parameter for a filter setting. */
  function CompletedQuery(filter: string): (r: Option<bool>)
    ensures r == Some(true) <==> filter == "Complete"
    ensures r == Some(false) <==> filter == "Incomplete"
    ensures r == None <==> filter != "Complete" && filter != "Incomplete"
  {
    if filter == "Complete" then Some(true)
    else if filter == "Incomplete" then Some(false)
    else None
  }

  datatype SortKey = CreatedDate | DueDate

  /** A `sort_by` value taken apart: the field and whether it is ascending. */
  datatype SortSpec = SortSpec(key: SortKey, ascending: bool)

  function SortField(key: SortKey): string {
    match key
    case CreatedDate => "createdDate"
    case DueDate => "dueDate"
  }

  /** Reads a `sort_by` string of the form `+dueDate` or `-createdDate`. */
  function ParseSortSpec(s: string): Option<SortSpec> {
    if |s| == 0 || (s[0] != '+' && s[0] != '-') then None
    else if s[1..] == SortField(CreatedDate) then Some(SortSpec(CreatedDate, s[0] == '+'))
    else if s[1..] == SortField(DueDate) then Some(SortSpec(DueDate, s[0] == '+'))
    else None
  }

  /** The `sort_by` query parameter for the sort-by and order settings: present
      exactly for "Created" and "Due", and then it encodes that key, ascending
      exactly when the order is "Ascending". */
  function SortQuery(sortBy: string, order: string): (r: Option<string>)
    ensures r.Some? <==> sortBy == "Created" || sortBy == "Due"
    ensures r.Some? ==>
      ParseSortSpec(r.value) == Some(SortSpec(if sortBy == "Created" then CreatedDate else DueDate, order == "Ascending"))
  {
    if sortBy == "Created" then
      (if order == "Ascending" then Some("+createdDate") else Some("-createdDate"))
    else if sortBy == "Due" then
      (if order == "Ascending" then Some("+dueDate") else Some("-dueDate"))
    else None
  }

  /** The exact `sort_by` strings. */
  lemma SortQueryValues(order: string)
    ensures SortQuery("Created", order) == Some(if order == "Ascending" then "+createdDate" else "-createdDate")
    ensures SortQuery("Due", order) == Some(if order == "Ascending" then "+dueDate" else "-dueDate")
  {
  }

  /** The two query parameters of one fetch. */
  datatype Query = Query(completed: Option<bool>, sortBy: Option<string>)

  // ---------------------------------------------------------------------------
  // List transforms applied on success

  /** `tasks.map { if (it.id == id) t else it }` */
  function ReplaceById(s: seq<Task>, id: string, t: Task): (r: seq<Task>)
    ensures |r| == |s|
    ensures forall i :: 0 <= i < |s| ==> r[i] == (if s[i].id == id then t else s[i])
  {
    if s == [] then []
    else [if s[0].id == id then t else s[0]] + ReplaceById(s[1..], id, t)
  }

  /** `tasks.filter { it.id != id }`: every task with another id keeps its
      multiplicity, every task with this id is gone. */
  function RemoveById(s: seq<Task>, id: string): (r: seq<Task>)
    ensures |r| <= |s|
    ensures forall x :: x in r <==> x in s && x.id != id
    ensures forall x :: multiset(r)[x] == if x.id == id then 0 else multiset(s)[x]
    ensures (forall i :: 0 <= i < |s| ==> s[i].id != id) ==> r == s
  {
    if s == [] then []
    else 
      var rest := RemoveById(s[1..], id);
      assert s == [s[0]] + s[1..];
      if s[0].id == id then rest else [s[0]] + rest
  }

  /** The cached entry with its completion flag flipped. */
  function Flipped(t: Task): Task {
    t.(completed := !t.completed)
  }

  /** `tasks.map { if (it.id == id) it.copy(completed = !it.completed) else it }`:
      only the completion flag of entries with a matching id changes. */
  function ToggleById(s: seq<Task>, id: string): (r: seq<Task>)
    ensures |r| == |s|
    ensures forall i :: 0 <= i < |s| ==>
      r[i].id == s[i].id && r[i].taskDescription == s[i].taskDescription &&
      r[i].createdDate == s[i].createdDate && r[i].dueDate == s[i].dueDate &&
      r[i].completed == (s[i].completed != (s[i].id == id))
  {
    if s == [] then []
    else [if s[0].id == id then Flipped(s[0]) else s[0]] + ToggleById(s[1..], id)
  }

  /** Filtering keeps the relative order of what it keeps. */
  lemma {:induction false} RemoveByIdConcat(a: seq<Task>, b: seq<Task>, id: string)
    ensures RemoveById(a + b, id) == RemoveById(a, id) + RemoveById(b, id)
  {
    if a == [] {
      assert a + b == b;
    } else {
      assert (a + b)[0] == a[0];
      assert (a + b)[1..] == a[1..] + b;
      RemoveByIdConcat(a[1..], b, id);
    }
  }

  /** Toggling the same id twice restores the list. */
  lemma {:induction false} ToggleByIdInvolution(s: seq<Task>, id: string)
    ensures ToggleById(ToggleById(s, id), id) == s
  {
    if s != [] {
      var once := ToggleById(s, id);
      assert once[1..] == ToggleById(s[1..], id);
      ToggleByIdInvolution(s[1..], id);
    }
  }

  /** Identifiers within the collection are pairwise distinct. */
  predicate UniqueIds(s: seq<Task>) {
    forall i, j :: 0 <= i < j < |s| ==> s[i].id != s[j].id
  }

  lemma TailUnique(s: seq<Task>)
    requires UniqueIds(s) && s != []
    ensures UniqueIds(s[1..])
    ensures forall x :: x in s[1..] ==> x.id != s[0].id
  {
    forall x | x in s[1..] ensures x.id != s[0].id {
      var k :| 0 <= k < |s[1..]| && s[1..][k] == x;
      assert s[k + 1] == x;
    }
  }

  lemma ConsUnique(x: Task, r: seq<Task>)
    requires UniqueIds(r) && forall y :: y in r ==> y.id != x.id
    ensures UniqueIds([x] + r)
  {
    var c := [x] + r;
    forall i, j | 0 <= i < j < |c| ensures c[i].id != c[j].id {
      assert c[j] == r[j - 1];
      if i > 0 { assert c[i] == r[i - 1]; }
    }
  }

  /** Removing an id keeps ids unique and, when they are, drops at most one entry. */
  lemma {:induction false} RemoveByIdUnique(s: seq<Task>, id: string)
    requires UniqueIds(s)
    ensures UniqueIds(RemoveById(s, id))
    ensures |RemoveById(s, id)| >= |s| - 1
  {
    if s != [] {
      var rest := RemoveById(s[1..], id);
      TailUnique(s);
      RemoveByIdUnique(s[1..], id);
      if s[0].id == id {
        assert rest == s[1..];
      } else {
        ConsUnique(s[0], rest);
      }
    }
  }

  /** Toggling never changes an id, so it keeps ids unique. */
  lemma ToggleByIdUnique(s: seq<Task>, id: string)
    requires UniqueIds(s)
    ensures UniqueIds(ToggleById(s, id))
  {
  }

  /** Replacing by id keeps ids unique when the replacement carries that id. */
  lemma ReplaceByIdUnique(s: seq<Task>, id: string, t: Task)
    requires UniqueIds(s) && t.id == id
    ensures UniqueIds(ReplaceById(s, id, t))
  {
  }

  // ---------------------------------------------------------------------------
  // The store's state and its reconcile steps

  /** A snapshot of the five state holders. */
  datatype StoreState = StoreState(
    tasks: seq<Task>,
    error: Option<string>,
    filterOption: string,
    sortByOption: string,
    sortOrder: string)

  /** The state a new view model starts in. */
  function InitialState(): (st: StoreState)
    ensures st.tasks == [] && st.error == None
    ensures st.filterOption == "All" && st.sortByOption == "Due" && st.sortOrder == "Ascending"
  {
    StoreState([], None, "All", "Due", "Ascending")
  }

  /** `applySettings`: assigns the three settings and nothing else. */
  function AfterApplySettings(st: StoreState, filter: string, sortBy: string, order: string): (r: StoreState)
    ensures r.tasks == st.tasks && r.error == st.error
    ensures r.filterOption == filter && r.sortByOption == sortBy && r.sortOrder == order
  {
    st.(filterOption := filter, sortByOption := sortBy, sortOrder := order)
  }

  /** The query `fetchTasks` sends for the current settings. */
  function FetchQuery(st: StoreState): (q: Query)
    ensures q.completed == Some(true) <==> st.filterOption == "Complete"
    ensures q.completed == Some(false) <==> st.filterOption == "Incomplete"
    ensures q.completed == None <==> st.filterOption != "Complete" && st.filterOption != "Incomplete"
    ensures q.sortBy.Some? <==> st.sortByOption == "Created" || st.sortByOption == "Due"
    ensures q.sortBy.Some? ==>
      ParseSortSpec(q.sortBy.value) ==
      Some(SortSpec(if st.sortByOption == "Created" then CreatedDate else DueDate, st.sortOrder == "Ascending"))
  {
    Query(CompletedQuery(st.filterOption), SortQuery(st.sortByOption, st.sortOrder))
  }

  /** On failure only the error changes, to the failure's message; when the call
      threw an exception that escaped, the reconcile step never runs. */
  function AfterFailure<T>(st: StoreState, outcome: Outcome<T>): (r: StoreState)
    requires !outcome.Success?
    ensures r.tasks == st.tasks
    ensures r.filterOption == st.filterOption && r.sortByOption == st.sortByOption && r.sortOrder == st.sortOrder
    ensures outcome.Failure? ==> r.error == Some(outcome.message)
    ensures outcome.Escaped? ==> r == st
  {
    if outcome.Failure? then st.(error := Some(outcome.message)) else st
  }

  /** `fetchTasks` reconcile: on success the list becomes exactly the fetched one,
      whatever it held before, and the error is cleared. */
  function AfterFetch(st: StoreState, outcome: Outcome<seq<Task>>): (r: StoreState)
    ensures outcome.Success? ==> r.tasks == outcome.value && r.error == None
    ensures !outcome.Success? ==> r == AfterFailure(st, outcome)
    ensures r.filterOption == st.filterOption && r.sortByOption == st.sortByOption && r.sortOrder == st.sortOrder
  {
    match outcome
    case Success(fetched) => st.(tasks := fetched, error := None)
    case _ => AfterFailure(st, outcome)
  }

  /** `createTask` reconcile: on success the new task is appended, so the old list
      is a prefix and the length grows by one, and the error is cleared. */
  function AfterCreate(st: StoreState, outcome: Outcome<Task>): (r: StoreState)
    ensures outcome.Success? ==>
      |r.tasks| == |st.tasks| + 1 && r.tasks[..|st.tasks|] == st.tasks &&
      r.tasks[|st.tasks|] == outcome.value && r.error == None
    ensures !outcome.Success? ==> r == AfterFailure(st, outcome)
    ensures r.filterOption == st.filterOption && r.sortByOption == st.sortByOption && r.sortOrder == st.sortOrder
  {
    match outcome
    case Success(created) => st.(tasks := st.tasks + [created], error := None)
    case _ => AfterFailure(st, outcome)
  }

  /** `updateTask` reconcile: on success every entry with the id is replaced by
      the returned task, every other entry keeps its value and position. */
  function AfterUpdate(st: StoreState, id: string, outcome: Outcome<Task>): (r: StoreState)
    ensures outcome.Success? ==> |r.tasks| == |st.tasks| && r.error == None
    ensures outcome.Success? ==> forall i :: 0 <= i < |st.tasks| ==>
      (st.tasks[i].id == id ==> r.tasks[i] == outcome.value) &&
      (st.tasks[i].id != id ==> r.tasks[i] == st.tasks[i])
    ensures !outcome.Success? ==> r == AfterFailure(st, outcome)
    ensures r.filterOption == st.filterOption && r.sortByOption == st.sortByOption && r.sortOrder == st.sortOrder
  {
    match outcome
    case Success(updated) => st.(tasks := ReplaceById(st.tasks, id, updated), error := None)
    case _ => AfterFailure(st, outcome)
  }

  /** `deleteTask` reconcile: on `success(true)` exactly the entries with the id go
      and the error is cleared; on `success(false)` nothing changes. */
  function AfterDelete(st: StoreState, id: string, outcome: Outcome<bool>): (r: StoreState)
    ensures outcome == Success(true) ==> r.error == None && r.tasks == RemoveById(st.tasks, id)
    ensures outcome == Success(true) ==>
      forall x :: multiset(r.tasks)[x] == if x.id == id then 0 else multiset(st.tasks)[x]
    ensures outcome == Success(true) && (forall i :: 0 <= i < |st.tasks| ==> st.tasks[i].id != id) ==>
      r == st.(error := None)
    ensures outcome == Success(false) ==> r == st
    ensures !outcome.Success? ==> r == AfterFailure(st, outcome)
    ensures r.filterOption == st.filterOption && r.sortByOption == st.sortByOption && r.sortOrder == st.sortOrder
  {
    match outcome
    case Success(deleted) =>
      if deleted then st.(tasks := RemoveById(st.tasks, id), error := None) else st
    case _ => AfterFailure(st, outcome)
  }

  /** The request `toggleTaskCompletion` sends: the task's description and due
      date with the completion flag negated. */
  function ToggleRequest(task: Task): (req: TaskRequest)
    ensures req.taskDescription == task.taskDescription && req.dueDate == task.dueDate
    ensures req.completed == !task.completed
  {
    TaskRequest(task.taskDescription, task.dueDate, !task.completed)
  }

  /** `toggleTaskCompletion` reconcile: on success the returned task is ignored and
      each cached entry with the id has its own flag flipped. */
  function AfterToggle(st: StoreState, task: Task, outcome: Outcome<Task>): (r: StoreState)
    ensures outcome.Success? ==> |r.tasks| == |st.tasks| && r.error == None
    ensures outcome.Success? ==> forall i :: 0 <= i < |st.tasks| ==>
      (st.tasks[i].id == task.id ==> r.tasks[i] == Flipped(st.tasks[i])) &&
      (st.tasks[i].id != task.id ==> r.tasks[i] == st.tasks[i])
    ensures !outcome.Success? ==> r == AfterFailure(st, outcome)
    ensures r.filterOption == st.filterOption && r.sortByOption == st.sortByOption && r.sortOrder == st.sortOrder
  {
    match outcome
    case Success(_) => st.(tasks := ToggleById(st.tasks, task.id), error := None)
    case _ => AfterFailure(st, outcome)
  }

  // ---------------------------------------------------------------------------
  // Properties relating several steps

  /** Applying the same settings twice is the same as applying them once. */
  lemma ApplySettingsIdempotent(st: StoreState, filter: string, sortBy: string, order: string)
    ensures AfterApplySettings(AfterApplySettings(st, filter, sortBy, order), filter, sortBy, order)
         == AfterApplySettings(st, filter, sortBy, order)
  {
  }

  /** A successful fetch replaces the list wholesale: the result does not depend
      on what the list held before. */
  lemma FetchIgnoresPriorTasks(st: StoreState, other: seq<Task>, outcome: Outcome<seq<Task>>)
    requires outcome.Success?
    ensures AfterFetch(st, outcome) == AfterFetch(st.(tasks := other), outcome)
  {
  }

  /** The refetch a successful create requests supersedes the optimistic append. */
  lemma CreateThenFetch(st: StoreState, created: Task, fetched: seq<Task>)
    ensures AfterFetch(AfterCreate(st, Success(created)), Success(fetched)) ==
            AfterFetch(st, Success(fetched))
  {
  }

  /** Two successful toggles of the same task restore the list and leave no error. */
  lemma ToggleTwiceRestores(st: StoreState, task: Task, again: Task, first: Task, second: Task)
    requires again.id == task.id
    ensures AfterToggle(AfterToggle(st, task, Success(first)), again, Success(second)) == st.(error := None)
  {
    ToggleByIdInvolution(st.tasks, task.id);
  }

  /** A successful toggle keeps ids unique, and a delete keeps them unique and
      removes at most one entry. */
  lemma ReconcileKeepsUniqueIds(st: StoreState, task: Task, id: string, tok: Outcome<Task>, dok: Outcome<bool>)
    requires UniqueIds(st.tasks)
    ensures UniqueIds(AfterToggle(st, task, tok).tasks)
    ensures UniqueIds(AfterDelete(st, id, dok).tasks)
    ensures |AfterDelete(st, id, dok).tasks| >= |st.tasks| - 1
  {
    ToggleByIdUnique(st.tasks, task.id);
    RemoveByIdUnique(st.tasks, id);
  }

  /** Composed with the repository: a create whose 2xx response has no body lets
      the exception escape, so neither the list nor the error changes and no
      refetch is requested; a delete answered with any 2xx response removes. */
  lemma GatewayComposition(st: StoreState, ct: Transport<Task>, dt: Transport<()>, id: string)
    ensures Succeeded(ct) && ct.response.body.None? ==> AfterCreate(st, CreateTask(ct)) == st
    ensures Succeeded(dt) ==> AfterDelete(st, id, DeleteTask(dt)) == st.(tasks := RemoveById(st.tasks, id), error := None)
    ensures !Succeeded(dt) ==> AfterDelete(st, id, DeleteTask(dt)) == st.(error := Some(FailureMessage(Deleting, dt)))
  {
  }

  // ---------------------------------------------------------------------------
  // The view model object

  class TaskViewModel {
    var tasks: seq<Task>
    var error: Option<string>
    var filterOption: string
    var sortByOption: string
    var sortOrder: string

    /** The five fields as one value. */
    function State(): StoreState
      reads this
    {
      StoreState(tasks, error, filterOption, sortByOption, sortOrder)
    }

    constructor ()
      ensures State() == InitialState()
    {
      tasks := [];
      error := None;
      filterOption := "All";
      sortByOption := "Due";
      sortOrder := "Ascending";
    }

    method ApplySettings(filter: string, sortBy: string, order: string)
      modifies this
      ensures State() == AfterApplySettings(old(State()), filter, sortBy, order)
    {
      filterOption := filter;
      sortByOption := sortBy;
      sortOrder := order;
    }

    /** Derives the query from the settings, then reconciles with the outcome the
        repository returned for it. */
    method FetchTasks(outcome: Outcome<seq<Task>>) returns (query: Query)
      modifies this
      ensures query == FetchQuery(old(State()))
      ensures State() == AfterFetch(old(State()), outcome)
    {
      var completed := CompletedQuery(filterOption);
      var sortBy := SortQuery(sortByOption, sortOrder);
      query := Query(completed, sortBy);
      match outcome
      case Success(fetched) =>
        tasks := fetched;
        error := None;
      case Failure(message) =>
        error := Some(message);
      case Escaped(_) =>
    }

    /** On success also requests a refetch, which the caller performs as a
        separate `FetchTasks` step. */
    method CreateTask(outcome: Outcome<Task>) returns (refetch: bool)
      modifies this
      ensures refetch <==> outcome.Success?
      ensures State() == AfterCreate(old(State()), outcome)
    {
      refetch := false;
      match outcome
      case Success(created) =>
        tasks := tasks + [created];
        refetch := true;
        error := None;
      case Failure(message) =>
        error := Some(message);
      case Escaped(_) =>
    }

    method UpdateTask(id: string, outcome: Outcome<Task>)
      modifies this
      ensures State() == AfterUpdate(old(State()), id, outcome)
    {
      match outcome
      case Success(updated) =>
        tasks := ReplaceById(tasks, id, updated);
        error := None;
      case Failure(message) =>
        error := Some(message);
      case Escaped(_) =>
    }

    method DeleteTask(id: string, outcome: Outcome<bool>)
      modifies this
      ensures State() == AfterDelete(old(State()), id, outcome)
    {
      match outcome
      case Success(deleted) =>
        if deleted {
          tasks := RemoveById(tasks, id);
          error := None;
        }
      case Failure(message) =>
        error := Some(message);
      case Escaped(_) =>
    }

    /** Returns the request sent to the repository, then reconciles with its outcome. */
    method ToggleTaskCompletion(task: Task, outcome: Outcome<Task>) returns (request: TaskRequest)
      modifies this
      ensures request == ToggleRequest(task)
      ensures State() == AfterToggle(old(State()), task, outcome)
    {
      request := TaskRequest(task.taskDescription, task.dueDate, !task.completed);
      match outcome
      case Success(_) =>
        tasks := ToggleById(tasks, task.id);
        error := None;
      case Failure(message) =>
        error := Some(message);
      case Escaped(_) =>
    }
  }

  /** A session as the list screen drives it: create, then the requested refetch. */
  method CreateAndRefetch(vm: TaskViewModel, ct: Transport<Task>, ft: Transport<seq<Task>>)
    modifies vm
    ensures vm.State() ==
      if CreateTask(ct).Success? then AfterFetch(AfterCreate(old(vm.State()), CreateTask(ct)), FetchTasks(ft))
      else AfterCreate(old(vm.State()), CreateTask(ct))
    ensures vm.filterOption == old(vm.filterOption) && vm.sortByOption == old(vm.sortByOption) &&
            vm.sortOrder == old(vm.sortOrder)
    ensures Succeeded(ct) && ct.response.body.None? ==> vm.State() == old(vm.State())
    ensures Succeeded(ct) && ct.response.body.Some? && Succeeded(ft) ==>
      vm.tasks == ft.response.body.GetOr([]) && vm.error == None
    ensures Succeeded(ct) && ct.response.body.Some? && !Succeeded(ft) ==>
      vm.tasks == old(vm.tasks) + [ct.response.body.value] && vm.error == Some(FailureMessage(Fetching, ft))
    ensures !Succeeded(ct) ==> vm.tasks == old(vm.tasks) && vm.error == Some(FailureMessage(Creating, ct))
  {
    var refetch := vm.CreateTask(CreateTask(ct));
    if refetch {
      var _ := vm.FetchTasks(FetchTasks(ft));
    }
  }
}
