# To-do app task store and gateway, modelled in Dafny

This project models the state-synchronization core of an Android to-do client
(Kotlin). Two components are modelled:

- **The repository** (`TaskRepository`, `task_repository.dfy`). It has four operations: fetch, create, update and delete. Each maps what the HTTP client handed back to an outcome. The client can hand back a response (with a success flag, an optional body and a status message), an `IOException` or an `HttpException`. There are three outcome kinds: success, failure with a message, and an exception that escapes. The third kind exists because a 2xx create or update with no body throws `Exception("Empty task response")` inside the `try`, and neither catch clause handles it.
- **The view model** (`TaskViewModel`, `task_view_model.dfy`). This is a class with the five pieces of state: `tasks`, `error`, `filterOption`, `sortByOption` and `sortOrder`. It has one method per public operation: `ApplySettings`, `FetchTasks`, `CreateTask`, `UpdateTask`, `DeleteTask` and `ToggleTaskCompletion`. Each method takes the repository's outcome as a parameter instead of launching a coroutine. Each method's `ensures` ties the new state to a pure step function of the old state (`AfterFetch`, `AfterCreate`, …). The properties are proved about those step functions and about the list transforms they use: replace by id, filter out by id, and flip the completion flag by id.

`task_model.dfy` holds the `Task` and `TaskRequest` records. It also holds `Option`, which stands for Kotlin's nullable types. `Date` is modelled as an integer.

A 2xx create or update with no body does not produce a failure `Result`. The `Exception("Empty task response")` thrown at `TaskRepository.kt:32` and `:47` is caught by neither clause, so it escapes. The view model's `fold` therefore never runs, and neither `tasks` nor `error` changes (`GatewayComposition`).

## Model

| member | source | states |
|---|---|---|
| TaskRepository.FetchTasks | app/src/main/java/com/example/todo_app/data/repository/TaskRepository.kt:13-26 | success exactly for a 2xx response: its body, or the empty list when the body is absent; otherwise a failure whose message is the category prefix plus the client's detail; never escapes |
| TaskRepository.TaskOutcome | app/src/main/java/com/example/todo_app/data/repository/TaskRepository.kt:28-56 | shared create/update mapping: success exactly when 2xx with a body, and the body is returned unchanged; escape with "Empty task response" exactly when 2xx without a body; failure exactly when not 2xx, with the operation's message |
| TaskRepository.CreateTask | app/src/main/java/com/example/todo_app/data/repository/TaskRepository.kt:28-41 | the same for create, with failure prefix "Error creating task: " |
| TaskRepository.UpdateTask | app/src/main/java/com/example/todo_app/data/repository/TaskRepository.kt:43-56 | the same for update, with failure prefix "Error updating task: " |
| TaskRepository.DeleteTask | app/src/main/java/com/example/todo_app/data/repository/TaskRepository.kt:58-71 | success exactly for a 2xx response, whatever its body; never `success(false)` and never escapes; otherwise a failure with "Error deleting task: " plus the status message, or the exception's message |
| TaskRepository.ClassifyFailureMessage | app/src/main/java/com/example/todo_app/data/repository/TaskRepository.kt:19-24 | the category (protocol, network, HTTP) and the detail can be read back from every failure message, so the three categories never collide |
| TaskRepository.ExceptionMessages | app/src/main/java/com/example/todo_app/data/repository/TaskRepository.kt:21-69 | in all four operations an `IOException` gives "Network error: " + message and an `HttpException` gives "HTTP error: " + message |
| TaskRepository.ProtocolMessages | app/src/main/java/com/example/todo_app/data/repository/TaskRepository.kt:33-50 | a non-2xx create or update fails with its own operation prefix followed by the status message, and classifies as a protocol failure |
| TaskViewModel.CompletedQuery | app/src/main/java/com/example/todo_app/viewmodel/TaskViewModel.kt:40-44 | true exactly for "Complete", false exactly for "Incomplete", absent for every other filter including "All" |
| TaskViewModel.SortQuery | app/src/main/java/com/example/todo_app/viewmodel/TaskViewModel.kt:46-50 | present exactly for "Created" and "Due"; when present it parses back to that key, ascending exactly when the order is "Ascending" |
| TaskViewModel.SortQueryValues | app/src/main/java/com/example/todo_app/viewmodel/TaskViewModel.kt:47-48 | the exact strings "+createdDate", "-createdDate", "+dueDate", "-dueDate" |
| TaskViewModel.ReplaceById | app/src/main/java/com/example/todo_app/viewmodel/TaskViewModel.kt:89 | length preserved; each entry with the id becomes the new task and every other entry is unchanged in place |
| TaskViewModel.RemoveById | app/src/main/java/com/example/todo_app/viewmodel/TaskViewModel.kt:106 | membership is exactly "in the old list and with another id"; multiplicities of other tasks are kept; the list is unchanged when no entry has the id |
| TaskViewModel.ToggleById | app/src/main/java/com/example/todo_app/viewmodel/TaskViewModel.kt:129 | length preserved; id, description and both dates unchanged everywhere; the flag is flipped exactly where the id matches |
| TaskViewModel.RemoveByIdConcat | app/src/main/java/com/example/todo_app/viewmodel/TaskViewModel.kt:106 | filtering distributes over concatenation, so the kept entries keep their relative order |
| TaskViewModel.ToggleByIdInvolution | app/src/main/java/com/example/todo_app/viewmodel/TaskViewModel.kt:129 | toggling the same id twice gives back the original list |
| TaskViewModel.RemoveByIdUnique | app/src/main/java/com/example/todo_app/viewmodel/TaskViewModel.kt:106 | on a list with unique ids, removal keeps ids unique and removes at most one entry |
| TaskViewModel.ToggleByIdUnique | app/src/main/java/com/example/todo_app/viewmodel/TaskViewModel.kt:129 | toggling keeps ids unique |
| TaskViewModel.ReplaceByIdUnique | app/src/main/java/com/example/todo_app/viewmodel/TaskViewModel.kt:89 | replacing keeps ids unique when the replacement carries the same id |
| TaskViewModel.InitialState | app/src/main/java/com/example/todo_app/viewmodel/TaskViewModel.kt:16-29 | empty list, no error, filter "All", sort by "Due", order "Ascending" |
| TaskViewModel.AfterApplySettings | app/src/main/java/com/example/todo_app/viewmodel/TaskViewModel.kt:31-35 | the three settings take the given values; tasks and error are untouched |
| TaskViewModel.FetchQuery | app/src/main/java/com/example/todo_app/viewmodel/TaskViewModel.kt:40-52 | `completed` is true exactly for filter "Complete", false exactly for "Incomplete", absent otherwise; `sort_by` is present exactly for "Created" and "Due" and parses back to that key, ascending exactly when the order is "Ascending" |
| TaskViewModel.AfterFailure | app/src/main/java/com/example/todo_app/viewmodel/TaskViewModel.kt:58-60 | on failure the list and settings are untouched and the error becomes the failure's message; an escaped exception changes nothing |
| TaskViewModel.AfterFetch | app/src/main/java/com/example/todo_app/viewmodel/TaskViewModel.kt:52-61 | on success the list becomes exactly the fetched list and the error is cleared; otherwise only the error changes; the settings never change |
| TaskViewModel.AfterCreate | app/src/main/java/com/example/todo_app/viewmodel/TaskViewModel.kt:68-79 | on success the length grows by one, the old list is a prefix, the last entry is the created task, and the error is cleared; otherwise only the error changes |
| TaskViewModel.AfterUpdate | app/src/main/java/com/example/todo_app/viewmodel/TaskViewModel.kt:86-95 | on success the length is preserved, entries with the id become the returned task, all others keep their value and position, and the error is cleared |
| TaskViewModel.AfterDelete | app/src/main/java/com/example/todo_app/viewmodel/TaskViewModel.kt:102-113 | on `success(true)` the list is the filtered list (so `RemoveByIdConcat` gives the survivors' order), exactly the entries with the id go, the error is cleared, and an absent id leaves the list unchanged; `success(false)` changes nothing; failure changes only the error; the settings never change |
| TaskViewModel.ToggleRequest | app/src/main/java/com/example/todo_app/viewmodel/TaskViewModel.kt:120-124 | the request carries the task's description and due date with the completion flag negated |
| TaskViewModel.AfterToggle | app/src/main/java/com/example/todo_app/viewmodel/TaskViewModel.kt:126-135 | on success each entry with the id is flipped from its own cached flag, all other entries are unchanged, and the returned task is ignored; failure changes only the error |
| TaskViewModel.ApplySettingsIdempotent | app/src/main/java/com/example/todo_app/viewmodel/TaskViewModel.kt:31-35 | applying the same settings twice equals applying them once |
| TaskViewModel.FetchIgnoresPriorTasks | app/src/main/java/com/example/todo_app/viewmodel/TaskViewModel.kt:54-57 | a successful fetch gives the same state whatever the list held before |
| TaskViewModel.CreateThenFetch | app/src/main/java/com/example/todo_app/viewmodel/TaskViewModel.kt:70-74 | the refetch requested after a successful create supersedes the optimistic append |
| TaskViewModel.ToggleTwiceRestores | app/src/main/java/com/example/todo_app/viewmodel/TaskViewModel.kt:126-131 | two successful toggles of the same id restore the list, with no error |
| TaskViewModel.ReconcileKeepsUniqueIds | app/src/main/java/com/example/todo_app/viewmodel/TaskViewModel.kt:102-131 | toggle and delete keep ids unique, and a delete removes at most one entry |
| TaskViewModel.GatewayComposition | app/src/main/java/com/example/todo_app/viewmodel/TaskViewModel.kt:66-113 | a create whose 2xx response has no body changes neither the list nor the error; a delete with any 2xx response removes by id; a failed delete records the repository's message |
| TaskViewModel.TaskViewModel.constructor | app/src/main/java/com/example/todo_app/viewmodel/TaskViewModel.kt:16-29 | a new view model is in the initial state |
| TaskViewModel.TaskViewModel.ApplySettings | app/src/main/java/com/example/todo_app/viewmodel/TaskViewModel.kt:31-35 | the new state is `AfterApplySettings` of the old one |
| TaskViewModel.TaskViewModel.FetchTasks | app/src/main/java/com/example/todo_app/viewmodel/TaskViewModel.kt:38-63 | returns the query derived from the settings; the new state is `AfterFetch` of the old one |
| TaskViewModel.TaskViewModel.CreateTask | app/src/main/java/com/example/todo_app/viewmodel/TaskViewModel.kt:66-81 | requests a refetch exactly on success; the new state is `AfterCreate` of the old one |
| TaskViewModel.TaskViewModel.UpdateTask | app/src/main/java/com/example/todo_app/viewmodel/TaskViewModel.kt:84-97 | the new state is `AfterUpdate` of the old one |
| TaskViewModel.TaskViewModel.DeleteTask | app/src/main/java/com/example/todo_app/viewmodel/TaskViewModel.kt:100-115 | the new state is `AfterDelete` of the old one |
| TaskViewModel.TaskViewModel.ToggleTaskCompletion | app/src/main/java/com/example/todo_app/viewmodel/TaskViewModel.kt:118-137 | returns the negated-flag request; the new state is `AfterToggle` of the old one |
| TaskViewModel.CreateAndRefetch | app/src/main/java/com/example/todo_app/viewmodel/TaskViewModel.kt:70-74 | the final state is the create step followed, only when the create succeeded, by the fetch step; settings never change; a bodiless 2xx create changes nothing; a successful create and refetch leave exactly the fetched list; a failed refetch leaves the appended list and the fetch message; a failed create leaves the list and records its message |

## Left out

- Coroutines (`viewModelScope.launch`) and the interleaving of concurrent operations (last writer wins) are not modelled. Each operation is one atomic reconcile step given its outcome. The `fetchTasks()` nested in `createTask` is modelled as a refetch the method requests and the caller then performs.
- The HTTP call is not modelled: `TaskApiService`, the Retrofit client and JSON decoding are replaced by the `Transport` value a repository function receives. The request, id and query parameters that address the call therefore do not appear in the repository functions. `TaskViewModel.CreateTask` and `TaskViewModel.UpdateTask` do not take the request they would send.
- Exceptions other than `IOException` and `HttpException` that the HTTP client might throw, such as a JSON decoding error, are not modelled. Like "Empty task response", they would escape.
- The uncaught exception that escapes a repository function is modelled as an outcome that leaves the store unchanged. What Android does with it afterwards, which is to crash the process, is not modelled.
- `localizedMessage` of the failure exception is taken to equal the message the repository built. An `IOException` with a null message renders as "null", as Kotlin's string template does.
- `StateFlow` observation, `Date` formatting, and everything in the Compose screens and navigation are not modelled. This includes the empty-description check and the edit prefill lookup in the create screen.
- Ids are assigned by the server and expected to be unique, but the code does not enforce this: a create appends and a fetch adopts whatever the server sends. So uniqueness is not a class invariant. It is proved only as a property that toggle, delete and same-id replace preserve.
