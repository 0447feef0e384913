# Todo store and handlers

A model of the server-side core of a small server-rendered todo application that exists
in four near-identical versions: two Rust/axum versions (`rust/src/service.rs`,
`rust/src/main.rs`) and two Go/net-http versions (`go/service.go`, `service.go`).
Each version keeps an ordered in-memory list of todos `(id, title, done)`:

- *create* appends one not-done record with the submitted title and a generated id;
- *update* walks the whole list and sets `done` to "the `done` form field equals `on`"
  on every record whose id equals the submitted id (an absent field counts as `""`).

The Go handlers put an ordered chain of early-return checks in front of the mutation:
method must be `POST` (405), `Content-Type` must be exactly
`application/x-www-form-urlencoded` (415), the form must parse (400), and for create the
title must not be empty after `strings.TrimSpace` (400). Success is 201 for create and
200 for update, whether or not any record matched.

Layout:

- `Todos.dfy` (module `Todos`): the record, the reference definition `MarkDone` of the
  update loop, and the lemmas about it (record by record, unknown id, last writer wins,
  idempotence, creation order over any run of operations).
- `rust_service.dfy`, `rust_main.dfy`: one `AppState` class per Rust file, with a
  `seq<Todo>` field and the handlers as methods; the update loops are proved against
  `MarkDone`.
- `go_http.dfy` (module `GoHttp`): the request as the Go handlers read it, `FormValue`,
  `strings.TrimSpace` over the Unicode white-space set, the generic "first failing check
  decides" function and the decision tables of both Go handlers.
- `go_service.dfy`, `root_service.dfy`: one `Service` class per Go file, handlers as
  methods proved against the decision tables and `MarkDone`, and the cases of the Go test
  files as client methods.

Ids are parameters: UUID generation is outside the model, and nothing in the code checks
that ids are unique, so nothing here assumes it. In the Go versions a record's id is a
`uuid.UUID` that update compares through its text form; the model stores that text form.

The Go create answers 201 and refuses a title that is blank after trimming; the Rust
create accepts any title, empty or white space only, and stores it verbatim, as the Go
create stores the untrimmed title.

In the Go versions every stored id is the 36-character text of a `uuid.UUID`
(`IsUuidText`): the generated id handed to the create handlers has that form, and each Go
`Service` keeps it as its `Valid()` invariant. This is what makes an update without an
`id` field, which reads the id as `""`, match nothing.

## Model

| member | source | states |
|---|---|---|
| `Todos.DoneFlag` | rust/src/service.rs:88-96 | the flag written by update is true exactly when the `done` field is present and equal to `"on"`; an absent field reads as `""` and gives false |
| `Todos.NewTodo` | rust/src/service.rs:71-77 | the created record carries the given id, the submitted title verbatim, and `done = false` |
| `Todos.MarkDone` | rust/src/service.rs:94-98 | the update loop never changes the number of records |
| `Todos.MarkDoneAt` | rust/src/service.rs:94-98 | after update, the record at any position is that position's old record with `done` replaced when its id matches (every match, the loop has no break) and the old record unchanged otherwise; ids, titles and order are kept |
| `Todos.MarkDoneFromPointwise` | rust/src/main.rs:165-173 | a list that agrees record by record with one loop step applied to the old list is the result of update |
| `Todos.MarkDoneUnknownId` | rust/src/service.rs:93-99 | an id matching no record leaves the list unchanged |
| `Todos.MarkDoneLastWins` | rust/src/service.rs:94-98 | two updates of the same id give the same list as the second one alone |
| `Todos.MarkDoneIdempotent` | rust/src/main.rs:165-173 | applying the same update twice gives the same list as applying it once |
| `Todos.ReplayKeepsCreationOrder` | rust/src/service.rs:79-98 | over any run of creates and updates, the (id, title) pairs of the list are the old ones followed by the created ones in call order, so the length grows by exactly the number of creates |
| `RustService.AppState.constructor` | rust/src/service.rs:41 | the default state holds no todos |
| `RustService.AppState.List` | rust/src/service.rs:51-54 | the `todos` handler returns the whole list in store order |
| `RustService.AppState.Create` | rust/src/service.rs:70-84 | the new list is the old one with the new record appended last; the rendered list is the new one |
| `RustService.AppState.Update` | rust/src/service.rs:86-104 | the new list is `MarkDone` of the old one with the id and the checkbox flag; the rendered list is the new one |
| `RustService.CreateListUpdate` | rust/src/service.rs:135-199 | on a fresh state, after one create the listing holds exactly that record, first, with a non-empty id and `done = false`; updating it with `done=on` makes it done |
| `RustMain.AppState.constructor` | rust/src/main.rs:111 | the default state holds no todos |
| `RustMain.AppState.Create` | rust/src/main.rs:141-155 | the new list is the old one with a not-done record with the given title and id appended last |
| `RustMain.AppState.Update` | rust/src/main.rs:157-179 | the if/else loop gives `MarkDone` of the old list: matching records become done exactly when the field is `"on"` |
| `RustMain.CreateThenUpdate` | rust/src/main.rs:141-174 | a create followed by an update of the new id: one more record, last, whose flag follows the `done` field; earlier records with other ids are unchanged |
| `GoHttp.FormValue` | go/service.go:117-120 | a form value is the first value of the key, and `""` when the key is missing or has no value |
| `GoHttp.MissingIdLeavesStore` | go/service.go:117-130 | an update without an `id` field leaves a store whose ids are UUID text unchanged, since `""` is no UUID text |
| `GoHttp.TrimLeft` | go/service.go:90 | leading white space is dropped: the result is a suffix of the input, everything dropped is white space, and it does not start with white space |
| `GoHttp.TrimRight` | go/service.go:90 | trailing white space is dropped: the result is a prefix, everything dropped is white space, and it does not end with white space |
| `GoHttp.BlankIffAllSpace` | go/service.go:89-93 | the title check fails exactly when the title is empty or consists only of white space |
| `GoHttp.FirstFailure` | go/service.go:74-97 | when every check of an early-return chain passes, the answer is the success status |
| `GoHttp.FirstFailureDecides` | go/service.go:74-93 | the first failing check decides the status, whatever later checks would say |
| `GoHttp.CreateDecisionTable` | go/service.go:73-97 | create answers 405 for a non-POST method, else 415 for any other content type, else 400 if the form does not parse, else 400 for a blank title, else 201 |
| `GoHttp.UpdateDecisionTable` | go/service.go:101-132 | update answers 405, else 415, else 400 by the same checks in the same order, and otherwise 200 |
| `GoService.Service.constructor` | go/service.go:43 | a new service holds no todos |
| `GoService.Service.Create` | go/service.go:73-99 | keeps every stored id UUID text; the status is the create decision table's; on 201 one not-done record with the untrimmed title is appended last, on every other status the list is unchanged |
| `GoService.Service.Update` | go/service.go:101-134 | keeps every stored id UUID text; the status is the update decision table's; on 200 the list becomes `MarkDone` with the `id` field and `done == "on"`, otherwise it is unchanged |
| `GoService.RunCreate` | go/service_test.go:157-199 | a create on a fresh service stores exactly the new record when it answers 201 and nothing otherwise |
| `GoService.RunUpdate` | go/service_test.go:249-292 | an update of a service holding one todo keeps that todo's id and title, and leaves it done exactly when the answer is 200, the id matches and `done` is `"on"` |
| `GoService.CreateTestStatuses` | go/service_test.go:119-154 | the create guard chain answers 201 for the accepted request, 405 for PUT, 415 for JSON and 400 for the empty form |
| `GoService.ServiceCreateCases` | go/service_test.go:109-155 | the four create cases answer 201, 405, 415 and 400, and only the first stores a record |
| `GoService.ServiceUpdateCases` | go/service_test.go:203-247 | the four update cases answer 200, 405 (checked before the missing content type), 415 and 200, and the todo is done only after the first |
| `RootService.Service.constructor` | service.go:46 | a new service holds no todos |
| `RootService.Service.Todo` | service.go:76-101 | keeps every stored id UUID text; the status is the create decision table's; on 201 a record `{Title: title, Done: false}` with the generated id is appended last, otherwise the list is unchanged |
| `RootService.Service.Update` | service.go:103-136 | keeps every stored id UUID text; the status is the update decision table's; on 200 every record whose id text equals the `id` field gets `done == "on"` and nothing else changes, otherwise the list is unchanged |
| `RootService.UpdateUnknownId` | service.go:119-134 | on a store whose ids are UUID text, an accepted update whose `id` field is missing, or matches no record, answers 200 and leaves the list as it was |
| `RootService.ServiceTodoCases` | service_test.go:55-127 | a POST with a title answers 201 and stores one record; the PUT cases answer 405 and store nothing |

## Left out

- HTTP server start-up, routing tables, ports and shutdown (`Start`, `main`, `Router::new()`, `ListenAndServe`): plumbing with no store logic.
- Locking: the Rust `RwLock` and the unguarded Go slice. The store is modelled single-threaded, one handler call at a time.
- Template rendering and HTML escaping (the `read` and `index` handlers, `render!`, `ExecuteTemplate`): foreign template engines. The Rust handlers return the list they would render; the Go handlers return only the status.
- JSON serialisation of the `/todos` listing: `List` returns the list itself.
- UUID generation (`Uuid::new_v4`, `uuid.New`): the id is a parameter. For the Go handlers it is required to be UUID text (`IsUuidText`), which is what `uuid.New().String()` yields; the Rust handlers take any string, and only the Rust test flow requires it to be non-empty.
- Form and header decoding: `ParseForm` is a flag plus its decoded result, and the axum `Form` extractor is not modelled, so its rejection of a request without `title` or `id` is not either; the Rust handlers take the decoded fields. Go's `FormValue` also consults URL query parameters; the model's form is the merged result.
- Title length: Go's `len` counts UTF-8 bytes and the model counts characters; both are zero for the same strings, which is all the check uses.
- Invalid UTF-8: strings are sequences of Unicode scalar values, so the handling of invalid UTF-8 by `strings.TrimSpace` is not modelled.
- The store write at go/service_test.go:254 indexes a slice with a string key and would not compile; the test cases are modelled with one stored todo carrying the test's id, which is what that line intends.
