/** The handlers of service.go, the top-level version of the Go service: its create
    handler is `todo`, served at `/todo`. Only the `todos` slice of the `service` struct
    is modelled; the template output is not. */
module RootService {
  import T = Todos
  import opened GoHttp

  /** `service`: the slice of todos the handlers share. */
  class Service {
    var todos: seq<T.Todo>

    /** Every stored id is the text of the UUID the create handler generated. */
    predicate Valid()
      reads this
    {
      UuidIds(todos)
    }

    /** `Service(addr)`: an empty slice of todos. */
    constructor ()
      ensures Valid() && todos == []
    {
      todos := [];
    }

    /** `todo`: the guard chain, then one appended record `{Title: title, Done: false}`
        with the generated id, answered with 201. A rejected request changes nothing. */
    method Todo(req: Request, freshId: string) returns (status: int)
      requires Valid() && IsUuidText(freshId)
      modifies this
      ensures Valid()
      ensures status == CreateStatus(req)
      ensures todos == if status == StatusCreated then old(todos) + [T.NewTodo(freshId, Title(req))]
                       else old(todos)
    {
      CreateDecisionTable(req);
      if req.verb != MethodPost {
        return StatusMethodNotAllowed;
      }
      if req.contentType != FormUrlEncoded {
        return StatusUnsupportedMediaType;
      }
      if !req.formOk {
        return StatusBadRequest;
      }
      var title := FormValue(req.form, "title");
      if |TrimSpace(title)| < 1 {
        return StatusBadRequest;
      }
      todos := todos + [T.Todo(freshId, title, false)];
      return StatusCreated;
    }

    /** `update`: the guard chain, then every record whose id text equals the `id` field
        gets `done == "on"`; the answer is 200 whether or not any record matched. */
    method Update(req: Request) returns (status: int)
      requires Valid()
      modifies this
      ensures Valid()
      ensures status == UpdateStatus(req)
      ensures todos == if status == StatusOK
                       then T.MarkDone(old(todos), FormValue(req.form, "id"), FormValue(req.form, "done") == "on")
                       else old(todos)
    {
      UpdateDecisionTable(req);
      if req.verb != MethodPost {
        return StatusMethodNotAllowed;
      }
      if req.contentType != FormUrlEncoded {
        return StatusUnsupportedMediaType;
      }
      if !req.formOk {
        return StatusBadRequest;
      }
      var done := FormValue(req.form, "done");
      var id := FormValue(req.form, "id");
      var i := 0;
      while i < |todos|
        invariant 0 <= i <= |todos| == |old(todos)|
        invariant forall k :: 0 <= k < i ==> todos[k] == T.Mark(old(todos)[k], id, done == "on")
        invariant forall k :: i <= k < |todos| ==> todos[k] == old(todos)[k]
      {
        if todos[i].id == id {
          if done == "on" {
            todos := todos[i := todos[i].(done := true)];
          } else {
            todos := todos[i := todos[i].(done := false)];
          }
        }
        i := i + 1;
      }
      T.MarkDoneFromPointwise(old(todos), todos, id, done == "on");
      return StatusOK;
    }
  }

  /** An update whose `id` field is missing (read as "", which no UUID text equals) or
      matches no stored id answers 200 and leaves the store as it was. */
  method UpdateUnknownId(start: seq<T.Todo>, form: Form) returns (status: int, stored: seq<T.Todo>)
    requires UuidIds(start)
    requires "id" !in form || forall k :: 0 <= k < |start| ==> start[k].id != FormValue(form, "id")
    ensures status == StatusOK
    ensures stored == start
  {
    var svc := new Service();
    svc.todos := start;
    status := svc.Update(Request(MethodPost, FormUrlEncoded, true, form));
    stored := svc.todos;
    if "id" in form {
      T.MarkDoneUnknownId(start, FormValue(form, "id"), FormValue(form, "done") == "on");
    } else {
      MissingIdLeavesStore(start, form, FormValue(form, "done") == "on");
    }
  }

  /** The cases of `TestServiceTodo`, each on a fresh service with the form content type:
      a POST with a title is created, the two PUTs are refused with 405 before anything else. */
  method ServiceTodoCases(freshId: string) returns (statuses: seq<int>, sizes: seq<int>)
    requires IsUuidText(freshId)
    ensures statuses == [StatusCreated, StatusMethodNotAllowed, StatusMethodNotAllowed]
    ensures sizes == [1, 0, 0]
  {
    var data := map["title" := ["stuff"]];
    var svc1 := new Service();
    var s1 := svc1.Todo(Request("POST", FormUrlEncoded, true, data), freshId);
    var svc2 := new Service();
    var s2 := svc2.Todo(Request("PUT", FormUrlEncoded, true, data), freshId);
    var svc3 := new Service();
    var s3 := svc3.Todo(Request("PUT", FormUrlEncoded, true, data), freshId);
    statuses := [s1, s2, s3];
    sizes := [|svc1.todos|, |svc2.todos|, |svc3.todos|];
  }
}
