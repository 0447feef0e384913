/** The handlers of go/service.go over the `service` struct. Only the `todos` slice of the
    struct is modelled; the address, the mux and the template are plumbing, and the
    template output is not modelled. */
module GoService {
  import opened Todos
  import opened GoHttp

  /** `service`: the slice of todos the handlers share. */
  class Service {
    var todos: seq<Todo>

    /** Every stored id is the text of the UUID the create handler generated. */
    predicate Valid()
      reads this
    {
      UuidIds(todos)
    }

    /** `Service(addr)`: an empty slice of todos. */
    constructor ()
      ensures Valid() && todos == []
    {
      todos := [];
    }

    /** `create`: the guard chain, then one appended not-done record with the untrimmed
        title and the generated id, answered with 201. A rejected request changes nothing. */
    method Create(req: Request, freshId: string) returns (status: int)
      requires Valid() && IsUuidText(freshId)
      modifies this
      ensures Valid()
      ensures status == CreateStatus(req)
      ensures todos == if status == StatusCreated then old(todos) + [NewTodo(freshId, Title(req))]
                       else old(todos)
    {
      CreateDecisionTable(req);
      if req.verb != MethodPost {
        return StatusMethodNotAllowed;
      }
      if req.contentType != FormUrlEncoded {
        return StatusUnsupportedMediaType;
      }
      if !req.formOk {
        return StatusBadRequest;
      }
      var title := FormValue(req.form, "title");
      if |TrimSpace(title)| < 1 {
        return StatusBadRequest;
      }
      todos := todos + [Todo(freshId, title, false)];
      return StatusCreated;
    }

    /** `update`: the guard chain, then every record whose id text equals the `id` field
        gets `done == "on"`; the answer is 200 whether or not any record matched. */
    method Update(req: Request) returns (status: int)
      requires Valid()
      modifies this
      ensures Valid()
      ensures status == UpdateStatus(req)
      ensures todos == if status == StatusOK
                       then MarkDone(old(todos), FormValue(req.form, "id"), FormValue(req.form, "done") == "on")
                       else old(todos)
    {
      UpdateDecisionTable(req);
      if req.verb != MethodPost {
        return StatusMethodNotAllowed;
      }
      if req.contentType != FormUrlEncoded {
        return StatusUnsupportedMediaType;
      }
      if !req.formOk {
        return StatusBadRequest;
      }
      var done := FormValue(req.form, "done");
      var id := FormValue(req.form, "id");
      var i := 0;
      while i < |todos|
        invariant 0 <= i <= |todos| == |old(todos)|
        invariant forall k :: 0 <= k < i ==> todos[k] == Mark(old(todos)[k], id, done == "on")
        invariant forall k :: i <= k < |todos| ==> todos[k] == old(todos)[k]
      {
        if todos[i].id == id {
          if done == "on" {
            todos := todos[i := todos[i].(done := true)];
          } else {
            todos := todos[i := todos[i].(done := false)];
          }
        }
        i := i + 1;
      }
      MarkDoneFromPointwise(old(todos), todos, id, done == "on");
      return StatusOK;
    }
  }

  /** One `TestServiceCreate` case: a fresh service, one create request. */
  method RunCreate(req: Request, freshId: string) returns (status: int, stored: seq<Todo>)
    requires IsUuidText(freshId)
    ensures status == CreateStatus(req)
    ensures stored == if status == StatusCreated then [NewTodo(freshId, Title(req))] else []
  {
    var svc := new Service();
    status := svc.Create(req, freshId);
    stored := svc.todos;
  }

  /** One `TestServiceUpdate` case: a service holding one not-done todo, one update request. */
  method RunUpdate(req: Request, id: string) returns (status: int, stored: seq<Todo>)
    requires IsUuidText(id)
    ensures status == UpdateStatus(req)
    ensures |stored| == 1 && stored[0].id == id && stored[0].title == "stuff"
    ensures stored[0].done <==> status == StatusOK && FormValue(req.form, "id") == id &&
                                FormValue(req.form, "done") == "on"
  {
    var svc := new Service();
    svc.todos := [Todo(id, "stuff", false)];
    status := svc.Update(req);
    stored := svc.todos;
    MarkDoneAt([Todo(id, "stuff", false)], FormValue(req.form, "id"), FormValue(req.form, "done") == "on", 0);
  }

  /** The statuses of the four `TestServiceCreate` requests. */
  lemma CreateTestStatuses(freshId: string)
    ensures CreateStatus(Request("POST", FormUrlEncoded, true, map["title" := ["stuff"]])) == StatusCreated
    ensures CreateStatus(Request("PUT", FormUrlEncoded, true, map["title" := ["stuff"]])) == StatusMethodNotAllowed
    ensures CreateStatus(Request("POST", "application/json", true, map["title" := ["stuff"]])) == StatusUnsupportedMediaType
    ensures CreateStatus(Request("POST", FormUrlEncoded, true, map[])) == StatusBadRequest
  {
    var accepted := Request("POST", FormUrlEncoded, true, map["title" := ["stuff"]]);
    var untitled := Request("POST", FormUrlEncoded, true, map[]);
    assert TrimLeft("stuff") == "stuff" && TrimRight("stuff") == "stuff";
    assert Title(accepted) == "stuff";
    assert Title(untitled) == "";
    CreateDecisionTable(accepted);
    CreateDecisionTable(untitled);
    CreateDecisionTable(Request("PUT", FormUrlEncoded, true, map["title" := ["stuff"]]));
    CreateDecisionTable(Request("POST", "application/json", true, map["title" := ["stuff"]]));
  }

  /** The four cases of `TestServiceCreate`: accepted, wrong method, wrong content type,
      missing title. Only the accepted one stores a record. */
  method ServiceCreateCases(freshId: string) returns (statuses: seq<int>, sizes: seq<int>)
    requires IsUuidText(freshId)
    ensures statuses == [StatusCreated, StatusMethodNotAllowed, StatusUnsupportedMediaType, StatusBadRequest]
    ensures sizes == [1, 0, 0, 0]
  {
    var data := map["title" := ["stuff"]];
    var accepted := Request("POST", FormUrlEncoded, true, data);
    var untitled := Request("POST", FormUrlEncoded, true, map[]);
    CreateTestStatuses(freshId);
    var s1, t1 := RunCreate(accepted, freshId);
    assert s1 == StatusCreated && |t1| == 1;
    var s2, t2 := RunCreate(Request("PUT", FormUrlEncoded, true, data), freshId);
    assert s2 == StatusMethodNotAllowed && |t2| == 0;
    var s3, t3 := RunCreate(Request("POST", "application/json", true, data), freshId);
    assert s3 == StatusUnsupportedMediaType && |t3| == 0;
    var s4, t4 := RunCreate(untitled, freshId);
    assert s4 == StatusBadRequest && |t4| == 0;
    statuses := [s1, s2, s3, s4];
    sizes := [|t1|, |t2|, |t3|, |t4|];
  }

  /** The four cases of `TestServiceUpdate` against a stored todo with id `id`: checked,
      wrong method without headers, wrong content type, and no `done` field (200, not done). */
  method ServiceUpdateCases(id: string) returns (statuses: seq<int>, dones: seq<bool>)
    requires IsUuidText(id)
    ensures statuses == [StatusOK, StatusMethodNotAllowed, StatusUnsupportedMediaType, StatusOK]
    ensures dones == [true, false, false, false]
  {
    var s1, t1 := RunUpdate(Request("POST", FormUrlEncoded, true,
                                    map["title" := ["more stuff"], "id" := [id], "done" := ["on"]]), id);
    var s2, t2 := RunUpdate(Request("PUT", "", true, map[]), id);
    var s3, t3 := RunUpdate(Request("POST", "application/json", true, map[]), id);
    var s4, t4 := RunUpdate(Request("POST", FormUrlEncoded, true,
                                    map["title" := ["more stuff"], "id" := [id]]), id);
    statuses := [s1, s2, s3, s4];
    dones := [t1[0].done, t2[0].done, t3[0].done, t4[0].done];
  }
}
