/** The axum handlers of rust/src/main.rs, the earlier single-file version of the Rust
    service. Same store logic as rust/src/service.rs; its update writes the flag with an
    explicit if/else. Locking and rendering are not modelled. */
module RustMain {
  import opened Todos

  /** `AppState`: the vector of todos behind the lock. */
  class AppState {
    var todos: seq<Todo>

    /** `SharedState::default()`: no todos. */
    constructor ()
      ensures todos == []
    {
      todos := [];
    }

    /** The `create` handler: push a not-done record with the submitted title. */
    method Create(title: string, freshId: string) returns (listed: seq<Todo>)
      modifies this
      ensures todos == old(todos) + [NewTodo(freshId, title)]
      ensures listed == todos
    {
      var todo := Todo(freshId, title, false);
      todos := todos + [todo];
      listed := todos;
    }

    /** The `update` handler: matching records become done exactly when the field is "on". */
    method Update(id: string, done: Option<string>) returns (listed: seq<Todo>)
      modifies this
      ensures todos == MarkDone(old(todos), id, DoneFlag(done))
      ensures listed == todos
    {
      var text := match done
        case Some(v) => v
        case None => "";
      for i := 0 to |todos|
        invariant |todos| == |old(todos)|
        invariant forall k :: 0 <= k < i ==> todos[k] == Mark(old(todos)[k], id, DoneFlag(done))
        invariant forall k :: i <= k < |todos| ==> todos[k] == old(todos)[k]
      {
        if todos[i].id == id {
          if text == "on" {
            todos := todos[i := todos[i].(done := true)];
          } else {
            todos := todos[i := todos[i].(done := false)];
          }
        }
      }
      MarkDoneFromPointwise(old(todos), todos, id, DoneFlag(done));
      listed := todos;
    }
  }

  /** Create then update with the same id, from any starting list: the new record is last,
      earlier records are unchanged unless they share the id, and the flag follows "on". */
  method CreateThenUpdate(start: seq<Todo>, title: string, freshId: string, done: Option<string>)
    returns (listed: seq<Todo>)
    ensures |listed| == |start| + 1
    ensures listed[|start|] == Todo(freshId, title, done == Some("on"))
    ensures forall k :: 0 <= k < |start| && start[k].id != freshId ==> listed[k] == start[k]
  {
    var state := new AppState();
    state.todos := start;
    var _ := state.Create(title, freshId);
    listed := state.Update(freshId, done);
    MarkDoneAt(start + [NewTodo(freshId, title)], freshId, DoneFlag(done), |start|);
    forall k | 0 <= k < |start| && start[k].id != freshId
      ensures listed[k] == start[k]
    {
      MarkDoneAt(start + [NewTodo(freshId, title)], freshId, DoneFlag(done), k);
    }
  }
}
