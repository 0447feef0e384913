/** The axum handlers of rust/src/service.rs over the shared `AppState`. Locking, form
    extraction and template rendering are not modelled; a handler's rendered output is
    represented by the list it renders. */
module RustService {
  import opened Todos

  /** `AppState`: the vector of todos behind the lock. */
  class AppState {
    var todos: seq<Todo>

    /** `SharedState::default()`: no todos. */
    constructor ()
      ensures todos == []
    {
      todos := [];
    }

    /** The `todos` handler: a copy of the list, in store order. */
    method List() returns (listed: seq<Todo>)
      ensures listed == todos
    {
      listed := todos;
    }

    /** The `create` handler: push a not-done record with the submitted title, verbatim,
        and the id the caller generated. */
    method Create(title: string, freshId: string) returns (listed: seq<Todo>)
      modifies this
      ensures todos == old(todos) + [NewTodo(freshId, title)]
      ensures listed == todos
    {
      var todo := Todo(freshId, title, false);
      todos := todos + [todo];
      listed := todos;
    }

    /** The `update` handler: every record with a matching id gets `done == "on"`,
        an absent `done` field standing for "". */
    method Update(id: string, done: Option<string>) returns (listed: seq<Todo>)
      modifies this
      ensures todos == MarkDone(old(todos), id, DoneFlag(done))
      ensures listed == todos
    {
      var text := match done
        case Some(v) => v
        case None => "";
      for i := 0 to |todos|
        invariant |todos| == |old(todos)|
        invariant forall k :: 0 <= k < i ==> todos[k] == Mark(old(todos)[k], id, DoneFlag(done))
        invariant forall k :: i <= k < |todos| ==> todos[k] == old(todos)[k]
      {
        if todos[i].id == id {
          todos := todos[i := todos[i].(done := text == "on")];
        }
      }
      MarkDoneFromPointwise(old(todos), todos, id, DoneFlag(done));
      listed := todos;
    }
  }

  /** The flow of `test_create_ok`: create on a fresh state, list, then check the box
      of the first listed record. */
  method CreateListUpdate(title: string, freshId: string) returns (afterCreate: seq<Todo>, afterUpdate: seq<Todo>)
    requires |freshId| > 0
    ensures |afterCreate| == 1 && |afterCreate[0].id| > 0
    ensures afterCreate[0] == Todo(freshId, title, false)
    ensures afterUpdate == [Todo(freshId, title, true)]
  {
    var state := new AppState();
    var _ := state.Create(title, freshId);
    afterCreate := state.List();
    var first := afterCreate[0];
    var _ := state.Update(first.id, Some("on"));
    afterUpdate := state.List();
  }
}
