/** The todo record and the store semantics that every version of the handlers shares:
    create appends a record, update rewrites the `done` flag of every record with a given id. */
module Todos {

  datatype Option<T> = None | Some(value: T)

  /** One todo item. In the Go versions `id` is the text form of the record's UUID,
      which is what the update handler compares against. */
  datatype Todo = Todo(id: string, title: string, done: bool)

  /** The text of an optional form field, an absent field read as the empty string. */
  function FieldText(field: Option<string>): string
  {
    match field
    case Some(v) => v
    case None => ""
  }

  /** Checkbox semantics of the `done` field. */
  function DoneFlag(field: Option<string>): (b: bool)
    ensures b <==> field == Some("on")
  {
    FieldText(field) == "on"
  }

  /** What one step of the update loop does to one record. */
  function Mark(t: Todo, id: string, done: bool): (u: Todo)
    ensures u.id == t.id && u.title == t.title
    ensures u.done == if t.id == id then done else t.done
  {
    if t.id == id then t.(done := done) else t
  }

  /** Reference definition of update: every record whose id matches gets `done`. */
  function MarkDone(s: seq<Todo>, id: string, done: bool): (r: seq<Todo>)
    ensures |r| == |s|
  {
    if s == [] then [] else [Mark(s[0], id, done)] + MarkDone(s[1..], id, done)
  }

  /** Update acts record by record: a matching record gets the new flag (all of them,
      not only the first), every other record is left as it was. */
  lemma {:induction false} MarkDoneAt(s: seq<Todo>, id: string, done: bool, k: nat)
    requires k < |s|
    ensures MarkDone(s, id, done)[k] == if s[k].id == id then s[k].(done := done) else s[k]
  {
    if k > 0 {
      MarkDoneAt(s[1..], id, done, k - 1);
    }
  }

  /** Any sequence that agrees with the update record by record is the update. */
  lemma MarkDoneFromPointwise(s: seq<Todo>, r: seq<Todo>, id: string, done: bool)
    requires |r| == |s|
    requires forall k :: 0 <= k < |s| ==> r[k] == Mark(s[k], id, done)
    ensures r == MarkDone(s, id, done)
  {
    forall k | 0 <= k < |s|
      ensures r[k] == MarkDone(s, id, done)[k]
    {
      MarkDoneAt(s, id, done, k);
    }
  }

  /** An id that matches no record leaves the store as it was. */
  lemma {:induction false} MarkDoneUnknownId(s: seq<Todo>, id: string, done: bool)
    requires forall k :: 0 <= k < |s| ==> s[k].id != id
    ensures MarkDone(s, id, done) == s
  {
    if s != [] {
      MarkDoneUnknownId(s[1..], id, done);
      assert s == [s[0]] + s[1..];
    }
  }

  /** Two updates of the same id: the second one decides the flag (last writer wins). */
  lemma {:induction false} MarkDoneLastWins(s: seq<Todo>, id: string, first: bool, second: bool)
    ensures MarkDone(MarkDone(s, id, first), id, second) == MarkDone(s, id, second)
  {
    if s != [] {
      var r := MarkDone(s, id, first);
      assert r[1..] == MarkDone(s[1..], id, first);
      MarkDoneLastWins(s[1..], id, first, second);
    }
  }

  /** Repeating an update with the same id and flag changes nothing more. */
  lemma {:induction false} MarkDoneIdempotent(s: seq<Todo>, id: string, done: bool)
    ensures MarkDone(MarkDone(s, id, done), id, done) == MarkDone(s, id, done)
  {
    MarkDoneLastWins(s, id, done, done);
  }

  /** The record that create appends. */
  function NewTodo(id: string, title: string): (t: Todo)
    ensures t.id == id && t.title == title && !t.done
  {
    Todo(id, title, false)
  }

  /** A store operation as a handler performs it; ids come from outside. */
  datatype Op = Create(title: string, freshId: string) | Update(id: string, done: bool)

  function Apply(s: seq<Todo>, op: Op): seq<Todo>
  {
    match op
    case Create(title, freshId) => s + [NewTodo(freshId, title)]
    case Update(id, done) => MarkDone(s, id, done)
  }

  function Replay(s: seq<Todo>, ops: seq<Op>): seq<Todo>
    decreases |ops|
  {
    if ops == [] then s else Replay(Apply(s, ops[0]), ops[1..])
  }

  /** The (id, title) pairs of a store, in store order. */
  function Entries(s: seq<Todo>): (e: seq<(string, string)>)
    ensures |e| == |s|
  {
    seq(|s|, i requires 0 <= i < |s| => (s[i].id, s[i].title))
  }

  /** The (id, title) pairs that the create operations of `ops` add, in call order. */
  function Created(ops: seq<Op>): seq<(string, string)>
    decreases |ops|
  {
    if ops == [] then []
    else (match ops[0]
          case Create(title, freshId) => [(freshId, title)]
          case Update(_, _) => []) + Created(ops[1..])
  }

  lemma EntriesOfMarkDone(s: seq<Todo>, id: string, done: bool)
    ensures Entries(MarkDone(s, id, done)) == Entries(s)
  {
    forall k | 0 <= k < |s|
      ensures Entries(MarkDone(s, id, done))[k] == Entries(s)[k]
    {
      MarkDoneAt(s, id, done, k);
    }
  }

  /** Over any run of creates and updates, the store holds the records it held before,
      followed by one record per create, in call order: updates never add, drop, reorder,
      re-identify or rename a record, so the count is the number of creates. */
  lemma {:induction false} ReplayKeepsCreationOrder(s: seq<Todo>, ops: seq<Op>)
    ensures Entries(Replay(s, ops)) == Entries(s) + Created(ops)
    ensures |Replay(s, ops)| == |s| + |Created(ops)|
    decreases |ops|
  {
    if ops != [] {
      var next := Apply(s, ops[0]);
      match ops[0] {
        case Create(title, freshId) =>
          assert Entries(next) == Entries(s) + [(freshId, title)];
        case Update(id, done) =>
          EntriesOfMarkDone(s, id, done);
      }
      ReplayKeepsCreationOrder(next, ops[1..]);
      assert Created(ops) == Created([ops[0]]) + Created(ops[1..]);
    }
  }
}
