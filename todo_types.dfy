/** The records the client stores and exchanges (src/TodoClient.ts:7-57),
    the response envelope, and the record-level transformations of create,
    update and toggle. Timestamps are opaque numbers supplied by the caller. */
module TodoTypes {
  import opened Wrappers
  import opened Text

  datatype Priority = Low | Medium | High

  datatype Todo = Todo(
    id: int,
    title: string,
    description: string,
    completed: bool,
    priority: Priority,
    createdAt: nat,
    updatedAt: nat)

  /** The body of a create request: a title and two optional fields. */
  datatype CreateTodoData = CreateTodoData(
    title: string,
    description: Option<string>,
    priority: Option<Priority>)

  /** The body of an update request: any subset of the four editable fields. */
  datatype UpdateTodoData = UpdateTodoData(
    title: Option<string>,
    description: Option<string>,
    completed: Option<bool>,
    priority: Option<Priority>)

  /** Independently optional filter predicates. */
  datatype TodoFilters = TodoFilters(
    status: Option<bool>,
    priority: Option<Priority>,
    createdAfter: Option<nat>)

  /** The persisted document. */
  datatype StorageData = StorageData(todos: seq<Todo>, nextId: int, lastUpdated: nat)

  datatype APIResponse<T> = APIResponse(
    success: bool,
    data: T,
    message: string,
    timestamp: nat,
    status: int)

  /** Storage statistics; the serialised size is not part of this model. */
  datatype StorageStats = StorageStats(
    totalTodos: nat,
    completedTodos: nat,
    incompleteTodos: nat,
    nextId: int,
    lastUpdated: nat)

  const StatusOk := 200
  const StatusBadRequest := 400

  /** The envelope shape every response of the client has: stamped with
      `now`, and the status code tells success from failure and nothing else. */
  predicate Enveloped<T>(r: APIResponse<T>, now: nat) {
    r.timestamp == now && (r.status == StatusOk <==> r.success) && (r.status == StatusBadRequest <==> !r.success)
  }

  /** The envelope builder: payload, flag and message pass through unchanged. */
  function CreateAPIResponse<T>(data: T, success: bool, message: string, now: nat): (r: APIResponse<T>)
    ensures Enveloped(r, now)
    ensures r.success == success && r.data == data && r.message == message
  {
    APIResponse(success, data, message, now, if success then StatusOk else StatusBadRequest)
  }

  /** The record `createTodo` builds for identifier `id`: a fresh, incomplete
      record with the trimmed title, the defaults for absent fields, and both
      stamps at `now`. */
  function NewTodo(data: CreateTodoData, id: int, now: nat): (t: Todo)
    ensures t.id == id && t.title == Trim(data.title) && !t.completed
    ensures !IsBlank(data.title) ==> t.title != [] && !IsSpace(t.title[0]) && !IsSpace(t.title[|t.title| - 1])
    ensures t.description == (if data.description.Some? then data.description.value else "")
    ensures t.priority == (if data.priority.Some? then data.priority.value else Medium)
    ensures t.createdAt == now && t.updatedAt == now
  {
    Todo(id, Trim(data.title), data.description.GetOr(""), false, data.priority.GetOr(Medium), now, now)
  }

  /** `{...t, ...patch, updatedAt: now}`. */
  function Merge(t: Todo, patch: UpdateTodoData, now: nat): (r: Todo)
    ensures r.id == t.id && r.createdAt == t.createdAt && r.updatedAt == now
    ensures r.title == (if patch.title.Some? then patch.title.value else t.title)
    ensures r.description == (if patch.description.Some? then patch.description.value else t.description)
    ensures r.completed == (if patch.completed.Some? then patch.completed.value else t.completed)
    ensures r.priority == (if patch.priority.Some? then patch.priority.value else t.priority)
  {
    t.(title := patch.title.GetOr(t.title),
       description := patch.description.GetOr(t.description),
       completed := patch.completed.GetOr(t.completed),
       priority := patch.priority.GetOr(t.priority),
       updatedAt := now)
  }

  /** The patch that applies `p` and then `q`: `q`'s fields win. */
  function ComposePatches(p: UpdateTodoData, q: UpdateTodoData): UpdateTodoData {
    UpdateTodoData(
      if q.title.Some? then q.title else p.title,
      if q.description.Some? then q.description else p.description,
      if q.completed.Some? then q.completed else p.completed,
      if q.priority.Some? then q.priority else p.priority)
  }

  const EmptyPatch := UpdateTodoData(None, None, None, None)

  /** An empty patch only refreshes `updatedAt`. */
  lemma MergeEmpty(t: Todo, now: nat)
    ensures Merge(t, EmptyPatch, now) == t.(updatedAt := now)
  {
  }

  /** Two successive updates equal one update with the composed patch. */
  lemma MergeCompose(t: Todo, p: UpdateTodoData, q: UpdateTodoData, n1: nat, n2: nat)
    ensures Merge(Merge(t, p, n1), q, n2) == Merge(t, ComposePatches(p, q), n2)
  {
  }

  /** Applying the same patch twice is applying it once. */
  lemma MergeIdempotent(t: Todo, p: UpdateTodoData, n1: nat, n2: nat)
    ensures Merge(Merge(t, p, n1), p, n2) == Merge(t, p, n2)
  {
  }

  /** `{...t, completed: !t.completed, updatedAt: now}`. */
  function Toggled(t: Todo, now: nat): (r: Todo)
    ensures r.completed != t.completed
    ensures r.(completed := t.completed, updatedAt := t.updatedAt) == t
    ensures r.updatedAt == now
  {
    t.(completed := !t.completed, updatedAt := now)
  }

  /** Toggling twice restores the completion flag and everything else but `updatedAt`. */
  lemma ToggleTwice(t: Todo, n1: nat, n2: nat)
    ensures Toggled(Toggled(t, n1), n2) == t.(updatedAt := n2)
  {
  }
}
