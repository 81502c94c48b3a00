/** `TodoAPIClient` (src/TodoClient.ts:59-406): a REST-like facade over one
    persisted document. Every operation reads a fresh copy of the document,
    works on that copy, and, when it mutates, writes the copy back; the write
    succeeds exactly when the caller-supplied `saveOk` says so. `now` is the
    clock reading used for every timestamp of the call. */
module TodoClient {
  import opened Wrappers
  import opened Text
  import opened Sequences
  import opened TodoTypes
  import opened Queries

  /** `Todo with ID ${id} not found`: the identifier can be read back from
      between the fixed prefix and suffix. */
  function NotFoundMessage(id: int): (m: string)
    ensures |m| > 23 && m[..13] == "Todo with ID " && m[|m| - 10..] == " not found"
    ensures IsIntText(m[13..|m| - 10]) && TextToInt(m[13..|m| - 10]) == id
  {
    var m := "Todo with ID " + IntToText(id) + " not found";
    assert m[13..|m| - 10] == IntToText(id);
    IntTextRoundTrip(id);
    m
  }

  class TodoAPIClient {
    /** The document stored under the client's storage key. */
    var todos: seq<Todo>
    var nextId: int
    var lastUpdated: nat

    /** Identifiers are unique and below the counter. The client never
        checks this of a stored document; its mutators preserve it. */
    ghost predicate Valid()
      reads this
    {
      WellFormed(todos, nextId)
    }

    /** `getStorageData`: a copy of the stored document, equal to it field by
        field and sharing nothing with it. */
    function Snapshot(): (d: StorageData)
      reads this
      ensures d.todos == todos && d.nextId == nextId && d.lastUpdated == lastUpdated
    {
      StorageData(todos, nextId, lastUpdated)
    }

    /** The constructor with `initializeStorage`: a document already stored is
        kept, a missing one is replaced by the empty default. */
    constructor (stored: Option<StorageData>, now: nat)
      ensures stored.Some? ==> Snapshot() == stored.value
      ensures stored.None? ==> todos == [] && nextId == 1 && lastUpdated == now && Valid()
    {
      if stored.Some? {
        todos, nextId, lastUpdated := stored.value.todos, stored.value.nextId, stored.value.lastUpdated;
      } else {
        todos, nextId, lastUpdated := [], 1, now;
      }
    }

    /** `saveStorageData`: stamps the copy with `now` and writes it; a failed
        write leaves the stored document as it was. */
    method SaveStorageData(data: StorageData, now: nat, saveOk: bool) returns (ok: bool)
      modifies this
      ensures ok == saveOk
      ensures ok ==> Snapshot() == data.(lastUpdated := now)
      ensures !ok ==> unchanged(this)
    {
      ok := saveOk;
      if ok {
        todos, nextId, lastUpdated := data.todos, data.nextId, now;
      }
    }

    /** GET /todos. */
    method GetAllTodos(now: nat) returns (r: APIResponse<seq<Todo>>)
      ensures Enveloped(r, now) && r.success
      ensures r.data == todos
      ensures r.message == "Retrieved " + NatToText(|todos|) + " todos"
    {
      var data := Snapshot();
      r := CreateAPIResponse(data.todos, true, "Retrieved " + NatToText(|data.todos|) + " todos", now);
    }

    /** GET /todos/:id: the first record with the identifier, or not-found. */
    method GetTodoById(id: int, now: nat) returns (r: APIResponse<Option<Todo>>)
      ensures Enveloped(r, now)
      ensures r.success <==> exists i :: 0 <= i < |todos| && todos[i].id == id
      ensures !r.success ==> r.data == None && r.message == NotFoundMessage(id)
      ensures r.success ==>
        r.data.Some? && r.data.value.id == id && r.data.value == todos[FirstIndex(todos, id)] &&
        r.message == "Todo retrieved successfully"
    {
      var data := Snapshot();
      var todo := Find(data.todos, id);
      if todo.None? {
        r := CreateAPIResponse(None, false, NotFoundMessage(id), now);
        return;
      }
      r := CreateAPIResponse(todo, true, "Todo retrieved successfully", now);
    }

    /** POST /todos. A blank title is rejected before the document is read;
        otherwise the record takes the counter's value as identifier and is
        appended, and the counter advances, in one write. */
    method CreateTodo(todoData: CreateTodoData, now: nat, saveOk: bool) returns (r: APIResponse<Option<Todo>>)
      modifies this
      ensures Enveloped(r, now)
      ensures r.success <==> !IsBlank(todoData.title) && saveOk
      ensures !r.success ==> r.data == None && unchanged(this)
      ensures IsBlank(todoData.title) ==> r.message == "Todo title is required"
      ensures !IsBlank(todoData.title) && !saveOk ==> r.message == "Failed to save todo"
      ensures r.success ==>
        todos == old(todos) + [NewTodo(todoData, old(nextId), now)] &&
        nextId == old(nextId) + 1 && lastUpdated == now &&
        r.data == Some(NewTodo(todoData, old(nextId), now)) &&
        r.message == "Todo created successfully"
      ensures r.success ==>
        var t := r.data.value;
        t.id == old(nextId) && t.title == Trim(todoData.title) && t.title != [] &&
        t.description == todoData.description.GetOr("") && !t.completed &&
        t.priority == todoData.priority.GetOr(Medium) && t.createdAt == now && t.updatedAt == now
      ensures r.success && old(Valid()) ==> Find(todos, old(nextId)) == r.data
      ensures old(Valid()) ==> Valid()
    {
      if IsBlank(todoData.title) {
        r := CreateAPIResponse(None, false, "Todo title is required", now);
        return;
      }
      var data := Snapshot();
      var newTodo := NewTodo(todoData, data.nextId, now);
      data := data.(nextId := data.nextId + 1);
      data := data.(todos := data.todos + [newTodo]);
      if old(Valid()) {
        AppendFresh(old(todos), old(nextId), newTodo);
      }
      var ok := SaveStorageData(data, now, saveOk);
      if ok {
        r := CreateAPIResponse(Some(newTodo), true, "Todo created successfully", now);
      } else {
        r := CreateAPIResponse(None, false, "Failed to save todo", now);
      }
    }

    /** PUT /todos/:id. The patch is merged over the first matching record,
        which is replaced in place; nothing else in the document changes. */
    method UpdateTodo(id: int, updateData: UpdateTodoData, now: nat, saveOk: bool)
      returns (r: APIResponse<Option<Todo>>)
      modifies this
      ensures Enveloped(r, now)
      ensures r.success <==> FirstIndex(old(todos), id) >= 0 && saveOk
      ensures !r.success ==> r.data == None && unchanged(this)
      ensures FirstIndex(old(todos), id) == -1 ==> r.message == NotFoundMessage(id)
      ensures FirstIndex(old(todos), id) >= 0 && !saveOk ==> r.message == "Failed to update todo"
      ensures r.success ==>
        var k := FirstIndex(old(todos), id);
        todos == old(todos)[k := Merge(old(todos)[k], updateData, now)] &&
        nextId == old(nextId) && lastUpdated == now &&
        r.data == Some(todos[k]) && r.message == "Todo updated successfully"
      ensures old(Valid()) ==> Valid()
    {
      var data := Snapshot();
      var todoIndex := FindIndex(data.todos, id);
      if todoIndex == -1 {
        r := CreateAPIResponse(None, false, NotFoundMessage(id), now);
        return;
      }
      var updatedTodo := Merge(data.todos[todoIndex], updateData, now);
      data := data.(todos := data.todos[todoIndex := updatedTodo]);
      if old(Valid()) {
        ReplaceKeepsIds(old(todos), old(nextId), todoIndex, updatedTodo);
      }
      var ok := SaveStorageData(data, now, saveOk);
      if ok {
        r := CreateAPIResponse(Some(updatedTodo), true, "Todo updated successfully", now);
      } else {
        r := CreateAPIResponse(None, false, "Failed to update todo", now);
      }
    }

    /** DELETE /todos/:id. The first matching record is spliced out and
        returned; the others keep their order and the counter is untouched. */
    method DeleteTodo(id: int, now: nat, saveOk: bool) returns (r: APIResponse<Option<Todo>>)
      modifies this
      ensures Enveloped(r, now)
      ensures r.success <==> FirstIndex(old(todos), id) >= 0 && saveOk
      ensures !r.success ==> r.data == None && unchanged(this)
      ensures FirstIndex(old(todos), id) == -1 ==> r.message == NotFoundMessage(id)
      ensures FirstIndex(old(todos), id) >= 0 && !saveOk ==> r.message == "Failed to delete todo"
      ensures r.success ==>
        var k := FirstIndex(old(todos), id);
        todos == old(todos)[..k] + old(todos)[k + 1..] && |todos| == |old(todos)| - 1 &&
        nextId == old(nextId) && lastUpdated == now &&
        r.data == Some(old(todos)[k]) && r.message == "Todo deleted successfully"
      ensures r.success && old(Valid()) ==> FirstIndex(todos, id) == -1
      ensures old(Valid()) ==> Valid()
    {
      var data := Snapshot();
      var todoIndex := FindIndex(data.todos, id);
      if todoIndex == -1 {
        r := CreateAPIResponse(None, false, NotFoundMessage(id), now);
        return;
      }
      var deletedTodo := data.todos[todoIndex];
      data := data.(todos := data.todos[..todoIndex] + data.todos[todoIndex + 1..]);
      if old(Valid()) {
        RemoveFound(old(todos), old(nextId), id);
      }
      var ok := SaveStorageData(data, now, saveOk);
      if ok {
        r := CreateAPIResponse(Some(deletedTodo), true, "Todo deleted successfully", now);
      } else {
        r := CreateAPIResponse(None, false, "Failed to delete todo", now);
      }
    }

    /** PATCH /todos/:id/toggle. The first matching record has its completion
        flag negated and `updatedAt` refreshed; the message names the new state. */
    method ToggleTodoCompletion(id: int, now: nat, saveOk: bool) returns (r: APIResponse<Option<Todo>>)
      modifies this
      ensures Enveloped(r, now)
      ensures r.success <==> FirstIndex(old(todos), id) >= 0 && saveOk
      ensures !r.success ==> r.data == None && unchanged(this)
      ensures FirstIndex(old(todos), id) == -1 ==> r.message == NotFoundMessage(id)
      ensures FirstIndex(old(todos), id) >= 0 && !saveOk ==> r.message == "Failed to update todo"
      ensures r.success ==>
        var k := FirstIndex(old(todos), id);
        todos == old(todos)[k := Toggled(old(todos)[k], now)] &&
        todos[k].completed == !old(todos)[k].completed &&
        nextId == old(nextId) && lastUpdated == now && r.data == Some(todos[k]) &&
        r.message == "Todo marked as " + (if todos[k].completed then "completed" else "incomplete")
      ensures old(Valid()) ==> Valid()
    {
      var data := Snapshot();
      var todoIndex := FindIndex(data.todos, id);
      if todoIndex == -1 {
        r := CreateAPIResponse(None, false, NotFoundMessage(id), now);
        return;
      }
      var updatedTodo := Toggled(data.todos[todoIndex], now);
      data := data.(todos := data.todos[todoIndex := updatedTodo]);
      if old(Valid()) {
        ReplaceKeepsIds(old(todos), old(nextId), todoIndex, updatedTodo);
      }
      var ok := SaveStorageData(data, now, saveOk);
      if ok {
        var state := if updatedTodo.completed then "completed" else "incomplete";
        r := CreateAPIResponse(Some(updatedTodo), true, "Todo marked as " + state, now);
      } else {
        r := CreateAPIResponse(None, false, "Failed to update todo", now);
      }
    }

    /** GET /todos/search?q=. A blank query is rejected with an empty list;
        otherwise the records whose lower-cased title or description contains
        the lower-cased, trimmed query, in storage order. */
    method SearchTodos(query: string, now: nat) returns (r: APIResponse<seq<Todo>>)
      ensures Enveloped(r, now)
      ensures r.success <==> !IsBlank(query)
      ensures !r.success ==> r.data == [] && r.message == "Search query is required"
      ensures r.success ==>
        r.data == Select(todos, Mentions(Trim(ToLower(query)))) && IsSubsequence(r.data, todos) &&
        r.message == "Found " + NatToText(|r.data|) + " todos matching \"" + query + "\""
      ensures r.success ==> forall i :: 0 <= i < |todos| ==>
        (todos[i] in r.data <==>
          Occurs(ToLower(todos[i].title), ToLower(Trim(query))) ||
          Occurs(ToLower(todos[i].description), ToLower(Trim(query))))
    {
      if IsBlank(query) {
        r := CreateAPIResponse([], false, "Search query is required", now);
        return;
      }
      var data := Snapshot();
      var searchTerm := Trim(ToLower(query));
      var results := Select(data.todos, Mentions(searchTerm));
      LowerTrimCommute(query);
      SelectIsSubsequence(data.todos, Mentions(searchTerm));
      SelectKeeps(data.todos, Mentions(searchTerm));
      r := CreateAPIResponse(results, true,
        "Found " + NatToText(|results|) + " todos matching \"" + query + "\"", now);
    }

    /** GET /todos/filter. Each supplied predicate narrows the list in turn,
        so the result is the records satisfying all of them, in storage order. */
    method FilterTodos(filters: TodoFilters, now: nat) returns (r: APIResponse<seq<Todo>>)
      ensures Enveloped(r, now) && r.success
      ensures r.data == Select(todos, Matcher(filters)) && IsSubsequence(r.data, todos)
      ensures forall i :: 0 <= i < |todos| ==> (todos[i] in r.data <==> Matches(filters, todos[i]))
      ensures r.message == "Filtered " + NatToText(|r.data|) + " todos"
    {
      var data := Snapshot();
      var filteredTodos := data.todos;
      // `applied` holds the predicates applied so far.
      ghost var applied := TodoFilters(None, None, None);
      SelectAll(data.todos, Matcher(applied));
      assert filteredTodos == Select(data.todos, Matcher(applied));

      if filters.status.Some? {
        NarrowByStatus(data.todos, applied, filters.status.value);
        filteredTodos := Select(filteredTodos, StatusIs(filters.status.value));
      }
      applied := applied.(status := filters.status);
      assert filteredTodos == Select(data.todos, Matcher(applied));

      if filters.priority.Some? {
        NarrowByPriority(data.todos, applied, filters.priority.value);
        filteredTodos := Select(filteredTodos, PriorityIs(filters.priority.value));
      }
      applied := applied.(priority := filters.priority);
      assert filteredTodos == Select(data.todos, Matcher(applied));

      if filters.createdAfter.Some? {
        NarrowByCreatedSince(data.todos, applied, filters.createdAfter.value);
        filteredTodos := Select(filteredTodos, CreatedSince(filters.createdAfter.value));
      }
      applied := applied.(createdAfter := filters.createdAfter);
      assert filteredTodos == Select(data.todos, Matcher(applied));

      assert applied == filters;
      SelectIsSubsequence(data.todos, Matcher(filters));
      SelectKeeps(data.todos, Matcher(filters));
      r := CreateAPIResponse(filteredTodos, true, "Filtered " + NatToText(|filteredTodos|) + " todos", now);
    }

    /** Reset: the empty list and the counter back at 1, in one write. */
    method ClearAllTodos(now: nat, saveOk: bool) returns (r: APIResponse<()>)
      modifies this
      ensures Enveloped(r, now) && r.success == saveOk
      ensures r.success ==>
        todos == [] && nextId == 1 && lastUpdated == now && Valid() &&
        StatsOf(Snapshot()) == StorageStats(0, 0, 0, 1, now) &&
        r.message == "All todos cleared successfully"
      ensures !r.success ==> unchanged(this) && r.message == "Failed to clear todos"
    {
      var data := Snapshot();
      data := data.(todos := []);
      data := data.(nextId := 1);
      var ok := SaveStorageData(data, now, saveOk);
      if ok {
        r := CreateAPIResponse((), true, "All todos cleared successfully", now);
      } else {
        r := CreateAPIResponse((), false, "Failed to clear todos", now);
      }
    }

    /** Storage statistics of the stored document. */
    method GetStorageStats(now: nat) returns (r: APIResponse<StorageStats>)
      ensures Enveloped(r, now) && r.success
      ensures r.data == StatsOf(Snapshot())
      ensures r.data.completedTodos == |Select(todos, StatusIs(true))|
      ensures r.data.incompleteTodos == |Select(todos, StatusIs(false))|
      ensures r.message == "Storage statistics retrieved"
    {
      var data := Snapshot();
      var stats := StatsOf(data);
      r := CreateAPIResponse(stats, true, "Storage statistics retrieved", now);
    }
  }
}
