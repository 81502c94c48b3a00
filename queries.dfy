/** Lookup by identifier, the query predicates, and the document invariant
    the client's mutators keep. */
module Queries {
  import opened Wrappers
  import opened Text
  import opened Sequences
  import opened TodoTypes

  /** `todos.findIndex(t => t.id === id)`: -1 when no record has the id,
      otherwise the position of the first one that does. */
  function FirstIndex(todos: seq<Todo>, id: int): (r: int)
    ensures -1 <= r < |todos|
    ensures r == -1 <==> forall i :: 0 <= i < |todos| ==> todos[i].id != id
    ensures r >= 0 ==> todos[r].id == id && forall i :: 0 <= i < r ==> todos[i].id != id
  {
    if todos == [] then -1
    else if todos[0].id == id then 0
    else
      var k := FirstIndex(todos[1..], id);
      if k == -1 then -1 else k + 1
  }

  /** The linear scan behind `findIndex`. */
  method FindIndex(todos: seq<Todo>, id: int) returns (index: int)
    ensures index == FirstIndex(todos, id)
  {
    index := 0;
    while index < |todos|
      invariant 0 <= index <= |todos|
      invariant forall i :: 0 <= i < index ==> todos[i].id != id
    {
      if todos[index].id == id {
        return;
      }
      index := index + 1;
    }
    index := -1;
  }

  /** `todos.find(t => t.id === id)`: it picks the very record `findIndex` points at. */
  function Find(todos: seq<Todo>, id: int): (r: Option<Todo>)
    ensures FirstIndex(todos, id) == -1 ==> r == None
    ensures FirstIndex(todos, id) >= 0 ==> r == Some(todos[FirstIndex(todos, id)])
  {
    if todos == [] then None
    else if todos[0].id == id then Some(todos[0])
    else Find(todos[1..], id)
  }

  /** The document invariant: identifiers are unique and below the counter. */
  ghost predicate WellFormed(todos: seq<Todo>, nextId: int) {
    (forall i :: 0 <= i < |todos| ==> todos[i].id < nextId) &&
    (forall i, j :: 0 <= i < j < |todos| ==> todos[i].id != todos[j].id)
  }

  /** A record appended with the counter's value as identifier is found by
      that identifier, and the document stays well formed with the counter
      advanced (create, then get by id, returns the created record). */
  lemma AppendFresh(todos: seq<Todo>, nextId: int, t: Todo)
    requires WellFormed(todos, nextId) && t.id == nextId
    ensures WellFormed(todos + [t], nextId + 1)
    ensures FirstIndex(todos + [t], t.id) == |todos|
    ensures Find(todos + [t], t.id) == Some(t)
  {
    var s := todos + [t];
    assert forall i :: 0 <= i < |todos| ==> s[i] == todos[i];
    assert s[|todos|] == t;
  }

  /** In a well-formed document, removing the record an identifier points at
      leaves no record with that identifier (delete is terminal). */
  lemma RemoveFound(todos: seq<Todo>, nextId: int, id: int)
    requires WellFormed(todos, nextId) && FirstIndex(todos, id) >= 0
    ensures var k := FirstIndex(todos, id);
      WellFormed(todos[..k] + todos[k + 1..], nextId) &&
      FirstIndex(todos[..k] + todos[k + 1..], id) == -1
  {
    var k := FirstIndex(todos, id);
    var rest := todos[..k] + todos[k + 1..];
    forall i | 0 <= i < |rest| ensures rest[i].id != id {
      if i < k {
        assert rest[i] == todos[i];
      } else {
        assert rest[i] == todos[i + 1];
      }
    }
  }

  /** Replacing a record by one with the same identifier keeps the document well formed. */
  lemma ReplaceKeepsIds(todos: seq<Todo>, nextId: int, k: int, t: Todo)
    requires WellFormed(todos, nextId) && 0 <= k < |todos| && t.id == todos[k].id
    ensures WellFormed(todos[k := t], nextId)
  {
  }

  /** A record satisfies every predicate the filters supply; the empty
      filter set is satisfied by every record. */
  predicate Matches(f: TodoFilters, t: Todo)
    ensures f == TodoFilters(None, None, None) ==> Matches(f, t)
  {
    (f.status.Some? ==> t.completed == f.status.value) &&
    (f.priority.Some? ==> t.priority == f.priority.value) &&
    (f.createdAfter.Some? ==> t.createdAt >= f.createdAfter.value)
  }

  /** A filter set is the conjunction of its single-predicate parts. */
  lemma MatchesConjunction(f: TodoFilters, t: Todo)
    ensures Matches(f, t) <==>
      Matches(TodoFilters(f.status, None, None), t) &&
      Matches(TodoFilters(None, f.priority, None), t) &&
      Matches(TodoFilters(None, None, f.createdAfter), t)
  {
  }

  function Matcher(f: TodoFilters): Todo -> bool {
    (t: Todo) => Matches(f, t)
  }

  /** `todo.completed === filters.status`: the filter set with only `status` supplied. */
  function StatusIs(b: bool): (p: Todo -> bool)
    ensures forall t :: p(t) <==> Matches(TodoFilters(Some(b), None, None), t)
  {
    (t: Todo) => t.completed == b
  }

  /** `todo.priority === filters.priority`: the filter set with only `priority` supplied. */
  function PriorityIs(q: Priority): (p: Todo -> bool)
    ensures forall t :: p(t) <==> Matches(TodoFilters(None, Some(q), None), t)
  {
    (t: Todo) => t.priority == q
  }

  /** `new Date(todo.createdAt) >= date`: the filter set with only `createdAfter` supplied. */
  function CreatedSince(d: nat): (p: Todo -> bool)
    ensures forall t :: p(t) <==> Matches(TodoFilters(None, None, Some(d)), t)
  {
    (t: Todo) => t.createdAt >= d
  }

  /** Narrowing by status once the other predicates are applied. */
  lemma NarrowByStatus(s: seq<Todo>, f: TodoFilters, b: bool)
    requires f.status.None?
    ensures Select(Select(s, Matcher(f)), StatusIs(b)) == Select(s, Matcher(f.(status := Some(b))))
  {
    SelectSelect(s, Matcher(f), StatusIs(b), Matcher(f.(status := Some(b))));
  }

  /** Narrowing by priority once the other predicates are applied. */
  lemma NarrowByPriority(s: seq<Todo>, f: TodoFilters, p: Priority)
    requires f.priority.None?
    ensures Select(Select(s, Matcher(f)), PriorityIs(p)) == Select(s, Matcher(f.(priority := Some(p))))
  {
    SelectSelect(s, Matcher(f), PriorityIs(p), Matcher(f.(priority := Some(p))));
  }

  /** Narrowing by creation time once the other predicates are applied. */
  lemma NarrowByCreatedSince(s: seq<Todo>, f: TodoFilters, d: nat)
    requires f.createdAfter.None?
    ensures Select(Select(s, Matcher(f)), CreatedSince(d)) == Select(s, Matcher(f.(createdAfter := Some(d))))
  {
    SelectSelect(s, Matcher(f), CreatedSince(d), Matcher(f.(createdAfter := Some(d))));
  }

  /** The search predicate: the lower-cased title or description contains
      `term` as a substring. */
  function Mentions(term: string): (p: Todo -> bool)
    ensures forall t :: p(t) <==> Occurs(ToLower(t.title), term) || Occurs(ToLower(t.description), term)
  {
    (t: Todo) => Includes(ToLower(t.title), term) || Includes(ToLower(t.description), term)
  }

  /** The counts `getStorageStats` reports: completed and incomplete records
      partition the list, and the counter and stamp are reported as stored. */
  function StatsOf(d: StorageData): (s: StorageStats)
    ensures s.totalTodos == |d.todos|
    ensures s.completedTodos + s.incompleteTodos == s.totalTodos
    ensures s.nextId == d.nextId && s.lastUpdated == d.lastUpdated
  {
    SelectPartition(d.todos, StatusIs(true), StatusIs(false));
    StorageStats(
      |d.todos|,
      |Select(d.todos, StatusIs(true))|,
      |Select(d.todos, StatusIs(false))|,
      d.nextId,
      d.lastUpdated)
  }
}
