# Todo API client: a verified model

This project models `TodoAPIClient`, the in-browser "fake REST" record store of a
task-list application (src/TodoClient.ts). The client keeps a single persisted
document: an ordered list of `Todo` records, the identifier counter `nextId` and
the stamp `lastUpdated`. Each public operation reads a fresh copy of that
document, works on the copy, and, when it mutates, writes the whole copy back.
Every result is wrapped in a response envelope whose `status` is 200 on success
and 400 on failure.

Layout:

- `wrappers.dfy`: `Option`, used for the optional request fields and for the `Todo | null` payloads.
- `text.dfy`: `trim`, `toLowerCase`, `includes` and the decimal rendering of numbers in messages.
  Whitespace and case are ASCII only.
- `sequences.dfy`: `Select`, which is `Array.prototype.filter`, with order preservation,
  composition of chained filters and the count partition.
- `todo_types.dfy`: the record types, the envelope builder, and the record-level effects of
  create, update (the `{...t, ...patch}` merge) and toggle.
- `queries.dfy`: `findIndex`/`find` by identifier, the document invariant (identifiers unique
  and below `nextId`), the filter and search predicates, and the statistics.
- `todo_client.dfy`: the class `TodoAPIClient`. Its fields are the stored document. Its
  methods are the public operations.

How the effects of the environment are represented:

- The outcome of the `localStorage` write is the parameter `saveOk`. A failed write leaves the
  fields unchanged, and the operation answers `success = false` with `data = None`.
- Every reading of the clock is the parameter `now`. It is used for `createdAt`, `updatedAt`,
  the `lastUpdated` stamp and the envelope timestamp.
- Each call re-reads the stored document, so a failed create does not consume an identifier.
  The increment of the counter was made on the discarded copy.
- `clearAllTodos` resets `nextId` to 1, so identifiers are issued again after a reset. Between
  resets, a deleted identifier is never reissued: it stays below `nextId`, and creation always
  uses `nextId`.
- The client never checks a stored document against the schema. The invariant `Valid()`
  (unique identifiers below `nextId`) is therefore not assumed by any operation. Every mutator
  proves `old(Valid()) ==> Valid()`, and the default document satisfies it.

## Model

| member | source | states |
|---|---|---|
| `TodoClient.TodoAPIClient.constructor` | src/TodoClient.ts:63-81 | a stored document is kept as is; a missing one becomes `todos = []`, `nextId = 1`, which satisfies the invariant |
| `TodoClient.TodoAPIClient.SaveStorageData` | src/TodoClient.ts:101-110 | the write succeeds exactly when `saveOk`; on success the document is the copy stamped with `now`; on failure nothing changes |
| `TodoClient.TodoAPIClient.Snapshot` | src/TodoClient.ts:86-96 | the document read back carries exactly the stored list, counter and stamp |
| `TodoClient.NotFoundMessage` | src/TodoClient.ts:162 | the message is "Todo with ID ", the rendered id and " not found", and the id can be read back from between the two fixed parts |
| `TodoClient.TodoAPIClient.GetAllTodos` | src/TodoClient.ts:139-148 | succeeds with the stored list itself and the message "Retrieved N todos" |
| `TodoClient.TodoAPIClient.GetTodoById` | src/TodoClient.ts:153-167 | succeeds exactly when some record has the id; returns the first such record; otherwise `data = None` with "Todo with ID <id> not found" |
| `TodoClient.TodoAPIClient.CreateTodo` | src/TodoClient.ts:172-199 | a blank title fails with "Todo title is required" and changes nothing; a failed save changes nothing; on success exactly one record is appended (id = old `nextId`, trimmed non-empty title, description default "", priority default medium, not completed, both stamps `now`), `nextId` grows by 1, the record is then found by its id, and the invariant is kept |
| `TodoClient.TodoAPIClient.UpdateTodo` | src/TodoClient.ts:204-238 | an unknown id fails with not-found and changes nothing; otherwise only the first matching index is replaced by the merge of the patch, `nextId` is unchanged, the merged record is returned, and the invariant is kept |
| `TodoClient.TodoAPIClient.DeleteTodo` | src/TodoClient.ts:243-268 | an unknown id fails with not-found and changes nothing; otherwise the first matching record is spliced out and returned, the length drops by one, the rest keep their order, `nextId` is unchanged, and in a valid document the id is no longer found |
| `TodoClient.TodoAPIClient.ToggleTodoCompletion` | src/TodoClient.ts:273-304 | an unknown id fails with not-found; otherwise only the first matching record changes, with `completed` negated and `updatedAt = now`; the message is "Todo marked as completed" or "... incomplete" according to the new value |
| `TodoClient.TodoAPIClient.SearchTodos` | src/TodoClient.ts:309-330 | a blank query fails with `data = []`; otherwise the result is the order-preserving subsequence of records whose lower-cased title or description contains the lower-cased, trimmed query as a substring |
| `TodoClient.TodoAPIClient.FilterTodos` | src/TodoClient.ts:335-365 | applying the supplied predicates one after another yields the order-preserving subsequence of records satisfying all of them; a record is kept exactly when it matches |
| `TodoClient.TodoAPIClient.ClearAllTodos` | src/TodoClient.ts:370-386 | succeeds exactly when the save does; then the list is empty, `nextId = 1`, and the statistics read 0/0/0 with `nextId` 1; a failed save changes nothing |
| `TodoClient.TodoAPIClient.GetStorageStats` | src/TodoClient.ts:391-405 | reports the statistics of the stored document: the completed and incomplete counts are the sizes of the two filters |
| `TodoTypes.CreateAPIResponse` | src/TodoClient.ts:122-134 | the response is stamped with `now`; status is 200 exactly when successful and 400 exactly when not; payload, flag and message pass through |
| `TodoTypes.NewTodo` | src/TodoClient.ts:182-190 | the new record has the given id, the trimmed title (which, for a non-blank title, neither starts nor ends with whitespace), description default "", priority default medium, is not completed, and both stamps are `now` |
| `TodoTypes.Merge` | src/TodoClient.ts:221-225 | each supplied patch field overrides the old value; unsupplied fields, `id` and `createdAt` are kept; `updatedAt` becomes `now` |
| `TodoTypes.MergeEmpty` | src/TodoClient.ts:221-225 | an empty patch only refreshes `updatedAt` |
| `TodoTypes.MergeCompose` | src/TodoClient.ts:221-225 | two successive updates equal one update with the composed patch, in which later fields win |
| `TodoTypes.MergeIdempotent` | src/TodoClient.ts:221-225 | applying a patch twice is applying it once |
| `TodoTypes.Toggled` | src/TodoClient.ts:287-291 | the completion flag is negated and only `updatedAt` changes besides it |
| `TodoTypes.ToggleTwice` | src/TodoClient.ts:287-291 | toggling twice restores the record except for `updatedAt` |
| `Queries.FirstIndex` | src/TodoClient.ts:211 | -1 exactly when no record has the id; otherwise the index of the first record that does |
| `Queries.FindIndex` | src/TodoClient.ts:247 | the linear scan returns that same index |
| `Queries.Find` | src/TodoClient.ts:156 | `find` returns the record at the index `findIndex` gives, or nothing when it gives -1 |
| `Queries.AppendFresh` | src/TodoClient.ts:181-192 | appending a record with id `nextId` keeps ids unique and below the advanced counter, and that id then finds the new record |
| `Queries.RemoveFound` | src/TodoClient.ts:257 | in a valid document, splicing out the found record keeps it valid and leaves no record with that id |
| `Queries.ReplaceKeepsIds` | src/TodoClient.ts:227 | replacing a record by one with the same id keeps the document valid |
| `Queries.Matches` | src/TodoClient.ts:341-358 | a record matches a filter set when it satisfies every supplied predicate; the empty filter set matches every record |
| `Queries.MatchesConjunction` | src/TodoClient.ts:341-358 | a filter set matches exactly when each of its single-predicate parts does |
| `Queries.StatusIs` | src/TodoClient.ts:341-345 | the status predicate holds exactly when the filter set with only `status` supplied matches |
| `Queries.PriorityIs` | src/TodoClient.ts:347-351 | the priority predicate holds exactly when the filter set with only `priority` supplied matches |
| `Queries.CreatedSince` | src/TodoClient.ts:353-358 | the creation-time predicate holds exactly when the filter set with only `createdAfter` supplied matches |
| `Queries.NarrowByStatus` | src/TodoClient.ts:341-345 | the status filter applied after the others gives the conjunction with them |
| `Queries.NarrowByPriority` | src/TodoClient.ts:347-351 | the priority filter applied after the others gives the conjunction with them |
| `Queries.NarrowByCreatedSince` | src/TodoClient.ts:353-358 | the creation-time filter applied after the others gives the conjunction with them |
| `Queries.StatsOf` | src/TodoClient.ts:395-400 | `completedTodos + incompleteTodos == totalTodos`, which is the length of the list; `nextId` and `lastUpdated` as stored |
| `Queries.Mentions` | src/TodoClient.ts:319-323 | the search predicate holds exactly when the lower-cased title or the lower-cased description contains the term as a substring |
| `Sequences.Select` | src/TodoClient.ts:319-323 | `filter` keeps only elements that satisfy the predicate, keeps every one that does, and never grows the list |
| `Sequences.SelectIsSubsequence` | src/TodoClient.ts:342-344 | the filtered list is an order-preserving subsequence of its input |
| `Sequences.SelectKeeps` | src/TodoClient.ts:348-350 | an element of the input is kept exactly when it satisfies the predicate |
| `Sequences.SelectAll` | src/TodoClient.ts:339 | with no predicate applied, the filter result is the whole list |
| `Sequences.SelectSelect` | src/TodoClient.ts:339-358 | filtering by `p` and then by `q` equals filtering by their conjunction |
| `Sequences.SelectPartition` | src/TodoClient.ts:397-398 | the counts for a predicate and for its negation add up to the length |
| `Text.TrimStart` | src/TodoClient.ts:184 | leading whitespace is removed: the result is a suffix that does not start with whitespace, and all that was cut is whitespace |
| `Text.TrimEnd` | src/TodoClient.ts:184 | trailing whitespace is removed: the result is a prefix that does not end with whitespace, and all that was cut is whitespace |
| `Text.Trim` | src/TodoClient.ts:177 | the result is a contiguous window of the input, everything cut before and after it is whitespace, and a non-empty result neither starts nor ends with whitespace |
| `Text.TrimmedSlice` | src/TodoClient.ts:184 | the two one-sided trims together leave a contiguous window of the input and cut only whitespace outside it |
| `Text.IsBlank` | src/TodoClient.ts:177 | a string is blank after trimming exactly when every character is whitespace |
| `Text.TrimIdempotent` | src/TodoClient.ts:184 | trimming twice is trimming once |
| `Text.ToLower` | src/TodoClient.ts:321 | same length, each character lower-cased |
| `Text.LowerTrimCommute` | src/TodoClient.ts:312-317 | lower-casing then trimming equals trimming then lower-casing, so the search term is empty exactly when the query is blank |
| `Text.OccursShift` | src/TodoClient.ts:321-322 | dropping the first character loses no occurrence except one at position 0 |
| `Text.Includes` | src/TodoClient.ts:321-322 | `includes` holds exactly when the needle occurs at some position |
| `Text.NatToText` | src/TodoClient.ts:146 | the numeral is a non-empty digit string without a leading zero |
| `Text.NatTextRoundTrip` | src/TodoClient.ts:328 | reading the numeral back gives the number |
| `Text.IntToText` | src/TodoClient.ts:162 | an identifier renders as an integer numeral (optional minus sign, then digits), with the minus sign exactly when it is negative |
| `Text.IntTextRoundTrip` | src/TodoClient.ts:162 | reading the rendered identifier back gives the identifier |

## Left out

- `localStorage` and `JSON.parse`/`JSON.stringify` are not modelled. The stored document is the class's fields, and the outcome of a write is the `saveOk` parameter.
- The fallback to the empty document when the stored text is unparseable (src/TodoClient.ts:92-95) is not modelled. It depends on the serialiser.
- `storageSize` in the statistics is not modelled. It is the length of a JSON serialisation.
- `new Date()` readings are the caller-supplied `now`. `createdAfter` and `createdAt` are compared as numbers. Date-string parsing and invalid dates are not modelled.
- `simulateAPIDelay`, `setTimeout` and the `async`/`Promise` plumbing are not modelled. They are timing only.
- Several client instances sharing one storage key can interleave and lose updates. The model is sequential: one instance, one call at a time.
- `trim` and `toLowerCase` are modelled for ASCII only. Unicode whitespace and case mapping are not.
- `console.error` logging and the unused `baseURL` are not modelled.
- `TodoClient.TodoAPIClient.CreateTodo`: the title is a `string`, as declared. A title that is `undefined` at run time cannot be expressed. The blank test covers "" and whitespace-only titles.
- `TodoClient.TodoAPIClient.UpdateTodo`: the patch has exactly the four declared optional fields. At run time the spread copies whatever the argument carries. The edit page passes the whole edited record (src/pages/EditPage.tsx:43), which would also copy its `id`, `createdAt` and `updatedAt` (the last is overwritten right after). A key that is present with the value `undefined` would also overwrite the field with `undefined`. Neither is expressible here.
- Identifiers are unbounded integers. Floating-point identifiers, NaN from `parseInt` and number precision are not modelled.
- One `now` stands for separate `new Date()` readings: `createdAt` and `updatedAt` of a new record (src/TodoClient.ts:188-189), the `lastUpdated` stamp (src/TodoClient.ts:103) and the envelope timestamp (src/TodoClient.ts:131). The equalities between these stamps that the contracts state come from the model. In the program they can differ by the time between the readings.
- `updatedAt >= createdAt` is not an invariant of the model. `now` is a free parameter, and no monotonic clock is assumed.
