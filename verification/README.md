# Todo store of the todo MCP server, in Dafny

This project models `TodoDatabase`, the storage layer of a small todo server.
It covers the in-memory backend and the records that backend stores. The
database holds todo records (`TodoItem`): an ObjectId, a title, an optional
description, a `completed` flag, creation and update timestamps, an optional
due date and a free-text priority. It offers six operations:

- create
- list all
- look up by id
- partial update
- delete
- toggle of `completed`

Before its first operation, the database chooses once between a MongoDB
collection and a process-local list.

The modules follow the source:

- `Models` (models.py): the three record shapes and `PyObjectId.validate`.
  It also holds the record that create builds and the way a patch is applied.
- `Documents`: the dictionary layer beneath the records. It covers
  `.dict()`, the `is not None` filter of the update data, `dict.update` on
  the stored document, and pydantic's `TodoItem(**doc)` with its defaults.
  It is the independent reference the record-level operations are checked
  against.
- `MemoryStore`: the memory list as `seq<TodoItem>`. Each operation is a
  pure function returning the new list and the source's return value.
- `Database` (database.py): the handle's flags (`use_memory`, `connected`,
  the collection handle, the connection string), `connect`,
  `_ensure_connection` and the six operations. Each operation returns an
  `Outcome`: a value, a raised "Database not connected", or `Delegated` when
  the request goes to MongoDB.
- `Scenarios`: chains of operations. One is the life cycle of a record. The
  other is the call sequence of the repository's final verification script.

Three things outside the code become inputs:

- Parsing an id string (bson's `ObjectId(text)`) is a parameter
  `parse: string -> Option<ObjectId>`.
- Each clock reading (`datetime.utcnow()`) is a timestamp parameter.
- The outcome of the MongoDB connection attempt is a boolean `reachable`.

The new id that create generates is a parameter too. Lemmas that need it
fresh say so with `!HasId(store, id)`.

Where the code's own descriptions and its behaviour disagree, the model
follows the behaviour:

- Priority is free text, so any string is stored and echoed back. The field
  description (src/todo_mcp_server/models.py:41) and the `enum` of the tool
  schema (src/todo_mcp_server/server.py:53-55) name low, medium and high,
  but neither is enforced.
- `connect` does not consult the in-memory flag. The server's start-up calls
  `connect` directly, so with a connection string set it attempts the
  network even when the flag asks for memory. The memory list is still used
  afterwards, because every operation tests the flag first.

One place departs from the code on purpose. If nothing calls `connect`
first, the lazy selection path without a connection string does not choose
the memory list. That is a bug (see Findings). The six operations of
`Database` run the corrected selection. `Database.SelectionsDifferOnlyOnLazyPath`
proves that the two selections agree on every other handle, so only that
one case departs from the code as written.

## Model

| member | source | states |
|---|---|---|
| Models.Validate | src/todo_mcp_server/models.py:17-23 | an ObjectId passes unchanged, a string succeeds exactly when it parses and yields the parsed id, anything else fails with "Invalid ObjectId" |
| Models.ValidateIdempotent | src/todo_mcp_server/models.py:19-20 | validating the result of a successful validation returns the same result |
| Models.NewItem | src/todo_mcp_server/database.py:87-96 | the created record has the generated id, `completed` false, the two clock readings, and the request's title, description, due date and priority |
| Models.ApplyUpdate | src/todo_mcp_server/database.py:154-165 | exactly the fields the patch sets (not None) are overwritten, `updated_at` becomes now, and id and `created_at` stay; `completed = false` counts as set |
| Models.ToggleUpdate | src/todo_mcp_server/database.py:212 | the toggle patch is never empty and sets `completed` to the negation of the current value |
| Models.ToggleUpdateFlipsOnly | src/todo_mcp_server/database.py:212-213 | applying the toggle patch changes only `completed` (negated) and `updated_at` |
| Documents.ItemDoc | src/todo_mcp_server/database.py:87-96 | the stored document of a record has exactly the eight keys of a TodoItem |
| Documents.CreateDict | src/todo_mcp_server/database.py:87 | `todo_data.dict()` has exactly the title, description, due date and priority keys |
| Documents.UpdateDict | src/todo_mcp_server/database.py:154 | `todo_update.dict()` has exactly the five patch keys, None fields included |
| Documents.UpdateData | src/todo_mcp_server/database.py:154-159 | the update data never touches `_id` or `created_at`, always sets `updated_at` to now, and holds nothing else exactly when the patch is empty |
| Documents.UpdateDataKeys | src/todo_mcp_server/database.py:154-159 | key by key, the update data holds a patch field exactly when it is not None, with its value, holds `updated_at` as now, and never holds `_id` or `created_at` |
| Documents.CreateDoc | src/todo_mcp_server/database.py:87-95 | create's document has all eight keys, the generated `_id`, `completed` false, both clock readings, and the request's title and priority |
| Documents.DropNulls | src/todo_mcp_server/database.py:154 | the filtered dictionary has exactly the keys whose value is not None, with their values |
| Documents.DropNullsEmptyIff | src/todo_mcp_server/database.py:154-157 | the filtered update data is empty exactly when every patch field is None |
| Documents.ItemFromDoc | src/todo_mcp_server/models.py:31-41 | constructing a TodoItem fails without a title, and a built item's title is the document's title |
| Documents.CreateFromDoc | src/todo_mcp_server/models.py:49-55 | constructing a TodoCreate fails without a title, and a built request's title is the one given |
| Documents.UpdateFromDoc | src/todo_mcp_server/models.py:58-65 | a TodoUpdate built from only absent or None arguments is the empty patch, which is what the update handler passes for omitted arguments |
| Documents.ItemDocRoundTrip | src/todo_mcp_server/database.py:113-114 | reading a stored document back as a TodoItem gives the record it holds |
| Documents.CreateDictRoundTrip | src/todo_mcp_server/models.py:49-55 | rebuilding a TodoCreate from its `.dict()` gives the same request |
| Documents.UpdateDictRoundTrip | src/todo_mcp_server/models.py:58-65 | rebuilding a TodoUpdate from its `.dict()` gives the same patch |
| Documents.ItemDefaults | src/todo_mcp_server/models.py:34-41 | a TodoItem given only a title has a fresh id, no description, `completed` false, both timestamps from the clock, no due date, priority "medium" |
| Documents.CreateDefaults | src/todo_mcp_server/models.py:52-55 | a TodoCreate given only a title has priority "medium", and any other priority text is kept unchanged |
| Documents.UpdateDefaults | src/todo_mcp_server/models.py:61-65 | `TodoUpdate()` is the empty patch |
| Documents.CreateDocIsNewItem | src/todo_mcp_server/database.py:87-104 | create's document is the stored document of the new record, and the TodoItem built from it carries the generated `_id` as its id and equals that record |
| Documents.DictUpdateIsItemDoc | src/todo_mcp_server/database.py:154-166 | the stored document after `doc.update(update_data)` is the stored document of the record-level patch |
| Documents.DictUpdateIsApplyUpdate | src/todo_mcp_server/database.py:154-166 | the document's in-place update with the filtered data plus `updated_at` is the stored document of the patched record, and read back as a TodoItem it is the record-level patch |
| MemoryStore.FirstIndex | src/todo_mcp_server/database.py:133-136 | the scan finds an index exactly when some record has the id, and it is the first such index |
| MemoryStore.Find | src/todo_mcp_server/database.py:131-136 | a lookup finds a record exactly when the id is stored, and the found record has that id and is the first record with it |
| MemoryStore.FindStored | src/todo_mcp_server/database.py:133-135 | with distinct ids, every stored record is found by its own id |
| MemoryStore.Create | src/todo_mcp_server/database.py:87-96 | create appends exactly one record at the end, earlier records unchanged, with the generated id, not completed, and the request's fields |
| MemoryStore.GetAll | src/todo_mcp_server/database.py:110-114 | listing returns every stored record in insertion order and leaves the list unchanged |
| MemoryStore.Update | src/todo_mcp_server/database.py:154-167 | an empty patch or a missing id returns None with the list unchanged; otherwise only the first record with the id is replaced by its patched version, which is returned |
| MemoryStore.Delete | src/todo_mcp_server/database.py:190-196 | delete returns true exactly when the id is stored; then only the first matching record is removed and the others keep their order, otherwise the list is unchanged |
| MemoryStore.Toggle | src/todo_mcp_server/database.py:206-213 | toggle returns a record exactly when the id is stored, and that record is the found one with `completed` negated and `updated_at` refreshed; it replaces the first record with the id in place, and the length and every other record stay; a missing id changes nothing |
| MemoryStore.CreatePreservesValid | src/todo_mcp_server/database.py:87-96 | create with a fresh id and ordered clock readings keeps ids distinct and `created_at <= updated_at` |
| MemoryStore.CreateThenFind | verify_final.py:31-42 | after create with a fresh id, looking up that id returns the created record |
| MemoryStore.CreateKeepsFinds | src/todo_mcp_server/database.py:96 | create does not change what any id already present finds |
| MemoryStore.UpdateThenFind | src/todo_mcp_server/database.py:163-166 | after a successful update, looking up the id returns the record update returned |
| MemoryStore.UpdateKeepsOtherFinds | src/todo_mcp_server/database.py:163-166 | an update does not change what any other id finds |
| MemoryStore.UpdatePreservesValid | src/todo_mcp_server/database.py:159-166 | an update keeps ids distinct, and keeps `created_at <= updated_at` when the clock reading is not before any creation |
| MemoryStore.DeleteThenFind | src/todo_mcp_server/database.py:192-195 | with distinct ids, the deleted id is no longer stored, so a later lookup is absent |
| MemoryStore.DeletePreservesValid | src/todo_mcp_server/database.py:192-195 | delete keeps ids distinct and timestamps ordered |
| MemoryStore.DeleteKeepsOtherFinds | src/todo_mcp_server/database.py:192-195 | deleting one id does not change what any other id finds |
| MemoryStore.ToggleThenFind | src/todo_mcp_server/database.py:206-213 | after toggling an existing id, a lookup finds the old record with only `completed` negated and `updated_at` refreshed |
| MemoryStore.ToggleTwiceRestores | src/todo_mcp_server/database.py:206-213 | toggling twice returns the original record except for `updated_at`, so `completed` is restored |
| Database.Init | src/todo_mcp_server/database.py:16-25 | a new handle keeps the given connection string and in-memory flag, is not connected, holds no collection and has an empty memory list |
| Database.Connect | src/todo_mcp_server/database.py:39-75 | with no connection string or a failed attempt, the memory flag and `connected` are set (a failure also drops the collection); a successful attempt holds the collection and leaves the memory flag alone |
| Database.EnsureConnectionAsWritten | src/todo_mcp_server/database.py:27-37 | once connected it does nothing; with the memory flag set or no connection string it sets only `connected`; otherwise it connects |
| Database.EnsureConnection | src/todo_mcp_server/database.py:27-37 | once connected it does nothing; from a coherent handle it always leaves a backend chosen; without a connection string it chooses the memory list |
| Database.CreateOn | src/todo_mcp_server/database.py:92-104 | after the selection, create appends the new record exactly in memory mode, raises "Database not connected" exactly when no backend is chosen, and otherwise goes to the document store with the handle unchanged |
| Database.GetAllOn | src/todo_mcp_server/database.py:110-122 | after the selection, listing returns the memory list exactly in memory mode, raises "Database not connected" exactly when no backend is chosen, and never changes the handle |
| Database.GetByIdOn | src/todo_mcp_server/database.py:128-146 | after the selection, a lookup never raises or changes the handle; a malformed id or no backend gives None; memory mode gives the first match; it goes to the document store exactly with a well-formed id and a held collection outside memory mode |
| Database.UpdateOn | src/todo_mcp_server/database.py:152-181 | after the selection, an update never raises; a malformed id, an empty patch or no backend gives None with nothing changed; memory mode is the memory-list update; it goes to the document store exactly with a well-formed id, a non-empty patch and a held collection outside memory mode |
| Database.DeleteOn | src/todo_mcp_server/database.py:187-204 | after the selection, a delete never raises; a malformed id or no backend gives false with nothing changed; memory mode is the memory-list delete; it goes to the document store exactly with a well-formed id and a held collection outside memory mode |
| Database.CreateTodo | src/todo_mcp_server/database.py:83-104 | in memory mode the new record is appended and returned; without a backend it raises "Database not connected", never from a coherent handle; the backend flags are those of the selection |
| Database.GetAllTodos | src/todo_mcp_server/database.py:106-122 | in memory mode it returns exactly the stored records in order; without a backend it raises "Database not connected"; it never changes the handle beyond the selection |
| Database.GetTodoById | src/todo_mcp_server/database.py:124-146 | it never raises and never mutates; a malformed id is absent; in memory mode it returns the first record with the id; with no backend chosen the caught error gives None |
| Database.UpdateTodo | src/todo_mcp_server/database.py:148-181 | it never raises; a malformed id or an empty patch returns None with nothing changed; in memory mode it is the memory-list update; with no backend chosen the caught error gives None; it goes to the document store exactly with a well-formed id, a non-empty patch and a held collection outside memory mode |
| Database.DeleteTodo | src/todo_mcp_server/database.py:183-204 | it never raises; a malformed id returns false with nothing changed; in memory mode it is the memory-list delete; with no backend chosen the caught error gives false; it goes to the document store exactly with a well-formed id and a held collection outside memory mode |
| Database.ToggleTodoStatus | src/todo_mcp_server/database.py:206-213 | it never raises; a malformed id returns None; in memory mode it is the memory-list toggle; otherwise the memory list is unchanged; with no backend chosen it returns None; it goes to the document store exactly when the lookup does |
| Database.SelectionIsMemoized | src/todo_mcp_server/database.py:29-30 | a second selection changes nothing, whatever the network does |
| Database.NoUriSelectsMemory | src/todo_mcp_server/database.py:41-45 | without a connection string both the corrected lazy path and `connect` choose the memory list, and the network outcome plays no part |
| Database.LazyPathAsWrittenRaises | src/todo_mcp_server/database.py:92-204 | as written, a fresh handle with no connection string and the flag unset chooses no backend, so create and list raise "Database not connected" and lookup, update and delete report not found (None, None, false); the corrected path creates |
| Database.SelectionsDifferOnlyOnLazyPath | src/todo_mcp_server/database.py:29-37 | the as-written and corrected selections differ exactly on a handle not yet connected, with the flag unset and no connection string |
| Database.CreateThenGetAll | src/todo_mcp_server/database.py:110-114 | in memory mode, listing after a create returns the earlier records in order followed by the created record |
| Database.OperationsKeepCoherent | src/todo_mcp_server/database.py:27-75 | from a coherent handle, every operation leaves a backend chosen |
| Scenarios.RecordLifeCycle | src/todo_mcp_server/database.py:83-213 | create "Buy milk"/high is pending; toggle completes it; retitling keeps it completed; delete returns true; a later lookup is absent |
| Scenarios.VerificationRun | verify_final.py:19-67 | the final verification sequence: the list grows by one, read-back returns the created record, update and toggle compose, and deleting the second record leaves the first as toggled |

## Findings

| source | as written | input that shows it | evidently intended | confidence | as-written member | corrected member |
|---|---|---|---|---|---|---|
| src/todo_mcp_server/database.py:32-35 | with the in-memory flag unset and no connection string, the lazy path sets only `connected` and leaves `use_memory` false with no collection | a fresh `TodoDatabase()` with neither MONGODB_URI nor USE_MEMORY_DB set, then `create_todo` before any `connect()`: it raises "Database not connected" (so does `get_all_todos`, and lookups, updates and deletes report not found) | also set `use_memory`, as the log line "Using in-memory storage" announces and as `connect` does at lines 41-45 | high; not executed | Database.EnsureConnectionAsWritten | Database.EnsureConnection |

The counterexample is `Database.LazyPathAsWrittenRaises`. The operations of
`Database` use the corrected `EnsureConnection`. With it, no operation raises
from a coherent handle. `Database.CreateTodo` and `Database.GetAllTodos`
state this as `Coherent(db) ==> !r.Raised?`. The other four operations
state `!r.Raised?` outright, because they catch every error.

## Left out

- MongoDB: inserts, finds, updates with `modified_count`, deletes, ping and
  timeouts, and closing the client (`disconnect`) are network I/O through
  pymongo. Pymongo is not part of this model. These requests end in
  `Delegated`. A held collection is only a flag, so the truth test
  `if not self.collection` is read as "no handle".
- The ObjectId format and its generation (bson): parsing is the abstract
  parameter `parse`, and the new id is a parameter of create. Uniqueness of
  generated ids over the life of the process belongs to bson's generator.
  Lemmas take it as the hypothesis that the new id is not stored.
- Clock: `datetime.utcnow()` readings are parameters. Create takes its two
  separate readings separately, so `created_at == updated_at` holds only
  when equal readings are passed. It is proved that `created_at <= updated_at`
  is kept when the readings are ordered.
- Database.CreateTodo: runs the corrected selection, so it appends instead of raising "Database not connected" on a fresh handle with neither connection string nor flag (the Findings case).
- Database.GetAllTodos: runs the corrected selection, so it lists the memory list instead of raising on the Findings case.
- Database.GetTodoById: runs the corrected selection, so it searches the memory list instead of returning None on the Findings case.
- Database.UpdateTodo: runs the corrected selection, so it patches the memory list instead of returning None on the Findings case.
- Database.DeleteTodo: runs the corrected selection, so it deletes from the memory list instead of returning false on the Findings case.
- Database.ToggleTodoStatus: runs the corrected selection, so it toggles in the memory list instead of returning None on the Findings case.
- Database.NoUriSelectsMemory: is about the corrected lazy path; the lazy path as written does not choose the memory list (Database.LazyPathAsWrittenRaises).
- MemoryStore.UpdatePreservesValid: does not prove that an update makes
  `updated_at` strictly later than before, because that depends on the
  clock, which is an input.
- The server's tool dispatch, JSON schemas, result wrapping, ISO date
  parsing and `format_todo` rendering are glue over external libraries.
  Two of its checks are kept as modelling choices. The non-empty title check
  (src/todo_mcp_server/server.py:173-177) is the precondition of
  `Database.CreateTodo`. Its mapping of missing update arguments to None
  (src/todo_mcp_server/server.py:246-252) is why a patch is five `Option`
  fields.
- Async execution, the global `db` instance, and the read-then-write race
  inside toggle: the model is one sequence of calls.
- Logging prints and environment reading: `Database.Init` takes the
  connection string and the parsed in-memory flag directly. The database
  name has no effect on the memory list.
- The pydantic schema hooks (`__get_pydantic_core_schema__`,
  `__get_pydantic_json_schema__`) and the `json_encoders` setting: they only
  shape serialisation.
- Documents.ItemFromDoc: rejects an explicit `_id` of None. The pydantic
  field is `Optional` and would accept it, but the store never writes one.
  The `id` alias allowed by `populate_by_name` is not modelled.
- Documents.ItemFromDoc: does not model pydantic's lax coercions. A value of
  the wrong kind is rejected, although pydantic would convert some of them,
  for example the string "true" to a bool.
- Documents.ItemFromDoc: uses one clock reading for both timestamp defaults,
  although pydantic calls the default factory once per field.
- Documents.CreateFromDoc: does not model pydantic's lax coercions either.
- Documents.UpdateFromDoc: does not model pydantic's lax coercions either.
