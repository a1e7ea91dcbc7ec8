/**
 `TodoDatabase`: the configuration flags, the one-shot choice between the
 document store and the in-memory list, and the six operations, each
 returning the new handle state together with what the source returns or
 raises. Requests that reach the document store are reported as
 `Delegated`; what that store does is outside this model.
 */
module Database {
  import opened Wrappers
  import opened Models
  import MemoryStore

  /**
   The handle's state: the configured connection string, the in-memory
   flag, whether a backend has been chosen, whether a collection handle is
   held, and the in-memory list.
   */
  datatype Db = Db(
    uri: Option<string>,
    useMemory: bool,
    connected: bool,
    collection: bool,
    memory: MemoryStore.Store)

  const NotConnected: string := "Database not connected"

  /** What an operation did: returned a value, raised an error, or went to the document store. */
  datatype Outcome<T> = Done(db: Db, value: T) | Raised(db: Db, error: string) | Delegated(db: Db)

  /** The connection string is configured and non-empty (Python truthiness). */
  predicate HasUri(db: Db) {
    db.uri.Some? && db.uri.value != ""
  }

  /** A backend is chosen: the memory list, or a held collection. */
  predicate Selected(db: Db) {
    db.connected && (db.useMemory || db.collection)
  }

  /** Whenever the handle counts itself connected, some backend is chosen. */
  predicate Coherent(db: Db) {
    db.connected ==> Selected(db)
  }

  /** The same flags, whatever the memory list holds. */
  predicate SameBackend(a: Db, b: Db) {
    a.uri == b.uri && a.useMemory == b.useMemory && a.connected == b.connected && a.collection == b.collection
  }

  /** `TodoDatabase()`: nothing chosen yet, an empty memory list. */
  function Init(uri: Option<string>, useMemoryFlag: bool): (db: Db)
    ensures db.uri == uri && db.useMemory == useMemoryFlag
    ensures !db.connected && !db.collection && db.memory == []
    ensures Coherent(db)
  {
    Db(uri, useMemoryFlag, false, false, [])
  }

  /**
   `connect`: with no connection string, or when the attempt (whose outcome
   is `reachable`) fails, fall back to the memory list; on success hold the
   collection. The in-memory flag is not consulted.
   */
  function Connect(db: Db, reachable: bool): (r: Db)
    ensures r.connected && Selected(r)
    ensures r.uri == db.uri && r.memory == db.memory
    ensures !HasUri(db) ==> r.useMemory && r.collection == db.collection
    ensures HasUri(db) && !reachable ==> r.useMemory && !r.collection
    ensures HasUri(db) && reachable ==> r.collection && r.useMemory == db.useMemory
  {
    if !HasUri(db) then db.(useMemory := true, connected := true)
    else if reachable then db.(collection := true, connected := true)
    else db.(useMemory := true, connected := true, collection := false)
  }

  /**
   `_ensure_connection` as the source writes it: with the in-memory flag
   unset and no connection string, it marks the handle connected but leaves
   the flag unset and holds no collection.
   */
  function EnsureConnectionAsWritten(db: Db, reachable: bool): (r: Db)
    ensures db.connected ==> r == db
    ensures r.connected && r.uri == db.uri && r.memory == db.memory
    ensures !db.connected && (db.useMemory || !HasUri(db)) ==> r == db.(connected := true)
    ensures !db.connected && !db.useMemory && HasUri(db) ==> r == Connect(db, reachable)
  {
    if db.connected then db
    else if db.useMemory || !HasUri(db) then db.(connected := true)
    else Connect(db, reachable)
  }

  /**
   `_ensure_connection` as evidently intended: the lazy path without a
   connection string selects the memory list, as its log line announces.
   Once connected, it does nothing.
   */
  function EnsureConnection(db: Db, reachable: bool): (r: Db)
    ensures db.connected ==> r == db
    ensures r.connected && r.uri == db.uri && r.memory == db.memory
    ensures Coherent(db) ==> Selected(r)
    ensures !db.connected && (db.useMemory || !HasUri(db)) ==> r.useMemory && r.collection == db.collection
    ensures !db.connected && !db.useMemory && HasUri(db) ==> r == Connect(db, reachable)
  {
    if db.connected then db
    else if db.useMemory || !HasUri(db) then db.(connected := true, useMemory := true)
    else Connect(db, reachable)
  }

  // The bodies of the operations after `_ensure_connection` has run.

  /** `create_todo` after the selection: append in memory mode, raise without a backend, else the document store. */
  function CreateOn(d: Db, c: TodoCreate, newId: ObjectId, createdAt: Timestamp, updatedAt: Timestamp): (r: Outcome<TodoItem>)
    ensures SameBackend(r.db, d)
    ensures r.Done? <==> d.useMemory
    ensures r.Raised? <==> !d.useMemory && !d.collection
    ensures r.Raised? ==> r.error == NotConnected
    ensures r.Done? ==> r.value == NewItem(c, newId, createdAt, updatedAt) && r.db.memory == d.memory + [r.value]
    ensures !r.Done? ==> r.db == d
  {
    if d.useMemory then
      var m := MemoryStore.Create(d.memory, c, newId, createdAt, updatedAt);
      Done(d.(memory := m.store), m.value)
    else if !d.collection then Raised(d, NotConnected)
    else Delegated(d)
  }

  /** `get_all_todos` after the selection: the memory list, a raise without a backend, else the document store. */
  function GetAllOn(d: Db): (r: Outcome<seq<TodoItem>>)
    ensures r.db == d
    ensures r.Done? <==> d.useMemory
    ensures r.Raised? <==> !d.useMemory && !d.collection
    ensures r.Raised? ==> r.error == NotConnected
    ensures r.Done? ==> r.value == d.memory
  {
    if d.useMemory then Done(d, MemoryStore.GetAll(d.memory).value)
    else if !d.collection then Raised(d, NotConnected)
    else Delegated(d)
  }

  /** `get_todo_by_id` after the selection: a malformed id or a caught error is "not found". */
  function GetByIdOn(d: Db, sid: string, parse: IdParser): (r: Outcome<Option<TodoItem>>)
    ensures r.db == d && !r.Raised?
    ensures r.Delegated? <==> parse(sid).Some? && !d.useMemory && d.collection
    ensures parse(sid).None? || (!d.useMemory && !d.collection) ==> r == Done(d, None)
    ensures parse(sid).Some? && d.useMemory ==> r == Done(d, MemoryStore.Find(d.memory, parse(sid).value))
  {
    match parse(sid)
    case None => Done(d, None)
    case Some(id) =>
      if d.useMemory then Done(d, MemoryStore.Find(d.memory, id))
      else if !d.collection then Done(d, None)
      else Delegated(d)
  }

  /** `update_todo` after the selection: a malformed id, an empty patch or a caught error gives None. */
  function UpdateOn(d: Db, sid: string, u: TodoUpdate, parse: IdParser, now: Timestamp): (r: Outcome<Option<TodoItem>>)
    ensures SameBackend(r.db, d) && !r.Raised?
    ensures r.Delegated? <==> parse(sid).Some? && !IsEmptyUpdate(u) && !d.useMemory && d.collection
    ensures parse(sid).None? || IsEmptyUpdate(u) || (!d.useMemory && !d.collection) ==> r == Done(d, None)
    ensures parse(sid).Some? && d.useMemory ==>
      var m := MemoryStore.Update(d.memory, parse(sid).value, u, now);
      r == Done(d.(memory := m.store), m.value)
  {
    match parse(sid)
    case None => Done(d, None)
    case Some(id) =>
      if IsEmptyUpdate(u) then Done(d, None)
      else if d.useMemory then
        var m := MemoryStore.Update(d.memory, id, u, now);
        Done(d.(memory := m.store), m.value)
      else if !d.collection then Done(d, None)
      else Delegated(d)
  }

  /** `delete_todo` after the selection: a malformed id or a caught error gives false. */
  function DeleteOn(d: Db, sid: string, parse: IdParser): (r: Outcome<bool>)
    ensures SameBackend(r.db, d) && !r.Raised?
    ensures r.Delegated? <==> parse(sid).Some? && !d.useMemory && d.collection
    ensures parse(sid).None? || (!d.useMemory && !d.collection) ==> r == Done(d, false)
    ensures parse(sid).Some? && d.useMemory ==>
      var m := MemoryStore.Delete(d.memory, parse(sid).value);
      r == Done(d.(memory := m.store), m.value)
  {
    match parse(sid)
    case None => Done(d, false)
    case Some(id) =>
      if d.useMemory then
        var m := MemoryStore.Delete(d.memory, id);
        Done(d.(memory := m.store), m.value)
      else if !d.collection then Done(d, false)
      else Delegated(d)
  }

  // The operations.

  /**
   `create_todo`: in memory mode the record is appended with the new id;
   without a backend it raises "Database not connected", which cannot
   happen from a coherent handle.
   */
  function CreateTodo(db: Db, c: TodoCreate, newId: ObjectId, createdAt: Timestamp, updatedAt: Timestamp, reachable: bool)
    : (r: Outcome<TodoItem>)
    requires c.title != ""
    ensures var d := EnsureConnection(db, reachable);
      && SameBackend(r.db, d)
      && (r.Done? <==> d.useMemory)
      && (r.Raised? <==> !d.useMemory && !d.collection)
      && (r.Raised? ==> r.error == NotConnected)
    ensures r.Done? ==> r.value == NewItem(c, newId, createdAt, updatedAt) && r.db.memory == db.memory + [r.value]
    ensures !r.Done? ==> r.db.memory == db.memory
    ensures Coherent(db) ==> !r.Raised?
  {
    CreateOn(EnsureConnection(db, reachable), c, newId, createdAt, updatedAt)
  }

  /** `get_all_todos`: in memory mode, the stored records in insertion order; nothing changes. */
  function GetAllTodos(db: Db, reachable: bool): (r: Outcome<seq<TodoItem>>)
    ensures var d := EnsureConnection(db, reachable);
      && r.db == d
      && (r.Done? <==> d.useMemory)
      && (r.Raised? <==> !d.useMemory && !d.collection)
    ensures r.Done? ==> r.value == db.memory
    ensures r.Raised? ==> r.error == NotConnected
    ensures Coherent(db) ==> !r.Raised?
  {
    GetAllOn(EnsureConnection(db, reachable))
  }

  /**
   `get_todo_by_id`: a malformed id is "not found", every error is caught,
   and in memory mode the first record with the id is returned. Nothing
   changes.
   */
  function GetTodoById(db: Db, sid: string, parse: IdParser, reachable: bool): (r: Outcome<Option<TodoItem>>)
    ensures r.db == EnsureConnection(db, reachable)
    ensures !r.Raised?
    ensures parse(sid).None? ==> r.Done? && r.value.None?
    ensures parse(sid).Some? && r.db.useMemory ==> r.Done? && r.value == MemoryStore.Find(db.memory, parse(sid).value)
    ensures r.Delegated? <==> parse(sid).Some? && !r.db.useMemory && r.db.collection
    ensures !r.db.useMemory && !r.db.collection ==> r == Done(r.db, None)
  {
    GetByIdOn(EnsureConnection(db, reachable), sid, parse)
  }

  /**
   `update_todo`: a malformed id or an empty patch gives None and changes
   nothing; in memory mode the memory-list update is applied; every error
   is caught.
   */
  function UpdateTodo(db: Db, sid: string, u: TodoUpdate, parse: IdParser, now: Timestamp, reachable: bool)
    : (r: Outcome<Option<TodoItem>>)
    ensures var d := EnsureConnection(db, reachable); SameBackend(r.db, d)
    ensures !r.Raised?
    ensures parse(sid).None? || IsEmptyUpdate(u) ==> r == Done(EnsureConnection(db, reachable), None)
    ensures parse(sid).Some? && r.db.useMemory ==>
      var m := MemoryStore.Update(db.memory, parse(sid).value, u, now);
      r.Done? && r.db.memory == m.store && r.value == m.value
    ensures !r.Done? || !r.db.useMemory ==> r.db.memory == db.memory
    ensures !r.db.useMemory && !r.db.collection ==> r == Done(r.db, None)
    ensures r.Delegated? <==> parse(sid).Some? && !IsEmptyUpdate(u) && !r.db.useMemory && r.db.collection
  {
    UpdateOn(EnsureConnection(db, reachable), sid, u, parse, now)
  }

  /**
   `delete_todo`: a malformed id gives false and changes nothing; in memory
   mode the first record with the id is removed; every error is caught.
   */
  function DeleteTodo(db: Db, sid: string, parse: IdParser, reachable: bool): (r: Outcome<bool>)
    ensures var d := EnsureConnection(db, reachable); SameBackend(r.db, d)
    ensures !r.Raised?
    ensures parse(sid).None? ==> r == Done(EnsureConnection(db, reachable), false)
    ensures parse(sid).Some? && r.db.useMemory ==>
      var m := MemoryStore.Delete(db.memory, parse(sid).value);
      r.Done? && r.db.memory == m.store && r.value == m.value
    ensures !r.Done? || !r.db.useMemory ==> r.db.memory == db.memory
    ensures !r.db.useMemory && !r.db.collection ==> r == Done(r.db, false)
    ensures r.Delegated? <==> parse(sid).Some? && !r.db.useMemory && r.db.collection
  {
    DeleteOn(EnsureConnection(db, reachable), sid, parse)
  }

  /**
   `toggle_todo_status`: look the record up, and when found update it with
   the patch that negates `completed`. In memory mode this is the
   memory-list toggle.
   */
  function ToggleTodoStatus(db: Db, sid: string, parse: IdParser, now: Timestamp, reachable: bool)
    : (r: Outcome<Option<TodoItem>>)
    ensures var d := EnsureConnection(db, reachable); SameBackend(r.db, d)
    ensures !r.Raised?
    ensures parse(sid).None? ==> r == Done(EnsureConnection(db, reachable), None)
    ensures parse(sid).Some? && r.db.useMemory ==>
      var m := MemoryStore.Toggle(db.memory, parse(sid).value, now);
      r.Done? && r.db.memory == m.store && r.value == m.value
    ensures !r.Done? || !r.db.useMemory ==> r.db.memory == db.memory
    ensures !r.db.useMemory && !r.db.collection ==> r == Done(r.db, None)
    ensures r.Delegated? <==> parse(sid).Some? && !r.db.useMemory && r.db.collection
  {
    match GetTodoById(db, sid, parse, reachable)
    case Delegated(d) => Delegated(d)
    case Raised(d, e) => Raised(d, e)
    case Done(d, found) =>
      match found
      case None => Done(d, None)
      case Some(t) => UpdateTodo(d, sid, ToggleUpdate(t), parse, now, reachable)
  }

  // Properties of backend selection.

  /** The choice is made once: a second `_ensure_connection` changes nothing, whatever the network does. */
  lemma SelectionIsMemoized(db: Db, reachable1: bool, reachable2: bool)
    ensures EnsureConnection(EnsureConnection(db, reachable1), reachable2) == EnsureConnection(db, reachable1)
  {
  }

  /** Without a connection string the memory list is chosen and the network outcome plays no part. */
  lemma NoUriSelectsMemory(db: Db)
    requires !db.connected && !HasUri(db)
    ensures EnsureConnection(db, true) == EnsureConnection(db, false)
    ensures EnsureConnection(db, true).useMemory
    ensures Connect(db, true) == Connect(db, false)
    ensures Connect(db, true).useMemory && Connect(db, true).connected
  {
  }

  /**
   The lazy path as written, on a fresh handle with no connection string
   and the flag unset: no backend is chosen, so `create_todo` raises and
   `get_all_todos` raises, and lookups, updates and deletes report "not
   found", while the corrected path creates the record.
   */
  lemma LazyPathAsWrittenRaises(uri: Option<string>, reachable: bool, c: TodoCreate, newId: ObjectId, t1: Timestamp, t2: Timestamp,
                                sid: string, u: TodoUpdate, parse: IdParser, now: Timestamp)
    requires uri == None || uri == Some("")
    ensures var d := EnsureConnectionAsWritten(Init(uri, false), reachable);
      && !Selected(d)
      && CreateOn(d, c, newId, t1, t2) == Raised(d, NotConnected)
      && GetAllOn(d) == Raised(d, NotConnected)
      && GetByIdOn(d, sid, parse) == Done(d, None)
      && UpdateOn(d, sid, u, parse, now) == Done(d, None)
      && DeleteOn(d, sid, parse) == Done(d, false)
    ensures var d := EnsureConnection(Init(uri, false), reachable);
      CreateOn(d, c, newId, t1, t2).Done?
  {
  }

  /**
   The two selections differ only on the lazy path of the finding: a fresh
   handle with the flag unset and no connection string. Everywhere else the
   operations behave as the source writes them.
   */
  lemma SelectionsDifferOnlyOnLazyPath(db: Db, reachable: bool)
    ensures EnsureConnectionAsWritten(db, reachable) != EnsureConnection(db, reachable)
        <==> !db.connected && !db.useMemory && !HasUri(db)
  {
  }

  /** In memory mode, listing after a create returns the earlier records followed by the created one. */
  lemma CreateThenGetAll(db: Db, c: TodoCreate, newId: ObjectId, t1: Timestamp, t2: Timestamp, reachable: bool)
    requires c.title != "" && EnsureConnection(db, reachable).useMemory
    ensures var r1 := CreateTodo(db, c, newId, t1, t2, reachable);
            var r2 := GetAllTodos(r1.db, reachable);
            r2 == Done(r1.db, db.memory + [NewItem(c, newId, t1, t2)])
  {
  }

  /** Every operation leaves a coherent handle coherent. */
  lemma OperationsKeepCoherent(db: Db, sid: string, c: TodoCreate, u: TodoUpdate, parse: IdParser,
                               newId: ObjectId, t1: Timestamp, t2: Timestamp, reachable: bool)
    requires Coherent(db) && c.title != ""
    ensures Selected(CreateTodo(db, c, newId, t1, t2, reachable).db)
    ensures Selected(GetAllTodos(db, reachable).db)
    ensures Selected(GetTodoById(db, sid, parse, reachable).db)
    ensures Selected(UpdateTodo(db, sid, u, parse, t2, reachable).db)
    ensures Selected(DeleteTodo(db, sid, parse, reachable).db)
    ensures Selected(ToggleTodoStatus(db, sid, parse, t2, reachable).db)
  {
  }
}
