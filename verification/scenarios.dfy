/**
 End-to-end runs of the database in memory mode: the life cycle of one
 record, and the sequence of calls the repository's final verification
 script makes. Ids reach the database as text; `sid` is any text that
 parses to the generated id.
 */
module Scenarios {
  import opened Wrappers
  import opened Models
  import MemoryStore
  import opened Database

  /** The handle has chosen the memory list and its records satisfy the store invariant. */
  predicate MemoryMode(db: Db) {
    db.connected && db.useMemory && MemoryStore.Valid(db.memory)
  }

  /**
   Create "Buy milk" with priority "high", toggle it, retitle it, delete it,
   and look it up again: the record starts pending, toggles to completed,
   keeps `completed` through the retitling, is deleted, and is then absent.
   */
  lemma RecordLifeCycle(db: Db, sid: string, parse: IdParser, id: ObjectId,
                        t1: Timestamp, t2: Timestamp, t3: Timestamp, reachable: bool)
    requires MemoryMode(db) && !MemoryStore.HasId(db.memory, id) && parse(sid) == Some(id)
    ensures var r1 := CreateTodo(db, TodoCreate("Buy milk", None, None, "high"), id, t1, t1, reachable);
      var r2 := ToggleTodoStatus(r1.db, sid, parse, t2, reachable);
      var r3 := UpdateTodo(r2.db, sid, EmptyUpdate.(title := Some("Buy almond milk")), parse, t3, reachable);
      var r4 := DeleteTodo(r3.db, sid, parse, reachable);
      var r5 := GetTodoById(r4.db, sid, parse, reachable);
      && r1.Done? && !r1.value.completed && r1.value.priority == "high" && r1.value.id == id
      && r2.Done? && r2.value.Some? && r2.value.value.completed
      && r3.Done? && r3.value.Some? && r3.value.value.title == "Buy almond milk" && r3.value.value.completed
      && r4 == Done(r4.db, true)
      && r5 == Done(r4.db, None)
  {
    var c := TodoCreate("Buy milk", None, None, "high");
    var r1 := CreateTodo(db, c, id, t1, t1, reachable);
    var created := MemoryStore.Create(db.memory, c, id, t1, t1);
    assert r1.db.memory == created.store;
    MemoryStore.CreateThenFind(db.memory, c, id, t1, t1);
    MemoryStore.CreatePreservesValid(db.memory, c, id, t1, t1);

    var r2 := ToggleTodoStatus(r1.db, sid, parse, t2, reachable);
    MemoryStore.ToggleThenFind(r1.db.memory, id, t2);
    MemoryStore.UpdatePreservesValid(r1.db.memory, id, ToggleUpdate(r1.value), t2);

    var u := EmptyUpdate.(title := Some("Buy almond milk"));
    var r3 := UpdateTodo(r2.db, sid, u, parse, t3, reachable);
    assert MemoryStore.HasId(r2.db.memory, id);
    MemoryStore.UpdateThenFind(r2.db.memory, id, u, t3);
    MemoryStore.UpdatePreservesValid(r2.db.memory, id, u, t3);

    var r4 := DeleteTodo(r3.db, sid, parse, reachable);
    MemoryStore.DeleteThenFind(r3.db.memory, id);
  }

  /**
   The repository's final verification run: create a record, list, read it
   back, update title and `completed`, toggle, then create and delete a
   second record. The list grows by one, the read returns the created
   record, the update and the toggle see each other's effects, and only
   the second record is gone at the end.
   */
  lemma VerificationRun(db: Db, sid1: string, sid2: string, parse: IdParser, id1: ObjectId, id2: ObjectId,
                        t: Timestamp, reachable: bool)
    requires MemoryMode(db) && !MemoryStore.HasId(db.memory, id1) && !MemoryStore.HasId(db.memory, id2)
    requires id1 != id2 && parse(sid1) == Some(id1) && parse(sid2) == Some(id2)
    ensures var c := TodoCreate("Test Todo Item", Some("This is a test todo for verification"), None, "high");
      var r1 := CreateTodo(db, c, id1, t, t, reachable);
      var r2 := GetAllTodos(r1.db, reachable);
      var r3 := GetTodoById(r2.db, sid1, parse, reachable);
      var r4 := UpdateTodo(r3.db, sid1, EmptyUpdate.(title := Some("Updated Test Todo"), completed := Some(true)),
                           parse, t, reachable);
      var r5 := ToggleTodoStatus(r4.db, sid1, parse, t, reachable);
      var r6 := CreateTodo(r5.db, TodoCreate("Todo to Delete", None, None, DefaultPriority), id2, t, t, reachable);
      var r7 := DeleteTodo(r6.db, sid2, parse, reachable);
      var r8 := GetAllTodos(r7.db, reachable);
      && r2.Done? && |r2.value| == |db.memory| + 1
      && r3 == Done(r2.db, Some(r1.value))
      && r4.Done? && r4.value.Some? && r4.value.value.title == "Updated Test Todo" && r4.value.value.completed
      && r5.Done? && r5.value.Some? && r5.value.value.title == "Updated Test Todo" && !r5.value.value.completed
      && r7 == Done(r7.db, true)
      && r8.Done? && |r8.value| == |db.memory| + 1
      && MemoryStore.Find(r7.db.memory, id1) == r5.value
  {
    var c := TodoCreate("Test Todo Item", Some("This is a test todo for verification"), None, "high");
    var r1 := CreateTodo(db, c, id1, t, t, reachable);
    MemoryStore.CreateThenFind(db.memory, c, id1, t, t);
    MemoryStore.CreatePreservesValid(db.memory, c, id1, t, t);
    assert !MemoryStore.HasId(r1.db.memory, id2) by {
      assert forall i | 0 <= i < |db.memory| :: r1.db.memory[i] == db.memory[i];
    }

    var r2 := GetAllTodos(r1.db, reachable);
    var r3 := GetTodoById(r2.db, sid1, parse, reachable);

    var u := EmptyUpdate.(title := Some("Updated Test Todo"), completed := Some(true));
    var r4 := UpdateTodo(r3.db, sid1, u, parse, t, reachable);
    MemoryStore.UpdateThenFind(r3.db.memory, id1, u, t);
    MemoryStore.UpdatePreservesValid(r3.db.memory, id1, u, t);
    MemoryStore.UpdateKeepsOtherFinds(r3.db.memory, id1, u, t, id2);

    var r5 := ToggleTodoStatus(r4.db, sid1, parse, t, reachable);
    MemoryStore.ToggleThenFind(r4.db.memory, id1, t);
    MemoryStore.UpdatePreservesValid(r4.db.memory, id1, ToggleUpdate(r4.value.value), t);
    MemoryStore.UpdateKeepsOtherFinds(r4.db.memory, id1, ToggleUpdate(r4.value.value), t, id2);

    var c2 := TodoCreate("Todo to Delete", None, None, DefaultPriority);
    var r6 := CreateTodo(r5.db, c2, id2, t, t, reachable);
    MemoryStore.CreateThenFind(r5.db.memory, c2, id2, t, t);
    MemoryStore.CreateKeepsFinds(r5.db.memory, c2, id2, t, t, id1);

    var r7 := DeleteTodo(r6.db, sid2, parse, reachable);
    MemoryStore.DeleteKeepsOtherFinds(r6.db.memory, id2, id1);
  }
}
