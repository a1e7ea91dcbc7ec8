/**
 The in-memory backend of `TodoDatabase`: a list of records in insertion
 order, with the operations the database runs against it once the
 identifier has been parsed. Every operation is a pure function from the
 old list to the new list and the value the database returns.
 */
module MemoryStore {
  import opened Wrappers
  import opened Models

  type Store = seq<TodoItem>

  /** The list after an operation, and what the operation returned. */
  datatype Reply<T> = Reply(store: Store, value: T)

  predicate HasId(s: Store, id: ObjectId) {
    exists i | 0 <= i < |s| :: s[i].id == id
  }

  /** No two records share an id. */
  predicate DistinctIds(s: Store) {
    forall i, j | 0 <= i < j < |s| :: s[i].id != s[j].id
  }

  /** No record was updated before it was created. */
  predicate TimesOrdered(s: Store) {
    forall i | 0 <= i < |s| :: s[i].createdAt <= s[i].updatedAt
  }

  /** The invariant the operations keep. */
  predicate Valid(s: Store) {
    DistinctIds(s) && TimesOrdered(s)
  }

  /** A clock reading no earlier than the creation of any stored record. */
  predicate ClockNotBefore(s: Store, now: Timestamp) {
    forall i | 0 <= i < |s| :: s[i].createdAt <= now
  }

  /** The position of the first record with the given id, as the source's scan finds it. */
  function FirstIndex(s: Store, id: ObjectId): (r: Option<nat>)
    ensures r.None? <==> !HasId(s, id)
    ensures r.Some? ==> r.value < |s| && s[r.value].id == id
    ensures r.Some? ==> forall j | 0 <= j < r.value :: s[j].id != id
  {
    if |s| == 0 then None
    else if s[0].id == id then Some(0)
    else
      match FirstIndex(s[1..], id)
      case None =>
        assert forall i | 1 <= i < |s| :: s[i] == s[1..][i - 1];
        None
      case Some(k) =>
        assert s[k + 1] == s[1..][k];
        assert forall j | 1 <= j < k + 1 :: s[j] == s[1..][j - 1];
        Some(k + 1)
  }

  /** The first index is determined by the ids alone: any first match is it. */
  lemma FirstIndexIsFirstMatch(s: Store, id: ObjectId, i: nat)
    requires i < |s| && s[i].id == id
    requires forall j | 0 <= j < i :: s[j].id != id
    ensures FirstIndex(s, id) == Some(i)
  {
  }

  /** `get_todo_by_id` on the memory list: the first record with the id, if any. */
  function Find(s: Store, id: ObjectId): (r: Option<TodoItem>)
    ensures r.Some? <==> HasId(s, id)
    ensures r.Some? ==> r.value.id == id && r.value in s
    ensures r.Some? ==> exists i | 0 <= i < |s| :: s[i] == r.value && forall j | 0 <= j < i :: s[j].id != id
  {
    match FirstIndex(s, id)
    case None => None
    case Some(i) => Some(s[i])
  }

  /** With distinct ids, every stored record is found by its own id. */
  lemma FindStored(s: Store, i: nat)
    requires DistinctIds(s) && i < |s|
    ensures Find(s, s[i].id) == Some(s[i])
  {
    FirstIndexIsFirstMatch(s, s[i].id, i);
  }

  /** `create_todo` on the memory list: the new record is appended at the end. */
  function Create(s: Store, c: TodoCreate, id: ObjectId, createdAt: Timestamp, updatedAt: Timestamp)
    : (r: Reply<TodoItem>)
    ensures |r.store| == |s| + 1 && r.store[..|s|] == s && r.store[|s|] == r.value
    ensures r.value.id == id && !r.value.completed
    ensures r.value.createdAt == createdAt && r.value.updatedAt == updatedAt
    ensures r.value.title == c.title && r.value.description == c.description
    ensures r.value.dueDate == c.dueDate && r.value.priority == c.priority
  {
    var t := NewItem(c, id, createdAt, updatedAt);
    Reply(s + [t], t)
  }

  /** `get_all_todos` on the memory list: every record, in insertion order. */
  function GetAll(s: Store): (r: Reply<seq<TodoItem>>)
    ensures r.store == s
    ensures |r.value| == |s| && forall i | 0 <= i < |s| :: r.value[i] == s[i]
  {
    Reply(s, s)
  }

  /**
   `update_todo` on the memory list, for an already parsed id: an empty
   patch or a missing id leaves the list alone and returns None; otherwise
   the first record with the id is patched in place and returned.
   */
  function Update(s: Store, id: ObjectId, u: TodoUpdate, now: Timestamp): (r: Reply<Option<TodoItem>>)
    ensures |r.store| == |s|
    ensures IsEmptyUpdate(u) || !HasId(s, id) ==> r == Reply(s, None)
    ensures !IsEmptyUpdate(u) && HasId(s, id) ==>
      var i := FirstIndex(s, id).value;
      && r.value == Some(ApplyUpdate(s[i], u, now))
      && r.store[i] == r.value.value
      && forall j | 0 <= j < |s| && j != i :: r.store[j] == s[j]
  {
    if IsEmptyUpdate(u) then Reply(s, None)
    else
      match FirstIndex(s, id)
      case None => Reply(s, None)
      case Some(i) =>
        var t := ApplyUpdate(s[i], u, now);
        Reply(s[i := t], Some(t))
  }

  /**
   `delete_todo` on the memory list: removes the first record with the id
   and reports whether there was one.
   */
  function Delete(s: Store, id: ObjectId): (r: Reply<bool>)
    ensures r.value <==> HasId(s, id)
    ensures !r.value ==> r.store == s
    ensures r.value ==>
      var i := FirstIndex(s, id).value;
      && |r.store| == |s| - 1
      && (forall j | 0 <= j < i :: r.store[j] == s[j])
      && (forall j | i < j < |s| :: r.store[j - 1] == s[j])
  {
    match FirstIndex(s, id)
    case None => Reply(s, false)
    case Some(i) => Reply(s[..i] + s[i + 1..], true)
  }

  /**
   `toggle_todo_status` on the memory list: read the record, then update it
   with the patch that sets `completed` to its negation.
   */
  function Toggle(s: Store, id: ObjectId, now: Timestamp): (r: Reply<Option<TodoItem>>)
    ensures r.value.Some? <==> HasId(s, id)
    ensures !HasId(s, id) ==> r.store == s
    ensures HasId(s, id) ==>
      var t := Find(s, id).value;
      r.value == Some(t.(completed := !t.completed, updatedAt := now))
    ensures HasId(s, id) ==>
      var i := FirstIndex(s, id).value;
      && |r.store| == |s|
      && r.store[i] == r.value.value
      && forall j | 0 <= j < |s| && j != i :: r.store[j] == s[j]
  {
    match Find(s, id)
    case None => Reply(s, None)
    case Some(t) =>
      ToggleUpdateFlipsOnly(t, now);
      Update(s, id, ToggleUpdate(t), now)
  }

  // Properties relating the operations.

  /** Appending a record with a fresh id keeps the ids distinct and the timestamps ordered. */
  lemma CreatePreservesValid(s: Store, c: TodoCreate, id: ObjectId, createdAt: Timestamp, updatedAt: Timestamp)
    requires Valid(s) && !HasId(s, id) && createdAt <= updatedAt
    ensures Valid(Create(s, c, id, createdAt, updatedAt).store)
  {
    var s' := Create(s, c, id, createdAt, updatedAt).store;
    forall i, j | 0 <= i < j < |s'|
      ensures s'[i].id != s'[j].id
    {
      if j == |s| {
        assert s'[i] == s[i];
      } else {
        assert s'[i] == s[i] && s'[j] == s[j];
      }
    }
    assert forall i | 0 <= i < |s| :: s'[i] == s[i];
  }

  /** After creating with a fresh id, looking that id up finds the new record. */
  lemma CreateThenFind(s: Store, c: TodoCreate, id: ObjectId, createdAt: Timestamp, updatedAt: Timestamp)
    requires !HasId(s, id)
    ensures var r := Create(s, c, id, createdAt, updatedAt); Find(r.store, id) == Some(r.value)
  {
    var r := Create(s, c, id, createdAt, updatedAt);
    FirstIndexIsFirstMatch(r.store, id, |s|);
  }

  /** Creating a record does not change what any id already present finds. */
  lemma CreateKeepsFinds(s: Store, c: TodoCreate, id: ObjectId, createdAt: Timestamp, updatedAt: Timestamp, other: ObjectId)
    requires HasId(s, other)
    ensures Find(Create(s, c, id, createdAt, updatedAt).store, other) == Find(s, other)
  {
    var s' := Create(s, c, id, createdAt, updatedAt).store;
    var k := FirstIndex(s, other).value;
    FirstIndexIsFirstMatch(s', other, k);
  }

  /** A successful update is what a later lookup of the same id finds. */
  lemma UpdateThenFind(s: Store, id: ObjectId, u: TodoUpdate, now: Timestamp)
    requires !IsEmptyUpdate(u) && HasId(s, id)
    ensures var r := Update(s, id, u, now); Find(r.store, id) == r.value
  {
    var r := Update(s, id, u, now);
    var i := FirstIndex(s, id).value;
    FirstIndexIsFirstMatch(r.store, id, i);
  }

  /** An update does not change what any other id finds. */
  lemma UpdateKeepsOtherFinds(s: Store, id: ObjectId, u: TodoUpdate, now: Timestamp, other: ObjectId)
    requires other != id
    ensures Find(Update(s, id, u, now).store, other) == Find(s, other)
  {
    var r := Update(s, id, u, now);
    if !IsEmptyUpdate(u) && HasId(s, id) {
      var i := FirstIndex(s, id).value;
      assert forall j | 0 <= j < |s| :: r.store[j].id == s[j].id;
      if HasId(s, other) {
        var k := FirstIndex(s, other).value;
        FirstIndexIsFirstMatch(r.store, other, k);
      } else {
        assert !HasId(r.store, other);
      }
    }
  }

  /** An update keeps the ids distinct, and keeps the invariant when its clock reading is not before any creation. */
  lemma UpdatePreservesValid(s: Store, id: ObjectId, u: TodoUpdate, now: Timestamp)
    ensures DistinctIds(s) ==> DistinctIds(Update(s, id, u, now).store)
    ensures Valid(s) && ClockNotBefore(s, now) ==> Valid(Update(s, id, u, now).store)
  {
    var r := Update(s, id, u, now);
    assert forall j | 0 <= j < |s| :: r.store[j].id == s[j].id;
  }

  /** With distinct ids, a deleted id is gone: a later lookup finds nothing. */
  lemma DeleteThenFind(s: Store, id: ObjectId)
    requires DistinctIds(s)
    ensures !HasId(Delete(s, id).store, id)
  {
    var r := Delete(s, id);
    if r.value {
      var i := FirstIndex(s, id).value;
      forall j | 0 <= j < |r.store|
        ensures r.store[j].id != id
      {
        if j < i {
          assert r.store[j] == s[j];
        } else {
          assert r.store[j] == s[j + 1];
        }
      }
    }
  }

  /** Deleting keeps the invariant. */
  lemma DeletePreservesValid(s: Store, id: ObjectId)
    requires Valid(s)
    ensures Valid(Delete(s, id).store)
  {
    var r := Delete(s, id);
    if r.value {
      var i := FirstIndex(s, id).value;
      assert forall j | 0 <= j < |r.store| :: r.store[j] == (if j < i then s[j] else s[j + 1]);
    }
  }

  /** Removing a record whose id is not `other` does not change what `other` finds. */
  lemma FindAfterRemoval(s: Store, i: nat, other: ObjectId)
    requires i < |s| && s[i].id != other
    ensures Find(s[..i] + s[i + 1..], other) == Find(s, other)
  {
    var s' := s[..i] + s[i + 1..];
    assert forall j | 0 <= j < i :: s'[j] == s[j];
    assert forall j | i <= j < |s'| :: s'[j] == s[j + 1];
    if HasId(s, other) {
      var k := FirstIndex(s, other).value;
      if k < i {
        FirstIndexIsFirstMatch(s', other, k);
      } else {
        FirstIndexIsFirstMatch(s', other, k - 1);
      }
    } else {
      assert !HasId(s', other);
    }
  }

  /** Deleting one id does not change what any other id finds. */
  lemma DeleteKeepsOtherFinds(s: Store, id: ObjectId, other: ObjectId)
    requires other != id
    ensures Find(Delete(s, id).store, other) == Find(s, other)
  {
    if HasId(s, id) {
      FindAfterRemoval(s, FirstIndex(s, id).value, other);
    }
  }

  /** Toggling changes only `completed` and `updated_at` of the toggled record. */
  lemma ToggleThenFind(s: Store, id: ObjectId, now: Timestamp)
    requires HasId(s, id)
    ensures var t := Find(s, id).value;
            Find(Toggle(s, id, now).store, id) == Some(t.(completed := !t.completed, updatedAt := now))
  {
    var t := Find(s, id).value;
    UpdateThenFind(s, id, ToggleUpdate(t), now);
  }

  /** Toggling twice restores `completed`; only `updated_at` is left changed. */
  lemma ToggleTwiceRestores(s: Store, id: ObjectId, now1: Timestamp, now2: Timestamp)
    requires HasId(s, id)
    ensures var r1 := Toggle(s, id, now1);
            var r2 := Toggle(r1.store, id, now2);
            r2.value == Some(Find(s, id).value.(updatedAt := now2))
  {
    var r1 := Toggle(s, id, now1);
    ToggleThenFind(s, id, now1);
    assert HasId(r1.store, id);
  }
}
