/**
 The record shapes of the todo server: the stored item (`TodoItem`), the
 creation request (`TodoCreate`), the partial update (`TodoUpdate`), and the
 identifier validator they share (`PyObjectId.validate`).
 */
module Models {
  import opened Wrappers

  /** A bson ObjectId, abstracted to the number its twelve bytes encode. */
  datatype ObjectId = ObjectId(raw: nat)

  /** A naive UTC datetime, as a count of microseconds. */
  type Timestamp = int

  /**
   Parsing caller-supplied text into an id, as bson's `ObjectId(text)` does:
   None exactly when the constructor would raise (`ObjectId.is_valid` is false).
   The concrete hexadecimal format is not part of this model.
   */
  type IdParser = string -> Option<ObjectId>

  const DefaultPriority: string := "medium"

  /** A stored todo record. `id` is populated from the document's `_id` key. */
  datatype TodoItem = TodoItem(
    id: ObjectId,
    title: string,
    description: Option<string>,
    completed: bool,
    createdAt: Timestamp,
    updatedAt: Timestamp,
    dueDate: Option<Timestamp>,
    priority: string)

  /** The fields a caller supplies to create a record. Priority is free text. */
  datatype TodoCreate = TodoCreate(
    title: string,
    description: Option<string>,
    dueDate: Option<Timestamp>,
    priority: string)

  /**
   A partial update. A None field is skipped when the patch is applied; the
   source cannot tell "not mentioned" from "set to null".
   */
  datatype TodoUpdate = TodoUpdate(
    title: Option<string>,
    description: Option<string>,
    completed: Option<bool>,
    dueDate: Option<Timestamp>,
    priority: Option<string>)

  /** `TodoUpdate()`: every field left at its None default. */
  const EmptyUpdate: TodoUpdate := TodoUpdate(None, None, None, None, None)

  /** The patch sets no field at all. */
  predicate IsEmptyUpdate(u: TodoUpdate) {
    && u.title.None?
    && u.description.None?
    && u.completed.None?
    && u.dueDate.None?
    && u.priority.None?
  }

  /** What `PyObjectId.validate` may be handed. */
  datatype IdInput = GivenObjectId(oid: ObjectId) | GivenString(text: string) | GivenOther

  const InvalidObjectId: string := "Invalid ObjectId"

  /**
   `PyObjectId.validate`: an ObjectId passes through unchanged, a string is
   parsed when it is a valid id, and anything else is rejected with
   "Invalid ObjectId".
   */
  function Validate(v: IdInput, parse: IdParser): (r: Result<ObjectId, string>)
    ensures r.Success? <==> v.GivenObjectId? || (v.GivenString? && parse(v.text).Some?)
    ensures v.GivenObjectId? ==> r == Success(v.oid)
    ensures v.GivenString? && r.Success? ==> parse(v.text) == Some(r.value)
    ensures r.Failure? ==> r.error == InvalidObjectId
  {
    match v
    case GivenObjectId(oid) => Success(oid)
    case GivenString(text) =>
      if parse(text).Some? then Success(parse(text).value) else Failure(InvalidObjectId)
    case GivenOther => Failure(InvalidObjectId)
  }

  /** Validating an already validated id changes nothing. */
  lemma ValidateIdempotent(v: IdInput, parse: IdParser)
    requires Validate(v, parse).Success?
    ensures Validate(GivenObjectId(Validate(v, parse).value), parse) == Validate(v, parse)
  {
  }

  /**
   The record `create_todo` stores for a request: a new id, not completed,
   the two clock readings, and the caller's four fields.
   */
  function NewItem(c: TodoCreate, id: ObjectId, createdAt: Timestamp, updatedAt: Timestamp): (t: TodoItem)
    ensures t.id == id && !t.completed
    ensures t.createdAt == createdAt && t.updatedAt == updatedAt
    ensures t.title == c.title && t.description == c.description
    ensures t.dueDate == c.dueDate && t.priority == c.priority
  {
    TodoItem(id, c.title, c.description, false, createdAt, updatedAt, c.dueDate, c.priority)
  }

  /** `after` is the patch's value when it carries one, and `before` otherwise. */
  predicate Overwrites<T(==)>(before: T, patch: Option<T>, after: T) {
    match patch
    case Some(v) => after == v
    case None => after == before
  }

  /** The same for an optional field: a patch value `v` makes the field `Some(v)`. */
  predicate OverwritesOptional<T(==)>(before: Option<T>, patch: Option<T>, after: Option<T>) {
    match patch
    case Some(v) => after == Some(v)
    case None => after == before
  }

  /**
   Applying a patch to one record: exactly the non-None fields are
   overwritten, `updated_at` becomes `now`, and the id and `created_at` stay.
   */
  function ApplyUpdate(t: TodoItem, u: TodoUpdate, now: Timestamp): (r: TodoItem)
    ensures r.id == t.id && r.createdAt == t.createdAt && r.updatedAt == now
    ensures Overwrites(t.title, u.title, r.title)
    ensures OverwritesOptional(t.description, u.description, r.description)
    ensures Overwrites(t.completed, u.completed, r.completed)
    ensures OverwritesOptional(t.dueDate, u.dueDate, r.dueDate)
    ensures Overwrites(t.priority, u.priority, r.priority)
  {
    TodoItem(
      t.id,
      if u.title.Some? then u.title.value else t.title,
      if u.description.Some? then u.description else t.description,
      if u.completed.Some? then u.completed.value else t.completed,
      t.createdAt,
      now,
      if u.dueDate.Some? then u.dueDate else t.dueDate,
      if u.priority.Some? then u.priority.value else t.priority)
  }

  /** The patch `toggle_todo_status` builds: only `completed`, set to its negation. */
  function ToggleUpdate(t: TodoItem): (u: TodoUpdate)
    ensures !IsEmptyUpdate(u)
    ensures u.completed == Some(!t.completed)
  {
    EmptyUpdate.(completed := Some(!t.completed))
  }

  /** Applying the toggle patch flips `completed` and refreshes `updated_at`, and nothing else. */
  lemma ToggleUpdateFlipsOnly(t: TodoItem, now: Timestamp)
    ensures ApplyUpdate(t, ToggleUpdate(t), now) == t.(completed := !t.completed, updatedAt := now)
  {
  }
}
