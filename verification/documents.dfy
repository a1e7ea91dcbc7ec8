/**
 The dictionary layer under the records: the documents the memory store
 keeps, the `.dict()` views of the request models, the filtered update
 dictionary, and pydantic's construction of a model from keyword arguments
 (`TodoItem(**doc)`, `TodoCreate(...)`, `TodoUpdate(...)`). It is the
 independent reference against which the record-level operations are
 checked.
 */
module Documents {
  import opened Wrappers
  import opened Models

  /** The keys of a todo document; `IdKey` is the `_id` key. */
  datatype Key =
    | IdKey | TitleKey | DescriptionKey | CompletedKey
    | CreatedAtKey | UpdatedAtKey | DueDateKey | PriorityKey

  /** The values a todo document holds; `Null` is Python's None. */
  datatype Value = Null | Str(s: string) | Bool(b: bool) | Time(t: Timestamp) | Oid(oid: ObjectId)

  type Doc = map<Key, Value>

  /** Why pydantic rejects keyword arguments. */
  datatype ValidationError = Missing(key: Key) | WrongType(key: Key) | BadId(message: string)

  const ItemKeys: set<Key> :=
    {IdKey, TitleKey, DescriptionKey, CompletedKey, CreatedAtKey, UpdatedAtKey, DueDateKey, PriorityKey}

  const UpdateKeys: set<Key> := {TitleKey, DescriptionKey, CompletedKey, DueDateKey, PriorityKey}

  function StrOrNull(o: Option<string>): Value {
    match o
    case Some(s) => Str(s)
    case None => Null
  }

  function BoolOrNull(o: Option<bool>): Value {
    match o
    case Some(b) => Bool(b)
    case None => Null
  }

  function TimeOrNull(o: Option<Timestamp>): Value {
    match o
    case Some(t) => Time(t)
    case None => Null
  }

  /** The document that holds a record, with all eight keys. */
  function ItemDoc(t: TodoItem): (d: Doc)
    ensures d.Keys == ItemKeys
  {
    map[
      IdKey := Oid(t.id),
      TitleKey := Str(t.title),
      DescriptionKey := StrOrNull(t.description),
      CompletedKey := Bool(t.completed),
      CreatedAtKey := Time(t.createdAt),
      UpdatedAtKey := Time(t.updatedAt),
      DueDateKey := TimeOrNull(t.dueDate),
      PriorityKey := Str(t.priority)]
  }

  /** `TodoCreate.dict()`. */
  function CreateDict(c: TodoCreate): (d: Doc)
    ensures d.Keys == {TitleKey, DescriptionKey, DueDateKey, PriorityKey}
  {
    map[
      TitleKey := Str(c.title),
      DescriptionKey := StrOrNull(c.description),
      DueDateKey := TimeOrNull(c.dueDate),
      PriorityKey := Str(c.priority)]
  }

  /** `TodoUpdate.dict()`: all five keys, None fields as `Null`. */
  function UpdateDict(u: TodoUpdate): (d: Doc)
    ensures d.Keys == UpdateKeys
  {
    map[
      TitleKey := StrOrNull(u.title),
      DescriptionKey := StrOrNull(u.description),
      CompletedKey := BoolOrNull(u.completed),
      DueDateKey := TimeOrNull(u.dueDate),
      PriorityKey := StrOrNull(u.priority)]
  }

  /** The entries of a dictionary whose value is not None. */
  function DropNulls(d: Doc): (r: Doc)
    ensures forall k :: k in r <==> k in d && d[k] != Null
    ensures forall k | k in r :: r[k] == d[k]
  {
    map k | k in d && d[k] != Null :: d[k]
  }

  /** Dropping the nulls of a patch leaves nothing exactly when the patch is empty. */
  lemma DropNullsEmptyIff(u: TodoUpdate)
    ensures DropNulls(UpdateDict(u)) == map[] <==> IsEmptyUpdate(u)
  {
    var d := UpdateDict(u);
    if !IsEmptyUpdate(u) {
      var k :=
        if u.title.Some? then TitleKey
        else if u.description.Some? then DescriptionKey
        else if u.completed.Some? then CompletedKey
        else if u.dueDate.Some? then DueDateKey
        else PriorityKey;
      assert k in DropNulls(d);
    }
  }

  /** The `update_data` dictionary of `update_todo`: the non-null patch fields and a fresh `updated_at`. */
  function UpdateData(u: TodoUpdate, now: Timestamp): (p: Doc)
    ensures p.Keys <= ItemKeys && IdKey !in p && CreatedAtKey !in p
    ensures UpdatedAtKey in p && p[UpdatedAtKey] == Time(now)
    ensures p.Keys == {UpdatedAtKey} <==> IsEmptyUpdate(u)
  {
    var q := DropNulls(UpdateDict(u));
    DropNullsEmptyIff(u);
    assert UpdatedAtKey !in q;
    if IsEmptyUpdate(u) then
      assert q.Keys == {};
      q[UpdatedAtKey := Time(now)]
    else
      var k :| k in q;
      assert k in q[UpdatedAtKey := Time(now)] && k != UpdatedAtKey;
      q[UpdatedAtKey := Time(now)]
  }

  /** The document `create_todo` builds: the request's dict, both clock readings, `completed`, and the new `_id`. */
  function CreateDoc(c: TodoCreate, id: ObjectId, createdAt: Timestamp, updatedAt: Timestamp): (d: Doc)
    ensures d.Keys == ItemKeys
    ensures d[IdKey] == Oid(id) && d[CompletedKey] == Bool(false)
    ensures d[CreatedAtKey] == Time(createdAt) && d[UpdatedAtKey] == Time(updatedAt)
    ensures d[TitleKey] == Str(c.title) && d[PriorityKey] == Str(c.priority)
  {
    CreateDict(c)[CreatedAtKey := Time(createdAt)][UpdatedAtKey := Time(updatedAt)]
      [CompletedKey := Bool(false)][IdKey := Oid(id)]
  }

  // Field readers of pydantic validation: an absent key takes the field's default.

  function RequiredStr(d: Doc, k: Key): Result<string, ValidationError> {
    if k !in d then Failure(Missing(k))
    else if d[k].Str? then Success(d[k].s)
    else Failure(WrongType(k))
  }

  function StrField(d: Doc, k: Key, default: string): Result<string, ValidationError> {
    if k !in d then Success(default)
    else if d[k].Str? then Success(d[k].s)
    else Failure(WrongType(k))
  }

  function OptionalStr(d: Doc, k: Key): Result<Option<string>, ValidationError> {
    if k !in d || d[k] == Null then Success(None)
    else if d[k].Str? then Success(Some(d[k].s))
    else Failure(WrongType(k))
  }

  function BoolField(d: Doc, k: Key, default: bool): Result<bool, ValidationError> {
    if k !in d then Success(default)
    else if d[k].Bool? then Success(d[k].b)
    else Failure(WrongType(k))
  }

  function OptionalBool(d: Doc, k: Key): Result<Option<bool>, ValidationError> {
    if k !in d || d[k] == Null then Success(None)
    else if d[k].Bool? then Success(Some(d[k].b))
    else Failure(WrongType(k))
  }

  function TimeField(d: Doc, k: Key, default: Timestamp): Result<Timestamp, ValidationError> {
    if k !in d then Success(default)
    else if d[k].Time? then Success(d[k].t)
    else Failure(WrongType(k))
  }

  function OptionalTime(d: Doc, k: Key): Result<Option<Timestamp>, ValidationError> {
    if k !in d || d[k] == Null then Success(None)
    else if d[k].Time? then Success(Some(d[k].t))
    else Failure(WrongType(k))
  }

  /** The `_id` field: validated by `PyObjectId.validate`, a fresh id when absent. */
  function IdField(d: Doc, parse: IdParser, freshId: ObjectId): Result<ObjectId, ValidationError> {
    if IdKey !in d then Success(freshId)
    else
      var given := match d[IdKey]
        case Oid(o) => GivenObjectId(o)
        case Str(s) => GivenString(s)
        case _ => GivenOther;
      match Validate(given, parse)
      case Success(o) => Success(o)
      case Failure(message) => Failure(BadId(message))
  }

  /**
   `TodoItem(**d)`. `freshId` and `now` stand for the default factories
   (a new ObjectId, `datetime.utcnow()`) used for an absent `_id` or timestamp.
   */
  function ItemFromDoc(d: Doc, parse: IdParser, now: Timestamp, freshId: ObjectId): (r: Result<TodoItem, ValidationError>)
    ensures TitleKey !in d ==> r == Failure(Missing(TitleKey))
    ensures r.Success? ==> TitleKey in d && d[TitleKey] == Str(r.value.title)
  {
    var title :- RequiredStr(d, TitleKey);
    var id :- IdField(d, parse, freshId);
    var description :- OptionalStr(d, DescriptionKey);
    var completed :- BoolField(d, CompletedKey, false);
    var createdAt :- TimeField(d, CreatedAtKey, now);
    var updatedAt :- TimeField(d, UpdatedAtKey, now);
    var dueDate :- OptionalTime(d, DueDateKey);
    var priority :- StrField(d, PriorityKey, DefaultPriority);
    Success(TodoItem(id, title, description, completed, createdAt, updatedAt, dueDate, priority))
  }

  /** `TodoCreate(**d)`: title required, the other fields optional with their defaults. */
  function CreateFromDoc(d: Doc): (r: Result<TodoCreate, ValidationError>)
    ensures TitleKey !in d ==> r == Failure(Missing(TitleKey))
    ensures r.Success? ==> TitleKey in d && d[TitleKey] == Str(r.value.title)
  {
    var title :- RequiredStr(d, TitleKey);
    var description :- OptionalStr(d, DescriptionKey);
    var dueDate :- OptionalTime(d, DueDateKey);
    var priority :- StrField(d, PriorityKey, DefaultPriority);
    Success(TodoCreate(title, description, dueDate, priority))
  }

  /** `TodoUpdate(**d)`: every field optional, absent or null meaning None. */
  function UpdateFromDoc(d: Doc): (r: Result<TodoUpdate, ValidationError>)
    ensures (forall k | k in d :: d[k] == Null) ==> r == Success(EmptyUpdate)
  {
    var title :- OptionalStr(d, TitleKey);
    var description :- OptionalStr(d, DescriptionKey);
    var completed :- OptionalBool(d, CompletedKey);
    var dueDate :- OptionalTime(d, DueDateKey);
    var priority :- OptionalStr(d, PriorityKey);
    Success(TodoUpdate(title, description, completed, dueDate, priority))
  }

  /** A stored document reads back as the record it was built from. */
  lemma ItemDocRoundTrip(t: TodoItem, parse: IdParser, now: Timestamp, freshId: ObjectId)
    ensures ItemFromDoc(ItemDoc(t), parse, now, freshId) == Success(t)
  {
  }

  /** `TodoCreate(**c.dict())` gives back `c`. */
  lemma CreateDictRoundTrip(c: TodoCreate)
    ensures CreateFromDoc(CreateDict(c)) == Success(c)
  {
  }

  /** `TodoUpdate(**u.dict())` gives back `u`. */
  lemma UpdateDictRoundTrip(u: TodoUpdate)
    ensures UpdateFromDoc(UpdateDict(u)) == Success(u)
  {
  }

  /**
   `TodoItem(title=t)`: not completed, priority "medium", no description, no
   due date, both timestamps from the clock and a freshly generated id.
   */
  lemma ItemDefaults(title: string, parse: IdParser, now: Timestamp, freshId: ObjectId)
    ensures ItemFromDoc(map[TitleKey := Str(title)], parse, now, freshId)
         == Success(TodoItem(freshId, title, None, false, now, now, None, DefaultPriority))
  {
  }

  /**
   `TodoCreate(title=t)` defaults priority to "medium", and any other
   priority text is accepted unchanged: there is no low/medium/high check.
   */
  lemma CreateDefaults(title: string, priority: string)
    ensures CreateFromDoc(map[TitleKey := Str(title)]) == Success(TodoCreate(title, None, None, DefaultPriority))
    ensures CreateFromDoc(map[TitleKey := Str(title), PriorityKey := Str(priority)])
         == Success(TodoCreate(title, None, None, priority))
  {
  }

  /** `TodoUpdate()` is exactly the empty patch. */
  lemma UpdateDefaults()
    ensures UpdateFromDoc(map[]) == Success(EmptyUpdate)
    ensures IsEmptyUpdate(EmptyUpdate)
  {
  }

  /**
   The record `create_todo` returns, `TodoItem(**todo_dict)`, carries the
   generated id (read through the `_id` alias) and is `NewItem` of the request.
   */
  lemma CreateDocIsNewItem(c: TodoCreate, id: ObjectId, createdAt: Timestamp, updatedAt: Timestamp,
                           parse: IdParser, now: Timestamp, freshId: ObjectId)
    ensures CreateDoc(c, id, createdAt, updatedAt) == ItemDoc(NewItem(c, id, createdAt, updatedAt))
    ensures ItemFromDoc(CreateDoc(c, id, createdAt, updatedAt), parse, now, freshId)
         == Success(NewItem(c, id, createdAt, updatedAt))
  {
  }

  /** Which keys the update data carries, and with what values. */
  lemma UpdateDataKeys(u: TodoUpdate, now: Timestamp)
    ensures var p := UpdateData(u, now);
      && IdKey !in p && CreatedAtKey !in p && p[UpdatedAtKey] == Time(now)
      && (TitleKey in p <==> u.title.Some?) && (u.title.Some? ==> p[TitleKey] == Str(u.title.value))
      && (DescriptionKey in p <==> u.description.Some?)
      && (u.description.Some? ==> p[DescriptionKey] == Str(u.description.value))
      && (CompletedKey in p <==> u.completed.Some?)
      && (u.completed.Some? ==> p[CompletedKey] == Bool(u.completed.value))
      && (DueDateKey in p <==> u.dueDate.Some?) && (u.dueDate.Some? ==> p[DueDateKey] == Time(u.dueDate.value))
      && (PriorityKey in p <==> u.priority.Some?) && (u.priority.Some? ==> p[PriorityKey] == Str(u.priority.value))
  {
    var d := UpdateDict(u);
    assert d[TitleKey] == StrOrNull(u.title);
    assert d[DescriptionKey] == StrOrNull(u.description);
    assert d[CompletedKey] == BoolOrNull(u.completed);
    assert d[DueDateKey] == TimeOrNull(u.dueDate);
    assert d[PriorityKey] == StrOrNull(u.priority);
  }

  /** One entry of the updated document: the patch's value where it sets one, the record's otherwise. */
  lemma DictUpdateAt(t: TodoItem, u: TodoUpdate, now: Timestamp, k: Key)
    ensures k in ItemDoc(t) + UpdateData(u, now)
    ensures (ItemDoc(t) + UpdateData(u, now))[k] == ItemDoc(ApplyUpdate(t, u, now))[k]
  {
    var p := UpdateData(u, now);
    var r := ApplyUpdate(t, u, now);
    UpdateDataKeys(u, now);
    match k
    case IdKey => assert IdKey !in p;
    case CreatedAtKey => assert CreatedAtKey !in p;
    case UpdatedAtKey => assert p[k] == Time(r.updatedAt);
    case TitleKey => assert ItemDoc(r)[k] == Str(r.title);
    case DescriptionKey => assert ItemDoc(r)[k] == StrOrNull(r.description);
    case CompletedKey => assert ItemDoc(r)[k] == Bool(r.completed);
    case DueDateKey => assert ItemDoc(r)[k] == TimeOrNull(r.dueDate);
    case PriorityKey => assert ItemDoc(r)[k] == Str(r.priority);
  }

  /** The in-place `doc.update(update_data)` on a stored document gives the stored document of the patched record. */
  lemma DictUpdateIsItemDoc(t: TodoItem, u: TodoUpdate, now: Timestamp)
    ensures ItemDoc(t) + UpdateData(u, now) == ItemDoc(ApplyUpdate(t, u, now))
  {
    var d := ItemDoc(t) + UpdateData(u, now);
    var e := ItemDoc(ApplyUpdate(t, u, now));
    forall k
      ensures k in d && d[k] == e[k]
    {
      DictUpdateAt(t, u, now, k);
    }
    assert d.Keys == e.Keys;
  }

  /**
   The memory store's in-place `doc.update(update_data)` followed by
   `TodoItem(**doc)` is exactly the record-level `ApplyUpdate`.
   */
  lemma DictUpdateIsApplyUpdate(t: TodoItem, u: TodoUpdate, now: Timestamp,
                                parse: IdParser, clock: Timestamp, freshId: ObjectId)
    ensures ItemDoc(t) + UpdateData(u, now) == ItemDoc(ApplyUpdate(t, u, now))
    ensures ItemFromDoc(ItemDoc(t) + UpdateData(u, now), parse, clock, freshId)
         == Success(ApplyUpdate(t, u, now))
  {
    DictUpdateIsItemDoc(t, u, now);
    ItemDocRoundTrip(ApplyUpdate(t, u, now), parse, clock, freshId);
  }
}
