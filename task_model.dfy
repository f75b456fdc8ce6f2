/** The task schema: the record the store keeps for each task, the partial
    documents that create and update it, and how the schema turns a partial
    document into a record (required paths, optional paths, defaults). */
module TaskModel {
  import opened Api

  /** A deadline as the store gives it back. */
  type Date = string

  /** A stored task: `title` and `owner` are required, `description` and
      `deadline` may be absent, `isCompleted` has a default. */
  datatype Task = Task(
    _id: ObjectId,
    title: string,
    description: Option<string>,
    isCompleted: bool,
    deadline: Option<Date>,
    owner: ObjectId)

  /** A partial task document: the object given to `Task.create`, or the
      object under `$set` in an update. Every path may be absent. */
  datatype TaskFields = TaskFields(
    title: Option<string>,
    description: Option<string>,
    isCompleted: Option<bool>,
    deadline: Option<Date>,
    owner: Option<ObjectId>)

  /** The partial document with no path set. */
  const NoFields := TaskFields(None, None, None, None, None)

  predicate IsEmpty(f: TaskFields) {
    f == NoFields
  }

  /** The record the schema builds from a document, or None when a required
      path is missing. */
  function Construct(id: ObjectId, f: TaskFields): (r: Option<Task>)
    ensures r.Some? <==> f.title.Some? && f.owner.Some?
    ensures r.Some? ==> r.value._id == id
  {
    if f.title.None? || f.owner.None? then None
    else Some(Task(id, f.title.value, f.description, f.isCompleted.GetOr(false),
                   f.deadline, f.owner.value))
  }

  /** The document holding every path of a stored task. */
  function FieldsOf(t: Task): TaskFields {
    TaskFields(Some(t.title), t.description, Some(t.isCompleted), t.deadline, Some(t.owner))
  }

  /** `$set`: every path present in `f` replaces the stored value; the
      identifier and every absent path keep theirs. */
  function SetFields(t: Task, f: TaskFields): (r: Task)
    ensures r._id == t._id
  {
    Task(t._id,
         f.title.GetOr(t.title),
         if f.description.Some? then f.description else t.description,
         f.isCompleted.GetOr(t.isCompleted),
         if f.deadline.Some? then f.deadline else t.deadline,
         f.owner.GetOr(t.owner))
  }

  /** A record built from a document without `isCompleted` is not completed. */
  lemma CompletedDefaultsToFalse(id: ObjectId, f: TaskFields)
    requires f.title.Some? && f.owner.Some? && f.isCompleted.None?
    ensures Construct(id, f) == Some(Task(id, f.title.value, f.description, false, f.deadline, f.owner.value))
  {
  }

  /** Optional paths left out of a document stay absent in the record. */
  lemma OptionalPathsStayAbsent(id: ObjectId, f: TaskFields)
    requires Construct(id, f).Some?
    ensures f.description.None? ==> Construct(id, f).value.description.None?
    ensures f.deadline.None? ==> Construct(id, f).value.deadline.None?
  {
  }

  /** A record holds nothing beyond its schema paths: rebuilding it from its
      own paths gives it back. */
  lemma FieldsRoundTrip(t: Task)
    ensures Construct(t._id, FieldsOf(t)) == Some(t)
  {
  }

  /** An empty `$set` changes nothing, and applying the same `$set` twice is
      applying it once. */
  lemma SetFieldsLaws(t: Task, f: TaskFields)
    ensures SetFields(t, NoFields) == t
    ensures SetFields(SetFields(t, f), f) == SetFields(t, f)
  {
  }
}
