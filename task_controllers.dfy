/** The task handlers: list, create, update and delete over the task
    collection, every read and write scoped to the requesting user as owner. */
module TaskControllers {
  import opened Api
  import opened Text
  import opened TaskModel

  /** The fields of a create request body. */
  datatype CreateBody = CreateBody(title: Option<string>, description: Option<string>, deadline: Option<Date>)

  /** The fields of an update request body. */
  datatype UpdateBody = UpdateBody(
    title: Option<string>,
    description: Option<string>,
    deadline: Option<Date>,
    isCompleted: Option<bool>)

  const TitleRequired := ApiError(400, "title is required")
  const InvalidTaskId := ApiError(400, "Invalid task ID")
  const NothingToUpdate := ApiError(400, "At least one field is required to update")
  const TaskNotFound := ApiError(404, "Task not found")
  const TaskNotFoundOrNotOwned := ApiError(404, "Task not found or you do not have permission to delete it")

  /** The update check: none of the four updatable fields is in the body. */
  predicate NoFieldSupplied(body: UpdateBody): (r: bool)
    ensures r <==> body == UpdateBody(None, None, None, None)
  {
    body.title.None? && body.description.None? && body.deadline.None? && body.isCompleted.None?
  }

  /** The `$set` object of an update: exactly the fields the body supplies. */
  function UpdateFieldsOf(body: UpdateBody): (f: TaskFields)
    ensures f.owner.None?
    ensures IsEmpty(f) <==> NoFieldSupplied(body)
  {
    TaskFields(body.title, body.description, body.isCompleted, body.deadline, None)
  }

  /** The filter `{_id: id, owner}`, as a lookup by key: the row exists and
      belongs to `owner`. */
  predicate OwnedRow(tasks: map<ObjectId, Task>, id: ObjectId, owner: ObjectId) {
    id in tasks && tasks[id].owner == owner
  }

  /** In a collection where every row is stored under its own identifier, the
      lookup by key finds a row exactly when some stored task has that `_id`
      and that `owner`, which is what the filter `{_id: id, owner}` selects. */
  lemma OwnedRowIsFilterMatch(tasks: map<ObjectId, Task>, id: ObjectId, owner: ObjectId)
    requires forall k :: k in tasks ==> tasks[k]._id == k
    ensures OwnedRow(tasks, id, owner) <==> exists t :: t in tasks.Values && t._id == id && t.owner == owner
  {
    if OwnedRow(tasks, id, owner) {
      assert tasks[id] in tasks.Values;
    }
  }

  /** An update changes exactly the fields the body supplies; the identifier,
      the owner and every field the body leaves out keep their values. */
  lemma UpdateSetsOnlySupplied(t: Task, body: UpdateBody)
    ensures var r := SetFields(t, UpdateFieldsOf(body));
      && r._id == t._id && r.owner == t.owner
      && r.title == (if body.title.Some? then body.title.value else t.title)
      && r.description == (if body.description.Some? then body.description else t.description)
      && r.deadline == (if body.deadline.Some? then body.deadline else t.deadline)
      && r.isCompleted == (if body.isCompleted.Some? then body.isCompleted.value else t.isCompleted)
  {
  }

  /** The task collection. */
  class TaskStore {
    var tasks: map<ObjectId, Task>

    /** `mongoose.Types.ObjectId.isValid`, left uninterpreted. */
    const isValidObjectId: string -> bool

    /** Every row is stored under its own identifier. */
    ghost predicate Valid()
      reads this
    {
      forall id :: id in tasks ==> tasks[id]._id == id
    }

    constructor (isValidObjectId: string -> bool)
      ensures Valid() && tasks == map[]
      ensures this.isValidObjectId == isValidObjectId
    {
      tasks := map[];
      this.isValidObjectId := isValidObjectId;
    }

    /** `getAllTaskByParticularUser`: `Task.find({owner})`. */
    method GetAllTaskByParticularUser(owner: ObjectId) returns (found: seq<Task>)
      requires Valid()
      ensures forall t :: t in found <==> t in tasks.Values && t.owner == owner
      ensures forall i, j :: 0 <= i < j < |found| ==> found[i]._id != found[j]._id
    {
      found := [];
      var rest := tasks.Keys;
      while rest != {}
        invariant rest <= tasks.Keys
        invariant forall t :: t in found <==> t in tasks.Values && t.owner == owner && t._id !in rest
        invariant forall i, j :: 0 <= i < j < |found| ==> found[i]._id != found[j]._id
        decreases rest
      {
        var id :| id in rest;
        if tasks[id].owner == owner {
          found := found + [tasks[id]];
        }
        rest := rest - {id};
      }
    }

    /** `createTask`: validate the title, then store a new task owned by the
        caller under the identifier the database assigns. */
    method CreateTask(owner: ObjectId, body: CreateBody, newId: ObjectId) returns (r: Result<Task>)
      requires Valid() && newId !in tasks
      modifies this
      ensures Valid()
      ensures Blank(body.title) ==> r == Err(TitleRequired) && tasks == old(tasks)
      ensures !Blank(body.title) ==>
        && r == Ok(Task(newId, body.title.value, body.description, false, body.deadline, owner))
        && tasks == old(tasks)[newId := r.value]
    {
      if !IsTruthy(body.title) {
        return Err(TitleRequired);
      }
      if Trim(body.title.value) == "" {
        return Err(TitleRequired);
      }
      var doc := TaskFields(body.title, body.description, None, body.deadline, Some(owner));
      var task := Construct(newId, doc).value;
      tasks := tasks[newId := task];
      r := Ok(task);
    }

    /** `updateTask`: check the identifier, then that some field is supplied,
        then `$set` the supplied fields on the row matching (id, owner). */
    method UpdateTask(owner: ObjectId, id: string, body: UpdateBody) returns (r: Result<Task>)
      requires Valid()
      modifies this
      ensures Valid()
      ensures r.Err? ==> tasks == old(tasks)
      ensures !isValidObjectId(id) ==> r == Err(InvalidTaskId)
      ensures isValidObjectId(id) && NoFieldSupplied(body) ==> r == Err(NothingToUpdate)
      ensures isValidObjectId(id) && !NoFieldSupplied(body) && !OwnedRow(old(tasks), id, owner) ==>
        r == Err(TaskNotFound)
      ensures isValidObjectId(id) && !NoFieldSupplied(body) && OwnedRow(old(tasks), id, owner) ==>
        && r == Ok(SetFields(old(tasks)[id], UpdateFieldsOf(body)))
        && tasks == old(tasks)[id := r.value]
    {
      if !isValidObjectId(id) {
        return Err(InvalidTaskId);
      }
      if body.title.None? && body.description.None? && body.deadline.None? && body.isCompleted.None? {
        return Err(NothingToUpdate);
      }
      var updateFields := NoFields;
      if body.title.Some? { updateFields := updateFields.(title := body.title); }
      if body.description.Some? { updateFields := updateFields.(description := body.description); }
      if body.deadline.Some? { updateFields := updateFields.(deadline := body.deadline); }
      if body.isCompleted.Some? { updateFields := updateFields.(isCompleted := body.isCompleted); }
      if id in tasks && tasks[id].owner == owner {
        var task := SetFields(tasks[id], updateFields);
        tasks := tasks[id := task];
        r := Ok(task);
      } else {
        r := Err(TaskNotFound);
      }
    }

    /** `deleteTask`: check the identifier, then remove the row matching
        (id, owner) and answer with it. */
    method DeleteTask(owner: ObjectId, id: string) returns (r: Result<Task>)
      requires Valid()
      modifies this
      ensures Valid()
      ensures !isValidObjectId(id) ==> r == Err(InvalidTaskId) && tasks == old(tasks)
      ensures isValidObjectId(id) && !OwnedRow(old(tasks), id, owner) ==>
        r == Err(TaskNotFoundOrNotOwned) && tasks == old(tasks)
      ensures isValidObjectId(id) && OwnedRow(old(tasks), id, owner) ==>
        r == Ok(old(tasks)[id]) && tasks == old(tasks) - {id}
    {
      if !isValidObjectId(id) {
        return Err(InvalidTaskId);
      }
      if id in tasks && tasks[id].owner == owner {
        r := Ok(tasks[id]);
        tasks := tasks - {id};
      } else {
        r := Err(TaskNotFoundOrNotOwned);
      }
    }
  }

  /** A listing holding exactly one task, with distinct identifiers, is that task. */
  lemma OnlyMember(s: seq<Task>, x: Task)
    requires forall t :: t in s <==> t == x
    requires forall i, j :: 0 <= i < j < |s| ==> s[i]._id != s[j]._id
    ensures s == [x]
  {
    forall i | 0 <= i < |s| ensures s[i] == x {
      assert s[i] in s;
    }
    assert x in s;
    assert |s| < 2 || s[0]._id != s[1]._id;
  }

  /** A listing has no member exactly when it is empty. */
  lemma NoMembers(s: seq<Task>)
    ensures (forall t :: t !in s) <==> s == []
  {
    if s != [] {
      assert s[0] in s;
    }
  }

  /** One user's task lifecycle on an empty collection, for any title that is
      not blank: the created task is not completed and has no description,
      listing shows exactly it, deleting answers with it, and the list is
      empty afterwards. */
  method CreateListDeleteScenario(isValidObjectId: string -> bool, owner: ObjectId, newId: ObjectId, title: string)
    returns (created: Result<Task>, before: seq<Task>, deleted: Result<Task>, after: seq<Task>)
    requires isValidObjectId(newId) && !Blank(Some(title))
    ensures created == Ok(Task(newId, title, None, false, None, owner))
    ensures before == [created.value]
    ensures deleted == created
    ensures after == []
  {
    var store := new TaskStore(isValidObjectId);
    created := store.CreateTask(owner, CreateBody(Some(title), None, None), newId);
    before := store.GetAllTaskByParticularUser(owner);
    assert created.value in store.tasks.Values;
    OnlyMember(before, created.value);
    deleted := store.DeleteTask(owner, newId);
    after := store.GetAllTaskByParticularUser(owner);
    NoMembers(after);
  }
}
