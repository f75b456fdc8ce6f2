/** The client's task cache: the `tasks` list of the task provider, replaced
    only after the server has answered, and the request bodies the provider
    sends. */
module TaskContext {
  import opened Api
  import TaskModel
  import TaskControllers

  /** The signed-in user of the client. */
  datatype User = User(id: string, username: string, email: string)

  /** A task object in a response, as far as the client reads it: the keys
      `_id`, `user`, `title`, `description`, `deadline`, `completed` and
      `createdAt`. Keys the server leaves out are None. */
  datatype RawTask = RawTask(
    _id: string,
    user: Option<string>,
    title: string,
    description: Option<string>,
    deadline: Option<string>,
    completed: Option<bool>,
    createdAt: string)

  /** A cached task. `userId` and `completed` are copied from response keys
      that may be missing, so they may be undefined (None). */
  datatype Task = Task(
    id: string,
    userId: Option<string>,
    title: string,
    description: string,
    deadline: string,
    completed: Option<bool>,
    createdAt: string)

  /** The mapping of a response task in `fetchTasks` and `addTask`: missing
      `description` and `deadline` become `''`, a missing `completed` false. */
  function FromRaw(raw: RawTask): (t: Task)
    ensures t.id == raw._id && t.userId == raw.user && t.title == raw.title && t.createdAt == raw.createdAt
    ensures t.description == raw.description.GetOr("") && t.deadline == raw.deadline.GetOr("")
    ensures t.completed == Some(raw.completed == Some(true))
  {
    Task(raw._id, raw.user, raw.title, OrEmpty(raw.description), OrEmpty(raw.deadline),
         Some(if raw.completed.Some? then raw.completed.value else false), raw.createdAt)
  }

  /** `response.data.data.map(...)`: one cached task per response task, in order. */
  function FromRawAll(s: seq<RawTask>): (r: seq<Task>)
    ensures |r| == |s|
    ensures forall i :: 0 <= i < |s| ==> r[i] == FromRaw(s[i])
  {
    if s == [] then [] else [FromRaw(s[0])] + FromRawAll(s[1..])
  }

  /** `prev.map(task => task.id === id ? f(task) : task)`. */
  function MapWhere(prev: seq<Task>, id: string, f: Task -> Task): (r: seq<Task>)
    ensures |r| == |prev|
    ensures forall i :: 0 <= i < |prev| ==> r[i] == (if prev[i].id == id then f(prev[i]) else prev[i])
  {
    if prev == [] then []
    else [if prev[0].id == id then f(prev[0]) else prev[0]] + MapWhere(prev[1..], id, f)
  }

  /** The element update of `updateTask`: title, description and deadline
      from the response, everything else kept. */
  function Edited(task: Task, raw: RawTask): (r: Task)
    ensures r.title == raw.title && r.description == raw.description.GetOr("") && r.deadline == raw.deadline.GetOr("")
    ensures r.(title := task.title, description := task.description, deadline := task.deadline) == task
  {
    task.(title := raw.title, description := OrEmpty(raw.description), deadline := OrEmpty(raw.deadline))
  }

  /** The element update of `toggleComplete`: `completed` from the response. */
  function Toggled(task: Task, raw: RawTask): (r: Task)
    ensures r.completed == raw.completed
    ensures r.(completed := task.completed) == task
  {
    task.(completed := raw.completed)
  }

  /** `prev.filter(task => task.id !== id)`. */
  function Without(prev: seq<Task>, id: string): (r: seq<Task>)
    ensures |r| <= |prev|
    ensures forall t :: t in r <==> t in prev && t.id != id
  {
    if prev == [] then []
    else if prev[0].id != id then [prev[0]] + Without(prev[1..], id)
    else Without(prev[1..], id)
  }

  /** The body `addTask` sends: empty description and deadline are left out,
      so neither is ever sent as `""`, and reading an absent one back as `''`
      gives what was typed. */
  function CreateBodyOf(title: string, description: string, deadline: string): (b: TaskControllers.CreateBody)
    ensures b.title == Some(title)
    ensures b.description != Some("") && b.description.GetOr("") == description
    ensures b.deadline != Some("") && b.deadline.GetOr("") == deadline
  {
    TaskControllers.CreateBody(Some(title), OrUndefined(description), OrUndefined(deadline))
  }

  /** The body `updateTask` sends: the title always, never `isCompleted`, and
      description and deadline left out when empty. */
  function UpdateBodyOf(title: string, description: string, deadline: string): (b: TaskControllers.UpdateBody)
    ensures b.title == Some(title) && b.isCompleted.None?
    ensures b.description != Some("") && b.description.GetOr("") == description
    ensures b.deadline != Some("") && b.deadline.GetOr("") == deadline
  {
    TaskControllers.UpdateBody(Some(title), OrUndefined(description), OrUndefined(deadline), None)
  }

  /** A successful update changes title, description and deadline of the
      tasks with that id and nothing else: identifiers, owners, creation times
      and completion stay, and so does every other task. */
  lemma UpdateChangesOnlyEditedFields(prev: seq<Task>, id: string, raw: RawTask)
    ensures var r := MapWhere(prev, id, t => Edited(t, raw));
      && |r| == |prev|
      && forall i :: 0 <= i < |prev| ==>
           && r[i].id == prev[i].id && r[i].userId == prev[i].userId
           && r[i].completed == prev[i].completed && r[i].createdAt == prev[i].createdAt
           && (prev[i].id != id ==> r[i] == prev[i])
           && (prev[i].id == id ==> r[i].title == raw.title && r[i].description == OrEmpty(raw.description)
                                    && r[i].deadline == OrEmpty(raw.deadline))
  {
  }

  /** A successful toggle sets `completed` of the tasks with that id to the
      response's value and changes nothing else. */
  lemma ToggleChangesOnlyCompletion(prev: seq<Task>, id: string, raw: RawTask)
    ensures var r := MapWhere(prev, id, t => Toggled(t, raw));
      && |r| == |prev|
      && forall i :: 0 <= i < |prev| ==>
           r[i] == if prev[i].id == id then prev[i].(completed := raw.completed) else prev[i]
  {
  }

  /** Deleting keeps the order of what remains: filtering a concatenation is
      concatenating the filtered parts. */
  lemma {:induction false} WithoutConcat(a: seq<Task>, b: seq<Task>, id: string)
    ensures Without(a + b, id) == Without(a, id) + Without(b, id)
  {
    if a == [] {
      assert a + b == b;
    } else {
      assert (a + b)[0] == a[0] && (a + b)[1..] == a[1..] + b;
      WithoutConcat(a[1..], b, id);
    }
  }

  /** Deleting an id that no task has leaves the list as it is. */
  lemma {:induction false} WithoutAbsent(prev: seq<Task>, id: string)
    requires forall t :: t in prev ==> t.id != id
    ensures Without(prev, id) == prev
  {
    if prev != [] {
      assert prev[0] in prev;
      assert forall t :: t in prev[1..] ==> t in prev;
      WithoutAbsent(prev[1..], id);
    }
  }

  /** Adding a task with a new id and then deleting that id gives back the
      list as it was. */
  lemma AddThenDeleteRestores(prev: seq<Task>, raw: RawTask)
    requires forall t :: t in prev ==> t.id != raw._id
    ensures Without([FromRaw(raw)] + prev, raw._id) == prev
  {
    WithoutAbsent(prev, raw._id);
  }

  /** Deleting after an update is deleting: the update keeps identifiers. */
  lemma {:induction false} DeleteAfterUpdate(prev: seq<Task>, id: string, raw: RawTask)
    ensures Without(MapWhere(prev, id, t => Edited(t, raw)), id) == Without(prev, id)
  {
    if prev != [] {
      var f := t => Edited(t, raw);
      assert MapWhere(prev, id, f) == [MapWhere(prev, id, f)[0]] + MapWhere(prev[1..], id, f);
      DeleteAfterUpdate(prev[1..], id, raw);
    }
  }

  /** An edit whose description field is cleared sends no description, so the
      server keeps the stored one. */
  lemma ClearedDescriptionIsKept(t: TaskModel.Task, title: string, deadline: string)
    ensures UpdateBodyOf(title, "", deadline).description.None?
    ensures TaskModel.SetFields(t, TaskControllers.UpdateFieldsOf(UpdateBodyOf(title, "", deadline))).description
            == t.description
  {
  }

  /** The task provider's state. */
  class TaskProvider {
    var tasks: seq<Task>

    constructor ()
      ensures tasks == []
    {
      tasks := [];
    }

    /** `fetchTasks`: with no user the list is emptied without a request;
        otherwise a successful response replaces it and a failed one leaves it. */
    method FetchTasks(user: Option<User>, response: Option<seq<RawTask>>)
      modifies this
      ensures user.None? ==> tasks == []
      ensures user.Some? && response.None? ==> tasks == old(tasks)
      ensures user.Some? && response.Some? ==> tasks == FromRawAll(response.value)
    {
      if user.None? {
        tasks := [];
        return;
      }
      if response.Some? {
        tasks := FromRawAll(response.value);
      }
    }

    /** `addTask`: with no user nothing is sent and nothing changes; otherwise
        the created task, once the server answers, goes first. */
    method AddTask(user: Option<User>, title: string, description: string, deadline: string,
                   response: Option<RawTask>)
      returns (sent: Option<TaskControllers.CreateBody>)
      modifies this
      ensures user.None? ==> sent.None? && tasks == old(tasks)
      ensures user.Some? ==> sent == Some(CreateBodyOf(title, description, deadline))
      ensures response.None? ==> tasks == old(tasks)
      ensures user.Some? && response.Some? ==> tasks == [FromRaw(response.value)] + old(tasks)
    {
      if user.None? {
        return None;
      }
      sent := Some(CreateBodyOf(title, description, deadline));
      if response.Some? {
        tasks := [FromRaw(response.value)] + tasks;
      }
    }

    /** `updateTask`: once the server answers, the tasks with that id take
        title, description and deadline from the response. */
    method UpdateTask(id: string, title: string, description: string, deadline: string,
                      response: Option<RawTask>)
      returns (sent: TaskControllers.UpdateBody)
      modifies this
      ensures sent == UpdateBodyOf(title, description, deadline)
      ensures response.None? ==> tasks == old(tasks)
      ensures response.Some? ==> tasks == MapWhere(old(tasks), id, t => Edited(t, response.value))
    {
      sent := UpdateBodyOf(title, description, deadline);
      if response.Some? {
        var raw := response.value;
        tasks := MapWhere(tasks, id, t => Edited(t, raw));
      }
    }

    /** `deleteTask`: once the server confirms, every task with that id goes. */
    method DeleteTask(id: string, succeeded: bool)
      modifies this
      ensures !succeeded ==> tasks == old(tasks)
      ensures succeeded ==> tasks == Without(old(tasks), id)
    {
      if succeeded {
        tasks := Without(tasks, id);
      }
    }

    /** `toggleComplete`: once the server answers, the tasks with that id take
        `completed` from the response. */
    method ToggleComplete(id: string, response: Option<RawTask>)
      modifies this
      ensures response.None? ==> tasks == old(tasks)
      ensures response.Some? ==> tasks == MapWhere(old(tasks), id, t => Toggled(t, response.value))
    {
      if response.Some? {
        var raw := response.value;
        tasks := MapWhere(tasks, id, t => Toggled(t, raw));
      }
    }
  }
}
