/** The task dialog: its three form fields, filled from the task being edited
    when the dialog opens, and the submit guard that decides between updating
    that task and adding a new one. */
module TaskDialog {
  import opened Api
  import opened Text
  import TaskContext

  /** The values of the three form fields. */
  datatype Form = Form(title: string, description: string, deadline: string)

  /** The provider call a submit makes. */
  datatype Call =
    | UpdateCall(id: string, title: string, description: string, deadline: string)
    | AddCall(title: string, description: string, deadline: string)

  /** What a submit does: the call it makes, if any, and whether it closes
      the dialog. */
  datatype Submission = Submission(call: Option<Call>, closes: bool)

  /** `deadline ? deadline.split('T')[0] : ''`: the date part of a stored
      deadline, for the date input. */
  function DateInputValue(deadline: string): (r: string)
    ensures |r| <= |deadline| && r == deadline[..|r|] && 'T' !in r
    ensures 'T' in deadline ==> deadline[|r|] == 'T'
    ensures 'T' !in deadline ==> r == deadline
  {
    if deadline == "" then "" else BeforeFirst(deadline, 'T')
  }

  /** The form an opened dialog shows: the edited task's title and
      description and the date part of its deadline, or all empty. */
  function InitialForm(task: Option<TaskContext.Task>): (f: Form)
    ensures task.None? ==> f == Form("", "", "")
    ensures task.Some? ==> f.title == task.value.title && f.description == task.value.description
    ensures task.Some? ==> f.deadline == DateInputValue(task.value.deadline)
  {
    match task
    case None => Form("", "", "")
    case Some(t) => Form(t.title, t.description, DateInputValue(t.deadline))
  }

  /** `handleSubmit`: a title that trims to nothing is refused and the dialog
      stays open; otherwise the edited task is updated, or a new one added,
      with trimmed title and description and the deadline as typed, and the
      dialog closes. */
  function HandleSubmit(task: Option<TaskContext.Task>, form: Form): (s: Submission)
    ensures s.closes <==> s.call.Some?
    ensures s.call.None? <==> Trim(form.title) == ""
    ensures s.call.Some? && task.Some? ==>
      s.call.value == UpdateCall(task.value.id, Trim(form.title), Trim(form.description), form.deadline)
    ensures s.call.Some? && task.None? ==>
      s.call.value == AddCall(Trim(form.title), Trim(form.description), form.deadline)
  {
    if Trim(form.title) == "" then Submission(None, false)
    else match task
      case Some(t) => Submission(Some(UpdateCall(t.id, Trim(form.title), Trim(form.description), form.deadline)), true)
      case None => Submission(Some(AddCall(Trim(form.title), Trim(form.description), form.deadline)), true)
  }

  /** A stored ISO timestamp shows as its date. */
  lemma {:induction false} DateOfTimestamp(date: string, time: string)
    requires date != "" && 'T' !in date
    ensures DateInputValue(date + "T" + time) == date
  {
    BeforeFirstTimestamp(date, time);
  }

  lemma {:induction false} BeforeFirstTimestamp(date: string, time: string)
    requires 'T' !in date
    ensures BeforeFirst(date + "T" + time, 'T') == date
  {
    if date != [] {
      assert (date + "T" + time)[1..] == date[1..] + "T" + time;
      BeforeFirstTimestamp(date[1..], time);
    }
  }

  /** A title the dialog lets through also passes the server's title check
      when it is sent as a new task. */
  lemma {:induction false} SubmittedTitlePassesCreateCheck(form: Form)
    ensures var s := HandleSubmit(None, form);
      s.call.Some? ==>
        !Blank(TaskContext.CreateBodyOf(s.call.value.title, s.call.value.description,
                                                               s.call.value.deadline).title)
  {
    TrimIdempotent(form.title);
  }

  /** The dialog's form state. */
  class DialogState {
    var title: string
    var description: string
    var deadline: string

    constructor ()
      ensures title == "" && description == "" && deadline == ""
    {
      title, description, deadline := "", "", "";
    }

    function Fields(): Form
      reads this
    {
      Form(title, description, deadline)
    }

    /** The effect run when the dialog opens or its task changes. */
    method InitialiseFrom(task: Option<TaskContext.Task>)
      modifies this
      ensures Fields() == InitialForm(task)
    {
      if task.Some? {
        title := task.value.title;
        description := task.value.description;
        deadline := if task.value.deadline != "" then BeforeFirst(task.value.deadline, 'T') else "";
      } else {
        title := "";
        description := "";
        deadline := "";
      }
    }
  }
}
