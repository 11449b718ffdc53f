/**
 * The task object: a class whose fields the mutating methods reassign in
 * place, each method proved to leave the fields exactly as the matching
 * function of module `TaskRules` says, and a factory for construction, which
 * may fail.
 */
module TaskObject {
  import opened Wrappers
  import opened TaskTypes
  import opened TaskRules

  class Task {
    var taskId: int
    var title: string
    var description: string
    var status: TaskStatus
    var priority: TaskPriority
    var createdAt: int
    var updatedAt: int
    var dueDate: Option<int>

    /** The current fields as a value. */
    function State(): TaskRecord
      reads this
    {
      TaskRecord(taskId, title, description, status, priority, createdAt, updatedAt, dueDate)
    }

    /** The task invariants hold of the current fields. */
    predicate Valid()
      reads this
    {
      Invariant(State())
    }

    /**
     * Field assignment, with the priority already normalised. Only fields that
     * pass validation can be assigned, since construction always validates.
     */
    constructor (taskId: int, title: string, description: string, status: TaskStatus,
                 priority: TaskPriority, createdAt: int, updatedAt: int, dueDate: Option<int>)
      requires Invariant(TaskRecord(taskId, title, description, status, priority,
                                    createdAt, updatedAt, dueDate))
      ensures Valid()
      ensures State() == TaskRecord(taskId, title, description, status, priority,
                                    createdAt, updatedAt, dueDate)
    {
      this.taskId := taskId;
      this.title := title;
      this.description := description;
      this.status := status;
      this.priority := priority;
      this.createdAt := createdAt;
      this.updatedAt := updatedAt;
      this.dueDate := dueDate;
    }

    /** `mark_in_progress`: from PENDING or IN_PROGRESS moves to IN_PROGRESS; otherwise fails and changes nothing. */
    method MarkInProgress(now: int) returns (r: Outcome<TaskError>)
      modifies this
      ensures r.Pass? <==> old(status) == Pending || old(status) == InProgress
      ensures r.Pass? ==> State() == old(State()).(status := InProgress, updatedAt := now)
      ensures r.Fail? ==> unchanged(this)
      ensures r.Fail? ==> r.error == (if old(status) == Completed then ModifyCompleted else ModifyCancelled)
      ensures State() == Next(old(State()), Mark(StartProgress), now)
      ensures old(Valid()) ==> Valid()
    {
      if status == Completed {
        return Fail(ModifyCompleted);
      }
      if status == Cancelled {
        return Fail(ModifyCancelled);
      }
      status := InProgress;
      updatedAt := now;
      return Pass;
    }

    /** `mark_completed`: fails only on a cancelled task, leaving it unchanged; otherwise moves to COMPLETED. */
    method MarkCompleted(now: int) returns (r: Outcome<TaskError>)
      modifies this
      ensures r.Pass? <==> old(status) != Cancelled
      ensures r.Pass? ==> State() == old(State()).(status := Completed, updatedAt := now)
      ensures r.Fail? ==> unchanged(this) && r.error == CompleteCancelled
      ensures State() == Next(old(State()), Mark(Complete), now)
      ensures old(Valid()) ==> Valid()
    {
      if status == Cancelled {
        return Fail(CompleteCancelled);
      }
      status := Completed;
      updatedAt := now;
      return Pass;
    }

    /** `mark_cancelled`: fails only on a completed task, leaving it unchanged; otherwise moves to CANCELLED. */
    method MarkCancelled(now: int) returns (r: Outcome<TaskError>)
      modifies this
      ensures r.Pass? <==> old(status) != Completed
      ensures r.Pass? ==> State() == old(State()).(status := Cancelled, updatedAt := now)
      ensures r.Fail? ==> unchanged(this) && r.error == CancelCompleted
      ensures State() == Next(old(State()), Mark(Cancel), now)
      ensures old(Valid()) ==> Valid()
    {
      if status == Completed {
        return Fail(CancelCompleted);
      }
      status := Cancelled;
      updatedAt := now;
      return Pass;
    }

    /** `update_title`: accepts exactly the titles the title rules accept; only `title` and `updatedAt` change. */
    method UpdateTitle(newTitle: string, now: int) returns (r: Outcome<TaskError>)
      modifies this
      ensures r.Pass? <==> TitleAccepted(newTitle)
      ensures r.Pass? ==> State() == old(State()).(title := newTitle, updatedAt := now)
      ensures r.Fail? ==> unchanged(this) && r == CheckTitle(newTitle)
      ensures State() == Next(old(State()), TaskRules.UpdateTitle(newTitle), now)
      ensures old(Valid()) ==> Valid()
    {
      r := CheckTitle(newTitle);
      if r.Pass? {
        title := newTitle;
        updatedAt := now;
      }
    }

    /** `update_description`: always succeeds; only `description` and `updatedAt` change. */
    method UpdateDescription(newDescription: string, now: int)
      modifies this
      ensures State() == old(State()).(description := newDescription, updatedAt := now)
      ensures State() == Next(old(State()), TaskRules.UpdateDescription(newDescription), now)
      ensures old(Valid()) ==> Valid()
    {
      description := newDescription;
      updatedAt := now;
    }

    /** `set_priority`: normalises the input; a failed lookup changes nothing, otherwise only `priority` and `updatedAt` change. */
    method SetPriority(input: PriorityInput, now: int) returns (r: Outcome<TaskError>)
      modifies this
      ensures r.Pass? <==> ResolvePriority(input).Ok?
      ensures r.Pass? ==> State() == old(State()).(priority := ResolvePriority(input).value,
                                                   updatedAt := now)
      ensures r.Fail? ==> unchanged(this) && ResolvePriority(input) == Err(r.error)
      ensures State() == Next(old(State()), TaskRules.SetPriority(input), now)
      ensures old(Valid()) ==> Valid()
    {
      match ResolvePriority(input)
      case Err(e) =>
        return Fail(e);
      case Ok(p) =>
        priority := p;
        updatedAt := now;
        return Pass;
    }

    /** `is_overdue` at time `now`: the due date has passed and the task is neither completed nor cancelled. */
    function IsOverdue(now: int): (r: bool)
      reads this
      ensures r <==> dueDate.Some? && now > dueDate.value && !IsTerminal(status)
    {
      Overdue(State(), now)
    }

    /** `to_dict` at time `now`: the enum fields as codes that decode back, and the overdue flag. */
    function AsDict(now: int): (d: TaskDict)
      reads this
      ensures StatusFromCode(d.status) == Some(status)
      ensures PriorityFromCode(d.priority) == Some(priority)
      ensures d.isOverdue == IsOverdue(now)
      ensures d.taskId == taskId && d.title == title && d.description == description
      ensures d.createdAt == createdAt && d.updatedAt == updatedAt && d.dueDate == dueDate
    {
      ToDict(State(), now)
    }
  }

  /**
   * Construction (`__init__` then `__post_init__`): the priority is normalised,
   * the fields are assigned and the task is validated. A failure yields the
   * error and no task.
   */
  method NewTask(taskId: int, title: string, description: string, status: TaskStatus,
                 priority: Option<PriorityInput>, createdAt: int, updatedAt: int,
                 dueDate: Option<int>) returns (r: Result<Task, TaskError>)
    ensures var spec := Create(taskId, title, description, status, priority,
                               createdAt, updatedAt, dueDate);
            (r.Ok? <==> spec.Ok?)
            && (r.Err? ==> r.error == spec.error)
            && (r.Ok? ==> r.value.State() == spec.value)
    ensures r.Ok? ==> fresh(r.value) && r.value.Valid()
  {
    var normalized := NormalizePriority(priority);
    if normalized.Err? {
      return Err(normalized.error);
    }
    var fields := TaskRecord(taskId, title, description, status, normalized.value,
                             createdAt, updatedAt, dueDate);
    var check := Validate(fields);
    if check.Fail? {
      return Err(check.error);
    }
    var task := new Task(taskId, title, description, status, normalized.value,
                         createdAt, updatedAt, dueDate);
    return Ok(task);
  }
}
