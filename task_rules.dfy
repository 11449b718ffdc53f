/**
 * The task as a value: its validation rules, its guarded status transitions,
 * its field updates, the overdue query and the dictionary projection, all as
 * functions on a `TaskRecord`, together with the properties they guarantee
 * over any sequence of calls. The class `Task` in module `TaskObject` updates
 * its fields exactly as these functions say.
 */
module TaskRules {
  import opened Wrappers
  import opened TaskTypes

  /** The fields of a task. Timestamps are integers on one clock. */
  datatype TaskRecord = TaskRecord(
    taskId: int,
    title: string,
    description: string,
    status: TaskStatus,
    priority: TaskPriority,
    createdAt: int,
    updatedAt: int,
    dueDate: Option<int>)

  /** The longest title accepted, in characters. */
  const MaxTitleLength: int := 200

  // ----- Titles -------------------------------------------------------------

  /** The characters Python's `str.strip()` removes: those for which `str.isspace()` holds. */
  predicate IsWhitespace(c: char) {
    ('\t' <= c <= '\r') || ('\U{1C}' <= c <= '\U{1F}') || c == ' '
    || c == '\U{85}' || c == '\U{A0}' || c == '\U{1680}'
    || ('\U{2000}' <= c <= '\U{200A}') || c == '\U{2028}' || c == '\U{2029}'
    || c == '\U{202F}' || c == '\U{205F}' || c == '\U{3000}'
  }

  /** A string made of whitespace only (the empty string included). */
  predicate IsBlank(s: string) {
    forall i :: 0 <= i < |s| ==> IsWhitespace(s[i])
  }

  /** `s` with its leading whitespace removed. */
  function StripLeading(s: string): (r: string)
    ensures |r| <= |s| && r == s[|s| - |r|..]
    ensures r == [] || !IsWhitespace(r[0])
    ensures forall i :: 0 <= i < |s| - |r| ==> IsWhitespace(s[i])
  {
    if s != [] && IsWhitespace(s[0]) then StripLeading(s[1..]) else s
  }

  /** `s` with its trailing whitespace removed. */
  function StripTrailing(s: string): (r: string)
    ensures |r| <= |s| && r == s[..|r|]
    ensures r == [] || !IsWhitespace(r[|r| - 1])
    ensures forall i :: |r| <= i < |s| ==> IsWhitespace(s[i])
  {
    if s != [] && IsWhitespace(s[|s| - 1]) then StripTrailing(s[..|s| - 1]) else s
  }

  /** `s` with whitespace removed at both ends; it is empty exactly when `s` is blank. */
  function Strip(s: string): (r: string)
    ensures |r| <= |s|
    ensures r == [] <==> IsBlank(s)
  {
    var lead := StripLeading(s);
    var r := StripTrailing(lead);
    assert r != [] ==> !IsWhitespace(lead[0]) && lead[0] == s[|s| - |lead|];
    r
  }

  /** The titles the title rules accept: not blank, and at most 200 characters. */
  predicate TitleAccepted(title: string) {
    !IsBlank(title) && |title| <= MaxTitleLength
  }

  /** The title rules as written: emptiness (after stripping) first, then the raw length. */
  function CheckTitle(title: string): (r: Outcome<TaskError>)
    ensures r.Pass? <==> TitleAccepted(title)
    ensures r == Fail(EmptyTitle) <==> IsBlank(title)
    ensures r == Fail(TitleTooLong) <==> !IsBlank(title) && |title| > MaxTitleLength
    ensures r.Fail? ==> r.error == EmptyTitle || r.error == TitleTooLong
  {
    if |title| == 0 || |Strip(title)| == 0 then Fail(EmptyTitle)
    else if |title| > MaxTitleLength then Fail(TitleTooLong)
    else Pass
  }

  // ----- Validation ---------------------------------------------------------

  /** The invariants of a task: an accepted title, a non-negative id, and no due date before creation. */
  predicate Invariant(t: TaskRecord) {
    TitleAccepted(t.title)
    && t.taskId >= 0
    && (t.dueDate.Some? ==> t.dueDate.value >= t.createdAt)
  }

  /** `validate`: passes exactly on the invariants, otherwise reports the first rule broken. */
  function Validate(t: TaskRecord): (r: Outcome<TaskError>)
    ensures r.Pass? <==> Invariant(t)
    ensures r == Fail(EmptyTitle) <==> IsBlank(t.title)
    ensures r == Fail(TitleTooLong) <==> !IsBlank(t.title) && |t.title| > MaxTitleLength
    ensures r == Fail(NegativeId) <==> TitleAccepted(t.title) && t.taskId < 0
    ensures r == Fail(DueBeforeCreation) <==>
              TitleAccepted(t.title) && t.taskId >= 0
              && t.dueDate.Some? && t.dueDate.value < t.createdAt
  {
    match CheckTitle(t.title)
    case Fail(e) => Fail(e)
    case Pass =>
      if t.taskId < 0 then Fail(NegativeId)
      else if t.dueDate.Some? && t.dueDate.value < t.createdAt then Fail(DueBeforeCreation)
      else Pass
  }

  // ----- Construction -------------------------------------------------------

  /**
   * Construction: the priority is normalised first, so a lookup failure wins;
   * then the assembled task is validated.
   */
  function Create(taskId: int, title: string, description: string, status: TaskStatus,
                  priority: Option<PriorityInput>, createdAt: int, updatedAt: int,
                  dueDate: Option<int>): (r: Result<TaskRecord, TaskError>)
    ensures NormalizePriority(priority).Err? ==> r == Err(NormalizePriority(priority).error)
    ensures NormalizePriority(priority).Ok? ==>
              var t := TaskRecord(taskId, title, description, status,
                                  NormalizePriority(priority).value, createdAt, updatedAt, dueDate);
              (r.Ok? <==> Invariant(t))
              && (r.Ok? ==> r.value == t)
              && (r.Err? ==> Validate(t) == Fail(r.error))
    ensures r.Ok? ==> Invariant(r.value)
  {
    match NormalizePriority(priority)
    case Err(e) => Err(e)
    case Ok(p) =>
      var t := TaskRecord(taskId, title, description, status, p, createdAt, updatedAt, dueDate);
      match Validate(t)
      case Fail(e) => Err(e)
      case Pass => Ok(t)
  }

  /**
   * With the defaults (empty description, PENDING, MEDIUM, no due date) construction
   * fails only on the title or the id. The two timestamps are separate clock readings.
   */
  lemma DefaultConstruction(taskId: int, title: string, created: int, updated: int)
    ensures var r := Create(taskId, title, "", Pending, Some(AsEnum(Medium)), created, updated, None);
            (r.Ok? <==> TitleAccepted(title) && taskId >= 0)
            && (r.Ok? ==> r.value.status == Pending && r.value.priority == Medium
                          && r.value.description == "" && r.value.dueDate == None
                          && r.value.createdAt == created && r.value.updatedAt == updated)
  {
  }

  // ----- Status transitions -------------------------------------------------

  /** The three status-changing calls. */
  datatype Transition = StartProgress | Complete | Cancel

  /** The status each transition moves to. */
  function Target(tr: Transition): TaskStatus {
    match tr
    case StartProgress => InProgress
    case Complete => Completed
    case Cancel => Cancelled
  }

  /** The transition table: the statuses from which each transition is allowed. */
  function AllowedFrom(tr: Transition): set<TaskStatus> {
    match tr
    case StartProgress => {Pending, InProgress}
    case Complete => {Pending, InProgress, Completed}
    case Cancel => {Pending, InProgress, Cancelled}
  }

  /** The guards as written in each `mark_*` method: the error raised from `from`, if any. */
  function Refusal(tr: Transition, from: TaskStatus): (r: Option<TaskError>)
    ensures r.None? <==> from in AllowedFrom(tr)
    ensures r.Some? ==> IsValidationError(r.value)
  {
    match tr
    case StartProgress =>
      if from == Completed then Some(ModifyCompleted)
      else if from == Cancelled then Some(ModifyCancelled)
      else assert from.Pending? || from.InProgress?; None
    case Complete =>
      if from == Cancelled then Some(CompleteCancelled)
      else assert from.Pending? || from.InProgress? || from.Completed?; None
    case Cancel =>
      if from == Completed then Some(CancelCompleted)
      else assert from.Pending? || from.InProgress? || from.Cancelled?; None
  }

  /** No transition leads out of a terminal status. */
  lemma TerminalHasNoExit(tr: Transition, from: TaskStatus)
    requires IsTerminal(from)
    ensures from in AllowedFrom(tr) <==> Target(tr) == from
  {
  }

  // ----- Calls --------------------------------------------------------------

  /** The mutating methods of a task, with their arguments. */
  datatype Call =
    | Mark(transition: Transition)
    | UpdateTitle(newTitle: string)
    | UpdateDescription(newDescription: string)
    | SetPriority(priority: PriorityInput)

  /** The fields no call changes. */
  predicate SameIdentity(a: TaskRecord, b: TaskRecord) {
    a.taskId == b.taskId && a.createdAt == b.createdAt && a.dueDate == b.dueDate
  }

  /** Whether `call` succeeds on `t`: its guard, its title rules or its priority lookup. */
  predicate Accepts(t: TaskRecord, call: Call) {
    match call
    case Mark(tr) => t.status in AllowedFrom(tr)
    case UpdateTitle(s) => TitleAccepted(s)
    case UpdateDescription(_) => true
    case SetPriority(p) => ResolvePriority(p).Ok?
  }

  /**
   * One call at time `now`: the new fields, or the error raised. Each call
   * checks before it assigns, so an error means no field was touched.
   */
  function Apply(t: TaskRecord, call: Call, now: int): (r: Result<TaskRecord, TaskError>)
    ensures r.Ok? <==> Accepts(t, call)
    ensures r.Ok? ==> r.value.updatedAt == now && SameIdentity(t, r.value)
    ensures r.Ok? ==> r.value.status == (if call.Mark? then Target(call.transition) else t.status)
    ensures r.Ok? ==> r.value.title == (if call.UpdateTitle? then call.newTitle else t.title)
    ensures r.Ok? ==> r.value.description ==
                       (if call.UpdateDescription? then call.newDescription else t.description)
    ensures r.Ok? ==> r.value.priority ==
                       (if call.SetPriority? then ResolvePriority(call.priority).value else t.priority)
    ensures r.Err? && call.Mark? ==> Refusal(call.transition, t.status) == Some(r.error)
    ensures r.Err? && call.UpdateTitle? ==> CheckTitle(call.newTitle) == Fail(r.error)
    ensures r.Err? && call.SetPriority? ==> ResolvePriority(call.priority) == Err(r.error)
  {
    match call
    case Mark(tr) =>
      (match Refusal(tr, t.status)
       case Some(e) => Err(e)
       case None => Ok(t.(status := Target(tr), updatedAt := now)))
    case UpdateTitle(s) =>
      (match CheckTitle(s)
       case Fail(e) => Err(e)
       case Pass => Ok(t.(title := s, updatedAt := now)))
    case UpdateDescription(s) =>
      Ok(t.(description := s, updatedAt := now))
    case SetPriority(input) =>
      (match ResolvePriority(input)
       case Err(e) => Err(e)
       case Ok(p) => Ok(t.(priority := p, updatedAt := now)))
  }

  /** The task after one call whose error, if any, the caller catches: a refused call changes nothing. */
  function Next(t: TaskRecord, call: Call, now: int): TaskRecord {
    match Apply(t, call, now)
    case Ok(u) => u
    case Err(_) => t
  }

  /** The task after a sequence of calls, each with the time at which it is made. */
  function Run(t: TaskRecord, calls: seq<(Call, int)>): TaskRecord
    decreases |calls|
  {
    if calls == [] then t else Run(Next(t, calls[0].0, calls[0].1), calls[1..])
  }

  /** mark_in_progress succeeds from PENDING or IN_PROGRESS, and only there. */
  lemma StartProgressTable(t: TaskRecord, now: int)
    ensures Apply(t, Mark(StartProgress), now).Ok? <==> t.status == Pending || t.status == InProgress
    ensures t.status == Completed ==> Apply(t, Mark(StartProgress), now) == Err(ModifyCompleted)
    ensures t.status == Cancelled ==> Apply(t, Mark(StartProgress), now) == Err(ModifyCancelled)
  {
  }

  /** mark_completed fails only from CANCELLED; mark_cancelled fails only from COMPLETED. */
  lemma CompleteAndCancelTable(t: TaskRecord, now: int)
    ensures Apply(t, Mark(Complete), now).Err? <==> t.status == Cancelled
    ensures Apply(t, Mark(Cancel), now).Err? <==> t.status == Completed
  {
  }

  /** Repeating a transition on its own target status succeeds and only refreshes `updatedAt`. */
  lemma RepeatedTransition(t: TaskRecord, tr: Transition, now: int)
    requires t.status == Target(tr)
    ensures Apply(t, Mark(tr), now) == Ok(t.(updatedAt := now))
  {
  }

  /** update_title accepts a title exactly when validate would accept the task holding it. */
  lemma UpdateTitleAgreesWithValidate(t: TaskRecord, newTitle: string, now: int)
    requires Invariant(t)
    ensures Apply(t, UpdateTitle(newTitle), now).Ok? <==> Validate(t.(title := newTitle)).Pass?
  {
  }

  /** One call, successful or not, keeps the invariants. */
  lemma NextPreservesInvariant(t: TaskRecord, call: Call, now: int)
    requires Invariant(t)
    ensures Invariant(Next(t, call, now))
  {
  }

  /** No call sequence changes the id, the creation time or the due date. */
  lemma {:induction false} RunKeepsIdentity(t: TaskRecord, calls: seq<(Call, int)>)
    ensures SameIdentity(t, Run(t, calls))
    decreases |calls|
  {
    if calls != [] {
      var u := Next(t, calls[0].0, calls[0].1);
      RunKeepsIdentity(u, calls[1..]);
    }
  }

  /** validate keeps succeeding after any sequence of calls. */
  lemma {:induction false} RunPreservesValidity(t: TaskRecord, calls: seq<(Call, int)>)
    requires Validate(t).Pass?
    ensures Validate(Run(t, calls)).Pass?
    decreases |calls|
  {
    if calls != [] {
      var u := Next(t, calls[0].0, calls[0].1);
      NextPreservesInvariant(t, calls[0].0, calls[0].1);
      RunPreservesValidity(u, calls[1..]);
    }
  }

  /** A successfully constructed task is valid after any sequence of calls. */
  lemma ConstructedTaskStaysValid(taskId: int, title: string, description: string,
                                  status: TaskStatus, priority: Option<PriorityInput>,
                                  createdAt: int, updatedAt: int, dueDate: Option<int>,
                                  calls: seq<(Call, int)>)
    requires Create(taskId, title, description, status, priority, createdAt, updatedAt, dueDate).Ok?
    ensures Validate(Run(Create(taskId, title, description, status, priority,
                                createdAt, updatedAt, dueDate).value, calls)).Pass?
  {
    RunPreservesValidity(Create(taskId, title, description, status, priority,
                                createdAt, updatedAt, dueDate).value, calls);
  }

  /** Once COMPLETED or CANCELLED, a task keeps that status through any sequence of calls. */
  lemma {:induction false} TerminalStatusIsFinal(t: TaskRecord, calls: seq<(Call, int)>)
    requires IsTerminal(t.status)
    ensures Run(t, calls).status == t.status
    decreases |calls|
  {
    if calls != [] {
      var u := Next(t, calls[0].0, calls[0].1);
      if calls[0].0.Mark? {
        TerminalHasNoExit(calls[0].0.transition, t.status);
      }
      assert u.status == t.status;
      TerminalStatusIsFinal(u, calls[1..]);
    }
  }

  // ----- Overdue query ------------------------------------------------------

  /** `is_overdue` at time `now`: a due date has passed and the task is neither completed nor cancelled. */
  function Overdue(t: TaskRecord, now: int): (r: bool)
    ensures r ==> t.dueDate.Some? && now > t.dueDate.value
    ensures r ==> !IsTerminal(t.status)
    ensures t.dueDate.Some? && now > t.dueDate.value && !IsTerminal(t.status) ==> r
  {
    match t.dueDate
    case None => false
    case Some(due) => now > due && t.status != Completed && t.status != Cancelled
  }

  /** After a successful mark_completed a task is never overdue. */
  lemma NotOverdueAfterCompletion(t: TaskRecord, now: int, later: int)
    requires Apply(t, Mark(Complete), now).Ok?
    ensures !Overdue(Apply(t, Mark(Complete), now).value, later)
  {
  }

  /** A completed or cancelled task is not overdue after any sequence of calls, at any time. */
  lemma NeverOverdueOnceTerminal(t: TaskRecord, calls: seq<(Call, int)>, now: int)
    requires IsTerminal(t.status)
    ensures !Overdue(Run(t, calls), now)
  {
    TerminalStatusIsFinal(t, calls);
  }

  /** A task whose due date is earlier than its creation time is refused, even when the rest is valid. */
  lemma DueBeforeCreationExample(now: int)
    ensures Create(1, "Write spec", "", Pending, Some(AsName("high")), now, now, Some(now - 1))
            == Err(DueBeforeCreation)
  {
  }

  /** A task created earlier and due in the past is overdue, and is no longer overdue once completed. */
  lemma OverdueUntilCompleted(now: int)
    ensures var r := Create(1, "Write spec", "", Pending, Some(AsName("high")),
                            now - 2, now - 2, Some(now - 1));
            r.Ok? && r.value.priority == High && Overdue(r.value, now)
            && !Overdue(Next(r.value, Mark(Complete), now), now)
  {
    NameInAnyCase(High, "high");
    assert NormalizePriority(Some(AsName("high"))) == Ok(High);
    assert !IsWhitespace("Write spec"[0]);
    var t := TaskRecord(1, "Write spec", "", Pending, High, now - 2, now - 2, Some(now - 1));
    assert Validate(t) == Pass;
    assert Create(1, "Write spec", "", Pending, Some(AsName("high")),
                  now - 2, now - 2, Some(now - 1)) == Ok(t);
    assert Next(t, Mark(Complete), now).status == Completed;
  }

  /** A negative id, and a title of 201 characters, are refused at construction. */
  lemma RefusedConstructionExamples(now: int)
    ensures Create(-1, "x", "", Pending, Some(AsEnum(Medium)), now, now, None) == Err(NegativeId)
    ensures Create(1, seq(201, _ => 'x'), "", Pending, Some(AsEnum(Medium)), now, now, None)
            == Err(TitleTooLong)
  {
    assert !IsWhitespace("x"[0]);
    assert !IsWhitespace(seq(201, _ => 'x')[0]);
  }

  // ----- Dictionary projection ----------------------------------------------

  /** The dictionary `to_dict` produces, with timestamps kept as integers. */
  datatype TaskDict = TaskDict(
    taskId: int,
    title: string,
    description: string,
    status: string,
    priority: int,
    createdAt: int,
    updatedAt: int,
    dueDate: Option<int>,
    isOverdue: bool)

  /** `to_dict` at time `now`: the enum fields become their string and integer codes, which decode back. */
  function ToDict(t: TaskRecord, now: int): (d: TaskDict)
    ensures StatusFromCode(d.status) == Some(t.status)
    ensures PriorityFromCode(d.priority) == Some(t.priority)
    ensures 1 <= d.priority <= 4
    ensures d.isOverdue == Overdue(t, now)
    ensures d.taskId == t.taskId && d.title == t.title && d.description == t.description
    ensures d.createdAt == t.createdAt && d.updatedAt == t.updatedAt && d.dueDate == t.dueDate
  {
    StatusCodeRoundTrip(t.status);
    PriorityCodeRoundTrip(t.priority);
    TaskDict(t.taskId, t.title, t.description, StatusCode(t.status), PriorityCode(t.priority),
             t.createdAt, t.updatedAt, t.dueDate, Overdue(t, now))
  }
}
