# Task model of `task_manager`

This project models the `Task` entity of the `task_manager` package
(`src/task_manager/task.py`) in Dafny and proves its behaviour. A task is a record
with an id, a title, a description, a status, a priority and timestamps. Its status
follows a small state machine over PENDING, IN_PROGRESS, COMPLETED and CANCELLED.
Its priority may be given as an enum member, a name in any case, an integer code,
or `None`.

Layout:

- `wrappers.dfy` (module `Wrappers`): `Option`, `Result` and `Outcome`.
- `task_types.dfy` (module `TaskTypes`): the `TaskStatus` and `TaskPriority` enums and the
  errors. It also holds the status and priority codes, and the priority normalisation
  done by `__post_init__` and `set_priority`.
- `task_rules.dfy` (module `TaskRules`): the task as a value (`TaskRecord`). It holds the
  title rules and `validate`, construction, the transition table with the guards as
  written, every mutating call as a function (`Apply`), and call sequences (`Run`, where a
  refused call changes nothing). It also holds `is_overdue`, `to_dict`, and the lemmas
  that hold over any call sequence.
- `task.dfy` (module `TaskObject`): the class `Task`. Its methods reassign its fields in
  place, and each one is proved to leave the fields exactly as `TaskRules.Next` says.
  `NewTask` is construction, which either fails with an error or returns a valid task.

The clock is an integer `now` passed to every mutating method and to the overdue
query. Timestamps are integers on that clock. `created_at` and `updated_at` are explicit
construction arguments; the dataclass defaults each to its own reading of the current time. Every failure is
an error value (`TaskError`), not an exception. The errors say which rule failed.

Three facts about `task.py` shape the model:

- An unknown priority name or code raises the enum lookup's `KeyError` or `ValueError`
  (task.py:50, 52), never `ValidationError`. `ResolvePriority` reports `UnknownPriorityName`
  or `UnknownPriorityCode`, and `NormalizePriority` proves these are not validation errors.
- A task built with the default creation time and a due date in the past is refused at
  construction, because its due date is earlier than `created_at` (task.py:70-71;
  `DueBeforeCreationExample`). `OverdueUntilCompleted` therefore uses an earlier `created_at`.
- Validation runs only at construction (task.py:57). The mutating methods keep the invariants
  because `update_title` repeats the title rules and no method touches the id, the creation
  time or the due date (`RunPreservesValidity`).

## Model

| member | source | states |
|---|---|---|
| `TaskTypes.StatusCode` | src/task_manager/task.py:14-17 | each status value is a non-empty lower-case snake-case string |
| `TaskTypes.StatusFromCode` | src/task_manager/task.py:11-17 | lookup by string value; a hit decodes to the status with that value, a miss means no status has it |
| `TaskTypes.StatusCodeRoundTrip` | src/task_manager/task.py:140 | the exported status string decodes back to the status |
| `TaskTypes.PriorityCode` | src/task_manager/task.py:20-26 | each priority's integer value lies in 1..4 |
| `TaskTypes.PriorityFromCode` | src/task_manager/task.py:52 | `TaskPriority(n)` succeeds exactly for 1..4 and returns the priority whose value is `n` |
| `TaskTypes.PriorityCodeRoundTrip` | src/task_manager/task.py:141 | the exported priority integer decodes back to the priority |
| `TaskTypes.PriorityName` | src/task_manager/task.py:23-26 | each member name is a non-empty string of upper-case ASCII letters |
| `TaskTypes.PriorityFromName` | src/task_manager/task.py:50 | `TaskPriority[name]` succeeds exactly when some priority has that member name, and returns it |
| `TaskTypes.Upper` | src/task_manager/task.py:50 | upper-casing keeps the length and maps each character by the case mapping |
| `TaskTypes.ResolvePriority` | src/task_manager/task.py:114-121 | a member is kept; a name succeeds iff its upper case is a member name; a code succeeds iff it is in 1..4; each failure carries the lookup error for that input |
| `TaskTypes.NormalizePriority` | src/task_manager/task.py:49-54 | `None` gives MEDIUM; other inputs resolve as in `set_priority`; a failure is a lookup error, not a validation error |
| `TaskTypes.NameInAnyCase` | src/task_manager/task.py:49-50 | any name whose letters upper-case to a priority's name resolves to that priority |
| `TaskTypes.PriorityFormsAgree` | src/task_manager/task.py:49-54 | the member, its name and its integer code all normalise to the same priority |
| `TaskTypes.HighInEveryForm` | src/task_manager/task.py:49-54 | "high", "HIGH", "hIgH", 3 and HIGH all normalise to HIGH |
| `TaskTypes.UnknownPriorityExamples` | src/task_manager/task.py:49-52 | "urgent", 0 and 5 fail with the matching lookup error |
| `TaskRules.StripLeading` | src/task_manager/task.py:61 | the result is a suffix of the input, starts with a non-whitespace character, and only whitespace was removed |
| `TaskRules.StripTrailing` | src/task_manager/task.py:61 | the result is a prefix of the input, ends with a non-whitespace character, and only whitespace was removed |
| `TaskRules.Strip` | src/task_manager/task.py:61 | `strip()` yields the empty string exactly when the input is whitespace only |
| `TaskRules.CheckTitle` | src/task_manager/task.py:101-104 | the title rules pass iff the title is not blank and has at most 200 characters; blank fails first with EmptyTitle, then TitleTooLong |
| `TaskRules.Validate` | src/task_manager/task.py:59-71 | passes iff title accepted, id non-negative, due date absent or not before creation; otherwise names the first broken rule in source order |
| `TaskRules.Create` | src/task_manager/task.py:45-57 | a priority lookup failure wins; otherwise succeeds iff the assembled task satisfies the invariants, which it then holds, and fails with validate's error |
| `TaskRules.DefaultConstruction` | src/task_manager/task.py:35-43 | with the defaults, construction fails only on the title or a negative id, and yields PENDING, MEDIUM, an empty description, no due date, and the two timestamps as read |
| `TaskRules.Refusal` | src/task_manager/task.py:73-97 | the guards as written refuse exactly the statuses outside the transition table, always with a validation error |
| `TaskRules.TerminalHasNoExit` | src/task_manager/task.py:73-97 | from COMPLETED or CANCELLED the only allowed transition is to the same status |
| `TaskRules.Apply` | src/task_manager/task.py:73-122 | a call succeeds iff its guard, title rules or lookup accept; on success exactly its own field and `updated_at := now` change; id, creation time and due date never change; the error is the guard's, title rule's or lookup's |
| `TaskRules.StartProgressTable` | src/task_manager/task.py:73-81 | `mark_in_progress` succeeds exactly from PENDING or IN_PROGRESS, and fails with the completed or cancelled error otherwise |
| `TaskRules.CompleteAndCancelTable` | src/task_manager/task.py:83-97 | `mark_completed` fails only from CANCELLED; `mark_cancelled` fails only from COMPLETED |
| `TaskRules.RepeatedTransition` | src/task_manager/task.py:83-97 | repeating a transition on its own target status succeeds and changes only `updated_at` |
| `TaskRules.UpdateTitleAgreesWithValidate` | src/task_manager/task.py:99-107 | on a valid task, `update_title` accepts a title exactly when validate accepts the task holding it |
| `TaskRules.NextPreservesInvariant` | src/task_manager/task.py:73-122 | one call, accepted or refused, keeps the invariants |
| `TaskRules.RunKeepsIdentity` | src/task_manager/task.py:73-122 | no call sequence changes `task_id`, `created_at` or `due_date` |
| `TaskRules.RunPreservesValidity` | src/task_manager/task.py:59-122 | validate keeps passing after any sequence of calls |
| `TaskRules.ConstructedTaskStaysValid` | src/task_manager/task.py:45-122 | a constructed task passes validate after any sequence of calls |
| `TaskRules.TerminalStatusIsFinal` | src/task_manager/task.py:73-97 | once COMPLETED or CANCELLED, no sequence of calls changes the status |
| `TaskRules.Overdue` | src/task_manager/task.py:124-132 | overdue iff a due date exists, `now` is past it, and the status is not terminal |
| `TaskRules.NotOverdueAfterCompletion` | src/task_manager/task.py:83-132 | after a successful `mark_completed` the task is not overdue at any time |
| `TaskRules.NeverOverdueOnceTerminal` | src/task_manager/task.py:124-132 | a completed or cancelled task is never overdue after any call sequence |
| `TaskRules.DueBeforeCreationExample` | src/task_manager/task.py:70-71 | a due date one tick before the creation time is refused with DueBeforeCreation |
| `TaskRules.OverdueUntilCompleted` | src/task_manager/task.py:124-132 | a task due in the past is overdue, and stops being overdue after `mark_completed` |
| `TaskRules.RefusedConstructionExamples` | src/task_manager/task.py:64-68 | id -1 is refused with NegativeId, a 201-character title with TitleTooLong |
| `TaskRules.ToDict` | src/task_manager/task.py:134-146 | status and priority export as codes that decode back to them; `is_overdue` is the overdue query; other fields are copied |
| `TaskObject.Task.constructor` | src/task_manager/task.py:29-57 | assigns every field as given, and only fields that pass validation (the initialiser always runs `__post_init__`), so every task object is valid |
| `TaskObject.Task.MarkInProgress` | src/task_manager/task.py:73-81 | succeeds iff PENDING or IN_PROGRESS, then status IN_PROGRESS and `updated_at = now`, nothing else; on failure nothing changes |
| `TaskObject.Task.MarkCompleted` | src/task_manager/task.py:83-89 | fails only from CANCELLED, changing nothing; otherwise status COMPLETED and `updated_at = now` |
| `TaskObject.Task.MarkCancelled` | src/task_manager/task.py:91-97 | fails only from COMPLETED, changing nothing; otherwise status CANCELLED and `updated_at = now` |
| `TaskObject.Task.UpdateTitle` | src/task_manager/task.py:99-107 | succeeds iff the title rules accept; then only `title` and `updated_at` change; otherwise nothing does |
| `TaskObject.Task.UpdateDescription` | src/task_manager/task.py:109-112 | only `description` and `updated_at` change |
| `TaskObject.Task.SetPriority` | src/task_manager/task.py:114-122 | a failed lookup changes nothing; otherwise only `priority` and `updated_at` change |
| `TaskObject.Task.IsOverdue` | src/task_manager/task.py:124-132 | overdue iff the task has a due date, `now` is past it, and the status is neither COMPLETED nor CANCELLED |
| `TaskObject.Task.AsDict` | src/task_manager/task.py:134-146 | status and priority export as codes that decode back to the fields; `is_overdue` is the overdue query; other fields are copied |
| `TaskObject.NewTask` | src/task_manager/task.py:45-57 | fails exactly when construction fails, with its error; otherwise returns a new task holding the constructed fields, which satisfies the invariants |

## Left out

- The wall clock: `datetime.now()` is the `now` parameter, timestamps are integers, and the ISO-8601 text `to_dict` produces is not modelled.
- Exception classes: `ValidationError` and the enum lookup's `KeyError`/`ValueError` are `TaskError` values. The model records which rule failed, not the class or message text.
- Dynamic typing: a priority of any other type is stored unchanged by `__post_init__` and `set_priority`. This includes a float, and `None` given to `set_priority`. `PriorityInput` admits only a member, a string and an integer, and `bool` is not treated as an integer (so `True` is not LOW). A status that is not a `TaskStatus` is not modelled either.
- `TaskTypes.Upper`: Python's `str.upper()` is modelled only as far as a priority name lookup can see it. ASCII letters and the dotless i (U+0131, whose upper case is `I`) are mapped, and every other character is left unchanged. `UnknownPriorityName` carries the name as given; `KeyError` carries the upper-cased name.
- `TaskRules.IsWhitespace` is the set of characters for which Python's `str.isspace()` holds. Lone surrogates, which a Python string may hold, cannot occur in a Dafny string.
- Direct assignment to the dataclass's public attributes, which skips every check, is not modelled. The dataclass-generated equality and representation are not modelled either.
- Comparing a naive with a timezone-aware `datetime` raises `TypeError`; integer timestamps cannot express this.
- The `ValidationError` type itself comes from `exceptions` in the same package. That module is not part of this model.
