/**
 * The two enumerations of the task model, the errors its operations signal,
 * the primitive codes used by the dictionary projection, and the normalisation
 * of a priority given as an enum member, a name or an integer code.
 */
module TaskTypes {
  import opened Wrappers

  /** Lifecycle stage of a task. */
  datatype TaskStatus = Pending | InProgress | Completed | Cancelled

  /** Ordinal urgency of a task. */
  datatype TaskPriority = Low | Medium | High | Critical

  /** The two statuses that no status transition leaves. */
  predicate IsTerminal(s: TaskStatus) {
    s == Completed || s == Cancelled
  }

  /**
   * Every failure the task model signals. The first eight are the rule and
   * transition violations reported as a validation error; the last two are the
   * failures of the enum lookups by name and by value.
   */
  datatype TaskError =
    | EmptyTitle               // title empty or whitespace only
    | TitleTooLong             // title longer than 200 characters
    | NegativeId               // task id below zero
    | DueBeforeCreation        // due date earlier than the creation time
    | ModifyCompleted          // mark_in_progress on a completed task
    | ModifyCancelled          // mark_in_progress on a cancelled task
    | CompleteCancelled        // mark_completed on a cancelled task
    | CancelCompleted          // mark_cancelled on a completed task
    | UnknownPriorityName(name: string)   // no priority has this name, in any case
    | UnknownPriorityCode(code: int)      // no priority has this integer value

  /** True for the errors that are validation errors rather than lookup failures. */
  predicate IsValidationError(e: TaskError) {
    !e.UnknownPriorityName? && !e.UnknownPriorityCode?
  }

  // ----- Status codes -------------------------------------------------------

  /** The string value of a status, as the dictionary projection exports it: lower-case snake case. */
  function StatusCode(s: TaskStatus): (code: string)
    ensures |code| > 0
    ensures forall i :: 0 <= i < |code| ==> 'a' <= code[i] <= 'z' || code[i] == '_'
  {
    match s
    case Pending => "pending"
    case InProgress => "in_progress"
    case Completed => "completed"
    case Cancelled => "cancelled"
  }

  /** Lookup of a status by its string value. */
  function StatusFromCode(code: string): (r: Option<TaskStatus>)
    ensures r.Some? ==> StatusCode(r.value) == code
    ensures r.None? ==> forall s :: StatusCode(s) != code
  {
    if code == "pending" then Some(Pending)
    else if code == "in_progress" then Some(InProgress)
    else if code == "completed" then Some(Completed)
    else if code == "cancelled" then Some(Cancelled)
    else None
  }

  /** The string value identifies the status: decoding it gives the status back. */
  lemma StatusCodeRoundTrip(s: TaskStatus)
    ensures StatusFromCode(StatusCode(s)) == Some(s)
  {
  }

  // ----- Priority codes and names ------------------------------------------

  /** The integer value of a priority. */
  function PriorityCode(p: TaskPriority): (n: int)
    ensures 1 <= n <= 4
  {
    match p
    case Low => 1
    case Medium => 2
    case High => 3
    case Critical => 4
  }

  /** Lookup of a priority by its integer value; only 1 to 4 are known. */
  function PriorityFromCode(n: int): (r: Option<TaskPriority>)
    ensures r.Some? <==> 1 <= n <= 4
    ensures r.Some? ==> PriorityCode(r.value) == n
  {
    if n == 1 then Some(Low)
    else if n == 2 then Some(Medium)
    else if n == 3 then Some(High)
    else if n == 4 then Some(Critical)
    else None
  }

  /** The integer value identifies the priority. */
  lemma PriorityCodeRoundTrip(p: TaskPriority)
    ensures PriorityFromCode(PriorityCode(p)) == Some(p)
  {
  }

  /** The member name of a priority: upper-case ASCII letters, so its own upper case. */
  function PriorityName(p: TaskPriority): (name: string)
    ensures |name| > 0
    ensures forall i :: 0 <= i < |name| ==> 'A' <= name[i] <= 'Z'
  {
    match p
    case Low => "LOW"
    case Medium => "MEDIUM"
    case High => "HIGH"
    case Critical => "CRITICAL"
  }

  /** Lookup of a priority by its exact member name. */
  function PriorityFromName(name: string): (r: Option<TaskPriority>)
    ensures r.Some? ==> PriorityName(r.value) == name
    ensures r.None? <==> forall p :: PriorityName(p) != name
  {
    if name == "LOW" then Some(Low)
    else if name == "MEDIUM" then Some(Medium)
    else if name == "HIGH" then Some(High)
    else if name == "CRITICAL" then Some(Critical)
    else None
  }

  /**
   * Upper-casing of one character, as far as it can affect a lookup by
   * priority name: ASCII letters, and the dotless i, whose upper case is `I`.
   */
  function UpperChar(c: char): char {
    if 'a' <= c <= 'z' then (c as int - 32) as char
    else if c == '\U{0131}' then 'I'
    else c
  }

  /** Upper-casing of a string, character by character. */
  function Upper(s: string): (r: string)
    ensures |r| == |s|
    ensures forall i :: 0 <= i < |s| ==> r[i] == UpperChar(s[i])
  {
    if s == [] then [] else [UpperChar(s[0])] + Upper(s[1..])
  }

  // ----- Priority normalisation --------------------------------------------

  /** A priority as a caller may give it: an enum member, a name, or an integer code. */
  datatype PriorityInput =
    | AsEnum(priority: TaskPriority)
    | AsName(name: string)
    | AsCode(code: int)

  /**
   * Normalisation of a given priority: a name is upper-cased and looked up by
   * member name, a code is looked up by value, a member is kept.
   */
  function ResolvePriority(input: PriorityInput): (r: Result<TaskPriority, TaskError>)
    ensures input.AsEnum? ==> r == Ok(input.priority)
    ensures input.AsName? ==> (r.Ok? <==> exists p :: PriorityName(p) == Upper(input.name))
    ensures input.AsName? && r.Ok? ==> PriorityName(r.value) == Upper(input.name)
    ensures input.AsName? && r.Err? ==> r.error == UnknownPriorityName(input.name)
    ensures input.AsCode? ==> (r.Ok? <==> 1 <= input.code <= 4)
    ensures input.AsCode? && r.Ok? ==> PriorityCode(r.value) == input.code
    ensures input.AsCode? && r.Err? ==> r.error == UnknownPriorityCode(input.code)
  {
    match input
    case AsEnum(p) => Ok(p)
    case AsName(name) =>
      (match PriorityFromName(Upper(name))
       case Some(p) => Ok(p)
       case None => Err(UnknownPriorityName(name)))
    case AsCode(n) =>
      (match PriorityFromCode(n)
       case Some(p) => Ok(p)
       case None => Err(UnknownPriorityCode(n)))
  }

  /** Normalisation at construction, where an absent priority means MEDIUM. */
  function NormalizePriority(input: Option<PriorityInput>): (r: Result<TaskPriority, TaskError>)
    ensures input.None? ==> r == Ok(Medium)
    ensures input.Some? ==> r == ResolvePriority(input.value)
    ensures r.Err? ==> !IsValidationError(r.error)
  {
    match input
    case None => Ok(Medium)
    case Some(given) => ResolvePriority(given)
  }

  /** A name resolves to a priority whenever it upper-cases, letter by letter, to that priority's name. */
  lemma NameInAnyCase(p: TaskPriority, name: string)
    requires |name| == |PriorityName(p)|
    requires forall i :: 0 <= i < |name| ==> UpperChar(name[i]) == PriorityName(p)[i]
    ensures ResolvePriority(AsName(name)) == Ok(p)
  {
  }

  /** The three ways of naming a priority all normalise to it. */
  lemma PriorityFormsAgree(p: TaskPriority)
    ensures ResolvePriority(AsEnum(p)) == Ok(p)
    ensures ResolvePriority(AsName(PriorityName(p))) == Ok(p)
    ensures ResolvePriority(AsCode(PriorityCode(p))) == Ok(p)
  {
  }

  /** "high", "HIGH" and any other casing of the name, 3 and HIGH itself all normalise to HIGH. */
  lemma HighInEveryForm()
    ensures NormalizePriority(Some(AsName("high"))) == Ok(High)
    ensures NormalizePriority(Some(AsName("HIGH"))) == Ok(High)
    ensures NormalizePriority(Some(AsName("hIgH"))) == Ok(High)
    ensures NormalizePriority(Some(AsCode(3))) == Ok(High)
    ensures NormalizePriority(Some(AsEnum(High))) == Ok(High)
  {
  }

  /** An unknown name and integers outside 1..4 fail with a lookup error, not a validation error. */
  lemma UnknownPriorityExamples()
    ensures NormalizePriority(Some(AsName("urgent"))) == Err(UnknownPriorityName("urgent"))
    ensures NormalizePriority(Some(AsCode(0))) == Err(UnknownPriorityCode(0))
    ensures NormalizePriority(Some(AsCode(5))) == Err(UnknownPriorityCode(5))
  {
  }
}
