/**
 * The later, full copy of the web application
 * (backups/reports_upgrade_20251002_214626/app.py): todos with due dates,
 * meetings and their tasks, and the request handlers that create, update,
 * link, edit, delete and agree them.
 *
 * A handler is a `Database` method. Its checks are a function returning
 * `Checked<_>`; a refused request commits nothing, so the method leaves every
 * table as it was. An accepted request changes the tables as the named
 * specification functions say.
 */
module App {
  import opened Wrappers
  import opened Config
  import opened Clock
  import opened Records
  import opened Permissions

  // ---------------------------------------------------------------------------
  // Rows
  // ---------------------------------------------------------------------------

  /** A todo title: typed in by a user, or generated from the meeting a task came from. */
  datatype Title = Text(text: string) | MeetingFollowUp(subject: string, meetingDate: int)

  /** A row of the `todo` table. */
  datatype Todo = Todo(
    id: int,
    title: Title,
    description: string,
    status: TodoStatus,
    todoType: TodoType,
    userId: int,
    assignedBy: Option<int>,
    history: seq<Event>,
    createdAt: int,
    updatedAt: int,
    dueDate: int,
    meetingTaskId: Option<int>)

  /** A row of the `archived_todo` table. */
  datatype ArchivedTodo = ArchivedTodo(
    originalTodoId: int,
    title: Title,
    description: string,
    status: TodoStatus,
    todoType: TodoType,
    userId: int,
    assignedBy: Option<int>,
    history: seq<Event>,
    createdAt: int,
    updatedAt: int,
    archivedAt: int,
    dueDate: Option<int>)

  /**
   * A row of the `meeting` table (location and recorder are not modelled).
   * `date` is the column as stored: the Taipei wall time, read as UTC.
   */
  datatype Meeting = Meeting(id: int, subject: string, date: int, chairmanId: int)

  /** A row of the `meeting_task` table. */
  datatype MeetingTask = MeetingTask(
    id: int,
    meetingId: int,
    taskType: MeetingTaskType,
    description: string,
    assignedBy: int,
    assignedTo: int,
    controller: Option<int>,
    expectedCompletion: Option<int>,
    actualCompletion: Option<int>,
    uncompletedReason: Option<string>,
    status: MeetingTaskStatus,
    isAssignedToTodo: bool,
    todoId: Option<int>,
    history: seq<Event>)

  /**
   * A row of the `report_schedule` table. `department` names the unit whose
   * report is sent; `scheduleDay` is a weekday (0 = Monday) and `scheduleTime`
   * minutes after midnight, Taipei time.
   */
  datatype ReportSchedule = ReportSchedule(
    id: int,
    managerId: int,
    department: string,
    isActive: bool,
    scheduleDay: int,
    scheduleTime: int,
    lastSentAt: Option<int>,
    requireNextWeekTasks: bool)

  /**
   * A row of the `scheduled_notification` table. `specificDate` is a Taipei
   * calendar day, `specificTime` minutes after midnight, `weeklyDay` a weekday.
   */
  datatype ScheduledNotification = ScheduledNotification(
    id: int,
    creatorId: int,
    title: string,
    body: string,
    recipientUserIds: string,
    scheduleType: string,
    specificDate: Option<int>,
    specificTime: int,
    weeklyDay: Option<int>,
    isActive: bool,
    lastSentAt: Option<int>)

  /** Python truthiness of an optional request string. */
  predicate Truthy(s: Option<string>) {
    s.Some? && s.value != ""
  }

  // ---------------------------------------------------------------------------
  // add_todo
  // ---------------------------------------------------------------------------

  /** The JSON body of a POST to /api/todo; a missing key is None (or Absent). */
  datatype TodoRequest = TodoRequest(
    targetKey: Option<string>,
    title: Option<string>,
    description: Option<string>,
    todoType: Option<TodoType>,
    dueDate: DateArg)

  predicate HasRequiredFields(req: TodoRequest) {
    req.title.Some? && req.description.Some? && req.todoType.Some? && !req.dueDate.Absent?
  }

  /** The request names an assignee: `if not target_user_key` does not hold. */
  predicate KeyGiven(req: TodoRequest) {
    req.targetKey.Some? && req.targetKey.value != ""
  }

  /** The looked-up user exists and is the caller or someone the caller may assign to. */
  predicate MayReceive(current: Person, target: Option<Person>) {
    target.Some? && (target.value.id == current.id || CanAssignTo(current, target.value))
  }

  /**
   * The checks of `add_todo`: the assignee (the caller when no key is given,
   * else the user with that key, 404 when there is none), the assignment right
   * for someone else (403), the required fields (400) and a parseable due date
   * (400). On success, the assignee and the due date.
   */
  function AddTodoCheck(current: Person, req: TodoRequest, users: seq<Person>): (r: Checked<(Person, int)>)
    ensures r.Pass? <==> (HasRequiredFields(req) && req.dueDate.Given? &&
      (!KeyGiven(req) || MayReceive(current, FindByKey(users, req.targetKey.value))))
    ensures r.Pass? ==> HasRequiredFields(req) && req.dueDate == Given(r.value.1)
    ensures r.Pass? && KeyGiven(req) ==> FindByKey(users, req.targetKey.value) == Some(r.value.0)
    ensures r.Pass? && !KeyGiven(req) ==> r.value.0 == current
    ensures r.Pass? && r.value.0.id != current.id ==> r.value.0 in users && CanAssignTo(current, r.value.0)
    ensures (KeyGiven(req) && FindByKey(users, req.targetKey.value).Some? &&
             !MayReceive(current, FindByKey(users, req.targetKey.value))) ==> r == Fail(AccessDenied)
    ensures ((req.targetKey.None? || req.targetKey == Some("")) && req.title.Some? && req.description.Some? &&
             req.todoType.Some? && req.dueDate.Given?) ==> r == Pass((current, req.dueDate.at))
    ensures req.targetKey.Some? && req.targetKey.value != "" && FindByKey(users, req.targetKey.value).None? ==>
      r == Fail(NotFound)
    ensures r.Fail? ==> r.refusal in {NotFound, AccessDenied, ValidationError}
  {
    var target :=
      if req.targetKey.None? || req.targetKey.value == "" then Pass(current)
      else match FindByKey(users, req.targetKey.value)
        case None => Fail(NotFound)
        case Some(t) =>
          if t.id != current.id && !CanAssignTo(current, t) then Fail(AccessDenied) else Pass(t);
    if target.Fail? then Fail(target.refusal)
    else if !HasRequiredFields(req) then Fail(ValidationError)
    else if req.dueDate.Malformed? then Fail(ValidationError)
    else Pass((target.value, req.dueDate.at))
  }

  /** The pending todo `add_todo` creates. */
  function NewTodo(id: int, current: Person, target: Person, req: TodoRequest, due: int, now: int): (t: Todo)
    requires HasRequiredFields(req)
    ensures t.id == id && t.userId == target.id && t.status == Pending && t.dueDate == due
    ensures t.todoType == req.todoType.value && t.meetingTaskId.None?
    ensures t.assignedBy.None? <==> target.id == current.id
    ensures t.assignedBy.Some? ==> t.assignedBy.value == current.id
    ensures t.history == [Event(now, ActorOf(current), TodoAssigned(target.id, t.assignedBy))]
    ensures t.title == Text(req.title.value) && t.description == req.description.value
    ensures t.createdAt == now && t.updatedAt == now
  {
    var assignedBy := if target.id != current.id then Some(current.id) else None;
    Todo(id, Text(req.title.value), req.description.value, Pending, req.todoType.value, target.id, assignedBy,
      [Event(now, ActorOf(current), TodoAssigned(target.id, assignedBy))], now, now, due, None)
  }

  // ---------------------------------------------------------------------------
  // update_todo_status
  // ---------------------------------------------------------------------------

  /** The JSON body of a PUT to /api/todo/<id>/status. */
  datatype StatusRequest = StatusRequest(status: Option<string>, reason: Option<string>, newDueDate: DateArg)

  /**
   * The checks of `update_todo_status`: the todo exists (404), the status is
   * one of the four (400), the caller owns the todo (403), and a new due date
   * sent with 'uncompleted' parses (400).
   */
  function StatusCheck(current: Person, todos: map<int, Todo>, todoId: int, req: StatusRequest): (r: Checked<TodoStatus>)
    ensures r.Pass? <==> (todoId in todos && req.status.Some? && ParseTodoStatus(req.status.value).Some? &&
      todos[todoId].userId == current.id &&
      !(ParseTodoStatus(req.status.value).value == Uncompleted && req.newDueDate.Malformed?))
    ensures todoId !in todos ==> r == Fail(NotFound)
    ensures r.Pass? ==> todoId in todos && todos[todoId].userId == current.id
    ensures r.Pass? ==> req.status == Some(TodoStatusValue(r.value))
    ensures r.Pass? && r.value == Uncompleted ==> !req.newDueDate.Malformed?
    ensures todoId in todos && (req.status.None? || ParseTodoStatus(req.status.value).None?) ==>
      r == Fail(ValidationError)
    ensures (todoId in todos && req.status.Some? && ParseTodoStatus(req.status.value).Some? &&
             todos[todoId].userId != current.id) ==> r == Fail(AccessDenied)
  {
    if todoId !in todos then Fail(NotFound)
    else if req.status.None? || ParseTodoStatus(req.status.value).None? then Fail(ValidationError)
    else if todos[todoId].userId != current.id then Fail(AccessDenied)
    else
      var s := ParseTodoStatus(req.status.value).value;
      if s == Uncompleted && req.newDueDate.Malformed? then Fail(ValidationError)
      else Pass(s)
  }

  /** The due date an accepted request moves the todo to: only 'uncompleted' with a date does. */
  function NewDueDate(s: TodoStatus, req: StatusRequest): (d: Option<int>)
    ensures d.Some? <==> s == Uncompleted && req.newDueDate.Given?
  {
    if s == Uncompleted && req.newDueDate.Given? then Some(req.newDueDate.at) else None
  }

  /** How many history events a status change appends. */
  function EventCount(newDue: Option<int>): nat {
    if newDue.Some? then 2 else 1
  }

  /**
   * The todo after an accepted status change. 'uncompleted' stores
   * in-progress; with a new due date it first records `due_date_changed` and
   * moves the date. Earlier history entries are never altered.
   */
  function SetStatus(t: Todo, s: TodoStatus, reason: Option<string>, newDue: Option<int>, actor: Person, now: int): (u: Todo)
    requires newDue.Some? ==> s == Uncompleted
    ensures |u.history| == |t.history| + EventCount(newDue) && u.history[..|t.history|] == t.history
    ensures u.history[|u.history| - 1] ==
      Event(now, ActorOf(actor), StatusChanged(t.status, s, if s == Uncompleted then reason else None))
    ensures newDue.Some? ==>
      u.history[|t.history|] == Event(now, ActorOf(actor), DueDateChanged(t.dueDate, newDue.value, reason)) &&
      u.dueDate == newDue.value
    ensures newDue.None? ==> u.dueDate == t.dueDate
    ensures u.status == if s == Uncompleted then InProgress else s
    ensures u.(status := t.status, history := t.history, dueDate := t.dueDate, updatedAt := t.updatedAt) == t
    ensures u.id == t.id && u.userId == t.userId && u.meetingTaskId == t.meetingTaskId
    ensures u.updatedAt == now
  {
    var actorRef := ActorOf(actor);
    if s == Uncompleted then
      var moved :=
        if newDue.Some? then [Event(now, actorRef, DueDateChanged(t.dueDate, newDue.value, reason))] else [];
      t.(status := InProgress, updatedAt := now, dueDate := newDue.GetOr(t.dueDate),
         history := t.history + moved + [Event(now, actorRef, StatusChanged(t.status, Uncompleted, reason))])
    else
      t.(status := s, updatedAt := now,
         history := t.history + [Event(now, actorRef, StatusChanged(t.status, s, None))])
  }

  /**
   * The linked meeting task after its todo's status change: the status table
   * of the mirror, and the todo's last event (preceded by the due-date event
   * when there is one) appended to the task's history.
   */
  function Mirror(task: MeetingTask, s: TodoStatus, reason: Option<string>, newDue: Option<int>,
                  todoHistory: seq<Event>, now: int): (m: MeetingTask)
    requires |todoHistory| >= EventCount(newDue)
    ensures m.history == task.history + todoHistory[|todoHistory| - EventCount(newDue)..]
    ensures m.(status := task.status, actualCompletion := task.actualCompletion,
      uncompletedReason := task.uncompletedReason, expectedCompletion := task.expectedCompletion,
      history := task.history) == task
    ensures s != Uncompleted || newDue.None? ==> m.expectedCompletion == task.expectedCompletion
  {
    var updated :=
      match s
      case Completed =>
        task.(status := TaskCompleted, actualCompletion := Some(now), uncompletedReason := None)
      case InProgress =>
        task.(status := InProgressTodo, actualCompletion := None, uncompletedReason := None)
      case Uncompleted =>
        task.(status := UncompletedTodo, actualCompletion := None, uncompletedReason := reason,
              expectedCompletion := if newDue.Some? then newDue else task.expectedCompletion)
      case Pending =>
        task.(status := MeetingTaskStatus.Assigned, actualCompletion := None, uncompletedReason := None);
    var copied :=
      if newDue.Some? then [todoHistory[|todoHistory| - 2], todoHistory[|todoHistory| - 1]]
      else [todoHistory[|todoHistory| - 1]];
    updated.(history := task.history + copied)
  }

  /** The mirror table: the task status, completion date and reason each todo status leads to. */
  lemma MirrorTable(task: MeetingTask, s: TodoStatus, reason: Option<string>, newDue: Option<int>,
                    todoHistory: seq<Event>, now: int)
    requires |todoHistory| >= EventCount(newDue)
    ensures var m := Mirror(task, s, reason, newDue, todoHistory, now);
      (s == Completed ==> m.status == TaskCompleted && m.actualCompletion == Some(now) && m.uncompletedReason.None?) &&
      (s == InProgress ==> m.status == InProgressTodo && m.actualCompletion.None? && m.uncompletedReason.None?) &&
      (s == Uncompleted ==>
        (m.status == UncompletedTodo && m.actualCompletion.None? && m.uncompletedReason == reason &&
         m.expectedCompletion == (if newDue.Some? then newDue else task.expectedCompletion))) &&
      (s == Pending ==> m.status == MeetingTaskStatus.Assigned && m.actualCompletion.None? && m.uncompletedReason.None?)
  {
  }

  /**
   * 'uncompleted' with a new date D: the todo is in progress and due at D, the
   * linked task expects completion at D, and both histories end with the
   * `due_date_changed` event followed by the `status_changed` event.
   */
  lemma UncompletedWithNewDate(t: Todo, task: MeetingTask, reason: Option<string>, d: int, actor: Person, now: int)
    ensures var u := SetStatus(t, Uncompleted, reason, Some(d), actor, now);
      var m := Mirror(task, Uncompleted, reason, Some(d), u.history, now);
      var moved := Event(now, ActorOf(actor), DueDateChanged(t.dueDate, d, reason));
      var changed := Event(now, ActorOf(actor), StatusChanged(t.status, Uncompleted, reason));
      u.status == InProgress && u.dueDate == d && u.history == t.history + [moved, changed] &&
      m.status == UncompletedTodo && m.expectedCompletion == Some(d) && m.history == task.history + [moved, changed]
  {
    var u := SetStatus(t, Uncompleted, reason, Some(d), actor, now);
    assert u.history == u.history[..|t.history|] + u.history[|t.history|..];
  }

  /** The meeting-task table after a todo status change: only the linked task, if it exists, is mirrored. */
  function MirrorInto(tasks: map<int, MeetingTask>, t: Todo, u: Todo, s: TodoStatus, reason: Option<string>,
                      newDue: Option<int>, now: int): (m: map<int, MeetingTask>)
    requires |u.history| >= EventCount(newDue)
    ensures m.Keys == tasks.Keys
    ensures forall k :: k in tasks && Some(k) != t.meetingTaskId ==> m[k] == tasks[k]
    ensures forall k :: k in tasks ==>
      m[k].id == tasks[k].id && m[k].todoId == tasks[k].todoId &&
      m[k].isAssignedToTodo == tasks[k].isAssignedToTodo && m[k].assignedTo == tasks[k].assignedTo
  {
    if t.meetingTaskId.Some? && t.meetingTaskId.value in tasks then
      tasks[t.meetingTaskId.value := Mirror(tasks[t.meetingTaskId.value], s, reason, newDue, u.history, now)]
    else tasks
  }

  // ---------------------------------------------------------------------------
  // add_meeting_task
  // ---------------------------------------------------------------------------

  /** The JSON body of a POST to /api/add_meeting_task (recorder, location and attendees are not modelled). */
  datatype MeetingTaskRequest = MeetingTaskRequest(
    meetingTopic: Option<string>,
    meetingDate: DateArg,
    chairmanKey: Option<string>,
    discussionTopic: Option<string>,
    taskType: Option<string>,
    description: Option<string>,
    assigneeKey: Option<string>,
    controllerKey: Option<string>,
    expectedDate: DateArg)

  /** What the checks of `add_meeting_task` settle. */
  datatype TaskPlan = TaskPlan(
    taskType: MeetingTaskType,
    meetingDate: int,
    expected: Option<int>,
    chairman: Person,
    assignee: Person,
    controller: Option<Person>)

  /** A date a task may be expected on: a weekday, and (as a Taipei date) not before today's UTC date. */
  predicate ExpectedDateAllowed(e: int, now: int) {
    Weekday(TaipeiDay(e)) < 5 && TaipeiDay(e) >= UtcDay(now)
  }

  /**
   * The checks of `add_meeting_task`, every one answered with 400: the
   * required fields, the task type, a date for a resolution, parseable dates,
   * an expected date on a weekday and not in the past, and an existing
   * chairman and assignee. An unknown controller key is dropped silently.
   */
  function MeetingTaskCheck(req: MeetingTaskRequest, users: seq<Person>, now: int): (r: Checked<TaskPlan>)
    ensures r.Pass? <==> (Truthy(req.meetingTopic) && req.meetingDate.Given? && Truthy(req.chairmanKey) &&
      Truthy(req.discussionTopic) && Truthy(req.taskType) && Truthy(req.description) && Truthy(req.assigneeKey) &&
      ParseMeetingTaskType(req.taskType.value).Some? &&
      !(ParseMeetingTaskType(req.taskType.value).value == Resolution && req.expectedDate.Absent?) &&
      !req.expectedDate.Malformed? && (req.expectedDate.Given? ==> ExpectedDateAllowed(req.expectedDate.at, now)) &&
      FindByKey(users, req.chairmanKey.value).Some? && FindByKey(users, req.assigneeKey.value).Some?)
    ensures r.Pass? ==>
      Some(r.value.chairman) == FindByKey(users, req.chairmanKey.value) &&
      Some(r.value.assignee) == FindByKey(users, req.assigneeKey.value) &&
      r.value.controller == (if Truthy(req.controllerKey) then FindByKey(users, req.controllerKey.value) else None) &&
      r.value.expected == (if req.expectedDate.Given? then Some(req.expectedDate.at) else None)
    ensures r.Fail? ==> r.refusal == ValidationError
    ensures r.Pass? ==>
      Truthy(req.meetingTopic) && Truthy(req.discussionTopic) && Truthy(req.description) &&
      req.meetingDate == Given(r.value.meetingDate) &&
      req.taskType == Some(MeetingTaskTypeValue(r.value.taskType)) &&
      r.value.chairman in users && Some(r.value.chairman.key) == req.chairmanKey &&
      r.value.assignee in users && Some(r.value.assignee.key) == req.assigneeKey
    ensures r.Pass? && r.value.taskType == Resolution ==> r.value.expected.Some?
    ensures r.Pass? && r.value.expected.Some? ==>
      req.expectedDate == Given(r.value.expected.value) && ExpectedDateAllowed(r.value.expected.value, now)
    ensures r.Pass? && r.value.controller.Some? ==>
      r.value.controller.value in users && Some(r.value.controller.value.key) == req.controllerKey
    ensures req.expectedDate.Given? && !ExpectedDateAllowed(req.expectedDate.at, now) ==> r.Fail?
  {
    if !(Truthy(req.meetingTopic) && !req.meetingDate.Absent? && Truthy(req.chairmanKey) &&
         Truthy(req.discussionTopic) && Truthy(req.taskType) && Truthy(req.description) && Truthy(req.assigneeKey)) then
      Fail(ValidationError)
    else if ParseMeetingTaskType(req.taskType.value).None? then Fail(ValidationError)
    else
      var taskType := ParseMeetingTaskType(req.taskType.value).value;
      if taskType == Resolution && req.expectedDate.Absent? then Fail(ValidationError)
      else if req.meetingDate.Malformed? || req.expectedDate.Malformed? then Fail(ValidationError)
      else if req.expectedDate.Given? && Weekday(TaipeiDay(req.expectedDate.at)) >= 5 then Fail(ValidationError)
      else if req.expectedDate.Given? && TaipeiDay(req.expectedDate.at) < UtcDay(now) then Fail(ValidationError)
      else
        var chairman := FindByKey(users, req.chairmanKey.value);
        var assignee := FindByKey(users, req.assigneeKey.value);
        var controller := if Truthy(req.controllerKey) then FindByKey(users, req.controllerKey.value) else None;
        if chairman.None? || assignee.None? then Fail(ValidationError)
        else
          var expected := if req.expectedDate.Given? then Some(req.expectedDate.at) else None;
          Pass(TaskPlan(taskType, req.meetingDate.at, expected, chairman.value, assignee.value, controller))
  }

  /** The meeting a task is filed under: same subject, same calendar day, same chairman. */
  predicate SameMeeting(m: Meeting, subject: string, date: int, chairmanId: int) {
    m.subject == subject && UtcDay(m.date) == TaipeiDay(date) && m.chairmanId == chairmanId
  }

  /** The first meeting with id in [lo, hi) that SameMeeting accepts. */
  function FirstMeeting(meetings: map<int, Meeting>, lo: int, hi: int, subject: string, date: int, chairmanId: int)
    : (r: Option<int>)
    ensures r.Some? ==>
      (lo <= r.value < hi && r.value in meetings && SameMeeting(meetings[r.value], subject, date, chairmanId))
    ensures r.Some? ==> forall k :: lo <= k < r.value && k in meetings ==> !SameMeeting(meetings[k], subject, date, chairmanId)
    ensures r.None? ==> forall k :: lo <= k < hi && k in meetings ==> !SameMeeting(meetings[k], subject, date, chairmanId)
    decreases hi - lo
  {
    if hi <= lo then None
    else if lo in meetings && SameMeeting(meetings[lo], subject, date, chairmanId) then Some(lo)
    else FirstMeeting(meetings, lo + 1, hi, subject, date, chairmanId)
  }

  /** The meeting id a new task is filed under: the first meeting SameMeeting accepts, else the next free id. */
  function MeetingFor(meetings: map<int, Meeting>, nextMeetingId: int, subject: string, date: int, chairmanId: int)
    : (id: int)
    ensures (1 <= id < nextMeetingId && id in meetings && SameMeeting(meetings[id], subject, date, chairmanId)) ||
      (id == nextMeetingId &&
       forall k :: 1 <= k < nextMeetingId && k in meetings ==> !SameMeeting(meetings[k], subject, date, chairmanId))
  {
    var found := FirstMeeting(meetings, 1, nextMeetingId, subject, date, chairmanId);
    if found.Some? then found.value else nextMeetingId
  }

  /** The meeting task `add_meeting_task` creates. */
  function NewMeetingTask(id: int, meetingId: int, current: Person, req: MeetingTaskRequest, plan: TaskPlan, now: int)
    : (m: MeetingTask)
    requires req.description.Some?
    ensures m.status == (if plan.taskType == Tracking then Unassigned else ResolvedExecuting)
    ensures !m.isAssignedToTodo && m.todoId.None? && m.assignedBy == current.id && m.assignedTo == plan.assignee.id
    ensures m.history == [Event(now, ActorOf(current), Created)]
    ensures m.expectedCompletion.Some? <==> plan.expected.Some?
    ensures m.expectedCompletion.Some? ==> m.expectedCompletion.value == TaipeiWallTime(plan.expected.value)
  {
    MeetingTask(id, meetingId, plan.taskType, req.description.value, current.id, plan.assignee.id,
      if plan.controller.Some? then Some(plan.controller.value.id) else None,
      if plan.expected.Some? then Some(TaipeiWallTime(plan.expected.value)) else None, None, None,
      if plan.taskType == Tracking then Unassigned else ResolvedExecuting,
      false, None, [Event(now, ActorOf(current), Created)])
  }

  // ---------------------------------------------------------------------------
  // assign_tracking_task_to_todo
  // ---------------------------------------------------------------------------

  /** What the checks of `assign_tracking_task_to_todo` settle. */
  datatype AssignPlan = AssignPlan(due: int, todoType: TodoType, meeting: Meeting, assignee: Person, assigner: Person)

  /** The last day of the current week, from today's UTC date. */
  function EndOfWeek(now: int): int {
    WeekStart(UtcDay(now)) + 6
  }

  /** The period of the new todo: next iff its date is after this week's Sunday. */
  function PeriodFor(due: int, now: int): (p: TodoType)
    ensures p == Next <==> UtcDay(due) > EndOfWeek(now)
  {
    if UtcDay(due) > EndOfWeek(now) then Next else Current
  }

  /** The user an assignment is recorded against: the task's controller if that user exists, else the caller. */
  function AssignerOf(task: MeetingTask, current: Person, users: seq<Person>): (p: Person)
    ensures task.controller.Some? && FindById(users, task.controller.value).Some? ==>
      p == FindById(users, task.controller.value).value
    ensures task.controller.None? || FindById(users, task.controller.value).None? ==> p == current
  {
    if task.controller.Some? && FindById(users, task.controller.value).Some? then
      FindById(users, task.controller.value).value
    else current
  }

  /**
   * The checks of `assign_tracking_task_to_todo` in their order: the task
   * exists (404), a date is given (400), parses (400), is a weekday (400) and
   * not before today (400); the caller ranks at least team leader or is an
   * admin (403); the task is not yet linked (400); its meeting exists (404);
   * its assignee exists (otherwise the handler fails with a 500).
   */
  function AssignCheck(current: Person, tasks: map<int, MeetingTask>, meetings: map<int, Meeting>,
                       users: seq<Person>, taskId: int, date: DateArg, now: int): (r: Checked<AssignPlan>)
    ensures r.Pass? <==> (taskId in tasks && date.Given? &&
      Weekday(UtcDay(date.at)) < 5 && UtcDay(date.at) >= UtcDay(now) &&
      (Rank(current.level) >= Rank(TeamLeader) || current.level == Admin) &&
      !tasks[taskId].isAssignedToTodo && tasks[taskId].meetingId in meetings &&
      FindById(users, tasks[taskId].assignedTo).Some?)
    ensures taskId !in tasks ==> r == Fail(NotFound)
    ensures taskId in tasks && !date.Given? ==> r == Fail(ValidationError)
    ensures taskId in tasks && date.Given? && (Weekday(UtcDay(date.at)) >= 5 || UtcDay(date.at) < UtcDay(now)) ==>
      r == Fail(ValidationError)
    ensures r.Pass? ==>
      taskId in tasks && date == Given(r.value.due) &&
      Weekday(UtcDay(r.value.due)) < 5 && UtcDay(r.value.due) >= UtcDay(now) &&
      (Rank(current.level) >= Rank(TeamLeader) || current.level == Admin) &&
      !tasks[taskId].isAssignedToTodo &&
      r.value.todoType == PeriodFor(r.value.due, now) &&
      tasks[taskId].meetingId in meetings && r.value.meeting == meetings[tasks[taskId].meetingId] &&
      FindById(users, tasks[taskId].assignedTo) == Some(r.value.assignee) &&
      r.value.assigner == AssignerOf(tasks[taskId], current, users)
    ensures (taskId in tasks && date.Given? && Weekday(UtcDay(date.at)) < 5 &&
             UtcDay(date.at) >= UtcDay(now) && Rank(current.level) < Rank(TeamLeader)) ==> r == Fail(AccessDenied)
    ensures (taskId in tasks && date.Given? && Weekday(UtcDay(date.at)) < 5 && UtcDay(date.at) >= UtcDay(now) &&
             Rank(current.level) >= Rank(TeamLeader) && tasks[taskId].isAssignedToTodo) ==> r == Fail(StateConflict)
  {
    if taskId !in tasks then Fail(NotFound)
    else if !date.Given? then Fail(ValidationError)
    else if Weekday(UtcDay(date.at)) >= 5 then Fail(ValidationError)
    else if UtcDay(date.at) < UtcDay(now) then Fail(ValidationError)
    else if !(Rank(current.level) >= Rank(TeamLeader) || current.level == Admin) then Fail(AccessDenied)
    else
      var task := tasks[taskId];
      if task.isAssignedToTodo then Fail(StateConflict)
      else if task.meetingId !in meetings then Fail(NotFound)
      else match FindById(users, task.assignedTo)
        case None => Fail(Crash)
        case Some(assignee) =>
          Pass(AssignPlan(date.at, PeriodFor(date.at, now), meetings[task.meetingId], assignee,
            AssignerOf(task, current, users)))
  }

  /** The pending todo a tracking task becomes. */
  function TrackingTodo(id: int, task: MeetingTask, plan: AssignPlan, now: int): (t: Todo)
    ensures t.id == id && t.status == Pending && t.userId == task.assignedTo && t.dueDate == plan.due
    ensures t.todoType == plan.todoType && t.meetingTaskId == Some(task.id) && t.assignedBy == Some(plan.assigner.id)
    ensures t.title == MeetingFollowUp(plan.meeting.subject, plan.meeting.date) && t.description == task.description
    ensures t.history ==
      [Event(now, ActorOf(plan.assigner), AssignedFromMeeting(plan.meeting.subject, plan.assignee.id, plan.assigner.id))]
    ensures t.createdAt == now && t.updatedAt == now
  {
    Todo(id, MeetingFollowUp(plan.meeting.subject, plan.meeting.date), task.description, Pending, plan.todoType,
      task.assignedTo, Some(plan.assigner.id),
      [Event(now, ActorOf(plan.assigner), AssignedFromMeeting(plan.meeting.subject, plan.assignee.id, plan.assigner.id))],
      now, now, plan.due, Some(task.id))
  }

  /** The task once linked to the todo with id `todoId`. */
  function LinkTask(task: MeetingTask, todoId: int, plan: AssignPlan, now: int): (m: MeetingTask)
    ensures m.isAssignedToTodo && m.todoId == Some(todoId) && m.status == MeetingTaskStatus.Assigned
    ensures m.expectedCompletion == Some(plan.due)
    ensures m.history == task.history +
      [Event(now, ActorOf(plan.assigner), AssignedToTodo(todoId, plan.assignee.id, plan.assigner.id))]
    ensures m.(isAssignedToTodo := task.isAssignedToTodo, todoId := task.todoId, status := task.status,
      expectedCompletion := task.expectedCompletion, history := task.history) == task
  {
    task.(expectedCompletion := Some(plan.due), isAssignedToTodo := true, status := MeetingTaskStatus.Assigned,
          todoId := Some(todoId),
          history := task.history +
            [Event(now, ActorOf(plan.assigner), AssignedToTodo(todoId, plan.assignee.id, plan.assigner.id))])
  }

  // ---------------------------------------------------------------------------
  // manage_meeting_task and agree_meeting_task
  // ---------------------------------------------------------------------------

  /** `can_manage_overall`: admin, plant manager, manager, the chairman, the task's creator or its assignee. */
  predicate CanManage(current: Person, task: MeetingTask, meeting: Meeting) {
    current.level == Admin || current.level == PlantManager || current.level == Manager ||
    current.id == meeting.chairmanId || current.id == task.assignedBy || current.id == task.assignedTo
  }

  /** `can_edit_assignees`: admin, executive manager, plant manager or manager. */
  predicate CanEditAssignees(current: Person) {
    current.level == Admin || current.level == ExecutiveManager ||
    current.level == PlantManager || current.level == Manager
  }

  /** The JSON body of a PUT to /api/meeting_task/<id>; a missing key is None. */
  datatype EditRequest = EditRequest(
    assigneeKey: Option<string>,
    controllerKey: Option<string>,
    description: Option<string>,
    discussionTopic: Option<string>)

  /** The fields an accepted edit leaves the task with, the new discussion topic if any, and the recorded changes. */
  datatype EditPlan = EditPlan(
    assignedTo: int,
    controller: Option<int>,
    description: string,
    topic: Option<string>,
    changes: seq<FieldChange>)

  /** The checks shared by the PUT and DELETE of `manage_meeting_task`: task (404), meeting (404), permission (403). */
  function ManageCheck(current: Person, tasks: map<int, MeetingTask>, meetings: map<int, Meeting>, taskId: int)
    : (r: Checked<MeetingTask>)
    ensures r.Pass? <==>
      (taskId in tasks && tasks[taskId].meetingId in meetings &&
       CanManage(current, tasks[taskId], meetings[tasks[taskId].meetingId]))
    ensures r.Pass? ==> r.value == tasks[taskId]
  {
    if taskId !in tasks then Fail(NotFound)
    else if tasks[taskId].meetingId !in meetings then Fail(NotFound)
    else if !CanManage(current, tasks[taskId], meetings[tasks[taskId].meetingId]) then Fail(AccessDenied)
    else Pass(tasks[taskId])
  }

  /** The key of the user with this id, if there is one (`task.assigned_to_user.user_key`). */
  function KeyOf(users: seq<Person>, id: Option<int>): Option<string> {
    if id.Some? && FindById(users, id.value).Some? then Some(FindById(users, id.value).value.key) else None
  }

  /** The request names an assignee other than the task's current one. */
  predicate AssigneeChange(users: seq<Person>, task: MeetingTask, req: EditRequest) {
    req.assigneeKey.Some? && req.assigneeKey != KeyOf(users, Some(task.assignedTo))
  }

  /** The request names a controller other than the task's current one. */
  predicate ControllerChange(users: seq<Person>, task: MeetingTask, req: EditRequest) {
    req.controllerKey.Some? && req.controllerKey != KeyOf(users, task.controller)
  }

  /**
   * The PUT of `manage_meeting_task`. After the shared checks: a finalized
   * task is refused (400); an assignee or controller change needs
   * CanEditAssignees (403), an unlinked task (400) and an existing new user
   * (404); then the description and the discussion topic may change.
   */
  function EditCheck(current: Person, tasks: map<int, MeetingTask>, meetings: map<int, Meeting>,
                     topics: map<int, string>, users: seq<Person>, taskId: int, req: EditRequest)
    : (r: Checked<EditPlan>)
    ensures r.Pass? <==> (ManageCheck(current, tasks, meetings, taskId).Pass? &&
      tasks[taskId].status != AgreedFinalized &&
      (AssigneeChange(users, tasks[taskId], req) || ControllerChange(users, tasks[taskId], req) ==>
        CanEditAssignees(current) && !tasks[taskId].isAssignedToTodo) &&
      (AssigneeChange(users, tasks[taskId], req) ==>
        FindByKey(users, req.assigneeKey.value).Some? && FindById(users, tasks[taskId].assignedTo).Some?) &&
      (ControllerChange(users, tasks[taskId], req) ==> FindByKey(users, req.controllerKey.value).Some?))
    ensures r.Pass? ==> ManageCheck(current, tasks, meetings, taskId).Pass?
    ensures r.Pass? ==>
      r.value.assignedTo == (if AssigneeChange(users, tasks[taskId], req)
        then FindByKey(users, req.assigneeKey.value).value.id else tasks[taskId].assignedTo) &&
      r.value.controller == (if ControllerChange(users, tasks[taskId], req)
        then Some(FindByKey(users, req.controllerKey.value).value.id) else tasks[taskId].controller) &&
      r.value.description == (if req.description.Some? then req.description.value else tasks[taskId].description)
    ensures taskId in tasks && tasks[taskId].status == AgreedFinalized ==> r.Fail?
    ensures r.Pass? && (r.value.assignedTo != tasks[taskId].assignedTo || r.value.controller != tasks[taskId].controller) ==>
      CanEditAssignees(current) && !tasks[taskId].isAssignedToTodo
    ensures r.Pass? && tasks[taskId].isAssignedToTodo ==>
      r.value.assignedTo == tasks[taskId].assignedTo && r.value.controller == tasks[taskId].controller
    ensures r.Pass? && r.value.changes == [] ==>
      r.value.assignedTo == tasks[taskId].assignedTo && r.value.controller == tasks[taskId].controller &&
      r.value.description == tasks[taskId].description && r.value.topic.None?
    ensures r.Pass? && r.value.topic.Some? ==> tasks[taskId].meetingId in topics
    ensures r.Pass? && r.value.topic.Some? ==>
      (r.value.topic == req.discussionTopic && r.value.topic.value != topics[tasks[taskId].meetingId])
    ensures r.Pass? ==> (r.value.topic.Some? <==>
      (tasks[taskId].meetingId in topics && req.discussionTopic.Some? &&
       req.discussionTopic.value != topics[tasks[taskId].meetingId]))
  {
    var check := ManageCheck(current, tasks, meetings, taskId);
    if check.Fail? then Fail(check.refusal)
    else
      var task := check.value;
      if task.status == AgreedFinalized then Fail(StateConflict)
      else
        var assigneeChanged := AssigneeChange(users, task, req);
        var controllerChanged := ControllerChange(users, task, req);
        if (assigneeChanged || controllerChanged) && !CanEditAssignees(current) then Fail(AccessDenied)
        else if (assigneeChanged || controllerChanged) && task.isAssignedToTodo then Fail(StateConflict)
        else if assigneeChanged && FindByKey(users, req.assigneeKey.value).None? then Fail(NotFound)
        else if assigneeChanged && FindById(users, task.assignedTo).None? then Fail(Crash)
        else if controllerChanged && FindByKey(users, req.controllerKey.value).None? then Fail(NotFound)
        else
          var assignedTo := if assigneeChanged then FindByKey(users, req.assigneeKey.value).value.id else task.assignedTo;
          var controller := if controllerChanged then Some(FindByKey(users, req.controllerKey.value).value.id) else task.controller;
          var description := if req.description.Some? then req.description.value else task.description;
          var topicChanged := task.meetingId in topics && req.discussionTopic.Some? &&
            req.discussionTopic.value != topics[task.meetingId];
          var changes :=
            (if assigneeChanged then [AssigneeChanged(task.assignedTo, assignedTo)] else []) +
            (if controllerChanged then [ControllerChanged(task.controller, controller.value)] else []) +
            (if description != task.description then [DescriptionChanged(task.description, description)] else []) +
            (if topicChanged then [TopicChanged(topics[task.meetingId], req.discussionTopic.value)] else []);
          Pass(EditPlan(assignedTo, controller, description,
            if topicChanged then req.discussionTopic else None, changes))
  }

  /** The task after an accepted edit that changed something: the new fields and one 'updated' event. */
  function ApplyEdit(task: MeetingTask, plan: EditPlan, current: Person, now: int): (m: MeetingTask)
    ensures m.history == task.history + [Event(now, ActorOf(current), Updated(plan.changes))]
    ensures m.assignedTo == plan.assignedTo && m.controller == plan.controller && m.description == plan.description
    ensures m.status == task.status && m.todoId == task.todoId && m.isAssignedToTodo == task.isAssignedToTodo
    ensures m.(assignedTo := task.assignedTo, controller := task.controller, description := task.description,
      history := task.history) == task
  {
    task.(assignedTo := plan.assignedTo, controller := plan.controller, description := plan.description,
          history := task.history + [Event(now, ActorOf(current), Updated(plan.changes))])
  }

  /** The DELETE of `manage_meeting_task`: after the shared checks, a finalized or linked task is refused (400). */
  function DeleteCheck(current: Person, tasks: map<int, MeetingTask>, meetings: map<int, Meeting>, taskId: int)
    : (r: Checked<MeetingTask>)
    ensures r.Pass? <==>
      (ManageCheck(current, tasks, meetings, taskId).Pass? &&
       tasks[taskId].status != AgreedFinalized && !tasks[taskId].isAssignedToTodo)
  {
    var check := ManageCheck(current, tasks, meetings, taskId);
    if check.Fail? then check
    else if check.value.status == AgreedFinalized then Fail(StateConflict)
    else if check.value.isAssignedToTodo then Fail(StateConflict)
    else check
  }

  /** `agree_meeting_task`: the task exists (404), the caller is its assignee or an admin (403), it is not yet finalized (400). */
  function AgreeCheck(current: Person, tasks: map<int, MeetingTask>, taskId: int): (r: Checked<MeetingTask>)
    ensures r.Pass? <==>
      (taskId in tasks && (current.id == tasks[taskId].assignedTo || current.level == Admin) &&
       tasks[taskId].status != AgreedFinalized)
    ensures (taskId in tasks && (current.id == tasks[taskId].assignedTo || current.level == Admin) &&
             tasks[taskId].status == AgreedFinalized) ==> r == Fail(StateConflict)
  {
    if taskId !in tasks then Fail(NotFound)
    else if !(current.id == tasks[taskId].assignedTo || current.level == Admin) then Fail(AccessDenied)
    else if tasks[taskId].status == AgreedFinalized then Fail(StateConflict)
    else Pass(tasks[taskId])
  }

  /** The task once agreed: finalized, with one `agreed_finalized` event. */
  function Agree(task: MeetingTask, current: Person, now: int): (m: MeetingTask)
    ensures m.status == AgreedFinalized
    ensures m.history == task.history + [Event(now, ActorOf(current), Agreed)]
    ensures m.(status := task.status, history := task.history) == task
  {
    task.(status := AgreedFinalized, history := task.history + [Event(now, ActorOf(current), Agreed)])
  }

  // ---------------------------------------------------------------------------
  // The store
  // ---------------------------------------------------------------------------

  /**
   * The link between todos and meeting tasks, among live rows: a task is
   * linked exactly when it names a todo; a live todo that names a live task
   * is the one that task names, and a live task names a live todo only if
   * that todo names it back and belongs to the task's assignee. Both point
   * only at ids already handed out. A task may keep naming a todo the weekly
   * job has deleted.
   */
  ghost predicate LinksConsistent(todos: map<int, Todo>, tasks: map<int, MeetingTask>, nextTodoId: int, nextTaskId: int) {
    (forall m :: m in tasks ==> (tasks[m].isAssignedToTodo <==> tasks[m].todoId.Some?)) &&
    (forall m :: m in tasks && tasks[m].todoId.Some? ==> tasks[m].todoId.value < nextTodoId) &&
    (forall k :: k in todos && todos[k].meetingTaskId.Some? ==> 1 <= todos[k].meetingTaskId.value < nextTaskId) &&
    (forall k :: k in todos && todos[k].meetingTaskId.Some? && todos[k].meetingTaskId.value in tasks ==>
      tasks[todos[k].meetingTaskId.value].todoId == Some(k)) &&
    (forall m :: m in tasks && tasks[m].todoId.Some? && tasks[m].todoId.value in todos ==>
      todos[tasks[m].todoId.value].meetingTaskId == Some(m) &&
      todos[tasks[m].todoId.value].userId == tasks[m].assignedTo)
  }

  /** A new task under the next free id, not linked to any todo, keeps the link consistent. */
  lemma AddUnlinkedTask(todos: map<int, Todo>, tasks: map<int, MeetingTask>, nextTodoId: int, nextTaskId: int,
                        task: MeetingTask)
    requires LinksConsistent(todos, tasks, nextTodoId, nextTaskId)
    requires nextTaskId !in tasks && !task.isAssignedToTodo && task.todoId.None?
    ensures LinksConsistent(todos, tasks[nextTaskId := task], nextTodoId, nextTaskId + 1)
  {
    var tasks' := tasks[nextTaskId := task];
    forall k | k in todos && todos[k].meetingTaskId.Some? && todos[k].meetingTaskId.value in tasks'
      ensures tasks'[todos[k].meetingTaskId.value].todoId == Some(k)
    {
      assert todos[k].meetingTaskId.value < nextTaskId;
    }
  }

  /**
   * Rewriting rows without touching the link columns (a todo's task and
   * owner, a task's todo, linked flag and, while linked, assignee) keeps the
   * link consistent.
   */
  lemma SameLinks(todos: map<int, Todo>, tasks: map<int, MeetingTask>, todos': map<int, Todo>,
                  tasks': map<int, MeetingTask>, nextTodoId: int, nextTaskId: int)
    requires LinksConsistent(todos, tasks, nextTodoId, nextTaskId)
    requires todos'.Keys == todos.Keys && tasks'.Keys == tasks.Keys
    requires forall k :: k in todos ==>
      todos'[k].meetingTaskId == todos[k].meetingTaskId && todos'[k].userId == todos[k].userId
    requires forall m :: m in tasks ==>
      tasks'[m].todoId == tasks[m].todoId && tasks'[m].isAssignedToTodo == tasks[m].isAssignedToTodo &&
      (tasks[m].todoId.Some? ==> tasks'[m].assignedTo == tasks[m].assignedTo)
    ensures LinksConsistent(todos', tasks', nextTodoId, nextTaskId)
  {
  }

  /** Linking an unlinked task to a new todo under the next free id, owned by its assignee, keeps the link consistent. */
  lemma LinkNewTodo(todos: map<int, Todo>, tasks: map<int, MeetingTask>, nextTodoId: int, nextTaskId: int,
                    taskId: int, todo: Todo, task: MeetingTask)
    requires LinksConsistent(todos, tasks, nextTodoId, nextTaskId)
    requires nextTodoId !in todos && taskId in tasks && 1 <= taskId < nextTaskId && !tasks[taskId].isAssignedToTodo
    requires todo.meetingTaskId == Some(taskId) && todo.userId == task.assignedTo
    requires task.todoId == Some(nextTodoId) && task.isAssignedToTodo
    ensures LinksConsistent(todos[nextTodoId := todo], tasks[taskId := task], nextTodoId + 1, nextTaskId)
  {
    var todos', tasks' := todos[nextTodoId := todo], tasks[taskId := task];
    forall k | k in todos' && todos'[k].meetingTaskId.Some? && todos'[k].meetingTaskId.value in tasks'
      ensures tasks'[todos'[k].meetingTaskId.value].todoId == Some(k)
    {
      if k != nextTodoId && todos[k].meetingTaskId.value in tasks {
        assert tasks[todos[k].meetingTaskId.value].todoId == Some(k);
      }
    }
  }

  /** The keyed tables: every row stored under its own id, below the next id to hand out, and the link consistent. */
  ghost predicate Tables(todos: map<int, Todo>, meetings: map<int, Meeting>, tasks: map<int, MeetingTask>,
                         nextTodoId: int, nextMeetingId: int, nextTaskId: int) {
    1 <= nextTodoId && 1 <= nextMeetingId && 1 <= nextTaskId &&
    (forall k :: k in todos ==> todos[k].id == k && 1 <= k < nextTodoId) &&
    (forall k :: k in meetings ==> meetings[k].id == k && 1 <= k < nextMeetingId) &&
    (forall k :: k in tasks ==> tasks[k].id == k && 1 <= k < nextTaskId) &&
    LinksConsistent(todos, tasks, nextTodoId, nextTaskId)
  }

  /** A status change and its mirror keep the tables valid. */
  lemma StatusKeepsTables(todos: map<int, Todo>, meetings: map<int, Meeting>, tasks: map<int, MeetingTask>,
                          nextTodoId: int, nextMeetingId: int, nextTaskId: int,
                          todoId: int, s: TodoStatus, reason: Option<string>, newDue: Option<int>, actor: Person, now: int)
    requires Tables(todos, meetings, tasks, nextTodoId, nextMeetingId, nextTaskId)
    requires todoId in todos && (newDue.Some? ==> s == Uncompleted)
    ensures var u := SetStatus(todos[todoId], s, reason, newDue, actor, now);
      Tables(todos[todoId := u], meetings, MirrorInto(tasks, todos[todoId], u, s, reason, newDue, now),
             nextTodoId, nextMeetingId, nextTaskId)
  {
    var u := SetStatus(todos[todoId], s, reason, newDue, actor, now);
    SameLinks(todos, tasks, todos[todoId := u], MirrorInto(tasks, todos[todoId], u, s, reason, newDue, now),
              nextTodoId, nextTaskId);
  }

  /** Creating the tracking todo under the next free id and linking the task to it keeps the tables valid. */
  lemma AssignKeepsTables(todos: map<int, Todo>, meetings: map<int, Meeting>, tasks: map<int, MeetingTask>,
                          nextTodoId: int, nextMeetingId: int, nextTaskId: int,
                          taskId: int, plan: AssignPlan, now: int)
    requires Tables(todos, meetings, tasks, nextTodoId, nextMeetingId, nextTaskId)
    requires taskId in tasks && !tasks[taskId].isAssignedToTodo
    ensures Tables(todos[nextTodoId := TrackingTodo(nextTodoId, tasks[taskId], plan, now)], meetings,
                   tasks[taskId := LinkTask(tasks[taskId], nextTodoId, plan, now)],
                   nextTodoId + 1, nextMeetingId, nextTaskId)
  {
    LinkNewTodo(todos, tasks, nextTodoId, nextTaskId, taskId, TrackingTodo(nextTodoId, tasks[taskId], plan, now),
                LinkTask(tasks[taskId], nextTodoId, plan, now));
  }

  /** An accepted edit, which leaves a linked task's assignee alone, keeps the tables valid. */
  lemma EditKeepsTables(todos: map<int, Todo>, meetings: map<int, Meeting>, tasks: map<int, MeetingTask>,
                        nextTodoId: int, nextMeetingId: int, nextTaskId: int,
                        taskId: int, plan: EditPlan, current: Person, now: int)
    requires Tables(todos, meetings, tasks, nextTodoId, nextMeetingId, nextTaskId)
    requires taskId in tasks && (tasks[taskId].isAssignedToTodo ==> plan.assignedTo == tasks[taskId].assignedTo)
    ensures Tables(todos, meetings, tasks[taskId := ApplyEdit(tasks[taskId], plan, current, now)],
                   nextTodoId, nextMeetingId, nextTaskId)
  {
    SameLinks(todos, tasks, todos, tasks[taskId := ApplyEdit(tasks[taskId], plan, current, now)], nextTodoId, nextTaskId);
  }

  /** Report schedules are rows with distinct primary keys. */
  predicate DistinctScheduleIds(schedules: seq<ReportSchedule>) {
    forall i, j :: 0 <= i < j < |schedules| ==> schedules[i].id != schedules[j].id
  }

  /** Scheduled notifications are rows with distinct primary keys. */
  predicate DistinctNotificationIds(notifications: seq<ScheduledNotification>) {
    forall i, j :: 0 <= i < j < |notifications| ==> notifications[i].id != notifications[j].id
  }

  class Database {
    var users: seq<Person>
    var todos: map<int, Todo>
    var archived: seq<ArchivedTodo>
    var meetings: map<int, Meeting>
    /** The topic of each meeting's discussion item (at most one per meeting). */
    var topics: map<int, string>
    var tasks: map<int, MeetingTask>
    var schedules: seq<ReportSchedule>
    var notifications: seq<ScheduledNotification>
    var nextTodoId: int
    var nextMeetingId: int
    var nextTaskId: int

    ghost predicate Valid()
      reads this
    {
      TablesValid() && DistinctScheduleIds(schedules) && DistinctNotificationIds(notifications)
    }

    /** The id counters, the three keyed tables and the links between todos and meeting tasks. */
    ghost predicate TablesValid()
      reads this`nextTodoId, this`nextMeetingId, this`nextTaskId, this`todos, this`meetings, this`tasks
    {
      Tables(todos, meetings, tasks, nextTodoId, nextMeetingId, nextTaskId)
    }

    constructor (initialUsers: seq<Person>, initialSchedules: seq<ReportSchedule>,
                 initialNotifications: seq<ScheduledNotification>)
      requires DistinctScheduleIds(initialSchedules) && DistinctNotificationIds(initialNotifications)
      ensures Valid() && users == initialUsers && schedules == initialSchedules && notifications == initialNotifications
      ensures todos == map[] && archived == [] && meetings == map[] && topics == map[] && tasks == map[]
    {
      users := initialUsers;
      todos := map[];
      archived := [];
      meetings := map[];
      topics := map[];
      tasks := map[];
      schedules := initialSchedules;
      notifications := initialNotifications;
      nextTodoId := 1;
      nextMeetingId := 1;
      nextTaskId := 1;
    }

    /** `add_todo`: creates the pending todo under a fresh id when the checks pass, and changes nothing otherwise. */
    method AddTodo(current: Person, req: TodoRequest, now: int) returns (r: Response)
      requires Valid()
      modifies this`todos, this`nextTodoId
      ensures Valid()
      ensures AddTodoCheck(current, req, old(users)).Fail? ==>
        r == AddTodoCheck(current, req, old(users)).refusal && todos == old(todos) && nextTodoId == old(nextTodoId)
      ensures AddTodoCheck(current, req, old(users)).Pass? ==>
        var (target, due) := AddTodoCheck(current, req, old(users)).value;
        r == CreatedWithId(old(nextTodoId)) && nextTodoId == old(nextTodoId) + 1 &&
        todos == old(todos)[old(nextTodoId) := NewTodo(old(nextTodoId), current, target, req, due, now)]
    {
      var check := AddTodoCheck(current, req, users);
      if check.Fail? {
        return check.refusal;
      }
      var id := nextTodoId;
      todos := todos[id := NewTodo(id, current, check.value.0, req, check.value.1, now)];
      nextTodoId := nextTodoId + 1;
      r := CreatedWithId(id);
    }

    /**
     * `update_todo_status`: applies SetStatus to the todo and, when it is
     * linked to a live meeting task, Mirror to that task.
     */
    method UpdateTodoStatus(current: Person, todoId: int, req: StatusRequest, now: int) returns (r: Response)
      requires Valid()
      modifies this`todos, this`tasks
      ensures Valid()
      ensures StatusCheck(current, old(todos), todoId, req).Fail? ==>
        r == StatusCheck(current, old(todos), todoId, req).refusal && todos == old(todos) && tasks == old(tasks)
      ensures StatusCheck(current, old(todos), todoId, req).Pass? ==>
        var s := StatusCheck(current, old(todos), todoId, req).value;
        var t := old(todos)[todoId];
        var u := SetStatus(t, s, req.reason, NewDueDate(s, req), current, now);
        r == Done && todos == old(todos)[todoId := u] &&
        tasks == MirrorInto(old(tasks), t, u, s, req.reason, NewDueDate(s, req), now)
    {
      var check := StatusCheck(current, todos, todoId, req);
      if check.Fail? {
        return check.refusal;
      }
      var s := check.value;
      var newDue := NewDueDate(s, req);
      var t := todos[todoId];
      var u := SetStatus(t, s, req.reason, newDue, current, now);
      StatusKeepsTables(todos, meetings, tasks, nextTodoId, nextMeetingId, nextTaskId,
                        todoId, s, req.reason, newDue, current, now);
      todos := todos[todoId := u];
      tasks := MirrorInto(tasks, t, u, s, req.reason, newDue, now);
      r := Done;
    }

    /**
     * `add_meeting_task`: when the checks pass, files the task under the first
     * meeting with the same subject, day and chairman (creating the meeting
     * when there is none), gives that meeting a discussion topic if it has
     * none, and creates the task.
     */
    method AddMeetingTask(current: Person, req: MeetingTaskRequest, now: int) returns (r: Response)
      requires Valid()
      modifies this`meetings, this`topics, this`nextMeetingId, this`tasks, this`nextTaskId
      ensures Valid()
      ensures MeetingTaskCheck(req, old(users), now).Fail? ==>
        r == ValidationError && tasks == old(tasks) && meetings == old(meetings) && topics == old(topics)
      ensures MeetingTaskCheck(req, old(users), now).Fail? ==> nextMeetingId == old(nextMeetingId) && nextTaskId == old(nextTaskId)
      ensures MeetingTaskCheck(req, old(users), now).Pass? ==>
        var plan := MeetingTaskCheck(req, old(users), now).value;
        var subject := req.meetingTopic.value;
        var mid := MeetingFor(old(meetings), old(nextMeetingId), subject, plan.meetingDate, plan.chairman.id);
        r == Done && nextTaskId == old(nextTaskId) + 1 &&
        nextMeetingId == (if mid in old(meetings) then old(nextMeetingId) else old(nextMeetingId) + 1) &&
        meetings == (if mid in old(meetings) then old(meetings)
                     else old(meetings)[mid := Meeting(mid, subject, TaipeiWallTime(plan.meetingDate), plan.chairman.id)]) &&
        topics == (if mid in old(topics) then old(topics) else old(topics)[mid := req.discussionTopic.value]) &&
        tasks == old(tasks)[old(nextTaskId) := NewMeetingTask(old(nextTaskId), mid, current, req, plan, now)]
    {
      var check := MeetingTaskCheck(req, users, now);
      if check.Fail? {
        return check.refusal;
      }
      var plan := check.value;
      var meetingId := FileUnderMeeting(req.meetingTopic.value, plan.meetingDate, plan.chairman.id, req.discussionTopic.value);
      InsertTask(NewMeetingTask(nextTaskId, meetingId, current, req, plan, now));
      r := Done;
    }

    /** Stores an unlinked task under the next free task id. */
    method InsertTask(task: MeetingTask)
      requires Valid() && task.id == nextTaskId && !task.isAssignedToTodo && task.todoId.None?
      modifies this`tasks, this`nextTaskId
      ensures Valid()
      ensures tasks == old(tasks)[old(nextTaskId) := task] && nextTaskId == old(nextTaskId) + 1
    {
      AddUnlinkedTask(todos, tasks, nextTodoId, nextTaskId, task);
      tasks := tasks[nextTaskId := task];
      nextTaskId := nextTaskId + 1;
    }

    /**
     * The find-or-create step of `add_meeting_task`: the meeting MeetingFor
     * names, created when it does not exist, given `topic` as its discussion
     * topic when it has none.
     */
    method FileUnderMeeting(subject: string, date: int, chairmanId: int, topic: string) returns (meetingId: int)
      requires Valid()
      modifies this`meetings, this`topics, this`nextMeetingId
      ensures Valid()
      ensures meetingId == MeetingFor(old(meetings), old(nextMeetingId), subject, date, chairmanId)
      ensures meetingId in meetings && meetingId in topics
      ensures meetings == (if meetingId in old(meetings) then old(meetings)
                           else old(meetings)[meetingId := Meeting(meetingId, subject, TaipeiWallTime(date), chairmanId)])
      ensures nextMeetingId == if meetingId in old(meetings) then old(nextMeetingId) else old(nextMeetingId) + 1
      ensures topics == if meetingId in old(topics) then old(topics) else old(topics)[meetingId := topic]
    {
      meetingId := MeetingFor(meetings, nextMeetingId, subject, date, chairmanId);
      if meetingId !in meetings {
        meetings := meetings[meetingId := Meeting(meetingId, subject, TaipeiWallTime(date), chairmanId)];
        nextMeetingId := nextMeetingId + 1;
      }
      if meetingId !in topics {
        topics := topics[meetingId := topic];
      }
    }

    /**
     * `assign_tracking_task_to_todo`: when the checks pass, creates the
     * tracking todo under a fresh id and links the task to it.
     */
    method AssignTrackingTaskToTodo(current: Person, taskId: int, date: DateArg, now: int) returns (r: Response)
      requires Valid()
      modifies this`todos, this`tasks, this`nextTodoId
      ensures Valid()
      ensures AssignCheck(current, old(tasks), old(meetings), old(users), taskId, date, now).Fail? ==>
        r == AssignCheck(current, old(tasks), old(meetings), old(users), taskId, date, now).refusal &&
        todos == old(todos) && tasks == old(tasks) && nextTodoId == old(nextTodoId)
      ensures AssignCheck(current, old(tasks), old(meetings), old(users), taskId, date, now).Pass? ==>
        var plan := AssignCheck(current, old(tasks), old(meetings), old(users), taskId, date, now).value;
        var id := old(nextTodoId);
        r == Done && nextTodoId == id + 1 &&
        todos == old(todos)[id := TrackingTodo(id, old(tasks)[taskId], plan, now)] &&
        tasks == old(tasks)[taskId := LinkTask(old(tasks)[taskId], id, plan, now)]
    {
      var check := AssignCheck(current, tasks, meetings, users, taskId, date, now);
      if check.Fail? {
        return check.refusal;
      }
      var plan := check.value;
      var id := nextTodoId;
      var task := tasks[taskId];
      AssignKeepsTables(todos, meetings, tasks, nextTodoId, nextMeetingId, nextTaskId, taskId, plan, now);
      todos := todos[id := TrackingTodo(id, task, plan, now)];
      tasks := tasks[taskId := LinkTask(task, id, plan, now)];
      nextTodoId := nextTodoId + 1;
      r := Done;
    }

    /**
     * The PUT of `manage_meeting_task`: an accepted edit that changes
     * something updates the task and the discussion topic and appends one
     * 'updated' event; one that changes nothing answers NoChange.
     */
    method EditMeetingTask(current: Person, taskId: int, req: EditRequest, now: int) returns (r: Response)
      requires Valid()
      modifies this`tasks, this`topics
      ensures Valid()
      ensures EditCheck(current, old(tasks), old(meetings), old(topics), old(users), taskId, req).Fail? ==>
        r == EditCheck(current, old(tasks), old(meetings), old(topics), old(users), taskId, req).refusal &&
        tasks == old(tasks) && topics == old(topics)
      ensures EditCheck(current, old(tasks), old(meetings), old(topics), old(users), taskId, req).Pass? ==>
        var plan := EditCheck(current, old(tasks), old(meetings), old(topics), old(users), taskId, req).value;
        var task := old(tasks)[taskId];
        (plan.changes == [] ==> r == NoChange && tasks == old(tasks) && topics == old(topics)) &&
        (plan.changes != [] ==>
          (r == Done && tasks == old(tasks)[taskId := ApplyEdit(task, plan, current, now)] &&
           topics == (if plan.topic.Some? then old(topics)[task.meetingId := plan.topic.value] else old(topics))))
    {
      var check := EditCheck(current, tasks, meetings, topics, users, taskId, req);
      if check.Fail? {
        return check.refusal;
      }
      var plan := check.value;
      if plan.changes == [] {
        return NoChange;
      }
      var task := tasks[taskId];
      EditKeepsTables(todos, meetings, tasks, nextTodoId, nextMeetingId, nextTaskId, taskId, plan, current, now);
      tasks := tasks[taskId := ApplyEdit(task, plan, current, now)];
      if plan.topic.Some? {
        topics := topics[task.meetingId := plan.topic.value];
      }
      r := Done;
    }

    /** The DELETE of `manage_meeting_task`: removes an unlinked, unfinalized task. */
    method DeleteMeetingTask(current: Person, taskId: int) returns (r: Response)
      requires Valid()
      modifies this`tasks
      ensures Valid()
      ensures DeleteCheck(current, old(tasks), old(meetings), taskId).Fail? ==>
        r == DeleteCheck(current, old(tasks), old(meetings), taskId).refusal && tasks == old(tasks)
      ensures DeleteCheck(current, old(tasks), old(meetings), taskId).Pass? ==>
        r == Done && tasks == old(tasks) - {taskId}
    {
      var check := DeleteCheck(current, tasks, meetings, taskId);
      if check.Fail? {
        return check.refusal;
      }
      tasks := tasks - {taskId};
      r := Done;
    }

    /** `agree_meeting_task`: finalizes the task. */
    method AgreeMeetingTask(current: Person, taskId: int, now: int) returns (r: Response)
      requires Valid()
      modifies this`tasks
      ensures Valid()
      ensures AgreeCheck(current, old(tasks), taskId).Fail? ==>
        r == AgreeCheck(current, old(tasks), taskId).refusal && tasks == old(tasks)
      ensures AgreeCheck(current, old(tasks), taskId).Pass? ==>
        r == Done && tasks == old(tasks)[taskId := Agree(old(tasks)[taskId], current, now)]
    {
      var check := AgreeCheck(current, tasks, taskId);
      if check.Fail? {
        return check.refusal;
      }
      tasks := tasks[taskId := Agree(tasks[taskId], current, now)];
      r := Done;
    }
  }
}
