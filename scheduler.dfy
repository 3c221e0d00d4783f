/**
 * scheduler.py: the background jobs of the full application. Each job is a
 * method called with the current instant `now`; it returns the mails it
 * hands to `send_mail` and changes the tables the job writes. Each job is
 * proved against a specification function, and lemmas state what that
 * function selects.
 */
module Scheduler {
  import opened Wrappers
  import opened Config
  import opened Clock
  import opened Records
  import opened App
  import opened ReportService
  import opened RecipientIds

  /** A mail handed to `send_mail`, without its subject and body text. */
  datatype Mail =
    | Digest(kind: DigestKind, userId: int, email: string, todoIds: seq<int>)
    | TaskReminder(reminder: ReminderKind, taskId: int, to: set<string>, cc: set<string>)
    | ScheduledMessage(notificationId: int, recipients: seq<string>)

  // ---------------------------------------------------------------------------
  // check_due_today_tasks and check_overdue_tasks
  // ---------------------------------------------------------------------------

  /** The two daily digests: todos due today, and todos due before today. */
  datatype DigestKind = DueTodayDigest | OverdueDigest

  /**
   * Whether a todo is listed in a digest sent on Taipei day `day`: it is not
   * completed and its due instant falls within that day (from 00:00 up to the
   * last microsecond), or before the day's 00:00.
   */
  predicate InDigest(kind: DigestKind, t: Todo, day: int) {
    !t.status.Completed? &&
    match kind
    case DueTodayDigest => TaipeiMidnight(day) <= t.dueDate < TaipeiMidnight(day + 1)
    case OverdueDigest => t.dueDate < TaipeiMidnight(day)
  }

  /** In calendar terms: a todo is due today iff its Taipei date is today, and overdue iff that date is earlier. */
  lemma DigestDays(t: Todo, day: int)
    ensures InDigest(DueTodayDigest, t, day) <==> !t.status.Completed? && TaipeiDay(t.dueDate) == day
    ensures InDigest(OverdueDigest, t, day) <==> !t.status.Completed? && TaipeiDay(t.dueDate) < day
    ensures !(InDigest(DueTodayDigest, t, day) && InDigest(OverdueDigest, t, day))
  {
    TaipeiDayWindow(t.dueDate, day);
    BeforeTaipeiMidnight(t.dueDate, day);
  }

  /**
   * The per-user query: the ids below `hi` of the user's todos that the
   * digest lists, in ascending id order.
   */
  function DigestIds(todos: map<int, Todo>, userId: int, kind: DigestKind, day: int, hi: int): (ids: seq<int>)
    ensures forall k :: k in ids <==> 1 <= k < hi && k in todos && todos[k].userId == userId && InDigest(kind, todos[k], day)
    ensures forall i :: 0 <= i < |ids| ==> 1 <= ids[i] < hi
    ensures forall i, j :: 0 <= i < j < |ids| ==> ids[i] < ids[j]
    decreases hi
  {
    if hi <= 1 then []
    else
      var prefix := DigestIds(todos, userId, kind, day, hi - 1);
      var k := hi - 1;
      if k in todos && todos[k].userId == userId && InDigest(kind, todos[k], day) then prefix + [k] else prefix
  }

  /** The digest one user receives: none unless notifications are on and something is listed. */
  function DigestFor(p: Person, todos: map<int, Todo>, hi: int, kind: DigestKind, day: int): (m: Option<Mail>)
    ensures m.Some? <==> p.notificationEnabled && DigestIds(todos, p.id, kind, day, hi) != []
  {
    var ids := DigestIds(todos, p.id, kind, day, hi);
    if p.notificationEnabled && ids != [] then Some(Digest(kind, p.id, p.email, ids)) else None
  }

  /** The digests of a job, one per user in table order. */
  function DigestMails(users: seq<Person>, todos: map<int, Todo>, hi: int, kind: DigestKind, day: int): seq<Mail>
    decreases |users|
  {
    if |users| == 0 then []
    else
      var last := users[|users| - 1];
      DigestMails(users[..|users| - 1], todos, hi, kind, day) +
      (if DigestFor(last, todos, hi, kind, day).Some? then [DigestFor(last, todos, hi, kind, day).value] else [])
  }

  /** The mail `p` would receive. */
  predicate DigestOf(m: Mail, p: Person, todos: map<int, Todo>, hi: int, kind: DigestKind, day: int) {
    m == Digest(kind, p.id, p.email, DigestIds(todos, p.id, kind, day, hi))
  }

  /**
   * Every digest goes to an enabled user, lists exactly that user's todos the
   * digest selects and is never empty; every enabled user with such a todo
   * gets one.
   */
  lemma {:induction false} DigestMailsExact(users: seq<Person>, todos: map<int, Todo>, hi: int, kind: DigestKind, day: int)
    ensures forall m :: m in DigestMails(users, todos, hi, kind, day) ==>
      m.Digest? && m.todoIds != [] &&
      exists p :: p in users && p.notificationEnabled && DigestOf(m, p, todos, hi, kind, day)
    ensures forall p :: p in users && p.notificationEnabled && DigestIds(todos, p.id, kind, day, hi) != [] ==>
      Digest(kind, p.id, p.email, DigestIds(todos, p.id, kind, day, hi)) in DigestMails(users, todos, hi, kind, day)
    decreases |users|
  {
    if |users| > 0 {
      var front := users[..|users| - 1];
      var last := users[|users| - 1];
      DigestMailsExact(front, todos, hi, kind, day);
      assert users == front + [last];
      forall m | m in DigestMails(users, todos, hi, kind, day)
        ensures m.Digest? && m.todoIds != [] && exists p :: p in users && p.notificationEnabled && DigestOf(m, p, todos, hi, kind, day)
      {
        if m !in DigestMails(front, todos, hi, kind, day) {
          assert DigestOf(m, last, todos, hi, kind, day);
        }
      }
    }
  }

  /** Digests only, each to a different user. */
  predicate OnePerUser(mails: seq<Mail>) {
    (forall i :: 0 <= i < |mails| ==> mails[i].Digest?) &&
    (forall i, j :: 0 <= i < j < |mails| ==> mails[i].userId != mails[j].userId)
  }

  /** With unique user ids, no user gets two digests of one kind in one run. */
  lemma {:induction false} OneDigestPerUser(users: seq<Person>, todos: map<int, Todo>, hi: int, kind: DigestKind, day: int)
    requires UniqueIds(users)
    ensures OnePerUser(DigestMails(users, todos, hi, kind, day))
    decreases |users|
  {
    if |users| > 0 {
      var front := users[..|users| - 1];
      var last := users[|users| - 1];
      OneDigestPerUser(front, todos, hi, kind, day);
      DigestMailsExact(front, todos, hi, kind, day);
      var before := DigestMails(front, todos, hi, kind, day);
      forall i | 0 <= i < |before|
        ensures before[i].Digest? && before[i].userId != last.id
      {
        assert before[i] in before;
        var p :| p in front && p.notificationEnabled && DigestOf(before[i], p, todos, hi, kind, day);
        var a :| 0 <= a < |front| && front[a] == p;
        assert users[a] == p && users[|users| - 1] == last;
      }
      DigestMailsExact(users, todos, hi, kind, day);
      var mails := DigestMails(users, todos, hi, kind, day);
      forall i, j | 0 <= i < j < |mails|
        ensures mails[i].userId != mails[j].userId
      {
        assert mails[i] in mails && mails[j] in mails;
        if j >= |before| {
          assert mails[i] == before[i];
          assert j == |before|;
          assert mails[j] == DigestFor(last, todos, hi, kind, day).value;
          assert mails[j].userId == last.id;
          assert before[i].userId != last.id;
        } else {
          assert mails[i] == before[i] && mails[j] == before[j];
        }
      }
      forall i | 0 <= i < |mails|
        ensures mails[i].Digest?
      {
        assert mails[i] in mails;
      }
    }
  }

  /**
   * One digest job: for each user in table order, the user's listed todos,
   * sent when the user has notifications on and the list is not empty.
   */
  method TodoDigests(users: seq<Person>, todos: map<int, Todo>, hi: int, kind: DigestKind, now: int)
    returns (mails: seq<Mail>)
    ensures mails == DigestMails(users, todos, hi, kind, TaipeiDay(now))
  {
    var day := TaipeiDay(now);
    mails := [];
    var j := 0;
    while j < |users|
      invariant 0 <= j <= |users|
      invariant mails == DigestMails(users[..j], todos, hi, kind, day)
    {
      var user := users[j];
      if user.notificationEnabled {
        var ids := DigestIds(todos, user.id, kind, day, hi);
        if ids != [] {
          mails := mails + [Digest(kind, user.id, user.email, ids)];
        }
      }
      assert users[..j + 1][..j] == users[..j];
      j := j + 1;
    }
    assert users[..|users|] == users;
  }

  /** `check_due_today_tasks`: one digest per enabled user of the todos due today (Taipei). */
  method CheckDueTodayTasks(db: Database, now: int) returns (mails: seq<Mail>)
    ensures mails == DigestMails(db.users, db.todos, db.nextTodoId, DueTodayDigest, TaipeiDay(now))
  {
    mails := TodoDigests(db.users, db.todos, db.nextTodoId, DueTodayDigest, now);
  }

  /** `check_overdue_tasks`: one digest per enabled user of the todos due before today (Taipei). */
  method CheckOverdueTasks(db: Database, now: int) returns (mails: seq<Mail>)
    ensures mails == DigestMails(db.users, db.todos, db.nextTodoId, OverdueDigest, TaipeiDay(now))
  {
    mails := TodoDigests(db.users, db.todos, db.nextTodoId, OverdueDigest, now);
  }

  // ---------------------------------------------------------------------------
  // check_unassigned_meeting_tasks and check_unagreed_resolution_items
  // ---------------------------------------------------------------------------

  /** The two meeting-task reminders. */
  datatype ReminderKind = UnassignedReminder | UnagreedReminder

  /**
   * The query of each reminder job, joined to the task's meeting: a tracking
   * task still unassigned after its meeting's date, or a resolution item not
   * agreed and finalized after its expected completion date (a task without
   * that date is never selected). The stored column is compared with the
   * current UTC time as SQLite compares them, wall clock against wall clock:
   * a date `add_meeting_task` wrote is a Taipei wall time (TaipeiWallTime).
   */
  predicate Awaiting(kind: ReminderKind, task: MeetingTask, meetings: map<int, Meeting>, now: int) {
    task.meetingId in meetings &&
    match kind
    case UnassignedReminder =>
      task.taskType.Tracking? && task.status.Unassigned? && meetings[task.meetingId].date < now
    case UnagreedReminder =>
      task.taskType.Resolution? && !task.status.AgreedFinalized? &&
      task.expectedCompletion.Some? && task.expectedCompletion.value < now
  }

  /** The address of a user who exists and has notifications on; nothing otherwise. */
  function EnabledEmail(users: seq<Person>, id: int): (e: set<string>)
    ensures e != {} <==> FindById(users, id).Some? && FindById(users, id).value.notificationEnabled
    ensures e != {} ==> e == {FindById(users, id).value.email}
  {
    match FindById(users, id)
    case None => {}
    case Some(p) => if p.notificationEnabled then {p.email} else {}
  }

  /** The To set: chairman and creator of an unassigned task; assignee and chairman of an unagreed item. */
  function Addressees(kind: ReminderKind, task: MeetingTask, meeting: Meeting, users: seq<Person>): set<string> {
    match kind
    case UnassignedReminder => EnabledEmail(users, meeting.chairmanId) + EnabledEmail(users, task.assignedBy)
    case UnagreedReminder => EnabledEmail(users, task.assignedTo) + EnabledEmail(users, meeting.chairmanId)
  }

  /** The Cc set: the controller, when there is one. */
  function CopiedTo(task: MeetingTask, users: seq<Person>): set<string> {
    match task.controller
    case None => {}
    case Some(c) => EnabledEmail(users, c)
  }

  /** The reminder a job sends for one task: none unless it is selected and its To set is not empty. */
  function ReminderFor(kind: ReminderKind, task: MeetingTask, meetings: map<int, Meeting>, users: seq<Person>, now: int)
    : (m: Option<Mail>)
    ensures m.Some? <==> Awaiting(kind, task, meetings, now) && Addressees(kind, task, meetings[task.meetingId], users) != {}
    ensures m.Some? ==> m.value.TaskReminder? && m.value.taskId == task.id && m.value.to != {}
  {
    if Awaiting(kind, task, meetings, now) && Addressees(kind, task, meetings[task.meetingId], users) != {} then
      Some(TaskReminder(kind, task.id, Addressees(kind, task, meetings[task.meetingId], users), CopiedTo(task, users)))
    else None
  }

  /** The reminders of one job for the tasks with ids in [1, hi), in ascending id order. */
  function ReminderMails(kind: ReminderKind, tasks: map<int, MeetingTask>, meetings: map<int, Meeting>,
                         users: seq<Person>, now: int, hi: int): seq<Mail>
    decreases hi
  {
    if hi <= 1 then []
    else
      var k := hi - 1;
      var m := if k in tasks then ReminderFor(kind, tasks[k], meetings, users, now) else None;
      ReminderMails(kind, tasks, meetings, users, now, k) + (if m.Some? then [m.value] else [])
  }

  /**
   * `mails` holds, in strictly ascending task order, exactly the reminders
   * ReminderFor gives for the tasks with ids in [1, hi).
   */
  predicate ExactReminders(mails: seq<Mail>, kind: ReminderKind, tasks: map<int, MeetingTask>, meetings: map<int, Meeting>,
                           users: seq<Person>, now: int, hi: int) {
    SoundReminders(mails, kind, tasks, meetings, users, now, hi) && AscendingTasks(mails) &&
    CompleteReminders(mails, kind, tasks, meetings, users, now, hi)
  }

  /** Every reminder is the one ReminderFor gives for its task, whose id is in [1, hi). */
  predicate SoundReminders(mails: seq<Mail>, kind: ReminderKind, tasks: map<int, MeetingTask>, meetings: map<int, Meeting>,
                           users: seq<Person>, now: int, hi: int) {
    forall i :: 0 <= i < |mails| ==>
      mails[i].TaskReminder? && 1 <= mails[i].taskId < hi && mails[i].taskId in tasks &&
      ReminderFor(kind, tasks[mails[i].taskId], meetings, users, now) == Some(mails[i])
  }

  /** Reminders in strictly ascending task order. */
  predicate AscendingTasks(mails: seq<Mail>)
    requires forall i :: 0 <= i < |mails| ==> mails[i].TaskReminder?
  {
    forall i, j :: 0 <= i < j < |mails| ==> mails[i].taskId < mails[j].taskId
  }

  /** Every task with an id in [1, hi) whose reminder is due has it among `mails`. */
  predicate CompleteReminders(mails: seq<Mail>, kind: ReminderKind, tasks: map<int, MeetingTask>, meetings: map<int, Meeting>,
                              users: seq<Person>, now: int, hi: int) {
    forall k :: 1 <= k < hi && k in tasks && ReminderFor(kind, tasks[k], meetings, users, now).Some? ==>
      ReminderFor(kind, tasks[k], meetings, users, now).value in mails
  }

  /**
   * Each reminder is the one ReminderFor gives for its task, and each task
   * whose reminder is due gets exactly one, in ascending task order.
   */
  lemma ReminderMailsExact(kind: ReminderKind, tasks: map<int, MeetingTask>, meetings: map<int, Meeting>,
                           users: seq<Person>, now: int, hi: int)
    requires forall k :: k in tasks ==> tasks[k].id == k
    ensures ExactReminders(ReminderMails(kind, tasks, meetings, users, now, hi), kind, tasks, meetings, users, now, hi)
  {
    ReminderMailsSound(kind, tasks, meetings, users, now, hi);
    ReminderMailsAscending(kind, tasks, meetings, users, now, hi);
    ReminderMailsComplete(kind, tasks, meetings, users, now, hi);
  }

  lemma {:induction false} ReminderMailsSound(kind: ReminderKind, tasks: map<int, MeetingTask>, meetings: map<int, Meeting>,
                                              users: seq<Person>, now: int, hi: int)
    requires forall k :: k in tasks ==> tasks[k].id == k
    ensures SoundReminders(ReminderMails(kind, tasks, meetings, users, now, hi), kind, tasks, meetings, users, now, hi)
    decreases hi
  {
    if hi > 1 {
      var top := hi - 1;
      ReminderMailsSound(kind, tasks, meetings, users, now, top);
      var before := ReminderMails(kind, tasks, meetings, users, now, top);
      var mails := ReminderMails(kind, tasks, meetings, users, now, hi);
      if top in tasks && ReminderFor(kind, tasks[top], meetings, users, now).Some? {
        assert mails == before + [ReminderFor(kind, tasks[top], meetings, users, now).value];
      } else {
        assert mails == before;
      }
    }
  }

  lemma {:induction false} ReminderMailsAscending(kind: ReminderKind, tasks: map<int, MeetingTask>, meetings: map<int, Meeting>,
                                                  users: seq<Person>, now: int, hi: int)
    requires forall k :: k in tasks ==> tasks[k].id == k
    ensures SoundReminders(ReminderMails(kind, tasks, meetings, users, now, hi), kind, tasks, meetings, users, now, hi)
    ensures AscendingTasks(ReminderMails(kind, tasks, meetings, users, now, hi))
    decreases hi
  {
    ReminderMailsSound(kind, tasks, meetings, users, now, hi);
    if hi > 1 {
      var top := hi - 1;
      ReminderMailsAscending(kind, tasks, meetings, users, now, top);
      var before := ReminderMails(kind, tasks, meetings, users, now, top);
      var mails := ReminderMails(kind, tasks, meetings, users, now, hi);
      if top in tasks && ReminderFor(kind, tasks[top], meetings, users, now).Some? {
        assert mails == before + [ReminderFor(kind, tasks[top], meetings, users, now).value];
        assert mails[|before|].taskId == top;
      } else {
        assert mails == before;
      }
    }
  }

  lemma {:induction false} ReminderMailsComplete(kind: ReminderKind, tasks: map<int, MeetingTask>, meetings: map<int, Meeting>,
                                                 users: seq<Person>, now: int, hi: int)
    ensures CompleteReminders(ReminderMails(kind, tasks, meetings, users, now, hi), kind, tasks, meetings, users, now, hi)
    decreases hi
  {
    if hi > 1 {
      var top := hi - 1;
      ReminderMailsComplete(kind, tasks, meetings, users, now, top);
      var before := ReminderMails(kind, tasks, meetings, users, now, top);
      var mails := ReminderMails(kind, tasks, meetings, users, now, hi);
      if top in tasks && ReminderFor(kind, tasks[top], meetings, users, now).Some? {
        assert mails == before + [ReminderFor(kind, tasks[top], meetings, users, now).value];
      } else {
        assert mails == before;
        forall j | 1 <= j < hi && j in tasks && ReminderFor(kind, tasks[j], meetings, users, now).Some?
          ensures ReminderFor(kind, tasks[j], meetings, users, now).value in mails
        {
          assert j < top;
        }
      }
    }
  }

  /** Linking a tracking task to a todo stops its unassigned reminder. */
  lemma AssignedTaskNotReminded(task: MeetingTask, todoId: int, plan: AssignPlan, meetings: map<int, Meeting>,
                                users: seq<Person>, now: int, later: int)
    ensures ReminderFor(UnassignedReminder, LinkTask(task, todoId, plan, now), meetings, users, later).None?
  {
  }

  /** Agreeing to a resolution item stops its unagreed reminder. */
  lemma AgreedItemNotReminded(task: MeetingTask, current: Person, meetings: map<int, Meeting>,
                              users: seq<Person>, now: int, later: int)
    ensures ReminderFor(UnagreedReminder, Agree(task, current, now), meetings, users, later).None?
  {
  }

  /** One reminder job over the task table, in ascending id order. */
  method TaskReminders(kind: ReminderKind, tasks: map<int, MeetingTask>, meetings: map<int, Meeting>,
                       users: seq<Person>, nextTaskId: int, now: int) returns (mails: seq<Mail>)
    ensures mails == ReminderMails(kind, tasks, meetings, users, now, nextTaskId)
  {
    mails := [];
    var k := 1;
    while k < nextTaskId
      invariant nextTaskId <= 1 || 1 <= k <= nextTaskId
      invariant mails == ReminderMails(kind, tasks, meetings, users, now, if nextTaskId <= 1 then nextTaskId else k)
    {
      if k in tasks {
        var reminder := ReminderFor(kind, tasks[k], meetings, users, now);
        if reminder.Some? {
          mails := mails + [reminder.value];
        }
      }
      k := k + 1;
    }
  }

  /**
   * `check_unassigned_meeting_tasks`, with the Cc list passed under the
   * keyword `send_mail` declares: the reminders it means to send.
   */
  method CheckUnassignedMeetingTasks(db: Database, now: int) returns (mails: seq<Mail>)
    ensures mails == ReminderMails(UnassignedReminder, db.tasks, db.meetings, db.users, now, db.nextTaskId)
  {
    mails := TaskReminders(UnassignedReminder, db.tasks, db.meetings, db.users, db.nextTaskId, now);
  }

  /**
   * `check_unagreed_resolution_items`, with the Cc list passed under the
   * keyword `send_mail` declares: the reminders it means to send.
   */
  method CheckUnagreedResolutionItems(db: Database, now: int) returns (mails: seq<Mail>)
    ensures mails == ReminderMails(UnagreedReminder, db.tasks, db.meetings, db.users, now, db.nextTaskId)
  {
    mails := TaskReminders(UnagreedReminder, db.tasks, db.meetings, db.users, db.nextTaskId, now);
  }

  // The reminder calls as written pass the Cc list as `cc_recipients=`, a
  // keyword `send_mail` does not declare.

  /** The parameters of `send_mail(subject, body, mail_to, mail_cc="", IsBodyHtml="H")`. */
  const SendMailParameters: set<string> := {"subject", "body", "mail_to", "mail_cc", "IsBodyHtml"}

  /** A call reaches `send_mail` only if every keyword it passes is declared; otherwise it raises TypeError. */
  predicate Binds(keywords: set<string>) {
    keywords <= SendMailParameters
  }

  /** The keyword the reminder jobs pass the Cc list under. */
  const WrittenCcKeyword: string := "cc_recipients"

  /** The keyword `send_mail` declares for it. */
  const DeclaredCcKeyword: string := "mail_cc"

  /**
   * The reminders that reach `send_mail` when each call passes its Cc list
   * under `ccKeyword`; the job catches the TypeError of a call that does
   * not bind and goes on with the next task.
   */
  function Delivered(mails: seq<Mail>, ccKeyword: string): seq<Mail> {
    if |mails| == 0 then []
    else (if Binds({ccKeyword}) then [mails[0]] else []) + Delivered(mails[1..], ccKeyword)
  }

  /** As written, no reminder is ever delivered; with the declared keyword, every one is. */
  lemma {:induction false} ReminderCallsAsWritten(mails: seq<Mail>)
    ensures Delivered(mails, WrittenCcKeyword) == []
    ensures Delivered(mails, DeclaredCcKeyword) == mails
  {
    assert !Binds({WrittenCcKeyword}) by {
      assert WrittenCcKeyword !in SendMailParameters;
    }
    if |mails| > 0 {
      ReminderCallsAsWritten(mails[1..]);
      assert mails == [mails[0]] + mails[1..];
    }
  }

  /** The reminder jobs run at 07:35 and 07:40 Taipei time. */
  const UnassignedRunMinute: int := 7 * MinutesPerHour + 35
  const UnagreedRunMinute: int := 7 * MinutesPerHour + 40

  /**
   * A bare date `add_meeting_task` stored for Taipei day d (Taipei midnight,
   * kept as its wall time) is past at a run `minute` minutes into Taipei day
   * e, before 08:00, exactly when e is after d: so both reminder jobs first
   * select a task the day after its meeting or expected date.
   */
  lemma {:induction false} DatePastAtMorningRun(d: int, e: int, minute: int)
    requires 0 <= minute < TaipeiOffset
    ensures TaipeiWallTime(TaipeiMidnight(d)) < TaipeiMidnight(e) + minute <==> d < e
  {
    assert TaipeiWallTime(TaipeiMidnight(d)) == d * MinutesPerDay;
    assert TaipeiMidnight(e) + minute == e * MinutesPerDay - (TaipeiOffset - minute);
    if d < e {
      assert d * MinutesPerDay <= (e - 1) * MinutesPerDay;
    } else {
      assert e * MinutesPerDay <= d * MinutesPerDay;
    }
  }

  /** The 07:35 and 07:40 runs both fall before 08:00, where the stored dates lag a day. */
  lemma MorningRuns(d: int, e: int)
    ensures TaipeiWallTime(TaipeiMidnight(d)) < TaipeiMidnight(e) + UnassignedRunMinute <==> d < e
    ensures TaipeiWallTime(TaipeiMidnight(d)) < TaipeiMidnight(e) + UnagreedRunMinute <==> d < e
  {
    DatePastAtMorningRun(d, e, UnassignedRunMinute);
    DatePastAtMorningRun(d, e, UnagreedRunMinute);
  }

  /**
   * A tracking task filed for a meeting on Taipei day 20 and left unassigned,
   * whose chairman has notifications on: the 07:35 run on day 21 selects it,
   * yet as written nothing is sent.
   */
  lemma UnassignedReminderLost()
    ensures var chairman := Person(7, "k7", "Chair", "chair@example.com", Manager, "D", None, true, true, 0, None, None);
      var meeting := Meeting(1, "weekly", TaipeiWallTime(TaipeiMidnight(20)), 7);
      var task := MeetingTask(1, 1, Tracking, "follow up", 7, 7, None, None, None, None, Unassigned, false, None, []);
      var now := TaipeiMidnight(21) + UnassignedRunMinute;
      var mails := ReminderMails(UnassignedReminder, map[1 := task], map[1 := meeting], [chairman], now, 2);
      mails == [TaskReminder(UnassignedReminder, 1, {"chair@example.com"}, {})] &&
      Delivered(mails, WrittenCcKeyword) == []
  {
    var chairman := Person(7, "k7", "Chair", "chair@example.com", Manager, "D", None, true, true, 0, None, None);
    var meeting := Meeting(1, "weekly", TaipeiWallTime(TaipeiMidnight(20)), 7);
    var task := MeetingTask(1, 1, Tracking, "follow up", 7, 7, None, None, None, None, Unassigned, false, None, []);
    var now := TaipeiMidnight(21) + UnassignedRunMinute;
    var mails := ReminderMails(UnassignedReminder, map[1 := task], map[1 := meeting], [chairman], now, 2);
    assert FindById([chairman], 7) == Some(chairman);
    assert EnabledEmail([chairman], 7) == {"chair@example.com"};
    MorningRuns(20, 21);
    assert Awaiting(UnassignedReminder, task, map[1 := meeting], now);
    assert Addressees(UnassignedReminder, task, meeting, [chairman]) == {"chair@example.com"};
    assert ReminderFor(UnassignedReminder, task, map[1 := meeting], [chairman], now)
      == Some(TaskReminder(UnassignedReminder, 1, {"chair@example.com"}, {}));
    assert ReminderMails(UnassignedReminder, map[1 := task], map[1 := meeting], [chairman], now, 1) == [];
    assert mails == [TaskReminder(UnassignedReminder, 1, {"chair@example.com"}, {})];
    ReminderCallsAsWritten(mails);
  }

  // ---------------------------------------------------------------------------
  // transfer_and_archive_todos (the weekly job)
  // ---------------------------------------------------------------------------

  /** Whether a due instant lies in the Taipei week of `now`, Monday 00:00 up to Sunday's last microsecond. */
  predicate DueThisWeek(t: Todo, now: int) {
    TaipeiMidnight(ThisWeekStart(now)) <= t.dueDate < TaipeiMidnight(ThisWeekStart(now) + 7)
  }

  /** In calendar terms: the todo's Taipei due date is between this Monday and this Sunday. */
  lemma DueThisWeekDays(t: Todo, now: int)
    ensures DueThisWeek(t, now) <==> ThisWeekStart(now) <= TaipeiDay(t.dueDate) <= ThisWeekStart(now) + 6
  {
    BeforeTaipeiMidnight(t.dueDate, ThisWeekStart(now));
    BeforeTaipeiMidnight(t.dueDate, ThisWeekStart(now) + 7);
  }

  /** Phase 1 selects the next-period todos due this week. */
  predicate Transferable(t: Todo, now: int) {
    t.todoType.Next? && DueThisWeek(t, now)
  }

  /** Phase 1 on one todo: a selected todo becomes current with an `auto_transfer` event; any other is untouched. */
  function Transfer(t: Todo, now: int): (u: Todo)
    ensures u.todoType.Current? <==> t.todoType.Current? || Transferable(t, now)
    ensures !Transferable(t, now) ==> u == t
    ensures Transferable(t, now) ==> u.history == t.history + [Event(now, System, AutoTransfer(Some(t.dueDate)))]
    ensures u.id == t.id && u.userId == t.userId && u.status == t.status && u.dueDate == t.dueDate
    ensures u.meetingTaskId == t.meetingTaskId
    ensures Transferable(t, now) ==> u.updatedAt == now
    ensures u.(todoType := t.todoType, updatedAt := t.updatedAt, history := t.history) == t
  {
    if Transferable(t, now) then
      t.(todoType := Current, updatedAt := now, history := t.history + [Event(now, System, AutoTransfer(Some(t.dueDate)))])
    else t
  }

  /** The todo table after phase 1. */
  function TransferAll(todos: map<int, Todo>, now: int): (m: map<int, Todo>)
    ensures m.Keys == todos.Keys
  {
    map k | k in todos :: Transfer(todos[k], now)
  }

  /** Phase 2 removes every completed current todo. */
  predicate Finished(t: Todo) {
    t.todoType.Current? && t.status.Completed?
  }

  /** Of those, the ones not linked to a meeting task are archived first. */
  predicate Archivable(t: Todo) {
    Finished(t) && t.meetingTaskId.None?
  }

  function FinishedIds(todos: map<int, Todo>): set<int> {
    set k | k in todos && Finished(todos[k])
  }

  /** The todo table after phase 2. */
  function Sweep(todos: map<int, Todo>): (m: map<int, Todo>)
    ensures m.Keys == todos.Keys - FinishedIds(todos)
  {
    map k | k in todos && !Finished(todos[k]) :: todos[k]
  }

  /** The todo table after a run at `now`. */
  function Rollover(todos: map<int, Todo>, now: int): map<int, Todo> {
    Sweep(TransferAll(todos, now))
  }

  /** The archive row of a todo: its fields copied, due date included, with an `archived` event appended. */
  function Snapshot(t: Todo, now: int): ArchivedTodo {
    ArchivedTodo(t.id, t.title, t.description, t.status, t.todoType, t.userId, t.assignedBy,
      t.history + [Event(now, System, Archived)], t.createdAt, t.updatedAt, now, Some(t.dueDate))
  }

  /** The archive rows phase 2 adds for the todos with ids in [1, hi), in ascending id order. */
  function ArchiveRows(todos: map<int, Todo>, hi: int, now: int): seq<ArchivedTodo>
    decreases hi
  {
    if hi <= 1 then []
    else
      var tail := if hi - 1 in todos && Archivable(todos[hi - 1]) then [Snapshot(todos[hi - 1], now)] else [];
      ArchiveRows(todos, hi - 1, now) + tail
  }

  /** An archive row for an id in [1, hi): the snapshot of an unlinked completed current todo. */
  predicate RowFor(todos: map<int, Todo>, row: ArchivedTodo, hi: int, now: int) {
    1 <= row.originalTodoId < hi && row.originalTodoId in todos &&
    Archivable(todos[row.originalTodoId]) && row == Snapshot(todos[row.originalTodoId], now)
  }

  /** `rows` holds one snapshot of each unlinked completed current todo in [1, hi), in ascending id order, and nothing else. */
  predicate ExactRows(rows: seq<ArchivedTodo>, todos: map<int, Todo>, hi: int, now: int) {
    (forall i :: 0 <= i < |rows| ==> RowFor(todos, rows[i], hi, now)) &&
    (forall i, j :: 0 <= i < j < |rows| ==> rows[i].originalTodoId < rows[j].originalTodoId) &&
    (forall k :: 1 <= k < hi && k in todos && Archivable(todos[k]) ==>
      HasRow(rows, k))
  }

  /** Every row is the snapshot of an unlinked completed current todo in [1, hi). */
  lemma {:induction false} ArchiveRowsSound(todos: map<int, Todo>, hi: int, now: int)
    requires forall k :: k in todos ==> todos[k].id == k
    ensures forall i :: 0 <= i < |ArchiveRows(todos, hi, now)| ==> RowFor(todos, ArchiveRows(todos, hi, now)[i], hi, now)
    decreases hi
  {
    if hi > 1 {
      var last := hi - 1;
      ArchiveRowsSound(todos, last, now);
      var prefix := ArchiveRows(todos, last, now);
      var rows := ArchiveRows(todos, hi, now);
      forall i | 0 <= i < |rows|
        ensures RowFor(todos, rows[i], hi, now)
      {
        if i < |prefix| {
          assert rows[i] == prefix[i];
          assert RowFor(todos, prefix[i], last, now);
        } else {
          assert rows[i] == Snapshot(todos[last], now);
          assert todos[last].id == last;
        }
      }
    }
  }

  /** The rows come in strictly ascending order of the original id. */
  lemma {:induction false} ArchiveRowsOrdered(todos: map<int, Todo>, hi: int, now: int)
    requires forall k :: k in todos ==> todos[k].id == k
    ensures forall i, j :: 0 <= i < j < |ArchiveRows(todos, hi, now)| ==>
      ArchiveRows(todos, hi, now)[i].originalTodoId < ArchiveRows(todos, hi, now)[j].originalTodoId
    decreases hi
  {
    if hi > 1 {
      var last := hi - 1;
      ArchiveRowsOrdered(todos, last, now);
      ArchiveRowsSound(todos, last, now);
      var prefix := ArchiveRows(todos, last, now);
      var rows := ArchiveRows(todos, hi, now);
      forall i, j | 0 <= i < j < |rows|
        ensures rows[i].originalTodoId < rows[j].originalTodoId
      {
        assert rows[i] == prefix[i];
        if j >= |prefix| {
          assert RowFor(todos, prefix[i], last, now);
          assert rows[j] == Snapshot(todos[last], now);
          assert todos[last].id == last;
        } else {
          assert rows[j] == prefix[j];
        }
      }
    }
  }

  /** Some row archives the todo with id `k`. */
  predicate HasRow(rows: seq<ArchivedTodo>, k: int) {
    exists i :: 0 <= i < |rows| && rows[i].originalTodoId == k
  }

  /** Every unlinked completed current todo in [1, hi) has a row. */
  lemma {:induction false} ArchiveRowsComplete(todos: map<int, Todo>, hi: int, now: int)
    requires forall k :: k in todos ==> todos[k].id == k
    ensures forall k :: 1 <= k < hi && k in todos && Archivable(todos[k]) ==>
      HasRow(ArchiveRows(todos, hi, now), k)
    decreases hi
  {
    if hi > 1 {
      var last := hi - 1;
      ArchiveRowsComplete(todos, last, now);
      var prefix := ArchiveRows(todos, last, now);
      var rows := ArchiveRows(todos, hi, now);
      assert rows == prefix + (if last in todos && Archivable(todos[last]) then [Snapshot(todos[last], now)] else []);
      forall k | 1 <= k < hi && k in todos && Archivable(todos[k])
        ensures HasRow(rows, k)
      {
        if k < last {
          assert HasRow(prefix, k);
          var i :| 0 <= i < |prefix| && prefix[i].originalTodoId == k;
          assert rows[i] == prefix[i];
        } else {
          assert rows[|prefix|] == Snapshot(todos[last], now);
          assert todos[last].id == last;
        }
      }
    }
  }

  /** The archive rows of a run are exactly the snapshots of the unlinked completed current todos, in id order. */
  lemma ArchiveRowsExact(todos: map<int, Todo>, hi: int, now: int)
    requires forall k :: k in todos ==> todos[k].id == k
    ensures ExactRows(ArchiveRows(todos, hi, now), todos, hi, now)
  {
    ArchiveRowsSound(todos, hi, now);
    ArchiveRowsOrdered(todos, hi, now);
    ArchiveRowsComplete(todos, hi, now);
  }

  /**
   * After a run no todo is completed and current, and the next-period todos
   * left are those not due this week; so a second run in the same Taipei week
   * transfers nothing, archives nothing and deletes nothing.
   */
  lemma RolloverSettles(todos: map<int, Todo>, now: int, later: int, hi: int)
    requires ThisWeekStart(later) == ThisWeekStart(now)
    ensures FinishedIds(Rollover(todos, now)) == {}
    ensures TransferAll(Rollover(todos, now), later) == Rollover(todos, now)
    ensures Rollover(Rollover(todos, now), later) == Rollover(todos, now)
    ensures ArchiveRows(TransferAll(Rollover(todos, now), later), hi, later) == []
  {
    var once := Rollover(todos, now);
    forall k | k in once
      ensures Transfer(once[k], later) == once[k]
    {
      assert once[k] == Transfer(todos[k], now);
    }
    assert TransferAll(once, later) == once;
    assert FinishedIds(once) == {};
    assert Sweep(once) == once;
    NothingToArchive(once, hi, later);
  }

  /** With no completed current todo, phase 2 adds no archive row. */
  lemma {:induction false} NothingToArchive(todos: map<int, Todo>, hi: int, now: int)
    requires FinishedIds(todos) == {}
    ensures ArchiveRows(todos, hi, now) == []
    decreases hi
  {
    if hi > 1 {
      NothingToArchive(todos, hi - 1, now);
      assert hi - 1 in todos ==> hi - 1 !in FinishedIds(todos);
    }
  }

  /**
   * Rewriting or deleting todos keeps the links to meeting tasks consistent
   * as long as the surviving todos keep their owner and their task id.
   */
  lemma LinksKept(todos: map<int, Todo>, todos': map<int, Todo>, tasks: map<int, MeetingTask>,
                  nextTodoId: int, nextTaskId: int)
    requires LinksConsistent(todos, tasks, nextTodoId, nextTaskId)
    requires todos'.Keys <= todos.Keys
    requires forall k :: k in todos' ==>
      todos'[k].meetingTaskId == todos[k].meetingTaskId && todos'[k].userId == todos[k].userId
    ensures LinksConsistent(todos', tasks, nextTodoId, nextTaskId)
  {
  }

  /**
   * `transfer_and_archive_todos`: phase 1 makes the next-period todos due
   * this week current; phase 2 deletes every completed current todo,
   * archiving first those not linked to a meeting task.
   */
  method TransferAndArchiveTodos(db: Database, now: int)
    requires db.Valid()
    modifies db`todos, db`archived
    ensures db.Valid()
    ensures db.todos == Rollover(old(db.todos), now)
    ensures db.archived == old(db.archived) + ArchiveRows(TransferAll(old(db.todos), now), db.nextTodoId, now)
  {
    TransferThisWeek(db, now);
    ArchiveFinished(db, now);
  }

  /** Phase 1. */
  method TransferThisWeek(db: Database, now: int)
    requires db.Valid()
    modifies db`todos
    ensures db.Valid()
    ensures db.todos == TransferAll(old(db.todos), now)
  {
    var todos := TransferLoop(db.todos, db.nextTodoId, now);
    LinksKept(db.todos, todos, db.tasks, db.nextTodoId, db.nextTaskId);
    db.todos := todos;
  }

  /** The loop of phase 1, over the todo ids below `hi`. */
  method TransferLoop(before: map<int, Todo>, hi: int, now: int) returns (todos: map<int, Todo>)
    requires forall k :: k in before ==> 1 <= k < hi
    ensures todos == TransferAll(before, now)
  {
    todos := before;
    var i := 1;
    while i < hi
      invariant todos.Keys == before.Keys
      invariant forall k :: k in todos && k < i ==> todos[k] == Transfer(before[k], now)
      invariant forall k :: k in todos && k >= i ==> todos[k] == before[k]
    {
      if i in todos && Transferable(todos[i], now) {
        todos := todos[i := Transfer(todos[i], now)];
      }
      i := i + 1;
    }
  }

  /** Phase 2. */
  method ArchiveFinished(db: Database, now: int)
    requires db.Valid()
    modifies db`todos, db`archived
    ensures db.Valid()
    ensures db.todos == Sweep(old(db.todos))
    ensures db.archived == old(db.archived) + ArchiveRows(old(db.todos), db.nextTodoId, now)
  {
    var todos, rows := ArchiveLoop(db.todos, db.nextTodoId, now);
    LinksKept(db.todos, todos, db.tasks, db.nextTodoId, db.nextTaskId);
    db.todos := todos;
    db.archived := db.archived + rows;
  }

  /** The loop of phase 2, over the todo ids below `hi`: the todos kept and the rows archived. */
  method ArchiveLoop(before: map<int, Todo>, hi: int, now: int) returns (todos: map<int, Todo>, rows: seq<ArchivedTodo>)
    requires 1 <= hi
    requires forall k :: k in before ==> 1 <= k < hi
    ensures todos == Sweep(before)
    ensures rows == ArchiveRows(before, hi, now)
  {
    todos := before;
    rows := [];
    var i := 1;
    while i < hi
      invariant 1 <= i <= hi
      invariant todos.Keys <= before.Keys
      invariant forall k :: k in todos ==> todos[k] == before[k]
      invariant forall k :: k in before && k < i ==> (k in todos <==> !Finished(before[k]))
      invariant forall k :: k in before && k >= i ==> k in todos
      invariant rows == ArchiveRows(before, i, now)
    {
      if i in todos && Finished(todos[i]) {
        if todos[i].meetingTaskId.None? {
          rows := rows + [Snapshot(todos[i], now)];
        }
        todos := todos - {i};
      }
      i := i + 1;
    }
    assert todos.Keys == Sweep(before).Keys by {
      forall k | k in before ensures k < i { }
    }
    assert todos == Sweep(before);
  }

  // ---------------------------------------------------------------------------
  // check_and_trigger_reports
  // ---------------------------------------------------------------------------

  /** The 23 hours that must pass after a send before the same schedule or notification fires again. */
  const Cooldown: int := 23 * MinutesPerHour

  /** Never sent, or last sent at least 23 hours ago. */
  predicate CooledDown(lastSentAt: Option<int>, now: int) {
    lastSentAt.None? || now - lastSentAt.value >= Cooldown
  }

  /** Some member has an unfinished todo whose (UTC) due date is before this Monday. */
  predicate HasStaleTodo(todos: map<int, Todo>, members: set<int>, ws: int) {
    exists k :: k in todos && todos[k].userId in members && UtcDay(todos[k].dueDate) < ws && !todos[k].status.Completed?
  }

  /** Some member has a todo, of any status, due next Monday to Sunday. */
  predicate HasPlannedTodo(todos: map<int, Todo>, members: set<int>, ws: int) {
    exists k :: k in todos && todos[k].userId in members && ws + 7 <= UtcDay(todos[k].dueDate) <= ws + 13
  }

  /**
   * The checks of one active schedule: the Taipei weekday and time of day
   * have come, the schedule has cooled down, its unit has active users, none
   * of them has an unfinished todo from before this week and, if the schedule
   * asks for it, they have something planned for next week.
   */
  predicate ReportDue(s: ReportSchedule, users: seq<Person>, todos: map<int, Todo>, now: int) {
    s.isActive &&
    Weekday(TaipeiDay(now)) == s.scheduleDay && TaipeiMinuteOfDay(now) >= s.scheduleTime &&
    CooledDown(s.lastSentAt, now) &&
    UnitMembers(users, s.department) != {} &&
    !HasStaleTodo(todos, UnitMembers(users, s.department), ThisWeekStart(now)) &&
    (s.requireNextWeekTasks ==> HasPlannedTodo(todos, UnitMembers(users, s.department), ThisWeekStart(now)))
  }

  /** The schedule passes its checks and the report service, finding its manager, sends the report. */
  predicate Fires(s: ReportSchedule, users: seq<Person>, todos: map<int, Todo>, now: int) {
    ReportDue(s, users, todos, now) && FindById(users, s.managerId).Some?
  }

  /** A schedule after the run: stamped with `now` when it fired. */
  function AfterTrigger(s: ReportSchedule, users: seq<Person>, todos: map<int, Todo>, now: int): (t: ReportSchedule)
    ensures t.id == s.id && t.department == s.department && t.managerId == s.managerId
    ensures t.lastSentAt == if Fires(s, users, todos, now) then Some(now) else s.lastSentAt
  {
    if Fires(s, users, todos, now) then s.(lastSentAt := Some(now)) else s
  }

  /** The reports a run sends, in schedule table order. */
  function TriggeredReports(schedules: seq<ReportSchedule>, users: seq<Person>, todos: map<int, Todo>, now: int)
    : seq<WeeklyReport>
    decreases |schedules|
  {
    if |schedules| == 0 then []
    else
      var s := schedules[|schedules| - 1];
      TriggeredReports(schedules[..|schedules| - 1], users, todos, now) +
      (if Fires(s, users, todos, now) then [MakeReport(s, FindById(users, s.managerId).value, users, todos, now)] else [])
  }

  /** A schedule that fired does not fire again within 23 hours, whatever the tables then hold. */
  lemma ReportCooldown(s: ReportSchedule, users: seq<Person>, todos: map<int, Todo>, now: int,
                       users': seq<Person>, todos': map<int, Todo>, later: int)
    requires Fires(s, users, todos, now)
    requires now <= later < now + Cooldown
    ensures !ReportDue(AfterTrigger(s, users, todos, now), users', todos', later)
  {
  }

  /**
   * A report the trigger sends lists as outstanding only todos due this
   * week, never older ones, and when the schedule requires planned work its
   * next-week list is not empty.
   */
  lemma TriggeredReportWithinWeek(s: ReportSchedule, users: seq<Person>, todos: map<int, Todo>, now: int)
    requires Fires(s, users, todos, now)
    ensures forall k :: k in MakeReport(s, FindById(users, s.managerId).value, users, todos, now).outstanding ==>
      k in todos && ThisWeekStart(now) <= UtcDay(todos[k].dueDate) <= ThisWeekStart(now) + 6
    ensures s.requireNextWeekTasks ==> MakeReport(s, FindById(users, s.managerId).value, users, todos, now).planned != {}
  {
    var members := UnitMembers(users, s.department);
    var ws := ThisWeekStart(now);
    if s.requireNextWeekTasks {
      var k :| k in todos && todos[k].userId in members && ws + 7 <= UtcDay(todos[k].dueDate) <= ws + 13;
      assert k in PartIds(todos, members, PlannedNextWeek, ws);
    }
  }

  /**
   * `check_and_trigger_reports`: every active schedule whose checks pass is
   * handed to the report service, which sends its report and stamps it;
   * the other schedules are left as they are.
   */
  method CheckAndTriggerReports(db: Database, now: int) returns (reports: seq<WeeklyReport>)
    requires db.Valid()
    modifies db`schedules
    ensures db.Valid()
    ensures |db.schedules| == |old(db.schedules)|
    ensures forall i :: 0 <= i < |db.schedules| ==> db.schedules[i] == AfterTrigger(old(db.schedules)[i], db.users, db.todos, now)
    ensures reports == TriggeredReports(old(db.schedules), db.users, db.todos, now)
  {
    reports := [];
    var i := 0;
    while i < |db.schedules|
      invariant db.Valid()
      invariant 0 <= i <= |db.schedules| == |old(db.schedules)|
      invariant forall j :: 0 <= j < |db.schedules| ==>
        db.schedules[j] == if j < i then AfterTrigger(old(db.schedules)[j], db.users, db.todos, now) else old(db.schedules)[j]
      invariant reports == TriggeredReports(old(db.schedules)[..i], db.users, db.todos, now)
    {
      var report := TriggerSchedule(db, i, now);
      if report.Some? {
        reports := reports + [report.value];
      }
      assert old(db.schedules)[..i + 1][..i] == old(db.schedules)[..i];
      i := i + 1;
    }
    assert old(db.schedules)[..|old(db.schedules)|] == old(db.schedules);
  }

  /** One pass of the loop: a due schedule is handed to the report service, which sends and stamps it when it fires. */
  method TriggerSchedule(db: Database, i: int, now: int) returns (report: Option<WeeklyReport>)
    requires db.Valid() && 0 <= i < |db.schedules|
    modifies db`schedules
    ensures db.Valid()
    ensures db.schedules == old(db.schedules)[i := AfterTrigger(old(db.schedules)[i], db.users, db.todos, now)]
    ensures report.Some? <==> Fires(old(db.schedules)[i], db.users, db.todos, now)
    ensures report.Some? ==>
      report.value == MakeReport(old(db.schedules)[i], FindById(db.users, old(db.schedules)[i].managerId).value,
                                 db.users, db.todos, now)
  {
    var schedule := db.schedules[i];
    report := None;
    if ReportDue(schedule, db.users, db.todos, now) {
      ScheduleIndexOf(db.schedules, i);
      report := GenerateAndSendWeeklyReport(db, schedule.id, false, now);
    }
  }

  // ---------------------------------------------------------------------------
  // check_scheduled_notifications
  // ---------------------------------------------------------------------------

  /**
   * Whether an active notification is due: a one-time notification on its
   * Taipei date, or a weekly one on its weekday; within five minutes from its
   * time of day; and cooled down.
   */
  predicate NotificationDue(n: ScheduledNotification, now: int) {
    n.isActive &&
    ((n.scheduleType == "one_time" && n.specificDate == Some(TaipeiDay(now))) ||
     (n.scheduleType == "weekly" && n.weeklyDay == Some(Weekday(TaipeiDay(now))))) &&
    TaipeiMidnight(TaipeiDay(now)) + n.specificTime <= now < TaipeiMidnight(TaipeiDay(now)) + n.specificTime + 5 &&
    CooledDown(n.lastSentAt, now)
  }

  /** The addresses, in id order, of the listed users who exist, have an address and have notifications on. */
  function EnabledRecipients(users: seq<Person>, ids: seq<int>): (emails: seq<string>)
    ensures |emails| <= |ids|
    decreases |ids|
  {
    if |ids| == 0 then []
    else
      var front := EnabledRecipients(users, ids[..|ids| - 1]);
      match FindById(users, ids[|ids| - 1])
      case None => front
      case Some(p) => if p.email != "" && p.notificationEnabled then front + [p.email] else front
  }

  /** A listed user who may be mailed. */
  predicate Mailable(p: Person, users: seq<Person>, ids: seq<int>) {
    p in users && p.id in ids && p.email != "" && p.notificationEnabled
  }

  /** Each recipient is a listed user who may be mailed, and each listed id whose user may be mailed is there. */
  lemma {:induction false} EnabledRecipientsExact(users: seq<Person>, ids: seq<int>)
    ensures forall e :: e in EnabledRecipients(users, ids) ==> exists p :: Mailable(p, users, ids) && p.email == e
    ensures forall id :: id in ids && FindById(users, id).Some? && Mailable(FindById(users, id).value, users, ids) ==>
      FindById(users, id).value.email in EnabledRecipients(users, ids)
    decreases |ids|
  {
    if |ids| > 0 {
      var front := ids[..|ids| - 1];
      var last := ids[|ids| - 1];
      EnabledRecipientsExact(users, front);
      assert ids == front + [last];
      forall e | e in EnabledRecipients(users, ids)
        ensures exists p :: Mailable(p, users, ids) && p.email == e
      {
        if e in EnabledRecipients(users, front) {
          var p :| Mailable(p, users, front) && p.email == e;
          assert Mailable(p, users, ids);
        } else {
          assert Mailable(FindById(users, last).value, users, ids);
        }
      }
      forall id | id in ids && FindById(users, id).Some? && Mailable(FindById(users, id).value, users, ids)
        ensures FindById(users, id).value.email in EnabledRecipients(users, ids)
      {
        if id != last {
          assert id in front;
        }
      }
    }
  }

  /** What the job does with one notification. */
  datatype Step = Skip | Send(recipients: seq<string>) | Abort

  /**
   * Not due: skip. Due: read the recipient ids, where one unreadable id
   * raises and ends the whole job; send to the users who may be mailed,
   * and skip when there are none.
   */
  function StepFor(n: ScheduledNotification, users: seq<Person>, now: int): (st: Step)
    ensures st.Abort? <==> NotificationDue(n, now) && ParseRecipientIds(n.recipientUserIds).None?
    ensures st.Send? ==>
      (NotificationDue(n, now) && ParseRecipientIds(n.recipientUserIds).Some? &&
       st.recipients == EnabledRecipients(users, ParseRecipientIds(n.recipientUserIds).value) && st.recipients != [])
  {
    if !NotificationDue(n, now) then Skip
    else match ParseRecipientIds(n.recipientUserIds)
      case None => Abort
      case Some(ids) =>
        var emails := EnabledRecipients(users, ids);
        if emails == [] then Skip else Send(emails)
  }

  /** The outcome of a run: the mails sent, the notification table after it, and whether it ended early. */
  datatype Run = Run(mails: seq<Mail>, table: seq<ScheduledNotification>, aborted: bool)

  /** A run over the notifications in table order; each send stamps its notification with `now`. */
  function NotificationRun(notes: seq<ScheduledNotification>, users: seq<Person>, now: int): (r: Run)
    ensures |r.table| == |notes|
    decreases |notes|
  {
    if |notes| == 0 then Run([], [], false)
    else
      var n := notes[0];
      match StepFor(n, users, now)
      case Abort => Run([], notes, true)
      case Skip =>
        var rest := NotificationRun(notes[1..], users, now);
        Run(rest.mails, [n] + rest.table, rest.aborted)
      case Send(emails) =>
        var rest := NotificationRun(notes[1..], users, now);
        Run([ScheduledMessage(n.id, emails)] + rest.mails, [n.(lastSentAt := Some(now))] + rest.table, rest.aborted)
  }

  /**
   * A run changes a notification only by stamping one it sent, sends only
   * non-empty messages, and never stamps one it did not send.
   */
  predicate RunShape(r: Run, notes: seq<ScheduledNotification>, users: seq<Person>, now: int) {
    |r.table| == |notes| &&
    (forall i :: 0 <= i < |notes| ==> Stamped(r.table[i], notes[i], users, now)) &&
    (forall m :: m in r.mails ==> m.ScheduledMessage? && m.recipients != [])
  }

  /** An entry of the table after a run: unchanged, or stamped because it was sent. */
  predicate Stamped(after: ScheduledNotification, before: ScheduledNotification, users: seq<Person>, now: int) {
    after == before || (after == before.(lastSentAt := Some(now)) && StepFor(before, users, now).Send?)
  }

  /** The first step of a run: an abort leaves the table as it was, anything else keeps going from the second entry. */
  lemma RunHead(notes: seq<ScheduledNotification>, users: seq<Person>, now: int)
    requires |notes| > 0
    ensures StepFor(notes[0], users, now).Abort? ==> NotificationRun(notes, users, now).table == notes
    ensures !StepFor(notes[0], users, now).Abort? ==>
      NotificationRun(notes, users, now).table[1..] == NotificationRun(notes[1..], users, now).table &&
      Stamped(NotificationRun(notes, users, now).table[0], notes[0], users, now)
  {
    var rest := NotificationRun(notes[1..], users, now);
    match StepFor(notes[0], users, now)
    case Abort =>
    case Skip =>
      assert ([notes[0]] + rest.table)[1..] == rest.table;
    case Send(emails) =>
      assert ([notes[0].(lastSentAt := Some(now))] + rest.table)[1..] == rest.table;
  }

  lemma {:induction false} RunTableShape(notes: seq<ScheduledNotification>, users: seq<Person>, now: int)
    ensures forall i :: 0 <= i < |notes| ==> Stamped(NotificationRun(notes, users, now).table[i], notes[i], users, now)
    decreases |notes|
  {
    if |notes| > 0 {
      RunHead(notes, users, now);
      var table := NotificationRun(notes, users, now).table;
      if table == notes {
      } else {
        RunTableShape(notes[1..], users, now);
        var rest := NotificationRun(notes[1..], users, now).table;
        forall i | 0 < i < |notes|
          ensures Stamped(table[i], notes[i], users, now)
        {
          assert table[i] == table[1..][i - 1] == rest[i - 1];
          assert notes[i] == notes[1..][i - 1];
        }
      }
    }
  }

  lemma {:induction false} RunMailsShape(notes: seq<ScheduledNotification>, users: seq<Person>, now: int)
    ensures forall m :: m in NotificationRun(notes, users, now).mails ==> m.ScheduledMessage? && m.recipients != []
    decreases |notes|
  {
    if |notes| > 0 {
      RunMailsShape(notes[1..], users, now);
    }
  }

  lemma NotificationRunShape(notes: seq<ScheduledNotification>, users: seq<Person>, now: int)
    ensures RunShape(NotificationRun(notes, users, now), notes, users, now)
  {
    RunTableShape(notes, users, now);
    RunMailsShape(notes, users, now);
  }

  /** A notification that was sent is not due again within 23 hours. */
  lemma NotificationCooldown(n: ScheduledNotification, users: seq<Person>, now: int, users': seq<Person>, later: int)
    requires StepFor(n, users, now).Send?
    requires now <= later < now + Cooldown
    ensures StepFor(n.(lastSentAt := Some(now)), users', later).Skip?
  {
  }

  /** When every recipient column is readable, the run goes through all notifications. */
  lemma {:induction false} ReadableRunCompletes(notes: seq<ScheduledNotification>, users: seq<Person>, now: int)
    requires forall i :: 0 <= i < |notes| ==> ParseRecipientIds(notes[i].recipientUserIds).Some?
    ensures !NotificationRun(notes, users, now).aborted
    decreases |notes|
  {
    if |notes| > 0 {
      ReadableRunCompletes(notes[1..], users, now);
    }
  }

  /** A column written by the admin form from a non-empty choice of users never makes the job abort. */
  lemma StoredRecipientsReadable(n: ScheduledNotification, ids: seq<nat>, users: seq<Person>, now: int)
    requires |ids| >= 1 && n.recipientUserIds == StoredIds(ids)
    ensures !StepFor(n, users, now).Abort?
  {
    StoredIdsRoundTrip(ids);
  }

  /**
   * `check_scheduled_notifications`: goes through the notifications in table
   * order, sends each due one to its recipients and stamps it; stops at the
   * first due notification whose recipient column cannot be read.
   */
  method CheckScheduledNotifications(db: Database, now: int) returns (mails: seq<Mail>, aborted: bool)
    requires db.Valid()
    modifies db`notifications
    ensures db.Valid()
    ensures Run(mails, db.notifications, aborted) == NotificationRun(old(db.notifications), db.users, now)
  {
    mails, aborted := SendDueNotifications(db, now);
  }

  /** The loop of the job over the notification table. */
  method SendDueNotifications(db: Database, now: int) returns (mails: seq<Mail>, aborted: bool)
    modifies db`notifications
    ensures |db.notifications| == |old(db.notifications)|
    ensures forall j :: 0 <= j < |db.notifications| ==> db.notifications[j].id == old(db.notifications)[j].id
    ensures Run(mails, db.notifications, aborted) == NotificationRun(old(db.notifications), db.users, now)
  {
    var table;
    mails, table, aborted := RunNotifications(db.notifications, db.users, now);
    db.notifications := table;
  }

  /**
   * The loop of the job after `i` notifications: `done` is what became of
   * them, `table` holds `done` and then the untouched rest, and the run from
   * here on completes the run over the whole table.
   */
  ghost predicate Progress(notes: seq<ScheduledNotification>, users: seq<Person>, now: int, i: int,
                           mails: seq<Mail>, table: seq<ScheduledNotification>, done: seq<ScheduledNotification>) {
    TableSoFar(notes, i, table, done) && 0 <= i <= |notes| &&
    NotificationRun(notes, users, now) == Resume(mails, done, NotificationRun(notes[i..], users, now))
  }

  /** The table after `i` notifications: `done` and then the untouched rest, with every id in its place. */
  ghost predicate TableSoFar(notes: seq<ScheduledNotification>, i: int, table: seq<ScheduledNotification>,
                             done: seq<ScheduledNotification>) {
    0 <= i <= |notes| && |table| == |notes| && |done| == i &&
    (forall j :: 0 <= j < i ==> table[j] == done[j] && done[j].id == notes[j].id) &&
    (forall j :: i <= j < |notes| ==> table[j] == notes[j])
  }

  /** The loop of the job, on the notification table `notes`: the mails, the table after it, and whether it stopped early. */
  method RunNotifications(notes: seq<ScheduledNotification>, users: seq<Person>, now: int)
    returns (mails: seq<Mail>, table: seq<ScheduledNotification>, aborted: bool)
    ensures |table| == |notes|
    ensures forall j :: 0 <= j < |table| ==> table[j].id == notes[j].id
    ensures Run(mails, table, aborted) == NotificationRun(notes, users, now)
  {
    table := notes;
    mails := [];
    aborted := false;
    ghost var done: seq<ScheduledNotification> := [];
    RunStart(notes, users, now);
    var i := 0;
    while i < |table|
      invariant |table| == |notes|
      invariant Progress(notes, users, now, i, mails, table, done)
    {
      var stop;
      mails, table, done, stop := VisitNotification(notes, users, now, i, mails, table, done);
      if stop {
        aborted := true;
        return;
      }
      i := i + 1;
    }
    ProgressComplete(notes, users, now, mails, table, done);
  }

  /** One pass of the loop: the notification at `i` is skipped, sent and stamped, or ends the run. */
  method VisitNotification(notes: seq<ScheduledNotification>, users: seq<Person>, now: int, i: int,
                           mails: seq<Mail>, table: seq<ScheduledNotification>, ghost done: seq<ScheduledNotification>)
    returns (mails': seq<Mail>, table': seq<ScheduledNotification>, ghost done': seq<ScheduledNotification>, stop: bool)
    requires i < |notes| && Progress(notes, users, now, i, mails, table, done)
    ensures |table'| == |notes|
    ensures stop ==> (forall j :: 0 <= j < |table'| ==> table'[j].id == notes[j].id)
    ensures stop ==> Run(mails', table', true) == NotificationRun(notes, users, now)
    ensures !stop ==> Progress(notes, users, now, i + 1, mails', table', done')
  {
    var n := table[i];
    assert n == notes[i];
    var step := StepFor(n, users, now);
    mails', table', done' := mails, table, done;
    if step.Abort? {
      ProgressAborts(notes, users, now, i, mails, table, done);
      stop := true;
      return;
    }
    stop := false;
    ProgressAdvances(notes, users, now, i, mails, table, done);
    if step.Send? {
      mails' := mails + [ScheduledMessage(n.id, step.recipients)];
      table' := table[i := n.(lastSentAt := Some(now))];
      done' := done + [n.(lastSentAt := Some(now))];
    } else {
      done' := done + [n];
    }
  }

  lemma ProgressAborts(notes: seq<ScheduledNotification>, users: seq<Person>, now: int, i: int,
                       mails: seq<Mail>, table: seq<ScheduledNotification>, done: seq<ScheduledNotification>)
    requires i < |notes| && Progress(notes, users, now, i, mails, table, done)
    requires StepFor(notes[i], users, now).Abort?
    ensures forall j :: 0 <= j < |table| ==> table[j].id == notes[j].id
    ensures Run(mails, table, true) == NotificationRun(notes, users, now)
  {
    TableSplit(notes, i, table, done);
    RunAborts(notes[i..], users, now);
    assert mails + [] == mails;
  }

  /** The table after `i` notifications is `done` followed by the rest of the notifications. */
  lemma TableSplit(notes: seq<ScheduledNotification>, i: int, table: seq<ScheduledNotification>,
                   done: seq<ScheduledNotification>)
    requires TableSoFar(notes, i, table, done)
    ensures table == done + notes[i..]
    ensures forall j :: 0 <= j < |table| ==> table[j].id == notes[j].id
  {
    assert forall j :: 0 <= j < |table| ==> table[j] == (done + notes[i..])[j];
  }

  lemma ProgressAdvances(notes: seq<ScheduledNotification>, users: seq<Person>, now: int, i: int,
                         mails: seq<Mail>, table: seq<ScheduledNotification>, done: seq<ScheduledNotification>)
    requires i < |notes| && Progress(notes, users, now, i, mails, table, done)
    requires !StepFor(notes[i], users, now).Abort?
    ensures StepFor(notes[i], users, now).Skip? ==>
      Progress(notes, users, now, i + 1, mails, table, done + [notes[i]])
    ensures StepFor(notes[i], users, now).Send? ==>
      Progress(notes, users, now, i + 1,
               mails + [ScheduledMessage(notes[i].id, StepFor(notes[i], users, now).recipients)],
               table[i := notes[i].(lastSentAt := Some(now))], done + [notes[i].(lastSentAt := Some(now))])
  {
    RunAdvance(notes, done, mails, users, now, i);
    TableAdvance(notes, i, table, done, notes[i]);
    TableAdvance(notes, i, table, done, notes[i].(lastSentAt := Some(now)));
  }

  /** Storing what became of notification `i` at its place extends the table by one. */
  lemma TableAdvance(notes: seq<ScheduledNotification>, i: int, table: seq<ScheduledNotification>,
                     done: seq<ScheduledNotification>, n: ScheduledNotification)
    requires i < |notes| && TableSoFar(notes, i, table, done) && n.id == notes[i].id
    ensures TableSoFar(notes, i + 1, table[i := n], done + [n])
    ensures n == notes[i] ==> table[i := n] == table
  {
  }

  lemma ProgressComplete(notes: seq<ScheduledNotification>, users: seq<Person>, now: int,
                         mails: seq<Mail>, table: seq<ScheduledNotification>, done: seq<ScheduledNotification>)
    requires Progress(notes, users, now, |notes|, mails, table, done)
    ensures forall j :: 0 <= j < |table| ==> table[j].id == notes[j].id
    ensures Run(mails, table, false) == NotificationRun(notes, users, now)
  {
    assert table == done;
    assert notes[|notes|..] == [];
    assert mails + [] == mails && done + [] == done;
  }

  /** The run's outcome after `done` has been processed and has sent `sent`. */
  function Resume(sent: seq<Mail>, done: seq<ScheduledNotification>, rest: Run): Run {
    Run(sent + rest.mails, done + rest.table, rest.aborted)
  }

  lemma RunStart(notes: seq<ScheduledNotification>, users: seq<Person>, now: int)
    ensures NotificationRun(notes, users, now) == Resume([], [], NotificationRun(notes[0..], users, now))
  {
    var r := NotificationRun(notes, users, now);
    assert notes[0..] == notes;
    assert [] + r.mails == r.mails && [] + r.table == r.table;
  }

  /** A notification whose recipients cannot be read ends the run there, leaving it and the rest as they are. */
  lemma RunAborts(notes: seq<ScheduledNotification>, users: seq<Person>, now: int)
    requires |notes| > 0 && StepFor(notes[0], users, now).Abort?
    ensures NotificationRun(notes, users, now) == Run([], notes, true)
  {
  }

  /** The run's outcome after one more notification has been processed without ending the run. */
  lemma RunAdvance(notes: seq<ScheduledNotification>, done: seq<ScheduledNotification>, sent: seq<Mail>,
                   users: seq<Person>, now: int, i: int)
    requires 0 <= i < |notes|
    requires NotificationRun(notes, users, now) == Resume(sent, done, NotificationRun(notes[i..], users, now))
    requires !StepFor(notes[i], users, now).Abort?
    ensures StepFor(notes[i], users, now).Skip? ==>
      NotificationRun(notes, users, now) == Resume(sent, done + [notes[i]], NotificationRun(notes[i + 1..], users, now))
    ensures StepFor(notes[i], users, now).Send? ==>
      NotificationRun(notes, users, now) ==
        Resume(sent + [ScheduledMessage(notes[i].id, StepFor(notes[i], users, now).recipients)],
               done + [notes[i].(lastSentAt := Some(now))], NotificationRun(notes[i + 1..], users, now))
  {
    var rest := NotificationRun(notes[i + 1..], users, now);
    assert notes[i..][1..] == notes[i + 1..];
    if StepFor(notes[i], users, now).Send? {
      ResumeResume(sent, done, [ScheduledMessage(notes[i].id, StepFor(notes[i], users, now).recipients)],
                   [notes[i].(lastSentAt := Some(now))], rest);
    } else {
      ResumeResume(sent, done, [], [notes[i]], rest);
    }
  }

  lemma ResumeResume(a: seq<Mail>, b: seq<ScheduledNotification>, c: seq<Mail>, d: seq<ScheduledNotification>, r: Run)
    ensures Resume(a, b, Resume(c, d, r)) == Resume(a + c, b + d, r)
  {
    assert a + (c + r.mails) == (a + c) + r.mails;
    assert b + (d + r.table) == (b + d) + r.table;
  }
}
