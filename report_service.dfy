/**
 * report_service.py: the weekly report of one unit. The report's three
 * lists are filters over the unit's todos relative to the current Taipei
 * week; the schedule's `last_sent_at` is stamped unless the report was
 * sent by hand.
 */
module ReportService {
  import opened Wrappers
  import opened Clock
  import opened Records
  import opened App

  // ---------------------------------------------------------------------------
  // Week windows and the three lists
  // ---------------------------------------------------------------------------

  /** The Monday of the current Taipei week (`today - weekday(today)`). */
  function ThisWeekStart(now: int): (ws: int)
    ensures Weekday(ws) == 0 && ws <= TaipeiDay(now) <= ws + 6
  {
    WeekStartIsMonday(TaipeiDay(now));
    WeekStart(TaipeiDay(now))
  }

  /** The windows of the report: this week is [ws, ws + 6], next week [ws + 7, ws + 13], each Monday to Sunday. */
  lemma WeekWindows(now: int)
    ensures var ws := ThisWeekStart(now);
      Weekday(ws) == 0 && Weekday(ws + 6) == 6 && Weekday(ws + 7) == 0 && Weekday(ws + 13) == 6 &&
      ws <= TaipeiDay(now) <= ws + 6 && ThisWeekStart(TaipeiMidnight(ws + 7)) == ws + 7
  {
    var ws := ThisWeekStart(now);
    TaipeiDayWindow(TaipeiMidnight(ws + 7), ws + 7);
    WeekStartIsMonday(ws + 7);
    SameWeek(ws + 7, ws + 7);
  }

  /** The three lists of the report. */
  datatype Part = CompletedThisWeek | Outstanding | PlannedNextWeek

  /**
   * Membership in a list, for the week starting `ws`: completed and last
   * updated this week; not completed and due by this Sunday (older overdue
   * todos included); due next week whatever the status. Dates of stored
   * instants are their UTC dates.
   */
  predicate InPart(p: Part, t: Todo, ws: int) {
    match p
    case CompletedThisWeek => t.status.Completed? && ws <= UtcDay(t.updatedAt) <= ws + 6
    case Outstanding => !t.status.Completed? && UtcDay(t.dueDate) <= ws + 6
    case PlannedNextWeek => ws + 7 <= UtcDay(t.dueDate) <= ws + 13
  }

  /** The ids of the active users whose unit is `unit`. */
  function UnitMembers(users: seq<Person>, unit: string): set<int> {
    set p | p in users && p.unit == Some(unit) && p.isActive :: p.id
  }

  /** The ids of the members' todos in one list. */
  function PartIds(todos: map<int, Todo>, members: set<int>, p: Part, ws: int): set<int> {
    set k | k in todos && todos[k].userId in members && InPart(p, todos[k], ws)
  }

  /** An outstanding todo is neither completed this week nor planned for next week. */
  lemma PartsDisjoint(todos: map<int, Todo>, members: set<int>, ws: int)
    ensures PartIds(todos, members, Outstanding, ws) * PartIds(todos, members, CompletedThisWeek, ws) == {}
    ensures PartIds(todos, members, Outstanding, ws) * PartIds(todos, members, PlannedNextWeek, ws) == {}
  {
    assert forall k :: k in PartIds(todos, members, Outstanding, ws) ==> k !in PartIds(todos, members, CompletedThisWeek, ws);
    assert forall k :: k in PartIds(todos, members, Outstanding, ws) ==> k !in PartIds(todos, members, PlannedNextWeek, ws);
  }

  /** Every unfinished todo of a member due on or before this Sunday is listed as outstanding, however old. */
  lemma OutstandingIncludesOverdue(todos: map<int, Todo>, members: set<int>, ws: int, k: int)
    requires k in todos && todos[k].userId in members && !todos[k].status.Completed?
    requires UtcDay(todos[k].dueDate) <= ws + 6
    ensures k in PartIds(todos, members, Outstanding, ws)
  {
  }

  // ---------------------------------------------------------------------------
  // generate_and_send_weekly_report
  // ---------------------------------------------------------------------------

  /** The report as mailed to the unit's manager: the week and the ids in each list. */
  datatype WeeklyReport = WeeklyReport(
    scheduleId: int,
    unit: string,
    managerEmail: string,
    weekStart: int,
    completed: set<int>,
    outstanding: set<int>,
    planned: set<int>)

  /** The first schedule with this id (`db.session.get`). */
  function ScheduleIndex(schedules: seq<ReportSchedule>, id: int): (r: Option<nat>)
    ensures r.Some? ==> r.value < |schedules| && schedules[r.value].id == id
    ensures r.Some? ==> forall j :: 0 <= j < r.value ==> schedules[j].id != id
    ensures r.None? ==> forall j :: 0 <= j < |schedules| ==> schedules[j].id != id
  {
    if |schedules| == 0 then None
    else if schedules[0].id == id then Some(0)
    else match ScheduleIndex(schedules[1..], id)
      case None => None
      case Some(i) => Some(i + 1)
  }

  /** With distinct ids, looking up a schedule's own id finds that schedule. */
  lemma ScheduleIndexOf(schedules: seq<ReportSchedule>, i: nat)
    requires DistinctScheduleIds(schedules) && i < |schedules|
    ensures ScheduleIndex(schedules, schedules[i].id) == Some(i)
  {
  }

  /** The report of a schedule whose manager is `manager`, built at `now`. */
  function MakeReport(s: ReportSchedule, manager: Person, users: seq<Person>, todos: map<int, Todo>, now: int)
    : (r: WeeklyReport)
    ensures r.weekStart == ThisWeekStart(now) && r.managerEmail == manager.email && r.unit == s.department
    ensures forall k :: k in r.outstanding <==>
      k in todos && todos[k].userId in UnitMembers(users, s.department) &&
      !todos[k].status.Completed? && UtcDay(todos[k].dueDate) <= r.weekStart + 6
    ensures forall k :: k in r.completed <==>
      k in todos && todos[k].userId in UnitMembers(users, s.department) &&
      todos[k].status.Completed? && r.weekStart <= UtcDay(todos[k].updatedAt) <= r.weekStart + 6
    ensures forall k :: k in r.planned <==>
      k in todos && todos[k].userId in UnitMembers(users, s.department) &&
      r.weekStart + 7 <= UtcDay(todos[k].dueDate) <= r.weekStart + 13
  {
    var ws := ThisWeekStart(now);
    var members := UnitMembers(users, s.department);
    WeeklyReport(s.id, s.department, manager.email, ws,
      PartIds(todos, members, CompletedThisWeek, ws),
      PartIds(todos, members, Outstanding, ws),
      PartIds(todos, members, PlannedNextWeek, ws))
  }

  /**
   * The report `generate_and_send_weekly_report` sends for a schedule id:
   * none for an unknown id, a schedule whose manager is gone (the handler
   * fails before sending) or a unit without active users.
   */
  function ReportFor(schedules: seq<ReportSchedule>, users: seq<Person>, todos: map<int, Todo>, id: int, now: int)
    : (r: Option<WeeklyReport>)
    ensures r.Some? <==>
      (ScheduleIndex(schedules, id).Some? &&
       FindById(users, schedules[ScheduleIndex(schedules, id).value].managerId).Some? &&
       UnitMembers(users, schedules[ScheduleIndex(schedules, id).value].department) != {})
    ensures r.Some? ==>
      var s := schedules[ScheduleIndex(schedules, id).value];
      r.value == MakeReport(s, FindById(users, s.managerId).value, users, todos, now)
  {
    match ScheduleIndex(schedules, id)
    case None => None
    case Some(i) =>
      var s := schedules[i];
      match FindById(users, s.managerId)
      case None => None
      case Some(manager) =>
        if UnitMembers(users, s.department) == {} then None
        else Some(MakeReport(s, manager, users, todos, now))
  }

  /**
   * `generate_and_send_weekly_report`: sends the report ReportFor gives and,
   * unless the send is manual, stamps the schedule's `last_sent_at`; when
   * there is no report nothing changes.
   */
  method GenerateAndSendWeeklyReport(db: Database, scheduleId: int, manual: bool, now: int)
    returns (report: Option<WeeklyReport>)
    requires db.Valid()
    modifies db`schedules
    ensures db.Valid()
    ensures report == ReportFor(old(db.schedules), db.users, db.todos, scheduleId, now)
    ensures report.None? || manual ==> db.schedules == old(db.schedules)
    ensures report.Some? && !manual ==>
      var i := ScheduleIndex(old(db.schedules), scheduleId).value;
      db.schedules == old(db.schedules)[i := old(db.schedules)[i].(lastSentAt := Some(now))]
  {
    var found := ScheduleIndex(db.schedules, scheduleId);
    if found.None? {
      return None;
    }
    var i := found.value;
    var schedule := db.schedules[i];
    var manager := FindById(db.users, schedule.managerId);
    if manager.None? {
      return None;
    }
    var members := UnitMembers(db.users, schedule.department);
    if members == {} {
      return None;
    }
    var ws := ThisWeekStart(now);
    report := Some(WeeklyReport(schedule.id, schedule.department, manager.value.email, ws,
      PartIds(db.todos, members, CompletedThisWeek, ws),
      PartIds(db.todos, members, Outstanding, ws),
      PartIds(db.todos, members, PlannedNextWeek, ws)));
    if !manual {
      db.schedules := db.schedules[i := schedule.(lastSentAt := Some(now))];
    }
  }
}
