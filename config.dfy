/**
 * The constant tables of config.py: the rank registry (LEVEL_ORDER and UserLevel),
 * the four main departments and the unit-to-department map, the lockout
 * parameters and the status and type enums, each with the string the database stores.
 */
module Config {
  import opened Wrappers

  // ---------------------------------------------------------------------------
  // Levels and their ranks
  // ---------------------------------------------------------------------------

  /** The nine organisational levels (UserLevel). */
  datatype Level =
    | Admin | ExecutiveManager | PlantManager | Manager | AssistantManager
    | SectionChief | DeputySectionChief | TeamLeader | Staff

  /** Every level, from the highest rank to the lowest. */
  const AllLevels: seq<Level> :=
    [Admin, ExecutiveManager, PlantManager, Manager, AssistantManager,
     SectionChief, DeputySectionChief, TeamLeader, Staff]

  /** The string a user row stores in its `level` column. */
  function LevelName(l: Level): string {
    match l
    case Admin => "admin"
    case ExecutiveManager => "executive-manager"
    case PlantManager => "plant-manager"
    case Manager => "manager"
    case AssistantManager => "assistant-manager"
    case SectionChief => "section-chief"
    case DeputySectionChief => "deputy-section-chief"
    case TeamLeader => "team-leader"
    case Staff => "staff"
  }

  /** LEVEL_ORDER: level name to rank value. */
  const LevelOrder: map<string, int> := map[
    "admin" := 10,
    "executive-manager" := 9,
    "plant-manager" := 8,
    "manager" := 7,
    "assistant-manager" := 6,
    "section-chief" := 5,
    "deputy-section-chief" := 4,
    "team-leader" := 3,
    "staff" := 0
  ]

  /** The rank of a level, as LEVEL_ORDER gives it. */
  function Rank(l: Level): int {
    match l
    case Admin => 10
    case ExecutiveManager => 9
    case PlantManager => 8
    case Manager => 7
    case AssistantManager => 6
    case SectionChief => 5
    case DeputySectionChief => 4
    case TeamLeader => 3
    case Staff => 0
  }

  /** Reads a stored level string back into a level. */
  function ParseLevel(s: string): (r: Option<Level>)
    ensures r.Some? ==> LevelName(r.value) == s
    ensures r.None? ==> s !in LevelOrder
  {
    if s == "admin" then Some(Admin)
    else if s == "executive-manager" then Some(ExecutiveManager)
    else if s == "plant-manager" then Some(PlantManager)
    else if s == "manager" then Some(Manager)
    else if s == "assistant-manager" then Some(AssistantManager)
    else if s == "section-chief" then Some(SectionChief)
    else if s == "deputy-section-chief" then Some(DeputySectionChief)
    else if s == "team-leader" then Some(TeamLeader)
    else if s == "staff" then Some(Staff)
    else None
  }

  /** Every level is listed once in AllLevels. */
  lemma AllLevelsComplete(l: Level)
    ensures l in AllLevels
  {
    match l
    case Admin => assert AllLevels[0] == l;
    case ExecutiveManager => assert AllLevels[1] == l;
    case PlantManager => assert AllLevels[2] == l;
    case Manager => assert AllLevels[3] == l;
    case AssistantManager => assert AllLevels[4] == l;
    case SectionChief => assert AllLevels[5] == l;
    case DeputySectionChief => assert AllLevels[6] == l;
    case TeamLeader => assert AllLevels[7] == l;
    case Staff => assert AllLevels[8] == l;
  }

  /** The keys of LEVEL_ORDER are exactly the nine UserLevel values, and each
      key maps to the rank of its level. */
  lemma LevelOrderIsRank()
    ensures LevelOrder.Keys == set l | l in AllLevels :: LevelName(l)
    ensures forall l: Level :: LevelName(l) in LevelOrder && LevelOrder[LevelName(l)] == Rank(l)
  {
    forall l: Level
      ensures LevelName(l) in LevelOrder && LevelOrder[LevelName(l)] == Rank(l)
    {
      match l
      case Admin =>
      case ExecutiveManager =>
      case PlantManager =>
      case Manager =>
      case AssistantManager =>
      case SectionChief =>
      case DeputySectionChief =>
      case TeamLeader =>
      case Staff =>
    }
    var names := set l | l in AllLevels :: LevelName(l);
    forall s | s in LevelOrder ensures s in names {
      var l := ParseLevel(s);
      assert l.Some?;
      AllLevelsComplete(l.value);
    }
  }

  /** Reading back a stored level name gives the level again. */
  lemma ParseLevelName(l: Level)
    ensures ParseLevel(LevelName(l)) == Some(l)
  {
    match l
    case Admin =>
    case ExecutiveManager =>
    case PlantManager =>
    case Manager =>
    case AssistantManager =>
    case SectionChief =>
    case DeputySectionChief =>
    case TeamLeader =>
    case Staff =>
  }

  /** Ranks strictly decrease along AllLevels: admin 10 > executive-manager 9 > ... > staff 0. */
  lemma RankStrictlyDecreasing(i: int, j: int)
    requires 0 <= i < j < |AllLevels|
    ensures Rank(AllLevels[i]) > Rank(AllLevels[j])
  {
  }

  /** No two levels share a rank, so comparing ranks is a strict total order on levels. */
  lemma RankInjective(a: Level, b: Level)
    ensures Rank(a) == Rank(b) ==> a == b
  {
  }

  /** Admin holds the highest rank and staff the lowest. */
  lemma RankBounds(l: Level)
    ensures Rank(Staff) <= Rank(l) <= Rank(Admin)
    ensures l != Admin ==> Rank(l) < Rank(Admin)
  {
  }

  // ---------------------------------------------------------------------------
  // Departments
  // ---------------------------------------------------------------------------

  /** The four main departments, the keys of DEPARTMENT_STRUCTURE. */
  const MainDepartments: seq<string> := ["第一廠", "第三廠", "採購物流部", "品保部"]

  /** UNIT_TO_MAIN_DEPT_MAP: a section (unit) to the main department it belongs to. */
  const UnitToMainDept: map<string, string> := map[
    "裝一課" := "第一廠",
    "裝二課" := "第一廠",
    "組件課" := "第一廠",
    "裝三課" := "第三廠",
    "加工課" := "第三廠",
    "資材成本課" := "採購物流部",
    "資材管理課" := "採購物流部",
    "品管課" := "品保部"
  ]

  /** The members of one section of a department in the organisation tree. */
  datatype UnitNode<P> = UnitNode(managementTeam: seq<P>, leaders: seq<P>, staff: seq<P>)

  /** One main department in the organisation tree. */
  datatype DeptNode<P> = DeptNode(managementTeam: seq<P>, units: map<string, UnitNode<P>>)

  /** DEPARTMENT_STRUCTURE: every main department with an empty management team and no units. */
  function DepartmentStructure<P>(): map<string, DeptNode<P>> {
    map d | d in MainDepartments :: DeptNode([], map[])
  }

  /** Every unit maps to one of the four main departments, and no unit name is itself a main department. */
  lemma UnitMapTargetsMainDepartments(u: string)
    requires u in UnitToMainDept
    ensures UnitToMainDept[u] in MainDepartments
    ensures u !in MainDepartments
  {
  }

  /** The template has exactly the four main departments, each empty. */
  lemma DepartmentStructureEmpty<P>()
    ensures DepartmentStructure<P>().Keys == set d | d in MainDepartments
    ensures |DepartmentStructure<P>().Keys| == 4
    ensures forall d :: d in DepartmentStructure<P>() ==>
      DepartmentStructure<P>()[d].managementTeam == [] && DepartmentStructure<P>()[d].units == map[]
  {
    var ks := DepartmentStructure<P>().Keys;
    assert ks == {"第一廠", "第三廠", "採購物流部", "品保部"};
  }

  // ---------------------------------------------------------------------------
  // Login lockout
  // ---------------------------------------------------------------------------

  /** LOGIN_ATTEMPTS_LIMIT */
  const LoginAttemptsLimit: int := 3
  /** ACCOUNT_LOCK_MINUTES */
  const AccountLockMinutes: int := 30

  // ---------------------------------------------------------------------------
  // Todo status and type
  // ---------------------------------------------------------------------------

  datatype TodoStatus = Pending | InProgress | Completed | Uncompleted

  /** The string the database stores for a todo status. */
  function TodoStatusValue(s: TodoStatus): string {
    match s
    case Pending => "pending"
    case InProgress => "in-progress"
    case Completed => "completed"
    case Uncompleted => "uncompleted"
  }

  /** Accepts exactly the four TodoStatus values. */
  function ParseTodoStatus(s: string): (r: Option<TodoStatus>)
    ensures r.Some? ==> TodoStatusValue(r.value) == s
    ensures r.None? ==> forall v: TodoStatus :: TodoStatusValue(v) != s
  {
    if s == "pending" then Some(Pending)
    else if s == "in-progress" then Some(InProgress)
    else if s == "completed" then Some(Completed)
    else if s == "uncompleted" then Some(Uncompleted)
    else None
  }

  /** Every status value reads back as itself; "in_progress" (with an underscore) is not one of them. */
  lemma ParseTodoStatusValue(v: TodoStatus)
    ensures ParseTodoStatus(TodoStatusValue(v)) == Some(v)
    ensures ParseTodoStatus("in_progress") == None
  {
  }

  datatype TodoType = Current | Next

  function TodoTypeValue(t: TodoType): string {
    match t
    case Current => "current"
    case Next => "next"
  }

  const AllTodoStatuses: seq<TodoStatus> := [Pending, InProgress, Completed, Uncompleted]
  const AllTodoTypes: seq<TodoType> := [Current, Next]

  /** Four todo statuses and two todo types, each stored under its own string. */
  lemma TodoEnumsComplete()
    ensures forall v: TodoStatus :: v in AllTodoStatuses
    ensures forall i, j :: 0 <= i < j < |AllTodoStatuses| ==>
      TodoStatusValue(AllTodoStatuses[i]) != TodoStatusValue(AllTodoStatuses[j])
    ensures forall t: TodoType :: t in AllTodoTypes
    ensures TodoTypeValue(Current) != TodoTypeValue(Next)
  {
    forall v: TodoStatus ensures v in AllTodoStatuses {
      match v
      case Pending => assert AllTodoStatuses[0] == v;
      case InProgress => assert AllTodoStatuses[1] == v;
      case Completed => assert AllTodoStatuses[2] == v;
      case Uncompleted => assert AllTodoStatuses[3] == v;
    }
    forall t: TodoType ensures t in AllTodoTypes {
      match t
      case Current => assert AllTodoTypes[0] == t;
      case Next => assert AllTodoTypes[1] == t;
    }
    assert TodoStatusValue(Pending)[0] == 'p' && TodoStatusValue(InProgress)[0] == 'i';
    assert TodoStatusValue(Completed)[0] == 'c' && TodoStatusValue(Uncompleted)[0] == 'u';
    assert TodoTypeValue(Current)[0] == 'c';
  }

  // ---------------------------------------------------------------------------
  // Meeting task status and type
  // ---------------------------------------------------------------------------

  datatype MeetingTaskStatus =
    | Unassigned | Assigned | InProgressTodo | UncompletedTodo | TaskCompleted
    | ResolutionItem | ResolvedExecuting | AgreedFinalized | Cancelled

  function MeetingTaskStatusValue(s: MeetingTaskStatus): string {
    match s
    case Unassigned => "unassigned"
    case Assigned => "assigned"
    case InProgressTodo => "in_progress_todo"
    case UncompletedTodo => "uncompleted_todo"
    case TaskCompleted => "completed"
    case ResolutionItem => "resolution-item"
    case ResolvedExecuting => "resolved_executing"
    case AgreedFinalized => "agreed_finalized"
    case Cancelled => "cancelled"
  }

  datatype MeetingTaskType = Tracking | Resolution

  function MeetingTaskTypeValue(t: MeetingTaskType): string {
    match t
    case Tracking => "tracking"
    case Resolution => "resolution"
  }

  /** Accepts exactly the two MeetingTaskType values. */
  function ParseMeetingTaskType(s: string): (r: Option<MeetingTaskType>)
    ensures r.Some? ==> MeetingTaskTypeValue(r.value) == s
    ensures r.None? ==> forall v: MeetingTaskType :: MeetingTaskTypeValue(v) != s
  {
    if s == "tracking" then Some(Tracking)
    else if s == "resolution" then Some(Resolution)
    else None
  }

  /** MEETING_TASK_STATUS_CHINESE: the display label of a stored meeting task status. */
  const MeetingTaskStatusChinese: map<string, string> := map[
    "unassigned" := "未指派",
    "assigned" := "已指派",
    "in_progress_todo" := "進行中(主任務)",
    "completed" := "已完成",
    "uncompleted_todo" := "未完成(主任務)",
    "resolved_executing" := "決議執行中",
    "agreed_finalized" := "已同意並最終確定",
    "cancelled" := "已取消"
  ]

  /** Every meeting task status except RESOLUTION_ITEM has a label. */
  lemma StatusLabels(s: MeetingTaskStatus)
    ensures MeetingTaskStatusValue(s) in MeetingTaskStatusChinese <==> s != ResolutionItem
  {
  }
}
