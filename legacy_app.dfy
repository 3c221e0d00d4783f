/**
 * The older copy of the web application, app.py: its own `can_assign_to`,
 * the login attempt counter, the `add_todo` and `update_todo_status`
 * handlers, and the weekly `transfer_and_archive_todos` job. Its todos have
 * no due date and there are no meeting tasks.
 */
module LegacyApp {
  import opened Wrappers
  import opened Config
  import opened Records
  import opened Accounts
  import Permissions

  /** A row of the `todo` table of app.py. */
  datatype Todo = Todo(
    id: int,
    title: string,
    description: string,
    status: TodoStatus,
    todoType: TodoType,
    userId: int,
    assignedBy: Option<int>,
    history: seq<Event>,
    createdAt: int,
    updatedAt: int)

  /** A row of the `archived_todo` table of app.py. */
  datatype ArchivedTodo = ArchivedTodo(
    originalTodoId: int,
    title: string,
    description: string,
    status: TodoStatus,
    todoType: TodoType,
    userId: int,
    assignedBy: Option<int>,
    history: seq<Event>,
    createdAt: int,
    updatedAt: int,
    archivedAt: int)

  // ---------------------------------------------------------------------------
  // Permissions
  // ---------------------------------------------------------------------------

  /** `can_assign_to` of app.py: as in the later copy, except that a team leader may not assign even to themself. */
  predicate CanAssignTo(assigner: Person, target: Person) {
    var mine := Rank(assigner.level);
    var theirs := Rank(target.level);
    if assigner.level == Admin then target.level != Admin
    else if assigner.level == ExecutiveManager then target.level != Admin
    else if Permissions.IsManagerTier(assigner.level) then
      if theirs >= mine then false
      else if target.level == Admin || target.level == ExecutiveManager then false
      else Some(target.department) == assigner.unit
    else if assigner.level == SectionChief then
      assigner.department == target.department && assigner.unit == target.unit && theirs < mine
    else if assigner.level == DeputySectionChief then
      assigner.department == target.department && assigner.unit == target.unit && theirs < mine
    else false
  }

  /** Team leaders and staff may never assign, not even to themselves. */
  lemma BottomTierNeverAssigns(assigner: Person, target: Person)
    requires assigner.level == TeamLeader || assigner.level == Staff
    ensures !CanAssignTo(assigner, target)
  {
  }

  /** The two copies of `can_assign_to` disagree exactly on a team leader assigning to themself. */
  lemma AssignRuleChange(assigner: Person, target: Person)
    ensures CanAssignTo(assigner, target) != Permissions.CanAssignTo(assigner, target)
      <==> assigner.level == TeamLeader && assigner.id == target.id
  {
  }

  // ---------------------------------------------------------------------------
  // add_todo
  // ---------------------------------------------------------------------------

  /** The JSON body of a POST to /api/todo; a missing key is None. */
  datatype TodoRequest = TodoRequest(
    targetKey: Option<string>,
    title: Option<string>,
    description: Option<string>,
    status: Option<TodoStatus>,
    todoType: Option<TodoType>)

  predicate HasRequiredFields(req: TodoRequest) {
    req.title.Some? && req.description.Some? && req.status.Some? && req.todoType.Some?
  }

  /** The request names an assignee: `if not target_user_key` does not hold. */
  predicate KeyGiven(req: TodoRequest) {
    req.targetKey.Some? && req.targetKey.value != ""
  }

  /** The looked-up user exists and is the caller or someone this copy lets the caller assign to. */
  predicate MayReceive(current: Person, target: Option<Person>) {
    target.Some? && (target.value.id == current.id || CanAssignTo(current, target.value))
  }

  /**
   * The checks of `add_todo` in their order: the assignee (the caller when no
   * key is given, else the user with that key, 404 when there is none), the
   * assignment right for someone else (403), then the required fields (400).
   */
  function AddTodoCheck(current: Person, req: TodoRequest, users: seq<Person>): (r: Checked<Person>)
    ensures r.Pass? <==> (HasRequiredFields(req) &&
      (!KeyGiven(req) || MayReceive(current, FindByKey(users, req.targetKey.value))))
    ensures r.Pass? && KeyGiven(req) ==> FindByKey(users, req.targetKey.value) == Some(r.value)
    ensures (KeyGiven(req) && FindByKey(users, req.targetKey.value).Some? &&
             !MayReceive(current, FindByKey(users, req.targetKey.value))) ==> r == Fail(AccessDenied)
    ensures r.Pass? && r.value.id != current.id ==> r.value in users && CanAssignTo(current, r.value)
    ensures (req.targetKey.None? || req.targetKey == Some("")) ==>
      r == if HasRequiredFields(req) then Pass(current) else Fail(ValidationError)
    ensures req.targetKey.Some? && req.targetKey.value != "" && FindByKey(users, req.targetKey.value).None? ==>
      r == Fail(NotFound)
  {
    var target :=
      if req.targetKey.None? || req.targetKey.value == "" then Pass(current)
      else match FindByKey(users, req.targetKey.value)
        case None => Fail(NotFound)
        case Some(t) =>
          if t.id != current.id && !CanAssignTo(current, t) then Fail(AccessDenied) else Pass(t);
    if target.Fail? then target
    else if !HasRequiredFields(req) then Fail(ValidationError)
    else target
  }

  /** The todo `add_todo` creates for an assignee that passed the checks. */
  function NewTodo(id: int, current: Person, target: Person, req: TodoRequest, now: int): (t: Todo)
    requires HasRequiredFields(req)
    ensures t.id == id && t.userId == target.id
    ensures t.assignedBy.None? <==> target.id == current.id
    ensures t.assignedBy.Some? ==> t.assignedBy.value == current.id
    ensures t.history == [Event(now, ActorOf(current), TodoAssigned(target.id, t.assignedBy))]
    ensures t.title == req.title.value && t.description == req.description.value
    ensures t.status == req.status.value && t.todoType == req.todoType.value
    ensures t.createdAt == now && t.updatedAt == now
  {
    var assignedBy := if target.id != current.id then Some(current.id) else None;
    Todo(id, req.title.value, req.description.value, req.status.value, req.todoType.value,
      target.id, assignedBy, [Event(now, ActorOf(current), TodoAssigned(target.id, assignedBy))], now, now)
  }

  // ---------------------------------------------------------------------------
  // update_todo_status
  // ---------------------------------------------------------------------------

  /** The checks of `update_todo_status`: the todo exists (404), the status is one of the four (400), the caller owns it (403). */
  function StatusCheck(current: Person, todos: map<int, Todo>, todoId: int, status: Option<string>): (r: Checked<TodoStatus>)
    ensures r.Pass? <==> (todoId in todos && status.Some? && ParseTodoStatus(status.value).Some?
      && todos[todoId].userId == current.id)
    ensures r.Pass? ==> TodoStatusValue(r.value) == status.value
    ensures todoId in todos && status.Some? && ParseTodoStatus(status.value).None? ==> r == Fail(ValidationError)
    ensures todoId in todos && status.Some? && ParseTodoStatus(status.value).Some? && todos[todoId].userId != current.id
      ==> r == Fail(AccessDenied)
  {
    if todoId !in todos then Fail(NotFound)
    else if status.None? || ParseTodoStatus(status.value).None? then Fail(ValidationError)
    else if todos[todoId].userId != current.id then Fail(AccessDenied)
    else Pass(ParseTodoStatus(status.value).value)
  }

  /**
   * The todo after an accepted status change: 'uncompleted' is recorded with
   * its reason and stored as in-progress; any other status is stored as given.
   */
  function SetStatus(t: Todo, s: TodoStatus, reason: Option<string>, actor: Person, now: int): (u: Todo)
    ensures |u.history| == |t.history| + 1 && u.history[..|t.history|] == t.history
    ensures u.history[|t.history|] ==
      Event(now, ActorOf(actor), StatusChanged(t.status, s, if s == Uncompleted then reason else None))
    ensures s == Uncompleted ==> u.status == InProgress
    ensures s != Uncompleted ==> u.status == s
    ensures u.(status := t.status, history := t.history, updatedAt := t.updatedAt) == t
    ensures u.updatedAt == now
  {
    if s == Uncompleted then
      t.(status := InProgress, updatedAt := now,
         history := t.history + [Event(now, ActorOf(actor), StatusChanged(t.status, Uncompleted, reason))])
    else
      t.(status := s, updatedAt := now,
         history := t.history + [Event(now, ActorOf(actor), StatusChanged(t.status, s, None))])
  }

  /** No status change ever stores 'uncompleted'. */
  lemma NeverStoresUncompleted(t: Todo, s: TodoStatus, reason: Option<string>, actor: Person, now: int)
    ensures SetStatus(t, s, reason, actor, now).status != Uncompleted
  {
  }

  // ---------------------------------------------------------------------------
  // transfer_and_archive_todos (the weekly job)
  // ---------------------------------------------------------------------------

  /** Phase 1 on one todo: a next-period todo becomes current with an `auto_transfer` event. */
  function Promote(t: Todo, now: int): (u: Todo)
    ensures u.todoType.Current?
    ensures t.todoType.Current? ==> u == t
    ensures t.todoType.Next? ==> u.history == t.history + [Event(now, System, AutoTransfer(None))]
    ensures t.todoType.Next? ==> u.updatedAt == now
    ensures u.(todoType := t.todoType, updatedAt := t.updatedAt, history := t.history) == t
  {
    if t.todoType.Next? then
      t.(todoType := Current, updatedAt := now, history := t.history + [Event(now, System, AutoTransfer(None))])
    else t
  }

  /** The todo table after phase 1. */
  function PromoteAll(todos: map<int, Todo>, now: int): (m: map<int, Todo>)
    ensures m.Keys == todos.Keys
  {
    map k | k in todos :: Promote(todos[k], now)
  }

  predicate Archivable(t: Todo) {
    t.todoType.Current? && t.status.Completed?
  }

  function ArchivableIds(todos: map<int, Todo>): set<int> {
    set k | k in todos && Archivable(todos[k])
  }

  /** The todo table after phase 2: every completed current todo is gone. */
  function Sweep(todos: map<int, Todo>): (m: map<int, Todo>)
    ensures m.Keys == todos.Keys - ArchivableIds(todos)
  {
    map k | k in todos && !Archivable(todos[k]) :: todos[k]
  }

  /** The archive row of a todo: every field copied, with the 'archived' event appended. */
  function Snapshot(t: Todo, now: int): ArchivedTodo {
    ArchivedTodo(t.id, t.title, t.description, t.status, t.todoType, t.userId, t.assignedBy,
      t.history + [Event(now, System, Archived)], t.createdAt, t.updatedAt, now)
  }

  /**
   * The archive rows phase 2 adds for the todos with ids in [lo, hi), in
   * ascending id order (the order the query returns them).
   */
  function ArchiveRows(todos: map<int, Todo>, lo: int, hi: int, now: int): seq<ArchivedTodo>
    decreases hi - lo
  {
    if hi <= lo then []
    else
      var tail := if hi - 1 in todos && Archivable(todos[hi - 1]) then [Snapshot(todos[hi - 1], now)] else [];
      ArchiveRows(todos, lo, hi - 1, now) + tail
  }

  /** An archive row in [lo, hi): the snapshot of a completed current todo of that id. */
  predicate RowFor(todos: map<int, Todo>, row: ArchivedTodo, lo: int, hi: int, now: int) {
    lo <= row.originalTodoId < hi && row.originalTodoId in todos &&
    Archivable(todos[row.originalTodoId]) && row == Snapshot(todos[row.originalTodoId], now)
  }

  /**
   * `rows` holds exactly the snapshots of the completed current todos with
   * ids in [lo, hi), one each, in strictly ascending order of the original id.
   */
  predicate ExactRows(rows: seq<ArchivedTodo>, todos: map<int, Todo>, lo: int, hi: int, now: int) {
    (forall i :: 0 <= i < |rows| ==> RowFor(todos, rows[i], lo, hi, now)) &&
    (forall i, j :: 0 <= i < j < |rows| ==> rows[i].originalTodoId < rows[j].originalTodoId) &&
    (forall k :: lo <= k < hi && k in todos && Archivable(todos[k]) ==>
      HasRow(rows, k))
  }

  /** Every row is the snapshot of a completed current todo with an id in [lo, hi). */
  lemma {:induction false} ArchiveRowsSound(todos: map<int, Todo>, lo: int, hi: int, now: int)
    requires forall k :: k in todos ==> todos[k].id == k
    ensures forall i :: 0 <= i < |ArchiveRows(todos, lo, hi, now)| ==>
      RowFor(todos, ArchiveRows(todos, lo, hi, now)[i], lo, hi, now)
    decreases hi - lo
  {
    if hi > lo {
      var last := hi - 1;
      ArchiveRowsSound(todos, lo, last, now);
      var prefix := ArchiveRows(todos, lo, last, now);
      var rows := ArchiveRows(todos, lo, hi, now);
      forall i | 0 <= i < |rows|
        ensures RowFor(todos, rows[i], lo, hi, now)
      {
        if i < |prefix| {
          assert rows[i] == prefix[i];
          assert RowFor(todos, prefix[i], lo, last, now);
        } else {
          assert rows[i] == Snapshot(todos[last], now);
          assert todos[last].id == last;
        }
      }
    }
  }

  /** The rows come in strictly ascending order of the original id. */
  lemma {:induction false} ArchiveRowsOrdered(todos: map<int, Todo>, lo: int, hi: int, now: int)
    requires forall k :: k in todos ==> todos[k].id == k
    ensures forall i, j :: 0 <= i < j < |ArchiveRows(todos, lo, hi, now)| ==>
      ArchiveRows(todos, lo, hi, now)[i].originalTodoId < ArchiveRows(todos, lo, hi, now)[j].originalTodoId
    decreases hi - lo
  {
    if hi > lo {
      var last := hi - 1;
      ArchiveRowsOrdered(todos, lo, last, now);
      ArchiveRowsSound(todos, lo, last, now);
      var prefix := ArchiveRows(todos, lo, last, now);
      var rows := ArchiveRows(todos, lo, hi, now);
      forall i, j | 0 <= i < j < |rows|
        ensures rows[i].originalTodoId < rows[j].originalTodoId
      {
        assert rows[i] == prefix[i];
        if j >= |prefix| {
          assert RowFor(todos, prefix[i], lo, last, now);
          assert rows[j] == Snapshot(todos[last], now);
          assert todos[last].id == last;
        } else {
          assert rows[j] == prefix[j];
        }
      }
    }
  }

  /** Some row archives the todo with id `k`. */
  predicate HasRow(rows: seq<ArchivedTodo>, k: int) {
    exists i :: 0 <= i < |rows| && rows[i].originalTodoId == k
  }

  /** Every completed current todo with an id in [lo, hi) has a row. */
  lemma {:induction false} ArchiveRowsComplete(todos: map<int, Todo>, lo: int, hi: int, now: int)
    requires forall k :: k in todos ==> todos[k].id == k
    ensures forall k :: lo <= k < hi && k in todos && Archivable(todos[k]) ==>
      HasRow(ArchiveRows(todos, lo, hi, now), k)
    decreases hi - lo
  {
    if hi > lo {
      var last := hi - 1;
      ArchiveRowsComplete(todos, lo, last, now);
      var prefix := ArchiveRows(todos, lo, last, now);
      var rows := ArchiveRows(todos, lo, hi, now);
      assert rows == prefix + (if last in todos && Archivable(todos[last]) then [Snapshot(todos[last], now)] else []);
      forall k | lo <= k < hi && k in todos && Archivable(todos[k])
        ensures HasRow(rows, k)
      {
        if k < last {
          assert HasRow(prefix, k);
          var i :| 0 <= i < |prefix| && prefix[i].originalTodoId == k;
          assert rows[i] == prefix[i];
        } else {
          assert rows[|prefix|] == Snapshot(todos[last], now);
          assert todos[last].id == last;
        }
      }
    }
  }

  /** The archive rows of a run are exactly the snapshots of the archivable todos, in id order. */
  lemma ArchiveRowsExact(todos: map<int, Todo>, lo: int, hi: int, now: int)
    requires forall k :: k in todos ==> todos[k].id == k
    ensures ExactRows(ArchiveRows(todos, lo, hi, now), todos, lo, hi, now)
  {
    ArchiveRowsSound(todos, lo, hi, now);
    ArchiveRowsOrdered(todos, lo, hi, now);
    ArchiveRowsComplete(todos, lo, hi, now);
  }

  /**
   * After one run no todo is next-period and none is completed-and-current,
   * so a second run, at any time, changes nothing and archives nothing.
   */
  lemma RolloverSettles(todos: map<int, Todo>, now: int, later: int)
    ensures var once := Sweep(PromoteAll(todos, now));
      (forall k :: k in once ==> once[k].todoType.Current? && !once[k].status.Completed?) &&
      PromoteAll(once, later) == once &&
      ArchivableIds(PromoteAll(once, later)) == {} &&
      Sweep(PromoteAll(once, later)) == once
  {
    var once := Sweep(PromoteAll(todos, now));
    forall k | k in once
      ensures PromoteAll(once, later)[k] == once[k]
    {
    }
    assert PromoteAll(once, later) == once;
    assert ArchivableIds(once) == {};
  }

  /** Every todo that was completed, current or not, is archived by a run; nothing else is. */
  lemma ArchivedByRun(todos: map<int, Todo>, now: int)
    ensures ArchivableIds(PromoteAll(todos, now)) == set k | k in todos && todos[k].status.Completed?
  {
    var promoted := PromoteAll(todos, now);
    forall k
      ensures k in ArchivableIds(promoted) <==> k in todos && todos[k].status.Completed?
    {
      if k in todos {
        assert promoted[k].status == todos[k].status;
      }
    }
  }

  // ---------------------------------------------------------------------------
  // The store
  // ---------------------------------------------------------------------------

  class Database {
    var users: seq<Person>
    var todos: map<int, Todo>
    var archived: seq<ArchivedTodo>
    /** The id the next inserted todo receives. */
    var nextTodoId: int

    ghost predicate Valid()
      reads this
    {
      1 <= nextTodoId && forall k :: k in todos ==> todos[k].id == k && 1 <= k < nextTodoId
    }

    constructor (initialUsers: seq<Person>)
      ensures Valid() && users == initialUsers && todos == map[] && archived == []
    {
      users := initialUsers;
      todos := map[];
      archived := [];
      nextTodoId := 1;
    }

    /**
     * `login`: empty fields, an unknown email, a locked or an inactive account
     * are refused; otherwise the password check counts failures, locks the
     * account at the limit, and resets the counter on success. Only the first
     * row with the email is touched.
     */
    method Login(email: string, password: string, passwordMatches: bool, now: int) returns (r: LoginOutcome)
      requires Valid()
      modifies this
      ensures Valid() && todos == old(todos) && archived == old(archived) && nextTodoId == old(nextTodoId)
      ensures email == "" || password == "" ==> r == MissingCredentials && users == old(users)
      ensures email != "" && password != "" && IndexOfEmail(old(users), email).None? ==>
        r == UnknownEmail && users == old(users)
      ensures email != "" && password != "" && IndexOfEmail(old(users), email).Some? ==>
        var i := IndexOfEmail(old(users), email).value;
        r == Attempt(old(users)[i], passwordMatches, now).0 &&
        users == old(users)[i := Attempt(old(users)[i], passwordMatches, now).1]
    {
      if email == "" || password == "" {
        return MissingCredentials;
      }
      var found := IndexOfEmail(users, email);
      if found.None? {
        return UnknownEmail;
      }
      var i := found.value;
      var user := users[i];
      if IsAccountLocked(user, now) {
        return AccountLocked;
      }
      if !user.isActive {
        return AccountInactive;
      }
      if passwordMatches {
        user := user.(failedLoginAttempts := 0, lastLogin := Some(now));
        r := LoggedIn(user.id);
      } else {
        user := user.(failedLoginAttempts := user.failedLoginAttempts + 1);
        if user.failedLoginAttempts >= LoginAttemptsLimit {
          user := LockAccount(user, now, AccountLockMinutes);
          r := LockedOut;
        } else {
          r := WrongPassword(LoginAttemptsLimit - user.failedLoginAttempts);
        }
      }
      users := users[i := user];
    }

    /** `add_todo`: creates the todo under a fresh id when the checks pass, and changes nothing otherwise. */
    method AddTodo(current: Person, req: TodoRequest, now: int) returns (r: Response)
      requires Valid()
      modifies this
      ensures Valid() && users == old(users) && archived == old(archived)
      ensures AddTodoCheck(current, req, old(users)).Fail? ==>
        r == AddTodoCheck(current, req, old(users)).refusal && todos == old(todos) && nextTodoId == old(nextTodoId)
      ensures AddTodoCheck(current, req, old(users)).Pass? ==>
        r == CreatedWithId(old(nextTodoId)) && nextTodoId == old(nextTodoId) + 1 &&
        todos == old(todos)[old(nextTodoId) :=
          NewTodo(old(nextTodoId), current, AddTodoCheck(current, req, old(users)).value, req, now)]
    {
      var check := AddTodoCheck(current, req, users);
      if check.Fail? {
        return check.refusal;
      }
      var id := nextTodoId;
      todos := todos[id := NewTodo(id, current, check.value, req, now)];
      nextTodoId := nextTodoId + 1;
      r := CreatedWithId(id);
    }

    /** `update_todo_status`: applies SetStatus to the one todo when the checks pass, and changes nothing otherwise. */
    method UpdateTodoStatus(current: Person, todoId: int, status: Option<string>, reason: Option<string>, now: int)
      returns (r: Response)
      requires Valid()
      modifies this
      ensures Valid() && users == old(users) && archived == old(archived) && nextTodoId == old(nextTodoId)
      ensures StatusCheck(current, old(todos), todoId, status).Fail? ==>
        r == StatusCheck(current, old(todos), todoId, status).refusal && todos == old(todos)
      ensures StatusCheck(current, old(todos), todoId, status).Pass? ==>
        r == Done &&
        todos == old(todos)[todoId :=
          SetStatus(old(todos)[todoId], StatusCheck(current, old(todos), todoId, status).value, reason, current, now)]
    {
      var check := StatusCheck(current, todos, todoId, status);
      if check.Fail? {
        return check.refusal;
      }
      todos := todos[todoId := SetStatus(todos[todoId], check.value, reason, current, now)];
      r := Done;
    }

    /**
     * `transfer_and_archive_todos`: phase 1 promotes every next-period todo;
     * phase 2 archives and deletes every completed current todo. Existing
     * archive rows are kept; the new ones follow them in id order.
     */
    method TransferAndArchiveTodos(now: int)
      requires Valid()
      modifies this
      ensures Valid() && users == old(users) && nextTodoId == old(nextTodoId)
      ensures todos == Sweep(PromoteAll(old(todos), now))
      ensures archived == old(archived) + ArchiveRows(PromoteAll(old(todos), now), 1, nextTodoId, now)
    {
      PromoteNextPeriod(now);
      ArchiveCompleted(now);
    }

    /** Phase 1: every next-period todo becomes current. */
    method PromoteNextPeriod(now: int)
      requires Valid()
      modifies this
      ensures Valid() && users == old(users) && archived == old(archived) && nextTodoId == old(nextTodoId)
      ensures todos == PromoteAll(old(todos), now)
    {
      var i := 1;
      while i < nextTodoId
        invariant 1 <= i <= nextTodoId
        invariant todos.Keys == old(todos).Keys
        invariant forall k :: k in todos ==> todos[k] == if k < i then Promote(old(todos)[k], now) else old(todos)[k]
        invariant Valid() && users == old(users) && archived == old(archived) && nextTodoId == old(nextTodoId)
      {
        if i in todos && todos[i].todoType.Next? {
          todos := todos[i := Promote(todos[i], now)];
        }
        i := i + 1;
      }
      forall k | k in todos
        ensures todos[k] == PromoteAll(old(todos), now)[k]
      {
      }
    }

    /** Phase 2: every completed current todo is copied to the archive and deleted. */
    method ArchiveCompleted(now: int)
      requires Valid()
      modifies this
      ensures Valid() && users == old(users) && nextTodoId == old(nextTodoId)
      ensures todos == Sweep(old(todos))
      ensures archived == old(archived) + ArchiveRows(old(todos), 1, nextTodoId, now)
    {
      var i := 1;
      while i < nextTodoId
        invariant 1 <= i <= nextTodoId
        invariant todos == map k | k in old(todos) && (k >= i || !Archivable(old(todos)[k])) :: old(todos)[k]
        invariant archived == old(archived) + ArchiveRows(old(todos), 1, i, now)
        invariant Valid() && users == old(users) && nextTodoId == old(nextTodoId)
      {
        if i in todos && Archivable(todos[i]) {
          archived := archived + [Snapshot(todos[i], now)];
          todos := todos - {i};
        }
        i := i + 1;
      }
    }
  }
}
