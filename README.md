# Todothis core, modelled in Dafny

Todothis is a Flask to-do and meeting-follow-up system for a manufacturing
organisation. This project models its core as Dafny datatypes, functions, classes and
methods, and proves properties of them. The core has these parts:

- **The constant tables** (`config.py`, module `Config`):
  - the nine user levels and their `LEVEL_ORDER` ranks;
  - the four main departments and the unit-to-department map;
  - the login-lockout constants;
  - the todo and meeting-task status and type enums, with the strings stored for them.
- **The rank-based permissions** of `User` (module `Permissions`):
  - `can_access_user_data`, `can_modify_todo`, `can_assign_to` and `get_main_department`;
  - plus the older copy's `can_assign_to` in `LegacyApp`.
- **Account lockout** (module `Accounts`): `is_account_locked`, `lock_account`,
  `unlock_account` and the failed-attempt counter kept by the login handler.
- **The two copies of the web application**, each a `Database` class whose fields are the
  tables. Every request handler is a method, checked against a check function (which
  refusal, or what passed) and a function for the new rows.
  - `LegacyApp` is the older `app.py`: login, `add_todo`, `update_todo_status` and its
    weekly `transfer_and_archive_todos`.
  - `App` is the later full copy: todos with due dates, meetings and meeting tasks,
    `add_meeting_task`, `assign_tracking_task_to_todo`, `manage_meeting_task` (edit and
    delete) and `agree_meeting_task`.
  - A ghost invariant keeps todos and meeting tasks consistently linked.
- **The organisation tree of the dashboard**, `_build_organization_structure`
  (module `OrgStructure`). It is modelled as written and as evidently intended; see Findings.
- **The background jobs of `scheduler.py`** (module `Scheduler`):
  - the due-today and overdue digests;
  - the unassigned-task and unagreed-item reminders;
  - the weekly rollover and archive;
  - the weekly-report trigger;
  - the user-defined scheduled notifications.
- **The weekly report of `report_service.py`** (module `ReportService`).
- **Recipient ids** (module `RecipientIds`): the comma-separated `recipient_user_ids`
  column, written by the admin form and read back by the notification job.
- **Calendar arithmetic** (module `Clock`): instants are whole minutes since a UTC epoch
  whose day 0 is a Monday. Asia/Taipei is the fixed offset UTC+8.

A job or handler receives the current instant as a parameter. A job returns the mails
it hands to `send_mail`, without their subject and body text. In the handlers, what a
method leaves unchanged is stated by its `modifies` frame: each method names only the
table fields it may write.

## Model

| member | source | states |
|---|---|---|
| Config.ParseLevel | config.py:4-14 | a stored level string reads back to the level whose name it is, and to nothing exactly when it is not a `LEVEL_ORDER` key |
| Config.AllLevelsComplete | config.py:44-53 | every `UserLevel` value is one of the nine listed levels |
| Config.LevelOrderIsRank | config.py:4-14 | the keys of `LEVEL_ORDER` are exactly the nine level names, and each maps to that level's rank |
| Config.ParseLevelName | config.py:44-53 | reading a level's stored name gives the level back |
| Config.RankStrictlyDecreasing | config.py:4-14 | the ranks strictly decrease from admin (10) to staff (0) |
| Config.RankInjective | config.py:4-14 | no two levels share a rank, so rank comparison totally orders the levels |
| Config.RankBounds | config.py:4-14 | admin has the highest rank, staff the lowest, and every other level is strictly below admin |
| Config.UnitMapTargetsMainDepartments | config.py:17-38 | every unit of `UNIT_TO_MAIN_DEPT_MAP` maps to one of the four main departments and is not itself one |
| Config.DepartmentStructureEmpty | config.py:17-22 | the `DEPARTMENT_STRUCTURE` template has exactly the four main departments, each with an empty team and no units |
| Config.ParseTodoStatus | config.py:55-59 | accepts exactly the four stored status strings, each read as its own status |
| Config.ParseTodoStatusValue | config.py:55-59 | every status string reads back as its status; "in_progress" with an underscore is rejected |
| Config.TodoEnumsComplete | config.py:55-63 | four todo statuses and two todo types, each stored under a distinct string |
| Config.ParseMeetingTaskType | config.py:76-78 | accepts exactly "tracking" and "resolution" |
| Config.StatusLabels | config.py:65-89 | every meeting-task status has a Chinese label except `resolution_item` |
| Records.FindById | backups/reports_upgrade_20251002_214626/app.py:241 | `db.session.get(User, id)` returns a row of the table with that id, or nothing when no row has it |
| Records.FindByKey | backups/reports_upgrade_20251002_214626/app.py:206 | `filter_by(user_key=…).first()` returns a row with that key, or nothing when none has it |
| Records.IndexOfEmail | app.py:263 | `filter_by(email=…).first()` finds the first row with that email, or reports that none has it |
| Records.FindByIdFinds | backups/reports_upgrade_20251002_214626/app.py:241 | with a unique primary key, the lookup by id finds every row |
| Clock.Weekday | backups/reports_upgrade_20251002_214626/app.py:1814 | `weekday()` lies in 0..6 |
| Clock.TaipeiMinuteOfDay | scheduler.py:311-312 | a Taipei wall-clock time is within one day |
| Clock.TaipeiDayWindow | scheduler.py:22-28 | an instant is in Taipei day d exactly when it is between that day's midnight and the next |
| Clock.BeforeTaipeiMidnight | scheduler.py:71-77 | before Taipei midnight of day d exactly when its Taipei day is earlier than d |
| Clock.UtcDayOfMidnight | backups/reports_upgrade_20251002_214626/app.py:2366 | a bare date read as UTC has that UTC date |
| Clock.TaipeiWallTime | backups/reports_upgrade_20251002_214626/app.py:1803-1810 | a localized Taipei datetime, stored without its offset, reads back as a UTC value whose date is the Taipei date |
| Clock.WeekStartIsMonday | report_service.py:33-37 | `d - weekday(d)` is a Monday, d lies in its week, and six days later is a Sunday |
| Clock.SameWeek | scheduler.py:219-221 | every day of a week has the same week start |
| Accounts.LockAccount | app.py:65-68 | the account stays locked until now plus the given minutes, and nothing else changes |
| Accounts.UnlockAccount | app.py:70-74 | the failure counter and the lock are cleared, and nothing else changes |
| Accounts.CorrectPasswordResets | app.py:280-289 | a right password on an open, active account logs in, resets the counter and stamps the login |
| Accounts.WrongPasswordCounts | app.py:303-316 | a wrong password adds one failure; at the limit the account is locked for exactly 30 minutes, otherwise it answers the remaining attempts and leaves the lock alone |
| Accounts.RefusedAttemptChangesNothing | app.py:269-277 | a locked or inactive account is refused and its row is left as it was |
| Accounts.ThreeStrikes | app.py:303-316 | three wrong passwords on a fresh account answer 2, then 1 remaining, then lock it for exactly 30 minutes |
| Accounts.RelockAfterExpiry | app.py:303-310 | the counter is not reset when a lock expires, so the next wrong password locks again at once |
| Permissions.GetMainDepartment | backups/reports_upgrade_20251002_214626/app.py:298-307 | a user is filed under their own main department; a centre unit is filed under the unit, or the department the unit maps to; in every other case (the fallback) under their own department |
| Permissions.AccessReflexive | backups/reports_upgrade_20251002_214626/app.py:200-204 | everyone may see their own data |
| Permissions.AccessMissingTarget | backups/reports_upgrade_20251002_214626/app.py:206-209 | no one may see another key that no user has |
| Permissions.AdminSeesEveryone | backups/reports_upgrade_20251002_214626/app.py:211-213 | an admin may see every user |
| Permissions.AccessByLevel | backups/reports_upgrade_20251002_214626/app.py:200-232 | for each viewer tier, both directions of when another user's data is visible (executive: same department or lower rank; manager tier: the department they manage; section tier: same department and unit and lower rank; team leader and staff: never) |
| Permissions.AccessGoesDown | backups/reports_upgrade_20251002_214626/app.py:200-232 | below the manager tier, seeing someone else needs a strictly lower rank |
| Permissions.ModifyIsOwnerOrAccess | backups/reports_upgrade_20251002_214626/app.py:234-245 | the owner may modify a todo; anyone else exactly when the owner exists and they may see the owner's data |
| Permissions.TopTierAssignsAllButAdmins | backups/reports_upgrade_20251002_214626/app.py:253-259 | admins and executives may assign to exactly the non-admins |
| Permissions.ManagerTierAssignment | backups/reports_upgrade_20251002_214626/app.py:262-276 | the manager tier assigns exactly to lower ranks, never admin or executive, in the department it manages |
| Permissions.SectionTierAssignment | backups/reports_upgrade_20251002_214626/app.py:278-287 | section chiefs and deputies assign exactly to lower ranks of their own department and unit |
| Permissions.BottomTierAssignment | backups/reports_upgrade_20251002_214626/app.py:289-296 | a team leader may assign only to themself; staff never |
| Permissions.AssignmentGoesDown | backups/reports_upgrade_20251002_214626/app.py:247-296 | when a user below executive manager may assign to someone other than themself, that user's rank is strictly lower than theirs |
| Permissions.NobodyAssignsToAdmins | backups/reports_upgrade_20251002_214626/app.py:247-296 | no one may assign to an admin |
| Permissions.MainDepartmentOfCentreUnits | backups/reports_upgrade_20251002_214626/app.py:298-307 | a centre user with a known unit is filed under a main department |
| LegacyApp.BottomTierNeverAssigns | app.py:164-165 | in the older copy, team leaders and staff may not assign, not even to themselves |
| LegacyApp.AssignRuleChange | app.py:123-165 | the two copies of `can_assign_to` disagree exactly on a team leader assigning to themself |
| LegacyApp.AddTodoCheck | app.py:507-523 | passes exactly when the four fields are present and either no key is given or the keyed user exists and is the caller or someone the caller may assign to; a keyed pass goes to that user; an unknown key is 404; an existing user the caller may not assign to is 403 |
| LegacyApp.NewTodo | app.py:525-544 | the new todo belongs to the assignee, records the caller as assigner exactly when they differ, stores the request's title, description, status and type, is created and updated at `now`, and starts with one `assigned` event |
| LegacyApp.StatusCheck | app.py:765-775 | a change passes exactly for an existing todo, a valid status and its owner; otherwise 400 or 403 as the code orders them |
| LegacyApp.SetStatus | app.py:777-803 | appends one `status_changed` event, keeps the earlier history, stores 'uncompleted' as in progress and any other status as given, sets `updated_at` to now, and changes no other field |
| LegacyApp.NeverStoresUncompleted | app.py:782-792 | no status change ever stores 'uncompleted' |
| LegacyApp.Promote | app.py:1133-1145 | a next-period todo becomes current with an `auto_transfer` event and `updated_at` set to now, every other field kept; a current one is left as it is |
| LegacyApp.PromoteAll | app.py:1133-1146 | phase 1 keeps every todo |
| LegacyApp.Sweep | app.py:1150-1177 | phase 2 removes exactly the completed current todos |
| LegacyApp.ArchiveRowsSound | app.py:1150-1177 | every archive row is the snapshot of a completed current todo |
| LegacyApp.ArchiveRowsOrdered | app.py:1150-1177 | archive rows come in strictly ascending order of the original id |
| LegacyApp.ArchiveRowsComplete | app.py:1150-1177 | every completed current todo gets an archive row |
| LegacyApp.ArchiveRowsExact | app.py:1150-1177 | the archive rows are exactly one snapshot per archivable todo, in id order |
| LegacyApp.RolloverSettles | app.py:1127-1179 | after one run nothing is next-period or completed-and-current, so a second run changes and archives nothing |
| LegacyApp.ArchivedByRun | app.py:1127-1179 | a run archives exactly the todos that were completed, whether current or next-period |
| LegacyApp.Database.constructor | app.py:167-196 | an empty todo table and archive over the given users |
| LegacyApp.Database.Login | app.py:253-318 | missing fields and an unknown email change nothing; otherwise the first row with that email goes through one login attempt |
| LegacyApp.Database.AddTodo | app.py:501-549 | a refused request changes nothing; an accepted one stores NewTodo under the next id |
| LegacyApp.Database.UpdateTodoStatus | app.py:761-806 | a refused request changes nothing; an accepted one applies SetStatus to that todo only |
| LegacyApp.Database.TransferAndArchiveTodos | app.py:1127-1179 | the todo table becomes Sweep of PromoteAll, and the new archive rows follow the old ones |
| LegacyApp.Database.PromoteNextPeriod | app.py:1133-1147 | phase 1 in place: the table becomes PromoteAll |
| LegacyApp.Database.ArchiveCompleted | app.py:1150-1178 | phase 2 in place: the table becomes Sweep, and the archive gains the ArchiveRows |
| App.AddTodoCheck | backups/reports_upgrade_20251002_214626/app.py:1013-1035 | passes exactly with the required fields, a parseable due date, and no key or a keyed user that exists and is the caller or assignable; a keyed pass goes to that user, an unkeyed one to the caller; an unknown key is 404, an unassignable user 403; every refusal is 404, 403 or 400 |
| App.NewTodo | backups/reports_upgrade_20251002_214626/app.py:1037-1057 | a pending, unlinked todo of the requested type and due date, owned by the assignee, assigner recorded exactly when it is someone else, with the request's title and description, created and updated at `now` |
| App.StatusCheck | backups/reports_upgrade_20251002_214626/app.py:1622-1664 | passes exactly for an existing todo, one of the four statuses, its owner, and (with 'uncompleted') a parseable or absent new date; a missing todo is 404, a bad status 400, another user 403 |
| App.NewDueDate | backups/reports_upgrade_20251002_214626/app.py:1640-1646 | the due date moves exactly for 'uncompleted' with a date |
| App.SetStatus | backups/reports_upgrade_20251002_214626/app.py:1635-1686 | history only grows: `due_date_changed` (when the date moves) then `status_changed`; 'uncompleted' is stored as in progress; `updated_at` becomes now; no other field changes |
| App.Mirror | backups/reports_upgrade_20251002_214626/app.py:1688-1732 | the linked task gains the todo's newest events (the date change first, if any) and only its status columns change |
| App.MirrorTable | backups/reports_upgrade_20251002_214626/app.py:1695-1718 | the status, completion date and reason each todo status gives the linked task |
| App.UncompletedWithNewDate | backups/reports_upgrade_20251002_214626/app.py:1640-1730 | 'uncompleted' with date D leaves todo and task due at D, and both histories end with the same two events |
| App.MirrorInto | backups/reports_upgrade_20251002_214626/app.py:1690-1692 | only the linked task, if it exists, changes, and never in its link columns |
| App.MeetingTaskCheck | backups/reports_upgrade_20251002_214626/app.py:1787-1830 | passes exactly with the required fields, a valid type, a date for a resolution, parseable dates, an allowed expected date, and an existing chairman and assignee; the plan holds the users found by key (an unknown controller dropped) and the expected date; every refusal is 400 |
| App.FirstMeeting | backups/reports_upgrade_20251002_214626/app.py:1835-1839 | the first meeting whose subject and chairman match and whose stored date falls on the requested Taipei date, or none |
| App.MeetingFor | backups/reports_upgrade_20251002_214626/app.py:1835-1858 | the matching meeting's id if there is one, else the next free id |
| App.NewMeetingTask | backups/reports_upgrade_20251002_214626/app.py:1890-1913 | tracking tasks start unassigned and resolutions 'resolved_executing'; unlinked, with one `created` event; an expected date is stored as its Taipei wall time |
| App.PeriodFor | backups/reports_upgrade_20251002_214626/app.py:2389-2397 | the todo is next-period exactly when its date is after this week's Sunday |
| App.AssignerOf | backups/reports_upgrade_20251002_214626/app.py:2407-2412 | the task's controller when that user exists, else the caller |
| App.AssignCheck | backups/reports_upgrade_20251002_214626/app.py:2358-2401 | passes exactly for an existing, unlinked task with a weekday date not in the past, a caller at team leader or above (or admin), and an existing meeting and assignee; a missing task is 404, a bad date 400, a low rank 403, a linked task 400; a pass fixes the date, period, assigner and meeting |
| App.TrackingTodo | backups/reports_upgrade_20251002_214626/app.py:2415-2438 | a pending todo of the task's assignee, due at the date, linked back to the task, titled after the meeting's subject and date, with the task's description, created and updated at `now`, and one event recording the assignment from the meeting by the assigner |
| App.LinkTask | backups/reports_upgrade_20251002_214626/app.py:2440-2460 | the task becomes assigned, linked to the new todo, expected at the date, with one event |
| App.ManageCheck | backups/reports_upgrade_20251002_214626/app.py:2160-2191 | passes exactly for an existing task and meeting and a caller allowed to manage them |
| App.EditCheck | backups/reports_upgrade_20251002_214626/app.py:2193-2290 | passes exactly when the shared checks pass, the task is not finalized, an assignee or controller change has the edit right, an unlinked task and existing users; the plan holds the new assignee, controller, description and a topic exactly when it differs; an empty change list means nothing changes |
| App.ApplyEdit | backups/reports_upgrade_20251002_214626/app.py:2279-2288 | the new assignee, controller and description from the plan, one `updated` event with the changes, and every other field kept |
| App.DeleteCheck | backups/reports_upgrade_20251002_214626/app.py:2292-2296 | a delete passes exactly for a manageable task that is neither finalized nor linked |
| App.AgreeCheck | backups/reports_upgrade_20251002_214626/app.py:2310-2319 | passes exactly for the assignee or an admin on a task not yet finalized; an already finalized task is 400 |
| App.Agree | backups/reports_upgrade_20251002_214626/app.py:2322-2332 | the task is finalized with one `agreed` event and nothing else changes |
| App.AddUnlinkedTask | backups/reports_upgrade_20251002_214626/app.py:1890-1915 | adding an unlinked task keeps the todo/task link consistent |
| App.SameLinks | backups/reports_upgrade_20251002_214626/app.py:1688-1732 | rewriting rows without touching the link columns keeps the link consistent |
| App.LinkNewTodo | backups/reports_upgrade_20251002_214626/app.py:2383-2436 | linking an unlinked task to a new todo of its assignee keeps the link consistent |
| App.StatusKeepsTables | backups/reports_upgrade_20251002_214626/app.py:1618-1734 | a status change and its mirror keep every table and the link valid |
| App.AssignKeepsTables | backups/reports_upgrade_20251002_214626/app.py:2354-2487 | creating and linking the tracking todo keeps every table and the link valid |
| App.EditKeepsTables | backups/reports_upgrade_20251002_214626/app.py:2193-2290 | an accepted edit keeps every table and the link valid |
| App.Database.constructor | backups/reports_upgrade_20251002_214626/app.py:309-428 | empty tables over the given users, report schedules and notifications |
| App.Database.AddTodo | backups/reports_upgrade_20251002_214626/app.py:1007-1080 | a refusal changes nothing; a pass stores NewTodo under the next id; the tables stay valid |
| App.Database.UpdateTodoStatus | backups/reports_upgrade_20251002_214626/app.py:1618-1756 | a refusal changes nothing; a pass applies SetStatus to the todo and Mirror to its linked task |
| App.Database.AddMeetingTask | backups/reports_upgrade_20251002_214626/app.py:1765-1922 | a refusal changes nothing; a pass files the task under MeetingFor's meeting (created if new, its date stored as the Taipei wall time), gives it a topic if none, advances the meeting counter exactly when a meeting is created, and stores NewMeetingTask |
| App.Database.InsertTask | backups/reports_upgrade_20251002_214626/app.py:1914-1915 | stores an unlinked task under the next id |
| App.Database.FileUnderMeeting | backups/reports_upgrade_20251002_214626/app.py:1832-1888 | find-or-create of the meeting, a new one storing its date as the Taipei wall time, and of its discussion topic |
| App.Database.AssignTrackingTaskToTodo | backups/reports_upgrade_20251002_214626/app.py:2354-2487 | a refusal changes nothing; a pass adds TrackingTodo under the next id and links the task to it |
| App.Database.EditMeetingTask | backups/reports_upgrade_20251002_214626/app.py:2193-2290 | a refusal changes nothing; no change answers "no change"; otherwise ApplyEdit and the new topic |
| App.Database.DeleteMeetingTask | backups/reports_upgrade_20251002_214626/app.py:2292-2305 | a refusal changes nothing; a pass removes exactly that task |
| App.Database.AgreeMeetingTask | backups/reports_upgrade_20251002_214626/app.py:2308-2352 | a refusal changes nothing; a pass applies Agree to that task |
| OrgStructure.MainDepartmentOf | backups/reports_upgrade_20251002_214626/app.py:826-838 | the main department a user is filed under, if any; it is always one of the four, and a user whose department is one of them is filed there |
| OrgStructure.SlotOf | backups/reports_upgrade_20251002_214626/app.py:843-871 | the manager tier goes to the department team; a user without a unit goes to the staff of `部門直屬` |
| OrgStructure.Place | backups/reports_upgrade_20251002_214626/app.py:817-871 | one pass keeps the four departments |
| OrgStructure.WithDirector | backups/reports_upgrade_20251002_214626/app.py:798-815 | the template holds exactly the four main departments |
| OrgStructure.WithDirectorShape | backups/reports_upgrade_20251002_214626/app.py:798-815 | before the loop, each department holds only the director's entry, in the team of the director's own department, and no unit |
| OrgStructure.PlaceAll | backups/reports_upgrade_20251002_214626/app.py:817-871 | the user loop keeps the four departments |
| OrgStructure.FileInEffect | backups/reports_upgrade_20251002_214626/app.py:843-871 | filing a user appends them to exactly the list they belong in and opens their unit if they are outside the management tier |
| OrgStructure.PlaceEffect | backups/reports_upgrade_20251002_214626/app.py:826-871 | one pass appends the user to the list they belong in, and changes no other list |
| OrgStructure.InsertBy | backups/reports_upgrade_20251002_214626/app.py:874-880 | one insertion step of the sort adds exactly its entry |
| OrgStructure.SortBy | backups/reports_upgrade_20251002_214626/app.py:874-880 | the sort keeps exactly the entries of the list |
| OrgStructure.SortTree | backups/reports_upgrade_20251002_214626/app.py:874-880 | sorting keeps the four departments |
| OrgStructure.FiledMembers | backups/reports_upgrade_20251002_214626/app.py:817-871 | a slot's entries are exactly the users that belong in it |
| OrgStructure.OpenedUnits | backups/reports_upgrade_20251002_214626/app.py:850-867 | the units opened are exactly those of users filed outside the management team |
| OrgStructure.SortBySorted | backups/reports_upgrade_20251002_214626/app.py:874-880 | the sort orders each list by rank and keeps its entries |
| OrgStructure.SortByStable | backups/reports_upgrade_20251002_214626/app.py:874-880 | the sort is stable: users of equal rank keep their table order |
| OrgStructure.SortDeptSlots | backups/reports_upgrade_20251002_214626/app.py:875-880 | sorting a department sorts each of its lists and opens no unit |
| OrgStructure.Organize | backups/reports_upgrade_20251002_214626/app.py:793-882 | the tree has exactly the four main departments |
| OrgStructure.PlaceAllEffect | backups/reports_upgrade_20251002_214626/app.py:817-871 | after the loop each slot is its old contents followed by the users filed there |
| OrgStructure.OrganizeExact | backups/reports_upgrade_20251002_214626/app.py:793-882 | each list is the sorted director part plus the filed users, and the units are exactly those opened |
| OrgStructure.OrganizeSorted | backups/reports_upgrade_20251002_214626/app.py:874-880 | every list is in ascending rank order, equal ranks in table order |
| OrgStructure.ManagersListed | backups/reports_upgrade_20251002_214626/app.py:843-847 | intended guard: every manager-tier user with a main department, other than the director, is in its management team |
| OrgStructure.EntriesBelong | backups/reports_upgrade_20251002_214626/app.py:793-882 | every entry of every list is the director or a user that belongs there |
| OrgStructure.DirectorListedOnce | backups/reports_upgrade_20251002_214626/app.py:803-820 | the director appears exactly once, in the team of their main department |
| OrgStructure.FiledSkipsDirector | backups/reports_upgrade_20251002_214626/app.py:819-820 | the loop never files the director |
| OrgStructure.NoManagerFiledAsWritten | backups/reports_upgrade_20251002_214626/app.py:846 | as written, with no director the loop files nobody into a management team |
| OrgStructure.ManagersDroppedAsWritten | backups/reports_upgrade_20251002_214626/app.py:846 | as written, with no director every management team is empty |
| OrgStructure.PlantManagerLostAsWritten | backups/reports_upgrade_20251002_214626/app.py:846 | a concrete manager is dropped as written and listed with the intended guard |
| OrgStructure.CountCompleted | backups/reports_upgrade_20251002_214626/app.py:823 | the completed count is the number of completed entries, at most their number, and zero exactly when none is completed |
| OrgStructure.CountsFor | backups/reports_upgrade_20251002_214626/app.py:821-824 | `total` is the number of the user's current todos, `completed` how many of them are completed, `overdue` the user's overdue count, each zero for a missing entry; completed never exceeds total |
| OrgStructure.CountsOf | backups/reports_upgrade_20251002_214626/app.py:817-824 | exactly the users other than the director get counters, and each such user's counters are CountsFor's |
| OrgStructure.AddDirector | backups/reports_upgrade_20251002_214626/app.py:798-815 | the director step builds WithDirector |
| OrgStructure.FileUser | backups/reports_upgrade_20251002_214626/app.py:826-871 | one pass of the loop, with the intended guard, is Place |
| OrgStructure.SortAll | backups/reports_upgrade_20251002_214626/app.py:874-880 | the closing loop is SortTree |
| OrgStructure.BuildOrganizationStructure | backups/reports_upgrade_20251002_214626/app.py:793-882 | returns the intended Organize tree (described by OrganizeExact) and CountsOf |
| OrgStructure.VisitUser | backups/reports_upgrade_20251002_214626/app.py:817-824 | the director is skipped; anyone else is counted and placed |
| ReportService.ThisWeekStart | report_service.py:33-34 | this week's Monday, whose week contains today's Taipei date |
| ReportService.WeekWindows | report_service.py:33-37 | this week and next week each run Monday to Sunday, back to back |
| ReportService.PartsDisjoint | report_service.py:39-56 | the outstanding list shares nothing with the completed list or the next-week list |
| ReportService.OutstandingIncludesOverdue | report_service.py:46-50 | every unfinished todo due by this Sunday is outstanding, however old |
| ReportService.ScheduleIndex | report_service.py:15 | `db.session.get(ReportSchedule, id)`: the first schedule with that id, or none |
| ReportService.ScheduleIndexOf | report_service.py:15 | with distinct ids, a schedule's own id finds it |
| ReportService.MakeReport | report_service.py:31-56 | the report's week and addressee, and both directions of membership in each list: completed and updated this week, outstanding (unfinished and due by Sunday), and due next week |
| ReportService.ReportFor | report_service.py:15-56 | a report exists exactly for a known schedule with an existing manager and active unit members |
| ReportService.GenerateAndSendWeeklyReport | report_service.py:9-99 | sends ReportFor; stamps `last_sent_at` unless sent by hand; changes nothing when there is no report |
| Scheduler.DigestDays | scheduler.py:22-36 | due today means Taipei due date is today, overdue means earlier, never both |
| Scheduler.DigestIds | scheduler.py:39-44 | both directions of which of a user's todos the digest lists, in ascending order |
| Scheduler.DigestFor | scheduler.py:31-46 | a user gets a digest exactly when notifications are on and something is listed |
| Scheduler.DigestMailsExact | scheduler.py:16-106 | each digest goes to an enabled user with exactly their listed todos, and every such user gets one |
| Scheduler.OneDigestPerUser | scheduler.py:31-38 | with unique user ids, no user gets two digests of a kind in one run |
| Scheduler.TodoDigests | scheduler.py:38-63 | the digest loop sends DigestMails |
| Scheduler.CheckDueTodayTasks | scheduler.py:16-63 | the due-today job sends the due-today DigestMails for today's Taipei date |
| Scheduler.CheckOverdueTasks | scheduler.py:65-106 | the overdue job sends the overdue DigestMails for today's Taipei date |
| Scheduler.EnabledEmail | scheduler.py:132-139 | an address exactly for an existing user with notifications on |
| Scheduler.ReminderFor | scheduler.py:120-141 | a reminder exactly for a selected task with a non-empty To set; selection compares the stored date column with the UTC time, so a Taipei date lags as MorningRuns states |
| Scheduler.ReminderMailsExact | scheduler.py:109-207 | each task whose reminder is due gets exactly one, matching ReminderFor, in ascending task order |
| Scheduler.ReminderMailsSound | scheduler.py:126-141 | every reminder is the one ReminderFor gives for its task |
| Scheduler.ReminderMailsAscending | scheduler.py:120-126 | reminders come in strictly ascending task order |
| Scheduler.ReminderMailsComplete | scheduler.py:126-141 | every task whose reminder is due has one |
| Scheduler.AssignedTaskNotReminded | scheduler.py:120-124 | linking a tracking task stops its unassigned reminder |
| Scheduler.AgreedItemNotReminded | scheduler.py:171-175 | agreeing to a resolution item stops its unagreed reminder |
| Scheduler.TaskReminders | scheduler.py:126-157 | the reminder loop sends ReminderMails |
| Scheduler.CheckUnassignedMeetingTasks | scheduler.py:109-157 | corrected: the unassigned-task job sends every reminder ReminderMails gives |
| Scheduler.CheckUnagreedResolutionItems | scheduler.py:160-207 | corrected: the unagreed-item job sends every reminder ReminderMails gives |
| Scheduler.ReminderCallsAsWritten | scheduler.py:154 | with the keyword as written no reminder reaches `send_mail`; with the declared one every reminder does |
| Scheduler.UnassignedReminderLost | scheduler.py:154 | a task filed for a meeting on Taipei day 20 is selected by the 07:35 run of day 21, and its reminder is lost as written |
| Scheduler.DatePastAtMorningRun | scheduler.py:120-124 | a bare date stored for Taipei day d is past at a run before 08:00 Taipei on day e exactly when e is after d |
| Scheduler.MorningRuns | scheduler.py:472-473 | at the 07:35 and 07:40 runs, a task is first selected the day after its meeting or expected date |
| Scheduler.DueThisWeekDays | scheduler.py:219-232 | due this week means the Taipei due date is between this Monday and Sunday |
| Scheduler.Transfer | scheduler.py:229-246 | a next-period todo due this week becomes current with an `auto_transfer` event and `updated_at` set to now, every other field kept; any other is untouched |
| Scheduler.TransferAll | scheduler.py:229-247 | phase 1 keeps every todo |
| Scheduler.Sweep | scheduler.py:251-289 | phase 2 removes exactly the completed current todos, linked or not |
| Scheduler.ArchiveRowsSound | scheduler.py:255-287 | every archive row is the snapshot of an unlinked completed current todo |
| Scheduler.ArchiveRowsOrdered | scheduler.py:255-287 | archive rows come in strictly ascending id order |
| Scheduler.ArchiveRowsComplete | scheduler.py:255-287 | every unlinked completed current todo gets a row |
| Scheduler.ArchiveRowsExact | scheduler.py:255-287 | the archive rows are exactly one snapshot per unlinked completed current todo, in id order |
| Scheduler.RolloverSettles | scheduler.py:210-291 | a second run in the same Taipei week transfers, archives and deletes nothing |
| Scheduler.NothingToArchive | scheduler.py:251-255 | with no completed current todo, nothing is archived |
| Scheduler.LinksKept | scheduler.py:255-258 | rewriting or deleting todos keeps the todo/task link consistent |
| Scheduler.TransferAndArchiveTodos | scheduler.py:210-291 | the todos become Rollover and the archive gains ArchiveRows; the tables stay valid |
| Scheduler.TransferThisWeek | scheduler.py:229-247 | phase 1 in place is TransferAll |
| Scheduler.TransferLoop | scheduler.py:235-246 | the phase 1 loop computes TransferAll |
| Scheduler.ArchiveFinished | scheduler.py:251-289 | phase 2 in place is Sweep plus ArchiveRows |
| Scheduler.ArchiveLoop | scheduler.py:255-287 | the phase 2 loop computes Sweep and ArchiveRows |
| Scheduler.AfterTrigger | scheduler.py:310-358 | a schedule is stamped with now exactly when it fires; its identity is kept |
| Scheduler.ReportCooldown | scheduler.py:317-318 | a schedule that fired does not fire again within 23 hours |
| Scheduler.TriggeredReportWithinWeek | scheduler.py:329-352 | a triggered report lists only this week's outstanding todos, and has next-week plans when required |
| Scheduler.CheckAndTriggerReports | scheduler.py:294-358 | every schedule becomes AfterTrigger, and the reports sent are TriggeredReports |
| Scheduler.TriggerSchedule | scheduler.py:310-358 | one pass stamps schedule i exactly when it fires, and returns the report MakeReport gives |
| Scheduler.EnabledRecipients | scheduler.py:401-405 | no more addresses than listed ids |
| Scheduler.EnabledRecipientsExact | scheduler.py:401-405 | both directions of which listed users are mailed |
| Scheduler.StepFor | scheduler.py:371-407 | the job ends exactly on a due notification with unreadable ids; a send goes to the mailable recipients, never to an empty list |
| Scheduler.NotificationRun | scheduler.py:369-458 | a run keeps the length of the table |
| Scheduler.RunHead | scheduler.py:371-400 | an abort leaves the table as it was; otherwise the run continues from the second row |
| Scheduler.RunTableShape | scheduler.py:449-452 | after a run each notification is unchanged, or stamped with now because it was sent |
| Scheduler.RunMailsShape | scheduler.py:407-450 | a run sends only scheduled messages with at least one recipient |
| Scheduler.NotificationRunShape | scheduler.py:369-458 | a run only stamps notifications it sent, and sends only non-empty messages |
| Scheduler.NotificationCooldown | scheduler.py:384-396 | a notification that was sent is not due again within 23 hours |
| Scheduler.ReadableRunCompletes | scheduler.py:400 | when every recipient column is readable, the run never aborts |
| Scheduler.StoredRecipientsReadable | backups/reports_upgrade_20251002_214626/app.py:1454-1461 | a column the admin form wrote never aborts the job |
| Scheduler.CheckScheduledNotifications | scheduler.py:361-458 | the mails, the new table and the abort flag are NotificationRun's |
| Scheduler.SendDueNotifications | scheduler.py:371-458 | the loop in place is NotificationRun and keeps every id |
| Scheduler.RunNotifications | scheduler.py:371-458 | the loop over a table value is NotificationRun |
| Scheduler.VisitNotification | scheduler.py:372-456 | one pass keeps the loop invariant, or ends with NotificationRun's outcome |
| RecipientIds.Split | scheduler.py:400 | `split(',')` returns at least one piece, and no piece holds the separator |
| RecipientIds.SplitJoin | backups/reports_upgrade_20251002_214626/app.py:1455 | splitting undoes joining |
| RecipientIds.TrimStart | scheduler.py:400 | strips exactly the leading characters Python counts as whitespace, Unicode spaces included |
| RecipientIds.TrimEnd | scheduler.py:400 | strips exactly the trailing characters Python counts as whitespace, Unicode spaces included |
| RecipientIds.ParseInt | scheduler.py:400 | `int()` accepts exactly an optional sign and a decimal literal whose underscores each sit between two digits, and reads its value with the underscores skipped |
| RecipientIds.ParsePieces | scheduler.py:400 | never more ids than pieces |
| RecipientIds.NatToString | backups/reports_upgrade_20251002_214626/app.py:1410-1455 | a rendered id is a non-empty digit string |
| RecipientIds.NatToStringValue | backups/reports_upgrade_20251002_214626/app.py:1410-1455 | reading a rendered id gives it back |
| RecipientIds.Rendered | backups/reports_upgrade_20251002_214626/app.py:1455 | one decimal piece per id |
| RecipientIds.ReadRendered | scheduler.py:400 | a rendered id is its own strip, and `int()` reads it back |
| RecipientIds.ParseRendered | scheduler.py:400 | the pieces of a list of ids read back as that list |
| RecipientIds.StoredIdsRoundTrip | scheduler.py:400 | the job reads back exactly the ids the admin form stored, in order |
| RecipientIds.BlankPieceSkipped | scheduler.py:400 | a blank piece is skipped |
| RecipientIds.BadPieceAborts | scheduler.py:400 | a non-blank piece that is not an integer makes the whole column unreadable |

## Left out

- HTTP, sessions, templates, flash messages and redirects. A handler returns a `Response` value instead.
- Mail subjects and bodies, PDF export and report bodies. A job returns the mails it sends, as recipients and the ids they list.
- The `send_mail` transport. Every mail handed to it counts as sent, since `send_mail` catches its own errors.
- The notification mails the handlers send after committing: the new-task mail, the completion mail, the assignment confirmation and the agree notice (backups app.py:1063-1078, 1736-1752, 2464-2480 and 2337-2346).
- Password hashing. The handlers receive the outcome of `check_password` as a boolean.
- `must_change_password` and the login redirects.
- The admin, user-management, settings, export, statistics, PDF and batch routes of both copies. They are not part of the modelled core.
- Meeting attendees, location, recorder and the discussion-item reporter (backups app.py:1775-1778 and 1860-1874). They are not read by any modelled rule.
- The dashboard route that builds the inputs of `_build_organization_structure`. The per-user todo map and overdue counts are parameters.
- APScheduler wiring, cron times and misfire handling (scheduler.py:461-482). Each job is a method called with the current instant.
- SQLite details. Ids are handed out from a counter and never reused; query results come in ascending id order, the order SQLite returns without `ORDER BY`. The `ORDER BY due_date` of the digests is not modelled: a digest lists its todo ids in ascending id order.
- Time zones. Naive datetimes are read as UTC, and Asia/Taipei is the fixed offset UTC+8. A Taipei datetime that `add_meeting_task` stores keeps its wall time (TaipeiWallTime), as SQLite keeps it. Time is counted in whole minutes: seconds and the microsecond end-of-day bounds collapse onto minute boundaries.
- Level strings outside the nine levels. Levels are a closed datatype, so the `LEVEL_ORDER.get(level, 0)` and `99` defaults are never taken.
- `completion_rate` and other floating-point statistics.
- LegacyApp.NewTodo: the request's status and type are read into the closed status and type enums. The source stores `data['status']` and `data['type']` unvalidated (app.py:527-528), so a row with another string, which the rollover then never promotes or archives, cannot be represented.
- App.NewTodo: the request's type is read into the closed type enum. The source stores `data['type']` unvalidated (backups app.py:1044), so a row with another type, which the rollover and the reports never match, cannot be represented.
- ParseInt: reads ASCII digits only. Python's `int()` also accepts other Unicode decimal digits, such as full-width `１２`; such a piece aborts the model's job where the source reads an id.
- OrgStructure.CountsOf: the counters the loop attaches to the user objects are returned as a map by user id. User objects are not mutated.
- OrgStructure.SortAll: iterates departments and units in key order rather than dict insertion order. The resulting tree is the same.
- The login handler of the later copy (backups app.py:493-558). Its text is the same as the older copy's apart from the clock call, so LegacyApp.Database.Login stands for both.
- App.Database handlers: the fields a handler leaves unchanged are stated by its `modifies` frame, not by `ensures` clauses.

## Findings

| source | as written | input that shows it | evidently intended | confidence | as-written member | corrected member |
|---|---|---|---|---|---|---|
| backups/reports_upgrade_20251002_214626/app.py:846 | `if user.user_key != director.user_key if director else False:` is False whenever there is no director | no executive manager (director None) and a manager of `第一廠`: the management team of `第一廠` stays empty | skip only the director; with no director, list every plant manager, manager and assistant manager | high, not executed | OrgStructure.ManagersDroppedAsWritten, OrgStructure.PlantManagerLostAsWritten | OrgStructure.ManagersListed, OrgStructure.BuildOrganizationStructure |
| scheduler.py:154 | `send_mail(…, cc_recipients=…)`, but `send_mail` (mail_service.py:9) declares `mail_cc`; the TypeError is caught and logged | a tracking task still unassigned after its meeting, whose chairman has notifications on: selected, but no mail is sent (the same at scheduler.py:204) | pass the Cc list as `mail_cc`, so every selected reminder is sent | high, not executed | Scheduler.ReminderCallsAsWritten, Scheduler.UnassignedReminderLost | Scheduler.CheckUnassignedMeetingTasks, Scheduler.CheckUnagreedResolutionItems, Scheduler.ReminderMailsExact |
