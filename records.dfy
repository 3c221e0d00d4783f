/**
 * Rows shared by both copies of the web application: the user record, the
 * first-match lookups the code performs on the user table, the history events
 * appended to todos and meeting tasks, and the outcome of a request handler.
 */
module Records {
  import opened Wrappers
  import opened Config

  /**
   * A row of the `user` table. Times are instants (see Clock); the password
   * hash is not kept, the handlers receive the outcome of `check_password`.
   */
  datatype Person = Person(
    id: int,
    key: string,
    name: string,
    email: string,
    level: Level,
    department: string,
    unit: Option<string>,
    isActive: bool,
    notificationEnabled: bool,
    failedLoginAttempts: int,
    accountLockedUntil: Option<int>,
    lastLogin: Option<int>)

  /** Python truthiness of the nullable `unit` column: present and non-empty. */
  predicate HasUnit(p: Person) {
    p.unit.Some? && p.unit.value != ""
  }

  /** `db.session.get(User, id)`: the user with that primary key, if any. */
  function FindById(users: seq<Person>, id: int): (r: Option<Person>)
    ensures r.Some? ==> r.value in users && r.value.id == id
    ensures r.None? ==> forall p :: p in users ==> p.id != id
  {
    if |users| == 0 then None
    else if users[0].id == id then Some(users[0])
    else FindById(users[1..], id)
  }

  /** `User.query.filter_by(user_key=key).first()`. */
  function FindByKey(users: seq<Person>, key: string): (r: Option<Person>)
    ensures r.Some? ==> r.value in users && r.value.key == key
    ensures r.None? ==> forall p :: p in users ==> p.key != key
  {
    if |users| == 0 then None
    else if users[0].key == key then Some(users[0])
    else FindByKey(users[1..], key)
  }

  /** The position of `User.query.filter_by(email=email).first()` in the table. */
  function IndexOfEmail(users: seq<Person>, email: string): (r: Option<nat>)
    ensures r.Some? ==> r.value < |users| && users[r.value].email == email
    ensures r.Some? ==> forall j :: 0 <= j < r.value ==> users[j].email != email
    ensures r.None? ==> forall j :: 0 <= j < |users| ==> users[j].email != email
  {
    if |users| == 0 then None
    else if users[0].email == email then Some(0)
    else match IndexOfEmail(users[1..], email)
      case None => None
      case Some(i) => Some(i + 1)
  }

  /** The primary key of the user table is unique. */
  ghost predicate UniqueIds(users: seq<Person>) {
    forall i, j :: 0 <= i < j < |users| ==> users[i].id != users[j].id
  }

  /** With unique ids, the lookup by id finds every row of the table. */
  lemma {:induction false} FindByIdFinds(users: seq<Person>, p: Person)
    requires UniqueIds(users)
    requires p in users
    ensures FindById(users, p.id) == Some(p)
  {
    if users[0] != p {
      assert users[0].id != p.id by {
        var j :| 0 <= j < |users| && users[j] == p;
        assert j != 0;
      }
      assert UniqueIds(users[1..]) by {
        forall i, j | 0 <= i < j < |users[1..]|
          ensures users[1..][i].id != users[1..][j].id
        {
          assert users[1..][i] == users[i + 1] && users[1..][j] == users[j + 1];
        }
      }
      FindByIdFinds(users[1..], p);
    }
  }

  /** Who an event is recorded against: a user (id, name, key) or the scheduler. */
  datatype Actor = UserActor(id: int, name: string, key: string) | System

  function ActorOf(p: Person): Actor {
    UserActor(p.id, p.name, p.key)
  }

  /** One field change recorded in a meeting task's 'updated' event. */
  datatype FieldChange =
    | AssigneeChanged(oldAssignee: int, newAssignee: int)
    | ControllerChanged(oldController: Option<int>, newController: int)
    | DescriptionChanged(oldDescription: string, newDescription: string)
    | TopicChanged(oldTopic: string, newTopic: string)

  /** The `event_type` of a history entry together with its `details`. */
  datatype EventDetail =
    | TodoAssigned(assignedTo: int, assignedBy: Option<int>)
    | AssignedFromMeeting(meetingTopic: string, taskAssignee: int, taskAssigner: int)
    | StatusChanged(oldStatus: TodoStatus, newStatus: TodoStatus, reason: Option<string>)
    | DueDateChanged(oldDueDate: int, newDueDate: int, reason: Option<string>)
    | AutoTransfer(dueDate: Option<int>)
    | Archived
    | Created
    | Updated(changes: seq<FieldChange>)
    | AssignedToTodo(linkedTodoId: int, todoOwner: int, todoAssigner: int)
    | Agreed

  /** One entry of a `history_log`. */
  datatype Event = Event(at: int, actor: Actor, detail: EventDetail)

  /**
   * The outcome of a request handler. The source answers 400 both for bad
   * input (ValidationError) and for a request that the entity's state forbids
   * (StateConflict); NoChange is the 200 "nothing changed" answer; Crash is an
   * uncaught exception, a 500 after which nothing is committed.
   */
  datatype Response =
    | Done
    | CreatedWithId(id: int)
    | NoChange
    | NotFound
    | AccessDenied
    | ValidationError
    | StateConflict
    | Crash

  /**
   * A date or datetime field of a request: missing (or empty, which the
   * source treats alike), present but not parseable, or the instant it names.
   */
  datatype DateArg = Absent | Malformed | Given(at: int)

  /** The checks a handler runs before it changes anything: what they produced, or the refusal. */
  datatype Checked<T> = Pass(value: T) | Fail(refusal: Response)
}
