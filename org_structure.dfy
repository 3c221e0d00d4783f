/**
 * The organisation tree of the dashboard, `_build_organization_structure` in
 * backups/reports_upgrade_20251002_214626/app.py:793-882: the director is put
 * into the management team of their main department, then every other user is
 * filed under the main department they belong to (a department's management
 * team, or a unit's management team, leaders or staff), and at the end every
 * list is sorted by `LEVEL_ORDER`.
 *
 * The per-user counters the loop attaches to the user objects (`total_tasks`,
 * `completed_tasks`, `overdue_tasks`) are returned as a map from user id.
 */
module OrgStructure {
  import opened Wrappers
  import opened Config
  import opened Records
  import opened Permissions

  /** The tree: every main department with its management team and its units. */
  type Tree = map<string, DeptNode<Person>>

  /** The unit that collects the members of a department who have no unit. */
  const DirectUnit: string := "部門直屬"

  /**
   * The main department the loop files a user under: `GetMainDepartment`
   * without its fallback, which is never one of the four main departments.
   */
  function MainDepartmentOf(p: Person): (r: Option<string>)
    ensures r.Some? ==> r.value in MainDepartments
    ensures p.department in MainDepartments ==> r == Some(p.department)
    ensures r.None? <==> GetMainDepartment(p) !in MainDepartments
  {
    var d := GetMainDepartment(p);
    if d in MainDepartments then Some(d) else None
  }

  predicate IsDirector(p: Person, director: Option<Person>) {
    director.Some? && p.key == director.value.key
  }

  /** Where a list entry goes inside a main department. */
  datatype Slot = DeptTeam | UnitTeam(unit: string) | UnitLeaders(unit: string) | UnitStaff(unit: string)

  /** The unit a user who is not in the management tier opens in their department. */
  function UnitName(p: Person): string {
    if HasUnit(p) then p.unit.value else DirectUnit
  }

  /**
   * The list a user's level and unit file them into, or None for a level the
   * loop drops (an executive manager or admin who has a unit).
   */
  function SlotOf(p: Person): (r: Option<Slot>)
    ensures r == Some(DeptTeam) <==> IsManagerTier(p.level)
    ensures r.Some? && !r.value.DeptTeam? ==> r.value.unit == UnitName(p)
    ensures !HasUnit(p) && !IsManagerTier(p.level) ==> r == Some(UnitStaff(DirectUnit))
  {
    if IsManagerTier(p.level) then Some(DeptTeam)
    else if HasUnit(p) then
      if IsSectionTier(p.level) then Some(UnitTeam(p.unit.value))
      else if p.level == TeamLeader then Some(UnitLeaders(p.unit.value))
      else if p.level == Staff then Some(UnitStaff(p.unit.value))
      else None
    else if p.level != Manager && p.level != AssistantManager then Some(UnitStaff(DirectUnit))
    else None
  }

  /** Which reading of the management-team guard of app.py:846 is used. */
  datatype Guard = AsWritten | Intended

  /**
   * The guard before a management-tier user joins the department's management
   * team. As written, the conditional expression is False when there is no
   * director; intended is True then, since the director was skipped already.
   */
  predicate JoinsManagement(p: Person, director: Option<Person>, g: Guard) {
    match g
    case AsWritten => director.Some? && p.key != director.value.key
    case Intended => director.None? || p.key != director.value.key
  }

  /** The list named by a slot; a unit not yet opened has empty lists. */
  function Slotted(d: DeptNode<Person>, s: Slot): seq<Person> {
    match s
    case DeptTeam => d.managementTeam
    case UnitTeam(u) => if u in d.units then d.units[u].managementTeam else []
    case UnitLeaders(u) => if u in d.units then d.units[u].leaders else []
    case UnitStaff(u) => if u in d.units then d.units[u].staff else []
  }

  function FileInUnit(node: UnitNode<Person>, p: Person): UnitNode<Person> {
    if IsSectionTier(p.level) then node.(managementTeam := node.managementTeam + [p])
    else if p.level == TeamLeader then node.(leaders := node.leaders + [p])
    else if p.level == Staff then node.(staff := node.staff + [p])
    else node
  }

  function UnitOrEmpty(d: DeptNode<Person>, u: string): UnitNode<Person> {
    if u in d.units then d.units[u] else UnitNode([], [], [])
  }

  /** What one pass of the loop does to the department `p` is filed under. */
  function FileIn(dept: DeptNode<Person>, p: Person, director: Option<Person>, g: Guard): DeptNode<Person> {
    if IsManagerTier(p.level) then
      if JoinsManagement(p, director, g) then dept.(managementTeam := dept.managementTeam + [p])
      else dept
    else if HasUnit(p) then
      var u := p.unit.value;
      dept.(units := dept.units[u := FileInUnit(UnitOrEmpty(dept, u), p)])
    else
      var node := UnitOrEmpty(dept, DirectUnit);
      var node' := if p.level != Manager && p.level != AssistantManager then node.(staff := node.staff + [p]) else node;
      dept.(units := dept.units[DirectUnit := node'])
  }

  /** One pass of the user loop. */
  function Place(tree: Tree, p: Person, director: Option<Person>, g: Guard): (r: Tree)
    ensures r.Keys == tree.Keys
  {
    if IsDirector(p, director) then tree
    else match MainDepartmentOf(p)
      case None => tree
      case Some(m) => if m in tree then tree[m := FileIn(tree[m], p, director, g)] else tree
  }

  /** The user loop over `users`, in order. */
  function PlaceAll(tree: Tree, users: seq<Person>, director: Option<Person>, g: Guard): (r: Tree)
    ensures r.Keys == tree.Keys
  {
    if |users| == 0 then tree
    else Place(PlaceAll(tree, users[..|users| - 1], director, g), users[|users| - 1], director, g)
  }

  /** The empty tree with the director in the management team of their main department. */
  function WithDirector(director: Option<Person>): (r: Tree)
    ensures r.Keys == set d | d in MainDepartments
  {
    DepartmentStructureEmpty<Person>();
    var tree := DepartmentStructure<Person>();
    if director.Some? && MainDepartmentOf(director.value).Some? then
      var m := MainDepartmentOf(director.value).value;
      tree[m := tree[m].(managementTeam := tree[m].managementTeam + [director.value])]
    else tree
  }

  /** Does the loop file `p`, once in its department, into slot `s`? */
  predicate Files(p: Person, director: Option<Person>, g: Guard, s: Slot) {
    SlotOf(p) == Some(s) && (s == DeptTeam ==> JoinsManagement(p, director, g))
  }

  /** Does the loop file `p` into slot `s` of main department `m`? */
  predicate Belongs(p: Person, director: Option<Person>, g: Guard, m: string, s: Slot) {
    !IsDirector(p, director) && MainDepartmentOf(p) == Some(m) && Files(p, director, g, s)
  }

  /** Does `p` open a unit in main department `m`? */
  predicate Opens(p: Person, director: Option<Person>, m: string) {
    !IsDirector(p, director) && MainDepartmentOf(p) == Some(m) && !IsManagerTier(p.level)
  }

  /** The users that belong in slot `s` of department `m`, in table order. */
  function Filed(users: seq<Person>, director: Option<Person>, g: Guard, m: string, s: Slot): seq<Person> {
    if |users| == 0 then []
    else
      var last := users[|users| - 1];
      Filed(users[..|users| - 1], director, g, m, s) + (if Belongs(last, director, g, m, s) then [last] else [])
  }

  /** The units opened in department `m`. */
  function Opened(users: seq<Person>, director: Option<Person>, m: string): set<string> {
    if |users| == 0 then {}
    else
      var last := users[|users| - 1];
      Opened(users[..|users| - 1], director, m) + (if Opens(last, director, m) then {UnitName(last)} else {})
  }

  /** What the director contributes to slot `s` of department `m`. */
  function DirectorPart(director: Option<Person>, m: string, s: Slot): seq<Person> {
    if director.Some? && s == DeptTeam && MainDepartmentOf(director.value) == Some(m) then [director.value] else []
  }

  /** The users filed into a slot are exactly the users that belong there. */
  lemma {:induction false} FiledMembers(users: seq<Person>, director: Option<Person>, g: Guard, m: string, s: Slot, p: Person)
    ensures p in Filed(users, director, g, m, s) <==> p in users && Belongs(p, director, g, m, s)
  {
    if |users| > 0 {
      var init := users[..|users| - 1];
      FiledMembers(init, director, g, m, s, p);
      assert users == init + [users[|users| - 1]];
    }
  }

  /** The units opened in a department are exactly those of the users who open one there. */
  lemma {:induction false} OpenedUnits(users: seq<Person>, director: Option<Person>, m: string, u: string)
    ensures u in Opened(users, director, m) <==> exists p :: p in users && Opens(p, director, m) && UnitName(p) == u
  {
    if |users| > 0 {
      var init := users[..|users| - 1];
      var last := users[|users| - 1];
      OpenedUnits(init, director, m, u);
      assert users == init + [last];
      if u in Opened(users, director, m) && u !in Opened(init, director, m) {
        assert last in users && Opens(last, director, m) && UnitName(last) == u;
      }
    }
  }

  // ---------------------------------------------------------------------
  // Sorting: `list.sort(key=lambda x: LEVEL_ORDER.get(x.level, 99))`, a
  // stable sort ascending by rank. Every level has a rank, so 99 is not used.
  // The sort is stated for any key; the tree uses RankKey.

  function RankKey(p: Person): int {
    Rank(p.level)
  }

  ghost predicate SortedBy<T>(key: T -> int, s: seq<T>) {
    forall i, j :: 0 <= i < j < |s| ==> key(s[i]) <= key(s[j])
  }

  /** Inserts `p` after every entry whose key is not above its own. */
  function InsertBy<T>(key: T -> int, p: T, s: seq<T>): (r: seq<T>)
    ensures multiset(r) == multiset(s) + multiset{p}
  {
    if |s| == 0 then [p]
    else if key(p) < key(s[0]) then [p] + s
    else
      assert s == [s[0]] + s[1..];
      [s[0]] + InsertBy(key, p, s[1..])
  }

  /** Insertion sort, taking the entries from the front. */
  function SortBy<T>(key: T -> int, s: seq<T>): (r: seq<T>)
    ensures multiset(r) == multiset(s)
  {
    if |s| == 0 then []
    else
      var last := s[|s| - 1];
      assert s == s[..|s| - 1] + [last];
      InsertBy(key, last, SortBy(key, s[..|s| - 1]))
  }

  function SortByRank(s: seq<Person>): seq<Person> {
    SortBy(RankKey, s)
  }

  /** The entries with key `k`, in order. */
  function OfKey<T>(key: T -> int, s: seq<T>, k: int): seq<T> {
    if |s| == 0 then []
    else (if key(s[0]) == k then [s[0]] else []) + OfKey(key, s[1..], k)
  }

  lemma SortedTail<T>(key: T -> int, s: seq<T>)
    requires |s| > 0 && SortedBy(key, s)
    ensures SortedBy(key, s[1..])
  {
    forall i, j | 0 <= i < j < |s[1..]| ensures key(s[1..][i]) <= key(s[1..][j]) {
      assert s[1..][i] == s[i + 1] && s[1..][j] == s[j + 1];
    }
  }

  /** Inserting an entry with key at least `b` into a list whose keys are at least `b`. */
  lemma {:induction false} InsertAtLeast<T>(key: T -> int, p: T, s: seq<T>, b: int)
    requires forall i :: 0 <= i < |s| ==> b <= key(s[i])
    requires b <= key(p)
    ensures forall i :: 0 <= i < |InsertBy(key, p, s)| ==> b <= key(InsertBy(key, p, s)[i])
  {
    if |s| > 0 && key(p) >= key(s[0]) {
      InsertAtLeast(key, p, s[1..], b);
    }
  }

  lemma {:induction false} InsertSorted<T>(key: T -> int, p: T, s: seq<T>)
    requires SortedBy(key, s)
    ensures SortedBy(key, InsertBy(key, p, s))
  {
    if |s| > 0 && key(p) >= key(s[0]) {
      var t := s[1..];
      SortedTail(key, s);
      InsertSorted(key, p, t);
      InsertAtLeast(key, p, t, key(s[0]));
      var r := InsertBy(key, p, t);
      var q := [s[0]] + r;
      assert InsertBy(key, p, s) == q;
      forall i, j | 0 <= i < j < |q| ensures key(q[i]) <= key(q[j]) {
        assert q[j] == r[j - 1];
        if i > 0 {
          assert q[i] == r[i - 1];
        }
      }
    }
  }

  /** The sort orders its input by key and keeps its entries. */
  lemma {:induction false} SortBySorted<T>(key: T -> int, s: seq<T>)
    ensures SortedBy(key, SortBy(key, s))
    ensures multiset(SortBy(key, s)) == multiset(s)
  {
    if |s| > 0 {
      SortBySorted(key, s[..|s| - 1]);
      InsertSorted(key, s[|s| - 1], SortBy(key, s[..|s| - 1]));
    }
  }

  lemma {:induction false} OfKeyAppend<T>(key: T -> int, a: seq<T>, b: seq<T>, k: int)
    ensures OfKey(key, a + b, k) == OfKey(key, a, k) + OfKey(key, b, k)
  {
    if |a| > 0 {
      assert (a + b)[1..] == a[1..] + b;
      OfKeyAppend(key, a[1..], b, k);
    } else {
      assert a + b == b;
    }
  }

  /** A sorted list that starts above key `k` has no entry with key `k`. */
  lemma {:induction false} OfKeyAbove<T>(key: T -> int, s: seq<T>, k: int)
    requires SortedBy(key, s)
    requires |s| > 0 ==> key(s[0]) > k
    ensures OfKey(key, s, k) == []
  {
    if |s| > 1 {
      SortedTail(key, s);
      assert s[1..][0] == s[1];
      OfKeyAbove(key, s[1..], k);
    }
  }

  lemma {:induction false} InsertStable<T>(key: T -> int, p: T, s: seq<T>, k: int)
    requires SortedBy(key, s)
    ensures OfKey(key, InsertBy(key, p, s), k) == OfKey(key, s, k) + (if key(p) == k then [p] else [])
  {
    var mine := if key(p) == k then [p] else [];
    if |s| == 0 {
      OfKeyCons(key, p, [], k);
      assert [p] + [] == [p];
    } else if key(p) < key(s[0]) {
      assert InsertBy(key, p, s) == [p] + s;
      OfKeyCons(key, p, s, k);
      if key(p) == k {
        OfKeyAbove(key, s, k);
      }
    } else {
      SortedTail(key, s);
      InsertStable(key, p, s[1..], k);
      InsertBehind(key, p, s, k);
    }
  }

  /** Inserting behind the head: the head's entry, then those of the insertion into the rest. */
  lemma InsertBehind<T>(key: T -> int, p: T, s: seq<T>, k: int)
    requires |s| > 0 && key(p) >= key(s[0])
    requires OfKey(key, InsertBy(key, p, s[1..]), k) == OfKey(key, s[1..], k) + (if key(p) == k then [p] else [])
    ensures OfKey(key, InsertBy(key, p, s), k) == OfKey(key, s, k) + (if key(p) == k then [p] else [])
  {
    var rest := InsertBy(key, p, s[1..]);
    var head := if key(s[0]) == k then [s[0]] else [];
    var mine := if key(p) == k then [p] else [];
    InsertByBehind(key, p, s);
    OfKeyCons(key, s[0], rest, k);
    assert OfKey(key, s, k) == head + OfKey(key, s[1..], k);
    calc {
      OfKey(key, InsertBy(key, p, s), k);
      head + OfKey(key, rest, k);
      head + (OfKey(key, s[1..], k) + mine);
      (head + OfKey(key, s[1..], k)) + mine;
      OfKey(key, s, k) + mine;
    }
  }

  lemma InsertByBehind<T>(key: T -> int, p: T, s: seq<T>)
    requires |s| > 0 && key(p) >= key(s[0])
    ensures InsertBy(key, p, s) == [s[0]] + InsertBy(key, p, s[1..])
  {
  }

  /** The entries of key `k` in a list with `x` in front. */
  lemma OfKeyCons<T>(key: T -> int, x: T, r: seq<T>, k: int)
    ensures OfKey(key, [x] + r, k) == (if key(x) == k then [x] else []) + OfKey(key, r, k)
  {
    assert ([x] + r)[1..] == r;
  }

  /** The sort is stable: entries of equal key keep their relative order. */
  lemma {:induction false} SortByStable<T>(key: T -> int, s: seq<T>, k: int)
    ensures OfKey(key, SortBy(key, s), k) == OfKey(key, s, k)
  {
    if |s| > 0 {
      var init := s[..|s| - 1];
      var last := s[|s| - 1];
      SortBySorted(key, init);
      InsertStable(key, last, SortBy(key, init), k);
      SortByStable(key, init, k);
      OfKeyLast(key, s, k);
    }
  }

  /** The entries of key `k` in a non-empty list: those before its last entry, then the last one if it has key `k`. */
  lemma OfKeyLast<T>(key: T -> int, s: seq<T>, k: int)
    requires |s| > 0
    ensures OfKey(key, s, k) == OfKey(key, s[..|s| - 1], k) + (if key(s[|s| - 1]) == k then [s[|s| - 1]] else [])
  {
    var last := s[|s| - 1];
    assert OfKey(key, [last], k) == (if key(last) == k then [last] else []) + OfKey(key, [], k);
    OfKeyAppend(key, s[..|s| - 1], [last], k);
    assert s == s[..|s| - 1] + [last];
  }

  function SortUnit(node: UnitNode<Person>): UnitNode<Person> {
    UnitNode(SortByRank(node.managementTeam), SortByRank(node.leaders), SortByRank(node.staff))
  }

  /** Sorts a department's management team and every list of each of its units. */
  function SortDept(d: DeptNode<Person>): DeptNode<Person> {
    DeptNode(SortByRank(d.managementTeam), map u | u in d.units :: SortUnit(d.units[u]))
  }

  /** Sorting a department sorts each of its lists and opens no unit. */
  lemma SortDeptSlots(d: DeptNode<Person>, s: Slot)
    ensures SortDept(d).units.Keys == d.units.Keys
    ensures Slotted(SortDept(d), s) == SortByRank(Slotted(d, s))
  {
    match s
    case DeptTeam =>
    case UnitTeam(u) =>
    case UnitLeaders(u) =>
    case UnitStaff(u) =>
  }

  function SortTree(tree: Tree): (r: Tree)
    ensures r.Keys == tree.Keys
  {
    map m | m in tree :: SortDept(tree[m])
  }

  /** The tree `_build_organization_structure` returns, under either reading of the guard. */
  function Organize(users: seq<Person>, director: Option<Person>, g: Guard): (r: Tree)
    ensures r.Keys == set d | d in MainDepartments
  {
    SortTree(PlaceAll(WithDirector(director), users, director, g))
  }

  // ---------------------------------------------------------------------
  // What the loop builds.

  /** Filing `p` in a department appends it to the slot it belongs in and opens its unit. */
  lemma FileInEffect(dept: DeptNode<Person>, p: Person, director: Option<Person>, g: Guard, s: Slot)
    ensures Slotted(FileIn(dept, p, director, g), s) == Slotted(dept, s) + (if Files(p, director, g, s) then [p] else [])
    ensures FileIn(dept, p, director, g).units.Keys
      == dept.units.Keys + (if !IsManagerTier(p.level) then {UnitName(p)} else {})
  {
    FileInUnits(dept, p, director, g);
    if IsManagerTier(p.level) {
    } else {
      match s
      case DeptTeam =>
      case UnitTeam(u) =>
      case UnitLeaders(u) =>
      case UnitStaff(u) =>
    }
  }

  lemma FileInUnits(dept: DeptNode<Person>, p: Person, director: Option<Person>, g: Guard)
    ensures FileIn(dept, p, director, g).units.Keys
      == dept.units.Keys + (if !IsManagerTier(p.level) then {UnitName(p)} else {})
  {
  }

  /** One pass of the loop appends `p` to the slot it belongs in and opens its unit. */
  lemma PlaceEffect(tree: Tree, p: Person, director: Option<Person>, g: Guard, m: string, s: Slot)
    requires m in tree
    ensures Slotted(Place(tree, p, director, g)[m], s)
      == Slotted(tree[m], s) + (if Belongs(p, director, g, m, s) then [p] else [])
    ensures Place(tree, p, director, g)[m].units.Keys
      == tree[m].units.Keys + (if Opens(p, director, m) then {UnitName(p)} else {})
  {
    if !IsDirector(p, director) && MainDepartmentOf(p) == Some(m) {
      FileInEffect(tree[m], p, director, g, s);
    }
  }

  lemma PlaceAllEffect(tree: Tree, users: seq<Person>, director: Option<Person>, g: Guard, m: string, s: Slot)
    requires m in tree
    ensures PlaceAll(tree, users, director, g).Keys == tree.Keys
    ensures Slotted(PlaceAll(tree, users, director, g)[m], s) == Slotted(tree[m], s) + Filed(users, director, g, m, s)
    ensures PlaceAll(tree, users, director, g)[m].units.Keys == tree[m].units.Keys + Opened(users, director, m)
  {
    PlaceAllSlots(tree, users, director, g, m, s);
    PlaceAllUnits(tree, users, director, g, m, s);
  }

  lemma {:induction false} PlaceAllSlots(tree: Tree, users: seq<Person>, director: Option<Person>, g: Guard, m: string, s: Slot)
    requires m in tree
    ensures Slotted(PlaceAll(tree, users, director, g)[m], s) == Slotted(tree[m], s) + Filed(users, director, g, m, s)
  {
    if |users| > 0 {
      var init := users[..|users| - 1];
      var before := PlaceAll(tree, init, director, g);
      assert PlaceAll(tree, users, director, g) == Place(before, users[|users| - 1], director, g);
      PlaceAllSlots(tree, init, director, g, m, s);
      PlaceEffect(before, users[|users| - 1], director, g, m, s);
      FiledLast(users, director, g, m, s);
    }
  }

  lemma {:induction false} PlaceAllUnits(tree: Tree, users: seq<Person>, director: Option<Person>, g: Guard, m: string, s: Slot)
    requires m in tree
    ensures PlaceAll(tree, users, director, g)[m].units.Keys == tree[m].units.Keys + Opened(users, director, m)
  {
    if |users| > 0 {
      var init := users[..|users| - 1];
      var before := PlaceAll(tree, init, director, g);
      assert PlaceAll(tree, users, director, g) == Place(before, users[|users| - 1], director, g);
      PlaceAllUnits(tree, init, director, g, m, s);
      PlaceEffect(before, users[|users| - 1], director, g, m, s);
      FiledLast(users, director, g, m, s);
    }
  }

  lemma FiledLast(users: seq<Person>, director: Option<Person>, g: Guard, m: string, s: Slot)
    requires |users| > 0
    ensures Filed(users, director, g, m, s) ==
      Filed(users[..|users| - 1], director, g, m, s) + (if Belongs(users[|users| - 1], director, g, m, s) then [users[|users| - 1]] else [])
    ensures Opened(users, director, m) ==
      Opened(users[..|users| - 1], director, m) + (if Opens(users[|users| - 1], director, m) then {UnitName(users[|users| - 1])} else {})
  {
  }

  lemma WithDirectorShape(director: Option<Person>, m: string, s: Slot)
    ensures WithDirector(director).Keys == set d | d in MainDepartments
    ensures m in MainDepartments ==> Slotted(WithDirector(director)[m], s) == DirectorPart(director, m, s)
    ensures m in MainDepartments ==> WithDirector(director)[m].units == map[]
  {
    DepartmentStructureEmpty<Person>();
  }

  /**
   * The whole tree: the four main departments; in each, every list holds the
   * director (in the management team of their department) and then the users
   * that belong there, sorted by rank; and the units opened are those of the
   * users filed under the department outside its management team.
   */
  lemma OrganizeExact(users: seq<Person>, director: Option<Person>, g: Guard, m: string, s: Slot)
    requires m in MainDepartments
    ensures Slotted(Organize(users, director, g)[m], s) == SortByRank(DirectorPart(director, m, s) + Filed(users, director, g, m, s))
    ensures Organize(users, director, g)[m].units.Keys == Opened(users, director, m)
  {
    var start := WithDirector(director);
    var placed := PlaceAll(start, users, director, g);
    assert Organize(users, director, g)[m] == SortDept(placed[m]);
    WithDirectorShape(director, m, s);
    PlaceAllEffect(start, users, director, g, m, s);
    SortDeptSlots(placed[m], s);
  }

  /** Every list of the tree is in ascending rank order, with each equal-rank group in table order. */
  lemma OrganizeSorted(users: seq<Person>, director: Option<Person>, g: Guard, m: string, s: Slot, k: int)
    requires m in MainDepartments
    ensures SortedBy(RankKey, Slotted(Organize(users, director, g)[m], s))
    ensures OfKey(RankKey, Slotted(Organize(users, director, g)[m], s), k)
      == OfKey(RankKey, DirectorPart(director, m, s) + Filed(users, director, g, m, s), k)
  {
    OrganizeExact(users, director, g, m, s);
    SortBySorted(RankKey, DirectorPart(director, m, s) + Filed(users, director, g, m, s));
    SortByStable(RankKey, DirectorPart(director, m, s) + Filed(users, director, g, m, s), k);
  }

  /**
   * With the intended guard, every user of the management tier with a main
   * department, other than the director, is in that department's management team.
   */
  lemma ManagersListed(users: seq<Person>, director: Option<Person>, p: Person)
    requires p in users && IsManagerTier(p.level) && !IsDirector(p, director)
    requires MainDepartmentOf(p).Some?
    ensures p in Organize(users, director, Intended)[MainDepartmentOf(p).value].managementTeam
  {
    var m := MainDepartmentOf(p).value;
    OrganizeExact(users, director, Intended, m, DeptTeam);
    assert Belongs(p, director, Intended, m, DeptTeam);
    var l := DirectorPart(director, m, DeptTeam) + Filed(users, director, Intended, m, DeptTeam);
    FiledMembers(users, director, Intended, m, DeptTeam, p);
    assert p in l;
    assert p in multiset(SortByRank(l));
  }

  /** Every entry of every list is the director or a user that belongs there. */
  lemma EntriesBelong(users: seq<Person>, director: Option<Person>, g: Guard, m: string, s: Slot, p: Person)
    requires m in MainDepartments
    requires p in Slotted(Organize(users, director, g)[m], s)
    ensures (director == Some(p) && s == DeptTeam && MainDepartmentOf(p) == Some(m))
      || (p in users && Belongs(p, director, g, m, s))
  {
    OrganizeExact(users, director, g, m, s);
    var l := DirectorPart(director, m, s) + Filed(users, director, g, m, s);
    assert p in multiset(SortByRank(l));
    assert p in l;
    if p !in DirectorPart(director, m, s) {
      FiledMembers(users, director, g, m, s, p);
    }
  }

  lemma {:induction false} FiledSkipsDirector(users: seq<Person>, director: Option<Person>, g: Guard, m: string, s: Slot)
    requires director.Some?
    ensures multiset(Filed(users, director, g, m, s))[director.value] == 0
  {
    FiledMembers(users, director, g, m, s, director.value);
  }

  /** The director is listed exactly once: in the management team of their main department. */
  lemma DirectorListedOnce(users: seq<Person>, director: Person, g: Guard, m: string, s: Slot)
    requires m in MainDepartments
    ensures multiset(Slotted(Organize(users, Some(director), g)[m], s))[director]
      == if s == DeptTeam && MainDepartmentOf(director) == Some(m) then 1 else 0
  {
    OrganizeExact(users, Some(director), g, m, s);
    FiledSkipsDirector(users, Some(director), g, m, s);
  }

  // ---------------------------------------------------------------------
  // The guard of app.py:846 as written.

  lemma {:induction false} NoManagerFiledAsWritten(users: seq<Person>, m: string)
    ensures Filed(users, None, AsWritten, m, DeptTeam) == []
  {
    if |users| > 0 {
      NoManagerFiledAsWritten(users[..|users| - 1], m);
    }
  }

  /**
   * As written, when there is no executive manager to act as director, every
   * management team of the tree is empty: plant managers, managers and
   * assistant managers are dropped.
   */
  lemma ManagersDroppedAsWritten(users: seq<Person>, m: string)
    requires m in MainDepartments
    ensures Organize(users, None, AsWritten)[m].managementTeam == []
  {
    OrganizeExact(users, None, AsWritten, m, DeptTeam);
    NoManagerFiledAsWritten(users, m);
  }

  /** A manager of the first plant, filed under the manufacturing centre, with no director. */
  lemma PlantManagerLostAsWritten()
    ensures var p := Person(3, "m3", "Manager", "m3@example.com", Manager, ManufacturingCentre, Some("第一廠"),
                            true, true, 0, None, None);
      && Organize([p], None, AsWritten)["第一廠"].managementTeam == []
      && Organize([p], None, Intended)["第一廠"].managementTeam == [p]
  {
    var p := Person(3, "m3", "Manager", "m3@example.com", Manager, ManufacturingCentre, Some("第一廠"),
                    true, true, 0, None, None);
    assert GetMainDepartment(p) == "第一廠";
    assert Belongs(p, None, Intended, "第一廠", DeptTeam);
    ManagersDroppedAsWritten([p], "第一廠");
    OrganizeExact([p], None, Intended, "第一廠", DeptTeam);
    assert [p][..0] == [];
    assert Filed([p], None, Intended, "第一廠", DeptTeam) == [] + [p];
    assert SortByRank([p]) == InsertBy(RankKey, p, []);
  }

  // ---------------------------------------------------------------------
  // Counters attached to each user.

  /** `total_tasks`, `completed_tasks` and `overdue_tasks` of one user. */
  datatype Counts = Counts(total: nat, completed: nat, overdue: nat)

  function CountCompleted(statuses: seq<TodoStatus>): (n: nat)
    ensures n <= |statuses|
    ensures n == 0 <==> Completed !in statuses
    ensures n == multiset(statuses)[Completed]
  {
    if |statuses| == 0 then 0
    else
      assert statuses == [statuses[0]] + statuses[1..];
      (if statuses[0] == Completed then 1 else 0) + CountCompleted(statuses[1..])
  }

  /**
   * The counters of a user from the statuses of their current-week todos and
   * their overdue count, each missing entry read as none.
   */
  function CountsFor(p: Person, currentTodos: map<int, seq<TodoStatus>>, overdue: map<int, nat>): (c: Counts)
    ensures c.completed <= c.total
    ensures p.id !in currentTodos ==> c.total == 0
    ensures p.id !in overdue ==> c.overdue == 0
    ensures p.id in currentTodos ==>
      c.total == |currentTodos[p.id]| && c.completed == CountCompleted(currentTodos[p.id])
    ensures p.id in overdue ==> c.overdue == overdue[p.id]
  {
    var statuses := if p.id in currentTodos then currentTodos[p.id] else [];
    Counts(|statuses|, CountCompleted(statuses), if p.id in overdue then overdue[p.id] else 0)
  }

  /** The counters of every user the loop visits, the director excepted. */
  function CountsOf(users: seq<Person>, director: Option<Person>,
                    currentTodos: map<int, seq<TodoStatus>>, overdue: map<int, nat>): (r: map<int, Counts>)
    ensures r.Keys == set p | p in users && !IsDirector(p, director) :: p.id
    ensures forall id :: id in r ==> r[id].completed <= r[id].total
    ensures forall p :: p in users && !IsDirector(p, director) ==> r[p.id] == CountsFor(p, currentTodos, overdue)
  {
    if |users| == 0 then map[]
    else
      var last := users[|users| - 1];
      var init := users[..|users| - 1];
      assert users == init + [last];
      var before := CountsOf(init, director, currentTodos, overdue);
      if IsDirector(last, director) then before else before[last.id := CountsFor(last, currentTodos, overdue)]
  }

  // ---------------------------------------------------------------------
  // The procedure.

  /** The director step at the head of app.py:793-882. */
  method AddDirector(director: Option<Person>) returns (tree: Tree)
    ensures tree == WithDirector(director)
  {
    tree := DepartmentStructure();
    if director.Some? {
      var main := MainDepartmentOf(director.value);
      if main.Some? && main.value in tree {
        var m := main.value;
        tree := tree[m := tree[m].(managementTeam := tree[m].managementTeam + [director.value])];
      }
    }
  }

  /** One pass of the user loop, with the intended guard. */
  method FileUser(tree: Tree, p: Person, director: Option<Person>) returns (tree': Tree)
    requires !IsDirector(p, director)
    ensures tree' == Place(tree, p, director, Intended)
  {
    tree' := tree;
    var main := MainDepartmentOf(p);
    if main.None? || main.value !in tree {
      return;
    }
    var m := main.value;
    var dept := tree[m];
    if IsManagerTier(p.level) {
      if director.None? || p.key != director.value.key {
        dept := dept.(managementTeam := dept.managementTeam + [p]);
      }
    } else if HasUnit(p) {
      var u := p.unit.value;
      if u !in dept.units {
        dept := dept.(units := dept.units[u := UnitNode([], [], [])]);
      }
      var node := dept.units[u];
      assert node == UnitOrEmpty(tree[m], u);
      if IsSectionTier(p.level) {
        node := node.(managementTeam := node.managementTeam + [p]);
      } else if p.level == TeamLeader {
        node := node.(leaders := node.leaders + [p]);
      } else if p.level == Staff {
        node := node.(staff := node.staff + [p]);
      }
      assert node == FileInUnit(UnitOrEmpty(tree[m], u), p);
      dept := dept.(units := dept.units[u := node]);
      assert dept.units == tree[m].units[u := node];
    } else {
      if DirectUnit !in dept.units {
        dept := dept.(units := dept.units[DirectUnit := UnitNode([], [], [])]);
      }
      var node := dept.units[DirectUnit];
      assert node == UnitOrEmpty(tree[m], DirectUnit);
      if p.level != Manager && p.level != AssistantManager {
        node := node.(staff := node.staff + [p]);
      }
      dept := dept.(units := dept.units[DirectUnit := node]);
      assert dept.units == tree[m].units[DirectUnit := node];
    }
    assert dept == FileIn(tree[m], p, director, Intended);
    tree' := tree[m := dept];
  }

  /** The closing loop that sorts every list of every department. */
  method SortAll(placed: Tree) returns (tree: Tree)
    ensures tree == SortTree(placed)
  {
    tree := placed;
    var pending := placed.Keys;
    while pending != {}
      invariant pending <= placed.Keys
      invariant tree.Keys == placed.Keys
      invariant forall m :: m in pending ==> tree[m] == placed[m]
      invariant forall m :: m in tree && m !in pending ==> tree[m] == SortDept(placed[m])
      decreases |pending|
    {
      var m :| m in pending;
      tree := tree[m := SortDept(tree[m])];
      pending := pending - {m};
    }
  }

  /**
   * `_build_organization_structure(all_users, user_todos_map,
   * user_overdue_map, director)` with the guard of app.py:846 as intended:
   * the tree of OrganizeExact and the counters of every user but the director.
   */
  method BuildOrganizationStructure(users: seq<Person>, currentTodos: map<int, seq<TodoStatus>>,
                                    overdue: map<int, nat>, director: Option<Person>)
    returns (tree: Tree, counts: map<int, Counts>)
    ensures tree == Organize(users, director, Intended)
    ensures counts == CountsOf(users, director, currentTodos, overdue)
  {
    var start := AddDirector(director);
    tree := start;
    counts := map[];
    for i := 0 to |users|
      invariant tree == PlaceAll(start, users[..i], director, Intended)
      invariant counts == CountsOf(users[..i], director, currentTodos, overdue)
    {
      PrefixStep(users, i, start, director, currentTodos, overdue);
      tree, counts := VisitUser(tree, counts, users[i], director, currentTodos, overdue);
    }
    assert users[..|users|] == users;
    tree := SortAll(tree);
  }

  /** One pass of the user loop: the director is skipped, anyone else is counted and filed. */
  method VisitUser(tree: Tree, counts: map<int, Counts>, p: Person, director: Option<Person>,
                   currentTodos: map<int, seq<TodoStatus>>, overdue: map<int, nat>)
    returns (tree': Tree, counts': map<int, Counts>)
    ensures tree' == Place(tree, p, director, Intended)
    ensures counts' == if IsDirector(p, director) then counts else counts[p.id := CountsFor(p, currentTodos, overdue)]
  {
    if IsDirector(p, director) {
      return tree, counts;
    }
    counts' := counts[p.id := CountsFor(p, currentTodos, overdue)];
    tree' := FileUser(tree, p, director);
  }

  /** The placement and the counters after one more user. */
  lemma PrefixStep(users: seq<Person>, i: int, start: Tree, director: Option<Person>,
                   currentTodos: map<int, seq<TodoStatus>>, overdue: map<int, nat>)
    requires 0 <= i < |users|
    ensures PlaceAll(start, users[..i + 1], director, Intended) ==
      Place(PlaceAll(start, users[..i], director, Intended), users[i], director, Intended)
    ensures CountsOf(users[..i + 1], director, currentTodos, overdue) ==
      if IsDirector(users[i], director) then CountsOf(users[..i], director, currentTodos, overdue)
      else CountsOf(users[..i], director, currentTodos, overdue)[users[i].id := CountsFor(users[i], currentTodos, overdue)]
  {
    assert users[..i + 1][..i] == users[..i];
    CountsStep(users[..i + 1], director, currentTodos, overdue);
  }

  /** The counters after one more user, unfolded once. */
  lemma CountsStep(users: seq<Person>, director: Option<Person>,
                   currentTodos: map<int, seq<TodoStatus>>, overdue: map<int, nat>)
    requires |users| > 0
    ensures CountsOf(users, director, currentTodos, overdue) ==
      var last := users[|users| - 1];
      var before := CountsOf(users[..|users| - 1], director, currentTodos, overdue);
      if IsDirector(last, director) then before else before[last.id := CountsFor(last, currentTodos, overdue)]
  {
  }
}
