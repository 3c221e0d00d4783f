/**
 * The permission methods of `User` in the later copy of the application
 * (backups/reports_upgrade_20251002_214626/app.py:200-307). The older app.py
 * has the same text for `can_access_user_data` and `can_modify_todo`; its
 * `can_assign_to` differs and lives in LegacyApp.
 *
 * `LEVEL_ORDER.get(level, 0)` is `Rank(level)`: levels are the closed
 * enumeration of Config, so the default of 0 is never taken.
 */
module Permissions {
  import opened Wrappers
  import opened Config
  import opened Records

  /** The manufacturing centre, the department whose units are filed under the four main departments. */
  const ManufacturingCentre: string := "製造中心"

  predicate IsManagerTier(l: Level) {
    l == PlantManager || l == Manager || l == AssistantManager
  }

  predicate IsSectionTier(l: Level) {
    l == SectionChief || l == DeputySectionChief
  }

  /** The rank rule of `can_access_user_data` once the target has been found and is not the viewer's own key. */
  predicate MaySee(viewer: Person, target: Person) {
    var mine := Rank(viewer.level);
    var theirs := Rank(target.level);
    if viewer.level == Admin then true
    else if viewer.level == ExecutiveManager then
      target.department == viewer.department || theirs < mine
    else if IsManagerTier(viewer.level) then
      Some(target.department) == viewer.unit
    else if IsSectionTier(viewer.level) then
      target.department == viewer.department && target.unit == viewer.unit && theirs < mine
    else
      false
  }

  /** `can_access_user_data(target_user_key)`. */
  predicate CanAccessUserData(viewer: Person, targetKey: string, users: seq<Person>) {
    if viewer.key == targetKey then true
    else match FindByKey(users, targetKey)
      case None => false
      case Some(target) => MaySee(viewer, target)
  }

  /** `can_modify_todo(todo)`, given the todo's owner id. */
  predicate CanModifyTodo(actor: Person, ownerId: int, users: seq<Person>) {
    if ownerId == actor.id then true
    else match FindById(users, ownerId)
      case None => false
      case Some(owner) => CanAccessUserData(actor, owner.key, users)
  }

  /** `can_assign_to(target_user)`. */
  predicate CanAssignTo(assigner: Person, target: Person) {
    var mine := Rank(assigner.level);
    var theirs := Rank(target.level);
    if assigner.level == Admin then target.level != Admin
    else if assigner.level == ExecutiveManager then target.level != Admin
    else if IsManagerTier(assigner.level) then
      if theirs >= mine then false
      else if target.level == Admin || target.level == ExecutiveManager then false
      else Some(target.department) == assigner.unit
    else if assigner.level == SectionChief then
      assigner.department == target.department && assigner.unit == target.unit && theirs < mine
    else if assigner.level == DeputySectionChief then
      assigner.department == target.department && assigner.unit == target.unit && theirs < mine
    else if assigner.level == TeamLeader && assigner.id == target.id then true
    else if assigner.level == Staff then false
    else false
  }

  /** `get_main_department()`: the management department a user's row is filed under. */
  function GetMainDepartment(p: Person): (d: string)
    ensures p.department in MainDepartments ==> d == p.department
    ensures p.department == ManufacturingCentre && p.unit.Some? && p.unit.value in MainDepartments ==> d == p.unit.value
    ensures (p.department == ManufacturingCentre && p.unit.Some? && p.unit.value !in MainDepartments
      && p.unit.value in UnitToMainDept) ==> d == UnitToMainDept[p.unit.value]
    ensures (p.department != ManufacturingCentre || p.unit.None? ||
             (p.unit.value !in MainDepartments && p.unit.value !in UnitToMainDept)) ==> d == p.department
    ensures d in MainDepartments || d == p.department
  {
    if p.department == ManufacturingCentre then
      if p.unit.Some? && p.unit.value in MainDepartments then p.unit.value
      else if p.unit.Some? && p.unit.value in UnitToMainDept then
        UnitMapTargetsMainDepartments(p.unit.value);
        UnitToMainDept[p.unit.value]
      else p.department
    else if p.department in MainDepartments then p.department
    else p.department
  }

  // ---- can_access_user_data ----

  /** Everyone may see their own data, whether or not their row is in the table. */
  lemma AccessReflexive(viewer: Person, users: seq<Person>)
    ensures CanAccessUserData(viewer, viewer.key, users)
  {
  }

  /** Nobody may see another key that no user has. */
  lemma AccessMissingTarget(viewer: Person, key: string, users: seq<Person>)
    requires key != viewer.key
    requires forall p :: p in users ==> p.key != key
    ensures !CanAccessUserData(viewer, key, users)
  {
    assert FindByKey(users, key).None?;
  }

  /** An admin may see every user in the table. */
  lemma AdminSeesEveryone(viewer: Person, target: Person, users: seq<Person>)
    requires viewer.level == Admin && target in users
    ensures CanAccessUserData(viewer, target.key, users)
  {
    if viewer.key != target.key {
      assert FindByKey(users, target.key).Some?;
    }
  }

  /** The rule by viewer level, for a target found in the table under another key. */
  lemma AccessByLevel(viewer: Person, target: Person, users: seq<Person>)
    requires target.key != viewer.key && FindByKey(users, target.key) == Some(target)
    ensures viewer.level == ExecutiveManager ==>
      (CanAccessUserData(viewer, target.key, users) <==>
        target.department == viewer.department || Rank(target.level) < Rank(viewer.level))
    ensures IsManagerTier(viewer.level) ==>
      (CanAccessUserData(viewer, target.key, users) <==> viewer.unit == Some(target.department))
    ensures IsSectionTier(viewer.level) ==>
      (CanAccessUserData(viewer, target.key, users) <==>
        target.department == viewer.department && target.unit == viewer.unit && Rank(target.level) < Rank(viewer.level))
    ensures viewer.level == TeamLeader || viewer.level == Staff ==> !CanAccessUserData(viewer, target.key, users)
  {
  }

  /**
   * Outside the admin, executive and manager tiers, access to someone else
   * only ever reaches strictly lower ranks.
   */
  lemma AccessGoesDown(viewer: Person, targetKey: string, users: seq<Person>)
    requires viewer.level != Admin && viewer.level != ExecutiveManager && !IsManagerTier(viewer.level)
    requires targetKey != viewer.key && CanAccessUserData(viewer, targetKey, users)
    ensures FindByKey(users, targetKey).Some?
    ensures Rank(FindByKey(users, targetKey).value.level) < Rank(viewer.level)
  {
  }

  // ---- can_modify_todo ----

  /** The owner may always modify; anyone else exactly when they may see the owner. */
  lemma ModifyIsOwnerOrAccess(actor: Person, ownerId: int, users: seq<Person>)
    ensures ownerId == actor.id ==> CanModifyTodo(actor, ownerId, users)
    ensures ownerId != actor.id ==>
      (CanModifyTodo(actor, ownerId, users) <==>
        exists owner :: owner in users && owner.id == ownerId && owner == FindById(users, ownerId).value
          && CanAccessUserData(actor, owner.key, users))
  {
    if ownerId != actor.id && CanModifyTodo(actor, ownerId, users) {
      var owner := FindById(users, ownerId).value;
      assert owner in users && owner.id == ownerId;
    }
  }

  // ---- can_assign_to ----

  /** Admins and executive managers may assign to anyone but an admin. */
  lemma TopTierAssignsAllButAdmins(assigner: Person, target: Person)
    requires assigner.level == Admin || assigner.level == ExecutiveManager
    ensures CanAssignTo(assigner, target) <==> target.level != Admin
  {
  }

  /** The manager tier assigns to strictly lower ranks below the executive, within the department it manages. */
  lemma ManagerTierAssignment(assigner: Person, target: Person)
    requires IsManagerTier(assigner.level)
    ensures CanAssignTo(assigner, target) <==>
      Rank(target.level) < Rank(assigner.level) && target.level != Admin && target.level != ExecutiveManager
      && assigner.unit == Some(target.department)
  {
  }

  /** Section chiefs and deputies assign to strictly lower ranks of their own department and unit. */
  lemma SectionTierAssignment(assigner: Person, target: Person)
    requires IsSectionTier(assigner.level)
    ensures CanAssignTo(assigner, target) <==>
      assigner.department == target.department && assigner.unit == target.unit
      && Rank(target.level) < Rank(assigner.level)
  {
  }

  /** A team leader may assign only to themself; staff may never assign. */
  lemma BottomTierAssignment(assigner: Person, target: Person)
    ensures assigner.level == TeamLeader ==> (CanAssignTo(assigner, target) <==> assigner.id == target.id)
    ensures assigner.level == Staff ==> !CanAssignTo(assigner, target)
  {
  }

  /**
   * Assignment to somebody else goes strictly down the ranks, except from an
   * admin or an executive manager.
   */
  lemma AssignmentGoesDown(assigner: Person, target: Person)
    requires assigner.level != Admin && assigner.level != ExecutiveManager
    requires assigner.id != target.id && CanAssignTo(assigner, target)
    ensures Rank(target.level) < Rank(assigner.level)
  {
  }

  /** Nobody may assign to an admin (an id names one row, so the same id means the same person). */
  lemma NobodyAssignsToAdmins(assigner: Person, target: Person)
    requires target.level == Admin
    requires assigner.id == target.id ==> assigner == target
    ensures !CanAssignTo(assigner, target)
  {
  }

  // ---- get_main_department ----

  /** A unit of the manufacturing centre files its users under the main department it maps to. */
  lemma MainDepartmentOfCentreUnits(p: Person)
    requires p.department == ManufacturingCentre && p.unit.Some?
    requires p.unit.value in MainDepartments || p.unit.value in UnitToMainDept
    ensures GetMainDepartment(p) in MainDepartments
  {
  }
}
