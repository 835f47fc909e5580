/**
 * The permission table read permission by permission, and the properties
 * of the level hierarchy it implies: each level's list contains every lower
 * level's list, and a permission is held exactly from its first level up.
 */
module PermissionLevels {
  import opened Models

  /** A permission appears among a level's additions exactly at its first level. */
  lemma AddedAtFirstLevel(r: RoleType, p: Permission)
    ensures p in Added(r) <==> FirstLevel(p) == r
  {
    FirstLevelAdded(p);
    if p in Added(r) {
      AdditionsAtOwnLevel(r, p);
    }
  }

  /** Every permission is among the additions of its first level. */
  lemma FirstLevelAdded(p: Permission)
    ensures p in Added(FirstLevel(p))
  {
    match p
    case OrganizationLevel(o) => assert o == CreateDatasetFromTemplate;
    case Dataset(_) =>
    case ClinicalTrial(_) =>
    case Workspace(_) =>
  }

  /** Each level adds only permissions whose first level it is. */
  lemma AdditionsAtOwnLevel(r: RoleType, p: Permission)
    requires p in Added(r)
    ensures FirstLevel(p) == r
  {
    var i :| 0 <= i < |Added(r)| && Added(r)[i] == p;
    match r
    case Viewer => ViewerAdditions(i);
    case Editor => EditorAdditions(i);
    case Manager => if i < 11 { ManagerAdditionsLow(i); } else { ManagerAdditionsHigh(i); }
    case Owner => OwnerAdditions(i);
  }

  /** Entry by entry (a case split on the position): VIEWER adds only its own permissions. */
  lemma ViewerAdditions(i: nat)
    requires i < 14
    ensures FirstLevel(Added(Viewer)[i]) == Viewer
  {
    if i == 0 {} else if i == 1 {} else if i == 2 {} else if i == 3 {} else if i == 4 {}
    else if i == 5 {} else if i == 6 {} else if i == 7 {} else if i == 8 {} else if i == 9 {}
    else if i == 10 {} else if i == 11 {} else if i == 12 {} else {}
  }

  /** Entry by entry (a case split on the position): EDITOR adds only its own permissions. */
  lemma EditorAdditions(i: nat)
    requires i < 14
    ensures FirstLevel(Added(Editor)[i]) == Editor
  {
    if i == 0 {} else if i == 1 {} else if i == 2 {} else if i == 3 {} else if i == 4 {}
    else if i == 5 {} else if i == 6 {} else if i == 7 {} else if i == 8 {} else if i == 9 {}
    else if i == 10 {} else if i == 11 {} else if i == 12 {} else {}
  }

  /** Entry by entry (a case split on the position): MANAGER (first eleven entries) adds only its own permissions. */
  lemma ManagerAdditionsLow(i: nat)
    requires i < 11
    ensures FirstLevel(Added(Manager)[i]) == Manager
  {
    if i == 0 {} else if i == 1 {} else if i == 2 {} else if i == 3 {} else if i == 4 {}
    else if i == 5 {} else if i == 6 {} else if i == 7 {} else if i == 8 {} else if i == 9 {}
    else {}
  }

  /** Entry by entry (a case split on the position): MANAGER (remaining entries) adds only its own permissions. */
  lemma ManagerAdditionsHigh(i: nat)
    requires 11 <= i < 21
    ensures FirstLevel(Added(Manager)[i]) == Manager
  {
    if i == 11 {} else if i == 12 {} else if i == 13 {} else if i == 14 {} else if i == 15 {}
    else if i == 16 {} else if i == 17 {} else if i == 18 {} else if i == 19 {} else {}
  }

  /** Entry by entry (a case split on the position): OWNER adds only its own permissions. */
  lemma OwnerAdditions(i: nat)
    requires i < 3
    ensures FirstLevel(Added(Owner)[i]) == Owner
  {
    if i == 0 {} else if i == 1 {} else {}
  }

  /** `has_permission(p)` holds exactly from the permission's first level upward. */
  lemma HasPermissionIffLevel(r: RoleType, p: Permission)
    ensures HasPermission(r, p) <==> Rank(FirstLevel(p)) <= Rank(r)
  {
    AddedAtFirstLevel(Viewer, p);
    AddedAtFirstLevel(Editor, p);
    AddedAtFirstLevel(Manager, p);
    AddedAtFirstLevel(Owner, p);
  }

  /** A lower level's list is a prefix of every higher level's list. */
  lemma {:induction false} PermissionsPrefix(a: RoleType, b: RoleType)
    requires Rank(a) <= Rank(b)
    ensures Permissions(a) <= Permissions(b)
    decreases Rank(b)
  {
    if Rank(a) < Rank(b) {
      var below := RoleTypes[Rank(b) - 1];
      PermissionsPrefix(a, below);
      assert Permissions(b) == Permissions(below) + Added(b);
    }
  }

  /** BLIND_REVIEWER ⊆ VIEWER ⊆ EDITOR ⊆ MANAGER ⊆ OWNER. */
  lemma HasPermissionMonotone(a: RoleType, b: RoleType, p: Permission)
    requires Rank(a) <= Rank(b) && HasPermission(a, p)
    ensures HasPermission(b, p)
  {
    PermissionsPrefix(a, b);
  }

  /** `has_permissions(ps)` holds iff every element passes `has_permission`; so `[]` gives true. */
  lemma {:induction false} HasPermissionsIffAll(r: RoleType, ps: seq<Permission>)
    ensures HasPermissions(r, ps) <==> forall i :: 0 <= i < |ps| ==> HasPermission(r, ps[i])
  {
    if ps != [] {
      HasPermissionsIffAll(r, ps[1..]);
      assert forall i :: 0 < i < |ps| ==> ps[i] == ps[1..][i - 1];
    }
  }

  /** BLIND_REVIEWER has an empty list and so no permission at all. */
  lemma BlindReviewerHasNothing(p: Permission)
    ensures !HasPermission(BlindReviewer, p)
    ensures Rank(FirstLevel(p)) > Rank(BlindReviewer)
  {
    HasPermissionIffLevel(BlindReviewer, p);
  }

  /** The permissions OWNER holds and MANAGER does not are exactly OWNER's three additions. */
  lemma OwnerOnly(p: Permission)
    ensures (HasPermission(Owner, p) && !HasPermission(Manager, p)) <==> p in Added(Owner)
    ensures p in Added(Owner) <==>
            p == Dataset(TransferOwnership) || p == Dataset(DeleteDataset)
            || p == Dataset(RequestCancelPublishRevise)
  {
    assert Permissions(Owner) == Permissions(Manager) + Added(Owner);
    if p in Added(Owner) {
      AddedAtFirstLevel(Owner, p);
      HasPermissionIffLevel(Manager, p);
    }
  }

  /**
   * The dataset and clinical-trial SHOW_SETTINGS_PAGE members share a value
   * string but are distinct permissions, and both are first granted at MANAGER.
   */
  lemma ShowSettingsPageDistinct()
    ensures Dataset(DatasetPermission.ShowSettingsPage) != ClinicalTrial(ClinicalTrialPermission.ShowSettingsPage)
    ensures Dataset(DatasetPermission.ShowSettingsPage).Value() == ClinicalTrial(ClinicalTrialPermission.ShowSettingsPage).Value()
  {
  }

  /** Both SHOW_SETTINGS_PAGE members are first granted at MANAGER. */
  lemma ShowSettingsPageAtManager()
    ensures FirstLevel(Dataset(DatasetPermission.ShowSettingsPage)) == Manager
    ensures FirstLevel(ClinicalTrial(ClinicalTrialPermission.ShowSettingsPage)) == Manager
    ensures HasPermission(Manager, Dataset(DatasetPermission.ShowSettingsPage))
    ensures !HasPermission(Editor, ClinicalTrial(ClinicalTrialPermission.ShowSettingsPage))
  {
    HasPermissionIffLevel(Manager, Dataset(DatasetPermission.ShowSettingsPage));
    HasPermissionIffLevel(Editor, ClinicalTrial(ClinicalTrialPermission.ShowSettingsPage));
  }

  /** The level facts the permission tests pin down for VIEWER. */
  lemma ViewerPermissions()
    ensures HasPermission(Viewer, OrganizationLevel(CreateDatasetFromTemplate))
    ensures HasPermission(Viewer, Dataset(ViewFiles)) && HasPermission(Viewer, Dataset(ViewRecords))
    ensures HasPermissions(Viewer, [Dataset(ViewFiles), Dataset(ViewRecords)])
    ensures !HasPermission(Viewer, Dataset(DeleteDataset))
    ensures !HasPermissions(Viewer, [Dataset(ViewFiles), Dataset(DeleteDataset)])
  {
  }
}
