/**
 * The static vocabulary of the authorization core: role levels and the
 * permissions each level grants, the permission, feature-flag, session and
 * grant-type enumerations, and the value lists the decoders use to
 * recognise enumeration members.
 */
module Models {
  import opened Wrappers

  // ---------------------------------------------------------------------
  // Role levels
  // ---------------------------------------------------------------------

  datatype RoleType = BlindReviewer | Viewer | Editor | Manager | Owner {
    function Value(): string {
      match this
      case BlindReviewer => "blind_reviewer"
      case Viewer => "viewer"
      case Editor => "editor"
      case Manager => "manager"
      case Owner => "owner"
    }
  }

  const RoleTypes: seq<RoleType> := [BlindReviewer, Viewer, Editor, Manager, Owner]

  /** Position of a level in declaration order. */
  function Rank(r: RoleType): (n: nat)
    ensures n < |RoleTypes| && RoleTypes[n] == r
  {
    match r
    case BlindReviewer => 0
    case Viewer => 1
    case Editor => 2
    case Manager => 3
    case Owner => 4
  }

  /** `RoleType.values()`. */
  const RoleTypeValues: seq<string> := ["blind_reviewer", "viewer", "editor", "manager", "owner"]

  /** `RoleType(s)`: lookup by value; None where Python raises ValueError. */
  function ParseRoleType(s: string): (r: Option<RoleType>)
    ensures r.Some? ==> r.value.Value() == s
  {
    match s
    case "blind_reviewer" => Some(BlindReviewer)
    case "viewer" => Some(Viewer)
    case "editor" => Some(Editor)
    case "manager" => Some(Manager)
    case "owner" => Some(Owner)
    case _ => None
  }

  /** `values()` lists each level's value at its declaration position; lookup inverts `Value`. */
  lemma RoleTypeValuesExact(s: string, r: RoleType)
    ensures RoleTypeValues[Rank(r)] == r.Value()
    ensures ParseRoleType(r.Value()) == Some(r)
    ensures ParseRoleType(s).Some? <==> s in RoleTypeValues
  {
  }

  // ---------------------------------------------------------------------
  // Permissions
  // ---------------------------------------------------------------------

  datatype OrganizationLevelPermission = CreateDatasetFromTemplate {
    function Value(): string { "create_dataset_from_template" }
  }

  datatype DatasetPermission =
    | ViewGraphSchema | ManageGraphSchema | ManageModelTemplates | ManageDatasetTemplates
    | PublishDatasetTemplate | CreateDeleteRecord | CreateDeleteFiles | EditRecords | EditFiles
    | ViewRecords | ViewFiles | ManageCollections | ManageRecordRelationships
    | ManageDatasetCollections | AddPeople | ChangeRoles | ViewPeopleAndRoles
    | TransferOwnership | ReserveDoi | ManageAnnotations | ManageAnnotationLayers
    | ViewAnnotations | ManageDiscussionComments | ViewDiscussionComments | EditDatasetName
    | EditDatasetDescription | EditContributors | EditDatasetAutomaticallyProcessingPackages
    | DeleteDataset | RequestCancelPublishRevise | RequestRevise | ShowSettingsPage
    | ViewExternalPublications | ManageExternalPublications
  {
    function Value(): string {
      match this
      case ViewGraphSchema => "view_graph_schema"
      case ManageGraphSchema => "manage_graph_schema"
      case ManageModelTemplates => "manage_model_templates"
      case ManageDatasetTemplates => "manage_dataset_templates"
      case PublishDatasetTemplate => "publish_dataset_template"
      case CreateDeleteRecord => "create_delete_record"
      case CreateDeleteFiles => "create_delete_files"
      case EditRecords => "edit_records"
      case EditFiles => "edit_files"
      case ViewRecords => "view_records"
      case ViewFiles => "view_files"
      case ManageCollections => "manage_collections"
      case ManageRecordRelationships => "manage_record_relationships"
      case ManageDatasetCollections => "manage_dataset_collections"
      case AddPeople => "add_people"
      case ChangeRoles => "change_roles"
      case ViewPeopleAndRoles => "view_people_and_roles"
      case TransferOwnership => "transfer_ownership"
      case ReserveDoi => "reserve_doi"
      case ManageAnnotations => "manage_annotations"
      case ManageAnnotationLayers => "manage_annotation_layers"
      case ViewAnnotations => "view_annotations"
      case ManageDiscussionComments => "manage_discussion_comments"
      case ViewDiscussionComments => "view_discussion_comments"
      case EditDatasetName => "edit_dataset_name"
      case EditDatasetDescription => "edit_dataset_description"
      case EditContributors => "edit_contributors"
      case EditDatasetAutomaticallyProcessingPackages => "edit_dataset_automatically_processing_packages"
      case DeleteDataset => "delete_dataset"
      case RequestCancelPublishRevise => "request_cancel_publish_revise"
      case RequestRevise => "request_revise"
      case ShowSettingsPage => "show_settings_page"
      case ViewExternalPublications => "view_external_publications"
      case ManageExternalPublications => "manage_external_publications"
    }
  }

  datatype ClinicalTrialPermission =
    | TrialOverview | ViewParticipants | CreateParticipant | EditParticipant | DeleteParticipant
    | AddFilesToRecord | LinkSiteToRecord | CreateSubmissionData | ViewSubmissionData
    | ManageModels | ShowSettingsPage | ManageSites | ViewSites
  {
    function Value(): string {
      match this
      case TrialOverview => "trial_overview"
      case ViewParticipants => "view_participants"
      case CreateParticipant => "create_participant"
      case EditParticipant => "edit_participant"
      case DeleteParticipant => "delete_participant"
      case AddFilesToRecord => "add_files_to_record"
      case LinkSiteToRecord => "link_site_to_record"
      case CreateSubmissionData => "create_submission_data"
      case ViewSubmissionData => "view_submission_data"
      case ManageModels => "manage_models"
      case ShowSettingsPage => "show_settings_page"
      case ManageSites => "manage_sites"
      case ViewSites => "view_sites"
    }
  }

  /** Declared in the source under the misspelt name WorskpacePermission. */
  datatype WorkspacePermission = ManageViews | ManageQueries | CreateSnapshot | ViewDashboard {
    function Value(): string {
      match this
      case ManageViews => "manage_views"
      case ManageQueries => "manage_queries"
      case CreateSnapshot => "create_snapshot"
      case ViewDashboard => "view_dashboard"
    }
  }

  /**
   * A permission is an enumeration member: it is identified by its class and
   * its name, never by its value string alone.
   */
  datatype Permission =
    | OrganizationLevel(o: OrganizationLevelPermission)
    | Dataset(d: DatasetPermission)
    | ClinicalTrial(c: ClinicalTrialPermission)
    | Workspace(w: WorkspacePermission)
  {
    function Value(): string {
      match this
      case OrganizationLevel(o) => o.Value()
      case Dataset(d) => d.Value()
      case ClinicalTrial(c) => c.Value()
      case Workspace(w) => w.Value()
    }
  }

  /** The permissions a level adds to the level below it. */
  function Added(r: RoleType): seq<Permission> {
    match r
    case BlindReviewer => []
    case Viewer =>
      [ OrganizationLevel(CreateDatasetFromTemplate),
        Dataset(ViewGraphSchema), Dataset(ViewFiles), Dataset(ViewAnnotations),
        Dataset(ViewRecords), Dataset(ViewPeopleAndRoles), Dataset(ManageDiscussionComments),
        Dataset(ViewDiscussionComments), Dataset(ViewExternalPublications),
        ClinicalTrial(TrialOverview), ClinicalTrial(ViewParticipants),
        ClinicalTrial(ViewSubmissionData), ClinicalTrial(ViewSites),
        Workspace(ViewDashboard) ]
    case Editor =>
      [ Dataset(CreateDeleteRecord), Dataset(CreateDeleteFiles), Dataset(EditRecords),
        Dataset(EditFiles), Dataset(ManageCollections), Dataset(ManageRecordRelationships),
        Dataset(ManageAnnotations), Dataset(ManageAnnotationLayers),
        ClinicalTrial(CreateParticipant), ClinicalTrial(EditParticipant),
        ClinicalTrial(DeleteParticipant), ClinicalTrial(AddFilesToRecord),
        ClinicalTrial(LinkSiteToRecord), ClinicalTrial(CreateSubmissionData) ]
    case Manager =>
      [ Dataset(ManageGraphSchema), Dataset(ManageModelTemplates), Dataset(ManageDatasetTemplates),
        Dataset(PublishDatasetTemplate), Dataset(AddPeople), Dataset(ChangeRoles),
        Dataset(EditDatasetName), Dataset(EditContributors), Dataset(EditDatasetDescription),
        Dataset(EditDatasetAutomaticallyProcessingPackages), Dataset(DatasetPermission.ShowSettingsPage),
        Dataset(ReserveDoi), Dataset(ManageDatasetCollections), Dataset(ManageExternalPublications),
        Dataset(RequestRevise),
        ClinicalTrial(ClinicalTrialPermission.ShowSettingsPage), ClinicalTrial(ManageModels),
        ClinicalTrial(ManageSites),
        Workspace(ManageViews), Workspace(ManageQueries), Workspace(CreateSnapshot) ]
    case Owner =>
      [ Dataset(TransferOwnership), Dataset(DeleteDataset), Dataset(RequestCancelPublishRevise) ]
  }

  /** `role_permissions()[r]`: each level's list is the list of the level below plus its additions. */
  function Permissions(r: RoleType): seq<Permission>
    decreases Rank(r)
  {
    match r
    case BlindReviewer => []
    case Viewer => Permissions(BlindReviewer) + Added(Viewer)
    case Editor => Permissions(Viewer) + Added(Editor)
    case Manager => Permissions(Editor) + Added(Manager)
    case Owner => Permissions(Manager) + Added(Owner)
  }

  /** `RoleType.has_permission`: membership in the level's list. */
  predicate HasPermission(r: RoleType, p: Permission) {
    p in Permissions(r)
  }

  /** `RoleType.has_permissions`: Python's `all` over the list of membership tests. */
  predicate HasPermissions(r: RoleType, ps: seq<Permission>) {
    ps == [] || (HasPermission(r, ps[0]) && HasPermissions(r, ps[1..]))
  }

  /**
   * An independent reading of the table, permission by permission: the
   * lowest level whose list contains it. Every permission is granted at
   * some level; none at BLIND_REVIEWER.
   */
  function FirstLevel(p: Permission): RoleType {
    match p
    case OrganizationLevel(_) => Viewer
    case Workspace(w) => if w == ViewDashboard then Viewer else Manager
    case ClinicalTrial(c) =>
      (match c
       case TrialOverview | ViewParticipants | ViewSubmissionData | ViewSites => Viewer
       case CreateParticipant | EditParticipant | DeleteParticipant | AddFilesToRecord
         | LinkSiteToRecord | CreateSubmissionData => Editor
       case ManageModels | ShowSettingsPage | ManageSites => Manager)
    case Dataset(d) =>
      (match d
       case ViewGraphSchema | ViewFiles | ViewAnnotations | ViewRecords | ViewPeopleAndRoles
         | ManageDiscussionComments | ViewDiscussionComments | ViewExternalPublications => Viewer
       case CreateDeleteRecord | CreateDeleteFiles | EditRecords | EditFiles | ManageCollections
         | ManageRecordRelationships | ManageAnnotations | ManageAnnotationLayers => Editor
       case TransferOwnership | DeleteDataset | RequestCancelPublishRevise => Owner
       case _ => Manager)
  }

  // ---------------------------------------------------------------------
  // Feature flags, session types and grant types
  // ---------------------------------------------------------------------

  datatype FeatureFlag =
    | TimeSeriesEventsFeature | Viewer2Feature | ConceptsFeature | DiscoverFeature | OldEtl
    | NewEtl | EtlFairness | ClinicalManagementFeature | ModelTemplatesFeature
    | DatasetTemplatesFeature | Uploads2Feature | ProgressionToolFeature | Discover2Feature
    | DoiFeature
  {
    function Value(): string {
      match this
      case TimeSeriesEventsFeature => "time_series_events_feature"
      case Viewer2Feature => "viewer2_feature"
      case ConceptsFeature => "concepts_feature"
      case DiscoverFeature => "discover_feature"
      case OldEtl => "old_etl"
      case NewEtl => "new_etl"
      case EtlFairness => "etl_fairness"
      case ClinicalManagementFeature => "clinical_management_feature"
      case ModelTemplatesFeature => "model_templates_feature"
      case DatasetTemplatesFeature => "dataset_templates_feature"
      case Uploads2Feature => "uploads2_feature"
      case ProgressionToolFeature => "progression_tool_feature"
      case Discover2Feature => "discover2_feature"
      case DoiFeature => "doi_feature"
    }
  }

  /** `FeatureFlag.values()`: the recognised feature-flag strings, in declaration order. */
  const FeatureFlagValues: seq<string> :=
    [ "time_series_events_feature", "viewer2_feature", "concepts_feature", "discover_feature",
      "old_etl", "new_etl", "etl_fairness", "clinical_management_feature",
      "model_templates_feature", "dataset_templates_feature", "uploads2_feature",
      "progression_tool_feature", "discover2_feature", "doi_feature" ]

  /** `FeatureFlag(s)`: lookup by value; None where Python raises ValueError. */
  function ParseFeatureFlag(s: string): (r: Option<FeatureFlag>)
    ensures r.Some? ==> r.value.Value() == s
  {
    match s
    case "time_series_events_feature" => Some(TimeSeriesEventsFeature)
    case "viewer2_feature" => Some(Viewer2Feature)
    case "concepts_feature" => Some(ConceptsFeature)
    case "discover_feature" => Some(DiscoverFeature)
    case "old_etl" => Some(OldEtl)
    case "new_etl" => Some(NewEtl)
    case "etl_fairness" => Some(EtlFairness)
    case "clinical_management_feature" => Some(ClinicalManagementFeature)
    case "model_templates_feature" => Some(ModelTemplatesFeature)
    case "dataset_templates_feature" => Some(DatasetTemplatesFeature)
    case "uploads2_feature" => Some(Uploads2Feature)
    case "progression_tool_feature" => Some(ProgressionToolFeature)
    case "discover2_feature" => Some(Discover2Feature)
    case "doi_feature" => Some(DoiFeature)
    case _ => None
  }

  /** The position of a flag in declaration order. */
  function FlagIndex(f: FeatureFlag): (n: nat)
    ensures n < |FeatureFlagValues| && FeatureFlagValues[n] == f.Value()
  {
    match f
    case TimeSeriesEventsFeature => 0
    case Viewer2Feature => 1
    case ConceptsFeature => 2
    case DiscoverFeature => 3
    case OldEtl => 4
    case NewEtl => 5
    case EtlFairness => 6
    case ClinicalManagementFeature => 7
    case ModelTemplatesFeature => 8
    case DatasetTemplatesFeature => 9
    case Uploads2Feature => 10
    case ProgressionToolFeature => 11
    case Discover2Feature => 12
    case DoiFeature => 13
  }

  /**
   * `values()` is exactly the set of strings the lookup accepts, and every
   * flag's value parses back to that flag.
   */
  lemma FeatureFlagValuesExact(s: string, f: FeatureFlag)
    ensures ParseFeatureFlag(s).Some? <==> s in FeatureFlagValues
    ensures ParseFeatureFlag(f.Value()) == Some(f)
  {
  }

  datatype CognitoSessionType = Browser | Api {
    function Value(): string {
      match this
      case Browser => "browser"
      case Api => "api"
    }
  }

  /** `CognitoSessionType.values()`. */
  const CognitoSessionTypeValues: seq<string> := ["browser", "api"]

  function ParseCognitoSessionType(s: string): (r: Option<CognitoSessionType>)
    ensures r.Some? ==> r.value.Value() == s
  {
    match s
    case "browser" => Some(Browser)
    case "api" => Some(Api)
    case _ => None
  }

  lemma CognitoSessionTypeValuesExact(s: string, t: CognitoSessionType)
    ensures ParseCognitoSessionType(s).Some? <==> s in CognitoSessionTypeValues
    ensures ParseCognitoSessionType(t.Value()) == Some(t)
  {
  }

  /** The grant-type enumeration (imported by the claim code as PennsieveRole). */
  datatype PennsieveRole = OrganizationRoleTag | DatasetRoleTag | WorkspaceRoleTag | NoRoleTag {
    function Value(): string {
      match this
      case OrganizationRoleTag => "organization_role"
      case DatasetRoleTag => "dataset_role"
      case WorkspaceRoleTag => "workspace_role"
      case NoRoleTag => ""
    }
  }
}
