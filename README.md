# Pennsieve auth-middleware claims, modelled in Dafny

This project models the authorization-claim core of Pennsieve's auth
middleware (the Python package `auth_middleware`). A token carries a
*claim*, which is either a user claim or a service claim. A claim holds a
list of *grants*. Each grant gives a role level (blind reviewer, viewer,
editor, manager and owner) on an organization, a dataset or a workspace.
The scope is named by an *id*, which may be the wildcard `"*"`. The
middleware answers questions such as "may this caller delete dataset 7?"
from the claim alone.

The model covers four parts:

- **Permission hierarchy** (`models.dfy`, `permissions.dfy`).
  - The enums, with their string values and `values()`.
  - The per-level permission lists, each built on the level below.
  - `has_permission` and `has_permissions`.
  - A reference table that gives each permission the level where it first
    appears. Membership in every level's list is proved to equal "first
    level at or below this one". Monotonicity and the documented examples
    follow from that.
- **Ids and grants** (`role.dfy`).
  - Id parsing from an int or a string, and id equality.
  - The `matches` relation, which is asymmetric.
  - The three grant records and `has_permission(s)`.
  - Each field's JSON decoder and encoder, and `role_from_dict`.
  - A round trip: a grant goes through JSON and `clean_dict` and is read
    back. It is proved to come back unchanged, except that a dataset or
    workspace id loses its wildcard text.
- **Claims** (`claim.dfy`).
  - The `get_role` loop, proved against a resolution function: an exact
    match beats a wildcard match, and the first grant wins within each tier.
  - The access and feature queries built on it.
  - Projections of the grants by type, with head and node-id lookups.
  - Validity and `from_claim_type`.
  - Decoding a token payload (`from_dict`, `claim_from_dict`, the cognito
    session decoder). This includes the in-place `pop` of the timestamps.
  - Encoding a claim into its payload. Encoding and then decoding is proved
    to give the claim back, up to the lost wildcard text.
- **`clean_dict`** (`utils.dfy`, on the `JsonDict` class of `json.dfy`).
  - An in-place recursive method over a mutable dict, proved against a
    pure cleaning function.
  - Lemmas that the result has no null-valued key and that every other
    key is kept.
  - Lemmas that lists keep their length, order and null elements, and that
    cleaning is idempotent.

Time is an integer number of seconds supplied by the caller. JSON is a
datatype (`Json.Json`), and a mutable Python dict is the class
`Json.JsonDict`. Python exceptions become `Result` failures carrying a
`Json.Error`.

Behaviours of the source worth noting, all modelled as written:

- Id equality compares only the numeric id (role.py:21-22). `DatasetId("*")`,
  `DatasetId("x")` and `DatasetId(-1)` are all equal (`Roles.WildcardTextIgnored`).
  So a wildcard id also equals the plain id -1.
- Only the literal `"*"` matches other ids (role.py:24-28, `Roles.MatchesOnlyStar`). Any
  other non-digit text only sets the wildcard field and matches by
  equality alone.
- `clean_dict` keeps `None` elements inside lists (utils.py:13-16,
  `Utils.CleanElementsShape`). Only null-valued dict keys are dropped.
- A cognito session value that is a dict without `"type"` raises a
  `KeyError` (claim.py:14-15, `Claims.CognitoSessionFromData`). A dict whose
  `"type"` is not a session type gives no session.

## Model

| member | source | states |
|---|---|---|
| Models.Rank | python/auth_middleware/models.py:96-101 | each role level sits at its declaration position in the ordered list of levels |
| Models.ParseRoleType | python/auth_middleware/models.py:96-101 | `RoleType(s)` yields a level only when `s` is that level's value |
| Models.RoleTypeValuesExact | python/auth_middleware/models.py:5-8 | `values()` lists each level's value at its declaration position; lookup succeeds exactly for listed strings and inverts `.value` |
| Models.ParseFeatureFlag | python/auth_middleware/models.py:185-199 | `FeatureFlag(s)` yields a flag only when `s` is that flag's value |
| Models.FlagIndex | python/auth_middleware/models.py:185-199 | every flag's value is in `FeatureFlag.values()` at its declaration position |
| Models.FeatureFlagValuesExact | python/auth_middleware/models.py:185-199 | a string is a recognised flag exactly when it is listed by `values()`; lookup inverts `.value` |
| Models.ParseCognitoSessionType | python/auth_middleware/models.py:85-87 | a session type is found only for its own value |
| Models.CognitoSessionTypeValuesExact | python/auth_middleware/models.py:85-87 | a session type string is recognised exactly when listed by `values()`; lookup inverts `.value` |
| PermissionLevels.AddedAtFirstLevel | python/auth_middleware/models.py:115-175 | a permission is among the extras a level adds exactly when the reference table puts its first level there |
| PermissionLevels.FirstLevelAdded | python/auth_middleware/models.py:115-175 | every permission of every class is added at some level, the one the reference table names |
| PermissionLevels.AdditionsAtOwnLevel | python/auth_middleware/models.py:115-175 | every permission a level adds has that level as its first level |
| PermissionLevels.HasPermissionIffLevel | python/auth_middleware/models.py:103-108 | `has_permission(p)` holds exactly when p's first level is at or below the role's level |
| PermissionLevels.PermissionsPrefix | python/auth_middleware/models.py:115-175 | each level's permission list is a prefix of every higher level's list |
| PermissionLevels.HasPermissionMonotone | python/auth_middleware/models.py:115-175 | a permission held by a level is held by every higher level |
| PermissionLevels.HasPermissionsIffAll | python/auth_middleware/models.py:110-111 | `has_permissions(ps)` holds exactly when every element passes `has_permission`; the empty list passes |
| PermissionLevels.BlindReviewerHasNothing | python/auth_middleware/models.py:115-115 | BLIND_REVIEWER holds no permission at all |
| PermissionLevels.OwnerOnly | python/auth_middleware/models.py:171-175 | the permissions OWNER holds and MANAGER lacks are exactly DELETE_DATASET, TRANSFER_OWNERSHIP and REQUEST_CANCEL_PUBLISH_REVISE |
| PermissionLevels.ShowSettingsPageDistinct | python/auth_middleware/models.py:57-73 | the dataset and clinical-trial SHOW_SETTINGS_PAGE members share a value string but are different permissions |
| PermissionLevels.ShowSettingsPageAtManager | python/auth_middleware/models.py:159-164 | both SHOW_SETTINGS_PAGE permissions are first granted at MANAGER, so EDITOR lacks them |
| PermissionLevels.ViewerPermissions | python/auth_middleware/models.py:116-131 | VIEWER has CREATE_DATASET_FROM_TEMPLATE, VIEW_FILES and VIEW_RECORDS, and lacks DELETE_DATASET |
| Roles.DigitsValueOfDecimal | python/auth_middleware/role.py:16-17 | reading the decimal text of a natural number gives the number back |
| Roles.NewId | python/auth_middleware/role.py:13-19 | an int is the id's number; a non-digit string leaves the number at -1 and becomes the wildcard text; every id built is well formed |
| Roles.NewIdOfDecimal | python/auth_middleware/role.py:13-19 | an all-digit string builds exactly the id the number it spells builds |
| Roles.KindsNeverMeet | python/auth_middleware/role.py:21-28 | ids of different subclasses are never equal and never match, in either direction |
| Roles.WildcardTextIgnored | python/auth_middleware/role.py:21-22 | equality ignores the text: ids built from "*", "x" and -1 are all equal, although "*" and "x" differ as values |
| Roles.MatchesOnlyStar | python/auth_middleware/role.py:24-28 | an id whose text is not "*" matches exactly the ids it equals |
| Roles.MatchesByKind | python/auth_middleware/role.py:24-28 | a "*" id matches every id of its subclass; a numeric id matches exactly the ids of its subclass with that number |
| Roles.MatchesAsymmetric | python/auth_middleware/role.py:24-28 | organization "*" matches organization 1, but 1 does not match "*" |
| Roles.Role.HasPermission | python/auth_middleware/role.py:54-55 | a grant holds a permission exactly when its level is at or above the permission's first level |
| Roles.Role.HasPermissions | python/auth_middleware/role.py:57-58 | a grant holds a list of permissions exactly when its level reaches each one's first level |
| Roles.DecodeRoleType | python/auth_middleware/role.py:43-45 | the `role` field decodes exactly when it is a string naming a level |
| Roles.DecodeOptionalString | python/auth_middleware/role.py:46-46 | an absent or null node id is None; a string is kept; anything else fails |
| Roles.DecodeId | python/auth_middleware/role.py:69-77 | a decoded id has the field's subclass and is well formed; an int is the id's number, a string is parsed by `Id.__init__`, and an absent id takes the default -1 |
| Roles.FilterFlagsMember | python/auth_middleware/role.py:83-85 | the filtered feature list holds a flag exactly when some entry is that flag's string |
| Roles.FilterFlagsOfValues | python/auth_middleware/role.py:83-88 | filtering the strings of a flag list gives that list back, in order |
| Roles.DecodeFeatures | python/auth_middleware/role.py:79-90 | absent or null features stay None; a list becomes its filtered flag list |
| Roles.FilterFlagsAppend | python/auth_middleware/role.py:83-85 | filtering distributes over concatenation, so recognised entries keep their order and multiplicity |
| Roles.FilterFlagsSingle | python/auth_middleware/role.py:83-85 | one entry contributes its flag if it spells a flag's value, and nothing otherwise |
| Roles.FilterFlagsKeepsDuplicates | python/auth_middleware/role.py:83-85 | `["concepts_feature", "x", "concepts_feature"]` gives two CONCEPTS_FEATURE flags |
| Roles.DecodeLocked | python/auth_middleware/role.py:106-106 | an absent or null `locked` is None; a boolean is kept; anything else fails |
| Roles.RoleFromJson | python/auth_middleware/role.py:125-131 | an entry decodes only as the class its `type` names, into a grant whose id has that class's subclass; a missing `type` fails |
| Roles.RolesFromJson | python/auth_middleware/role.py:131-131 | the list decodes exactly when every entry does, keeping length and order, each grant being its entry's decoding |
| Roles.RolesFromJsonFirstFailure | python/auth_middleware/role.py:131-131 | a failed list reports the error of its first failing entry |
| Roles.RoleFromDict | python/auth_middleware/role.py:125-131 | a list is decoded entry by entry; only an empty string or empty dict also yields no grants; everything else fails |
| Roles.EncodeOrganizationId | python/auth_middleware/role.py:74-74 | an organization id encodes as text exactly when its wildcard text is non-empty |
| Roles.EncodeScopedId | python/auth_middleware/role.py:102-102 | a dataset or workspace id with wildcard text encodes as -1 |
| Roles.RoleToJson | python/auth_middleware/role.py:66-122 | a grant encodes as a JSON object with distinct keys that `clean_dict` accepts |
| Roles.OrganizationRoundTrip | python/auth_middleware/role.py:66-91 | an organization grant survives encoding, cleaning and decoding unchanged, wildcard text and feature list included |
| Roles.DatasetRoundTrip | python/auth_middleware/role.py:94-107 | a dataset grant survives the trip with only its id's number |
| Roles.WorkspaceRoundTrip | python/auth_middleware/role.py:110-122 | a workspace grant survives the trip with only its id's number |
| Roles.RoleRoundTrip | python/auth_middleware/role.py:66-131 | every well-formed grant decodes back, after encoding and cleaning, to the grant as transmitted |
| Roles.TransmittedPlain | python/auth_middleware/role.py:74-74 | organization grants, and grants without wildcard text, travel unchanged |
| Roles.DatasetWildcardLost | python/auth_middleware/role.py:97-104 | a dataset "*" grant matches dataset n before the trip, and no longer matches it after |
| Claims.FirstPassing | python/auth_middleware/claim.py:217-221 | the first grant passing a test, with nothing passing before it, or None exactly when no grant passes |
| Claims.FirstPassingUnique | python/auth_middleware/claim.py:217-221 | a passing grant with no passing grant before it is the one found |
| Claims.GetRole | python/auth_middleware/claim.py:215-222 | the loop returns the grant the resolution rule picks: first equal id, else first matching id, else None |
| Claims.ResolveExactWins | python/auth_middleware/claim.py:217-219 | the first grant with an equal id is returned even when a matching "*" grant comes earlier |
| Claims.ResolveWildcardFallback | python/auth_middleware/claim.py:220-222 | with no equal grant, the earliest matching grant is returned |
| Claims.ResolveNoneIff | python/auth_middleware/claim.py:215-222 | nothing resolves exactly when no grant's id matches the query |
| Claims.ResolveSound | python/auth_middleware/claim.py:215-222 | a resolved grant is one of the claim's grants, of the query's subclass, and its id matches the query |
| Claims.ResolveWildcardOnlyWithoutExact | python/auth_middleware/claim.py:215-222 | a resolved grant that is not equal to the query means no grant is equal to it |
| Claims.ResolvePrecedenceExample | python/auth_middleware/claim.py:215-222 | with a "*" owner grant and a dataset-2 editor grant, in either order, dataset 2 resolves to the editor and dataset 3 to the owner |
| Claims.HasOrganizationAccess | python/auth_middleware/claim.py:190-191 | organization access holds exactly when some grant's id matches the organization id |
| Claims.HasScopedAccess | python/auth_middleware/claim.py:193-205 | dataset and workspace access hold exactly when a grant resolves for the id and its level reaches the permission's first level; without a matching grant they are false |
| Claims.ExactGrantOverridesWildcard | python/auth_middleware/claim.py:193-197 | an exact editor grant for dataset 2 hides a "*" owner grant there, so dataset 2 may not be deleted while dataset 3 may |
| Claims.ResolvedOrganizationGrant | python/auth_middleware/claim.py:171-173 | for an organization id and well-kinded grants, the resolved grant is an organization grant, so its feature fields exist |
| Claims.EnabledFeatures | python/auth_middleware/claim.py:168-174 | the resolved organization grant's feature list, or None when nothing resolves |
| Claims.HasFeatureEnabled | python/auth_middleware/claim.py:176-182 | true exactly when a grant resolves and its feature list exists and contains the flag |
| Claims.EncryptionKeyId | python/auth_middleware/claim.py:184-188 | the resolved organization grant's key id, or None when nothing resolves |
| Claims.OfType | python/auth_middleware/claim.py:117-118 | the grants of a type are exactly the claim's grants with that tag |
| Claims.OfTypeAppend | python/auth_middleware/claim.py:117-118 | filtering by type distributes over concatenation, so it keeps the grants' order |
| Claims.RoleIds | python/auth_middleware/claim.py:117-118 | `_role_ids` has one id per grant of the type, and holds exactly those grants' ids |
| Claims.RoleNodeIds | python/auth_middleware/claim.py:120-125 | `_role_node_ids` is no longer than the grant list |
| Claims.RoleNodeIdsMember | python/auth_middleware/claim.py:120-125 | a node id is listed exactly when some grant of the type carries it; None node ids are dropped |
| Claims.RoleNodeIdsAppend | python/auth_middleware/claim.py:120-125 | the node-id projection distributes over concatenation, so it keeps the grants' order |
| Claims.HeadRoleId | python/auth_middleware/claim.py:105-109 | the id of the first grant of the type, the head of `_role_ids`, or None without one |
| Claims.HeadRoleNodeId | python/auth_middleware/claim.py:111-115 | the node id of the first grant of the type, or None without one |
| Claims.OrganizationNodeId | python/auth_middleware/claim.py:151-158 | the node id of the first organization grant whose id equals the query, or None; a "*" grant is not used as a wildcard, only grants whose number equals the query's count |
| Claims.IsValid | python/auth_middleware/claim.py:77-79 | a claim is valid exactly while now is before its expiry |
| Claims.FromClaimType | python/auth_middleware/claim.py:100-103 | the new claim keeps the content and takes the default issue time |
| Claims.FromClaimTypeValidity | python/auth_middleware/claim.py:100-103 | a claim made with a lifetime is valid at t exactly when t is before now plus the lifetime, and is valid at every earlier time too |
| Claims.FromClaimTypeExamples | python/auth_middleware/claim.py:100-103 | a 10-second claim is valid when made; a -1-second claim is not |
| Claims.IsUserClaim | python/auth_middleware/claim.py:211-213 | true exactly for user content |
| Claims.IsServiceClaim | python/auth_middleware/claim.py:207-209 | true exactly for service content |
| Claims.ExactlyOneKind | python/auth_middleware/claim.py:207-213 | every claim is exactly one of user and service |
| Claims.CognitoSessionFromData | python/auth_middleware/claim.py:13-17 | non-dicts give no session; a dict without `type` raises; a type that is not a session-type string gives no session; a recognised type with a string id gives that session, and every decoded session comes from the dict's `type` and `id` strings |
| Claims.CognitoSessionUnknownType | python/auth_middleware/claim.py:15-17 | a dict whose `type` is an unknown string gives no session, not an error |
| Claims.CognitoSessionMissingType | python/auth_middleware/claim.py:15-15 | a dict without `type` raises |
| Claims.CognitoSessionBrowser | python/auth_middleware/claim.py:15-16 | a dict with type "browser" and id "u" gives that browser session |
| Claims.DecodeRoles | python/auth_middleware/claim.py:38-40 | decoded grants are well kinded and have well-formed ids |
| Claims.UserClaimFromMembers | python/auth_middleware/claim.py:43-51 | a user payload decodes to user content with well-kinded grants |
| Claims.ServiceClaimFromMembers | python/auth_middleware/claim.py:54-57 | a service payload decodes to service content with well-kinded grants |
| Claims.ClaimTypeFromMembers | python/auth_middleware/claim.py:60-68 | a decoded kind is the one the `type` string names; a missing `type` raises; any other `type` is rejected |
| Claims.DecodeTimestamp | python/auth_middleware/claim.py:96-97 | a timestamp decodes exactly when it is a number |
| Claims.ClaimFromPayload | python/auth_middleware/claim.py:92-98 | a missing exp or iat fails; a decoded claim's times are the payload's, and its content is from the payload without those two keys |
| Claims.ClaimFromPayloadSteps | python/auth_middleware/claim.py:96-98 | with both timestamps present, a non-numeric exp fails first, then a non-numeric iat, then the content's own error; otherwise the claim holds the content and both times |
| Claims.DecodedRolesWellKinded | python/auth_middleware/claim.py:92-98 | every decoded claim has well-kinded grants, so the organization queries apply to it |
| Claims.FromDict | python/auth_middleware/claim.py:92-98 | returns the payload's decoding and pops exp, then iat, from the caller's dict, stopping where the source raises |
| Claims.ClaimTypeToJson | python/auth_middleware/claim.py:82-82 | content encodes as an object that `clean_dict` accepts and that has no exp or iat key |
| Claims.Payload | python/auth_middleware/claim.py:81-84 | the payload to sign has distinct keys |
| Claims.EncodePayload | python/auth_middleware/claim.py:81-84 | builds the content dict, cleans it in place and stores exp and iat, giving the payload |
| Claims.PayloadShape | python/auth_middleware/claim.py:81-84 | the payload is the cleaned content followed by exp and then iat |
| Claims.PayloadTimestamps | python/auth_middleware/claim.py:92-97 | the payload's exp and iat are the claim's, and removing them leaves the cleaned content |
| Claims.RolesRoundTrip | python/auth_middleware/claim.py:38-40 | an encoded and cleaned grant list decodes back to the transmitted grants |
| Claims.CognitoRoundTrip | python/auth_middleware/claim.py:13-17 | an encoded session decodes back to itself |
| Claims.UserContentRoundTrip | python/auth_middleware/claim.py:43-51 | user content survives encoding, cleaning and decoding up to the grants' wildcard text |
| Claims.ServiceContentRoundTrip | python/auth_middleware/claim.py:54-57 | service content survives encoding, cleaning and decoding up to the grants' wildcard text |
| Claims.ClaimRoundTrip | python/auth_middleware/claim.py:81-98 | decoding the payload of a claim with well-formed grants gives the claim back, less any dataset or workspace wildcard text |
| Claims.WildcardUserViews | python/auth_middleware/claim.py:193-197 | a user with a dataset "*" owner grant may view dataset 5's files |
| Claims.WildcardUserDecoded | python/auth_middleware/claim.py:81-98 | that user's claim, decoded from its payload, holds dataset -1 instead of "*" |
| Claims.MinusOneGrantUseless | python/auth_middleware/claim.py:193-197 | a dataset -1 grant gives no access to dataset 5 |
| Claims.DatasetWildcardLostInToken | python/auth_middleware/claim.py:81-98 | the dataset "*" owner may view dataset 5 before the claim travels as a token, and may not after |
| Json.JsonDict.Delete | python/auth_middleware/utils.py:9-9 | `del d[k]` removes the key and keeps the keys distinct |
| Json.JsonDict.Put | python/auth_middleware/utils.py:13-13 | `d[k] = v` replaces the value in place or appends the key |
| Json.JsonDict.Pop | python/auth_middleware/claim.py:96-97 | `d.pop(k)` returns the stored value and removes the key |
| Utils.CleanDict | python/auth_middleware/utils.py:1-17 | cleans the dict in place and returns the same dict, whose members become the cleaned members |
| Utils.CleanEntry | python/auth_middleware/utils.py:8-16 | one loop step: deletes a null key, cleans a nested dict, or replaces a list by its cleaned copy |
| Utils.CleanList | python/auth_middleware/utils.py:13-16 | the list comprehension computes the cleaned list |
| Utils.CleanElementsShape | python/auth_middleware/utils.py:13-16 | a cleaned list keeps its length and order; dict elements are cleaned and other elements, null included, are kept |
| Utils.CleanMembersKeys | python/auth_middleware/utils.py:7-9 | cleaning adds no key |
| Utils.CleanMembersUnique | python/auth_middleware/utils.py:7-16 | cleaning keeps the keys distinct |
| Utils.CleanMembersGet | python/auth_middleware/utils.py:7-16 | after cleaning, a null-valued key is gone and every other key maps to its cleaned value; scalars are unchanged |
| Utils.CleanValueNullFree | python/auth_middleware/utils.py:7-11 | no dict anywhere in a cleaned value maps a key to null |
| Utils.CleanMembersNullFree | python/auth_middleware/utils.py:7-11 | no member of a cleaned dict is null, at any depth |
| Utils.CleanElementsNullFree | python/auth_middleware/utils.py:13-16 | the dicts inside a cleaned list are null-free |
| Utils.CleanValueFixpoint | python/auth_middleware/utils.py:7-17 | a value with no null-valued key is left unchanged |
| Utils.CleanMembersFixpoint | python/auth_middleware/utils.py:7-17 | a null-free dict's members are left unchanged |
| Utils.CleanElementsFixpoint | python/auth_middleware/utils.py:13-16 | a null-free list is left unchanged |
| Utils.CleanIdempotent | python/auth_middleware/utils.py:7-17 | cleaning a cleaned value changes nothing |

## Left out

- JWT signing and verification (`encode`'s final step and `from_token`) belong to an external library. The model stops at the payload dict that is signed and starts from the dict that verification returns.
- `dataclasses_json` is not modelled as a library. Each field's decoding and encoding is written out, with Python's field order.
- Ill-typed field values are rejected. This covers a number as a node id, a non-boolean `locked`, a non-integer user id or a null grant id. Python would store such values unchecked.
- A JSON boolean grant id is read as the Python int it is (1 or 0), and re-encoded as that number rather than as a boolean.
- Timestamps are integer seconds. Floating-point timestamps, `datetime`, and the difference between UTC (`utcnow`) and local time (`fromtimestamp`) are not modelled.
- The `iat` default of `Claim` is evaluated once, when Python imports the module. It is a parameter of `Claims.FromClaimType`.
- `Claims.CognitoSessionFromData` does not model the `str` arm of the `cognito` field. The decoder maps every non-dict to None, so only code that builds a claim in memory can put a string there.
- `is_browser` and `is_api` are not modelled. They are field comparisons on the session type.
- The named wrappers (`head_dataset_id`, `dataset_ids`, `organization_node_ids` and the rest) are not separate members. Each is `Claims.HeadRoleId`, `Claims.HeadRoleNodeId`, `Claims.RoleIds` or `Claims.RoleNodeIds` with a fixed grant type. `has_dataset_access` and `has_workspace_access` are one member, `Claims.HasScopedAccess`, because their bodies are the same.
- `Claims.EnabledFeatures` and `Claims.EncryptionKeyId` require an organization id and well-kinded grants. With a dataset or workspace id, Python raises when a grant resolves, because that grant has no such attribute. It returns None otherwise, and `has_feature_enabled` returns False. The model does not cover those calls. Every decoded claim is well kinded (`Claims.DecodedRolesWellKinded`).
- The base `Role` and `Id` classes cannot be built from JSON, and their defaults (`Id(0)`, an empty type) are unused, so they are not modelled.
- Grants keep their declared type. Assigning `type` on a grant object in memory is not modelled.
- Decoding a claim reports which exception would be raised (`Json.Error`), but not its message or Python class hierarchy.
- `Roles.IsDigitString` accepts only ASCII digits. Python's `str.isdigit` also accepts other Unicode digits.
- `Utils.CleanDict` builds the cleaned nested values as copies through `JsonDict` objects. Sharing of one nested dict object between several parents is not modelled.
- `Utils.CleanDict` requires that no list contains a list directly, because the source then calls `.items()` on a list and fails.
- `service_claim.py` builds service tokens and HTTP headers around the signing library, and `config.py` is configuration data. Neither is modelled.
- Claims.RoleNodeIds: its own ensures bounds only the length. Membership is stated in `Claims.RoleNodeIdsMember` and order in `Claims.RoleNodeIdsAppend`, which keeps each proof small.
- Claims.ClaimFromPayload: states success in one direction only. A decoded claim's times and content come from the payload, but "numeric timestamps and decodable content give success" is not stated. `Claims.ClaimRoundTrip` proves success for every encoded claim.
