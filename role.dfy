/**
 * Scope identifiers and role grants: `Id` parsing, equality and wildcard
 * matching, the organization, dataset and workspace grant records, and the
 * per-field decoders and encoders that turn a grant into JSON and back.
 */
module Roles {
  import opened Wrappers
  import opened Json
  import opened Models
  import PermissionLevels
  import Utils

  // ---------------------------------------------------------------------
  // Scope identifiers
  // ---------------------------------------------------------------------

  /** The three disjoint subclasses of `Id`. */
  datatype IdKind = OrganizationKind | DatasetKind | WorkspaceKind

  /** An `Id`: its subclass, its number (default -1) and its wildcard text (default ""). */
  datatype Id = Id(kind: IdKind, id: int, wildcard: string)

  /** The argument `Id.__init__` accepts: a Python int or a str. */
  datatype RawId = IntValue(n: int) | StrValue(s: string)

  predicate IsDigit(c: char) {
    '0' <= c <= '9'
  }

  /** `str.isdigit()` on ASCII text: non-empty and every character a digit. */
  predicate IsDigitString(s: string) {
    |s| > 0 && forall i :: 0 <= i < |s| ==> IsDigit(s[i])
  }

  /** `int(s)` for a string of decimal digits. */
  function DigitsValue(s: string): (n: nat)
    requires forall i :: 0 <= i < |s| ==> IsDigit(s[i])
  {
    if s == [] then 0
    else
      assert IsDigit(s[|s| - 1]);
      DigitsValue(s[..|s| - 1]) * 10 + (s[|s| - 1] as int - '0' as int)
  }

  /** `str(n)` for a non-negative int. */
  function DecimalString(n: nat): (s: string)
    ensures IsDigitString(s)
  {
    if n < 10 then [('0' as int + n) as char]
    else DecimalString(n / 10) + [('0' as int + n % 10) as char]
  }

  /** `int(str(n)) == n`. */
  lemma {:induction false} DigitsValueOfDecimal(n: nat)
    ensures DigitsValue(DecimalString(n)) == n
  {
    if n >= 10 {
      DigitsValueOfDecimal(n / 10);
      var s := DecimalString(n);
      assert s[..|s| - 1] == DecimalString(n / 10);
    }
  }

  /**
   * What an `Id` may look like once built: either a number with no
   * wildcard text, or the default number -1 with text that is not all digits.
   */
  predicate WellFormed(i: Id) {
    i.wildcard == "" || (i.id == -1 && !IsDigitString(i.wildcard))
  }

  /**
   * `Id.__init__`: an int is the number; an all-digit string is parsed; any
   * other string, "" and "*" included, becomes the wildcard text and leaves
   * the number at -1.
   */
  function NewId(kind: IdKind, raw: RawId): (r: Id)
    ensures r.kind == kind && WellFormed(r)
    ensures raw.IntValue? ==> r.id == raw.n && r.wildcard == ""
    ensures raw.StrValue? && !IsDigitString(raw.s) ==> r.id == -1 && r.wildcard == raw.s
  {
    match raw
    case IntValue(n) => Id(kind, n, "")
    case StrValue(s) => if IsDigitString(s) then Id(kind, DigitsValue(s), "") else Id(kind, -1, s)
  }

  /** A decimal string builds the same `Id` as the number it spells. */
  lemma NewIdOfDecimal(kind: IdKind, n: nat)
    ensures NewId(kind, StrValue(DecimalString(n))) == NewId(kind, IntValue(n))
  {
    DigitsValueOfDecimal(n);
  }

  /** `Id.__eq__`: same subclass and same number; the wildcard text is not compared. */
  predicate Eq(a: Id, b: Id) {
    a.kind == b.kind && a.id == b.id
  }

  /** `a.matches(b)`: equal, or of the same subclass with `a`'s text the literal "*". */
  predicate Matches(a: Id, b: Id) {
    Eq(a, b) || (a.kind == b.kind && a.wildcard == "*")
  }

  /** Ids of different subclasses are never equal and never match, whatever their numbers. */
  lemma KindsNeverMeet(a: Id, b: Id)
    requires a.kind != b.kind
    ensures !Eq(a, b) && !Matches(a, b) && !Matches(b, a)
  {
  }

  /** Equality ignores the text: "*", "x" and -1 all build the same dataset id. */
  lemma WildcardTextIgnored(kind: IdKind)
    ensures Eq(NewId(kind, StrValue("*")), NewId(kind, StrValue("x")))
    ensures Eq(NewId(kind, StrValue("*")), NewId(kind, IntValue(-1)))
    ensures NewId(kind, StrValue("*")) != NewId(kind, StrValue("x"))
  {
    assert !IsDigit('*') && !IsDigit('x');
  }

  /** Only the literal "*" matches beyond equality. */
  lemma MatchesOnlyStar(a: Id, b: Id)
    requires a.wildcard != "*"
    ensures Matches(a, b) <==> Eq(a, b)
  {
  }

  /** A "*" id matches every id of its subclass; a numeric id matches only its own number. */
  lemma MatchesByKind(kind: IdKind, n: int, b: Id)
    ensures Matches(NewId(kind, StrValue("*")), b) <==> b.kind == kind
    ensures Matches(NewId(kind, IntValue(n)), b) <==> b.kind == kind && b.id == n
  {
    assert !IsDigit('*');
  }

  /** `matches` is not symmetric: "*" matches 1, and 1 does not match "*". */
  lemma MatchesAsymmetric()
    ensures Matches(NewId(OrganizationKind, StrValue("*")), NewId(OrganizationKind, IntValue(1)))
    ensures !Matches(NewId(OrganizationKind, IntValue(1)), NewId(OrganizationKind, StrValue("*")))
  {
    assert !IsDigit('*');
  }

  // ---------------------------------------------------------------------
  // Role grants
  // ---------------------------------------------------------------------

  /** The three grant records; each carries its level, optional node id and scope id. */
  datatype Role =
    | OrganizationRole(role: RoleType, nodeId: Option<string>, id: Id,
                       enabledFeatures: Option<seq<FeatureFlag>>, encryptionKeyId: Option<string>)
    | DatasetRole(role: RoleType, nodeId: Option<string>, id: Id, locked: Option<bool>)
    | WorkspaceRole(role: RoleType, nodeId: Option<string>, id: Id)
  {
    /** The record's `type` field. */
    function Tag(): PennsieveRole {
      match this
      case OrganizationRole(_, _, _, _, _) => OrganizationRoleTag
      case DatasetRole(_, _, _, _) => DatasetRoleTag
      case WorkspaceRole(_, _, _) => WorkspaceRoleTag
    }

    /** The id's subclass is the one the record's field declares. */
    predicate WellKinded() {
      id.kind == KindOf(Tag())
    }

    /** `Role.has_permission`: the grant's level holds the permission. */
    function HasPermission(p: Permission): (b: bool)
      ensures b <==> Rank(FirstLevel(p)) <= Rank(role)
    {
      PermissionLevels.HasPermissionIffLevel(role, p);
      Models.HasPermission(role, p)
    }

    /** `Role.has_permissions`: the grant's level holds every listed permission. */
    function HasPermissions(ps: seq<Permission>): (b: bool)
      ensures b <==> forall i :: 0 <= i < |ps| ==> Rank(FirstLevel(ps[i])) <= Rank(role)
    {
      PermissionLevels.HasPermissionsIffAll(role, ps);
      assert forall i :: 0 <= i < |ps| ==> HasPermission(ps[i]) == Models.HasPermission(role, ps[i]);
      Models.HasPermissions(role, ps)
    }
  }

  /** The id subclass a grant type declares for its `id` field. */
  function KindOf(t: PennsieveRole): IdKind {
    match t
    case OrganizationRoleTag => OrganizationKind
    case DatasetRoleTag => DatasetKind
    case WorkspaceRoleTag => WorkspaceKind
    case NoRoleTag => OrganizationKind
  }

  // ---------------------------------------------------------------------
  // Field decoders
  // ---------------------------------------------------------------------

  /** The `role` field: required, and a RoleType value. */
  function DecodeRoleType(ms: seq<Member>): (r: Result<RoleType, Error>)
    ensures r.Success? <==> exists s :: Get(ms, "role") == Some(JStr(s)) && ParseRoleType(s).Some?
  {
    match Get(ms, "role")
    case None => Failure(MissingKey("role"))
    case Some(JStr(s)) =>
      (match ParseRoleType(s)
       case Some(t) => Success(t)
       case None => Failure(InvalidValue("role")))
    case Some(_) => Failure(InvalidValue("role"))
  }

  /** An optional string field: absent or null gives None. */
  function DecodeOptionalString(ms: seq<Member>, key: string): (r: Result<Option<string>, Error>)
    ensures r == Success(None) <==> Get(ms, key) == None || Get(ms, key) == Some(JNull)
    ensures forall s :: r == Success(Some(s)) <==> Get(ms, key) == Some(JStr(s))
  {
    match Get(ms, key)
    case None => Success(None)
    case Some(JNull) => Success(None)
    case Some(JStr(s)) => Success(Some(s))
    case Some(_) => Failure(InvalidValue(key))
  }

  /**
   * The `id` field's decoder `lambda x: XId(x)`; an absent field takes the
   * class default XId(-1). A JSON boolean is a Python int.
   */
  function DecodeId(kind: IdKind, ms: seq<Member>): (r: Result<Id, Error>)
    ensures r.Success? ==> r.value.kind == kind && WellFormed(r.value)
    ensures Get(ms, "id") == None ==> r == Success(Id(kind, -1, ""))
    ensures forall n :: Get(ms, "id") == Some(JInt(n)) ==> r == Success(Id(kind, n, ""))
    ensures forall s :: Get(ms, "id") == Some(JStr(s)) ==> r == Success(NewId(kind, StrValue(s)))
  {
    match Get(ms, "id")
    case None => Success(Id(kind, -1, ""))
    case Some(JInt(n)) => Success(NewId(kind, IntValue(n)))
    case Some(JBool(b)) => Success(NewId(kind, IntValue(if b then 1 else 0)))
    case Some(JStr(s)) => Success(NewId(kind, StrValue(s)))
    case Some(_) => Failure(InvalidValue("id"))
  }

  /** The strings among `es` that are FeatureFlag values, as flags, in order. */
  function FilterFlags(es: seq<Json>): (r: seq<FeatureFlag>)
    ensures |r| <= |es|
  {
    if es == [] then []
    else
      var rest := FilterFlags(es[1..]);
      match es[0]
      case JStr(s) =>
        (match ParseFeatureFlag(s)
         case Some(f) => [f] + rest
         case None => rest)
      case _ => rest
  }

  /** A flag is kept exactly when some entry spells its value. */
  lemma {:induction false} FilterFlagsMember(es: seq<Json>, f: FeatureFlag)
    ensures f in FilterFlags(es) <==> JStr(f.Value()) in es
  {
    if es != [] {
      FilterFlagsMember(es[1..], f);
      assert es == [es[0]] + es[1..];
      FeatureFlagValuesExact(f.Value(), f);
    }
  }

  /** Filtering distributes over concatenation, so entries keep their order and multiplicity. */
  lemma {:induction false} FilterFlagsAppend(a: seq<Json>, b: seq<Json>)
    ensures FilterFlags(a + b) == FilterFlags(a) + FilterFlags(b)
  {
    if a == [] {
      assert a + b == b;
    } else {
      assert (a + b)[0] == a[0];
      assert (a + b)[1..] == a[1..] + b;
      FilterFlagsAppend(a[1..], b);
    }
  }

  /** A single entry contributes its flag when it spells a flag's value, and nothing otherwise. */
  lemma FilterFlagsSingle(j: Json)
    ensures forall s, f :: j == JStr(s) && ParseFeatureFlag(s) == Some(f) ==> FilterFlags([j]) == [f]
    ensures (forall s :: j == JStr(s) ==> ParseFeatureFlag(s).None?) ==> FilterFlags([j]) == []
  {
    assert [j][1..] == [];
  }

  /** Duplicates are kept and unknown strings dropped: two "concepts_feature" entries give two flags. */
  lemma FilterFlagsKeepsDuplicates()
    ensures FilterFlags([JStr("concepts_feature"), JStr("x"), JStr("concepts_feature")]) ==
            [ConceptsFeature, ConceptsFeature]
  {
    var c := JStr("concepts_feature");
    FilterFlagsSingle(c);
    FilterFlagsSingle(JStr("x"));
    FilterFlagsAppend([c], [JStr("x"), c]);
    FilterFlagsAppend([JStr("x")], [c]);
    assert [c, JStr("x"), c] == [c] + ([JStr("x")] + [c]);
    assert [JStr("x"), c] == [JStr("x")] + [c];
  }

  /** The JSON list of a flag list's values. */
  function FlagsToJson(fs: seq<FeatureFlag>): (r: seq<Json>)
    ensures |r| == |fs| && forall i :: 0 <= i < |fs| ==> r[i] == JStr(fs[i].Value())
  {
    if fs == [] then [] else [JStr(fs[0].Value())] + FlagsToJson(fs[1..])
  }

  /** Encoding a flag list and filtering it gives the list back. */
  lemma {:induction false} FilterFlagsOfValues(fs: seq<FeatureFlag>)
    ensures FilterFlags(FlagsToJson(fs)) == fs
  {
    if fs != [] {
      FeatureFlagValuesExact(fs[0].Value(), fs[0]);
      FilterFlagsOfValues(fs[1..]);
      assert FlagsToJson(fs)[1..] == FlagsToJson(fs[1..]);
    }
  }

  /**
   * The `enabled_features` decoder: None stays None; otherwise the value is
   * iterated and only recognised flag strings are kept. Iterating a string
   * yields one-character strings and iterating a dict yields its keys.
   */
  function DecodeFeatures(ms: seq<Member>): (r: Result<Option<seq<FeatureFlag>>, Error>)
    ensures Get(ms, "enabled_features") == None ==> r == Success(None)
    ensures Get(ms, "enabled_features") == Some(JNull) ==> r == Success(None)
    ensures forall es :: Get(ms, "enabled_features") == Some(JArray(es)) ==>
              r == Success(Some(FilterFlags(es)))
  {
    match Get(ms, "enabled_features")
    case None => Success(None)
    case Some(JNull) => Success(None)
    case Some(JArray(es)) => Success(Some(FilterFlags(es)))
    case Some(JStr(s)) => Success(Some(FilterFlags(seq(|s|, i requires 0 <= i < |s| => JStr([s[i]])))))
    case Some(JObject(kvs)) => Success(Some(FilterFlags(seq(|kvs|, i requires 0 <= i < |kvs| => JStr(kvs[i].key)))))
    case Some(_) => Failure(InvalidValue("enabled_features"))
  }

  /** The `locked` field: absent or null gives None. */
  function DecodeLocked(ms: seq<Member>): (r: Result<Option<bool>, Error>)
    ensures r == Success(None) <==> Get(ms, "locked") == None || Get(ms, "locked") == Some(JNull)
    ensures forall b :: r == Success(Some(b)) <==> Get(ms, "locked") == Some(JBool(b))
  {
    match Get(ms, "locked")
    case None => Success(None)
    case Some(JNull) => Success(None)
    case Some(JBool(b)) => Success(Some(b))
    case Some(_) => Failure(InvalidValue("locked"))
  }

  function OrganizationRoleFromMembers(ms: seq<Member>): (r: Result<Role, Error>)
    ensures r.Success? ==> r.value.OrganizationRole? && r.value.id.kind == OrganizationKind && WellFormed(r.value.id)
  {
    var role :- DecodeRoleType(ms);
    var nodeId :- DecodeOptionalString(ms, "node_id");
    var id :- DecodeId(OrganizationKind, ms);
    var features :- DecodeFeatures(ms);
    var keyId :- DecodeOptionalString(ms, "encryption_key_id");
    Success(OrganizationRole(role, nodeId, id, features, keyId))
  }

  function DatasetRoleFromMembers(ms: seq<Member>): (r: Result<Role, Error>)
    ensures r.Success? ==> r.value.DatasetRole? && r.value.id.kind == DatasetKind && WellFormed(r.value.id)
  {
    var role :- DecodeRoleType(ms);
    var nodeId :- DecodeOptionalString(ms, "node_id");
    var id :- DecodeId(DatasetKind, ms);
    var locked :- DecodeLocked(ms);
    Success(DatasetRole(role, nodeId, id, locked))
  }

  function WorkspaceRoleFromMembers(ms: seq<Member>): (r: Result<Role, Error>)
    ensures r.Success? ==> r.value.WorkspaceRole? && r.value.id.kind == WorkspaceKind && WellFormed(r.value.id)
  {
    var role :- DecodeRoleType(ms);
    var nodeId :- DecodeOptionalString(ms, "node_id");
    var id :- DecodeId(WorkspaceKind, ms);
    Success(WorkspaceRole(role, nodeId, id))
  }

  /** One entry of `role_from_dict`: the grant class named by the entry's `type`. */
  function RoleFromJson(j: Json): (r: Result<Role, Error>)
    ensures r.Success? ==> j.JObject? && Get(j.members, "type") == Some(JStr(r.value.Tag().Value()))
    ensures r.Success? ==> r.value.WellKinded() && WellFormed(r.value.id)
    ensures j.JObject? && Get(j.members, "type") == None ==> r == Failure(MissingKey("type"))
  {
    match j
    case JObject(ms) =>
      (match Get(ms, "type")
       case None => Failure(MissingKey("type"))
       case Some(JStr(t)) =>
         (match t
          case "organization_role" => OrganizationRoleFromMembers(ms)
          case "dataset_role" => DatasetRoleFromMembers(ms)
          case "workspace_role" => WorkspaceRoleFromMembers(ms)
          case _ => Failure(UnknownRoleType))
       case Some(_) => Failure(UnknownRoleType))
    case _ => Failure(NotAnObject)
  }

  /** The list comprehension of `role_from_dict`: decodes in order and stops at the first failure. */
  function RolesFromJson(es: seq<Json>): (r: Result<seq<Role>, Error>)
    ensures r.Success? <==> forall i :: 0 <= i < |es| ==> RoleFromJson(es[i]).Success?
    ensures r.Success? ==>
              |r.value| == |es| && forall i :: 0 <= i < |es| ==> RoleFromJson(es[i]) == Success(r.value[i])
  {
    if es == [] then Success([])
    else
      match RoleFromJson(es[0])
      case Failure(e) => Failure(e)
      case Success(g) =>
        match RolesFromJson(es[1..])
        case Failure(e) => Failure(e)
        case Success(gs) =>
          assert forall i :: 1 <= i < |es| ==> es[i] == es[1..][i - 1];
          Success([g] + gs)
  }

  /** The error of a failed list is the error of its first failing entry. */
  lemma {:induction false} RolesFromJsonFirstFailure(es: seq<Json>)
    ensures RolesFromJson(es).Failure? ==>
              exists i :: 0 <= i < |es| && RoleFromJson(es[i]) == Failure(RolesFromJson(es).error) &&
                          (forall j :: 0 <= j < i ==> RoleFromJson(es[j]).Success?)
  {
    if es != [] && RoleFromJson(es[0]).Failure? {
      assert RoleFromJson(es[0]) == Failure(RolesFromJson(es).error);
    } else if es != [] && RolesFromJson(es).Failure? {
      assert RolesFromJson(es).error == RolesFromJson(es[1..]).error;
      RolesFromJsonFirstFailure(es[1..]);
      var i :| 0 <= i < |es[1..]| && RoleFromJson(es[1..][i]) == Failure(RolesFromJson(es[1..]).error) &&
               (forall j :: 0 <= j < i ==> RoleFromJson(es[1..][j]).Success?);
      assert es[i + 1] == es[1..][i];
      assert forall j :: 1 <= j < i + 1 ==> es[j] == es[1..][j - 1];
    }
  }

  /**
   * `role_from_dict(data)` on the claim's `roles` value: a list is decoded
   * entry by entry; iterating an empty string or empty dict gives no grants;
   * a non-empty string or dict yields strings, which cannot be indexed by
   * "type"; anything else is not iterable.
   */
  function RoleFromDict(j: Json): (r: Result<seq<Role>, Error>)
    ensures r.Success? ==> j == JStr("") || j == JObject([]) || j.JArray?
    ensures forall es :: j == JArray(es) ==> r == RolesFromJson(es)
  {
    match j
    case JArray(es) => RolesFromJson(es)
    case JStr(s) => if s == "" then Success([]) else Failure(NotAnObject)
    case JObject(ms) => if ms == [] then Success([]) else Failure(NotAnObject)
    case _ => Failure(InvalidValue("roles"))
  }

  // ---------------------------------------------------------------------
  // Field encoders
  // ---------------------------------------------------------------------

  /** The organization id encoder: the wildcard text if non-empty, else the number. */
  function EncodeOrganizationId(i: Id): (r: Json)
    ensures r.JStr? <==> i.wildcard != ""
  {
    if i.wildcard != "" then JStr(i.wildcard) else JInt(i.id)
  }

  /** The dataset and workspace id encoder: always the number. */
  function EncodeScopedId(i: Id): (r: Json)
    ensures WellFormed(i) && i.wildcard != "" ==> r == JInt(-1)
  {
    JInt(i.id)
  }

  function OptionalStringToJson(o: Option<string>): Json {
    match o
    case None => JNull
    case Some(s) => JStr(s)
  }

  function OptionalFlagsToJson(o: Option<seq<FeatureFlag>>): Json {
    match o
    case None => JNull
    case Some(fs) => JArray(FlagsToJson(fs))
  }

  function OptionalBoolToJson(o: Option<bool>): Json {
    match o
    case None => JNull
    case Some(b) => JBool(b)
  }

  /** `to_json` of a grant: its fields in declaration order, None as null. */
  function RoleToJson(g: Role): (r: Json)
    ensures r.JObject? && Utils.Cleanable(r)
  {
    var common := [
      Member("role", JStr(g.role.Value())),
      Member("node_id", OptionalStringToJson(g.nodeId)),
      Member("type", JStr(g.Tag().Value()))];
    match g
    case OrganizationRole(_, _, id, fs, keyId) =>
      JObject(common + [
        Member("id", EncodeOrganizationId(id)),
        Member("enabled_features", OptionalFlagsToJson(fs)),
        Member("encryption_key_id", OptionalStringToJson(keyId))])
    case DatasetRole(_, _, id, locked) =>
      JObject(common + [Member("id", EncodeScopedId(id)), Member("locked", OptionalBoolToJson(locked))])
    case WorkspaceRole(_, _, id) =>
      JObject(common + [Member("id", EncodeScopedId(id))])
  }

  /**
   * What survives the trip through JSON: dataset and workspace ids keep only
   * their number, so their wildcard text is lost.
   */
  function Transmitted(g: Role): Role {
    match g
    case OrganizationRole(_, _, _, _, _) => g
    case DatasetRole(role, nodeId, id, locked) => DatasetRole(role, nodeId, Id(id.kind, id.id, ""), locked)
    case WorkspaceRole(role, nodeId, id) => WorkspaceRole(role, nodeId, Id(id.kind, id.id, ""))
  }

  // ---------------------------------------------------------------------
  // Round trip through clean_dict
  // ---------------------------------------------------------------------

  /** The cleaned lookup of a key the encoding holds once, with a value that is not null. */
  lemma CleanedField(ms: seq<Member>, i: nat, k: string, v: Json)
    requires Utils.CleanableMembers(ms) && UniqueKeys(ms) && i < |ms|
    requires ms[i] == Member(k, v) && !v.JNull? && Utils.Cleanable(v) && Utils.NullFree(v)
    ensures Get(Utils.CleanMembers(ms), k) == Some(v)
  {
    GetUnique(ms, i);
    Utils.CleanMembersGet(ms, k);
    Utils.CleanValueFixpoint(v);
  }

  /** The cleaned lookup of a key the encoding holds once, with the value null. */
  lemma CleanedNull(ms: seq<Member>, i: nat, k: string)
    requires Utils.CleanableMembers(ms) && UniqueKeys(ms) && i < |ms|
    requires ms[i] == Member(k, JNull)
    ensures Get(Utils.CleanMembers(ms), k) == None
  {
    GetUnique(ms, i);
    Utils.CleanMembersGet(ms, k);
  }

  /** The cleaned lookup of an optional string field. */
  lemma CleanedOptional(ms: seq<Member>, i: nat, k: string, o: Option<string>)
    requires Utils.CleanableMembers(ms) && UniqueKeys(ms) && i < |ms|
    requires ms[i] == Member(k, OptionalStringToJson(o))
    ensures DecodeOptionalString(Utils.CleanMembers(ms), k) == Success(o)
  {
    if o.None? { CleanedNull(ms, i, k); } else { CleanedField(ms, i, k, JStr(o.value)); }
  }

  /** The cleaned lookup of the role field. */
  lemma CleanedRoleType(ms: seq<Member>, r: RoleType)
    requires Utils.CleanableMembers(ms) && UniqueKeys(ms) && 0 < |ms|
    requires ms[0] == Member("role", JStr(r.Value()))
    ensures DecodeRoleType(Utils.CleanMembers(ms)) == Success(r)
  {
    CleanedField(ms, 0, "role", JStr(r.Value()));
    DecodeRoleTypeOfValue(Utils.CleanMembers(ms), r);
  }

  /** A role field holding a level's value decodes to that level. */
  lemma DecodeRoleTypeOfValue(ms: seq<Member>, r: RoleType)
    requires Get(ms, "role") == Some(JStr(r.Value()))
    ensures DecodeRoleType(ms) == Success(r)
  {
    RoleTypeValuesExact(r.Value(), r);
  }

  /** An encoded id decodes back to the id, less any text a scoped id drops. */
  lemma CleanedId(ms: seq<Member>, i: nat, kind: IdKind, id: Id)
    requires Utils.CleanableMembers(ms) && UniqueKeys(ms) && i < |ms|
    requires id.kind == kind && WellFormed(id)
    requires ms[i] == Member("id", if kind == OrganizationKind then EncodeOrganizationId(id) else EncodeScopedId(id))
    ensures DecodeId(kind, Utils.CleanMembers(ms)) ==
              Success(if kind == OrganizationKind then id else Id(kind, id.id, ""))
  {
    CleanedField(ms, i, "id", ms[i].value);
  }

  /** The cleaned lookup of the feature list. */
  lemma CleanedFeatures(ms: seq<Member>, i: nat, o: Option<seq<FeatureFlag>>)
    requires Utils.CleanableMembers(ms) && UniqueKeys(ms) && i < |ms|
    requires ms[i] == Member("enabled_features", OptionalFlagsToJson(o))
    ensures DecodeFeatures(Utils.CleanMembers(ms)) == Success(o)
  {
    if o.None? {
      CleanedNull(ms, i, "enabled_features");
    } else {
      var j := OptionalFlagsToJson(o);
      assert Utils.NullFree(j);
      CleanedField(ms, i, "enabled_features", j);
      FilterFlagsOfValues(o.value);
    }
  }

  /** The cleaned lookup of the locked flag. */
  lemma CleanedLocked(ms: seq<Member>, i: nat, o: Option<bool>)
    requires Utils.CleanableMembers(ms) && UniqueKeys(ms) && i < |ms|
    requires ms[i] == Member("locked", OptionalBoolToJson(o))
    ensures DecodeLocked(Utils.CleanMembers(ms)) == Success(o)
  {
    if o.None? { CleanedNull(ms, i, "locked"); } else { CleanedField(ms, i, "locked", JBool(o.value)); }
  }

  /** The fields every grant encodes first: its level, node id and type. */
  lemma CleanedCommon(g: Role)
    ensures var ms := RoleToJson(g).members;
            Utils.CleanableMembers(ms) && UniqueKeys(ms) && |ms| >= 4 && ms[3].key == "id" &&
            DecodeRoleType(Utils.CleanMembers(ms)) == Success(g.role) &&
            DecodeOptionalString(Utils.CleanMembers(ms), "node_id") == Success(g.nodeId) &&
            Get(Utils.CleanMembers(ms), "type") == Some(JStr(g.Tag().Value()))
  {
    var ms := RoleToJson(g).members;
    CleanedRoleType(ms, g.role);
    CleanedOptional(ms, 1, "node_id", g.nodeId);
    CleanedField(ms, 2, "type", JStr(g.Tag().Value()));
  }

  /** An object whose `type` is "organization_role" is decoded as an organization grant. */
  lemma DispatchOrganization(cs: seq<Member>)
    requires Get(cs, "type") == Some(JStr("organization_role"))
    ensures RoleFromJson(JObject(cs)) == OrganizationRoleFromMembers(cs)
  {
    assert |"organization_role"| == 17 && |"dataset_role"| == 12 && |"workspace_role"| == 14;
  }

  /** An object whose `type` is "dataset_role" is decoded as a dataset grant. */
  lemma DispatchDataset(cs: seq<Member>)
    requires Get(cs, "type") == Some(JStr("dataset_role"))
    ensures RoleFromJson(JObject(cs)) == DatasetRoleFromMembers(cs)
  {
    assert |"organization_role"| == 17 && |"dataset_role"| == 12 && |"workspace_role"| == 14;
  }

  /** An object whose `type` is "workspace_role" is decoded as a workspace grant. */
  lemma DispatchWorkspace(cs: seq<Member>)
    requires Get(cs, "type") == Some(JStr("workspace_role"))
    ensures RoleFromJson(JObject(cs)) == WorkspaceRoleFromMembers(cs)
  {
    assert |"organization_role"| == 17 && |"dataset_role"| == 12 && |"workspace_role"| == 14;
  }

  lemma OrganizationRoundTrip(g: Role)
    requires g.OrganizationRole? && g.WellKinded() && WellFormed(g.id)
    ensures RoleFromJson(Utils.CleanValue(RoleToJson(g))) == Success(g)
  {
    var ms := RoleToJson(g).members;
    CleanedCommon(g);
    CleanedId(ms, 3, OrganizationKind, g.id);
    CleanedFeatures(ms, 4, g.enabledFeatures);
    CleanedOptional(ms, 5, "encryption_key_id", g.encryptionKeyId);
    DispatchOrganization(Utils.CleanMembers(ms));
    assert OrganizationRoleFromMembers(Utils.CleanMembers(ms)) == Success(g);
  }

  lemma DatasetRoundTrip(g: Role)
    requires g.DatasetRole? && g.WellKinded() && WellFormed(g.id)
    ensures RoleFromJson(Utils.CleanValue(RoleToJson(g))) == Success(Transmitted(g))
  {
    var ms := RoleToJson(g).members;
    CleanedCommon(g);
    CleanedId(ms, 3, DatasetKind, g.id);
    CleanedLocked(ms, 4, g.locked);
    DispatchDataset(Utils.CleanMembers(ms));
    assert DatasetRoleFromMembers(Utils.CleanMembers(ms)) == Success(Transmitted(g));
  }

  lemma WorkspaceRoundTrip(g: Role)
    requires g.WorkspaceRole? && g.WellKinded() && WellFormed(g.id)
    ensures RoleFromJson(Utils.CleanValue(RoleToJson(g))) == Success(Transmitted(g))
  {
    var ms := RoleToJson(g).members;
    CleanedCommon(g);
    CleanedId(ms, 3, WorkspaceKind, g.id);
    DispatchWorkspace(Utils.CleanMembers(ms));
    assert WorkspaceRoleFromMembers(Utils.CleanMembers(ms)) == Success(Transmitted(g));
  }

  /**
   * A well-formed grant, encoded, cleaned of nulls and decoded again, is the
   * grant as transmitted: unchanged for an organization grant, and without
   * the wildcard text for a dataset or workspace grant.
   */
  lemma RoleRoundTrip(g: Role)
    requires g.WellKinded() && WellFormed(g.id)
    ensures Utils.Cleanable(RoleToJson(g))
    ensures RoleFromJson(Utils.CleanValue(RoleToJson(g))) == Success(Transmitted(g))
  {
    match g
    case OrganizationRole(_, _, _, _, _) => OrganizationRoundTrip(g);
    case DatasetRole(_, _, _, _) => DatasetRoundTrip(g);
    case WorkspaceRole(_, _, _) => WorkspaceRoundTrip(g);
  }

  /** Grants that carry no wildcard text travel unchanged. */
  lemma TransmittedPlain(g: Role)
    requires g.OrganizationRole? || g.id.wildcard == ""
    ensures Transmitted(g) == g
  {
  }

  /** A dataset "*" grant matches every dataset before the trip, and only dataset -1 after it. */
  lemma DatasetWildcardLost(n: int)
    requires n != -1
    ensures var g := DatasetRole(Owner, None, NewId(DatasetKind, StrValue("*")), None);
            Matches(g.id, NewId(DatasetKind, IntValue(n))) &&
            !Matches(Transmitted(g).id, NewId(DatasetKind, IntValue(n)))
  {
    assert !IsDigit('*');
  }
}
