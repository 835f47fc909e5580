/**
 * Claims: the user or service content of a token, its timestamps, how a
 * claim resolves a scope id to a grant, the access and feature queries built
 * on that, the projections by grant type, and the decoding and encoding of
 * token payloads.
 */
module Claims {
  import opened Wrappers
  import opened Json
  import opened Models
  import opened Roles
  import Utils

  // ---------------------------------------------------------------------
  // Data model
  // ---------------------------------------------------------------------

  /** A Cognito session: its id and whether it is a browser or API session. */
  datatype CognitoSession = CognitoSession(id: string, sessionType: CognitoSessionType)

  /** The content of a claim: a user with its id, session and node id, or a service. */
  datatype ClaimType =
    | UserClaim(roles: seq<Role>, id: int, cognito: Option<CognitoSession>, nodeId: Option<string>)
    | ServiceClaim(roles: seq<Role>)

  /** A claim with its expiry and issue times, in seconds since the epoch. */
  datatype Claim = Claim(content: ClaimType, exp: int, iat: int)

  // ---------------------------------------------------------------------
  // Resolving a scope id to a grant
  // ---------------------------------------------------------------------

  /** The two tests `get_role` applies to a grant: exact equality, or wildcard matching. */
  datatype Test = ByEquality | ByMatch

  predicate Passes(g: Role, q: Id, t: Test) {
    match t
    case ByEquality => Eq(g.id, q)
    case ByMatch => Matches(g.id, q)
  }

  /** The position of the first grant that passes the test, if any. */
  function FirstPassing(roles: seq<Role>, q: Id, t: Test): (r: Option<nat>)
    ensures r.Some? ==>
              r.value < |roles| && Passes(roles[r.value], q, t) &&
              forall j :: 0 <= j < r.value ==> !Passes(roles[j], q, t)
    ensures r.None? <==> forall j :: 0 <= j < |roles| ==> !Passes(roles[j], q, t)
  {
    if roles == [] then None
    else if Passes(roles[0], q, t) then Some(0)
    else
      var rest := FirstPassing(roles[1..], q, t);
      assert forall j :: 1 <= j < |roles| ==> roles[j] == roles[1..][j - 1];
      match rest
      case None => None
      case Some(k) => Some(k + 1)
  }

  /** The passing position of a test is the first one: nothing before it passes. */
  lemma FirstPassingUnique(roles: seq<Role>, q: Id, t: Test, i: nat)
    requires i < |roles| && Passes(roles[i], q, t)
    requires forall j :: 0 <= j < i ==> !Passes(roles[j], q, t)
    ensures FirstPassing(roles, q, t) == Some(i)
  {
  }

  /**
   * What `get_role` returns: the first grant whose id equals the query;
   * failing that, the first grant whose id matches it; failing that, None.
   */
  function Resolve(roles: seq<Role>, q: Id): Option<Role> {
    match FirstPassing(roles, q, ByEquality)
    case Some(i) => Some(roles[i])
    case None =>
      match FirstPassing(roles, q, ByMatch)
      case Some(i) => Some(roles[i])
      case None => None
  }

  /**
   * `get_role`: one pass over the grants that returns at the first equal id
   * and otherwise remembers the first matching grant.
   */
  method GetRole(c: Claim, q: Id) returns (r: Option<Role>)
    ensures r == Resolve(c.content.roles, q)
  {
    var roles := c.content.roles;
    var wildcard: Option<Role> := None;
    ghost var at := 0;
    var i := 0;
    while i < |roles|
      invariant 0 <= i <= |roles|
      invariant forall j :: 0 <= j < i ==> !Eq(roles[j].id, q)
      invariant wildcard.None? ==> forall j :: 0 <= j < i ==> !Matches(roles[j].id, q)
      invariant wildcard.Some? ==>
                  at < i && wildcard == Some(roles[at]) && Matches(roles[at].id, q) &&
                  forall j :: 0 <= j < at ==> !Matches(roles[j].id, q)
    {
      var g := roles[i];
      if g.id.kind == q.kind && g.id.id == q.id {
        FirstPassingUnique(roles, q, ByEquality, i);
        return Some(g);
      }
      if Matches(g.id, q) && wildcard.None? {
        wildcard := Some(g);
        at := i;
      }
      i := i + 1;
    }
    if wildcard.Some? {
      FirstPassingUnique(roles, q, ByMatch, at);
    }
    r := wildcard;
  }

  /** An equal grant wins over every matching grant, however early the latter appears. */
  lemma ResolveExactWins(roles: seq<Role>, q: Id, i: nat)
    requires i < |roles| && Eq(roles[i].id, q)
    requires forall j :: 0 <= j < i ==> !Eq(roles[j].id, q)
    ensures Resolve(roles, q) == Some(roles[i])
  {
    FirstPassingUnique(roles, q, ByEquality, i);
  }

  /** With no equal grant, the earliest matching grant is chosen. */
  lemma ResolveWildcardFallback(roles: seq<Role>, q: Id, i: nat)
    requires forall j :: 0 <= j < |roles| ==> !Eq(roles[j].id, q)
    requires i < |roles| && Matches(roles[i].id, q)
    requires forall j :: 0 <= j < i ==> !Matches(roles[j].id, q)
    ensures Resolve(roles, q) == Some(roles[i])
  {
    FirstPassingUnique(roles, q, ByMatch, i);
  }

  /** No grant is found exactly when no grant's id matches the query. */
  lemma ResolveNoneIff(roles: seq<Role>, q: Id)
    ensures Resolve(roles, q).None? <==> forall j :: 0 <= j < |roles| ==> !Matches(roles[j].id, q)
  {
    if Resolve(roles, q).None? {
      assert FirstPassing(roles, q, ByMatch).None?;
    }
  }

  /** A resolved grant is one of the claim's grants, its id matches the query and has its subclass. */
  lemma ResolveSound(roles: seq<Role>, q: Id)
    ensures Resolve(roles, q).Some? ==>
              Resolve(roles, q).value in roles && Matches(Resolve(roles, q).value.id, q) &&
              Resolve(roles, q).value.id.kind == q.kind
  {
  }

  /** A resolved grant that is not equal to the query means no grant at all is equal to it. */
  lemma ResolveWildcardOnlyWithoutExact(roles: seq<Role>, q: Id)
    requires Resolve(roles, q).Some? && !Eq(Resolve(roles, q).value.id, q)
    ensures forall j :: 0 <= j < |roles| ==> !Eq(roles[j].id, q)
  {
  }

  /** The two grants used to show precedence: dataset "*" → owner, dataset 2 → editor. */
  function WildcardOwner(): Role {
    DatasetRole(Owner, None, NewId(DatasetKind, StrValue("*")), None)
  }

  function EditorOfTwo(): Role {
    DatasetRole(Editor, None, NewId(DatasetKind, IntValue(2)), None)
  }

  /**
   * With a "*" owner grant and an editor grant for dataset 2, in either
   * order, dataset 2 resolves to the editor grant and dataset 3 to the
   * owner grant.
   */
  lemma ResolvePrecedenceExample()
    ensures Resolve([WildcardOwner(), EditorOfTwo()], NewId(DatasetKind, IntValue(2))) == Some(EditorOfTwo())
    ensures Resolve([EditorOfTwo(), WildcardOwner()], NewId(DatasetKind, IntValue(2))) == Some(EditorOfTwo())
    ensures Resolve([WildcardOwner(), EditorOfTwo()], NewId(DatasetKind, IntValue(3))) == Some(WildcardOwner())
    ensures Resolve([EditorOfTwo(), WildcardOwner()], NewId(DatasetKind, IntValue(3))) == Some(WildcardOwner())
  {
    var two := NewId(DatasetKind, IntValue(2));
    var three := NewId(DatasetKind, IntValue(3));
    assert !IsDigit('*');
    ResolveExactWins([WildcardOwner(), EditorOfTwo()], two, 1);
    ResolveExactWins([EditorOfTwo(), WildcardOwner()], two, 0);
    ResolveWildcardFallback([WildcardOwner(), EditorOfTwo()], three, 0);
    ResolveWildcardFallback([EditorOfTwo(), WildcardOwner()], three, 1);
  }

  // ---------------------------------------------------------------------
  // Queries built on resolution
  // ---------------------------------------------------------------------

  /** `has_organization_access`: some grant resolves for the id. */
  function HasOrganizationAccess(c: Claim, o: Id): (b: bool)
    ensures b <==> exists j :: 0 <= j < |c.content.roles| && Matches(c.content.roles[j].id, o)
  {
    ResolveNoneIff(c.content.roles, o);
    Resolve(c.content.roles, o).Some?
  }

  /**
   * `has_dataset_access` and `has_workspace_access`: a grant resolves for
   * the id and its level holds the permission.
   */
  function HasScopedAccess(c: Claim, q: Id, p: Permission): (b: bool)
    ensures b <==> exists g :: Resolve(c.content.roles, q) == Some(g) && Rank(FirstLevel(p)) <= Rank(g.role)
    ensures b ==> exists j :: 0 <= j < |c.content.roles| && Matches(c.content.roles[j].id, q)
  {
    ResolveNoneIff(c.content.roles, q);
    match Resolve(c.content.roles, q)
    case Some(g) => g.HasPermission(p)
    case None => false
  }

  /**
   * An exact lower grant hides a wildcard higher grant: with a "*" owner
   * grant and an editor grant for dataset 2, dataset 2 may not be deleted
   * while dataset 3 may.
   */
  lemma ExactGrantOverridesWildcard(c: Claim)
    requires c.content.roles == [WildcardOwner(), EditorOfTwo()]
    ensures !HasScopedAccess(c, NewId(DatasetKind, IntValue(2)), Dataset(DeleteDataset))
    ensures HasScopedAccess(c, NewId(DatasetKind, IntValue(3)), Dataset(DeleteDataset))
  {
    ResolvePrecedenceExample();
    assert FirstLevel(Dataset(DeleteDataset)) == Owner;
  }

  /** Every grant's id has the subclass its record declares, as decoding guarantees. */
  predicate WellKindedRoles(roles: seq<Role>) {
    forall j :: 0 <= j < |roles| ==> roles[j].WellKinded()
  }

  /** For an organization id, the grant that resolves is an organization grant. */
  lemma ResolvedOrganizationGrant(roles: seq<Role>, o: Id)
    requires o.kind == OrganizationKind && WellKindedRoles(roles)
    ensures Resolve(roles, o).Some? ==> Resolve(roles, o).value.OrganizationRole?
  {
    if Resolve(roles, o).Some? {
      var g := Resolve(roles, o).value;
      var j :| 0 <= j < |roles| && roles[j] == g;
      assert g.id.kind == KindOf(g.Tag());
    }
  }

  /** `enabled_features`: the resolved organization grant's flags, or None without a grant. */
  function EnabledFeatures(c: Claim, o: Id): (r: Option<seq<FeatureFlag>>)
    requires o.kind == OrganizationKind && WellKindedRoles(c.content.roles)
    ensures Resolve(c.content.roles, o).None? ==> r.None?
    ensures forall g :: Resolve(c.content.roles, o) == Some(g) ==> g.OrganizationRole? && r == g.enabledFeatures
  {
    ResolvedOrganizationGrant(c.content.roles, o);
    match Resolve(c.content.roles, o)
    case Some(g) => g.enabledFeatures
    case None => None
  }

  /** `has_feature_enabled`: the resolved grant lists the flag. */
  function HasFeatureEnabled(c: Claim, o: Id, f: FeatureFlag): (b: bool)
    requires o.kind == OrganizationKind && WellKindedRoles(c.content.roles)
    ensures b <==> exists g :: Resolve(c.content.roles, o) == Some(g) &&
                              g.enabledFeatures.Some? && f in g.enabledFeatures.value
  {
    match EnabledFeatures(c, o)
    case Some(fs) => if fs != [] then f in fs else false
    case None => false
  }

  /** `encryption_key_id`: the resolved organization grant's key id, or None without a grant. */
  function EncryptionKeyId(c: Claim, o: Id): (r: Option<string>)
    requires o.kind == OrganizationKind && WellKindedRoles(c.content.roles)
    ensures Resolve(c.content.roles, o).None? ==> r.None?
    ensures forall g :: Resolve(c.content.roles, o) == Some(g) ==> g.OrganizationRole? && r == g.encryptionKeyId
  {
    ResolvedOrganizationGrant(c.content.roles, o);
    match Resolve(c.content.roles, o)
    case Some(g) => g.encryptionKeyId
    case None => None
  }

  // ---------------------------------------------------------------------
  // Projections by grant type
  // ---------------------------------------------------------------------

  /** The grants of one type, in order. */
  function OfType(roles: seq<Role>, t: PennsieveRole): (r: seq<Role>)
    ensures |r| <= |roles|
    ensures forall g :: g in r <==> g in roles && g.Tag() == t
  {
    if roles == [] then []
    else
      assert roles == [roles[0]] + roles[1..];
      (if roles[0].Tag() == t then [roles[0]] else []) + OfType(roles[1..], t)
  }

  /** Filtering by type distributes over concatenation, so it keeps the grants' order. */
  lemma {:induction false} OfTypeAppend(a: seq<Role>, b: seq<Role>, t: PennsieveRole)
    ensures OfType(a + b, t) == OfType(a, t) + OfType(b, t)
  {
    if a != [] {
      OfTypeAppend(a[1..], b, t);
      assert (a + b)[0] == a[0] && (a + b)[1..] == a[1..] + b;
      var head := if a[0].Tag() == t then [a[0]] else [];
      assert OfType(a + b, t) == head + (OfType(a[1..], t) + OfType(b, t));
    } else {
      assert a + b == b;
    }
  }

  /** `_role_ids`: the ids of the grants of one type, in order. */
  function RoleIds(roles: seq<Role>, t: PennsieveRole): (r: seq<Id>)
    ensures |r| == |OfType(roles, t)|
    ensures forall x :: x in r <==> exists g :: g in roles && g.Tag() == t && g.id == x
  {
    var gs := OfType(roles, t);
    var r := seq(|gs|, k requires 0 <= k < |gs| => gs[k].id);
    assert forall x :: x in r ==> exists g :: g in roles && g.Tag() == t && g.id == x by {
      forall x | x in r ensures exists g :: g in roles && g.Tag() == t && g.id == x {
        var k :| 0 <= k < |r| && r[k] == x;
        assert gs[k] in gs;
      }
    }
    assert forall g :: g in roles && g.Tag() == t ==> g.id in r by {
      forall g | g in roles && g.Tag() == t ensures g.id in r {
        var k :| 0 <= k < |gs| && gs[k] == g;
        assert r[k] == g.id;
      }
    }
    r
  }

  /** `_role_node_ids`: the node ids of the grants of one type that have one, in order. */
  function RoleNodeIds(roles: seq<Role>, t: PennsieveRole): (r: seq<string>)
    ensures |r| <= |roles|
  {
    if roles == [] then [] else NodeIdOf(roles[0], t) + RoleNodeIds(roles[1..], t)
  }

  /** The node id a grant contributes to `_role_node_ids`: none unless it has the type and a node id. */
  function NodeIdOf(g: Role, t: PennsieveRole): (r: seq<string>)
    ensures |r| <= 1 && (r != [] <==> g.Tag() == t && g.nodeId.Some?)
  {
    if g.Tag() == t && g.nodeId.Some? then [g.nodeId.value] else []
  }

  /** A node id is listed exactly when some grant of the type carries it. */
  lemma {:induction false} RoleNodeIdsMember(roles: seq<Role>, t: PennsieveRole, s: string)
    ensures s in RoleNodeIds(roles, t) <==> exists g :: g in roles && g.Tag() == t && g.nodeId == Some(s)
  {
    if roles != [] {
      RoleNodeIdsMember(roles[1..], t, s);
      assert roles == [roles[0]] + roles[1..];
    }
  }

  /** Node ids of a concatenation are the node ids of each part, in order. */
  lemma {:induction false} RoleNodeIdsAppend(a: seq<Role>, b: seq<Role>, t: PennsieveRole)
    ensures RoleNodeIds(a + b, t) == RoleNodeIds(a, t) + RoleNodeIds(b, t)
  {
    if a != [] {
      RoleNodeIdsAppend(a[1..], b, t);
      assert (a + b)[0] == a[0] && (a + b)[1..] == a[1..] + b;
      assert RoleNodeIds(a + b, t) == NodeIdOf(a[0], t) + (RoleNodeIds(a[1..], t) + RoleNodeIds(b, t));
    } else {
      assert a + b == b;
    }
  }

  /** One step of the scan that looks for the first grant of a type. */
  lemma OfTypeStep(roles: seq<Role>, t: PennsieveRole, i: nat)
    requires i < |roles|
    ensures OfType(roles[..i + 1], t) ==
              OfType(roles[..i], t) + (if roles[i].Tag() == t then [roles[i]] else [])
    ensures OfType(roles, t) == OfType(roles[..i], t) + OfType(roles[i..], t)
    ensures roles[i].Tag() == t ==> OfType(roles[i..], t)[0] == roles[i]
  {
    assert roles[..i + 1] == roles[..i] + [roles[i]];
    OfTypeAppend(roles[..i], [roles[i]], t);
    assert roles == roles[..i] + roles[i..];
    OfTypeAppend(roles[..i], roles[i..], t);
    assert roles[i..] == [roles[i]] + roles[i + 1..];
    OfTypeAppend([roles[i]], roles[i + 1..], t);
  }

  /**
   * `_head_role_id`: the id of the first grant of the type, or None; it is
   * the head of the list `_role_ids` returns.
   */
  method HeadRoleId(c: Claim, t: PennsieveRole) returns (r: Option<Id>)
    ensures OfType(c.content.roles, t) == [] ==> r == None
    ensures OfType(c.content.roles, t) != [] ==>
              r == Some(OfType(c.content.roles, t)[0].id) && r == Some(RoleIds(c.content.roles, t)[0])
  {
    var roles := c.content.roles;
    var i := 0;
    while i < |roles|
      invariant 0 <= i <= |roles|
      invariant OfType(roles[..i], t) == []
    {
      OfTypeStep(roles, t, i);
      if roles[i].Tag() == t {
        return Some(roles[i].id);
      }
      i := i + 1;
    }
    assert roles[..i] == roles;
    r := None;
  }

  /**
   * `_head_role_node_id`: the node id of the first grant of the type, or
   * None when there is no such grant or it has no node id.
   */
  method HeadRoleNodeId(c: Claim, t: PennsieveRole) returns (r: Option<string>)
    ensures OfType(c.content.roles, t) == [] ==> r == None
    ensures OfType(c.content.roles, t) != [] ==> r == OfType(c.content.roles, t)[0].nodeId
  {
    var roles := c.content.roles;
    var i := 0;
    while i < |roles|
      invariant 0 <= i <= |roles|
      invariant OfType(roles[..i], t) == []
    {
      OfTypeStep(roles, t, i);
      if roles[i].Tag() == t {
        return roles[i].nodeId;
      }
      i := i + 1;
    }
    assert roles[..i] == roles;
    r := None;
  }

  /** The grant `organization_node_id` looks for: an organization grant whose id equals the query. */
  predicate IsOrganizationGrantFor(g: Role, o: Id) {
    g.Tag() == OrganizationRoleTag && Eq(g.id, o)
  }

  /**
   * `organization_node_id`: the node id of the first organization grant
   * whose id equals the query (a "*" grant does not count), or None.
   */
  method OrganizationNodeId(c: Claim, o: Id) returns (r: Option<string>)
    ensures (forall j :: 0 <= j < |c.content.roles| ==> !IsOrganizationGrantFor(c.content.roles[j], o)) ==> r == None
    ensures (exists j :: 0 <= j < |c.content.roles| && IsOrganizationGrantFor(c.content.roles[j], o)) ==>
              exists j :: 0 <= j < |c.content.roles| && IsOrganizationGrantFor(c.content.roles[j], o) &&
                          (forall k :: 0 <= k < j ==> !IsOrganizationGrantFor(c.content.roles[k], o)) &&
                          r == c.content.roles[j].nodeId
  {
    var roles := c.content.roles;
    var i := 0;
    while i < |roles|
      invariant 0 <= i <= |roles|
      invariant forall k :: 0 <= k < i ==> !IsOrganizationGrantFor(roles[k], o)
    {
      if roles[i].Tag() == OrganizationRoleTag && roles[i].id.kind == o.kind && roles[i].id.id == o.id {
        return roles[i].nodeId;
      }
      i := i + 1;
    }
    r := None;
  }

  // ---------------------------------------------------------------------
  // Lifetime and kind
  // ---------------------------------------------------------------------

  /** `is_valid`: the time left until expiry, `now - exp`, is negative. */
  function IsValid(c: Claim, now: int): (b: bool)
    ensures b <==> now < c.exp
  {
    now - c.exp < 0
  }

  /** `from_claim_type`: a claim that expires `seconds` after `now`; `iat` is the class default. */
  function FromClaimType(content: ClaimType, seconds: int, now: int, defaultIat: int): (c: Claim)
    ensures c.content == content && c.iat == defaultIat
  {
    Claim(content, now + seconds, defaultIat)
  }

  /** A fresh claim is valid exactly until its lifetime has passed; afterwards it stays invalid. */
  lemma FromClaimTypeValidity(content: ClaimType, seconds: int, now: int, defaultIat: int, t: int)
    ensures IsValid(FromClaimType(content, seconds, now, defaultIat), t) <==> t < now + seconds
    ensures forall t' :: t' <= t && IsValid(FromClaimType(content, seconds, now, defaultIat), t) ==>
              IsValid(FromClaimType(content, seconds, now, defaultIat), t')
  {
  }

  /** A ten-second claim is valid when issued; one that expired a second ago is not. */
  lemma FromClaimTypeExamples(content: ClaimType, now: int, defaultIat: int)
    ensures IsValid(FromClaimType(content, 10, now, defaultIat), now)
    ensures !IsValid(FromClaimType(content, -1, now, defaultIat), now)
  {
    FromClaimTypeValidity(content, 10, now, defaultIat, now);
    FromClaimTypeValidity(content, -1, now, defaultIat, now);
  }

  /** `is_user_claim`. */
  function IsUserClaim(c: Claim): (b: bool)
    ensures b <==> exists roles, id, cognito, nodeId :: c.content == UserClaim(roles, id, cognito, nodeId)
  {
    c.content.UserClaim?
  }

  /** `is_service_claim`. */
  function IsServiceClaim(c: Claim): (b: bool)
    ensures b <==> c.content == ServiceClaim(c.content.roles)
  {
    c.content.ServiceClaim?
  }

  /** Every claim is exactly one of the two kinds. */
  lemma ExactlyOneKind(c: Claim)
    ensures IsUserClaim(c) != IsServiceClaim(c)
  {
  }

  // ---------------------------------------------------------------------
  // Decoding a token payload
  // ---------------------------------------------------------------------

  /**
   * `cognito_session_from_data`: a dict whose "type" is a session type
   * value becomes a session; a dict with another "type" and anything that is
   * not a dict become None; a dict without "type" raises.
   */
  function CognitoSessionFromData(j: Json): (r: Result<Option<CognitoSession>, Error>)
    ensures !j.JObject? ==> r == Success(None)
    ensures j.JObject? && Get(j.members, "type") == None ==> r == Failure(MissingKey("type"))
    ensures j.JObject? && Get(j.members, "type").Some? &&
            (forall t :: Get(j.members, "type") == Some(JStr(t)) ==> ParseCognitoSessionType(t).None?) ==>
              r == Success(None)
    ensures forall st: CognitoSessionType, id ::
              j.JObject? && Get(j.members, "type") == Some(JStr(st.Value())) &&
              Get(j.members, "id") == Some(JStr(id)) ==>
                r == Success(Some(CognitoSession(id, st)))
    ensures forall s: CognitoSession :: r == Success(Some(s)) ==>
              j.JObject? && Get(j.members, "type") == Some(JStr(s.sessionType.Value())) &&
              Get(j.members, "id") == Some(JStr(s.id))
  {
    match j
    case JObject(ms) =>
      (match Get(ms, "type")
       case None => Failure(MissingKey("type"))
       case Some(JStr(t)) =>
         (match ParseCognitoSessionType(t)
          case None => Success(None)
          case Some(st) =>
            (match Get(ms, "id")
             case None => Failure(MissingKey("id"))
             case Some(JStr(id)) => Success(Some(CognitoSession(id, st)))
             case Some(_) => Failure(InvalidValue("id"))))
       case Some(_) => Success(None))
    case _ => Success(None)
  }

  /** An unknown session type gives no session rather than an error. */
  lemma CognitoSessionUnknownType()
    ensures CognitoSessionFromData(JObject([Member("id", JStr("u")), Member("type", JStr("invalid"))])) == Success(None)
  {
    var ms := [Member("id", JStr("u")), Member("type", JStr("invalid"))];
    GetUnique(ms, 1);
    assert ParseCognitoSessionType("invalid") == None;
  }

  /** A session dict without a type raises. */
  lemma CognitoSessionMissingType()
    ensures CognitoSessionFromData(JObject([Member("id", JStr("u"))])) == Failure(MissingKey("type"))
  {
    assert !HasKey([Member("id", JStr("u"))], "type");
  }

  /** A browser session dict decodes to a browser session. */
  lemma CognitoSessionBrowser()
    ensures CognitoSessionFromData(JObject([Member("id", JStr("u")), Member("type", JStr("browser"))])) ==
            Success(Some(CognitoSession("u", Browser)))
  {
    var ms := [Member("id", JStr("u")), Member("type", JStr("browser"))];
    GetUnique(ms, 0);
    GetUnique(ms, 1);
  }

  /** The `cognito` field: absent or null stays None; otherwise the session decoder applies. */
  function DecodeCognito(ms: seq<Member>): Result<Option<CognitoSession>, Error> {
    match Get(ms, "cognito")
    case None => Success(None)
    case Some(JNull) => Success(None)
    case Some(j) => CognitoSessionFromData(j)
  }

  /** The `roles` field, required in both claim kinds. */
  function DecodeRoles(ms: seq<Member>): (r: Result<seq<Role>, Error>)
    ensures r.Success? ==> forall j :: 0 <= j < |r.value| ==> r.value[j].WellKinded() && WellFormed(r.value[j].id)
  {
    match Get(ms, "roles")
    case None => Failure(MissingKey("roles"))
    case Some(j) =>
      var r := RoleFromDict(j);
      assert r.Success? && j.JArray? ==> forall k :: 0 <= k < |r.value| ==> RoleFromJson(j.elems[k]) == Success(r.value[k]);
      r
  }

  function UserClaimFromMembers(ms: seq<Member>): (r: Result<ClaimType, Error>)
    ensures r.Success? ==> r.value.UserClaim? && WellKindedRoles(r.value.roles)
  {
    var roles :- DecodeRoles(ms);
    var id :- match Get(ms, "id")
              case None => Failure(MissingKey("id"))
              case Some(JInt(n)) => Success(n)
              case Some(_) => Failure(InvalidValue("id"));
    var cognito :- DecodeCognito(ms);
    var nodeId :- DecodeOptionalString(ms, "node_id");
    Success(UserClaim(roles, id, cognito, nodeId))
  }

  function ServiceClaimFromMembers(ms: seq<Member>): (r: Result<ClaimType, Error>)
    ensures r.Success? ==> r.value.ServiceClaim? && WellKindedRoles(r.value.roles)
  {
    var roles :- DecodeRoles(ms);
    Success(ServiceClaim(roles))
  }

  /**
   * `claim_from_dict`: "user_claim" and "service_claim" select the claim
   * kind; any other "type" is rejected, and a missing one raises.
   */
  function ClaimTypeFromMembers(ms: seq<Member>): (r: Result<ClaimType, Error>)
    ensures r.Success? ==> Get(ms, "type") == Some(JStr(if r.value.UserClaim? then "user_claim" else "service_claim"))
    ensures r.Success? ==> WellKindedRoles(r.value.roles)
    ensures Get(ms, "type") == None ==> r == Failure(MissingKey("type"))
    ensures Get(ms, "type").Some? &&
            (forall s :: Get(ms, "type") == Some(JStr(s)) ==> s != "user_claim" && s != "service_claim") ==>
              r == Failure(InvalidClaimType)
  {
    match Get(ms, "type")
    case None => Failure(MissingKey("type"))
    case Some(JStr(t)) =>
      (match t
       case "user_claim" => UserClaimFromMembers(ms)
       case "service_claim" => ServiceClaimFromMembers(ms)
       case _ => Failure(InvalidClaimType))
    case Some(_) => Failure(InvalidClaimType)
  }

  /** A Unix timestamp field; `fromtimestamp` rejects anything but a number. */
  function DecodeTimestamp(v: Json, key: string): (r: Result<int, Error>)
    ensures r.Success? <==> v.JInt?
  {
    match v
    case JInt(n) => Success(n)
    case _ => Failure(InvalidValue(key))
  }

  /**
   * `Claim.from_dict`: both timestamps must be present; they are taken out
   * and the rest of the payload is the claim's content.
   */
  function ClaimFromPayload(ms: seq<Member>): (r: Result<Claim, Error>)
    ensures !HasKey(ms, "exp") || !HasKey(ms, "iat") ==> r == Failure(MissingTimestamps)
    ensures r.Success? ==>
              Get(ms, "exp") == Some(JInt(r.value.exp)) && Get(ms, "iat") == Some(JInt(r.value.iat)) &&
              ClaimTypeFromMembers(Remove(Remove(ms, "exp"), "iat")) == Success(r.value.content)
  {
    if !HasKey(ms, "exp") || !HasKey(ms, "iat") then Failure(MissingTimestamps)
    else
      var exp :- DecodeTimestamp(Get(ms, "exp").value, "exp");
      var iat :- DecodeTimestamp(Get(ms, "iat").value, "iat");
      var content :- ClaimTypeFromMembers(Remove(Remove(ms, "exp"), "iat"));
      Success(Claim(content, exp, iat))
  }

  /** `Claim.from_dict`'s result at each of its steps, once both timestamps are present. */
  lemma ClaimFromPayloadSteps(ms: seq<Member>)
    requires HasKey(ms, "exp") && HasKey(ms, "iat")
    ensures !Get(ms, "exp").value.JInt? ==> ClaimFromPayload(ms) == Failure(InvalidValue("exp"))
    ensures Get(ms, "exp").value.JInt? && !Get(ms, "iat").value.JInt? ==>
              ClaimFromPayload(ms) == Failure(InvalidValue("iat"))
    ensures Get(ms, "exp").value.JInt? && Get(ms, "iat").value.JInt? ==>
              var content := ClaimTypeFromMembers(Remove(Remove(ms, "exp"), "iat"));
              ClaimFromPayload(ms) ==
                if content.Failure? then Failure(content.error)
                else Success(Claim(content.value, Get(ms, "exp").value.n, Get(ms, "iat").value.n))
  {
  }

  /** A decoded claim's grants are well kinded, so the organization queries apply to it. */
  lemma DecodedRolesWellKinded(ms: seq<Member>)
    requires ClaimFromPayload(ms).Success?
    ensures WellKindedRoles(ClaimFromPayload(ms).value.content.roles)
  {
  }

  /**
   * `from_dict` on the caller's dict: `exp` is popped before it is
   * converted, and `iat` after, so a bad `exp` leaves `iat` in place and a
   * missing timestamp leaves the dict untouched.
   */
  method FromDict(data: JsonDict) returns (r: Result<Claim, Error>)
    requires data.Valid()
    modifies data
    ensures data.Valid()
    ensures r == ClaimFromPayload(old(data.fields))
    ensures !HasKey(old(data.fields), "exp") || !HasKey(old(data.fields), "iat") ==>
              data.fields == old(data.fields)
    ensures HasKey(old(data.fields), "exp") && HasKey(old(data.fields), "iat") ==>
              if Get(old(data.fields), "exp").value.JInt?
              then data.fields == Remove(Remove(old(data.fields), "exp"), "iat")
              else data.fields == Remove(old(data.fields), "exp")
  {
    if !HasKey(data.fields, "exp") || !HasKey(data.fields, "iat") {
      return Failure(MissingTimestamps);
    }
    ghost var before := data.fields;
    ClaimFromPayloadSteps(before);
    RemoveKeys(before, "exp", "iat");
    assert HasKey(Remove(before, "exp"), "iat") by {
      var k :| 0 <= k < |before| && before[k].key == "iat";
      RemoveKeeps(before, "exp", k);
    }
    var e := data.Pop("exp");
    if !e.JInt? {
      return Failure(InvalidValue("exp"));
    }
    var i := data.Pop("iat");
    GetRemoveOther(before, "exp", "iat");
    if !i.JInt? {
      return Failure(InvalidValue("iat"));
    }
    assert data.fields == Remove(Remove(before, "exp"), "iat");
    assert Get(before, "exp") == Some(e) && Get(before, "iat") == Some(i);
    var content := ClaimTypeFromMembers(data.fields);
    if content.Failure? {
      return Failure(content.error);
    }
    r := Success(Claim(content.value, e.n, i.n));
  }

  /** Removing one key keeps a member with another key. */
  lemma {:induction false} RemoveKeeps(ms: seq<Member>, k: string, i: nat)
    requires i < |ms| && ms[i].key != k
    ensures HasKey(Remove(ms, k), ms[i].key)
  {
    if i == 0 {
      assert Remove(ms, k)[0] == ms[0];
    } else {
      assert ms[1..][i - 1] == ms[i];
      RemoveKeeps(ms[1..], k, i - 1);
      var r := Remove(ms[1..], k);
      var j :| 0 <= j < |r| && r[j].key == ms[i].key;
      if ms[0].key != k {
        assert Remove(ms, k)[j + 1] == r[j];
      }
    }
  }

  /** Looking up one key is unaffected by removing another. */
  lemma {:induction false} GetRemoveOther(ms: seq<Member>, k: string, k': string)
    requires k != k'
    ensures Get(Remove(ms, k), k') == Get(ms, k')
  {
    if ms != [] {
      GetRemoveOther(ms[1..], k, k');
      if ms[0].key != k {
        assert Remove(ms, k) == [ms[0]] + Remove(ms[1..], k);
        assert ([ms[0]] + Remove(ms[1..], k))[1..] == Remove(ms[1..], k);
      }
    }
  }

  // ---------------------------------------------------------------------
  // Encoding a claim
  // ---------------------------------------------------------------------

  function CognitoToJson(o: Option<CognitoSession>): (r: Json)
    ensures Utils.Cleanable(r) && !r.JArray?
  {
    match o
    case None => JNull
    case Some(s) => JObject([Member("id", JStr(s.id)), Member("type", JStr(s.sessionType.Value()))])
  }

  /** The JSON list of a claim's grants. */
  function RolesToJson(roles: seq<Role>): (r: seq<Json>)
    ensures |r| == |roles|
    ensures forall k :: 0 <= k < |r| ==> r[k] == RoleToJson(roles[k]) && r[k].JObject? && Utils.Cleanable(r[k])
  {
    seq(|roles|, k requires 0 <= k < |roles| => RoleToJson(roles[k]))
  }

  /** `to_json` of a claim's content: its fields in declaration order, None as null. */
  function ClaimTypeToJson(ct: ClaimType): (r: Json)
    ensures r.JObject? && Utils.Cleanable(r)
    ensures !HasKey(r.members, "exp") && !HasKey(r.members, "iat")
  {
    var roles := Member("roles", JArray(RolesToJson(ct.roles)));
    match ct
    case UserClaim(_, id, cognito, nodeId) =>
      JObject([roles, Member("id", JInt(id)), Member("type", JStr("user_claim")),
               Member("cognito", CognitoToJson(cognito)), Member("node_id", OptionalStringToJson(nodeId))])
    case ServiceClaim(_) =>
      JObject([roles, Member("type", JStr("service_claim"))])
  }

  /**
   * The payload `encode` signs: the content's JSON cleaned of nulls, with
   * `exp` and then `iat` added.
   */
  function Payload(c: Claim): (ms: seq<Member>)
    ensures UniqueKeys(ms)
  {
    var content := ClaimTypeToJson(c.content).members;
    Utils.CleanMembersUnique(content);
    var cleaned := Utils.CleanMembers(content);
    AssignKeepsUnique(cleaned, "exp", JInt(c.exp));
    AssignKeepsUnique(Assign(cleaned, "exp", JInt(c.exp)), "iat", JInt(c.iat));
    Assign(Assign(cleaned, "exp", JInt(c.exp)), "iat", JInt(c.iat))
  }

  /**
   * The dict `encode` builds before signing: the content's JSON, cleaned in
   * place by `clean_dict`, then the two timestamps stored into it.
   */
  method EncodePayload(c: Claim) returns (data: JsonDict)
    ensures fresh(data) && data.Valid()
    ensures data.fields == Payload(c)
  {
    var content := ClaimTypeToJson(c.content).members;
    data := new JsonDict(content);
    var _ := Utils.CleanDict(data);
    data.Put("exp", JInt(c.exp));
    data.Put("iat", JInt(c.iat));
  }

  // ---------------------------------------------------------------------
  // Round trip
  // ---------------------------------------------------------------------

  /** Grants whose ids are well formed and of the declared subclass. */
  predicate WellFormedRoles(roles: seq<Role>) {
    forall j :: 0 <= j < |roles| ==> roles[j].WellKinded() && WellFormed(roles[j].id)
  }

  /** The grants as they survive the trip through JSON. */
  function TransmittedRoles(roles: seq<Role>): (r: seq<Role>)
    ensures |r| == |roles| && forall j :: 0 <= j < |roles| ==> r[j] == Transmitted(roles[j])
  {
    seq(|roles|, j requires 0 <= j < |roles| => Transmitted(roles[j]))
  }

  /** The claim content as it survives the trip through JSON. */
  function TransmittedContent(ct: ClaimType): ClaimType {
    match ct
    case UserClaim(roles, id, cognito, nodeId) => UserClaim(TransmittedRoles(roles), id, cognito, nodeId)
    case ServiceClaim(roles) => ServiceClaim(TransmittedRoles(roles))
  }

  /** The cleaned grant list decodes back to the transmitted grants. */
  lemma RolesRoundTrip(roles: seq<Role>)
    requires WellFormedRoles(roles)
    ensures var es := RolesToJson(roles);
            (forall k :: 0 <= k < |es| ==> !es[k].JArray? && Utils.Cleanable(es[k])) &&
            RoleFromDict(Utils.CleanValue(JArray(es))) == Success(TransmittedRoles(roles))
  {
    var es := RolesToJson(roles);
    Utils.CleanElementsShape(es);
    var cleaned := Utils.CleanElements(es);
    forall k | 0 <= k < |es| ensures RoleFromJson(cleaned[k]) == Success(Transmitted(roles[k])) {
      RoleRoundTrip(roles[k]);
    }
    var r := RolesFromJson(cleaned);
    assert r.Success?;
    assert r.value == TransmittedRoles(roles);
  }

  /** The cleaned `roles` field decodes back to the transmitted grants. */
  lemma CleanedRoles(ms: seq<Member>, roles: seq<Role>)
    requires Utils.CleanableMembers(ms) && UniqueKeys(ms) && |ms| > 0
    requires WellFormedRoles(roles) && ms[0] == Member("roles", JArray(RolesToJson(roles)))
    ensures DecodeRoles(Utils.CleanMembers(ms)) == Success(TransmittedRoles(roles))
  {
    RolesRoundTrip(roles);
    GetUnique(ms, 0);
    Utils.CleanMembersGet(ms, "roles");
  }

  /** An object whose `type` names a claim kind is decoded as that kind. */
  lemma DispatchByClaimType(cs: seq<Member>, user: bool)
    requires Get(cs, "type") == Some(JStr(if user then "user_claim" else "service_claim"))
    ensures ClaimTypeFromMembers(cs) == if user then UserClaimFromMembers(cs) else ServiceClaimFromMembers(cs)
  {
  }

  /** A session encodes as an object that the session decoder reads back. */
  lemma CognitoRoundTrip(s: CognitoSession)
    ensures CognitoSessionFromData(CognitoToJson(Some(s))) == Success(Some(s))
  {
    var ms := CognitoToJson(Some(s)).members;
    GetUnique(ms, 0);
    GetUnique(ms, 1);
    CognitoSessionTypeValuesExact(s.sessionType.Value(), s.sessionType);
  }

  /** An encoded session holds no null. */
  lemma CognitoNullFree(s: CognitoSession)
    ensures Utils.NullFree(CognitoToJson(Some(s))) && !CognitoToJson(Some(s)).JNull?
  {
  }

  /** The cleaned `cognito` field decodes back to the session. */
  lemma CleanedCognito(ms: seq<Member>, o: Option<CognitoSession>)
    requires Utils.CleanableMembers(ms) && UniqueKeys(ms) && |ms| > 3
    requires ms[3] == Member("cognito", CognitoToJson(o))
    ensures DecodeCognito(Utils.CleanMembers(ms)) == Success(o)
  {
    if o.None? {
      CleanedNull(ms, 3, "cognito");
    } else {
      CognitoNullFree(o.value);
      CleanedField(ms, 3, "cognito", CognitoToJson(o));
      CognitoRoundTrip(o.value);
    }
  }

  /** A user claim's cleaned content decodes back to the transmitted content. */
  lemma UserContentRoundTrip(ct: ClaimType)
    requires ct.UserClaim? && WellFormedRoles(ct.roles)
    ensures ClaimTypeFromMembers(Utils.CleanMembers(ClaimTypeToJson(ct).members)) == Success(TransmittedContent(ct))
  {
    var ms := ClaimTypeToJson(ct).members;
    var cs := Utils.CleanMembers(ms);
    CleanedRoles(ms, ct.roles);
    CleanedField(ms, 1, "id", JInt(ct.id));
    CleanedField(ms, 2, "type", JStr("user_claim"));
    CleanedCognito(ms, ct.cognito);
    CleanedOptional(ms, 4, "node_id", ct.nodeId);
    DispatchByClaimType(cs, true);
    UserClaimOfFields(cs, TransmittedRoles(ct.roles), ct.id, ct.cognito, ct.nodeId);
  }

  /** A user claim is assembled from fields that each decode. */
  lemma UserClaimOfFields(cs: seq<Member>, roles: seq<Role>, id: int, cognito: Option<CognitoSession>, nodeId: Option<string>)
    requires DecodeRoles(cs) == Success(roles) && Get(cs, "id") == Some(JInt(id))
    requires DecodeCognito(cs) == Success(cognito) && DecodeOptionalString(cs, "node_id") == Success(nodeId)
    ensures UserClaimFromMembers(cs) == Success(UserClaim(roles, id, cognito, nodeId))
  {
  }

  /** A service claim's cleaned content decodes back to the transmitted content. */
  lemma ServiceContentRoundTrip(ct: ClaimType)
    requires ct.ServiceClaim? && WellFormedRoles(ct.roles)
    ensures ClaimTypeFromMembers(Utils.CleanMembers(ClaimTypeToJson(ct).members)) == Success(TransmittedContent(ct))
  {
    var ms := ClaimTypeToJson(ct).members;
    var cs := Utils.CleanMembers(ms);
    CleanedRoles(ms, ct.roles);
    CleanedField(ms, 1, "type", JStr("service_claim"));
    DispatchByClaimType(cs, false);
  }

  /** The payload holds the cleaned content followed by the two timestamps. */
  lemma PayloadShape(c: Claim)
    ensures var content := ClaimTypeToJson(c.content).members;
            Utils.CleanableMembers(content) &&
            Payload(c) == Utils.CleanMembers(content) + [Member("exp", JInt(c.exp)), Member("iat", JInt(c.iat))]
  {
    var content := ClaimTypeToJson(c.content).members;
    var cleaned := Utils.CleanMembers(content);
    Utils.CleanMembersKeys(content, "exp");
    Utils.CleanMembersKeys(content, "iat");
    AssignShape(cleaned, "exp", JInt(c.exp));
    var withExp := cleaned + [Member("exp", JInt(c.exp))];
    GetAppend(cleaned, [Member("exp", JInt(c.exp))], "iat");
    AssignShape(withExp, "iat", JInt(c.iat));
  }

  /** Taking the timestamps out of the payload leaves the cleaned content. */
  lemma PayloadTimestamps(c: Claim)
    ensures var content := ClaimTypeToJson(c.content).members;
            Utils.CleanableMembers(content) &&
            Get(Payload(c), "exp") == Some(JInt(c.exp)) && Get(Payload(c), "iat") == Some(JInt(c.iat)) &&
            Remove(Remove(Payload(c), "exp"), "iat") == Utils.CleanMembers(content)
  {
    PayloadShape(c);
    var content := ClaimTypeToJson(c.content).members;
    var cleaned := Utils.CleanMembers(content);
    var tail := [Member("exp", JInt(c.exp)), Member("iat", JInt(c.iat))];
    Utils.CleanMembersKeys(content, "exp");
    Utils.CleanMembersKeys(content, "iat");
    GetAppend(cleaned, tail, "exp");
    GetAppend(cleaned, tail, "iat");
    RemoveAppend(cleaned, tail, "exp");
    RemoveAbsent(cleaned, "exp");
    var withIat := cleaned + [Member("iat", JInt(c.iat))];
    assert Remove(tail, "exp") == [Member("iat", JInt(c.iat))];
    RemoveAppend(cleaned, [Member("iat", JInt(c.iat))], "iat");
    RemoveAbsent(cleaned, "iat");
  }

  /**
   * Encoding a claim with well-formed grants and decoding the payload again
   * gives the claim back, except that dataset and workspace grants lose
   * their wildcard text.
   */
  lemma ClaimRoundTrip(c: Claim)
    requires WellFormedRoles(c.content.roles)
    ensures ClaimFromPayload(Payload(c)) == Success(Claim(TransmittedContent(c.content), c.exp, c.iat))
  {
    PayloadTimestamps(c);
    if c.content.UserClaim? {
      UserContentRoundTrip(c.content);
    } else {
      ServiceContentRoundTrip(c.content);
    }
  }

  /** The claim used to show the lost wildcard: a user with a "*" dataset owner grant. */
  function WildcardUser(id: int, exp: int, iat: int): Claim {
    Claim(UserClaim([WildcardOwner()], id, None, None), exp, iat)
  }

  /** What the wildcard user's claim decodes to after travelling as a token. */
  lemma WildcardUserDecoded(id: int, exp: int, iat: int)
    ensures ClaimFromPayload(Payload(WildcardUser(id, exp, iat))) ==
              Success(Claim(UserClaim([DatasetRole(Owner, None, Id(DatasetKind, -1, ""), None)], id, None, None), exp, iat))
  {
    var c := WildcardUser(id, exp, iat);
    assert !IsDigit('*');
    assert WellFormedRoles(c.content.roles);
    ClaimRoundTrip(c);
    assert TransmittedRoles([WildcardOwner()]) == [DatasetRole(Owner, None, Id(DatasetKind, -1, ""), None)];
  }

  /** Before the trip, the wildcard user may view dataset 5's files. */
  lemma WildcardUserViews(id: int, exp: int, iat: int)
    ensures HasScopedAccess(WildcardUser(id, exp, iat), NewId(DatasetKind, IntValue(5)), Dataset(ViewFiles))
  {
    assert !IsDigit('*');
    ResolveWildcardFallback([WildcardOwner()], NewId(DatasetKind, IntValue(5)), 0);
  }

  /** A dataset -1 grant gives no access to dataset 5. */
  lemma MinusOneGrantUseless(c: Claim)
    requires c.content.roles == [DatasetRole(Owner, None, Id(DatasetKind, -1, ""), None)]
    ensures !HasScopedAccess(c, NewId(DatasetKind, IntValue(5)), Dataset(ViewFiles))
  {
    ResolveNoneIff(c.content.roles, NewId(DatasetKind, IntValue(5)));
  }

  /**
   * A user holding a "*" dataset owner grant may view the files of dataset
   * 5, and after the claim travels as a token it may not.
   */
  lemma DatasetWildcardLostInToken(id: int, exp: int, iat: int)
    ensures var d := NewId(DatasetKind, IntValue(5));
            HasScopedAccess(WildcardUser(id, exp, iat), d, Dataset(ViewFiles)) &&
            ClaimFromPayload(Payload(WildcardUser(id, exp, iat))).Success? &&
            !HasScopedAccess(ClaimFromPayload(Payload(WildcardUser(id, exp, iat))).value, d, Dataset(ViewFiles))
  {
    WildcardUserViews(id, exp, iat);
    WildcardUserDecoded(id, exp, iat);
    MinusOneGrantUseless(ClaimFromPayload(Payload(WildcardUser(id, exp, iat))).value);
  }
}
