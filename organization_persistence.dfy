/**
 * The organization store: organizations, their single SSO configuration and
 * the permission grants that decide which organizations a user may list.
 *
 * The tables are described twice: as a value (`StoreState`) with pure
 * transitions and queries that specify the store, and as the class
 * `OrganizationStore` whose methods update its fields in place and are proved
 * against those transitions and queries.
 */
module OrganizationPersistence {
  import opened Wrappers
  import opened Rows
  import opened Config

  // ---------------------------------------------------------------------------
  // Grants and queries

  /** The organization- and workspace-level permission types. */
  datatype PermissionType =
    | OrganizationAdmin
    | OrganizationEditor
    | OrganizationReader
    | WorkspaceAdmin
    | WorkspaceEditor
    | WorkspaceReader

  /** What a grant is on: exactly one organization or one workspace. */
  datatype Target = OnOrganization(organizationId: Uuid) | OnWorkspace(workspaceId: Uuid)

  datatype Permission = Permission(permissionId: Uuid, userId: Uuid, target: Target, permissionType: PermissionType)

  /** A paginated request for the resources of one user. */
  datatype ResourcesByUserQueryPaginated =
    ResourcesByUserQueryPaginated(userId: Uuid, includeDeleted: bool, pageSize: nat, rowOffset: nat)

  /**
   * The content of the store. Stored organizations carry no SSO realm: the
   * realm lives in the SSO configuration and is joined in when reading.
   * `creationOrder` lists organization ids in insertion order, which is the
   * order listings are returned in.
   */
  datatype StoreState = StoreState(
    organizations: map<Uuid, Organization>,
    creationOrder: seq<Uuid>,
    ssoConfigs: map<Uuid, SsoConfig>,
    permissions: seq<Permission>)

  const EmptyStore := StoreState(map[], [], map[], [])

  /**
   * The store's integrity constraints: each organization is keyed by its own
   * id and stored without a realm; an SSO configuration is keyed by the
   * organization it belongs to, which exists (so there is at most one per
   * organization); the creation order lists distinct organizations, as many
   * as there are, so it lists every organization exactly once
   * (`CreationOrderCoversOrganizations`).
   */
  predicate WellFormed(st: StoreState) {
    && (forall id | id in st.organizations ::
          st.organizations[id].organizationId == Some(id) && st.organizations[id].ssoRealm == None)
    && (forall id | id in st.ssoConfigs :: id in st.organizations && st.ssoConfigs[id].organizationId == id)
    && (forall i | 0 <= i < |st.creationOrder| :: st.creationOrder[i] in st.organizations)
    && |st.creationOrder| == |st.organizations|
    && (forall i, j | 0 <= i < j < |st.creationOrder| :: st.creationOrder[i] != st.creationOrder[j])
  }

  /** The elements of a sequence without repetitions are as many as its length. */
  lemma {:induction false} DistinctElementsCount(xs: seq<Uuid>)
    requires forall i, j | 0 <= i < j < |xs| :: xs[i] != xs[j]
    ensures |set i | 0 <= i < |xs| :: xs[i]| == |xs|
  {
    if |xs| > 0 {
      var init := xs[..|xs| - 1];
      DistinctElementsCount(init);
      var elements := set i | 0 <= i < |xs| :: xs[i];
      var initElements := set i | 0 <= i < |init| :: init[i];
      assert elements == initElements + {xs[|xs| - 1]} by {
        forall x | x in elements
          ensures x in initElements + {xs[|xs| - 1]}
        {
          var i :| 0 <= i < |xs| && xs[i] == x;
          if i < |xs| - 1 {
            assert init[i] == x;
          }
        }
        forall x | x in initElements
          ensures x in elements
        {
          var i :| 0 <= i < |init| && init[i] == x;
          assert xs[i] == x;
        }
      }
      assert xs[|xs| - 1] !in initElements;
    }
  }

  /** In a well-formed store every organization appears in the creation order. */
  lemma CreationOrderCoversOrganizations(st: StoreState)
    requires WellFormed(st)
    ensures forall id | id in st.organizations :: id in st.creationOrder
  {
    var listed := set i | 0 <= i < |st.creationOrder| :: st.creationOrder[i];
    DistinctElementsCount(st.creationOrder);
    var keys := st.organizations.Keys;
    assert listed <= keys;
    assert listed * keys == listed && listed + keys == keys;
    assert |keys - listed| == 0;
    assert keys - listed == {};
    forall id | id in st.organizations
      ensures id in st.creationOrder
    {
      assert id in listed;
    }
  }

  // ---------------------------------------------------------------------------
  // Reads

  /**
   * getOrganization: absent for an unknown id; otherwise the stored
   * organization with its realm taken from its SSO configuration, if any.
   */
  function OrganizationView(st: StoreState, organizationId: Uuid): (r: Option<Organization>)
    requires WellFormed(st)
    ensures r.Some? <==> organizationId in st.organizations
    ensures r.Some? ==> r.value.organizationId == Some(organizationId)
    ensures r.Some? ==> r.value.(ssoRealm := None) == st.organizations[organizationId]
    ensures r.Some? ==>
              (r.value.ssoRealm.Some? <==> organizationId in st.ssoConfigs) &&
              (organizationId in st.ssoConfigs ==>
                 r.value.ssoRealm == Some(st.ssoConfigs[organizationId].keycloakRealm))
  {
    if organizationId !in st.organizations then None
    else
      var stored := st.organizations[organizationId];
      if organizationId in st.ssoConfigs then Some(stored.(ssoRealm := Some(st.ssoConfigs[organizationId].keycloakRealm)))
      else Some(stored)
  }

  /** getSsoConfigForOrganization: the organization's SSO configuration, if it has one. */
  function SsoConfigView(st: StoreState, organizationId: Uuid): (r: Option<SsoConfig>)
    requires WellFormed(st)
    ensures r.Some? <==> organizationId in st.ssoConfigs
    ensures r.Some? ==> r.value == st.ssoConfigs[organizationId]
    ensures r.Some? ==> r.value.organizationId == organizationId && organizationId in st.organizations
  {
    if organizationId in st.ssoConfigs then Some(st.ssoConfigs[organizationId]) else None
  }

  // ---------------------------------------------------------------------------
  // Writes, as transitions of the store's content

  /** createOrganization: a new row, stored without a realm, appended to the creation order. */
  function AfterCreateOrganization(st: StoreState, o: Organization): (r: StoreState)
    requires o.organizationId.Some? && o.organizationId.value !in st.organizations
    ensures WellFormed(st) ==> WellFormed(r)
    ensures r.ssoConfigs == st.ssoConfigs && r.permissions == st.permissions
    ensures r.creationOrder == st.creationOrder + [o.organizationId.value]
    ensures r.organizations.Keys == st.organizations.Keys + {o.organizationId.value}
    ensures forall id | id in st.organizations :: r.organizations[id] == st.organizations[id]
    ensures r.organizations[o.organizationId.value] == o.(ssoRealm := None)
  {
    var id := o.organizationId.value;
    st.(organizations := st.organizations[id := o.(ssoRealm := None)],
        creationOrder := st.creationOrder + [id])
  }

  /** createSsoConfig: attaches the configuration to its organization, which has none yet. */
  function AfterCreateSsoConfig(st: StoreState, cfg: SsoConfig): (r: StoreState)
    requires cfg.organizationId in st.organizations && cfg.organizationId !in st.ssoConfigs
    ensures WellFormed(st) ==> WellFormed(r)
    ensures r.organizations == st.organizations && r.creationOrder == st.creationOrder
    ensures r.permissions == st.permissions
    ensures r.ssoConfigs.Keys == st.ssoConfigs.Keys + {cfg.organizationId}
    ensures r.ssoConfigs[cfg.organizationId] == cfg
    ensures forall id | id in st.ssoConfigs :: r.ssoConfigs[id] == st.ssoConfigs[id]
  {
    st.(ssoConfigs := st.ssoConfigs[cfg.organizationId := cfg])
  }

  /**
   * The sparse merge of an update: each updatable field the patch sets
   * replaces the stored one, each field it leaves null keeps the stored one.
   * The id and the (joined, never stored) realm are not updatable.
   */
  function Merge(stored: Organization, patch: Organization): (r: Organization)
    ensures r.organizationId == stored.organizationId && r.ssoRealm == stored.ssoRealm
    ensures patch.name.Some? ==> r.name == patch.name
    ensures patch.name.None? ==> r.name == stored.name
    ensures patch.userId.Some? ==> r.userId == patch.userId
    ensures patch.userId.None? ==> r.userId == stored.userId
    ensures patch.email.Some? ==> r.email == patch.email
    ensures patch.email.None? ==> r.email == stored.email
    ensures patch.pba.Some? ==> r.pba == patch.pba
    ensures patch.pba.None? ==> r.pba == stored.pba
    ensures patch.orgLevelBilling.Some? ==> r.orgLevelBilling == patch.orgLevelBilling
    ensures patch.orgLevelBilling.None? ==> r.orgLevelBilling == stored.orgLevelBilling
  {
    stored.(
      name := if patch.name.Some? then patch.name else stored.name,
      userId := if patch.userId.Some? then patch.userId else stored.userId,
      email := if patch.email.Some? then patch.email else stored.email,
      pba := if patch.pba.Some? then patch.pba else stored.pba,
      orgLevelBilling := if patch.orgLevelBilling.Some? then patch.orgLevelBilling else stored.orgLevelBilling)
  }

  /** updateOrganization: merges the patch into the organization with the patch's id; no row, no change. */
  function AfterUpdateOrganization(st: StoreState, patch: Organization): (r: StoreState)
    requires patch.organizationId.Some?
    ensures WellFormed(st) ==> WellFormed(r)
    ensures patch.organizationId.value !in st.organizations ==> r == st
    ensures patch.organizationId.value in st.organizations ==>
              patch.organizationId.value in r.organizations &&
              r.organizations[patch.organizationId.value] == Merge(st.organizations[patch.organizationId.value], patch)
    ensures r.organizations.Keys == st.organizations.Keys
    ensures r.creationOrder == st.creationOrder && r.ssoConfigs == st.ssoConfigs && r.permissions == st.permissions
    ensures forall id | id in st.organizations && id != patch.organizationId.value ::
              r.organizations[id] == st.organizations[id]
  {
    var id := patch.organizationId.value;
    if id !in st.organizations then st
    else st.(organizations := st.organizations[id := Merge(st.organizations[id], patch)])
  }

  /** writePermission: records one more grant. */
  function AfterWritePermission(st: StoreState, p: Permission): (r: StoreState)
    ensures WellFormed(st) ==> WellFormed(r)
    ensures r.organizations == st.organizations && r.creationOrder == st.creationOrder
    ensures r.ssoConfigs == st.ssoConfigs
    ensures r.permissions == st.permissions + [p]
  {
    st.(permissions := st.permissions + [p])
  }

  // ---------------------------------------------------------------------------
  // Keyword matching

  /** ASCII lower-casing of one character. */
  function LowerChar(c: char): char {
    if 'A' <= c <= 'Z' then (c as int + 32) as char else c
  }

  function Lower(s: string): (r: string)
    ensures |r| == |s|
    ensures forall i | 0 <= i < |s| :: r[i] == LowerChar(s[i])
  {
    seq(|s|, i requires 0 <= i < |s| => LowerChar(s[i]))
  }

  /** `pattern` occurs in `text` starting at position `i`. */
  predicate OccursAt(text: string, pattern: string, i: int) {
    0 <= i && i + |pattern| <= |text| && text[i..i + |pattern|] == pattern
  }

  /** Substring search, scanning `text` from the left. */
  function Contains(text: string, pattern: string): (r: bool)
    ensures r <==> exists i :: OccursAt(text, pattern, i)
    decreases |text|
  {
    if |pattern| <= |text| && text[..|pattern|] == pattern then
      assert OccursAt(text, pattern, 0);
      true
    else if |text| == 0 then
      assert forall i :: !OccursAt(text, pattern, i);
      false
    else
      var r := Contains(text[1..], pattern);
      if r then
        var j :| OccursAt(text[1..], pattern, j);
        assert text[1..][j..j + |pattern|] == text[j + 1..j + 1 + |pattern|];
        assert OccursAt(text, pattern, j + 1);
        true
      else
        assert forall i :: !OccursAt(text, pattern, i) by {
          forall i | OccursAt(text, pattern, i)
            ensures false
          {
            assert i != 0;
            assert text[i..i + |pattern|] == text[1..][i - 1..i - 1 + |pattern|];
            assert OccursAt(text[1..], pattern, i - 1);
          }
        }
        false
  }

  /** A text in which the pattern's first character never appears does not contain the pattern. */
  lemma FirstCharAbsent(text: string, pattern: string)
    requires |pattern| > 0 && forall i | 0 <= i < |text| :: text[i] != pattern[0]
    ensures !Contains(text, pattern)
  {
    assert forall i | OccursAt(text, pattern, i) :: text[i..i + |pattern|][0] == text[i];
  }

  /**
   * The keyword filter: no keyword keeps everything; a keyword keeps the
   * organizations whose name contains it, ignoring letter case. An
   * organization without a name never matches a keyword.
   */
  predicate MatchesKeyword(name: Option<string>, keyword: Option<string>): (b: bool)
    ensures keyword.None? ==> b
    ensures keyword.Some? && name.None? ==> !b
  {
    keyword.None? || (name.Some? && Contains(Lower(name.value), Lower(keyword.value)))
  }

  // ---------------------------------------------------------------------------
  // Listing

  /** The user holds some grant, of any type, directly on the organization. */
  predicate HasOrganizationGrant(permissions: seq<Permission>, userId: Uuid, organizationId: Uuid): (b: bool)
    ensures b <==> exists p | p in permissions :: p.userId == userId && p.target == OnOrganization(organizationId)
  {
    exists i | 0 <= i < |permissions| ::
      permissions[i].userId == userId && permissions[i].target == OnOrganization(organizationId)
  }

  /** An organization the listing for `userId` and `keyword` shows. */
  predicate Visible(st: StoreState, userId: Uuid, keyword: Option<string>, organizationId: Uuid): (b: bool)
    ensures b ==> organizationId in st.organizations && HasOrganizationGrant(st.permissions, userId, organizationId)
    ensures keyword.None? ==>
              (b <==> organizationId in st.organizations && HasOrganizationGrant(st.permissions, userId, organizationId))
  {
    && organizationId in st.organizations
    && HasOrganizationGrant(st.permissions, userId, organizationId)
    && MatchesKeyword(st.organizations[organizationId].name, keyword)
  }

  /** The visible organizations among `ids`, in the order of `ids`. */
  function Listed(st: StoreState, userId: Uuid, keyword: Option<string>, ids: seq<Uuid>): (r: seq<Organization>)
    ensures |r| <= |ids|
  {
    if |ids| == 0 then []
    else
      var last := ids[|ids| - 1];
      var rest := Listed(st, userId, keyword, ids[..|ids| - 1]);
      if Visible(st, userId, keyword, last) then rest + [st.organizations[last]] else rest
  }

  /** listOrganizationsByUserId: the visible organizations in creation order. */
  function ListOrganizations(st: StoreState, userId: Uuid, keyword: Option<string>): (r: seq<Organization>)
    ensures |r| <= |st.creationOrder|
  {
    Listed(st, userId, keyword, st.creationOrder)
  }

  /** The page of `xs` that skips `offset` elements and keeps at most `limit`. */
  function Page<T>(xs: seq<T>, limit: nat, offset: nat): (r: seq<T>)
    ensures |r| == if offset >= |xs| then 0 else if limit < |xs| - offset then limit else |xs| - offset
    ensures forall i | 0 <= i < |r| :: r[i] == xs[offset + i]
  {
    var start := if offset < |xs| then offset else |xs|;
    var end := if offset + limit < |xs| then offset + limit else |xs|;
    xs[start..end]
  }

  /** listOrganizationsByUserIdPaginated: one page of the unpaginated listing. */
  function ListOrganizationsPaginated(
    st: StoreState, query: ResourcesByUserQueryPaginated, keyword: Option<string>): (r: seq<Organization>)
    ensures |r| <= query.pageSize
    ensures var total := |ListOrganizations(st, query.userId, keyword)|;
              |r| == if query.rowOffset >= total then 0
                     else if query.pageSize < total - query.rowOffset then query.pageSize
                     else total - query.rowOffset
    ensures forall i | 0 <= i < |r| ::
              query.rowOffset + i < |ListOrganizations(st, query.userId, keyword)| &&
              r[i] == ListOrganizations(st, query.userId, keyword)[query.rowOffset + i]
  {
    Page(ListOrganizations(st, query.userId, keyword), query.pageSize, query.rowOffset)
  }

  // ---------------------------------------------------------------------------
  // Properties of the listing

  /** An organization is listed exactly when some visible id among `ids` holds it. */
  lemma {:induction false} ListedMembership(st: StoreState, userId: Uuid, keyword: Option<string>, ids: seq<Uuid>, o: Organization)
    ensures o in Listed(st, userId, keyword, ids) <==>
              exists i | 0 <= i < |ids| :: Visible(st, userId, keyword, ids[i]) && st.organizations[ids[i]] == o
  {
    if |ids| > 0 {
      var prefix := ids[..|ids| - 1];
      ListedMembership(st, userId, keyword, prefix, o);
      if o in Listed(st, userId, keyword, prefix) {
        var i :| 0 <= i < |prefix| && Visible(st, userId, keyword, prefix[i]) && st.organizations[prefix[i]] == o;
        assert ids[i] == prefix[i];
      }
      if exists i | 0 <= i < |ids| :: Visible(st, userId, keyword, ids[i]) && st.organizations[ids[i]] == o {
        var i :| 0 <= i < |ids| && Visible(st, userId, keyword, ids[i]) && st.organizations[ids[i]] == o;
        if i < |ids| - 1 {
          assert prefix[i] == ids[i];
        }
      }
    }
  }

  /**
   * In a well-formed store, the listing holds each visible organization and
   * no other (`ListOrganizationsDistinct` adds that it holds each one once).
   */
  lemma ListOrganizationsMembership(st: StoreState, userId: Uuid, keyword: Option<string>, organizationId: Uuid)
    requires WellFormed(st)
    ensures organizationId in st.organizations ==>
              (st.organizations[organizationId] in ListOrganizations(st, userId, keyword) <==>
                 Visible(st, userId, keyword, organizationId))
  {
    if organizationId in st.organizations {
      var o := st.organizations[organizationId];
      ListedMembership(st, userId, keyword, st.creationOrder, o);
      if o in ListOrganizations(st, userId, keyword) {
        var i :| 0 <= i < |st.creationOrder| && Visible(st, userId, keyword, st.creationOrder[i])
                 && st.organizations[st.creationOrder[i]] == o;
        assert st.organizations[st.creationOrder[i]].organizationId == Some(st.creationOrder[i]);
      } else {
        CreationOrderCoversOrganizations(st);
        var i :| 0 <= i < |st.creationOrder| && st.creationOrder[i] == organizationId;
      }
    }
  }

  /** No element occurs twice. */
  predicate NoRepeats<T(==)>(xs: seq<T>) {
    forall i, j | 0 <= i < j < |xs| :: xs[i] != xs[j]
  }

  /**
   * Listing distinct ids, each keyed to an organization carrying that id,
   * repeats no organization.
   */
  lemma {:induction false} ListedDistinct(st: StoreState, userId: Uuid, keyword: Option<string>, ids: seq<Uuid>)
    requires forall i, j | 0 <= i < j < |ids| :: ids[i] != ids[j]
    requires forall id | id in st.organizations :: st.organizations[id].organizationId == Some(id)
    ensures NoRepeats(Listed(st, userId, keyword, ids))
  {
    if |ids| > 0 {
      var prefix := ids[..|ids| - 1];
      var last := ids[|ids| - 1];
      ListedDistinct(st, userId, keyword, prefix);
      var rest := Listed(st, userId, keyword, prefix);
      if Visible(st, userId, keyword, last) {
        var o := st.organizations[last];
        ListedMembership(st, userId, keyword, prefix, o);
        assert o !in rest;
        var l := rest + [o];
        forall i, j | 0 <= i < j < |l|
          ensures l[i] != l[j]
        {
          if j == |rest| {
            assert l[i] == rest[i];
          }
        }
      }
    }
  }

  /** In a well-formed store, a listing holds each organization at most once, so its pages never repeat one. */
  lemma ListOrganizationsDistinct(st: StoreState, userId: Uuid, keyword: Option<string>)
    requires WellFormed(st)
    ensures NoRepeats(ListOrganizations(st, userId, keyword))
  {
    ListedDistinct(st, userId, keyword, st.creationOrder);
  }

  /** Ids none of which is visible list nothing. */
  lemma {:induction false} ListedNone(st: StoreState, userId: Uuid, keyword: Option<string>, ids: seq<Uuid>)
    requires forall i | 0 <= i < |ids| :: !Visible(st, userId, keyword, ids[i])
    ensures Listed(st, userId, keyword, ids) == []
  {
    if |ids| > 0 {
      ListedNone(st, userId, keyword, ids[..|ids| - 1]);
    }
  }

  /** Listing a concatenation lists each part in turn. */
  lemma {:induction false} ListedAppend(st: StoreState, userId: Uuid, keyword: Option<string>, xs: seq<Uuid>, ys: seq<Uuid>)
    ensures Listed(st, userId, keyword, xs + ys) == Listed(st, userId, keyword, xs) + Listed(st, userId, keyword, ys)
    decreases |ys|
  {
    if |ys| == 0 {
      assert xs + ys == xs;
    } else {
      var ys' := ys[..|ys| - 1];
      assert (xs + ys)[..|xs + ys| - 1] == xs + ys';
      ListedAppend(st, userId, keyword, xs, ys');
    }
  }

  /**
   * Visibility depends on the existence of a grant, not its type: changing
   * the type of any recorded grant leaves every listing unchanged.
   */
  lemma {:induction false} GrantTypeIrrelevant(
    st: StoreState, k: nat, t: PermissionType, userId: Uuid, keyword: Option<string>, ids: seq<Uuid>)
    requires k < |st.permissions|
    ensures Listed(st.(permissions := st.permissions[k := st.permissions[k].(permissionType := t)]), userId, keyword, ids)
              == Listed(st, userId, keyword, ids)
  {
    var st' := st.(permissions := st.permissions[k := st.permissions[k].(permissionType := t)]);
    if |ids| > 0 {
      GrantTypeIrrelevant(st, k, t, userId, keyword, ids[..|ids| - 1]);
      var id := ids[|ids| - 1];
      assert HasOrganizationGrant(st'.permissions, userId, id) == HasOrganizationGrant(st.permissions, userId, id) by {
        if HasOrganizationGrant(st.permissions, userId, id) {
          var i :| 0 <= i < |st.permissions| &&
                   st.permissions[i].userId == userId && st.permissions[i].target == OnOrganization(id);
          assert st'.permissions[i].userId == userId && st'.permissions[i].target == OnOrganization(id);
        }
        if HasOrganizationGrant(st'.permissions, userId, id) {
          var i :| 0 <= i < |st'.permissions| &&
                   st'.permissions[i].userId == userId && st'.permissions[i].target == OnOrganization(id);
          assert st.permissions[i].userId == userId && st.permissions[i].target == OnOrganization(id);
        }
      }
      assert Visible(st', userId, keyword, id) == Visible(st, userId, keyword, id);
    }
  }

  /** The keyword filter ignores letter case on both sides. */
  lemma KeywordIgnoresCase(name: string, keyword: string)
    ensures MatchesKeyword(Some(name), Some(keyword)) == MatchesKeyword(Some(Lower(name)), Some(keyword))
    ensures MatchesKeyword(Some(name), Some(keyword)) == MatchesKeyword(Some(name), Some(Lower(keyword)))
  {
    LowerIdempotent(name);
    LowerIdempotent(keyword);
  }

  /** Lower-casing is determined character by character. */
  lemma LowerIs(s: string, t: string)
    requires |s| == |t| && forall i | 0 <= i < |s| :: LowerChar(s[i]) == t[i]
    ensures Lower(s) == t
  {
  }

  lemma LowerIdempotent(s: string)
    ensures Lower(Lower(s)) == Lower(s)
  {
    assert forall i | 0 <= i < |s| :: LowerChar(LowerChar(s[i])) == LowerChar(s[i]);
  }

  /**
   * Consecutive pages partition the listing: the page at `offset` of size
   * `a` followed by the page at `offset + a` of size `b` is the page at
   * `offset` of size `a + b`; a page at least as large as the listing from
   * offset 0 is the whole listing.
   */
  lemma PagesConcatenate<T>(xs: seq<T>, a: nat, b: nat, offset: nat)
    ensures Page(xs, a, offset) + Page(xs, b, offset + a) == Page(xs, a + b, offset)
    ensures |xs| <= a ==> Page(xs, a, 0) == xs
  {
    var p, q, pq := Page(xs, a, offset), Page(xs, b, offset + a), Page(xs, a + b, offset);
    assert |p| + |q| == |pq|;
    forall i | 0 <= i < |pq|
      ensures (p + q)[i] == pq[i]
    {
      if i >= |p| {
        assert (p + q)[i] == q[i - |p|];
      }
    }
  }

  // ---------------------------------------------------------------------------
  // Properties of the writes

  /** Creating an organization and reading it back gives it without a realm; others read as before. */
  lemma CreateThenGet(st: StoreState, o: Organization, other: Uuid)
    requires WellFormed(st)
    requires o.organizationId.Some? && o.organizationId.value !in st.organizations
    ensures OrganizationView(AfterCreateOrganization(st, o), o.organizationId.value) == Some(o.(ssoRealm := None))
    ensures SsoConfigView(AfterCreateOrganization(st, o), o.organizationId.value) == None
    ensures other != o.organizationId.value ==>
              OrganizationView(AfterCreateOrganization(st, o), other) == OrganizationView(st, other)
  {
  }

  /** After an SSO configuration is created, both reads of its organization reflect it. */
  lemma CreateSsoConfigThenGet(st: StoreState, cfg: SsoConfig)
    requires WellFormed(st)
    requires cfg.organizationId in st.organizations && cfg.organizationId !in st.ssoConfigs
    ensures SsoConfigView(AfterCreateSsoConfig(st, cfg), cfg.organizationId) == Some(cfg)
    ensures OrganizationView(AfterCreateSsoConfig(st, cfg), cfg.organizationId)
              == Some(st.organizations[cfg.organizationId].(ssoRealm := Some(cfg.keycloakRealm)))
  {
  }

  /**
   * An update carrying only an id and a name changes the name and nothing
   * else; the SSO realm keeps being joined in.
   */
  lemma UpdateNameThenGet(st: StoreState, organizationId: Uuid, name: string)
    requires WellFormed(st) && organizationId in st.organizations
    ensures var patch := Organization(Some(organizationId), Some(name), None, None, None, None, None);
            var before := OrganizationView(st, organizationId);
            OrganizationView(AfterUpdateOrganization(st, patch), organizationId) == Some(before.value.(name := Some(name)))
  {
  }

  /** Grants decide nothing but listings: writing a grant leaves every organization read unchanged. */
  lemma WritePermissionKeepsReads(st: StoreState, p: Permission, organizationId: Uuid)
    requires WellFormed(st)
    ensures OrganizationView(AfterWritePermission(st, p), organizationId) == OrganizationView(st, organizationId)
    ensures SsoConfigView(AfterWritePermission(st, p), organizationId) == SsoConfigView(st, organizationId)
  {
  }

  // ---------------------------------------------------------------------------
  // The store

  class OrganizationStore {
    var organizations: map<Uuid, Organization>
    var creationOrder: seq<Uuid>
    var ssoConfigs: map<Uuid, SsoConfig>
    var permissions: seq<Permission>

    function State(): StoreState
      reads this
    {
      StoreState(organizations, creationOrder, ssoConfigs, permissions)
    }

    predicate Valid()
      reads this
    {
      WellFormed(State())
    }

    /** A store with every table truncated. */
    constructor ()
      ensures Valid() && State() == EmptyStore
    {
      organizations, creationOrder, ssoConfigs, permissions := map[], [], map[], [];
    }

    method CreateOrganization(o: Organization)
      requires Valid()
      requires o.organizationId.Some? && o.organizationId.value !in organizations
      modifies this
      ensures Valid()
      ensures State() == AfterCreateOrganization(old(State()), o)
      ensures organizations == old(organizations)[o.organizationId.value := o.(ssoRealm := None)]
      ensures creationOrder == old(creationOrder) + [o.organizationId.value]
      ensures ssoConfigs == old(ssoConfigs) && permissions == old(permissions)
    {
      var id := o.organizationId.value;
      organizations := organizations[id := o.(ssoRealm := None)];
      creationOrder := creationOrder + [id];
    }

    method CreateSsoConfig(cfg: SsoConfig)
      requires Valid()
      requires cfg.organizationId in organizations && cfg.organizationId !in ssoConfigs
      modifies this
      ensures Valid()
      ensures State() == AfterCreateSsoConfig(old(State()), cfg)
    {
      ssoConfigs := ssoConfigs[cfg.organizationId := cfg];
    }

    method UpdateOrganization(patch: Organization)
      requires Valid()
      requires patch.organizationId.Some?
      modifies this
      ensures Valid()
      ensures State() == AfterUpdateOrganization(old(State()), patch)
    {
      var id := patch.organizationId.value;
      if id in organizations {
        organizations := organizations[id := Merge(organizations[id], patch)];
      }
    }

    method WritePermission(p: Permission)
      requires Valid()
      modifies this
      ensures Valid()
      ensures State() == AfterWritePermission(old(State()), p)
      ensures permissions == old(permissions) + [p]
      ensures organizations == old(organizations) && creationOrder == old(creationOrder) && ssoConfigs == old(ssoConfigs)
    {
      permissions := permissions + [p];
    }

    /** Reads one organization with its realm joined in; absent for an unknown id. */
    method GetOrganization(organizationId: Uuid) returns (r: Option<Organization>)
      requires Valid()
      ensures r == OrganizationView(State(), organizationId)
    {
      if organizationId !in organizations {
        return None;
      }
      r := Some(organizations[organizationId]);
      if organizationId in ssoConfigs {
        r := Some(r.value.(ssoRealm := Some(ssoConfigs[organizationId].keycloakRealm)));
      }
    }

    method GetSsoConfigForOrganization(organizationId: Uuid) returns (r: Option<SsoConfig>)
      requires Valid()
      ensures r == SsoConfigView(State(), organizationId)
    {
      r := if organizationId in ssoConfigs then Some(ssoConfigs[organizationId]) else None;
    }

    /** Scans the organizations in creation order, keeping the visible ones. */
    method ListOrganizationsByUserId(userId: Uuid, keyword: Option<string>) returns (result: seq<Organization>)
      requires Valid()
      ensures result == ListOrganizations(State(), userId, keyword)
    {
      result := [];
      var i := 0;
      while i < |creationOrder|
        invariant 0 <= i <= |creationOrder|
        invariant result == Listed(State(), userId, keyword, creationOrder[..i])
      {
        var id := creationOrder[i];
        assert creationOrder[..i + 1][..i] == creationOrder[..i];
        if HasOrganizationGrant(permissions, userId, id) && MatchesKeyword(organizations[id].name, keyword) {
          result := result + [organizations[id]];
        }
        i := i + 1;
      }
      assert creationOrder[..i] == creationOrder;
    }

    method ListOrganizationsByUserIdPaginated(query: ResourcesByUserQueryPaginated, keyword: Option<string>)
      returns (result: seq<Organization>)
      requires Valid()
      ensures result == ListOrganizationsPaginated(State(), query, keyword)
    {
      var all := ListOrganizationsByUserId(query.userId, keyword);
      result := Page(all, query.pageSize, query.rowOffset);
    }
  }
}
