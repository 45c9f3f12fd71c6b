/**
 * The scenarios the organization store's test class runs, each written as a
 * method over a fresh store seeded with mock organizations and SSO
 * configurations, with the test's assertions as postconditions. Random ids
 * become parameters that differ from every other id in the scenario.
 */
module OrganizationPersistenceTest {
  import opened Wrappers
  import opened Rows
  import opened Config
  import opened OrganizationPersistence

  // ---------------------------------------------------------------------------
  // Mock data

  /** The id of a mock organization (every mock organization has one). */
  function IdOf(o: Organization): Uuid
    requires o.organizationId.Some?
  {
    o.organizationId.value
  }

  /** The mock ids: organizations with distinct ids, each SSO configuration on a distinct mock organization. */
  predicate MockDataValid(organizations: seq<Organization>, ssoConfigs: seq<SsoConfig>) {
    && (forall i | 0 <= i < |organizations| :: organizations[i].organizationId.Some?)
    && (forall i, j | 0 <= i < j < |organizations| :: organizations[i].organizationId != organizations[j].organizationId)
    && (forall k | 0 <= k < |ssoConfigs| ::
          exists i | 0 <= i < |organizations| :: organizations[i].organizationId == Some(ssoConfigs[k].organizationId))
    && (forall k, l | 0 <= k < l < |ssoConfigs| :: ssoConfigs[k].organizationId != ssoConfigs[l].organizationId)
  }

  /** `id` is none of the mock organizations' ids. */
  predicate FreshId(organizations: seq<Organization>, id: Uuid) {
    forall i | 0 <= i < |organizations| :: organizations[i].organizationId != Some(id)
  }

  /** The ids of the first `n` mock organizations. */
  function IdsOf(organizations: seq<Organization>, n: nat): set<Uuid>
    requires n <= |organizations|
  {
    set j | 0 <= j < n && organizations[j].organizationId.Some? :: organizations[j].organizationId.value
  }

  /** The organizations the first `n` mock SSO configurations belong to. */
  function ConfiguredIdsOf(ssoConfigs: seq<SsoConfig>, n: nat): set<Uuid>
    requires n <= |ssoConfigs|
  {
    set k | 0 <= k < n :: ssoConfigs[k].organizationId
  }

  /**
   * beforeEach: truncates every table, then creates the mock organizations
   * and the mock SSO configurations one by one.
   */
  method BeforeEach(organizations: seq<Organization>, ssoConfigs: seq<SsoConfig>) returns (store: OrganizationStore)
    requires MockDataValid(organizations, ssoConfigs)
    ensures fresh(store) && store.Valid()
    ensures store.permissions == []
    ensures store.organizations.Keys <= IdsOf(organizations, |organizations|)
    ensures forall i | 0 <= i < |organizations| ::
              IdOf(organizations[i]) in store.organizations &&
              store.organizations[IdOf(organizations[i])] == organizations[i].(ssoRealm := None)
    ensures store.ssoConfigs.Keys <= ConfiguredIdsOf(ssoConfigs, |ssoConfigs|)
    ensures forall k | 0 <= k < |ssoConfigs| ::
              ssoConfigs[k].organizationId in store.ssoConfigs &&
              store.ssoConfigs[ssoConfigs[k].organizationId] == ssoConfigs[k]
  {
    store := new OrganizationStore();
    for i := 0 to |organizations|
      invariant store.Valid()
      invariant store.permissions == [] && store.ssoConfigs == map[]
      invariant store.organizations.Keys <= IdsOf(organizations, i)
      invariant forall j | 0 <= j < i ::
                  IdOf(organizations[j]) in store.organizations &&
                  store.organizations[IdOf(organizations[j])] == organizations[j].(ssoRealm := None)
    {
      store.CreateOrganization(organizations[i]);
    }
    for k := 0 to |ssoConfigs|
      invariant store.Valid()
      invariant store.permissions == []
      invariant store.organizations.Keys <= IdsOf(organizations, |organizations|)
      invariant forall i | 0 <= i < |organizations| ::
                  IdOf(organizations[i]) in store.organizations &&
                  store.organizations[IdOf(organizations[i])] == organizations[i].(ssoRealm := None)
      invariant store.ssoConfigs.Keys <= ConfiguredIdsOf(ssoConfigs, k)
      invariant forall l | 0 <= l < k ::
                  ssoConfigs[l].organizationId in store.ssoConfigs &&
                  store.ssoConfigs[ssoConfigs[l].organizationId] == ssoConfigs[l]
    {
      var i :| 0 <= i < |organizations| && organizations[i].organizationId == Some(ssoConfigs[k].organizationId);
      assert IdOf(organizations[i]) == ssoConfigs[k].organizationId;
      store.CreateSsoConfig(ssoConfigs[k]);
    }
  }

  // ---------------------------------------------------------------------------
  // Create, get and update

  /** createOrganization: a new organization reads back equal to itself. */
  method CreateOrganizationScenario(
    mockOrganizations: seq<Organization>, mockSsoConfigs: seq<SsoConfig>, organizationId: Uuid, userId: Uuid)
    returns (organization: Organization, result: Option<Organization>)
    requires MockDataValid(mockOrganizations, mockSsoConfigs) && FreshId(mockOrganizations, organizationId)
    ensures organization.organizationId == Some(organizationId) && organization.name == Some("new org")
    ensures result == Some(organization)
  {
    var store := BeforeEach(mockOrganizations, mockSsoConfigs);
    organization := Organization(
      Some(organizationId), Some("new org"), Some(userId), Some("octavia@airbyte.io"), Some(false), Some(false), None);
    store.CreateOrganization(organization);
    result := store.GetOrganization(organizationId);
  }

  /** createSsoConfig: the configuration of a new organization reads back equal to itself. */
  method CreateSsoConfigScenario(
    mockOrganizations: seq<Organization>, mockSsoConfigs: seq<SsoConfig>,
    organizationId: Uuid, userId: Uuid, ssoConfigId: Uuid)
    returns (ssoConfig: SsoConfig, result: Option<SsoConfig>)
    requires MockDataValid(mockOrganizations, mockSsoConfigs) && FreshId(mockOrganizations, organizationId)
    ensures ssoConfig == SsoConfig(ssoConfigId, organizationId, "realm")
    ensures result == Some(ssoConfig)
  {
    var store := BeforeEach(mockOrganizations, mockSsoConfigs);
    var organization := Organization(
      Some(organizationId), Some("new org"), Some(userId), Some("test@test.com"), Some(false), Some(false), None);
    ssoConfig := SsoConfig(ssoConfigId, organizationId, "realm");
    store.CreateOrganization(organization);
    store.CreateSsoConfig(ssoConfig);
    result := store.GetSsoConfigForOrganization(organizationId);
  }

  /** The first mock SSO configuration belongs to the first mock organization. */
  predicate FirstOrganizationHasFirstSsoConfig(mockOrganizations: seq<Organization>, mockSsoConfigs: seq<SsoConfig>) {
    |mockOrganizations| > 0 && |mockSsoConfigs| > 0 &&
    mockOrganizations[0].organizationId == Some(mockSsoConfigs[0].organizationId)
  }

  /** getOrganization: the first mock organization reads back with the realm of its SSO configuration. */
  method GetOrganizationScenario(mockOrganizations: seq<Organization>, mockSsoConfigs: seq<SsoConfig>)
    returns (result: Option<Organization>)
    requires MockDataValid(mockOrganizations, mockSsoConfigs)
    requires FirstOrganizationHasFirstSsoConfig(mockOrganizations, mockSsoConfigs)
    ensures result == Some(mockOrganizations[0].(ssoRealm := Some(mockSsoConfigs[0].keycloakRealm)))
  {
    var store := BeforeEach(mockOrganizations, mockSsoConfigs);
    result := store.GetOrganization(mockSsoConfigs[0].organizationId);
  }

  /** getOrganization_notExist: an id no organization has reads as absent. */
  method GetOrganizationNotExistScenario(
    mockOrganizations: seq<Organization>, mockSsoConfigs: seq<SsoConfig>, organizationId: Uuid)
    returns (result: Option<Organization>)
    requires MockDataValid(mockOrganizations, mockSsoConfigs) && FreshId(mockOrganizations, organizationId)
    ensures result == None
  {
    var store := BeforeEach(mockOrganizations, mockSsoConfigs);
    result := store.GetOrganization(organizationId);
  }

  /** getSsoConfigForOrganization: the first mock organization has the first mock SSO configuration. */
  method GetSsoConfigForOrganizationScenario(mockOrganizations: seq<Organization>, mockSsoConfigs: seq<SsoConfig>)
    returns (result: Option<SsoConfig>)
    requires MockDataValid(mockOrganizations, mockSsoConfigs)
    requires FirstOrganizationHasFirstSsoConfig(mockOrganizations, mockSsoConfigs)
    ensures result.Some? && result.value.ssoConfigId == mockSsoConfigs[0].ssoConfigId
  {
    var store := BeforeEach(mockOrganizations, mockSsoConfigs);
    result := store.GetSsoConfigForOrganization(mockSsoConfigs[0].organizationId);
  }

  /** updateOrganization: an update carrying an id and a name changes the name read back. */
  method UpdateOrganizationScenario(mockOrganizations: seq<Organization>, mockSsoConfigs: seq<SsoConfig>)
    returns (result: Option<Organization>)
    requires MockDataValid(mockOrganizations, mockSsoConfigs) && |mockOrganizations| > 0
    ensures result.Some? && result.value.name == Some("new name")
  {
    var store := BeforeEach(mockOrganizations, mockSsoConfigs);
    var organizationId := IdOf(mockOrganizations[0]);
    var organizationUpdate := Organization(Some(organizationId), Some("new name"), None, None, None, None, None);
    store.UpdateOrganization(organizationUpdate);
    result := store.GetOrganization(organizationId);
  }

  // ---------------------------------------------------------------------------
  // Listing by user

  /** The three organizations of the listing test: two named after the keyword, one owned by another user. */
  function ListingOrganizations(userId: Uuid, otherUserId: Uuid, organizationIds: seq<Uuid>): (r: seq<Organization>)
    requires |organizationIds| == 3
    ensures |r| == 3
    ensures forall i | 0 <= i < 3 :: r[i].organizationId == Some(organizationIds[i]) && r[i].ssoRealm == None
  {
    [Organization(Some(organizationIds[0]), Some("keyword"), Some(userId), Some("email1"), Some(false), Some(false), None),
     Organization(Some(organizationIds[1]), Some("Keyword"), Some(userId), Some("email2"), Some(false), Some(false), None),
     Organization(Some(organizationIds[2]), Some("randomName"), Some(otherUserId), Some("email3"), Some(false), Some(false), None)]
  }

  lemma LowerKeyword()
    ensures Lower("keyWord") == "keyword" && Lower("keyword") == "keyword" && Lower("Keyword") == "keyword"
    ensures Lower("randomName") == "randomname"
  {
    LowerIs("keyWord", "keyword");
    LowerIs("keyword", "keyword");
    LowerIs("Keyword", "keyword");
    LowerIs("randomName", "randomname");
  }

  /** "randomName" does not contain "keyWord" in any letter case, since it has no "k". */
  lemma RandomNameDoesNotMatch()
    ensures !MatchesKeyword(Some("randomName"), Some("keyWord"))
  {
    LowerKeyword();
    FirstCharAbsent("randomname", "keyword");
  }

  /** The keyword "keyWord" matches "keyword" and "Keyword" and not "randomName". */
  lemma KeywordMatches()
    ensures MatchesKeyword(Some("keyword"), Some("keyWord"))
    ensures MatchesKeyword(Some("Keyword"), Some("keyWord"))
    ensures !MatchesKeyword(Some("randomName"), Some("keyWord"))
  {
    LowerKeyword();
    assert OccursAt("keyword", "keyword", 0);
    RandomNameDoesNotMatch();
  }

  /** Listing three ids: the visible ones among them, in order. */
  lemma ListedThree(st: StoreState, userId: Uuid, keyword: Option<string>, ids: seq<Uuid>)
    requires |ids| == 3
    ensures Listed(st, userId, keyword, ids) ==
              (if Visible(st, userId, keyword, ids[0]) then [st.organizations[ids[0]]] else []) +
              (if Visible(st, userId, keyword, ids[1]) then [st.organizations[ids[1]]] else []) +
              (if Visible(st, userId, keyword, ids[2]) then [st.organizations[ids[2]]] else [])
  {
    var one, two := ids[..1], ids[..2];
    assert one[..0] == [] && two[..1] == one && ids[..2] == two;
    assert Listed(st, userId, keyword, one) ==
             (if Visible(st, userId, keyword, ids[0]) then [st.organizations[ids[0]]] else []);
    assert Listed(st, userId, keyword, two) ==
             Listed(st, userId, keyword, one) +
             (if Visible(st, userId, keyword, ids[1]) then [st.organizations[ids[1]]] else []);
  }

  /** Each of the first grants, one per id, makes its organization granted to the user. */
  lemma HoldsGrants(permissions: seq<Permission>, userId: Uuid, ids: seq<Uuid>)
    requires |ids| <= |permissions|
    requires forall i | 0 <= i < |ids| :: permissions[i].userId == userId && permissions[i].target == OnOrganization(ids[i])
    ensures forall i | 0 <= i < |ids| :: HasOrganizationGrant(permissions, userId, ids[i])
  {
    forall i | 0 <= i < |ids|
      ensures HasOrganizationGrant(permissions, userId, ids[i])
    {
      assert permissions[i].userId == userId && permissions[i].target == OnOrganization(ids[i]);
    }
  }

  /** Organizations created before the last three, none of which the user may see, add nothing to a listing. */
  lemma OnlyLastThreeListed(st: StoreState, userId: Uuid, keyword: Option<string>, ids: seq<Uuid>)
    requires |ids| == 3 && |st.creationOrder| >= 3 && st.creationOrder[|st.creationOrder| - 3..] == ids
    requires forall j | 0 <= j < |st.creationOrder| - 3 :: !HasOrganizationGrant(st.permissions, userId, st.creationOrder[j])
    ensures ListOrganizations(st, userId, keyword) == Listed(st, userId, keyword, ids)
  {
    var earlier := st.creationOrder[..|st.creationOrder| - 3];
    assert st.creationOrder == earlier + ids;
    ListedNone(st, userId, keyword, earlier);
    ListedAppend(st, userId, keyword, earlier, ids);
  }

  /** The grants of the listing test are on the three new organizations only. */
  lemma GrantsOnlyOn(permissions: seq<Permission>, userId: Uuid, ids: seq<Uuid>, id: Uuid)
    requires |ids| == 3 && |permissions| == 3 && id !in ids
    requires forall i | 0 <= i < 3 :: permissions[i].target == OnOrganization(ids[i])
    ensures !HasOrganizationGrant(permissions, userId, id)
  {
  }

  /**
   * The three organizations of the listing test, all granted to the user:
   * without a keyword all three are listed, with "keyWord" the first two.
   */
  lemma ListingOfThree(st: StoreState, userId: Uuid, organizations: seq<Organization>, ids: seq<Uuid>)
    requires |ids| == 3 && |organizations| == 3
    requires forall i | 0 <= i < 3 :: ids[i] in st.organizations && st.organizations[ids[i]] == organizations[i]
    requires forall i | 0 <= i < 3 :: HasOrganizationGrant(st.permissions, userId, ids[i])
    requires organizations[0].name == Some("keyword") && organizations[1].name == Some("Keyword")
    requires organizations[2].name == Some("randomName")
    ensures Listed(st, userId, None, ids) == organizations
    ensures Listed(st, userId, Some("keyWord"), ids) == organizations[..2]
  {
    ListedThree(st, userId, None, ids);
    assert organizations == [organizations[0], organizations[1], organizations[2]];
    KeywordMatches();
    ListedThree(st, userId, Some("keyWord"), ids);
    assert organizations[..2] == [organizations[0], organizations[1]];
  }

  /** The admin, editor and reader grants of the listing test, in that order. */
  function ListingGrants(userId: Uuid, ids: seq<Uuid>, permissionIds: seq<Uuid>): (r: seq<Permission>)
    requires |ids| == 3 && |permissionIds| == 3
    ensures |r| == 3
    ensures forall i | 0 <= i < 3 :: r[i].userId == userId && r[i].target == OnOrganization(ids[i])
  {
    [Permission(permissionIds[0], userId, OnOrganization(ids[0]), OrganizationAdmin),
     Permission(permissionIds[1], userId, OnOrganization(ids[1]), OrganizationEditor),
     Permission(permissionIds[2], userId, OnOrganization(ids[2]), OrganizationReader)]
  }

  /**
   * Three single appends are one append of three elements. A helper for
   * `WriteListingFixture`, proved apart from the store so that this sequence
   * step is not proved in the fixture's larger context.
   */
  lemma AppendThree<T>(e: seq<T>, xs: seq<T>)
    requires |xs| == 3
    ensures e + [xs[0]] + [xs[1]] + [xs[2]] == e + xs
  {
  }

  /**
   * The store after the listing test's writes: the user holds one grant on
   * each of the three newest organizations and none on any earlier one, so
   * the listing without a keyword is those three in creation order and the
   * keyword "keyWord" keeps the first two.
   */
  lemma ListingAfterWrites(
    st: StoreState, userId: Uuid, organizations: seq<Organization>, ids: seq<Uuid>, earlier: seq<Uuid>,
    before: map<Uuid, Organization>, permissionIds: seq<Uuid>)
    requires |ids| == 3 && |organizations| == 3 && |permissionIds| == 3
    requires ids[0] != ids[1] && ids[0] != ids[2] && ids[1] != ids[2]
    requires st.creationOrder == earlier + ids && forall j | 0 <= j < |earlier| :: earlier[j] !in ids
    requires st.organizations == before[ids[0] := organizations[0]][ids[1] := organizations[1]][ids[2] := organizations[2]]
    requires st.permissions == ListingGrants(userId, ids, permissionIds)
    requires organizations[0].name == Some("keyword") && organizations[1].name == Some("Keyword")
    requires organizations[2].name == Some("randomName")
    ensures ListOrganizations(st, userId, None) == organizations
    ensures ListOrganizations(st, userId, Some("keyWord")) == organizations[..2]
  {
    assert forall i | 0 <= i < 3 :: ids[i] in st.organizations && st.organizations[ids[i]] == organizations[i];
    assert st.creationOrder[|st.creationOrder| - 3..] == ids;
    forall j | 0 <= j < |st.creationOrder| - 3
      ensures !HasOrganizationGrant(st.permissions, userId, st.creationOrder[j])
    {
      assert st.creationOrder[j] == earlier[j];
      GrantsOnlyOn(st.permissions, userId, ids, st.creationOrder[j]);
    }
    HoldsGrants(st.permissions, userId, ids);
    ListingOfThree(st, userId, organizations, ids);
    OnlyLastThreeListed(st, userId, None, ids);
    OnlyLastThreeListed(st, userId, Some("keyWord"), ids);
  }

  /** One step of the listing test: create an organization, then grant the user access to it. */
  method AddGrantedOrganization(store: OrganizationStore, o: Organization, p: Permission)
    requires store.Valid() && o.organizationId.Some? && o.organizationId.value !in store.organizations
    modifies store
    ensures store.Valid()
    ensures store.organizations == old(store.organizations)[o.organizationId.value := o.(ssoRealm := None)]
    ensures store.creationOrder == old(store.creationOrder) + [o.organizationId.value]
    ensures store.permissions == old(store.permissions) + [p]
  {
    store.CreateOrganization(o);
    store.WritePermission(p);
  }

  /**
   * The writes of the listing test: three new organizations, the third owned
   * by another user, and an admin, an editor and a reader grant to the user
   * on them, in that order.
   */
  method WriteListingFixture(
    store: OrganizationStore, mockOrganizations: seq<Organization>, userId: Uuid, organizations: seq<Organization>,
    ids: seq<Uuid>, permissionIds: seq<Uuid>)
    requires store.Valid() && store.permissions == [] && store.organizations.Keys <= IdsOf(mockOrganizations, |mockOrganizations|)
    requires |ids| == 3 && |organizations| == 3 && |permissionIds| == 3
    requires forall i | 0 <= i < 3 :: FreshId(mockOrganizations, ids[i]) && organizations[i].organizationId == Some(ids[i])
    requires forall i | 0 <= i < 3 :: organizations[i].ssoRealm == None
    requires ids[0] != ids[1] && ids[0] != ids[2] && ids[1] != ids[2]
    modifies store
    ensures store.Valid()
    ensures store.creationOrder == old(store.creationOrder) + ids
    ensures forall j | 0 <= j < |old(store.creationOrder)| :: old(store.creationOrder)[j] !in ids
    ensures store.organizations
         == old(store.organizations)[ids[0] := organizations[0]][ids[1] := organizations[1]][ids[2] := organizations[2]]
    ensures store.permissions == ListingGrants(userId, ids, permissionIds)
  {
    forall j | 0 <= j < |store.creationOrder|
      ensures store.creationOrder[j] !in ids
    {
      assert store.creationOrder[j] in IdsOf(mockOrganizations, |mockOrganizations|);
    }
    var grants := ListingGrants(userId, ids, permissionIds);
    AppendThree(store.creationOrder, ids);
    AppendThree([], grants);
    assert organizations[0].(ssoRealm := None) == organizations[0];
    assert organizations[1].(ssoRealm := None) == organizations[1];
    assert organizations[2].(ssoRealm := None) == organizations[2];
    AddGrantedOrganization(store, organizations[0], grants[0]);
    AddGrantedOrganization(store, organizations[1], grants[1]);
    AddGrantedOrganization(store, organizations[2], grants[2]);
  }

  /** The two-element listing holds the first two organizations and not the third. */
  lemma KeywordListingMembers(organizations: seq<Organization>, ids: seq<Uuid>, listed: seq<Organization>, withKeywordSearch: bool)
    requires |ids| == 3 && |organizations| == 3 && ids[2] != ids[0] && ids[2] != ids[1]
    requires forall i | 0 <= i < 3 :: organizations[i].organizationId == Some(ids[i])
    requires listed == if withKeywordSearch then organizations[..2] else organizations
    ensures forall k | 0 <= k < 3 :: organizations[k] in listed <==> (!withKeywordSearch || k < 2)
  {
    assert organizations[2] != organizations[0] && organizations[2] != organizations[1];
  }

  /**
   * The four queries of the listing test against a store whose listings
   * for the user are the three organizations without a keyword and the
   * first two with the keyword "keyWord".
   */
  method QueryListing(
    store: OrganizationStore, userId: Uuid, organizations: seq<Organization>, ids: seq<Uuid>,
    withKeywordSearch: bool, withPagination: bool)
    returns (sizes: seq<nat>, listed: seq<Organization>)
    requires store.Valid() && |organizations| == 3 && |ids| == 3 && ids[2] != ids[0] && ids[2] != ids[1]
    requires forall i | 0 <= i < 3 :: organizations[i].organizationId == Some(ids[i])
    requires ListOrganizations(store.State(), userId, None) == organizations
    requires ListOrganizations(store.State(), userId, Some("keyWord")) == organizations[..2]
    ensures withKeywordSearch ==> sizes == [2]
    ensures !withKeywordSearch && withPagination ==> sizes == [3, 1]
    ensures !withKeywordSearch && !withPagination ==> sizes == [3]
    ensures forall k | 0 <= k < 3 :: organizations[k] in listed <==> (!withKeywordSearch || k < 2)
  {
    if withKeywordSearch && withPagination {
      listed := store.ListOrganizationsByUserIdPaginated(
        ResourcesByUserQueryPaginated(userId, false, 10, 0), Some("keyWord"));
      sizes := [|listed|];
    } else if withPagination {
      listed := store.ListOrganizationsByUserIdPaginated(
        ResourcesByUserQueryPaginated(userId, false, 10, 0), None);
      var page := store.ListOrganizationsByUserIdPaginated(
        ResourcesByUserQueryPaginated(userId, false, 10, 2), None);
      assert page == organizations[2..];
      sizes := [|listed|, |page|];
    } else if withKeywordSearch {
      listed := store.ListOrganizationsByUserId(userId, Some("keyWord"));
      sizes := [|listed|];
    } else {
      listed := store.ListOrganizationsByUserId(userId, None);
      sizes := [|listed|];
    }
    KeywordListingMembers(organizations, ids, listed, withKeywordSearch);
  }

  /**
   * testListOrganizationsByUserId, for each combination of keyword search
   * and pagination: the user holds an admin, an editor and a reader grant on
   * three new organizations (the third owned by another user) and none on
   * the mock organizations. Without a keyword the user sees all three; the
   * keyword "keyWord" keeps "keyword" and "Keyword" and drops "randomName";
   * a page at offset 2 holds only the last one.
   */
  method ListOrganizationsByUserIdScenario(
    mockOrganizations: seq<Organization>, mockSsoConfigs: seq<SsoConfig>,
    userId: Uuid, otherUserId: Uuid, orgId1: Uuid, orgId2: Uuid, orgId3: Uuid,
    permissionId1: Uuid, permissionId2: Uuid, permissionId3: Uuid,
    withKeywordSearch: bool, withPagination: bool)
    returns (sizes: seq<nat>, listed: seq<Organization>)
    requires MockDataValid(mockOrganizations, mockSsoConfigs)
    requires FreshId(mockOrganizations, orgId1) && FreshId(mockOrganizations, orgId2) && FreshId(mockOrganizations, orgId3)
    requires orgId1 != orgId2 && orgId1 != orgId3 && orgId2 != orgId3
    ensures withKeywordSearch ==> sizes == [2]
    ensures !withKeywordSearch && withPagination ==> sizes == [3, 1]
    ensures !withKeywordSearch && !withPagination ==> sizes == [3]
    ensures var organizations := ListingOrganizations(userId, otherUserId, [orgId1, orgId2, orgId3]);
            forall k | 0 <= k < 3 :: organizations[k] in listed <==> (!withKeywordSearch || k < 2)
  {
    var store := BeforeEach(mockOrganizations, mockSsoConfigs);
    ghost var earlier, before := store.creationOrder, store.organizations;
    var ids := [orgId1, orgId2, orgId3];
    var permissionIds := [permissionId1, permissionId2, permissionId3];
    var organizations := ListingOrganizations(userId, otherUserId, ids);
    WriteListingFixture(store, mockOrganizations, userId, organizations, ids, permissionIds);
    ListingAfterWrites(store.State(), userId, organizations, ids, earlier, before, permissionIds);
    sizes, listed := QueryListing(store, userId, organizations, ids, withKeywordSearch, withPagination);
  }
}
