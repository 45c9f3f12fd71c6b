# Airbyte config mappers and organization store, modelled in Dafny

This project models two parts of the Airbyte platform's configuration layer.

**The row-to-domain mappers of `DbConverter`.** Each `build*` mapper takes one
stored row and returns one config object: a connection (`StandardSync`), a
workspace, an organization, a source or destination, a definition, an OAuth
parameter, an actor catalog and its fetch event, a service account, a
connector-builder project, a declarative manifest, a config injection, a
breaking change or an actor definition version. The connection mapper also
takes the joined operation ids and notification configurations.

- A row is a map from column name to an optional value. SQL NULL is `None`, and
  a column that was not selected is absent (module `Rows`).
- Every mapper is a function into `Result<Entity, Error>`. The error is the
  exception the Java code would throw:
  - a null value dereferenced;
  - an unknown enum token;
  - a malformed JSON document;
  - a version that does not parse;
  - a catalog migration that fails.
- Every mapper states two things:
  - exactly which column decodings must succeed for the whole mapping to succeed;
  - where each field of the result comes from.
- The JSON layer, the catalog protocol migration, time conversion and version
  parsing are library code. They are fields of a `Library` value (module
  `Foreign`), so every property holds for every behaviour of those helpers.
- `Enums.toEnum` is a lookup table per enum (module `Enums`).
- The workspace mapper is a method whose loop converts the stored
  notifications one by one, as the Java `for` loop does.

**The organization store pinned down by `OrganizationPersistenceTest`.**
OrganizationPersistence.java is not part of this model. The store is modelled
from what its test class exercises:

- `createOrganization`, `getOrganization`, `updateOrganization`;
- `createSsoConfig`, `getSsoConfigForOrganization`;
- `writePermission`;
- `listOrganizationsByUserId` and `listOrganizationsByUserIdPaginated`.

The store appears in two forms:

- `OrganizationPersistence.StoreState` is a value with pure transitions
  (`After…`) and reads (`OrganizationView`, `SsoConfigView`, `ListOrganizations`,
  `ListOrganizationsPaginated`), plus an integrity invariant (`WellFormed`) that
  every transition keeps.
- `OrganizationPersistence.OrganizationStore` is a class whose fields are the
  organizations map, the creation order, the SSO-config map (keyed by
  organization) and the sequence of grants. Its mutating methods are proved
  to produce the `After…` state and keep the invariant. Its query methods are
  proved equal to the pure reads; the unpaginated listing is a loop proved
  against the recursive `Listed`.

The test class itself is module `OrganizationPersistenceTest`. Each test is a
method that seeds a fresh store as `beforeEach` does, runs the test's calls,
and states the test's assertions as postconditions. Random UUIDs become
parameters that differ from the other ids.

## Model

| member | source | states |
|---|---|---|
| Rows.NonNull | airbyte-data/src/main/java/io/airbyte/data/services/impls/jooq/DbConverter.java:116 | dereferencing a null column without a null check (`.data()`, `.toString()`) fails with `NullValue`; a non-null value passes through unchanged |
| Rows.RequiredEnum | airbyte-data/src/main/java/io/airbyte/data/services/impls/jooq/DbConverter.java:108-110 | a mandatory enum column succeeds exactly when it holds a known token and then decodes it; a null token fails with `NullValue` and an unknown one with `UnknownToken`, never a default |
| Rows.NullableEnum | airbyte-data/src/main/java/io/airbyte/data/services/impls/jooq/DbConverter.java:119-125 | a nullable enum column maps null to null and a known token to `Some` of its value; an unknown token fails the mapping |
| Rows.Deserialize | airbyte-data/src/main/java/io/airbyte/data/services/impls/jooq/DbConverter.java:143 | deserialisation succeeds exactly when the JSON library accepts the text and returns its result; otherwise it fails with `MalformedJson` of the target class |
| Rows.RequiredJson | airbyte-data/src/main/java/io/airbyte/data/services/impls/jooq/DbConverter.java:122 | a mandatory JSON column succeeds exactly when it is non-null and its document decodes, and gives the decoded document; a null column fails with `NullValue` |
| Rows.NullableJson | airbyte-data/src/main/java/io/airbyte/data/services/impls/jooq/DbConverter.java:117-118 | a nullable JSON column maps null to null; a non-null document that decodes gives `Some` of the decoded value, and one that does not fails the mapping |
| Enums.NamespaceDefinitionLiteral | airbyte-data/src/main/java/io/airbyte/data/services/impls/jooq/DbConverter.java:108-110 | every namespace definition has a token the lookup table accepts, and that token decodes back to it |
| Enums.GeographyLiteral | airbyte-data/src/main/java/io/airbyte/data/services/impls/jooq/DbConverter.java:134 | every geography has a token the lookup table accepts, and that token decodes back to it |
| Enums.StatusLiteral | airbyte-data/src/main/java/io/airbyte/data/services/impls/jooq/DbConverter.java:119-121 | every connection status has a token the lookup table accepts, and that token decodes back to it |
| Enums.ScheduleTypeLiteral | airbyte-data/src/main/java/io/airbyte/data/services/impls/jooq/DbConverter.java:124-125 | every schedule type has a token the lookup table accepts, and that token decodes back to it |
| Enums.NonBreakingChangesPreferenceLiteral | airbyte-data/src/main/java/io/airbyte/data/services/impls/jooq/DbConverter.java:135-137 | every non-breaking-changes preference has a token the lookup table accepts, and that token decodes back to it |
| Enums.SourceTypeLiteral | airbyte-data/src/main/java/io/airbyte/data/services/impls/jooq/DbConverter.java:249-250 | every source type has a token the lookup table accepts, and that token decodes back to it |
| Enums.SupportLevelLiteral | airbyte-data/src/main/java/io/airbyte/data/services/impls/jooq/DbConverter.java:477-478 | every support level has a token the lookup table accepts, and that token decodes back to it |
| Enums.ReleaseStageLiteral | airbyte-data/src/main/java/io/airbyte/data/services/impls/jooq/DbConverter.java:479-481 | every release stage has a token the lookup table accepts, and that token decodes back to it |
| Enums.SupportStateLiteral | airbyte-data/src/main/java/io/airbyte/data/services/impls/jooq/DbConverter.java:501 | every support state has a token the lookup table accepts, and that token decodes back to it |
| DbConverter.Downgrade | airbyte-data/src/main/java/io/airbyte/data/services/impls/jooq/DbConverter.java:147 | the downgrade step succeeds exactly when the migration helper handles the catalog, and returns what it returns; otherwise it fails with `MigrationFailed` |
| DbConverter.ParseConfiguredAirbyteCatalog | airbyte-data/src/main/java/io/airbyte/data/services/impls/jooq/DbConverter.java:142-149 | a configured catalog read succeeds exactly when deserialisation and then one downgrade both succeed, and the result is the downgrade of the deserialised catalog |
| DbConverter.ParseAirbyteCatalog | airbyte-data/src/main/java/io/airbyte/data/services/impls/jooq/DbConverter.java:343-350 | the same for a discovered catalog: deserialised, then downgraded exactly once |
| DbConverter.CatalogReadsIgnoreUpgrade | airbyte-data/src/main/java/io/airbyte/data/services/impls/jooq/DbConverter.java:144-147 | neither catalog read depends on the upgrade migration: replacing it by any function changes no result |
| DbConverter.AnyEnabled | airbyte-data/src/main/java/io/airbyte/data/services/impls/jooq/DbConverter.java:96-104 | true exactly when some joined notification configuration of the given type is enabled |
| DbConverter.NonBreakingChangesPreferenceOf | airbyte-data/src/main/java/io/airbyte/data/services/impls/jooq/DbConverter.java:135-137 | a null auto-propagation status gives `ignore`; a stored literal gives its decoded value or fails when unknown |
| DbConverter.BuildStandardSync | airbyte-data/src/main/java/io/airbyte/data/services/impls/jooq/DbConverter.java:93-140 | succeeds exactly when every column decodes. Namespace definition and geography are mandatory enums; status and schedule type are nullable. The two notify flags are the webhook and email existence checks. The operation ids pass through unchanged. The catalog goes through the configured-catalog read. Every other field is its column |
| DbConverter.ConnectionCatalogOf | airbyte-data/src/main/java/io/airbyte/data/services/impls/jooq/DbConverter.java:116 | a connection's catalog read succeeds exactly when the catalog column is non-null and its text passes the configured-catalog read, and gives that read's result; `BuildStandardSync` ties its `catalog` field to it |
| DbConverter.NotificationItems | airbyte-data/src/main/java/io/airbyte/data/services/impls/jooq/DbConverter.java:159 | the workspace's notifications column is mandatory and is deserialised as an untyped list |
| DbConverter.BuildStandardWorkspace | airbyte-data/src/main/java/io/airbyte/data/services/impls/jooq/DbConverter.java:157-185 | succeeds exactly when the list decodes, every element converts to a notification and every column decodes. The notifications are the elements converted in order, with the same length. The default geography is a mandatory enum. Every other field is its column |
| DbConverter.BuildOrganization | airbyte-data/src/main/java/io/airbyte/data/services/impls/jooq/DbConverter.java:193-201 | succeeds exactly when the six columns have their types; id, name, user id, email, pba and org-level billing are copied verbatim and no SSO realm is set |
| DbConverter.BuildOrganizationRoundTrip | airbyte-data/src/main/java/io/airbyte/data/services/impls/jooq/DbConverter.java:193-201 | reading back the row an organization is stored as gives the organization without its realm |
| DbConverter.BuildSourceConnection | airbyte-data/src/main/java/io/airbyte/data/services/impls/jooq/DbConverter.java:209-218 | the configuration is mandatory JSON (null fails); the other fields are their columns; it succeeds exactly when every column decodes |
| DbConverter.BuildDestinationConnection | airbyte-data/src/main/java/io/airbyte/data/services/impls/jooq/DbConverter.java:226-235 | the same for a destination |
| DbConverter.MaxSecondsBetweenMessagesOf | airbyte-data/src/main/java/io/airbyte/data/services/impls/jooq/DbConverter.java:257-259 | the caller's default exactly when the column is null; otherwise the stored value, a stored 0 included |
| DbConverter.BuildStandardSourceDefinition | airbyte-data/src/main/java/io/airbyte/data/services/impls/jooq/DbConverter.java:243-260 | source type is a nullable enum; resource requirements are nullable JSON; max seconds between messages falls back to the default only on null; other fields are their columns |
| DbConverter.BuildStandardDestinationDefinition | airbyte-data/src/main/java/io/airbyte/data/services/impls/jooq/DbConverter.java:268-280 | resource requirements are nullable JSON; other fields are their columns; it succeeds exactly when every column decodes |
| DbConverter.BuildDestinationOAuthParameter | airbyte-data/src/main/java/io/airbyte/data/services/impls/jooq/DbConverter.java:288-294 | the configuration is mandatory JSON (null fails); ids are their columns |
| DbConverter.BuildSourceOAuthParameter | airbyte-data/src/main/java/io/airbyte/data/services/impls/jooq/DbConverter.java:302-308 | the same for a source |
| DbConverter.BuildActorCatalog | airbyte-data/src/main/java/io/airbyte/data/services/impls/jooq/DbConverter.java:316-321 | the catalog column is mandatory; the catalog is the discovered-catalog read of its text (deserialise, downgrade once) turned back into a JSON tree; the hash and id are their columns |
| DbConverter.ActorCatalogOf | airbyte-data/src/main/java/io/airbyte/data/services/impls/jooq/DbConverter.java:319 | the actor catalog read succeeds exactly when the catalog column is non-null and its text passes the discovered-catalog read, and gives that catalog turned back into a JSON tree |
| DbConverter.EpochSecondsOf | airbyte-data/src/main/java/io/airbyte/data/services/impls/jooq/DbConverter.java:334 | a mandatory timestamp converted to UTC epoch seconds; a null timestamp fails |
| DbConverter.BuildActorCatalogWithUpdatedAt | airbyte-data/src/main/java/io/airbyte/data/services/impls/jooq/DbConverter.java:329-335 | as the actor catalog, plus the fetch event's creation time in epoch seconds |
| DbConverter.BuildActorCatalogFetchEvent | airbyte-data/src/main/java/io/airbyte/data/services/impls/jooq/DbConverter.java:358-363 | the event's ids are their columns; it succeeds exactly when they decode |
| DbConverter.BuildWorkspaceServiceAccount | airbyte-data/src/main/java/io/airbyte/data/services/impls/jooq/DbConverter.java:371-380 | the workspace id, account id and email are their columns; the JSON credential and the HMAC key are nullable JSON (null stays null, a document must decode) |
| DbConverter.BuildConnectorBuilderProjectWithoutManifestDraft | airbyte-data/src/main/java/io/airbyte/data/services/impls/jooq/DbConverter.java:400-409 | every field is its column, `hasDraft` included, and no draft is read |
| DbConverter.BuildConnectorBuilderProjectRoundTrip | airbyte-data/src/main/java/io/airbyte/data/services/impls/jooq/DbConverter.java:400-409 | reading back the row of a project gives the project without its draft |
| DbConverter.BuildConnectorBuilderProject | airbyte-data/src/main/java/io/airbyte/data/services/impls/jooq/DbConverter.java:388-392 | the project without draft, plus the draft as nullable JSON (null stays null) |
| DbConverter.BuildDeclarativeManifestWithoutManifestAndSpec | airbyte-data/src/main/java/io/airbyte/data/services/impls/jooq/DbConverter.java:428-433 | every field is its column, and neither the manifest nor the spec is read |
| DbConverter.BuildDeclarativeManifestRoundTrip | airbyte-data/src/main/java/io/airbyte/data/services/impls/jooq/DbConverter.java:428-433 | reading back the row of a manifest gives it without its manifest and spec |
| DbConverter.BuildDeclarativeManifest | airbyte-data/src/main/java/io/airbyte/data/services/impls/jooq/DbConverter.java:417-420 | the manifest without manifest and spec, plus both as mandatory JSON |
| DbConverter.BuildActorDefinitionConfigInjection | airbyte-data/src/main/java/io/airbyte/data/services/impls/jooq/DbConverter.java:441-446 | the JSON to inject is mandatory (null fails); the definition id and path are their columns |
| DbConverter.ParseVersion | airbyte-data/src/main/java/io/airbyte/data/services/impls/jooq/DbConverter.java:457 | a version string parses exactly when the version helper accepts it; otherwise it fails with `MalformedVersion` |
| DbConverter.BuildActorDefinitionBreakingChange | airbyte-data/src/main/java/io/airbyte/data/services/impls/jooq/DbConverter.java:454-461 | the version is parsed and the upgrade deadline rendered as text; a null in either fails; the message and migration URL are their columns |
| DbConverter.ProtocolVersionOf | airbyte-data/src/main/java/io/airbyte/data/services/impls/jooq/DbConverter.java:479 | a null protocol version gives the library default, serialised; a stored one is parsed and re-serialised |
| DbConverter.NormalizationConfigOf | airbyte-data/src/main/java/io/airbyte/data/services/impls/jooq/DbConverter.java:492-500 | succeeds exactly when each column it reaches is null or text, reading no further once one is null; a null repository, tag or integration type gives no config, and the config is present exactly when all three are non-null, made of exactly those three values |
| DbConverter.ReleaseDateOf | airbyte-data/src/main/java/io/airbyte/data/services/impls/jooq/DbConverter.java:482-483 | a null release date stays null; a stored date gives `Some` of its rendering by the date helper |
| DbConverter.BuildActorDefinitionVersion | airbyte-data/src/main/java/io/airbyte/data/services/impls/jooq/DbConverter.java:469-502 | support state is a mandatory enum; support level and release stage are nullable enums; the normalization config, protocol version and release date follow the rules above; the JSON columns decode into their classes; every other field is its column |
| OrganizationPersistence.DistinctElementsCount | airbyte-config/config-persistence/src/test/java/io/airbyte/config/persistence/OrganizationPersistenceTest.java:39-41 | a creation order without repeats has as many distinct ids as entries |
| OrganizationPersistence.CreationOrderCoversOrganizations | airbyte-config/config-persistence/src/test/java/io/airbyte/config/persistence/OrganizationPersistenceTest.java:39-41 | in a well-formed store every created organization appears in the creation order, so a listing can reach every organization |
| OrganizationPersistence.WellFormed | airbyte-config/config-persistence/src/test/java/io/airbyte/config/persistence/OrganizationPersistenceTest.java:33-44 | the integrity invariant of the store that `beforeEach` fills: organizations keyed by their own id without a realm, SSO configs keyed by an existing organization, and a creation order listing every organization once. Every `After…` transition and every store method keeps it; `CreationOrderCoversOrganizations` and `ListOrganizationsDistinct` draw its consequences |
| OrganizationPersistence.OrganizationView | airbyte-config/config-persistence/src/test/java/io/airbyte/config/persistence/OrganizationPersistenceTest.java:82-95 | a read is present exactly for a stored id; it is the stored organization, and its SSO realm is set exactly when the organization has an SSO config, to that config's realm |
| OrganizationPersistence.SsoConfigView | airbyte-config/config-persistence/src/test/java/io/airbyte/config/persistence/OrganizationPersistenceTest.java:97-102 | present exactly when the organization has an SSO config, and then that stored config, which belongs to the organization, which exists |
| OrganizationPersistence.AfterCreateOrganization | airbyte-config/config-persistence/src/test/java/io/airbyte/config/persistence/OrganizationPersistenceTest.java:48-60 | keeps the store well formed; adds exactly the new id, stores the organization under it without a realm, and appends the id to the creation order; leaves every other organization, SSO config and grant unchanged |
| OrganizationPersistence.AfterCreateSsoConfig | airbyte-config/config-persistence/src/test/java/io/airbyte/config/persistence/OrganizationPersistenceTest.java:62-80 | keeps the store well formed; attaches the config to its organization; changes nothing else |
| OrganizationPersistence.Merge | airbyte-config/config-persistence/src/test/java/io/airbyte/config/persistence/OrganizationPersistenceTest.java:104-111 | each updatable field set in the patch replaces the stored one; each field the patch leaves null keeps the stored one; the id is never changed |
| OrganizationPersistence.AfterUpdateOrganization | airbyte-config/config-persistence/src/test/java/io/airbyte/config/persistence/OrganizationPersistenceTest.java:104-111 | keeps the store well formed; a known id's organization becomes the `Merge` of the stored one with the patch; an unknown id changes nothing; no other organization changes, and the set of ids, the creation order, the SSO configs and the grants stay as they were |
| OrganizationPersistence.AfterWritePermission | airbyte-config/config-persistence/src/test/java/io/airbyte/config/persistence/OrganizationPersistenceTest.java:139-143 | keeps the store well formed; appends exactly the grant and changes nothing else |
| OrganizationPersistence.Lower | airbyte-config/config-persistence/src/test/java/io/airbyte/config/persistence/OrganizationPersistenceTest.java:176-180 | lower-casing keeps the length and lower-cases each character |
| OrganizationPersistence.Contains | airbyte-config/config-persistence/src/test/java/io/airbyte/config/persistence/OrganizationPersistenceTest.java:176-180 | the scan is true exactly when the pattern occurs at some position of the text |
| OrganizationPersistence.FirstCharAbsent | airbyte-config/config-persistence/src/test/java/io/airbyte/config/persistence/OrganizationPersistenceTest.java:179 | a text lacking the pattern's first character does not contain the pattern |
| OrganizationPersistence.MatchesKeyword | airbyte-config/config-persistence/src/test/java/io/airbyte/config/persistence/OrganizationPersistenceTest.java:176-180 | no keyword keeps every organization, and a keyword never matches an organization without a name; `KeywordIgnoresCase` shows the match ignores letter case, and `KeywordMatches` and `RandomNameDoesNotMatch` give the test's verdicts on its names |
| OrganizationPersistence.HasOrganizationGrant | airbyte-config/config-persistence/src/test/java/io/airbyte/config/persistence/OrganizationPersistenceTest.java:138-173 | true exactly when one of the grants is the user's and targets the organization itself, whatever its type; `GrantTypeIrrelevant` shows the type never matters to the listing |
| OrganizationPersistence.Visible | airbyte-config/config-persistence/src/test/java/io/airbyte/config/persistence/OrganizationPersistenceTest.java:138-195 | an organization is shown only if it exists and the user holds a grant on it; without a keyword, exactly those organizations are shown |
| OrganizationPersistence.Listed | airbyte-config/config-persistence/src/test/java/io/airbyte/config/persistence/OrganizationPersistenceTest.java:193-195 | a listing is never longer than the ids it filters |
| OrganizationPersistence.Page | airbyte-config/config-persistence/src/test/java/io/airbyte/config/persistence/OrganizationPersistenceTest.java:181-189 | a page has `min(limit, max(0, total - offset))` elements, and its i-th element is the listing's element at `offset + i` |
| OrganizationPersistence.ListOrganizations | airbyte-config/config-persistence/src/test/java/io/airbyte/config/persistence/OrganizationPersistenceTest.java:191-195 | the unpaginated listing is never longer than the creation order; `ListOrganizationsMembership` gives its members, `ListOrganizationsDistinct` that it has no repeats, and `OrganizationStore.ListOrganizationsByUserId` is proved equal to it |
| OrganizationPersistence.ListOrganizationsPaginated | airbyte-config/config-persistence/src/test/java/io/airbyte/config/persistence/OrganizationPersistenceTest.java:177-189 | a paginated listing has exactly `min(pageSize, max(0, total - rowOffset))` elements, where total is the unpaginated listing's length, and its i-th element is the unpaginated listing's element at offset + i; `PagesConcatenate` shows that pages split the listing without gap or overlap |
| OrganizationPersistence.ListedMembership | airbyte-config/config-persistence/src/test/java/io/airbyte/config/persistence/OrganizationPersistenceTest.java:138-173 | an organization is listed exactly when some id among those scanned holds it and is visible: some grant of the user on it, and a keyword match |
| OrganizationPersistence.ListOrganizationsMembership | airbyte-config/config-persistence/src/test/java/io/airbyte/config/persistence/OrganizationPersistenceTest.java:193-195 | in a well-formed store, a stored organization is in the user's listing exactly when the user holds a grant on it and its name matches the keyword |
| OrganizationPersistence.ListedDistinct | airbyte-config/config-persistence/src/test/java/io/airbyte/config/persistence/OrganizationPersistenceTest.java:193-195 | listing distinct ids, each keyed to an organization carrying that id, repeats no organization |
| OrganizationPersistence.ListOrganizationsDistinct | airbyte-config/config-persistence/src/test/java/io/airbyte/config/persistence/OrganizationPersistenceTest.java:181-189 | in a well-formed store, a listing holds each organization at most once, so the pages that partition it repeat none |
| OrganizationPersistence.ListedNone | airbyte-config/config-persistence/src/test/java/io/airbyte/config/persistence/OrganizationPersistenceTest.java:120-197 | ids none of which is visible to the user list nothing |
| OrganizationPersistence.ListedAppend | airbyte-config/config-persistence/src/test/java/io/airbyte/config/persistence/OrganizationPersistenceTest.java:120-197 | listing a concatenation of ids lists each part in turn |
| OrganizationPersistence.GrantTypeIrrelevant | airbyte-config/config-persistence/src/test/java/io/airbyte/config/persistence/OrganizationPersistenceTest.java:138-173 | changing the type of any grant (admin, editor, reader, …) changes no listing |
| OrganizationPersistence.KeywordIgnoresCase | airbyte-config/config-persistence/src/test/java/io/airbyte/config/persistence/OrganizationPersistenceTest.java:176-180 | the keyword filter gives the same answer when the name or the keyword is lower-cased first |
| OrganizationPersistence.LowerIs | airbyte-config/config-persistence/src/test/java/io/airbyte/config/persistence/OrganizationPersistenceTest.java:176-180 | a string of the same length whose characters are the lower-cased characters is the lower-cased string |
| OrganizationPersistence.LowerIdempotent | airbyte-config/config-persistence/src/test/java/io/airbyte/config/persistence/OrganizationPersistenceTest.java:176-180 | lower-casing twice equals lower-casing once |
| OrganizationPersistence.PagesConcatenate | airbyte-config/config-persistence/src/test/java/io/airbyte/config/persistence/OrganizationPersistenceTest.java:181-189 | consecutive pages concatenate to the page covering both, so pages partition the listing with no gap or overlap; a page at least as large as the listing from offset 0 is the whole listing |
| OrganizationPersistence.CreateThenGet | airbyte-config/config-persistence/src/test/java/io/airbyte/config/persistence/OrganizationPersistenceTest.java:48-60 | a created organization reads back as itself without a realm and with no SSO config; other ids read as before |
| OrganizationPersistence.CreateSsoConfigThenGet | airbyte-config/config-persistence/src/test/java/io/airbyte/config/persistence/OrganizationPersistenceTest.java:62-89 | after an SSO config is created, the config reads back and the organization reads back with the config's realm |
| OrganizationPersistence.UpdateNameThenGet | airbyte-config/config-persistence/src/test/java/io/airbyte/config/persistence/OrganizationPersistenceTest.java:104-111 | an update carrying only an id and a name changes the name read back and nothing else, the realm included |
| OrganizationPersistence.WritePermissionKeepsReads | airbyte-config/config-persistence/src/test/java/io/airbyte/config/persistence/OrganizationPersistenceTest.java:139-143 | writing a grant changes no organization read and no SSO-config read |
| OrganizationPersistence.OrganizationStore.constructor | airbyte-config/config-persistence/src/test/java/io/airbyte/config/persistence/OrganizationPersistenceTest.java:37 | a new store is empty (every table truncated) and well formed |
| OrganizationPersistence.OrganizationStore.CreateOrganization | airbyte-config/config-persistence/src/test/java/io/airbyte/config/persistence/OrganizationPersistenceTest.java:56 | the new state is `AfterCreateOrganization` of the old one: the organization stored without a realm, its id appended to the creation order, the rest unchanged; well-formedness is kept |
| OrganizationPersistence.OrganizationStore.CreateSsoConfig | airbyte-config/config-persistence/src/test/java/io/airbyte/config/persistence/OrganizationPersistenceTest.java:76 | the new state is `AfterCreateSsoConfig` of the old one; well-formedness is kept |
| OrganizationPersistence.OrganizationStore.UpdateOrganization | airbyte-config/config-persistence/src/test/java/io/airbyte/config/persistence/OrganizationPersistenceTest.java:108 | the new state is `AfterUpdateOrganization` of the old one; well-formedness is kept |
| OrganizationPersistence.OrganizationStore.WritePermission | airbyte-config/config-persistence/src/test/java/io/airbyte/config/persistence/OrganizationPersistenceTest.java:139-143 | the new state is `AfterWritePermission` of the old one: the grant appended, the rest unchanged |
| OrganizationPersistence.OrganizationStore.GetOrganization | airbyte-config/config-persistence/src/test/java/io/airbyte/config/persistence/OrganizationPersistenceTest.java:84-95 | returns `OrganizationView` of the current state: absent for an unknown id, otherwise the stored organization with its realm joined in |
| OrganizationPersistence.OrganizationStore.GetSsoConfigForOrganization | airbyte-config/config-persistence/src/test/java/io/airbyte/config/persistence/OrganizationPersistenceTest.java:99-101 | returns `SsoConfigView` of the current state |
| OrganizationPersistence.OrganizationStore.ListOrganizationsByUserId | airbyte-config/config-persistence/src/test/java/io/airbyte/config/persistence/OrganizationPersistenceTest.java:191-195 | returns `ListOrganizations` of the current state; the scan's loop is proved against it, and its members are those `ListOrganizationsMembership` describes |
| OrganizationPersistence.OrganizationStore.ListOrganizationsByUserIdPaginated | airbyte-config/config-persistence/src/test/java/io/airbyte/config/persistence/OrganizationPersistenceTest.java:177-189 | returns the page of the unpaginated listing at the query's offset and of at most the query's page size |
| OrganizationPersistenceTest.BeforeEach | airbyte-config/config-persistence/src/test/java/io/airbyte/config/persistence/OrganizationPersistenceTest.java:33-44 | after seeding, the store is well formed with no grants; it holds exactly the mock organizations, each stored without a realm, and exactly the mock SSO configs, each under its organization |
| OrganizationPersistenceTest.CreateOrganizationScenario | airbyte-config/config-persistence/src/test/java/io/airbyte/config/persistence/OrganizationPersistenceTest.java:48-60 | a new organization reads back present and equal to the one created |
| OrganizationPersistenceTest.CreateSsoConfigScenario | airbyte-config/config-persistence/src/test/java/io/airbyte/config/persistence/OrganizationPersistenceTest.java:62-80 | the SSO config of a new organization reads back present and equal to the one created |
| OrganizationPersistenceTest.GetOrganizationScenario | airbyte-config/config-persistence/src/test/java/io/airbyte/config/persistence/OrganizationPersistenceTest.java:82-89 | the first mock organization reads back with its realm set from the first mock SSO config |
| OrganizationPersistenceTest.GetOrganizationNotExistScenario | airbyte-config/config-persistence/src/test/java/io/airbyte/config/persistence/OrganizationPersistenceTest.java:91-95 | an id no organization has reads as absent |
| OrganizationPersistenceTest.GetSsoConfigForOrganizationScenario | airbyte-config/config-persistence/src/test/java/io/airbyte/config/persistence/OrganizationPersistenceTest.java:97-102 | the first mock organization's SSO config is present and has the first mock config's id |
| OrganizationPersistenceTest.UpdateOrganizationScenario | airbyte-config/config-persistence/src/test/java/io/airbyte/config/persistence/OrganizationPersistenceTest.java:104-111 | after a name-only update the organization reads back with the new name |
| OrganizationPersistenceTest.ListingOrganizations | airbyte-config/config-persistence/src/test/java/io/airbyte/config/persistence/OrganizationPersistenceTest.java:130-167 | the three organizations of the listing test have the given ids and no realm |
| OrganizationPersistenceTest.LowerKeyword | airbyte-config/config-persistence/src/test/java/io/airbyte/config/persistence/OrganizationPersistenceTest.java:176-178 | "keyword", "Keyword" and "keyWord" all lower-case to "keyword" |
| OrganizationPersistenceTest.RandomNameDoesNotMatch | airbyte-config/config-persistence/src/test/java/io/airbyte/config/persistence/OrganizationPersistenceTest.java:179 | "randomName" does not match the keyword "keyWord" |
| OrganizationPersistenceTest.KeywordMatches | airbyte-config/config-persistence/src/test/java/io/airbyte/config/persistence/OrganizationPersistenceTest.java:176-180 | "keyword" and "Keyword" both match the keyword "keyWord" |
| OrganizationPersistenceTest.ListedThree | airbyte-config/config-persistence/src/test/java/io/airbyte/config/persistence/OrganizationPersistenceTest.java:176-195 | over the three new ids, the listing without a keyword is all three and with "keyWord" is the first two |
| OrganizationPersistenceTest.HoldsGrants | airbyte-config/config-persistence/src/test/java/io/airbyte/config/persistence/OrganizationPersistenceTest.java:138-173 | the user holds a grant on each of the three new organizations |
| OrganizationPersistenceTest.GrantsOnlyOn | airbyte-config/config-persistence/src/test/java/io/airbyte/config/persistence/OrganizationPersistenceTest.java:138-173 | the user holds no grant on an organization outside the three |
| OrganizationPersistenceTest.OnlyLastThreeListed | airbyte-config/config-persistence/src/test/java/io/airbyte/config/persistence/OrganizationPersistenceTest.java:193-195 | when no earlier organization is visible, the listing is the listing of the last three ids |
| OrganizationPersistenceTest.ListingOfThree | airbyte-config/config-persistence/src/test/java/io/airbyte/config/persistence/OrganizationPersistenceTest.java:176-195 | with grants on the three new organizations, their listing is all three without a keyword and the first two with "keyWord" |
| OrganizationPersistenceTest.ListingGrants | airbyte-config/config-persistence/src/test/java/io/airbyte/config/persistence/OrganizationPersistenceTest.java:138-173 | the three grants of the listing test are the user's, one on each new organization |
| OrganizationPersistenceTest.ListingAfterWrites | airbyte-config/config-persistence/src/test/java/io/airbyte/config/persistence/OrganizationPersistenceTest.java:120-197 | after the test's writes on top of the mock data, the user's listing is the three new organizations without a keyword and the first two with "keyWord" |
| OrganizationPersistenceTest.AddGrantedOrganization | airbyte-config/config-persistence/src/test/java/io/airbyte/config/persistence/OrganizationPersistenceTest.java:131-143 | one create-then-grant step: the organization is stored and appended, the grant is appended |
| OrganizationPersistenceTest.WriteListingFixture | airbyte-config/config-persistence/src/test/java/io/airbyte/config/persistence/OrganizationPersistenceTest.java:130-173 | the three organizations are stored and appended after the mock ones, and the three grants are the store's only grants |
| OrganizationPersistenceTest.KeywordListingMembers | airbyte-config/config-persistence/src/test/java/io/airbyte/config/persistence/OrganizationPersistenceTest.java:176-192 | the keyword listing holds the first two organizations and not "randomName" |
| OrganizationPersistenceTest.QueryListing | airbyte-config/config-persistence/src/test/java/io/airbyte/config/persistence/OrganizationPersistenceTest.java:175-196 | with a keyword the result size is 2; with pagination only, the sizes are 3 and then 1 at offset 2; with neither it is 3; every organization is listed except "randomName" under the keyword |
| OrganizationPersistenceTest.ListOrganizationsByUserIdScenario | airbyte-config/config-persistence/src/test/java/io/airbyte/config/persistence/OrganizationPersistenceTest.java:120-197 | the whole parameterised test, for all four combinations: the sizes it asserts, and the organizations listed |

## Left out

- JSON (de)serialisation, `Jsons.convertValue`, `Jsons.jsonNode`, the catalog migration helper, `toEpochSecond`, version parsing and date rendering are library code outside this model. They are opaque, possibly failing fields of `Foreign.Library`, and nothing is claimed about what they compute. In particular nothing is claimed about what the downgrade rewrites or whether it is idempotent.
- `Enums.toEnum` is a fixed lookup table per enum. Its exact token-matching rules (case handling, normalisation) and the full value lists of the generated enums are not modelled.
- The jOOQ `Record` API, the table and column constants and the relational engine are left out. A row is a map, and reading a column the query did not select fails with `MissingColumn`.
- DbConverter.BuildStandardSync: the `enabled` flag of a notification configuration is a plain boolean. The NullPointerException that unboxing a null `enabled` would throw is not modelled.
- Integer widths: Java `long` and `int` columns are unbounded `int`. No overflow or truncation occurs in the mappers, which only copy values.
- OrganizationPersistence.java is not part of this model. The store's behaviour is what its test class pins down. Where the test is silent, this model makes assumptions, each listed below: the listing order, the sparse merge of an update, and the no-op update of an unknown id.
- OrganizationPersistence.ListOrganizations: the listing order (creation order) is a choice of this model. The test asserts only sizes, and the scenarios state only sizes and membership, not order.
- OrganizationPersistence.ResourcesByUserQueryPaginated: the `includeDeleted` flag is carried but ignored. The store has no tombstoned organizations.
- OrganizationPersistence.OrganizationStore.CreateOrganization: rejection of a duplicate organization id is not modelled. A fresh id is a precondition.
- OrganizationPersistence.OrganizationStore.CreateSsoConfig: rejection of a second SSO config for an organization is not modelled. An existing organization without a config is a precondition.
- OrganizationPersistence.Merge: the test pins only the new name after an update. The sparse merge, in which fields the patch leaves null keep their stored values, is an assumption of this model and is not asserted by the test.
- OrganizationPersistence.AfterUpdateOrganization: the test never updates an unknown id. That such an update changes nothing is this model's choice; the real store might fail instead.
- Users and `writeUser` are not modelled. A grant refers to a user by id only, and no scenario depends on the user row.
- OrganizationPersistence.MatchesKeyword: case folding is ASCII only. SQL `LIKE` wildcards in the keyword (`%`, `_`) are matched literally.
- OrganizationPersistence.Page: rejecting a non-positive page size is not modelled. Page size and offset are natural numbers, and a page size of 0 gives an empty page.
- `OrganizationPersistence.PermissionType` lists the organization and workspace types only. Instance-admin grants and workspace-level visibility are not part of the listing path.
- ReplicationActivityInput.java (a data holder with no logic) and AccessManagementTable.tsx (user-interface column configuration) are not part of this model.
