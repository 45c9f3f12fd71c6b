/**
 * The row-to-domain mappers: each takes one stored row (and, for a connection,
 * the joined operation ids and notification configurations) and returns one
 * config object, or the error that aborts the read.
 */
module DbConverter {
  import opened Wrappers
  import opened Foreign
  import opened Rows
  import opened Enums
  import opened Tables
  import opened Config

  // ---------------------------------------------------------------------------
  // Catalog reads

  /** The catalog protocol migration step: only the downgrade is applied on read. */
  function Downgrade(lib: Library, shape: Shape, catalog: Node): (r: Result<Node, Error>)
    ensures r.Success? <==> lib.downgradeSchema(shape, catalog).Some?
    ensures r.Success? ==> r.value == lib.downgradeSchema(shape, catalog).value
    ensures r.Failure? ==> r.error == MigrationFailed(shape)
  {
    match lib.downgradeSchema(shape, catalog)
    case None => Failure(MigrationFailed(shape))
    case Some(c) => Success(c)
  }

  /**
   * Reads a configured catalog: it is deserialised, then downgraded exactly
   * once; the read succeeds only when both steps do.
   */
  function ParseConfiguredAirbyteCatalog(lib: Library, text: string): (r: Result<Node, Error>)
    ensures r.Success? <==>
              && lib.deserialize(text, ConfiguredAirbyteCatalog).Some?
              && lib.downgradeSchema(ConfiguredAirbyteCatalog, lib.deserialize(text, ConfiguredAirbyteCatalog).value).Some?
    ensures r.Success? ==>
              r.value == lib.downgradeSchema(ConfiguredAirbyteCatalog, lib.deserialize(text, ConfiguredAirbyteCatalog).value).value
  {
    var catalog :- Deserialize(lib, text, ConfiguredAirbyteCatalog);
    Downgrade(lib, ConfiguredAirbyteCatalog, catalog)
  }

  /** Reads a discovered catalog: deserialised, then downgraded exactly once. */
  function ParseAirbyteCatalog(lib: Library, text: string): (r: Result<Node, Error>)
    ensures r.Success? <==>
              && lib.deserialize(text, AirbyteCatalog).Some?
              && lib.downgradeSchema(AirbyteCatalog, lib.deserialize(text, AirbyteCatalog).value).Some?
    ensures r.Success? ==>
              r.value == lib.downgradeSchema(AirbyteCatalog, lib.deserialize(text, AirbyteCatalog).value).value
  {
    var catalog :- Deserialize(lib, text, AirbyteCatalog);
    Downgrade(lib, AirbyteCatalog, catalog)
  }

  /** The upgrade migration is never applied: no catalog read depends on it. */
  lemma CatalogReadsIgnoreUpgrade(lib: Library, upgrade: (Shape, Node) -> Option<Node>, text: string)
    ensures ParseConfiguredAirbyteCatalog(lib.(upgradeSchema := upgrade), text) == ParseConfiguredAirbyteCatalog(lib, text)
    ensures ParseAirbyteCatalog(lib.(upgradeSchema := upgrade), text) == ParseAirbyteCatalog(lib, text)
  {
  }

  // ---------------------------------------------------------------------------
  // Connection

  /**
   * Whether some joined notification configuration of channel `t` is enabled:
   * an existence check, not a count.
   */
  function AnyEnabled(configs: seq<NotificationConfiguration>, t: NotificationType): (r: bool)
    ensures r <==> exists i :: 0 <= i < |configs| && configs[i].notificationType == t && configs[i].enabled
  {
    if configs == [] then false
    else if configs[0].notificationType == t && configs[0].enabled then true
    else
      var rest := AnyEnabled(configs[1..], t);
      assert forall i :: 1 <= i < |configs| ==> configs[i] == configs[1..][i - 1];
      rest
  }

  /**
   * The connection's non-breaking-changes preference: the stored
   * auto-propagation status, or `ignore` when none is stored.
   */
  function NonBreakingChangesPreferenceOf(row: Row): (r: Result<NonBreakingChangesPreference, Error>)
    ensures IsNull(row, SchemaManagementAutoPropagationStatus) ==> r == Success(Ignore)
    ensures TextAt(row, SchemaManagementAutoPropagationStatus).Some? ==>
              var literal := TextAt(row, SchemaManagementAutoPropagationStatus).value;
              && (r.Success? <==> literal in NonBreakingChangesPreferenceTokens)
              && (r.Success? ==> r.value == NonBreakingChangesPreferenceTokens[literal])
  {
    var status :- GetText(row, SchemaManagementAutoPropagationStatus);
    var literal := if status.None? then AutoPropagationIgnore else status.value;
    if literal in NonBreakingChangesPreferenceTokens then Success(NonBreakingChangesPreferenceTokens[literal])
    else Failure(UnknownToken(SchemaManagementAutoPropagationStatus, literal))
  }

  /** The catalog column of a connection, read through the configured-catalog migration. */
  function ConnectionCatalogOf(lib: Library, row: Row): (r: Result<Node, Error>)
    ensures r.Success? <==>
              JsonAt(row, ConnectionCatalog).Some? &&
              ParseConfiguredAirbyteCatalog(lib, JsonAt(row, ConnectionCatalog).value).Success?
    ensures r.Success? ==> r.value == ParseConfiguredAirbyteCatalog(lib, JsonAt(row, ConnectionCatalog).value).value
  {
    var text :- NonNull(ConnectionCatalog, GetJsonb(row, ConnectionCatalog));
    ParseConfiguredAirbyteCatalog(lib, text)
  }

  /** Builds a connection from its row and its joined operation ids and notification configurations. */
  function BuildStandardSync(lib: Library, row: Row, connectionOperationIds: seq<Uuid>,
                             notificationConfigurations: seq<NotificationConfiguration>): (r: Result<StandardSync, Error>)
    // the mapping fails exactly when one of its columns fails to decode
    ensures r.Success? <==>
              && GetUuid(row, ConnectionId).Success?
              && RequiredEnum(row, ConnectionNamespaceDefinition, NamespaceDefinitionTokens).Success?
              && GetText(row, ConnectionNamespaceFormat).Success?
              && GetText(row, ConnectionPrefix).Success?
              && GetUuid(row, ConnectionSourceId).Success?
              && GetUuid(row, ConnectionDestinationId).Success?
              && GetText(row, ConnectionName).Success?
              && ConnectionCatalogOf(lib, row).Success?
              && NullableJson(lib, row, ConnectionFieldSelectionData, FieldSelectionData).Success?
              && NullableEnum(row, ConnectionStatus, StatusTokens).Success?
              && RequiredJson(lib, row, ConnectionSchedule, Schedule).Success?
              && GetBool(row, ConnectionManual).Success?
              && NullableEnum(row, ConnectionScheduleType, ScheduleTypeTokens).Success?
              && NullableJson(lib, row, ConnectionScheduleData, ScheduleData).Success?
              && RequiredJson(lib, row, ConnectionResourceRequirements, ResourceRequirements).Success?
              && GetUuid(row, ConnectionSourceCatalogId).Success?
              && GetBool(row, ConnectionBreakingChange).Success?
              && RequiredEnum(row, ConnectionGeography, GeographyTokens).Success?
              && NonBreakingChangesPreferenceOf(row).Success?
    // mandatory enums: an unknown or null token fails, a known one is decoded
    ensures r.Success? ==>
              && RequiredEnum(row, ConnectionNamespaceDefinition, NamespaceDefinitionTokens) == Success(r.value.namespaceDefinition)
              && RequiredEnum(row, ConnectionGeography, GeographyTokens) == Success(r.value.geography)
    // nullable enums: null stays null, a token is decoded
    ensures r.Success? ==>
              && NullableEnum(row, ConnectionStatus, StatusTokens) == Success(r.value.status)
              && NullableEnum(row, ConnectionScheduleType, ScheduleTypeTokens) == Success(r.value.scheduleType)
    // a missing auto-propagation status reads as `ignore`
    ensures r.Success? && IsNull(row, SchemaManagementAutoPropagationStatus) ==>
              r.value.nonBreakingChangesPreference == Ignore
    ensures r.Success? ==> NonBreakingChangesPreferenceOf(row) == Success(r.value.nonBreakingChangesPreference)
    // the notification flags are existence checks over the joined configurations
    ensures r.Success? ==>
              (r.value.notifySchemaChanges <==>
                 exists i :: 0 <= i < |notificationConfigurations| &&
                   notificationConfigurations[i].notificationType == Webhook && notificationConfigurations[i].enabled)
    ensures r.Success? ==>
              (r.value.notifySchemaChangesByEmail <==>
                 exists i :: 0 <= i < |notificationConfigurations| &&
                   notificationConfigurations[i].notificationType == Email && notificationConfigurations[i].enabled)
    // operation ids pass through unchanged; the catalog goes through the migration
    ensures r.Success? ==> r.value.operationIds == connectionOperationIds
    ensures r.Success? ==> ConnectionCatalogOf(lib, row) == Success(r.value.catalog)
    // JSON columns are decoded into their classes
    ensures r.Success? ==>
              && NullableJson(lib, row, ConnectionFieldSelectionData, FieldSelectionData) == Success(r.value.fieldSelectionData)
              && RequiredJson(lib, row, ConnectionSchedule, Schedule) == Success(r.value.schedule)
              && NullableJson(lib, row, ConnectionScheduleData, ScheduleData) == Success(r.value.scheduleData)
              && RequiredJson(lib, row, ConnectionResourceRequirements, ResourceRequirements) == Success(r.value.resourceRequirements)
    // the remaining fields are the columns' values, null included
    ensures r.Success? ==>
              && GetUuid(row, ConnectionId) == Success(r.value.connectionId)
              && GetText(row, ConnectionNamespaceFormat) == Success(r.value.namespaceFormat)
              && GetText(row, ConnectionPrefix) == Success(r.value.prefix)
              && GetUuid(row, ConnectionSourceId) == Success(r.value.sourceId)
              && GetUuid(row, ConnectionDestinationId) == Success(r.value.destinationId)
              && GetText(row, ConnectionName) == Success(r.value.name)
              && GetBool(row, ConnectionManual) == Success(r.value.manual)
              && GetUuid(row, ConnectionSourceCatalogId) == Success(r.value.sourceCatalogId)
              && GetBool(row, ConnectionBreakingChange) == Success(r.value.breakingChange)
  {
    var isWebhookNotificationEnabled := AnyEnabled(notificationConfigurations, Webhook);
    var isEmailNotificationEnabled := AnyEnabled(notificationConfigurations, Email);
    var connectionId :- GetUuid(row, ConnectionId);
    var namespaceDefinition :- RequiredEnum(row, ConnectionNamespaceDefinition, NamespaceDefinitionTokens);
    var namespaceFormat :- GetText(row, ConnectionNamespaceFormat);
    var prefix :- GetText(row, ConnectionPrefix);
    var sourceId :- GetUuid(row, ConnectionSourceId);
    var destinationId :- GetUuid(row, ConnectionDestinationId);
    var name :- GetText(row, ConnectionName);
    var catalog :- ConnectionCatalogOf(lib, row);
    var fieldSelectionData :- NullableJson(lib, row, ConnectionFieldSelectionData, FieldSelectionData);
    var status :- NullableEnum(row, ConnectionStatus, StatusTokens);
    var schedule :- RequiredJson(lib, row, ConnectionSchedule, Schedule);
    var manual :- GetBool(row, ConnectionManual);
    var scheduleType :- NullableEnum(row, ConnectionScheduleType, ScheduleTypeTokens);
    var scheduleData :- NullableJson(lib, row, ConnectionScheduleData, ScheduleData);
    var resourceRequirements :- RequiredJson(lib, row, ConnectionResourceRequirements, ResourceRequirements);
    var sourceCatalogId :- GetUuid(row, ConnectionSourceCatalogId);
    var breakingChange :- GetBool(row, ConnectionBreakingChange);
    var geography :- RequiredEnum(row, ConnectionGeography, GeographyTokens);
    var nonBreakingChangesPreference :- NonBreakingChangesPreferenceOf(row);
    Success(StandardSync(
      connectionId, namespaceDefinition, namespaceFormat, prefix, sourceId, destinationId, name,
      catalog, fieldSelectionData, status, schedule, manual, scheduleType, scheduleData,
      connectionOperationIds, resourceRequirements, sourceCatalogId, breakingChange, geography,
      nonBreakingChangesPreference, isWebhookNotificationEnabled, isEmailNotificationEnabled))
  }

  // ---------------------------------------------------------------------------
  // Workspace

  /** The workspace's notifications column deserialised as an untyped list. */
  function NotificationItems(lib: Library, row: Row): (r: Result<seq<Node>, Error>)
    ensures r.Success? <==> JsonAt(row, WorkspaceNotifications).Some? &&
                            lib.deserializeList(JsonAt(row, WorkspaceNotifications).value).Some?
    ensures r.Success? ==> r.value == lib.deserializeList(JsonAt(row, WorkspaceNotifications).value).value
  {
    var text :- NonNull(WorkspaceNotifications, GetJsonb(row, WorkspaceNotifications));
    match lib.deserializeList(text)
    case None => Failure(MalformedJson(UntypedList))
    case Some(items) => Success(items)
  }

  /**
   * Builds a workspace from its row. The stored notifications are converted
   * one by one, in order, into the notification class; any element that does
   * not convert fails the whole read.
   */
  method BuildStandardWorkspace(lib: Library, row: Row) returns (r: Result<StandardWorkspace, Error>)
    ensures r.Success? <==>
              && NotificationItems(lib, row).Success?
              && (forall k :: 0 <= k < |NotificationItems(lib, row).value| ==>
                    lib.convertValue(NotificationItems(lib, row).value[k], Notification).Some?)
              && GetUuid(row, WorkspaceId).Success?
              && GetText(row, WorkspaceName).Success?
              && GetText(row, WorkspaceSlug).Success?
              && GetBool(row, WorkspaceInitialSetupComplete).Success?
              && GetUuid(row, WorkspaceCustomerId).Success?
              && GetText(row, WorkspaceEmail).Success?
              && GetBool(row, WorkspaceAnonymousDataCollection).Success?
              && GetBool(row, WorkspaceSendNewsletter).Success?
              && GetBool(row, WorkspaceSendSecurityUpdates).Success?
              && GetBool(row, WorkspaceDisplaySetupWizard).Success?
              && GetBool(row, WorkspaceTombstone).Success?
              && NullableJson(lib, row, WorkspaceNotificationSettings, NotificationSettings).Success?
              && GetBool(row, WorkspaceFirstSyncComplete).Success?
              && GetBool(row, WorkspaceFeedbackComplete).Success?
              && RequiredEnum(row, WorkspaceGeography, GeographyTokens).Success?
              && NullableJson(lib, row, WorkspaceWebhookOperationConfigs, AnyNode).Success?
              && GetUuid(row, WorkspaceOrganizationId).Success?
    // the notifications are the stored list, element by element converted
    ensures r.Success? ==>
              var items := NotificationItems(lib, row).value;
              && |r.value.notifications| == |items|
              && forall k :: 0 <= k < |items| ==>
                   lib.convertValue(items[k], Notification) == Some(r.value.notifications[k])
    // the default geography is mandatory: an unknown or null token fails
    ensures r.Success? ==> RequiredEnum(row, WorkspaceGeography, GeographyTokens) == Success(r.value.defaultGeography)
    ensures r.Success? ==>
              && NullableJson(lib, row, WorkspaceNotificationSettings, NotificationSettings) == Success(r.value.notificationSettings)
              && NullableJson(lib, row, WorkspaceWebhookOperationConfigs, AnyNode) == Success(r.value.webhookOperationConfigs)
    ensures r.Success? ==>
              && GetUuid(row, WorkspaceId) == Success(r.value.workspaceId)
              && GetText(row, WorkspaceName) == Success(r.value.name)
              && GetText(row, WorkspaceSlug) == Success(r.value.slug)
              && GetBool(row, WorkspaceInitialSetupComplete) == Success(r.value.initialSetupComplete)
              && GetUuid(row, WorkspaceCustomerId) == Success(r.value.customerId)
              && GetText(row, WorkspaceEmail) == Success(r.value.email)
              && GetBool(row, WorkspaceAnonymousDataCollection) == Success(r.value.anonymousDataCollection)
              && GetBool(row, WorkspaceSendNewsletter) == Success(r.value.news)
              && GetBool(row, WorkspaceSendSecurityUpdates) == Success(r.value.securityUpdates)
              && GetBool(row, WorkspaceDisplaySetupWizard) == Success(r.value.displaySetupWizard)
              && GetBool(row, WorkspaceTombstone) == Success(r.value.tombstone)
              && GetBool(row, WorkspaceFirstSyncComplete) == Success(r.value.firstCompletedSync)
              && GetBool(row, WorkspaceFeedbackComplete) == Success(r.value.feedbackDone)
              && GetUuid(row, WorkspaceOrganizationId) == Success(r.value.organizationId)
  {
    var fetchedNotifications :- NotificationItems(lib, row);
    var notificationList: seq<Node> := [];
    var i := 0;
    while i < |fetchedNotifications|
      invariant 0 <= i <= |fetchedNotifications|
      invariant |notificationList| == i
      invariant forall k :: 0 <= k < i ==>
                  lib.convertValue(fetchedNotifications[k], Notification) == Some(notificationList[k])
    {
      var notification := lib.convertValue(fetchedNotifications[i], Notification);
      if notification.None? {
        return Failure(MalformedJson(Notification));
      }
      notificationList := notificationList + [notification.value];
      i := i + 1;
    }
    var workspaceId :- GetUuid(row, WorkspaceId);
    var name :- GetText(row, WorkspaceName);
    var slug :- GetText(row, WorkspaceSlug);
    var initialSetupComplete :- GetBool(row, WorkspaceInitialSetupComplete);
    var customerId :- GetUuid(row, WorkspaceCustomerId);
    var email :- GetText(row, WorkspaceEmail);
    var anonymousDataCollection :- GetBool(row, WorkspaceAnonymousDataCollection);
    var news :- GetBool(row, WorkspaceSendNewsletter);
    var securityUpdates :- GetBool(row, WorkspaceSendSecurityUpdates);
    var displaySetupWizard :- GetBool(row, WorkspaceDisplaySetupWizard);
    var tombstone :- GetBool(row, WorkspaceTombstone);
    var notificationSettings :- NullableJson(lib, row, WorkspaceNotificationSettings, NotificationSettings);
    var firstCompletedSync :- GetBool(row, WorkspaceFirstSyncComplete);
    var feedbackDone :- GetBool(row, WorkspaceFeedbackComplete);
    var defaultGeography :- RequiredEnum(row, WorkspaceGeography, GeographyTokens);
    var webhookOperationConfigs :- NullableJson(lib, row, WorkspaceWebhookOperationConfigs, AnyNode);
    var organizationId :- GetUuid(row, WorkspaceOrganizationId);
    r := Success(StandardWorkspace(
      workspaceId, name, slug, initialSetupComplete, customerId, email, anonymousDataCollection, news,
      securityUpdates, displaySetupWizard, tombstone, notificationList, notificationSettings,
      firstCompletedSync, feedbackDone, defaultGeography, webhookOperationConfigs, organizationId));
  }

  // ---------------------------------------------------------------------------
  // Organization

  /** Builds an organization: every field is copied verbatim and no SSO realm is set. */
  function BuildOrganization(row: Row): (r: Result<Organization, Error>)
    ensures r.Success? <==>
              && GetUuid(row, OrganizationId).Success?
              && GetText(row, OrganizationName).Success?
              && GetUuid(row, OrganizationUserId).Success?
              && GetText(row, OrganizationEmail).Success?
              && GetBool(row, OrganizationPba).Success?
              && GetBool(row, OrganizationOrgLevelBilling).Success?
    ensures r.Success? ==>
              && GetUuid(row, OrganizationId) == Success(r.value.organizationId)
              && GetText(row, OrganizationName) == Success(r.value.name)
              && GetUuid(row, OrganizationUserId) == Success(r.value.userId)
              && GetText(row, OrganizationEmail) == Success(r.value.email)
              && GetBool(row, OrganizationPba) == Success(r.value.pba)
              && GetBool(row, OrganizationOrgLevelBilling) == Success(r.value.orgLevelBilling)
              && r.value.ssoRealm == None
  {
    var organizationId :- GetUuid(row, OrganizationId);
    var name :- GetText(row, OrganizationName);
    var userId :- GetUuid(row, OrganizationUserId);
    var email :- GetText(row, OrganizationEmail);
    var pba :- GetBool(row, OrganizationPba);
    var orgLevelBilling :- GetBool(row, OrganizationOrgLevelBilling);
    Success(Organization(organizationId, name, userId, email, pba, orgLevelBilling, None))
  }

  function UuidCell(u: Option<Uuid>): Option<Value> {
    if u.Some? then Some(UuidValue(u.value)) else None
  }

  function TextCell(t: Option<string>): Option<Value> {
    if t.Some? then Some(TextValue(t.value)) else None
  }

  function BoolCell(b: Option<bool>): Option<Value> {
    if b.Some? then Some(BoolValue(b.value)) else None
  }

  function IntCell(n: Option<int>): Option<Value> {
    if n.Some? then Some(IntValue(n.value)) else None
  }

  /** The organization row that storing `o` writes; the SSO realm is not a column. */
  function OrganizationRow(o: Organization): Row {
    map[OrganizationId := UuidCell(o.organizationId),
        OrganizationName := TextCell(o.name),
        OrganizationUserId := UuidCell(o.userId),
        OrganizationEmail := TextCell(o.email),
        OrganizationPba := BoolCell(o.pba),
        OrganizationOrgLevelBilling := BoolCell(o.orgLevelBilling)]
  }

  /** Writing an organization and reading its row back gives it back, without an SSO realm. */
  lemma BuildOrganizationRoundTrip(o: Organization)
    ensures BuildOrganization(OrganizationRow(o)) == Success(o.(ssoRealm := None))
  {
  }

  // ---------------------------------------------------------------------------
  // Sources and destinations

  /** Builds a source: the configuration column is mandatory JSON, the rest is copied. */
  function BuildSourceConnection(lib: Library, row: Row): (r: Result<SourceConnection, Error>)
    ensures r.Success? <==>
              && GetUuid(row, ActorId).Success?
              && RequiredJson(lib, row, ActorConfiguration, AnyNode).Success?
              && GetUuid(row, ActorWorkspaceId).Success?
              && GetUuid(row, ActorDefaultVersionId).Success?
              && GetUuid(row, ActorActorDefinitionId).Success?
              && GetBool(row, ActorTombstone).Success?
              && GetText(row, ActorName).Success?
    ensures IsNull(row, ActorConfiguration) ==> r.Failure?
    ensures r.Success? ==>
              && RequiredJson(lib, row, ActorConfiguration, AnyNode) == Success(r.value.configuration)
              && GetUuid(row, ActorId) == Success(r.value.sourceId)
              && GetUuid(row, ActorWorkspaceId) == Success(r.value.workspaceId)
              && GetUuid(row, ActorDefaultVersionId) == Success(r.value.defaultVersionId)
              && GetUuid(row, ActorActorDefinitionId) == Success(r.value.sourceDefinitionId)
              && GetBool(row, ActorTombstone) == Success(r.value.tombstone)
              && GetText(row, ActorName) == Success(r.value.name)
  {
    var sourceId :- GetUuid(row, ActorId);
    var configuration :- RequiredJson(lib, row, ActorConfiguration, AnyNode);
    var workspaceId :- GetUuid(row, ActorWorkspaceId);
    var defaultVersionId :- GetUuid(row, ActorDefaultVersionId);
    var sourceDefinitionId :- GetUuid(row, ActorActorDefinitionId);
    var tombstone :- GetBool(row, ActorTombstone);
    var name :- GetText(row, ActorName);
    Success(SourceConnection(sourceId, configuration, workspaceId, defaultVersionId, sourceDefinitionId, tombstone, name))
  }

  /** Builds a destination: the configuration column is mandatory JSON, the rest is copied. */
  function BuildDestinationConnection(lib: Library, row: Row): (r: Result<DestinationConnection, Error>)
    ensures r.Success? <==>
              && GetUuid(row, ActorId).Success?
              && RequiredJson(lib, row, ActorConfiguration, AnyNode).Success?
              && GetUuid(row, ActorWorkspaceId).Success?
              && GetUuid(row, ActorDefaultVersionId).Success?
              && GetUuid(row, ActorActorDefinitionId).Success?
              && GetBool(row, ActorTombstone).Success?
              && GetText(row, ActorName).Success?
    ensures IsNull(row, ActorConfiguration) ==> r.Failure?
    ensures r.Success? ==>
              && RequiredJson(lib, row, ActorConfiguration, AnyNode) == Success(r.value.configuration)
              && GetUuid(row, ActorId) == Success(r.value.destinationId)
              && GetUuid(row, ActorWorkspaceId) == Success(r.value.workspaceId)
              && GetUuid(row, ActorDefaultVersionId) == Success(r.value.defaultVersionId)
              && GetUuid(row, ActorActorDefinitionId) == Success(r.value.destinationDefinitionId)
              && GetBool(row, ActorTombstone) == Success(r.value.tombstone)
              && GetText(row, ActorName) == Success(r.value.name)
  {
    var destinationId :- GetUuid(row, ActorId);
    var configuration :- RequiredJson(lib, row, ActorConfiguration, AnyNode);
    var workspaceId :- GetUuid(row, ActorWorkspaceId);
    var defaultVersionId :- GetUuid(row, ActorDefaultVersionId);
    var destinationDefinitionId :- GetUuid(row, ActorActorDefinitionId);
    var tombstone :- GetBool(row, ActorTombstone);
    var name :- GetText(row, ActorName);
    Success(DestinationConnection(destinationId, configuration, workspaceId, defaultVersionId, destinationDefinitionId, tombstone, name))
  }

  // ---------------------------------------------------------------------------
  // Definitions

  /**
   * The maximum seconds between messages: the caller's default when the column
   * is null, otherwise the stored value (a stored 0 included).
   */
  function MaxSecondsBetweenMessagesOf(row: Row, defaultMaxSecondsBetweenMessages: int): (r: Result<int, Error>)
    ensures IsNull(row, ActorDefinitionMaxSecondsBetweenMessages) ==> r == Success(defaultMaxSecondsBetweenMessages)
    ensures ActorDefinitionMaxSecondsBetweenMessages in row &&
            row[ActorDefinitionMaxSecondsBetweenMessages].Some? &&
            row[ActorDefinitionMaxSecondsBetweenMessages].value.IntValue? ==>
              r == Success(row[ActorDefinitionMaxSecondsBetweenMessages].value.number)
    ensures r.Success? <==> GetInt(row, ActorDefinitionMaxSecondsBetweenMessages).Success?
  {
    var stored :- GetInt(row, ActorDefinitionMaxSecondsBetweenMessages);
    if stored.None? then Success(defaultMaxSecondsBetweenMessages) else Success(stored.value)
  }

  function BuildStandardSourceDefinition(lib: Library, row: Row, defaultMaxSecondsBetweenMessages: int)
    : (r: Result<StandardSourceDefinition, Error>)
    ensures r.Success? <==>
              && GetUuid(row, ActorDefinitionId).Success?
              && GetUuid(row, ActorDefinitionDefaultVersionId).Success?
              && GetText(row, ActorDefinitionIcon).Success?
              && GetText(row, ActorDefinitionName).Success?
              && NullableEnum(row, ActorDefinitionSourceType, SourceTypeTokens).Success?
              && GetBool(row, ActorDefinitionTombstone).Success?
              && GetBool(row, ActorDefinitionPublic).Success?
              && GetBool(row, ActorDefinitionCustom).Success?
              && NullableJson(lib, row, Tables.ActorDefinitionResourceRequirements, Shape.ActorDefinitionResourceRequirements).Success?
              && GetInt(row, ActorDefinitionMaxSecondsBetweenMessages).Success?
    // the source type is a nullable enum; the message gap falls back to the caller's default
    ensures r.Success? ==>
              && NullableEnum(row, ActorDefinitionSourceType, SourceTypeTokens) == Success(r.value.sourceType)
              && MaxSecondsBetweenMessagesOf(row, defaultMaxSecondsBetweenMessages) == Success(r.value.maxSecondsBetweenMessages)
    ensures r.Success? && IsNull(row, ActorDefinitionMaxSecondsBetweenMessages) ==>
              r.value.maxSecondsBetweenMessages == defaultMaxSecondsBetweenMessages
    ensures r.Success? ==>
              && NullableJson(lib, row, Tables.ActorDefinitionResourceRequirements, Shape.ActorDefinitionResourceRequirements)
                   == Success(r.value.resourceRequirements)
              && GetUuid(row, ActorDefinitionId) == Success(r.value.sourceDefinitionId)
              && GetUuid(row, ActorDefinitionDefaultVersionId) == Success(r.value.defaultVersionId)
              && GetText(row, ActorDefinitionIcon) == Success(r.value.icon)
              && GetText(row, ActorDefinitionName) == Success(r.value.name)
              && GetBool(row, ActorDefinitionTombstone) == Success(r.value.tombstone)
              && GetBool(row, ActorDefinitionPublic) == Success(r.value.public)
              && GetBool(row, ActorDefinitionCustom) == Success(r.value.custom)
  {
    var sourceDefinitionId :- GetUuid(row, ActorDefinitionId);
    var defaultVersionId :- GetUuid(row, ActorDefinitionDefaultVersionId);
    var icon :- GetText(row, ActorDefinitionIcon);
    var name :- GetText(row, ActorDefinitionName);
    var sourceType :- NullableEnum(row, ActorDefinitionSourceType, SourceTypeTokens);
    var tombstone :- GetBool(row, ActorDefinitionTombstone);
    var public :- GetBool(row, ActorDefinitionPublic);
    var custom :- GetBool(row, ActorDefinitionCustom);
    var resourceRequirements :-
      NullableJson(lib, row, Tables.ActorDefinitionResourceRequirements, Shape.ActorDefinitionResourceRequirements);
    var maxSecondsBetweenMessages :- MaxSecondsBetweenMessagesOf(row, defaultMaxSecondsBetweenMessages);
    Success(StandardSourceDefinition(
      sourceDefinitionId, defaultVersionId, icon, name, sourceType, tombstone, public, custom,
      resourceRequirements, maxSecondsBetweenMessages))
  }

  function BuildStandardDestinationDefinition(lib: Library, row: Row): (r: Result<StandardDestinationDefinition, Error>)
    ensures r.Success? <==>
              && GetUuid(row, ActorDefinitionId).Success?
              && GetUuid(row, ActorDefinitionDefaultVersionId).Success?
              && GetText(row, ActorDefinitionIcon).Success?
              && GetText(row, ActorDefinitionName).Success?
              && GetBool(row, ActorDefinitionTombstone).Success?
              && GetBool(row, ActorDefinitionPublic).Success?
              && GetBool(row, ActorDefinitionCustom).Success?
              && NullableJson(lib, row, Tables.ActorDefinitionResourceRequirements, Shape.ActorDefinitionResourceRequirements).Success?
    ensures r.Success? ==>
              && NullableJson(lib, row, Tables.ActorDefinitionResourceRequirements, Shape.ActorDefinitionResourceRequirements)
                   == Success(r.value.resourceRequirements)
              && GetUuid(row, ActorDefinitionId) == Success(r.value.destinationDefinitionId)
              && GetUuid(row, ActorDefinitionDefaultVersionId) == Success(r.value.defaultVersionId)
              && GetText(row, ActorDefinitionIcon) == Success(r.value.icon)
              && GetText(row, ActorDefinitionName) == Success(r.value.name)
              && GetBool(row, ActorDefinitionTombstone) == Success(r.value.tombstone)
              && GetBool(row, ActorDefinitionPublic) == Success(r.value.public)
              && GetBool(row, ActorDefinitionCustom) == Success(r.value.custom)
  {
    var destinationDefinitionId :- GetUuid(row, ActorDefinitionId);
    var defaultVersionId :- GetUuid(row, ActorDefinitionDefaultVersionId);
    var icon :- GetText(row, ActorDefinitionIcon);
    var name :- GetText(row, ActorDefinitionName);
    var tombstone :- GetBool(row, ActorDefinitionTombstone);
    var public :- GetBool(row, ActorDefinitionPublic);
    var custom :- GetBool(row, ActorDefinitionCustom);
    var resourceRequirements :-
      NullableJson(lib, row, Tables.ActorDefinitionResourceRequirements, Shape.ActorDefinitionResourceRequirements);
    Success(StandardDestinationDefinition(
      destinationDefinitionId, defaultVersionId, icon, name, tombstone, public, custom, resourceRequirements))
  }

  // ---------------------------------------------------------------------------
  // OAuth parameters

  function BuildDestinationOAuthParameter(lib: Library, row: Row): (r: Result<DestinationOAuthParameter, Error>)
    ensures r.Success? <==>
              && GetUuid(row, ActorOauthParameterId).Success?
              && RequiredJson(lib, row, ActorOauthParameterConfiguration, AnyNode).Success?
              && GetUuid(row, ActorOauthParameterWorkspaceId).Success?
              && GetUuid(row, ActorOauthParameterActorDefinitionId).Success?
    ensures IsNull(row, ActorOauthParameterConfiguration) ==> r.Failure?
    ensures r.Success? ==>
              && RequiredJson(lib, row, ActorOauthParameterConfiguration, AnyNode) == Success(r.value.configuration)
              && GetUuid(row, ActorOauthParameterId) == Success(r.value.oauthParameterId)
              && GetUuid(row, ActorOauthParameterWorkspaceId) == Success(r.value.workspaceId)
              && GetUuid(row, ActorOauthParameterActorDefinitionId) == Success(r.value.destinationDefinitionId)
  {
    var oauthParameterId :- GetUuid(row, ActorOauthParameterId);
    var configuration :- RequiredJson(lib, row, ActorOauthParameterConfiguration, AnyNode);
    var workspaceId :- GetUuid(row, ActorOauthParameterWorkspaceId);
    var destinationDefinitionId :- GetUuid(row, ActorOauthParameterActorDefinitionId);
    Success(DestinationOAuthParameter(oauthParameterId, configuration, workspaceId, destinationDefinitionId))
  }

  function BuildSourceOAuthParameter(lib: Library, row: Row): (r: Result<SourceOAuthParameter, Error>)
    ensures r.Success? <==>
              && GetUuid(row, ActorOauthParameterId).Success?
              && RequiredJson(lib, row, ActorOauthParameterConfiguration, AnyNode).Success?
              && GetUuid(row, ActorOauthParameterWorkspaceId).Success?
              && GetUuid(row, ActorOauthParameterActorDefinitionId).Success?
    ensures IsNull(row, ActorOauthParameterConfiguration) ==> r.Failure?
    ensures r.Success? ==>
              && RequiredJson(lib, row, ActorOauthParameterConfiguration, AnyNode) == Success(r.value.configuration)
              && GetUuid(row, ActorOauthParameterId) == Success(r.value.oauthParameterId)
              && GetUuid(row, ActorOauthParameterWorkspaceId) == Success(r.value.workspaceId)
              && GetUuid(row, ActorOauthParameterActorDefinitionId) == Success(r.value.sourceDefinitionId)
  {
    var oauthParameterId :- GetUuid(row, ActorOauthParameterId);
    var configuration :- RequiredJson(lib, row, ActorOauthParameterConfiguration, AnyNode);
    var workspaceId :- GetUuid(row, ActorOauthParameterWorkspaceId);
    var sourceDefinitionId :- GetUuid(row, ActorOauthParameterActorDefinitionId);
    Success(SourceOAuthParameter(oauthParameterId, configuration, workspaceId, sourceDefinitionId))
  }

  // ---------------------------------------------------------------------------
  // Actor catalogs and fetch events

  /** The stored discovered catalog, read through the migration and turned back into a JSON tree. */
  function ActorCatalogOf(lib: Library, row: Row): (r: Result<Node, Error>)
    ensures r.Success? <==>
              JsonAt(row, ActorCatalogCatalog).Some? &&
              ParseAirbyteCatalog(lib, JsonAt(row, ActorCatalogCatalog).value).Success?
    ensures r.Success? ==> r.value == lib.toJsonNode(ParseAirbyteCatalog(lib, JsonAt(row, ActorCatalogCatalog).value).value)
  {
    var text :- NonNull(ActorCatalogCatalog, GetJsonb(row, ActorCatalogCatalog));
    var catalog :- ParseAirbyteCatalog(lib, text);
    Success(lib.toJsonNode(catalog))
  }

  /** Builds an actor catalog; its catalog is the downgraded discovered catalog. */
  function BuildActorCatalog(lib: Library, row: Row): (r: Result<ActorCatalog, Error>)
    ensures r.Success? <==>
              && GetUuid(row, ActorCatalogId).Success?
              && JsonAt(row, ActorCatalogCatalog).Some?
              && ParseAirbyteCatalog(lib, JsonAt(row, ActorCatalogCatalog).value).Success?
              && GetText(row, ActorCatalogCatalogHash).Success?
    ensures r.Success? ==>
              && r.value.catalog == lib.toJsonNode(ParseAirbyteCatalog(lib, JsonAt(row, ActorCatalogCatalog).value).value)
              && GetUuid(row, ActorCatalogId) == Success(r.value.id)
              && GetText(row, ActorCatalogCatalogHash) == Success(r.value.catalogHash)
  {
    var id :- GetUuid(row, ActorCatalogId);
    var catalog :- ActorCatalogOf(lib, row);
    var catalogHash :- GetText(row, ActorCatalogCatalogHash);
    Success(ActorCatalog(id, catalog, catalogHash))
  }

  /** A mandatory timestamp column converted to epoch seconds in UTC. */
  function EpochSecondsOf(lib: Library, row: Row, col: Column): (r: Result<int, Error>)
    ensures IsNull(row, col) ==> r == Failure(NullValue(col))
    ensures r.Success? <==> col in row && row[col].Some? && row[col].value.TimestampValue?
    ensures r.Success? ==> r.value == lib.epochSecondUtc(row[col].value.timestamp)
  {
    var createdAt :- NonNull(col, GetTimestamp(row, col));
    Success(lib.epochSecondUtc(createdAt))
  }

  /** Builds an actor catalog together with the time of the fetch event joined to it. */
  function BuildActorCatalogWithUpdatedAt(lib: Library, row: Row): (r: Result<ActorCatalogWithUpdatedAt, Error>)
    ensures r.Success? <==>
              && GetUuid(row, ActorCatalogId).Success?
              && JsonAt(row, ActorCatalogCatalog).Some?
              && ParseAirbyteCatalog(lib, JsonAt(row, ActorCatalogCatalog).value).Success?
              && GetText(row, ActorCatalogCatalogHash).Success?
              && EpochSecondsOf(lib, row, ActorCatalogFetchEventCreatedAt).Success?
    ensures r.Success? ==>
              && r.value.catalog == lib.toJsonNode(ParseAirbyteCatalog(lib, JsonAt(row, ActorCatalogCatalog).value).value)
              && EpochSecondsOf(lib, row, ActorCatalogFetchEventCreatedAt) == Success(r.value.updatedAt)
              && GetUuid(row, ActorCatalogId) == Success(r.value.id)
              && GetText(row, ActorCatalogCatalogHash) == Success(r.value.catalogHash)
  {
    var id :- GetUuid(row, ActorCatalogId);
    var catalog :- ActorCatalogOf(lib, row);
    var catalogHash :- GetText(row, ActorCatalogCatalogHash);
    var updatedAt :- EpochSecondsOf(lib, row, ActorCatalogFetchEventCreatedAt);
    Success(ActorCatalogWithUpdatedAt(id, catalog, catalogHash, updatedAt))
  }

  function BuildActorCatalogFetchEvent(lib: Library, row: Row): (r: Result<ActorCatalogFetchEvent, Error>)
    ensures r.Success? <==>
              && GetUuid(row, ActorCatalogFetchEventActorId).Success?
              && GetUuid(row, ActorCatalogFetchEventActorCatalogId).Success?
              && EpochSecondsOf(lib, row, ActorCatalogFetchEventCreatedAt).Success?
    ensures r.Success? ==>
              && EpochSecondsOf(lib, row, ActorCatalogFetchEventCreatedAt) == Success(r.value.createdAt)
              && GetUuid(row, ActorCatalogFetchEventActorId) == Success(r.value.actorId)
              && GetUuid(row, ActorCatalogFetchEventActorCatalogId) == Success(r.value.actorCatalogId)
  {
    var actorId :- GetUuid(row, ActorCatalogFetchEventActorId);
    var actorCatalogId :- GetUuid(row, ActorCatalogFetchEventActorCatalogId);
    var createdAt :- EpochSecondsOf(lib, row, ActorCatalogFetchEventCreatedAt);
    Success(ActorCatalogFetchEvent(actorId, actorCatalogId, createdAt))
  }

  // ---------------------------------------------------------------------------
  // Workspace service accounts

  function BuildWorkspaceServiceAccount(lib: Library, row: Row): (r: Result<WorkspaceServiceAccount, Error>)
    ensures r.Success? <==>
              && GetUuid(row, WorkspaceServiceAccountWorkspaceId).Success?
              && GetText(row, WorkspaceServiceAccountServiceAccountId).Success?
              && GetText(row, WorkspaceServiceAccountServiceAccountEmail).Success?
              && NullableJson(lib, row, WorkspaceServiceAccountJsonCredential, AnyNode).Success?
              && NullableJson(lib, row, WorkspaceServiceAccountHmacKey, AnyNode).Success?
    ensures r.Success? ==>
              && NullableJson(lib, row, WorkspaceServiceAccountJsonCredential, AnyNode) == Success(r.value.jsonCredential)
              && NullableJson(lib, row, WorkspaceServiceAccountHmacKey, AnyNode) == Success(r.value.hmacKey)
              && GetUuid(row, WorkspaceServiceAccountWorkspaceId) == Success(r.value.workspaceId)
              && GetText(row, WorkspaceServiceAccountServiceAccountId) == Success(r.value.serviceAccountId)
              && GetText(row, WorkspaceServiceAccountServiceAccountEmail) == Success(r.value.serviceAccountEmail)
  {
    var workspaceId :- GetUuid(row, WorkspaceServiceAccountWorkspaceId);
    var serviceAccountId :- GetText(row, WorkspaceServiceAccountServiceAccountId);
    var serviceAccountEmail :- GetText(row, WorkspaceServiceAccountServiceAccountEmail);
    var jsonCredential :- NullableJson(lib, row, WorkspaceServiceAccountJsonCredential, AnyNode);
    var hmacKey :- NullableJson(lib, row, WorkspaceServiceAccountHmacKey, AnyNode);
    Success(WorkspaceServiceAccount(workspaceId, serviceAccountId, serviceAccountEmail, jsonCredential, hmacKey))
  }

  // ---------------------------------------------------------------------------
  // Connector builder projects and declarative manifests

  /** Builds a builder project without its draft; `hasDraft` is a computed column of the query. */
  function BuildConnectorBuilderProjectWithoutManifestDraft(row: Row): (r: Result<ConnectorBuilderProject, Error>)
    ensures r.Success? <==>
              && GetUuid(row, ConnectorBuilderProjectWorkspaceId).Success?
              && GetUuid(row, ConnectorBuilderProjectId).Success?
              && GetText(row, ConnectorBuilderProjectName).Success?
              && GetBool(row, HasDraft).Success?
              && GetBool(row, ConnectorBuilderProjectTombstone).Success?
              && GetUuid(row, ConnectorBuilderProjectActorDefinitionId).Success?
              && GetInt(row, ActiveDeclarativeManifestVersion).Success?
    ensures r.Success? ==>
              && r.value.manifestDraft == None
              && GetUuid(row, ConnectorBuilderProjectWorkspaceId) == Success(r.value.workspaceId)
              && GetUuid(row, ConnectorBuilderProjectId) == Success(r.value.builderProjectId)
              && GetText(row, ConnectorBuilderProjectName) == Success(r.value.name)
              && GetBool(row, HasDraft) == Success(r.value.hasDraft)
              && GetBool(row, ConnectorBuilderProjectTombstone) == Success(r.value.tombstone)
              && GetUuid(row, ConnectorBuilderProjectActorDefinitionId) == Success(r.value.actorDefinitionId)
              && GetInt(row, ActiveDeclarativeManifestVersion) == Success(r.value.activeDeclarativeManifestVersion)
  {
    var workspaceId :- GetUuid(row, ConnectorBuilderProjectWorkspaceId);
    var builderProjectId :- GetUuid(row, ConnectorBuilderProjectId);
    var name :- GetText(row, ConnectorBuilderProjectName);
    var hasDraft :- GetBool(row, HasDraft);
    var tombstone :- GetBool(row, ConnectorBuilderProjectTombstone);
    var actorDefinitionId :- GetUuid(row, ConnectorBuilderProjectActorDefinitionId);
    var activeDeclarativeManifestVersion :- GetInt(row, ActiveDeclarativeManifestVersion);
    Success(ConnectorBuilderProject(
      workspaceId, builderProjectId, name, hasDraft, tombstone, actorDefinitionId,
      activeDeclarativeManifestVersion, None))
  }

  /** The row a builder project (without its draft) is read from. */
  function ConnectorBuilderProjectRow(p: ConnectorBuilderProject): Row {
    map[ConnectorBuilderProjectWorkspaceId := UuidCell(p.workspaceId),
        ConnectorBuilderProjectId := UuidCell(p.builderProjectId),
        ConnectorBuilderProjectName := TextCell(p.name),
        HasDraft := BoolCell(p.hasDraft),
        ConnectorBuilderProjectTombstone := BoolCell(p.tombstone),
        ConnectorBuilderProjectActorDefinitionId := UuidCell(p.actorDefinitionId),
        ActiveDeclarativeManifestVersion := IntCell(p.activeDeclarativeManifestVersion)]
  }

  lemma BuildConnectorBuilderProjectRoundTrip(p: ConnectorBuilderProject)
    ensures BuildConnectorBuilderProjectWithoutManifestDraft(ConnectorBuilderProjectRow(p))
              == Success(p.(manifestDraft := None))
  {
  }

  /** Builds a builder project with its draft, which is nullable JSON. */
  function BuildConnectorBuilderProject(lib: Library, row: Row): (r: Result<ConnectorBuilderProject, Error>)
    ensures r.Success? <==>
              && BuildConnectorBuilderProjectWithoutManifestDraft(row).Success?
              && NullableJson(lib, row, ConnectorBuilderProjectManifestDraft, AnyNode).Success?
    ensures r.Success? ==>
              && r.value.(manifestDraft := None) == BuildConnectorBuilderProjectWithoutManifestDraft(row).value
              && NullableJson(lib, row, ConnectorBuilderProjectManifestDraft, AnyNode) == Success(r.value.manifestDraft)
    ensures IsNull(row, ConnectorBuilderProjectManifestDraft) && r.Success? ==> r.value.manifestDraft == None
  {
    var project :- BuildConnectorBuilderProjectWithoutManifestDraft(row);
    var manifestDraft :- NullableJson(lib, row, ConnectorBuilderProjectManifestDraft, AnyNode);
    Success(project.(manifestDraft := manifestDraft))
  }

  function BuildDeclarativeManifestWithoutManifestAndSpec(row: Row): (r: Result<DeclarativeManifest, Error>)
    ensures r.Success? <==>
              && GetUuid(row, DeclarativeManifestActorDefinitionId).Success?
              && GetText(row, DeclarativeManifestDescription).Success?
              && GetInt(row, DeclarativeManifestVersion).Success?
    ensures r.Success? ==>
              && r.value.manifest == None && r.value.spec == None
              && GetUuid(row, DeclarativeManifestActorDefinitionId) == Success(r.value.actorDefinitionId)
              && GetText(row, DeclarativeManifestDescription) == Success(r.value.description)
              && GetInt(row, DeclarativeManifestVersion) == Success(r.value.version)
  {
    var actorDefinitionId :- GetUuid(row, DeclarativeManifestActorDefinitionId);
    var description :- GetText(row, DeclarativeManifestDescription);
    var version :- GetInt(row, DeclarativeManifestVersion);
    Success(DeclarativeManifest(actorDefinitionId, description, version, None, None))
  }

  /** The row a declarative manifest (without manifest and spec) is read from. */
  function DeclarativeManifestRow(m: DeclarativeManifest): Row {
    map[DeclarativeManifestActorDefinitionId := UuidCell(m.actorDefinitionId),
        DeclarativeManifestDescription := TextCell(m.description),
        DeclarativeManifestVersion := IntCell(m.version)]
  }

  lemma BuildDeclarativeManifestRoundTrip(m: DeclarativeManifest)
    ensures BuildDeclarativeManifestWithoutManifestAndSpec(DeclarativeManifestRow(m))
              == Success(m.(manifest := None, spec := None))
  {
  }

  /** Builds a declarative manifest with its manifest and spec, both mandatory JSON. */
  function BuildDeclarativeManifest(lib: Library, row: Row): (r: Result<DeclarativeManifest, Error>)
    ensures r.Success? <==>
              && BuildDeclarativeManifestWithoutManifestAndSpec(row).Success?
              && RequiredJson(lib, row, DeclarativeManifestManifest, AnyNode).Success?
              && RequiredJson(lib, row, DeclarativeManifestSpec, AnyNode).Success?
    ensures r.Success? ==>
              && r.value.(manifest := None, spec := None) == BuildDeclarativeManifestWithoutManifestAndSpec(row).value
              && r.value.manifest == Some(RequiredJson(lib, row, DeclarativeManifestManifest, AnyNode).value)
              && r.value.spec == Some(RequiredJson(lib, row, DeclarativeManifestSpec, AnyNode).value)
  {
    var manifest :- BuildDeclarativeManifestWithoutManifestAndSpec(row);
    var body :- RequiredJson(lib, row, DeclarativeManifestManifest, AnyNode);
    var spec :- RequiredJson(lib, row, DeclarativeManifestSpec, AnyNode);
    Success(manifest.(manifest := Some(body), spec := Some(spec)))
  }

  // ---------------------------------------------------------------------------
  // Config injections and breaking changes

  function BuildActorDefinitionConfigInjection(lib: Library, row: Row): (r: Result<ActorDefinitionConfigInjection, Error>)
    ensures r.Success? <==>
              && GetUuid(row, ConfigInjectionActorDefinitionId).Success?
              && GetText(row, ConfigInjectionInjectionPath).Success?
              && RequiredJson(lib, row, ConfigInjectionJsonToInject, AnyNode).Success?
    ensures IsNull(row, ConfigInjectionJsonToInject) ==> r.Failure?
    ensures r.Success? ==>
              && RequiredJson(lib, row, ConfigInjectionJsonToInject, AnyNode) == Success(r.value.jsonToInject)
              && GetUuid(row, ConfigInjectionActorDefinitionId) == Success(r.value.actorDefinitionId)
              && GetText(row, ConfigInjectionInjectionPath) == Success(r.value.injectionPath)
  {
    var actorDefinitionId :- GetUuid(row, ConfigInjectionActorDefinitionId);
    var injectionPath :- GetText(row, ConfigInjectionInjectionPath);
    var jsonToInject :- RequiredJson(lib, row, ConfigInjectionJsonToInject, AnyNode);
    Success(ActorDefinitionConfigInjection(actorDefinitionId, injectionPath, jsonToInject))
  }

  /** A version string parsed by the version helper. */
  function ParseVersion(lib: Library, text: string): (r: Result<Version, Error>)
    ensures r.Success? <==> lib.parseVersion(text).Some?
    ensures r.Success? ==> r.value == lib.parseVersion(text).value
    ensures r.Failure? ==> r.error == MalformedVersion(text)
  {
    match lib.parseVersion(text)
    case None => Failure(MalformedVersion(text))
    case Some(v) => Success(v)
  }

  function BuildActorDefinitionBreakingChange(lib: Library, row: Row): (r: Result<ActorDefinitionBreakingChange, Error>)
    ensures r.Success? <==>
              && GetUuid(row, BreakingChangeActorDefinitionId).Success?
              && TextAt(row, BreakingChangeVersion).Some?
              && lib.parseVersion(TextAt(row, BreakingChangeVersion).value).Some?
              && GetText(row, BreakingChangeMessage).Success?
              && NonNull(BreakingChangeUpgradeDeadline, GetDate(row, BreakingChangeUpgradeDeadline)).Success?
              && GetText(row, BreakingChangeMigrationDocumentationUrl).Success?
    // the version and the upgrade deadline are mandatory
    ensures IsNull(row, BreakingChangeVersion) || IsNull(row, BreakingChangeUpgradeDeadline) ==> r.Failure?
    ensures r.Success? ==>
              && r.value.version == lib.parseVersion(TextAt(row, BreakingChangeVersion).value).value
              && r.value.upgradeDeadline ==
                   lib.dateToString(NonNull(BreakingChangeUpgradeDeadline, GetDate(row, BreakingChangeUpgradeDeadline)).value)
              && GetUuid(row, BreakingChangeActorDefinitionId) == Success(r.value.actorDefinitionId)
              && GetText(row, BreakingChangeMessage) == Success(r.value.message)
              && GetText(row, BreakingChangeMigrationDocumentationUrl) == Success(r.value.migrationDocumentationUrl)
  {
    var actorDefinitionId :- GetUuid(row, BreakingChangeActorDefinitionId);
    var versionText :- NonNull(BreakingChangeVersion, GetText(row, BreakingChangeVersion));
    var version :- ParseVersion(lib, versionText);
    var message :- GetText(row, BreakingChangeMessage);
    var upgradeDeadline :- NonNull(BreakingChangeUpgradeDeadline, GetDate(row, BreakingChangeUpgradeDeadline));
    var migrationDocumentationUrl :- GetText(row, BreakingChangeMigrationDocumentationUrl);
    Success(ActorDefinitionBreakingChange(
      actorDefinitionId, version, message, lib.dateToString(upgradeDeadline), migrationDocumentationUrl))
  }

  // ---------------------------------------------------------------------------
  // Actor definition versions

  /** The protocol version: the library's default when none is stored, else the parsed stored one. */
  function ProtocolVersionOf(lib: Library, row: Row): (r: Result<string, Error>)
    ensures IsNull(row, VersionProtocolVersion) ==> r == Success(lib.serializeVersion(lib.defaultProtocolVersion))
    ensures TextAt(row, VersionProtocolVersion).Some? ==>
              var text := TextAt(row, VersionProtocolVersion).value;
              && (r.Success? <==> lib.parseVersion(text).Some?)
              && (r.Success? ==> r.value == lib.serializeVersion(lib.parseVersion(text).value))
  {
    var stored :- GetText(row, VersionProtocolVersion);
    if stored.None? then Success(lib.serializeVersion(lib.defaultProtocolVersion))
    else
      var version :- ParseVersion(lib, stored.value);
      Success(lib.serializeVersion(version))
  }

  /**
   * The normalization config: present exactly when the repository, tag and
   * integration-type columns are all non-null, and then made of those three
   * values. Later columns are not read once one is null.
   */
  function NormalizationConfigOf(row: Row): (r: Result<Option<NormalizationDestinationDefinitionConfig>, Error>)
    ensures r.Success? ==>
              (r.value.Some? <==>
                 !IsNull(row, VersionNormalizationRepository) &&
                 !IsNull(row, VersionNormalizationTag) &&
                 !IsNull(row, VersionNormalizationIntegrationType))
    ensures r.Success? && r.value.Some? ==>
              && TextAt(row, VersionNormalizationRepository) == Some(r.value.value.normalizationRepository)
              && TextAt(row, VersionNormalizationTag) == Some(r.value.value.normalizationTag)
              && TextAt(row, VersionNormalizationIntegrationType) == Some(r.value.value.normalizationIntegrationType)
    ensures r.Success? <==>
              || IsNull(row, VersionNormalizationRepository)
              || (&& TextAt(row, VersionNormalizationRepository).Some?
                  && (|| IsNull(row, VersionNormalizationTag)
                      || (&& TextAt(row, VersionNormalizationTag).Some?
                          && (IsNull(row, VersionNormalizationIntegrationType) ||
                              TextAt(row, VersionNormalizationIntegrationType).Some?))))
    ensures IsNull(row, VersionNormalizationRepository) ==> r == Success(None)
    ensures TextAt(row, VersionNormalizationRepository).Some? && IsNull(row, VersionNormalizationTag) ==>
              r == Success(None)
    ensures (TextAt(row, VersionNormalizationRepository).Some? &&
             TextAt(row, VersionNormalizationTag).Some? &&
             IsNull(row, VersionNormalizationIntegrationType)) ==> r == Success(None)
    ensures (TextAt(row, VersionNormalizationRepository).Some? &&
             TextAt(row, VersionNormalizationTag).Some? &&
             TextAt(row, VersionNormalizationIntegrationType).Some?) ==> r.Success? && r.value.Some?
  {
    var repository :- GetText(row, VersionNormalizationRepository);
    if repository.None? then Success(None)
    else
      var tag :- GetText(row, VersionNormalizationTag);
      if tag.None? then Success(None)
      else
        var integrationType :- GetText(row, VersionNormalizationIntegrationType);
        if integrationType.None? then Success(None)
        else Success(Some(NormalizationDestinationDefinitionConfig(repository.value, tag.value, integrationType.value)))
  }

  /** The release date rendered as a string, or null. */
  function ReleaseDateOf(lib: Library, row: Row): (r: Result<Option<string>, Error>)
    ensures IsNull(row, VersionReleaseDate) ==> r == Success(None)
    ensures r.Success? <==> GetDate(row, VersionReleaseDate).Success?
    ensures r.Success? && r.value.Some? ==>
              GetDate(row, VersionReleaseDate).value.Some? &&
              r.value.value == lib.dateToString(GetDate(row, VersionReleaseDate).value.value)
    ensures GetDate(row, VersionReleaseDate).Success? && GetDate(row, VersionReleaseDate).value.Some? ==>
              r == Success(Some(lib.dateToString(GetDate(row, VersionReleaseDate).value.value)))
  {
    var date :- GetDate(row, VersionReleaseDate);
    if date.None? then Success(None) else Success(Some(lib.dateToString(date.value)))
  }

  function BuildActorDefinitionVersion(lib: Library, row: Row): (r: Result<ActorDefinitionVersion, Error>)
    ensures r.Success? <==>
              && GetUuid(row, VersionId).Success?
              && GetUuid(row, VersionActorDefinitionId).Success?
              && GetText(row, VersionDockerRepository).Success?
              && GetText(row, VersionDockerImageTag).Success?
              && RequiredJson(lib, row, VersionSpec, ConnectorSpecification).Success?
              && GetText(row, VersionDocumentationUrl).Success?
              && NullableEnum(row, VersionSupportLevel, SupportLevelTokens).Success?
              && ProtocolVersionOf(lib, row).Success?
              && NullableEnum(row, VersionReleaseStage, ReleaseStageTokens).Success?
              && ReleaseDateOf(lib, row).Success?
              && NullableJson(lib, row, VersionAllowedHosts, AllowedHosts).Success?
              && NullableJson(lib, row, VersionSuggestedStreams, SuggestedStreams).Success?
              && GetBool(row, VersionSupportsDbt).Success?
              && NormalizationConfigOf(row).Success?
              && RequiredEnum(row, VersionSupportState, SupportStateTokens).Success?
    // the support state is mandatory: an unknown or null token fails, never defaulted
    ensures r.Success? ==> RequiredEnum(row, VersionSupportState, SupportStateTokens) == Success(r.value.supportState)
    // support level and release stage are nullable enums
    ensures r.Success? ==>
              && NullableEnum(row, VersionSupportLevel, SupportLevelTokens) == Success(r.value.supportLevel)
              && NullableEnum(row, VersionReleaseStage, ReleaseStageTokens) == Success(r.value.releaseStage)
    // the normalization config exists exactly when its three columns are non-null
    ensures r.Success? ==>
              (r.value.normalizationConfig.Some? <==>
                 !IsNull(row, VersionNormalizationRepository) &&
                 !IsNull(row, VersionNormalizationTag) &&
                 !IsNull(row, VersionNormalizationIntegrationType))
    ensures r.Success? ==> NormalizationConfigOf(row) == Success(r.value.normalizationConfig)
    ensures r.Success? && IsNull(row, VersionProtocolVersion) ==>
              r.value.protocolVersion == lib.serializeVersion(lib.defaultProtocolVersion)
    ensures r.Success? ==>
              && ProtocolVersionOf(lib, row) == Success(r.value.protocolVersion)
              && ReleaseDateOf(lib, row) == Success(r.value.releaseDate)
              && RequiredJson(lib, row, VersionSpec, ConnectorSpecification) == Success(r.value.spec)
              && NullableJson(lib, row, VersionAllowedHosts, AllowedHosts) == Success(r.value.allowedHosts)
              && NullableJson(lib, row, VersionSuggestedStreams, SuggestedStreams) == Success(r.value.suggestedStreams)
              && GetUuid(row, VersionId) == Success(r.value.versionId)
              && GetUuid(row, VersionActorDefinitionId) == Success(r.value.actorDefinitionId)
              && GetText(row, VersionDockerRepository) == Success(r.value.dockerRepository)
              && GetText(row, VersionDockerImageTag) == Success(r.value.dockerImageTag)
              && GetText(row, VersionDocumentationUrl) == Success(r.value.documentationUrl)
              && GetBool(row, VersionSupportsDbt) == Success(r.value.supportsDbt)
  {
    var versionId :- GetUuid(row, VersionId);
    var actorDefinitionId :- GetUuid(row, VersionActorDefinitionId);
    var dockerRepository :- GetText(row, VersionDockerRepository);
    var dockerImageTag :- GetText(row, VersionDockerImageTag);
    var spec :- RequiredJson(lib, row, VersionSpec, ConnectorSpecification);
    var documentationUrl :- GetText(row, VersionDocumentationUrl);
    var supportLevel :- NullableEnum(row, VersionSupportLevel, SupportLevelTokens);
    var protocolVersion :- ProtocolVersionOf(lib, row);
    var releaseStage :- NullableEnum(row, VersionReleaseStage, ReleaseStageTokens);
    var releaseDate :- ReleaseDateOf(lib, row);
    var allowedHosts :- NullableJson(lib, row, VersionAllowedHosts, AllowedHosts);
    var suggestedStreams :- NullableJson(lib, row, VersionSuggestedStreams, SuggestedStreams);
    var supportsDbt :- GetBool(row, VersionSupportsDbt);
    var normalizationConfig :- NormalizationConfigOf(row);
    var supportState :- RequiredEnum(row, VersionSupportState, SupportStateTokens);
    Success(ActorDefinitionVersion(
      versionId, actorDefinitionId, dockerRepository, dockerImageTag, spec, documentationUrl, supportLevel,
      protocolVersion, releaseStage, releaseDate, allowedHosts, suggestedStreams, supportsDbt,
      normalizationConfig, supportState))
  }
}
