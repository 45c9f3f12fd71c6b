/**
 * The domain objects the mappers build. A Java reference field that may be
 * null is an `Option`; a JSON-valued field is the decoded `Node`.
 */
module Config {
  import opened Wrappers
  import opened Foreign
  import opened Rows
  import opened Enums

  /** One row of the notification-configuration table joined to a connection. */
  datatype NotificationConfiguration = NotificationConfiguration(notificationType: NotificationType, enabled: bool)

  /** A connection. */
  datatype StandardSync = StandardSync(
    connectionId: Option<Uuid>,
    namespaceDefinition: NamespaceDefinitionType,
    namespaceFormat: Option<string>,
    prefix: Option<string>,
    sourceId: Option<Uuid>,
    destinationId: Option<Uuid>,
    name: Option<string>,
    catalog: Node,
    fieldSelectionData: Option<Node>,
    status: Option<Status>,
    schedule: Node,
    manual: Option<bool>,
    scheduleType: Option<ScheduleType>,
    scheduleData: Option<Node>,
    operationIds: seq<Uuid>,
    resourceRequirements: Node,
    sourceCatalogId: Option<Uuid>,
    breakingChange: Option<bool>,
    geography: Geography,
    nonBreakingChangesPreference: NonBreakingChangesPreference,
    notifySchemaChanges: bool,
    notifySchemaChangesByEmail: bool)

  datatype StandardWorkspace = StandardWorkspace(
    workspaceId: Option<Uuid>,
    name: Option<string>,
    slug: Option<string>,
    initialSetupComplete: Option<bool>,
    customerId: Option<Uuid>,
    email: Option<string>,
    anonymousDataCollection: Option<bool>,
    news: Option<bool>,
    securityUpdates: Option<bool>,
    displaySetupWizard: Option<bool>,
    tombstone: Option<bool>,
    notifications: seq<Node>,
    notificationSettings: Option<Node>,
    firstCompletedSync: Option<bool>,
    feedbackDone: Option<bool>,
    defaultGeography: Geography,
    webhookOperationConfigs: Option<Node>,
    organizationId: Option<Uuid>)

  /** An organization; `ssoRealm` is not a column of its row but joined in by the store. */
  datatype Organization = Organization(
    organizationId: Option<Uuid>,
    name: Option<string>,
    userId: Option<Uuid>,
    email: Option<string>,
    pba: Option<bool>,
    orgLevelBilling: Option<bool>,
    ssoRealm: Option<string>)

  datatype SsoConfig = SsoConfig(ssoConfigId: Uuid, organizationId: Uuid, keycloakRealm: string)

  datatype SourceConnection = SourceConnection(
    sourceId: Option<Uuid>,
    configuration: Node,
    workspaceId: Option<Uuid>,
    defaultVersionId: Option<Uuid>,
    sourceDefinitionId: Option<Uuid>,
    tombstone: Option<bool>,
    name: Option<string>)

  datatype DestinationConnection = DestinationConnection(
    destinationId: Option<Uuid>,
    configuration: Node,
    workspaceId: Option<Uuid>,
    defaultVersionId: Option<Uuid>,
    destinationDefinitionId: Option<Uuid>,
    tombstone: Option<bool>,
    name: Option<string>)

  datatype StandardSourceDefinition = StandardSourceDefinition(
    sourceDefinitionId: Option<Uuid>,
    defaultVersionId: Option<Uuid>,
    icon: Option<string>,
    name: Option<string>,
    sourceType: Option<SourceType>,
    tombstone: Option<bool>,
    public: Option<bool>,
    custom: Option<bool>,
    resourceRequirements: Option<Node>,
    maxSecondsBetweenMessages: int)

  datatype StandardDestinationDefinition = StandardDestinationDefinition(
    destinationDefinitionId: Option<Uuid>,
    defaultVersionId: Option<Uuid>,
    icon: Option<string>,
    name: Option<string>,
    tombstone: Option<bool>,
    public: Option<bool>,
    custom: Option<bool>,
    resourceRequirements: Option<Node>)

  datatype DestinationOAuthParameter = DestinationOAuthParameter(
    oauthParameterId: Option<Uuid>,
    configuration: Node,
    workspaceId: Option<Uuid>,
    destinationDefinitionId: Option<Uuid>)

  datatype SourceOAuthParameter = SourceOAuthParameter(
    oauthParameterId: Option<Uuid>,
    configuration: Node,
    workspaceId: Option<Uuid>,
    sourceDefinitionId: Option<Uuid>)

  datatype ActorCatalog = ActorCatalog(id: Option<Uuid>, catalog: Node, catalogHash: Option<string>)

  datatype ActorCatalogWithUpdatedAt = ActorCatalogWithUpdatedAt(
    id: Option<Uuid>,
    catalog: Node,
    catalogHash: Option<string>,
    updatedAt: int)

  datatype ActorCatalogFetchEvent = ActorCatalogFetchEvent(
    actorId: Option<Uuid>,
    actorCatalogId: Option<Uuid>,
    createdAt: int)

  datatype WorkspaceServiceAccount = WorkspaceServiceAccount(
    workspaceId: Option<Uuid>,
    serviceAccountId: Option<string>,
    serviceAccountEmail: Option<string>,
    jsonCredential: Option<Node>,
    hmacKey: Option<Node>)

  datatype ConnectorBuilderProject = ConnectorBuilderProject(
    workspaceId: Option<Uuid>,
    builderProjectId: Option<Uuid>,
    name: Option<string>,
    hasDraft: Option<bool>,
    tombstone: Option<bool>,
    actorDefinitionId: Option<Uuid>,
    activeDeclarativeManifestVersion: Option<int>,
    manifestDraft: Option<Node>)

  datatype DeclarativeManifest = DeclarativeManifest(
    actorDefinitionId: Option<Uuid>,
    description: Option<string>,
    version: Option<int>,
    manifest: Option<Node>,
    spec: Option<Node>)

  datatype ActorDefinitionConfigInjection = ActorDefinitionConfigInjection(
    actorDefinitionId: Option<Uuid>,
    injectionPath: Option<string>,
    jsonToInject: Node)

  datatype ActorDefinitionBreakingChange = ActorDefinitionBreakingChange(
    actorDefinitionId: Option<Uuid>,
    version: Version,
    message: Option<string>,
    upgradeDeadline: string,
    migrationDocumentationUrl: Option<string>)

  datatype NormalizationDestinationDefinitionConfig = NormalizationDestinationDefinitionConfig(
    normalizationRepository: string,
    normalizationTag: string,
    normalizationIntegrationType: string)

  datatype ActorDefinitionVersion = ActorDefinitionVersion(
    versionId: Option<Uuid>,
    actorDefinitionId: Option<Uuid>,
    dockerRepository: Option<string>,
    dockerImageTag: Option<string>,
    spec: Node,
    documentationUrl: Option<string>,
    supportLevel: Option<SupportLevel>,
    protocolVersion: string,
    releaseStage: Option<ReleaseStage>,
    releaseDate: Option<string>,
    allowedHosts: Option<Node>,
    suggestedStreams: Option<Node>,
    supportsDbt: Option<bool>,
    normalizationConfig: Option<NormalizationDestinationDefinitionConfig>,
    supportState: SupportState)
}
