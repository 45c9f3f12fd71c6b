/** The stored columns the mappers read, named after their tables. */
module Tables {
  import opened Rows

  const ConnectionId: Column := "connection.id"
  const ConnectionNamespaceDefinition: Column := "connection.namespace_definition"
  const ConnectionNamespaceFormat: Column := "connection.namespace_format"
  const ConnectionPrefix: Column := "connection.prefix"
  const ConnectionSourceId: Column := "connection.source_id"
  const ConnectionDestinationId: Column := "connection.destination_id"
  const ConnectionName: Column := "connection.name"
  const ConnectionCatalog: Column := "connection.catalog"
  const ConnectionFieldSelectionData: Column := "connection.field_selection_data"
  const ConnectionStatus: Column := "connection.status"
  const ConnectionSchedule: Column := "connection.schedule"
  const ConnectionManual: Column := "connection.manual"
  const ConnectionScheduleType: Column := "connection.schedule_type"
  const ConnectionScheduleData: Column := "connection.schedule_data"
  const ConnectionResourceRequirements: Column := "connection.resource_requirements"
  const ConnectionSourceCatalogId: Column := "connection.source_catalog_id"
  const ConnectionBreakingChange: Column := "connection.breaking_change"
  const ConnectionGeography: Column := "connection.geography"
  const SchemaManagementAutoPropagationStatus: Column := "schema_management.auto_propagation_status"

  const WorkspaceId: Column := "workspace.id"
  const WorkspaceName: Column := "workspace.name"
  const WorkspaceSlug: Column := "workspace.slug"
  const WorkspaceInitialSetupComplete: Column := "workspace.initial_setup_complete"
  const WorkspaceCustomerId: Column := "workspace.customer_id"
  const WorkspaceEmail: Column := "workspace.email"
  const WorkspaceAnonymousDataCollection: Column := "workspace.anonymous_data_collection"
  const WorkspaceSendNewsletter: Column := "workspace.send_newsletter"
  const WorkspaceSendSecurityUpdates: Column := "workspace.send_security_updates"
  const WorkspaceDisplaySetupWizard: Column := "workspace.display_setup_wizard"
  const WorkspaceTombstone: Column := "workspace.tombstone"
  const WorkspaceNotifications: Column := "workspace.notifications"
  const WorkspaceNotificationSettings: Column := "workspace.notification_settings"
  const WorkspaceFirstSyncComplete: Column := "workspace.first_sync_complete"
  const WorkspaceFeedbackComplete: Column := "workspace.feedback_complete"
  const WorkspaceGeography: Column := "workspace.geography"
  const WorkspaceWebhookOperationConfigs: Column := "workspace.webhook_operation_configs"
  const WorkspaceOrganizationId: Column := "workspace.organization_id"

  const OrganizationId: Column := "organization.id"
  const OrganizationName: Column := "organization.name"
  const OrganizationUserId: Column := "organization.user_id"
  const OrganizationEmail: Column := "organization.email"
  const OrganizationPba: Column := "organization.pba"
  const OrganizationOrgLevelBilling: Column := "organization.org_level_billing"

  const ActorId: Column := "actor.id"
  const ActorConfiguration: Column := "actor.configuration"
  const ActorWorkspaceId: Column := "actor.workspace_id"
  const ActorDefaultVersionId: Column := "actor.default_version_id"
  const ActorActorDefinitionId: Column := "actor.actor_definition_id"
  const ActorTombstone: Column := "actor.tombstone"
  const ActorName: Column := "actor.name"

  const ActorDefinitionId: Column := "actor_definition.id"
  const ActorDefinitionDefaultVersionId: Column := "actor_definition.default_version_id"
  const ActorDefinitionIcon: Column := "actor_definition.icon"
  const ActorDefinitionName: Column := "actor_definition.name"
  const ActorDefinitionSourceType: Column := "actor_definition.source_type"
  const ActorDefinitionTombstone: Column := "actor_definition.tombstone"
  const ActorDefinitionPublic: Column := "actor_definition.public"
  const ActorDefinitionCustom: Column := "actor_definition.custom"
  const ActorDefinitionResourceRequirements: Column := "actor_definition.resource_requirements"
  const ActorDefinitionMaxSecondsBetweenMessages: Column := "actor_definition.max_seconds_between_messages"

  const ActorOauthParameterId: Column := "actor_oauth_parameter.id"
  const ActorOauthParameterConfiguration: Column := "actor_oauth_parameter.configuration"
  const ActorOauthParameterWorkspaceId: Column := "actor_oauth_parameter.workspace_id"
  const ActorOauthParameterActorDefinitionId: Column := "actor_oauth_parameter.actor_definition_id"

  const ActorCatalogId: Column := "actor_catalog.id"
  const ActorCatalogCatalog: Column := "actor_catalog.catalog"
  const ActorCatalogCatalogHash: Column := "actor_catalog.catalog_hash"

  const ActorCatalogFetchEventActorId: Column := "actor_catalog_fetch_event.actor_id"
  const ActorCatalogFetchEventActorCatalogId: Column := "actor_catalog_fetch_event.actor_catalog_id"
  const ActorCatalogFetchEventCreatedAt: Column := "actor_catalog_fetch_event.created_at"

  const WorkspaceServiceAccountWorkspaceId: Column := "workspace_service_account.workspace_id"
  const WorkspaceServiceAccountServiceAccountId: Column := "workspace_service_account.service_account_id"
  const WorkspaceServiceAccountServiceAccountEmail: Column := "workspace_service_account.service_account_email"
  const WorkspaceServiceAccountJsonCredential: Column := "workspace_service_account.json_credential"
  const WorkspaceServiceAccountHmacKey: Column := "workspace_service_account.hmac_key"

  const ConnectorBuilderProjectWorkspaceId: Column := "connector_builder_project.workspace_id"
  const ConnectorBuilderProjectId: Column := "connector_builder_project.id"
  const ConnectorBuilderProjectName: Column := "connector_builder_project.name"
  const ConnectorBuilderProjectTombstone: Column := "connector_builder_project.tombstone"
  const ConnectorBuilderProjectActorDefinitionId: Column := "connector_builder_project.actor_definition_id"
  const ConnectorBuilderProjectManifestDraft: Column := "connector_builder_project.manifest_draft"
  /** The computed column the project query adds under the plain name `hasDraft`. */
  const HasDraft: Column := "hasDraft"
  const ActiveDeclarativeManifestVersion: Column := "active_declarative_manifest.version"

  const DeclarativeManifestActorDefinitionId: Column := "declarative_manifest.actor_definition_id"
  const DeclarativeManifestDescription: Column := "declarative_manifest.description"
  const DeclarativeManifestVersion: Column := "declarative_manifest.version"
  const DeclarativeManifestManifest: Column := "declarative_manifest.manifest"
  const DeclarativeManifestSpec: Column := "declarative_manifest.spec"

  const ConfigInjectionActorDefinitionId: Column := "actor_definition_config_injection.actor_definition_id"
  const ConfigInjectionInjectionPath: Column := "actor_definition_config_injection.injection_path"
  const ConfigInjectionJsonToInject: Column := "actor_definition_config_injection.json_to_inject"

  const BreakingChangeActorDefinitionId: Column := "actor_definition_breaking_change.actor_definition_id"
  const BreakingChangeVersion: Column := "actor_definition_breaking_change.version"
  const BreakingChangeMessage: Column := "actor_definition_breaking_change.message"
  const BreakingChangeUpgradeDeadline: Column := "actor_definition_breaking_change.upgrade_deadline"
  const BreakingChangeMigrationDocumentationUrl: Column := "actor_definition_breaking_change.migration_documentation_url"

  const VersionId: Column := "actor_definition_version.id"
  const VersionActorDefinitionId: Column := "actor_definition_version.actor_definition_id"
  const VersionDockerRepository: Column := "actor_definition_version.docker_repository"
  const VersionDockerImageTag: Column := "actor_definition_version.docker_image_tag"
  const VersionSpec: Column := "actor_definition_version.spec"
  const VersionDocumentationUrl: Column := "actor_definition_version.documentation_url"
  const VersionSupportLevel: Column := "actor_definition_version.support_level"
  const VersionProtocolVersion: Column := "actor_definition_version.protocol_version"
  const VersionReleaseStage: Column := "actor_definition_version.release_stage"
  const VersionReleaseDate: Column := "actor_definition_version.release_date"
  const VersionAllowedHosts: Column := "actor_definition_version.allowed_hosts"
  const VersionSuggestedStreams: Column := "actor_definition_version.suggested_streams"
  const VersionSupportsDbt: Column := "actor_definition_version.supports_dbt"
  const VersionNormalizationRepository: Column := "actor_definition_version.normalization_repository"
  const VersionNormalizationTag: Column := "actor_definition_version.normalization_tag"
  const VersionNormalizationIntegrationType: Column := "actor_definition_version.normalization_integration_type"
  const VersionSupportState: Column := "actor_definition_version.support_state"
}
