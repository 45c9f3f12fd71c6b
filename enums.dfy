/**
 * The closed enums that the mappers decode from stored tokens, each with the
 * lookup table `Enums.toEnum` is modelled by (keyed by the Java-side value
 * names) and, for each value, a token that table accepts. The `...Literal`
 * functions are the tables' partners: every value has a token, and decoding
 * that token gives the value back.
 */
module Enums {

  datatype NamespaceDefinitionType = Source | Destination | CustomFormat

  const NamespaceDefinitionTokens: map<string, NamespaceDefinitionType> :=
    map["source" := Source, "destination" := Destination, "customformat" := CustomFormat]

  function NamespaceDefinitionLiteral(v: NamespaceDefinitionType): (t: string)
    ensures t in NamespaceDefinitionTokens && NamespaceDefinitionTokens[t] == v
  {
    match v
    case Source => "source"
    case Destination => "destination"
    case CustomFormat => "customformat"
  }

  datatype Geography = Auto | Us | Eu

  const GeographyTokens: map<string, Geography> := map["auto" := Auto, "us" := Us, "eu" := Eu]

  function GeographyLiteral(v: Geography): (t: string)
    ensures t in GeographyTokens && GeographyTokens[t] == v
  {
    match v
    case Auto => "auto"
    case Us => "us"
    case Eu => "eu"
  }

  /** StandardSync.Status */
  datatype Status = Active | Inactive | Deprecated

  const StatusTokens: map<string, Status> :=
    map["active" := Active, "inactive" := Inactive, "deprecated" := Deprecated]

  function StatusLiteral(v: Status): (t: string)
    ensures t in StatusTokens && StatusTokens[t] == v
  {
    match v
    case Active => "active"
    case Inactive => "inactive"
    case Deprecated => "deprecated"
  }

  datatype ScheduleType = Manual | BasicSchedule | Cron

  const ScheduleTypeTokens: map<string, ScheduleType> :=
    map["manual" := Manual, "basicSchedule" := BasicSchedule, "cron" := Cron]

  function ScheduleTypeLiteral(v: ScheduleType): (t: string)
    ensures t in ScheduleTypeTokens && ScheduleTypeTokens[t] == v
  {
    match v
    case Manual => "manual"
    case BasicSchedule => "basicSchedule"
    case Cron => "cron"
  }

  /**
   * StandardSync.NonBreakingChangesPreference, decoded from the literal of the
   * stored auto-propagation status.
   */
  datatype NonBreakingChangesPreference = Ignore | Disable | PropagateColumns | PropagateFully

  const NonBreakingChangesPreferenceTokens: map<string, NonBreakingChangesPreference> :=
    map["ignore" := Ignore, "disable" := Disable,
        "propagate_columns" := PropagateColumns, "propagate_fully" := PropagateFully]

  /** The literal of the auto-propagation status used when none is stored. */
  const AutoPropagationIgnore: string := "ignore"

  function NonBreakingChangesPreferenceLiteral(v: NonBreakingChangesPreference): (t: string)
    ensures t in NonBreakingChangesPreferenceTokens && NonBreakingChangesPreferenceTokens[t] == v
  {
    match v
    case Ignore => AutoPropagationIgnore
    case Disable => "disable"
    case PropagateColumns => "propagate_columns"
    case PropagateFully => "propagate_fully"
  }

  /** StandardSourceDefinition.SourceType */
  datatype SourceType = Api | File | Database | CustomSource

  const SourceTypeTokens: map<string, SourceType> :=
    map["api" := Api, "file" := File, "database" := Database, "custom" := CustomSource]

  function SourceTypeLiteral(v: SourceType): (t: string)
    ensures t in SourceTypeTokens && SourceTypeTokens[t] == v
  {
    match v
    case Api => "api"
    case File => "file"
    case Database => "database"
    case CustomSource => "custom"
  }

  datatype SupportLevel = NoSupportLevel | Community | Certified

  const SupportLevelTokens: map<string, SupportLevel> :=
    map["none" := NoSupportLevel, "community" := Community, "certified" := Certified]

  function SupportLevelLiteral(v: SupportLevel): (t: string)
    ensures t in SupportLevelTokens && SupportLevelTokens[t] == v
  {
    match v
    case NoSupportLevel => "none"
    case Community => "community"
    case Certified => "certified"
  }

  datatype ReleaseStage = Alpha | Beta | GenerallyAvailable | CustomRelease

  const ReleaseStageTokens: map<string, ReleaseStage> :=
    map["alpha" := Alpha, "beta" := Beta, "generally_available" := GenerallyAvailable, "custom" := CustomRelease]

  function ReleaseStageLiteral(v: ReleaseStage): (t: string)
    ensures t in ReleaseStageTokens && ReleaseStageTokens[t] == v
  {
    match v
    case Alpha => "alpha"
    case Beta => "beta"
    case GenerallyAvailable => "generally_available"
    case CustomRelease => "custom"
  }

  /** ActorDefinitionVersion.SupportState */
  datatype SupportState = Supported | DeprecatedSupport | Unsupported

  const SupportStateTokens: map<string, SupportState> :=
    map["supported" := Supported, "deprecated" := DeprecatedSupport, "unsupported" := Unsupported]

  function SupportStateLiteral(v: SupportState): (t: string)
    ensures t in SupportStateTokens && SupportStateTokens[t] == v
  {
    match v
    case Supported => "supported"
    case DeprecatedSupport => "deprecated"
    case Unsupported => "unsupported"
  }

  /** The stored channel of a notification configuration. */
  datatype NotificationType = Webhook | Email
}
