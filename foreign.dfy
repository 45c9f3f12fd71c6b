/**
 * Library code that the mapping layer calls but whose bodies are not part of
 * this model: the JSON (de)serialiser, the catalog protocol migration helper,
 * time conversions and version parsing. Each is a field of `Library`, so every
 * property proved about the mappers holds for every behaviour of these helpers.
 */
module Foreign {
  import opened Wrappers

  /** A decoded JSON document (the model's stand-in for every typed Java object read from JSON). */
  datatype Node =
    | Null
    | Bool(flag: bool)
    | Number(number: int)
    | Text(text: string)
    | Array(items: seq<Node>)
    | Object(fields: map<string, Node>)

  /** The Java class a JSON column is deserialised into. */
  datatype Shape =
    | AnyNode
    | UntypedList
    | ConfiguredAirbyteCatalog
    | AirbyteCatalog
    | FieldSelectionData
    | Schedule
    | ScheduleData
    | ResourceRequirements
    | Notification
    | NotificationSettings
    | ActorDefinitionResourceRequirements
    | ConnectorSpecification
    | AllowedHosts
    | SuggestedStreams

  /** A semantic version as parsed by the version helper. */
  datatype Version = Version(major: nat, minor: nat, patch: nat)

  datatype LocalDateTime = LocalDateTime(year: int, month: nat, day: nat, hour: nat, minute: nat, second: nat)

  datatype LocalDate = LocalDate(year: int, month: nat, day: nat)

  /**
   * The foreign helpers. A `None` result stands for the exception the helper
   * throws (a malformed document, an unparsable version, a catalog whose
   * structure the migration cannot handle).
   */
  datatype Library = Library(
    /** Deserialise a JSON text into the given class. */
    deserialize: (string, Shape) -> Option<Node>,
    /** Deserialise a JSON text into an untyped list. */
    deserializeList: string -> Option<seq<Node>>,
    /** Convert an already-parsed value into the given class. */
    convertValue: (Node, Shape) -> Option<Node>,
    /** Turn a typed object back into a JSON tree. */
    toJsonNode: Node -> Node,
    /** Rewrite a catalog's data types from protocol v1 to v0, in place. */
    downgradeSchema: (Shape, Node) -> Option<Node>,
    /** Rewrite a catalog's data types from protocol v0 to v1, in place. */
    upgradeSchema: (Shape, Node) -> Option<Node>,
    /** Seconds since the epoch of a local date-time read as UTC. */
    epochSecondUtc: LocalDateTime -> int,
    /** Parse a version string. */
    parseVersion: string -> Option<Version>,
    /** Render a version as a string. */
    serializeVersion: Version -> string,
    /** Render a date as a string. */
    dateToString: LocalDate -> string,
    /** The protocol version assumed for a connector that records none. */
    defaultProtocolVersion: Version
  )
}
