/**
 * The data model of the migration engine: states, migrations and assertions
 * of a resource, the results assertions produce, the view of a live instance
 * that the backend keeps, and the exceptions the engine raises.
 */
module Model {
  import opened Wrappers

  /** A java.util.UUID: the id of a state, migration, assertion or resource. */
  type Uuid = nat

  /** The URI of a resource type; it selects the resource plugin. */
  type ResourceType = string

  /** The runtime class of a migration; it selects the migration plugin. */
  type MigrationClass = string

  /** A post-condition check bound to a state; its variant-specific parameters are abstracted away. */
  datatype Assertion = Assertion(assertionId: Uuid)

  /** What an assertion reports when performed against an instance. */
  datatype AssertionResponse = AssertionResponse(result: bool, message: string)

  /** The externally reported outcome of one assertion (ImmutableAssertionResult). */
  datatype AssertionResult = AssertionResult(assertionId: Uuid, result: bool, message: string)

  /** A declared state of a resource, with its optional label and ordered assertions. */
  datatype State = State(stateId: Uuid, stateLabel: Option<string>, assertions: seq<Assertion>)

  /**
   * A directed edge of the resource graph. An absent fromStateId means the
   * migration starts from "resource does not exist".
   */
  datatype Migration = Migration(
    migrationId: Uuid,
    migrationClass: MigrationClass,
    fromStateId: Option<Uuid>,
    toStateId: Option<Uuid>)

  /** A chain of migrations, first to last. */
  type Path = seq<Migration>

  /** The declared states and migrations of a resource, in declaration order. */
  datatype Graph = Graph(states: seq<State>, migrations: seq<Migration>)

  /**
   * What the backend of an instance holds: the state marker that the
   * resource plugin reads and writes, and the log of migrations whose side
   * effect has been carried out on it.
   */
  datatype Backend = Backend(marker: Option<Uuid>, performed: seq<Migration>)

  /** How the live instance answers an assertion, given what has been done to it. */
  type Oracle = (Assertion, Backend) -> AssertionResponse

  /**
   * The fixed behaviour of a live instance: how it answers assertions, and
   * the migrations whose side effect fails on it (MigrationFailedException).
   */
  datatype Environment = Environment(oracle: Oracle, rejects: set<Uuid>)

  /** The exceptions the engine raises or lets through. */
  datatype Error =
    | IllegalArgument(what: string)                       // IllegalArgumentException from an argument check
    | NullDereference                                     // NullPointerException on a null the code does not check
    | NoResourcePlugin(resourceType: ResourceType)         // RuntimeException: no plugin for the resource type
    | NoMigrationPlugin(migrationClass: MigrationClass)   // RuntimeException: no plugin for the migration class
    | PathNotUnique                                       // RuntimeException "multiple possible paths found" (zero or several)
    | TargetNotSpecified
    | InvalidStateSpecified(spec: string)
    | UnknownStateSpecified(spec: string)
    | IndeterminateState(stateId: Uuid)                   // the marker names a state the resource does not declare
    | MigrationFailed(migrationId: Uuid)
    | AssertionFailed(stateId: Uuid, results: seq<AssertionResult>)
    | JumpStateFailed(stateId: Uuid)

  /** How an operation ended, and the backend it left behind. */
  datatype Run = Run(outcome: Outcome<Error>, backend: Backend)
}
