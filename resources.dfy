/** The records the plan controller reads: migrations, the generation
    counters of its dependencies, and the values a snapshot holds. */
module Resources {

  /** A namespaced object reference. */
  datatype Ref = Ref(namespace: string, name: string)

  /** A value captured into a migration's snapshot. */
  datatype Value =
    | Text(text: string)
    | ObjectRef(ref: Ref)
    | Mapping(pairs: map<string, string>)

  /** The key/value snapshot attached to a migration. */
  type Snapshot = map<string, Value>

  /** Sentinel key: present once the plan's inputs have been captured. */
  const PlanUidKey: string := "plan.UID"
  const SourceKey: string := "plan.source"
  const DestinationKey: string := "plan.destination"
  const MapKey: string := "plan.map"

  /** A request to execute a plan once. `plan` is the plan it references;
      `markedStarted` and `markedCompleted` are driven by the engine. */
  datatype Migration = Migration(
    uid: string,
    namespace: string,
    name: string,
    created: int,
    plan: Ref,
    markedStarted: bool,
    markedCompleted: bool,
    snapshot: Snapshot)

  /** A Provider or a Host: only its generation counters matter here. */
  datatype Dependency = Dependency(generation: int, observedGeneration: int)

  /** The outcome of listing every object of one kind. */
  datatype Listing<T> = Listed(items: seq<T>) | ListFailed

  /** A value or an error. */
  datatype Result<T> = Ok(value: T) | Err
}
