/** The rows of the workflow platform (models/workflow.py), as values.  A row of
    definitions, instances, executions, timers and events is identified by its
    position: none of these tables is ever deleted from. */
module WorkflowModel {
  import opened Wrappers
  import opened JsonScrubber

  type Id = nat
  type Time = int   // seconds

  datatype StateType = InitialState | ActiveState | WaitingState | CompletedState | CancelledState | ClosedState

  datatype State = State(
    id: Id, code: string, name: string, stateType: StateType, sortOrder: int,
    isInitial: bool, isTerminal: bool, isActive: bool)

  /** `configuration_json`: the keys present, and the values of the four the engine reads. */
  datatype Configuration = Configuration(
    keys: set<string>, requiredFields: seq<string>,
    allowedActorTypes: set<string>, allowedPermissions: set<string>)

  datatype Transition = Transition(
    id: Id, code: string, name: string, fromId: Id, toId: Id, permission: Option<string>,
    requiresComment: bool, requiresReason: bool, sortOrder: int, isActive: bool,
    configuration: Option<Configuration>)

  datatype SlaPolicy = SlaPolicy(
    id: Id, code: string, stateId: Option<Id>, transitionId: Option<Id>,
    durationMinutes: int, warningBeforeMinutes: Option<int>, isActive: bool)

  datatype Definition = Definition(
    code: string, name: string, entityType: string, version: nat,
    isActive: bool, isPublished: bool,
    states: seq<State>, transitions: seq<Transition>, policies: seq<SlaPolicy>)

  /** Every definition, and the next unused state, transition or policy id. */
  datatype Catalog = Catalog(defs: seq<Definition>, nextId: Id)

  // -- Engine rows ----------------------------------------------------------

  datatype ActorType = System | InternalUser | ContractorUser {
    function Code(): string {
      match this
      case System => "SYSTEM"
      case InternalUser => "INTERNAL_USER"
      case ContractorUser => "CONTRACTOR_USER"
    }
  }

  datatype Actor = Actor(actorType: ActorType, actorId: Option<Id>, permissions: set<string>, contractorIds: set<Id>)

  datatype Instance = Instance(
    definition: nat, workflowVersion: nat, entityType: string, entityId: Id, instanceKey: string,
    current: Id, startedAt: Time, completedAt: Option<Time>, cancelledAt: Option<Time>, lockVersion: int)

  datatype Execution = Execution(
    inst: nat, transition: Id, fromId: Id, toId: Id, actorType: ActorType, actorId: Option<Id>,
    comment: Option<string>, reason: Option<string>, input: Option<Object>, result: Option<Object>,
    correlation: Option<string>)

  /** What `transition_request_hash` hashes; it stands for the hash. */
  datatype Fingerprint = Fingerprint(
    comment: Option<string>, reason: Option<string>, input: Option<Object>, lockVersion: Option<int>)

  datatype Record = Record(key: string, inst: nat, transition: Id, fingerprint: Fingerprint, execution: nat)

  datatype TimerStatus = Running | Settled | Breached   // ACTIVE, COMPLETED, BREACHED

  datatype Timer = Timer(
    inst: nat, policy: Id, startedAt: Time, dueAt: Time, warningAt: Option<Time>,
    status: TimerStatus, completedAt: Option<Time>, breachedAt: Option<Time>)

  datatype EventKind = WorkflowStarted | TransitionExecuted | StateChanged | WorkflowCancelled | SlaBreached

  datatype Event = Event(kind: EventKind, aggregateType: string, aggregateId: Id, payload: Object)

  datatype Platform = Platform(
    catalog: Catalog, instances: seq<Instance>, executions: seq<Execution>,
    records: seq<Record>, timers: seq<Timer>, outbox: seq<Event>)

  // -- Parts of a definition ------------------------------------------------

  function StateIds(states: seq<State>): set<Id> {
    set s | s in states :: s.id
  }

  function ActiveStateIds(states: seq<State>): set<Id> {
    set s | s in states && s.isActive :: s.id
  }

  function FindState(states: seq<State>, id: Id): Option<State> {
    var k := FirstWhere(states, (s: State) => s.id == id);
    if k.Some? then Some(states[k.value]) else None
  }
}
