# Verification of the workflow platform

Models of the backend's workflow platform and proofs about them, in Dafny 4.11.
`dafny verify dfyconfig.toml` checks everything.

Four layers share one state:

* **Workflow definitions** (`DefinitionService`, `DefinitionLaws`, `DefinitionAnswers`, `DefinitionCalls`,
  `Reachability`): drafts are edited, checked by a reachability fixpoint, frozen when published, cloned into new
  versions.
* **The workflow engine** (`WorkflowEngine`, `EngineLaws`, `EngineRuns`, `EngineJournals`, `EngineCounts`,
  `EngineScrubbing`, `EngineAnswers`, `EngineCalls`): instances move along transitions behind lock versions,
  idempotency records, permission gates, SLA timers and an outbox.
* **Contractor requests and the bridge** (`ContractorRequests`, `RequestRules`, `RequestBridge`, `BridgeLaws`,
  `RequestService`, `RequestLaws`, `RequestCalls`, `RequestRuns`, `RequestJournals`, `RequestAnswers`,
  `CallAnswers`, `RequestMethods`): a request has its own status, history and assignments, and a workflow
  instance that is kept in step by executing a transition, by recording one after the fact, or by forcing it.
* **Self-contained pieces**: the scrubber (`JsonScrubber`), login sessions (`AuthService`, `AuthLaws`,
  `AuthAnswers`), and the sealing of connection secrets (`SecretService`).

Every call exists twice. A function from the rows before the call to the rows after it, or an error, says what
the call does; the laws are proved about these functions and about runs of them in any order, refused calls
included. The modules named `Answers` say the same a second time, on the columns of the rows: exactly when each
call succeeds, with which error it fails otherwise, and every column it leaves. Where the code updates rows step
by step, a method on `Storage.Database`, `RequestMethods.ContractorRequest` or `AuthService.AuthStore` does the
same steps and is proved to end in exactly those rows, with that result; the calls also promise outright the
invariants they keep (`Keeps`, `StaysInStep`). A raised error leaves everything as it was, because a session
that is not committed is closed (`backend/app/db/session.py:12-17`); the methods put back what they changed
before an error.

Conventions. Rows that are never deleted are named by their position. Time is in seconds, passes as a parameter
that never goes back, and stands still during one call. The row order of a query without an order is the order of
insertion. Uniqueness constraints of the schema are checked where the code would run into them (and reported as
`Internal`), and are proved never to be hit where that holds. Reference data, permissions of the actor, the
answers of an adapter and of the password hasher are parameters of a call. `touchedAt` is the request's
`updated_at`, which the database sets. Keys are compared after lower-casing A to Z and the Kelvin sign; no other
character has a lower case made of letters the forbidden words could match (that of the dotted capital I ends in a
combining dot).

Two facts of the code that the statements make precise. A contractor cannot move an assignment when that would
take a COMPLETED request back to IN_PROGRESS, since reopening asks for an internal permission: `TaskLaw` and
`AcceptLaw` say exactly when. And `cancel_workflow` may enter a cancelled state that is inactive, and so leave
the states the publish check vouches for: `CancelLeavesReachedIff` says when, `CancelLeavesReached` shows a run.

## Model

| member | source | states |
|---|---|---|
| RequestRuns.ThreeViewsAgree | backend/app/services/request_service.py:263-543 | in every state any run of calls reaches, request status, code of the instance's current state and fold of the history agree; lock version = 1 + status changes in the history; the instance has a completion or cancellation time exactly when the status says so; the consistency check finds no issue |
| RequestRuns.HistoryExecuted | backend/app/services/contractor_request_workflow.py:376-449 | in every reachable state the executions of a request's instance are, one by one and in order, the status changes of its history that are edges of the table, and the lock version counts besides them exactly the forced ones |
| RequestRuns.AssignmentsOverRuns | backend/app/services/request_service.py:228-543 | in every reachable state assignments have distinct work types out of the request's own, a draft or new request has none, completion times are set exactly on completed assignments and not before acceptance, and n assignments were moved at most 3n times |
| RequestRuns.WorldRunKeeps | backend/app/services/request_service.py:263-543 | the invariant behind both holds along every run, started from any state that satisfies it, with generic engine calls, definition edits and sweeps in between |
| RequestRuns.CallKeeps | backend/app/services/request_service.py:263-543 | every successful call on a request keeps the invariant of all requests and instances |
| RequestRuns.ElsewhereKeeps | backend/app/api/v1/workflows.py:128-137 | engine calls on other entity types, definition edits and sweeps never disturb a contractor request, its instance or the seeded workflow |
| RequestRuns.EditHosts | backend/app/services/workflow_definition_service.py:45-47 | no edit, publication, cloning or deactivation moves version 1 of the seeded workflow or changes its contents |
| RequestRuns.VersionsApart | backend/app/services/workflow_definition_service.py:65-69 | no two definitions share code and version, so the lookup of version 1 has one answer |
| RequestRuns.SeedingHosts | backend/app/services/contractor_request_workflow.py:269-335 | the catalogue the seeding leaves satisfies what the run theorems assume |
| RequestCalls.PublishLaw | backend/app/services/request_service.py:305-344 | publication succeeds exactly when none of the checks refuses (what they ask is said by CallAnswers.PublishAnswer); it leaves the request in step, one lock version and at most one execution more exactly when the status changed |
| RequestCalls.PublishAssigns | backend/app/services/request_service.py:228-251 | publishing and republishing keep every assignment, add an offer to the contractor found for exactly the never-assigned work types that find one, and return exactly the uncovered ones |
| RequestCalls.CreateLaw | backend/app/services/request_service.py:263-302 | creation succeeds exactly when nothing refuses it, adds one instance, and leaves the new request in step with it |
| RequestCalls.EnsureCreates | backend/app/services/contractor_request_workflow.py:452-479 | an unseen request gets one instance on version 1, in the state of its status, lock version 1, found by every later lookup |
| RequestCalls.StatusLaw | backend/app/services/request_service.py:403-440 | a status change succeeds exactly when it is in the table, the actor sees the request and may follow the edge; the errors otherwise; everything stays in step |
| RequestCalls.TaskLaw | backend/app/services/request_service.py:465-543 | moving an assignment succeeds exactly when none of the checks refuses, and then request, history and instance stay in step (the columns are said by RequestAnswers.TaskAnswer) |
| RequestCalls.TaskTargets | backend/app/services/request_service.py:443-462 | moving an assignment leads the request only to CANCELLED, COMPLETED, IN_PROGRESS, PARTIALLY_ASSIGNED or nowhere; accepting or beginning work always to IN_PROGRESS |
| RequestCalls.ContractorMayFollow | backend/app/services/contractor_request_workflow.py:112-138 | which of the fifteen edges a contractor actor may follow: the seven that start, complete or cancel work |
| RequestCalls.AcceptFirstLaw | backend/app/api/v1/contractor.py:300-309 | after n turns of the loop exactly the own offers among the first n are accepted, or an offer on a completed request was met |
| RequestCalls.AcceptLaw | backend/app/api/v1/contractor.py:293-311 | accepting is all or nothing: it succeeds exactly when some assignment is one's own and no own offer would reopen a completed request; then exactly the own offers are accepted, the request is in progress if there were any, and lock version and executions have grown by one at most |
| RequestLaws.OfferKeeps | backend/app/services/request_service.py:228-251 | creating assignments changes nothing but assignments and history, keeps work types distinct, and pays three ranks per offer |
| RequestLaws.PublishedOk | backend/app/services/request_service.py:305-344 | a publication keeps the invariant of the request and logs exactly one status change if the status changed |
| RequestLaws.WithTaskOk | backend/app/services/request_service.py:499-525 | moving an assignment keeps the invariant of the request: the history continues, times are in order, the rank falls |
| RequestLaws.ApplyStatusOk | backend/app/services/request_service.py:197-225 | a change along the table keeps the invariant of the request and logs exactly one status change |
| RequestRules.SearchIsMinimum | backend/app/services/request_service.py:152-176 | the three-stage search is one lexicographic minimum over (scope tier, priority), and finds nothing exactly when nothing is eligible |
| ContractorRequests.Query | backend/app/services/request_service.py:164-173 | one stage: a responsibility of least priority among those that match, none exactly when none matches |
| ContractorRequests.Uncovered | backend/app/services/request_service.py:192-194 | the uncovered work types are those without an assignment that is not cancelled |
| RequestRules.AssignTypesAdds | backend/app/services/request_service.py:228-251 | over any prefix of the work types, exactly the never-assigned types that find a contractor are added, as untouched offers to that contractor |
| RequestRules.UpdateIff | backend/app/services/request_service.py:356-400 | when an edit is accepted; that it sets exactly the given columns and logs one entry if any changed; and that repeating it changes nothing |
| RequestRules.UpdateMerges | backend/app/services/request_service.py:356-400 | two accepted edits leave what the one merged edit leaves, the later column winning, but for the history |
| RequestRules.UpdateWellAssigned | backend/app/services/request_service.py:356-400 | an edit keeps assignments and their invariant although it clears them when work types are given |
| RequestRules.RecalculateIdempotent | backend/app/services/request_service.py:443-462 | recalculating twice is recalculating once, whatever time passes |
| RequestRules.RecalculateAnyOrder | backend/app/services/request_service.py:443-462 | the outcome does not depend on the order of the assignments |
| RequestRules.CompletedIff | backend/app/services/request_service.py:449-453 | the COMPLETED branch fires exactly when there is work and every work type has a completed assignment, and by it alone does a request become COMPLETED |
| RequestRules.AssignedBranchUnreached | backend/app/services/request_service.py:458-460 | after a move of an assignment the ASSIGNED branch is never taken |
| RequestRules.FirstPublishFixpointIff | backend/app/services/request_service.py:254-260 | the status of a first publication is a fixpoint of recalculation exactly when some work type found a contractor |
| RequestRules.MoveTaskStamped | backend/app/services/request_service.py:500-505 | a move in the table keeps the times in order and strictly lowers the rank of the assignment |
| RequestBridge.EdgeOf | backend/app/services/contractor_request_workflow.py:75-91 | there is a transition code exactly for the changes of the status table |
| BridgeLaws.SeededOk | backend/app/services/contractor_request_workflow.py:269-335 | the seeded definition is published and sound: one initial state, every status reachable, codes and ids distinct |
| BridgeLaws.SeedGate | backend/app/services/contractor_request_workflow.py:302-330 | on the seeded edges the gate asks exactly for the edge's permissions and a user, and answers Forbidden otherwise |
| BridgeLaws.NoVeto | backend/app/services/contractor_request_workflow.py:185-188 | the adapter never vetoes an edge of the table |
| BridgeLaws.EdgeCodesDiffer | backend/app/services/contractor_request_workflow.py:75-91 | the fifteen transition codes are distinct |
| BridgeLaws.LookupIsRow | backend/app/services/workflow_engine.py:62-89 | the engine's lookup and the bridge's lookup resolve to the same instance |
| BridgeLaws.SyncForces | backend/app/services/contractor_request_workflow.py:482-492 | a synchronisation puts the instance into the state of the request, raises the lock version exactly when that is another state, marks it as the status demands, and touches no other row |
| BridgeLaws.EdgeMoves | backend/app/services/contractor_request_workflow.py:376-417 | an edge followed through the engine moves exactly one instance, by one lock version and one execution, and keeps every invariant of the engine |
| BridgeLaws.ExecuteStatusBridges | backend/app/services/contractor_request_workflow.py:376-417 | when a status change through the bridge is refused and with which error; otherwise the instance stands in the target state, one version further exactly when the status changed |
| BridgeLaws.RecordStatusBridges | backend/app/services/contractor_request_workflow.py:420-449 | the same for a change recorded after the fact |
| BridgeLaws.AgreesIsConsistent | backend/app/services/contractor_request_workflow.py:495-520 | agreement of request and instance is what the repository's consistency check asks for, in every reachable state |
| RequestJournals.CallCarries | backend/app/services/request_service.py:263-543 | a call on a request takes nothing of the journals back, stores nothing sensitive, keeps the outbox in balance, and starts or cancels nothing |
| RequestJournals.WorldRunExtends | backend/app/services/workflow_engine.py:92-476 | over runs that mix request calls, engine calls, edits and sweeps, executions, records and events are only appended, lock versions never go back, settled timers and published definitions never change |
| RequestJournals.WorldRunConserves | backend/app/services/workflow_engine.py:132-476 | over such runs everything stored is scrubbed and the outbox holds starts + 2 x executions + cancellations + breaches |
| RequestJournals.RetryAfterCalls | backend/app/services/workflow_engine.py:243-256 | after any such run a call under a used key and code that names no version replays the first execution exactly when comment, reason and scrubbed input agree, and is a conflict otherwise |
| RequestJournals.VersionSpentAfterCalls | backend/app/services/workflow_engine.py:230-231 | a used lock version stays refused after any such run |
| EngineRuns.RunKeeps | backend/app/services/workflow_engine.py:92-476 | every run of edits, starts, transitions, external records, cancellations and sweeps keeps the invariant of all tables: one instance per key, in a state of its published definition; executions along its transitions; one record per key, instance and transition; at most one running timer per instance and policy; breached timers and SLA_BREACHED events in bijection |
| EngineRuns.RunExtends | backend/app/services/workflow_engine.py:92-476 | over any run executions, records and events are only appended, lock versions never go back, settled timers and published definitions never change |
| EngineRuns.RecordsUnique | backend/app/services/workflow_engine.py:293-303 | in every reachable state at most one record exists per key, instance and transition, and it names an execution of that instance and transition |
| EngineRuns.RetryFindsFirst | backend/app/services/workflow_engine.py:243-256 | after a keyed success, in every later state of the tables, a call under the same key and code that resolves to the same instance and names no version replays the first execution and changes nothing exactly when comment, reason and scrubbed input agree and the first named no version either; any other is a conflict |
| EngineRuns.VersionSpent | backend/app/services/workflow_engine.py:230-231 | after a call with lock version v has succeeded, a call on the instance with v is refused as stale in every later state of the tables |
| EngineRuns.RetryReturnsFirst | backend/app/services/workflow_engine.py:243-256 | the same after any run of the engine in between |
| EngineRuns.VersionedNeverReplays | backend/app/services/workflow_engine.py:230-256 | a call that carries a lock version never reaches the replay branch |
| EngineRuns.OneSuccessPerVersion | backend/app/services/workflow_engine.py:230-231 | at most one call ever succeeds per instance and lock version, whatever run of the engine lies between |
| EngineJournals.ReplayRebuilds | backend/app/services/workflow_engine.py:264-387 | replaying an instance's executions and cancellations from its initial state succeeds and rebuilds the current state; lock version = 1 + executions + cancellations |
| EngineJournals.TransitionEndsReached | backend/app/services/workflow_engine.py:232-279 | whatever happened before, a transition starts and ends in the set the publish check computed |
| EngineJournals.RecordEndsReached | backend/app/services/workflow_engine.py:309-338 | so does a transition recorded after the fact |
| EngineJournals.UncancelledStaysReached | backend/app/services/workflow_engine.py:117-387 | an instance never cancelled stays in that set through every later edit, publication and call |
| EngineJournals.ReachedIsActive | backend/app/services/workflow_definition_service.py:274-298 | in a published definition the reached states are exactly the active ones |
| EngineJournals.CancelLeavesReachedIff | backend/app/services/workflow_engine.py:374-387 | a cancellation leaves the set exactly when the cancelled state it picks is inactive, which it does not ask |
| EngineJournals.CancelLeavesReached | backend/app/services/workflow_engine.py:374-387 | and that happens: on a published definition with such a state, a start and a cancellation leave the instance outside the set |
| EngineCounts.Conservation | backend/app/services/workflow_engine.py:132-476 | over every run each event kind counts what happened, successful cancel calls among it; lock versions count executions and cancellations; sweeps returned in all the number of breached timers; and the outbox holds starts + 2 x executions + cancellations + breaches |
| EngineCounts.SecondSweepIdle | backend/app/services/workflow_engine.py:468-476 | a repeated sweep at the same time returns 0 and changes nothing |
| EngineCounts.TimersAfterTransition | backend/app/services/workflow_engine.py:286-287 | right after a transition the running timers of the instance are exactly one per active policy that matches state and transition, started at that moment, with start <= warning <= due |
| EngineCounts.TimersAfterRecord | backend/app/services/workflow_engine.py:359-360 | the same right after a transition recorded after the fact |
| EngineLaws.NewTimersAre | backend/app/services/workflow_engine.py:436-458 | the loop makes a timer for each policy that applies, none else, no policy twice |
| EngineLaws.StartKeeps | backend/app/services/workflow_engine.py:92-135 | a start keeps the invariant: one instance per key, in its definition's initial state |
| EngineLaws.ExecuteKeeps | backend/app/services/workflow_engine.py:210-306 | an executed or replayed transition keeps the invariant of instances, executions, records, timers and events |
| EngineLaws.RecordExternalKeeps | backend/app/services/workflow_engine.py:309-367 | so does a transition recorded after the fact |
| EngineLaws.CancelKeeps | backend/app/services/workflow_engine.py:374-387 | so does a cancellation |
| EngineLaws.SweepKeeps | backend/app/services/workflow_engine.py:468-476 | a sweep keeps BREACHED timers and SLA_BREACHED events in bijection, each breached after it was due |
| EngineLaws.CatalogKeepsPlatform | backend/app/services/workflow_definition_service.py:45-47 | an edit of definitions never invalidates a running instance or its journals |
| EngineLaws.AvailableIff | backend/app/services/workflow_engine.py:138-176 | offered are exactly the active transitions the gate lets the actor through, in sort order, and none in a terminal state |
| EngineCalls.CreateSlaTimers | backend/app/services/workflow_engine.py:436-458 | the loop adds exactly the timers of the specification and touches no other table |
| EngineCalls.CompleteActiveSlaTimers | backend/app/services/workflow_engine.py:461-465 | the loop completes exactly the running timers of one instance |
| EngineCalls.MarkBreachedSlaTimers | backend/app/services/workflow_engine.py:468-476 | the loop breaches exactly the overdue timers, logs one event each, and returns their number |
| EngineCalls.AddOutbox | backend/app/services/workflow_engine.py:432-433 | one event, its payload scrubbed |
| EngineCalls.StartWorkflow | backend/app/services/workflow_engine.py:92-135 | the tables become what the specification of a start says, or stay as they were with its error |
| EngineCalls.MoveInstance | backend/app/services/workflow_engine.py:264-291 | the common end of both kinds of transition, step by step, is the specified move |
| EngineCalls.PerformTransition | backend/app/services/workflow_engine.py:257-306 | from the gate on; a record that exists already rolls everything back |
| EngineCalls.ExecuteTransition | backend/app/services/workflow_engine.py:210-306 | the whole call is the specified one, replay and every error included |
| EngineCalls.RecordExternalTransition | backend/app/services/workflow_engine.py:309-367 | the whole call is the specified one |
| EngineCalls.CancelWorkflow | backend/app/services/workflow_engine.py:374-387 | the whole call is the specified one |
| JsonScrubber.SafeJsonLaw | backend/app/services/workflow_engine.py:414-429 | scrubbing an object keeps its shape along every path without a sensitive key, puts the mask under every sensitive key, and is idempotent |
| JsonScrubber.ScrubKeepsShape | backend/app/services/workflow_engine.py:421-429 | the same shape and the same scalars at every such path of any depth |
| JsonScrubber.ScrubMasks | backend/app/services/workflow_engine.py:421-429 | the mask directly under every sensitive key |
| JsonScrubber.ScrubIdempotent | backend/app/services/workflow_engine.py:421-429 | scrubbing twice is scrubbing once |
| JsonScrubber.ResultScrubbedOnce | backend/app/services/workflow_engine.py:290-290 | the second scrub of a result inside an outbox payload changes nothing |
| EngineScrubbing.RunScrubbed | backend/app/services/workflow_engine.py:264-433 | over every run nothing the engine stores -- event payloads, inputs and results of executions, payloads of records -- holds anything under a sensitive key but the mask |
| EngineScrubbing.ScrubbedShowsNothing | backend/app/services/workflow_engine.py:421-429 | what that means for every path into a stored document |
| Reachability.ReachableStateIds | backend/app/services/workflow_definition_service.py:301-312 | the loop terminates and returns exactly the states joined to the initial one by a finite path of active transitions |
| Reachability.ConnectedByMembership | backend/app/services/workflow_definition_service.py:301-312 | that set does not depend on order or repetition of the list |
| DefinitionLaws.CatalogRunKeeps | backend/app/services/workflow_definition_service.py:65-298 | over every run of the service published definitions stay sound and unchanged, versions of a code are 1..n, ids and codes distinct |
| DefinitionLaws.CatalogStepKeeps | backend/app/services/workflow_definition_service.py:65-271 | each call keeps that invariant |
| DefinitionLaws.PublishedImmutable | backend/app/services/workflow_definition_service.py:45-47 | no call changes a published definition but for its active flag |
| DefinitionLaws.CloneIsomorphic | backend/app/services/workflow_definition_service.py:83-139 | a new version always succeeds, is numbered after the last, isomorphic to its source along an injective old-to-new map with fresh ids, and leaves every existing row as it was |
| DefinitionLaws.CloneSucceeds | backend/app/services/workflow_definition_service.py:117-126 | the old-id lookup never misses in a reachable catalogue |
| DefinitionLaws.IsomorphismReaches | backend/app/services/workflow_definition_service.py:301-312 | the map carries reachability onto the clone, in both directions |
| DefinitionLaws.ClonePublishable | backend/app/services/workflow_definition_service.py:274-298 | the clone passes the publish check exactly when its source does |
| DefinitionCalls.ActiveStates | backend/app/services/workflow_definition_service.py:275-279 | the loop collects the active ids and the rows that are active and initial, each once |
| DefinitionCalls.ValidatePublishable | backend/app/services/workflow_definition_service.py:274-298 | the check with its loops accepts exactly the sound definitions with known permissions and safe configurations |
| DefinitionCalls.PublishWorkflowDefinition | backend/app/services/workflow_definition_service.py:255-263 | freezes exactly what passes the check |
| DefinitionCalls.CopyStates | backend/app/services/workflow_definition_service.py:98-115 | the loop copies the states in order under consecutive new ids and records old to new |
| DefinitionCalls.CopyTransitions | backend/app/services/workflow_definition_service.py:117-134 | the loop copies the transitions along the map, and fails exactly when an end is missing |
| DefinitionCalls.CreateWorkflowVersion | backend/app/services/workflow_definition_service.py:83-139 | the whole call is the specified clone; a missing id leaves no trace |
| DefinitionCalls.CreateWorkflowDefinition | backend/app/services/workflow_definition_service.py:65-80 | a draft numbered after the last version of its code |
| DefinitionCalls.UpdateWorkflowDefinition | backend/app/services/workflow_definition_service.py:142-151 | drafts only, exactly the given columns |
| DefinitionCalls.DeactivateWorkflowDefinition | backend/app/services/workflow_definition_service.py:266-271 | published or not |
| DefinitionCalls.AddWorkflowState | backend/app/services/workflow_definition_service.py:154-162 | drafts only, no second initial state, no code twice |
| DefinitionCalls.UpdateWorkflowState | backend/app/services/workflow_definition_service.py:165-184 | drafts only, own states only, no second initial state |
| DefinitionCalls.AddWorkflowTransition | backend/app/services/workflow_definition_service.py:192-200 | drafts only, both ends in the definition, safe configuration |
| DefinitionCalls.UpdateWorkflowTransition | backend/app/services/workflow_definition_service.py:203-217 | drafts only, the patched ends in the definition, safe configuration |
| DefinitionCalls.AddSlaPolicy | backend/app/services/workflow_definition_service.py:226-233 | drafts only, references in the definition |
| DefinitionCalls.UpdateSlaPolicy | backend/app/services/workflow_definition_service.py:236-245 | drafts only, own policies only |
| RequestMethods.FindContractorForWorkType | backend/app/services/request_service.py:152-176 | the loop over the three filters is the specified search |
| RequestMethods.ContractorRequest.Log | backend/app/services/request_service.py:70-90 | one history entry appended |
| RequestMethods.ContractorRequest.Enter | backend/app/services/request_service.py:197-225 | status, times and history become what the specification says, nothing for an equal status |
| RequestMethods.ContractorRequest.CreateAssignments | backend/app/services/request_service.py:228-251 | the loop adds the specified offers and returns the uncovered work types |
| RequestMethods.ContractorRequest.RecalculateStatus | backend/app/services/request_service.py:443-462 | the branches in their order are the specified recalculation |
| RequestMethods.ContractorRequest.SetTask | backend/app/services/request_service.py:499-525 | the updates of the assignment row, recalculation and history are the specified move |
| RequestMethods.ContractorRequest.Edit | backend/app/services/request_service.py:356-400 | sets exactly the given columns, or changes nothing and raises the specified error |
| RequestMethods.EnsureInstance | backend/app/services/contractor_request_workflow.py:452-479 | finds or creates the specified row |
| RequestMethods.Synchronize | backend/app/services/contractor_request_workflow.py:482-492 | forces the specified row |
| RequestMethods.ExecuteRequestStatus | backend/app/services/contractor_request_workflow.py:376-417 | request and tables change together as specified, or both are back as they were |
| RequestMethods.RecordRequestStatus | backend/app/services/contractor_request_workflow.py:420-449 | the tables follow the request as specified, or are back as they were |
| RequestMethods.Create | backend/app/services/request_service.py:263-302 | the whole call is the specified one |
| RequestMethods.Publish | backend/app/services/request_service.py:305-344 | the whole call is the specified one, its changes undone on any error |
| RequestMethods.ChangeStatus | backend/app/services/request_service.py:403-440 | the whole call is the specified one, its changes undone on any error |
| RequestMethods.ChangeAssignment | backend/app/services/request_service.py:465-543 | the whole call is the specified one, its changes undone on any error |
| RequestMethods.AcceptOffers | backend/app/api/v1/contractor.py:300-310 | the loop with one commit behind it is the specified one; an error within undoes all turns |
| RequestMethods.Accept | backend/app/api/v1/contractor.py:293-311 | the whole call is the specified one |
| AuthLaws.AuthRunKeeps | backend/app/services/auth_service.py:41-143 | in every reachable state a family has at most one unrevoked session, tokens are never shared, and an automatically locked user has no unrevoked session |
| AuthLaws.NobodyLoggedIn | backend/app/services/auth_service.py:41-58 | tables without sessions satisfy that invariant, whatever their users |
| AuthLaws.RefreshOnce | backend/app/api/v1/auth.py:76-91 | a refresh token is accepted at most once: after it was, every later call with it is refused and changes nothing |
| AuthLaws.IssuedTokensOpen | backend/app/api/v1/auth.py:59-91 | both tokens of a login open one live session of that user in a family of its own until it expires; those of a refresh one of the same user and family, and the spent token opens none |
| AuthLaws.LogoutAllHolds | backend/app/api/v1/auth.py:103-107 | after logging out everywhere a user has no unrevoked session until the next successful login, failed attempts or not, and that login ends it |
| AuthLaws.NoLiveStaysIff | backend/app/services/auth_service.py:41-58 | a user without a live session gets one by a successful login and by nothing else |
| AuthLaws.WrongPasswordLocksIff | backend/app/services/auth_service.py:123-143 | a wrong password locks exactly when it uses up the last attempt, and then revokes every session |
| AuthLaws.LockHolds | backend/app/services/auth_service.py:110-143 | after an automatic lock, whatever is tried, the user stays locked and without sessions as long as the lock lasts |
| AuthService.AuthStore.CreateSession | backend/app/services/auth_service.py:41-58 | a session with fresh tokens, in the given family or a fresh one |
| AuthService.AuthStore.RevokeSession | backend/app/services/auth_service.py:86-89 | one row revoked |
| AuthService.AuthStore.RevokeAllSessions | backend/app/services/auth_service.py:92-98 | exactly the unrevoked rows of one user revoked |
| AuthService.AuthStore.CheckUserCanLogin | backend/app/services/auth_service.py:110-120 | lifts an automatic lock exactly when it has run out |
| AuthService.AuthStore.RecordFailedLogin | backend/app/services/auth_service.py:123-143 | counts, and locks at the limit |
| AuthService.AuthStore.LogIn | backend/app/api/v1/auth.py:59-67 | the whole call is the specified one; an uncommitted unlock is put back |
| AuthService.AuthStore.RefreshSession | backend/app/api/v1/auth.py:76-91 | rotation within the family |
| AuthService.AuthStore.LogOut | backend/app/api/v1/auth.py:95-99 | the session of the access token revoked |
| AuthService.AuthStore.LogOutEverywhere | backend/app/api/v1/auth.py:103-107 | every session of its user revoked |
| SecretService.XorStream | backend/app/services/secret_service.py:21-27 | the loop makes enough key bytes, terminates for every length, keeps the length, and is the specified stream |
| SecretService.XorTwice | backend/app/services/secret_service.py:21-27 | the stream is its own inverse |
| SecretService.OpensToSealed | backend/app/services/secret_service.py:30-55 | sealing succeeds exactly when there is nothing to seal or a key is there; what is sealed opens to the same dictionary, the empty one included |
| SecretService.OnlySealedOpens | backend/app/services/secret_service.py:46-55 | unless its MAC collides, an altered nonce of the same length or an altered ciphertext never opens, and what opens is what was sealed |
| RequestAnswers.TaskAnswer | backend/app/services/request_service.py:443-543 | a contractor moves an assignment exactly when the move is a step of the work, a demanded work result exists, and it would not reopen a completed request; 409 or 403 otherwise. The status after it, by quantifiers over work types and assignments: all dropped, CANCELLED; every type finished, COMPLETED; some work accepted or begun, IN_PROGRESS; some type without live work, PARTIALLY_ASSIGNED; else unchanged. The row moved, the completion time and the one history entry, column by column |
| RequestAnswers.RecalculatedAnswer | backend/app/services/request_service.py:443-462 | the branches of the recalculation give that case law whatever the former status |
| RequestAnswers.TablesAre | backend/app/services/request_service.py:36-53 | both status tables, said from the side of the target |
| RequestAnswers.TaskCallAnswer | backend/app/api/v1/contractor.py:325-335 | a call on an assignment that is one's own is the move of it; on any other, or none, 404 and the world stays as it is |
| RequestAnswers.OnlyOwnersMove | backend/app/api/v1/contractor.py:293-345 | over every run of calls no assignment is lost or handed on, and it comes to another status only by a task or accept call whose owners hold its contractor |
| RequestAnswers.StepMovesOwn | backend/app/api/v1/contractor.py:293-345 | the same per call, with the step of the table it may take |
| CallAnswers.SearchAnswer | backend/app/services/request_service.py:152-176 | the search finds a contractor exactly when an active responsibility for the work type suits the site; it is of the first tier that has one and of least priority in it |
| CallAnswers.PublishErrorAnswer | backend/app/services/request_service.py:103-149 | a request may be published exactly when title, description, city, facility and work types are given, city and facility exist and belong together, the types are active, a demanded premise is given, and a given premise lies in the facility; each fault with its 404 or 422 |
| CallAnswers.PublishAnswer | backend/app/services/request_service.py:305-344 | publication succeeds exactly for an open request ready to publish whose actor may take it to the status of its coverage: NEW if no type has live work or finds a contractor, ASSIGNED if all do, else PARTIALLY_ASSIGNED; errors, columns and every history entry |
| CallAnswers.PublishStatusAnswer | backend/app/services/request_service.py:228-260 | that status, by quantifiers over work types, assignments and responsibilities |
| CallAnswers.PublishLeaves | backend/app/services/contractor_request_workflow.py:376-417 | a publication that changes the status logs one execution with the actor and both statuses, and the instance has the times of the request |
| CallAnswers.CreateAnswer | backend/app/services/request_service.py:263-302 | every column of a new request; when a draft is left and when it is published from that draft, with the errors |
| CallAnswers.EditAnswer | backend/app/services/request_service.py:347-400 | 422 for a malformed payload, 409 for a final request or the scope of a published one; else exactly the given columns and one entry if any changed |
| CallAnswers.StatusAnswer | backend/app/services/request_service.py:403-440 | a status change succeeds exactly for a step of the table by an actor that sees the request and has what the change asks; 409, 404 or 403 otherwise; the columns (reopening clears completion and closing time), the history entry, the execution, the times of the instance |
| CallAnswers.TakeAnswer | backend/app/services/contractor_request_workflow.py:120-146 | what each change of status asks of the actor, by statuses and permission names |
| CallAnswers.SeeAnswer | backend/app/services/contractor_request_workflow.py:159-179 | who sees a request: contractors with an assignment of their own, users with one of two permissions; 404 or 403 otherwise |
| CallAnswers.TaskLeaves | backend/app/services/contractor_request_workflow.py:420-449 | a move of an assignment that changes the status logs one execution with contractor, comment, assignment and both statuses, and stamps the instance if it is over |
| CallAnswers.AcceptAnswer | backend/app/api/v1/contractor.py:293-311 | 404 without an assignment of one's own, 403 when it would reopen; else exactly the own offers become accepted now, the request is in progress if there were any, and there is one history entry for each |
| CallAnswers.SeedStateAnswer | backend/app/services/contractor_request_workflow.py:269-300 | every status has one active state of its code: initial for DRAFT, terminal exactly when the table has no way on |
| CallAnswers.SeedTransitionAnswer | backend/app/services/contractor_request_workflow.py:302-330 | a seeded transition joins two states exactly when the status table has the step |
| CallAnswers.VetoAnswer | backend/app/services/contractor_request_workflow.py:185-188 | the adapter vetoes exactly what is no step of the table from the status of the request |
| CallAnswers.ConsistentIff | backend/app/services/contractor_request_workflow.py:495-520 | the consistency check finds no issue exactly when the request has an instance, in the state of its status |
| EngineAnswers.ExecuteFreshIff | backend/app/services/workflow_engine.py:210-262 | without a used key a transition succeeds exactly when the lock version is current, the gate opens, a demanded comment, reason and every required field are supplied, and the adapter agrees; the errors in their order |
| EngineAnswers.ExecuteUsedKey | backend/app/services/workflow_engine.py:243-256 | under a used key the call with the recorded comment, reason, scrubbed input and version returns the recorded execution and changes nothing; any other is a conflict |
| EngineAnswers.ExecuteFindsNothing | backend/app/services/workflow_engine.py:62-89 | no adapter, a refused entity, no instance: the errors in their order |
| EngineAnswers.ExecuteFindsNoTransition | backend/app/services/workflow_engine.py:228-242 | a stale version is a conflict before an unknown transition is not found |
| EngineAnswers.ExecuteLeaves | backend/app/services/workflow_engine.py:264-304 | every row a transition leaves: instance, execution, settled and new timers, both events, the record of the key |
| EngineAnswers.AdvanceAnswer | backend/app/services/workflow_engine.py:264-291 | those rows for both kinds of transition |
| EngineAnswers.GateAnswer | backend/app/services/workflow_engine.py:156-176 | the gate opens exactly from the current state, for a configuration of safe keys and an actor with the permission, one of those allowed, and an allowed type; the errors otherwise |
| EngineAnswers.RecordAnswer | backend/app/services/workflow_engine.py:309-367 | when a transition is recorded after the fact, with which error it is refused, and every row it leaves |
| EngineAnswers.StartAnswer | backend/app/services/workflow_engine.py:92-135 | a start finds the instance of the key or makes one in the active initial state of the newest published version, unless entity or adapter refuse; every row it leaves |
| EngineAnswers.LatestAnswer | backend/app/services/workflow_engine.py:41-52 | the definition a start uses: published, active, of the type and code, of the highest version |
| EngineAnswers.LookupNewest | backend/app/services/workflow_engine.py:62-89 | the lookup finds the newest instance of entity, key and code, none exactly when there is none |
| EngineAnswers.NewTimersFit | backend/app/services/workflow_engine.py:436-458 | new timers are, one for one, those of the active policies for state and transition: due 60 x minutes after the start, warned about that much earlier but not before the start |
| EngineAnswers.CancelAnswer | backend/app/services/workflow_engine.py:374-387 | a cancellation succeeds exactly when the current state is not terminal and there is a cancelled state; 409 otherwise; the columns and the event it leaves |
| EngineAnswers.SweepAnswer | backend/app/services/workflow_engine.py:468-476 | after a sweep no running timer is overdue; exactly the overdue ones were breached, at that time, and counted; nothing else changed |
| EngineAnswers.SweepEvents | backend/app/services/workflow_engine.py:468-476 | the events added name exactly the timers breached and their instances |
| DefinitionAnswers.EditsDraftsOnly | backend/app/services/workflow_definition_service.py:30-47 | nine calls work on drafts only: 404 for an unknown definition, 409 for a published one |
| DefinitionAnswers.PublishAnswer | backend/app/services/workflow_definition_service.py:255-298 | a draft is published exactly when it has one active initial state, a way of active transitions from it to every active state, active ends, safe keys and known permissions; nothing but the flag changes |
| DefinitionAnswers.ConnectedAnswer | backend/app/services/workflow_definition_service.py:301-312 | connection is a sequence of state ids, each joined to the next by an active transition |
| DefinitionAnswers.CreateVersionAnswer | backend/app/services/workflow_definition_service.py:83-139 | the columns of a new version: those of the source, one version above the highest of the code, rows in sort order under consecutive new ids |
| DefinitionAnswers.CreateDefinitionAnswer | backend/app/services/workflow_definition_service.py:65-80 | an empty, active draft, one version above the highest of its code |
| DefinitionAnswers.AddStateAnswer | backend/app/services/workflow_definition_service.py:154-162 | added with its columns unless a second initial state or a second state of the code would arise |
| DefinitionAnswers.UpdateStateAnswer | backend/app/services/workflow_definition_service.py:165-189 | patched in place unless unknown or becoming a second initial state |
| DefinitionAnswers.AddTransitionAnswer | backend/app/services/workflow_definition_service.py:192-200 | added with its columns when both ends are states of the definition and the configuration has safe keys only |
| DefinitionAnswers.UpdateTransitionAnswer | backend/app/services/workflow_definition_service.py:203-223 | patched in place under the same conditions on the patched row |
| DefinitionAnswers.AddPolicyAnswer | backend/app/services/workflow_definition_service.py:226-233 | added with its columns when its references are rows of the definition and its minutes well formed |
| DefinitionAnswers.UpdatePolicyAnswer | backend/app/services/workflow_definition_service.py:236-245 | patched in place when it is known and its minutes stay well formed |
| DefinitionAnswers.DeactivateAnswer | backend/app/services/workflow_definition_service.py:266-271 | switches off drafts and published definitions alike, and changes nothing else |
| AuthAnswers.LoginAnswer | backend/app/services/auth_service.py:110-166 | a login succeeds exactly for an active, enabled, local user with a hash, not locked or with an automatic lock that has run out, and the right password; 401 or 403 otherwise; the row and the session it leaves |
| AuthAnswers.WrongPasswordAnswer | backend/app/services/auth_service.py:123-155 | a wrong password adds one failed attempt and touches no session below the limit, and at the limit locks the user and revokes every session |
| AuthAnswers.RefreshAnswer | backend/app/api/v1/auth.py:76-91 | a refresh succeeds exactly with the token of an unrevoked, unexpired session; that one is revoked and one of the same user and family issued |
| AuthAnswers.LogoutAnswer | backend/app/api/v1/auth.py:94-99 | logging out revokes the session in force that the token opens, and that alone |
| AuthAnswers.LogoutAllAnswer | backend/app/api/v1/auth.py:102-107 | for active users that are not locked; exactly their live sessions are revoked |
| JsonScrubber.SensitiveIff | backend/app/services/workflow_engine.py:414-425 | masked are, in any mix of cases, the keys that mention password, token or secret, and authorization, cookie and headers |
| SecretService.KeystreamAnswer | backend/app/services/secret_service.py:21-27 | each byte is hidden under the hash of key, nonce and the eight bytes that spell its block number |
| SecretService.KeyAnswer | backend/app/services/secret_service.py:12-18 | the key is the hash of the secret; without one none in production, a fixed one elsewhere |

## Left out

- RetryReturnsFirst: the request hash is the scrubbed payload itself, so two payloads never collide; `expires_at` of a record is not modelled, the code never reads it.
- CloneIsomorphic: speaks of the columns the engine reads; descriptions, colours, icons and attachment flags are not modelled. SLA policies are not cloned, by the code either.
- ValidatePublishable: assumes distinct state ids, which the primary key gives, and treats configuration values as well typed; only unknown keys are refused.
- SearchIsMinimum: among responsibilities of equal priority the first row wins; the database may pick another.
- UpdateIff: an explicit null for title or work types, which the database or Python refuses with a server error, is not a payload of the model.
- ThreeViewsAgree: is about requests created through the service; instances made by the backfill start in the middle of a history.
- ExecuteRequestStatus: the callback that changes the request runs before the engine's own writes instead of among them; nothing reads the rows in between.
- AcceptLaw: all turns of the loop happen at one instant.
- RefreshOnce: tokens come from a counter and stand for their hashes, so no two collide.
- OnlySealedOpens: nonce and ciphertext enter the MAC joined, so the statement compares nonces of one length, as `encrypt_json` draws them.
- OpensToSealed: hash, MAC, JSON text and base64 are parameters, of which only that text and base64 can be read back is assumed.
- The steps of the seeding: `Seeded` is what they leave, proved sound, not a run of the service calls.
- Concurrent sessions, flush order and stale collections: a call is one atomic step.
- Request numbers, contacts, attachments, comments, notifications, dashboards and audit rows: nothing depends on them.
- Administrative locks, password changes, password expiry, the development headers and CSRF: only the calls that create and revoke sessions are modelled.
- Roles and their editing: the permissions of an actor are a given set.
- Backfill of instances, the generic read endpoints, the recovery script and the platform doctor: lookups over the same rows.
