# Plan reconciler model

A Dafny model of the plan controller of forklift-controller
(`pkg/controller/plan/controller.go`). It covers the control loop that, on
every trigger, fetches a migration Plan; postpones while a Provider or Host
is mid-update; stages and validates the plan's conditions; persists the
plan status; and dispatches the earliest pending Migration. Dispatching
means: reset stale run state, mark the migration active, capture the
plan's inputs into the migration's snapshot exactly once, run the engine,
persist status, and pick a requeue delay.

Modules, following the components of the controller:

- `Resources` (resources.dfy): migrations, Provider/Host generation
  counters, snapshot values and keys, listing results.
- `Conditions` (conditions.dfy): the contract of the condition library.
  It has a map from condition type to condition (with blocker and durable
  flags), a staging protocol, and the blocker predicate.
- `Ordering` (ordering.dfy): the sort comparator. Creation timestamp first,
  then `namespace + "/" + name` compared byte by byte. Also sortedness and
  the uniqueness of a sorted order.
- `Selector` (selector.dfy): `pendingMigrations`. An append loop filters
  the listing, then an in-place sort on an array orders the result.
- `Gate` (gate.dfy): `postpone`. Two early-exit loops, one over Providers
  and one over Hosts.
- `PlanController` (controller.dfy): the `Plan` object, whose status is
  changed step by step, and the `Execute` and `Reconcile` methods.

Collaborators are inputs. A `Cluster` record holds one response per call
a pass can make: the plan fetch (found / not found / failed), the two
dependency listings, the validation outcome, each update's success, the
migration listing, `plancontext.New`, and the engine's result. `Reconcile`
returns the requeue delay in milliseconds (0 is no requeue) and the list
of writes it issued, in order. It also returns whether an error was logged
and cleared. The Go function's error result is always cleared by its
deferred handler, so the model has no error output. Timestamps are
integers. `FastReQ` is 500 and `SlowReQ` is 3000.

Two behaviours of the code that the model keeps:

- A fetch failure other than not-found is logged and cleared, and gives
  no requeue (controller.go:139-153).
- Status is written twice: before `execute` (line 203) and after the
  engine runs (line 274). The migration update (line 257) can succeed
  before a later step of `execute` fails.

Assumptions about code that is not part of this model:

- `Migration.Match` compares the migration's plan reference with the
  plan's namespace and name.
- `MarkReset` returns the plan's migration status to its initial value:
  empty `Active`, not started, not completed.
- The snapshot keys for source, destination and map are `plan.source`,
  `plan.destination` and `plan.map`.
- The condition types are `Ready`, `Succeeded` and `Failed`.
- Beginning staging keeps durable conditions current and makes every
  other condition stale. While staging, only current conditions count as
  blockers: durable ones and those re-asserted in the pass. Ending
  staging drops the stale ones. Once staging ends, every condition counts.
  So a durable `Succeeded` or `Failed` left by an earlier run survives the
  pass. That is why `execute` deletes them when it dispatches a migration
  that never started (line 243). A durable blocker also keeps Ready from
  being added. Ready itself is not durable.

## Model

| member | source | states |
|---|---|---|
| `PlanController.Reconcile` | pkg/controller/plan/controller.go:128-226 | Every outcome becomes a requeue decision and no error is returned. Not-found: no requeue, no writes. Other fetch failure: no requeue, error cleared. Postpone or postpone error: slow requeue, nothing written. Not-ready validation: slow requeue. Other validation error: fast requeue. Failed status update: fast requeue. A blocker among the persisted conditions (re-asserted, or durable from before): no requeue after the one status write. Execute errors: fast requeue. Otherwise the engine delay if positive, else no requeue. Gives the exact writes in every case. |
| `PlanController.PersistAndExecute` | pkg/controller/plan/controller.go:201-225 | Sets ObservedGeneration to Generation and persists the status first. A failed write gives a fast requeue. A blocker gives no requeue. An execute error gives a fast requeue. Otherwise the result is the delay from execute if positive, else no requeue. Gives the writes of each case. |
| `PlanController.Execute` | pkg/controller/plan/controller.go:230-283 | A blocker, a failed listing or an empty pending list leaves the plan unchanged with delay 0 (error only for the failed listing). Otherwise only the head is used. A never-started head resets the migration status and drops Succeeded/Failed. `Active` becomes the head's UID. The snapshot is captured and the Migration updated only when the sentinel is absent, and an update failure stops before the engine. Status is persisted after a successful run. A delay of 0 becomes FastReQ when more than one migration is pending. |
| `Selector.PendingMigrations` | pkg/controller/plan/controller.go:287-321 | A listing failure is an error. Otherwise the result is sorted by the comparator and is a permutation of the filtered listing. |
| `Selector.FilterCount` | pkg/controller/plan/controller.go:294-304 | The filter keeps each migration that matches the plan and is not completed, as often as it was listed, and drops every other migration. |
| `Selector.PendingOrderContents` | pkg/controller/plan/controller.go:294-304 | A pending list holds a migration iff the migration was listed, matches the plan and is not completed, with the same multiplicity as in the listing. |
| `Selector.MinIndex` | pkg/controller/plan/controller.go:305-318 | Returns a position in the unsorted suffix whose migration no other migration there sorts before. |
| `Selector.SortSlice` | pkg/controller/plan/controller.go:305-318 | The array ends up sorted by (timestamp, "namespace/name") and is a permutation of its old contents. |
| `Selector.SwapMinExtendsPrefix` | pkg/controller/plan/controller.go:305-318 | Swapping the least remaining element into place extends the sorted prefix by one and keeps the multiset. |
| `Selector.PendingOrderDeterministic` | pkg/controller/plan/controller.go:305-318 | With distinct (timestamp, key) pairs, any two pending orders of the same listing are equal, so repeated passes pick the same order. |
| `Selector.SameTimestampOrdersByName` | pkg/controller/plan/controller.go:305-318 | `ns/b` and `ns/a` created at the same time, listed in that order, come out as `[ns/a, ns/b]`. |
| `Selector.CompletedMigrationIsSkipped` | pkg/controller/plan/controller.go:300-302 | Once the dispatched migration is marked completed, the next selection holds only the migration after it. |
| `Ordering.SortedPermutationUnique` | pkg/controller/plan/controller.go:305-318 | Two sorted permutations of the same migrations with distinct keys are equal. |
| `Ordering.LeTransitive` | pkg/controller/plan/controller.go:307-317 | "Not sorted after" is transitive for the comparator, so sorting by it is well defined. |
| `Ordering.LeAntisymmetric` | pkg/controller/plan/controller.go:307-317 | Two migrations neither of which sorts before the other have the same timestamp and the same "namespace/name" key. |
| `Ordering.BeforeTransitive` | pkg/controller/plan/controller.go:307-317 | The comparator is transitive. |
| `Ordering.LexLessTransitive` | pkg/controller/plan/controller.go:317 | Byte-wise string order (`nA < nB`) is transitive. |
| `Ordering.LexLessTotal` | pkg/controller/plan/controller.go:317 | Two different keys are ordered one way or the other. |
| `Ordering.LexLessIrreflexive` | pkg/controller/plan/controller.go:317 | No key is less than itself. |
| `Ordering.Key` | pkg/controller/plan/controller.go:315-316 | The tie-break key is the namespace, a `/`, then the name. |
| `Ordering.KeyIdentifiesObject` | pkg/controller/plan/controller.go:315-316 | When namespaces hold no `/`, equal keys mean the same namespace and name. |
| `Ordering.Before` | pkg/controller/plan/controller.go:307-317 | The comparator: an earlier creation timestamp sorts first. A later one never does. Equal timestamps are ordered by key. |
| `Selector.Matches` | pkg/controller/plan/controller.go:297 | Definition: the migration's plan reference is this plan. |
| `Selector.Selected` | pkg/controller/plan/controller.go:297-302 | Definition: it matches the plan and is not marked completed. |
| `Selector.Filter` | pkg/controller/plan/controller.go:294-304 | Keeps listing order. Every migration it keeps was listed and is selected, and it is no longer than the listing. |
| `Selector.PendingHeadIsEarliestSelected` | pkg/controller/plan/controller.go:294-318 | For any listing, a completed migration is never pending. When a selected migration was listed, the pending list is non-empty and its head sorts no later than that migration. |
| `Gate.Postpone` | pkg/controller/plan/controller.go:326-353 | Equals the reference verdict. A failed Provider listing is an error. Some lagging Provider gives true whatever the Host listing is, so Hosts are not consulted. Otherwise a failed Host listing is an error, and the result is true iff some Host has ObservedGeneration < Generation. |
| `Conditions.Revalidated` | pkg/controller/plan/controller.go:170-196 | Definition: begin staging, apply the validation conditions, add Ready unless a current condition blocks, end staging. |
| `Conditions.DurableOnly` | pkg/controller/plan/controller.go:196 | The conditions that end-of-staging keeps without re-assertion: exactly the durable ones, with their values. |
| `Conditions.WithReady` | pkg/controller/plan/controller.go:185-193 | The Ready rule. With a blocker among the current conditions they are kept as they are. Without one, Ready is set to the ready condition. Every other condition keeps its value, no other type is added, and the result blocks iff the input does. |
| `Conditions.RevalidatedKeepsAssertedAndDurable` | pkg/controller/plan/controller.go:170-196 | After a pass, the conditions are the Ready rule applied to the asserted conditions layered over the durable previous ones. The plan has a blocker iff an asserted or surviving durable condition blocks. Without durable previous conditions, only the asserted conditions and Ready remain. |
| `Conditions.RevalidatedForgetsTransient` | pkg/controller/plan/controller.go:170-196 | Two previous condition sets with the same durable part give the same result, so non-durable conditions from before have no effect. |
| `Conditions.RevalidatedIdempotent` | pkg/controller/plan/controller.go:170-196 | A second pass with the same validation outcome, started from the first pass's result, gives the same conditions. |
| `Conditions.RevalidatedAfterDelete` | pkg/controller/plan/controller.go:170-196 | After an unblocked pass and the deletion of some types, a second pass with the same validation outcome gives the same conditions once those types are deleted again. |
| `Conditions.DurableBlockerSuppressesReady` | pkg/controller/plan/controller.go:185-196 | A durable blocker from before that validation does not re-assert keeps the plan blocked. The pass adds no Ready and leaves exactly the durable previous conditions overlaid with the asserted ones. |
| `Conditions.BeginStaging` | pkg/controller/plan/controller.go:171 | Conditions are unchanged and staging is on. Exactly the durable ones are current. |
| `Conditions.SetConditions` | pkg/controller/plan/controller.go:174 | Definition: the validation conditions overwrite their types and become current. |
| `Conditions.SetCondition` | pkg/controller/plan/controller.go:187-192 | Definition: one condition overwrites its type and becomes current. |
| `Conditions.HasBlocker` | pkg/controller/plan/controller.go:186 | Definition: some blocking condition is current. While staging, that means durable or re-asserted. After staging, any condition counts. |
| `Conditions.EndStaging` | pkg/controller/plan/controller.go:196 | Staging is off. Exactly the current conditions are kept, with their values. |
| `Conditions.DeleteConditions` | pkg/controller/plan/controller.go:243 | Definition: the conditions of the given types are removed. |
| `Gate.Lagging` | pkg/controller/plan/controller.go:334 | Definition: ObservedGeneration is below Generation, the test applied to every Provider and Host (also line 346). |
| `PlanController.PassStatus` | pkg/controller/plan/controller.go:170-203 | Definition: the status written at line 203, which is the plan's generation, the revalidated conditions and the unchanged migration status. |
| `PlanController.StaleOutcomeClearedOnDispatch` | pkg/controller/plan/controller.go:196-245 | A durable `Succeeded` from an earlier run that validation did not re-assert survives the pass. Dispatch keeps it iff the head migration has already started. |
| `PlanController.Plan.Status` | pkg/controller/plan/controller.go:203 | Definition: the status a status update persists, which is the observed generation, the current conditions and the migration status. |
| `PlanController.Capture` | pkg/controller/plan/controller.go:251-256 | The sentinel `plan.UID` and the source, destination and map keys are added. No other key is added or removed. |
| `PlanController.Captured` | pkg/controller/plan/controller.go:250-257 | The migration sent to the cluster differs from the listed one only in its snapshot, and the sentinel is set to the plan's UID. |
| `PlanController.Dispatched` | pkg/controller/plan/controller.go:240-250 | The head becomes the active migration. A head that never started gets fresh run marks and loses `Succeeded`/`Failed`. An already-started head leaves the conditions as they were. No condition is added. |
| `PlanController.RequeueAfter` | pkg/controller/plan/controller.go:218-223 | A positive delay is kept. Anything else becomes no requeue. The result is never negative. |
| `PlanController.ForcedDelay` | pkg/controller/plan/controller.go:278-280 | The result is the engine's delay or FastReQ. It is never 0 while more than one migration is pending, and it differs from the delay only when more than one is pending and the delay is 0. |
| `PlanController.CaptureIsWriteOnce` | pkg/controller/plan/controller.go:251-262 | A capture sets the sentinel `plan.UID` and the three input keys to the plan's UID, source, destination and map. Every other key and field keeps its value. A later dispatch of the captured migration therefore captures nothing. |
| `PlanController.RepeatedPassIsStable` | pkg/controller/plan/controller.go:170-250 | For a pass that reaches dispatch, which needs the persisted conditions to hold no blocker (line 231), re-running it with no outside change writes the same final status. That means the same conditions, durable ones included, and the same `Active` migration. |

## Left out

- Controller wiring, watches and predicates (`Add`, lines 64-114): framework plumbing.
- Logging, `RecordEvents` (line 199) and `Settings`: side effects only. The model keeps only whether an error was logged and cleared.
- The internals of `Get`, `List`, `Update`, `Status().Update`, `validate`, `plancontext.New` and `Migration.Run`: these are foreign calls. Each one is a response in the `Cluster` record. Validation is modelled by the conditions it asserts and the class of error it returns.
- The engine's own changes to the plan status during `Run`: the modelled engine returns only a delay or an error.
- The condition library: only the contract above is modelled. Transition timestamps, reasons, items and event bookkeeping are not.
- `PlanController.RepeatedPassIsStable`: stated only for passes whose persisted conditions hold no blocker, the only passes that reach a dispatch (line 231). A blocked pass never computes the dispatched status.
- `PlanController.Capture`: the values captured as source and destination are the plan's provider references. They stand for the Provider objects that `validate` resolved (`plan.Referenced.Provider`, lines 254-255). The model does not link them to validation.
- `sort.Slice`'s algorithm is library code. The model uses a selection sort with the same comparator, and its contract allows any sorted permutation. That is why the pending list in `Execute` and `Reconcile` is a ghost output: sort.Slice leaves the order of equal keys unspecified.
- `path.Join` cleaning: the namespace and name are taken as simple non-empty segments, so the key is `namespace + "/" + name`.
- `time.Duration` and `metav1.Time` become integers in milliseconds and integer timestamps. A negative engine delay is kept as is: `Reconcile` maps it to no requeue, as the code does.
- Optimistic concurrency and parallel passes for different plans.
- pkg/controller/provider/container/ovirt/client.go and pkg/webhook/validating-webhook.go (network client and webhook wrapper) are not part of this model.
