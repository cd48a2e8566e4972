/** The plan reconciler: one pass turns the observed cluster state into
    status and migration writes and a requeue decision. */
module PlanController {
  import opened Resources
  import opened Conditions
  import opened Ordering
  import opened Selector
  import opened Gate

  /** Requeue delays in milliseconds; a result of 0 means no requeue. */
  const FastReQ: int := 500
  const SlowReQ: int := 3000
  const NoReQ: int := 0

  /** plan.Status.Migration: the active migration and its run marks. */
  datatype MigrationStatus = MigrationStatus(active: string, started: bool, completed: bool)

  /** plan.Status.Migration after MarkReset. */
  const ResetMigration: MigrationStatus := MigrationStatus("", false, false)

  /** The plan's status subresource, as persisted. */
  datatype PlanStatus = PlanStatus(observedGeneration: int, conditions: map<string, Condition>, migration: MigrationStatus)

  /** A plan as fetched: identity, generation, the inputs a snapshot
      captures, and the status. */
  datatype PlanRecord = PlanRecord(
    uid: string,
    ref: Ref,
    generation: int,
    source: Ref,
    destination: Ref,
    fieldMap: map<string, string>,
    status: PlanStatus)

  datatype Fetch = Found(plan: PlanRecord) | NotFound | FetchFailed

  /** What validation does: assert these conditions, or fail, softly
      (a provider is not ready) or otherwise. */
  datatype Validation = Validated(asserted: map<string, Condition>) | ProviderNotReady | ValidationFailed

  /** What the migration engine returns: a delay, with or without an error. */
  datatype RunResult = Ran(delay: int) | RunFailed(delay: int)

  /** The responses of the collaborators, one for each call a pass can make. */
  datatype Cluster = Cluster(
    plan: Fetch,                 // r.Get of the plan
    providers: Listing<Dependency>,
    hosts: Listing<Dependency>,
    validation: Validation,      // r.validate
    statusUpdateOk: bool,        // r.Status().Update in Reconcile
    migrations: Listing<Migration>,
    migrationUpdateOk: bool,     // r.Update of the snapshotted migration
    contextOk: bool,             // plancontext.New
    run: RunResult,              // Migration.Run
    runStatusUpdateOk: bool)     // r.Status().Update in execute

  /** A write issued to the cluster. */
  datatype Write = StatusUpdate(status: PlanStatus) | MigrationUpdate(migration: Migration)

  /** The plan object a pass works on; its status is changed step by step. */
  class Plan {
    const uid: string
    const ref: Ref
    const generation: int
    const source: Ref
    const destination: Ref
    const fieldMap: map<string, string>
    var observedGeneration: int
    var conditions: ConditionSet
    var migration: MigrationStatus

    constructor (rec: PlanRecord)
      ensures uid == rec.uid && ref == rec.ref && generation == rec.generation
      ensures source == rec.source && destination == rec.destination && fieldMap == rec.fieldMap
      ensures conditions == ConditionSet(rec.status.conditions, false, {})
      ensures Status() == rec.status
    {
      uid, ref, generation := rec.uid, rec.ref, rec.generation;
      source, destination, fieldMap := rec.source, rec.destination, rec.fieldMap;
      observedGeneration := rec.status.observedGeneration;
      conditions := ConditionSet(rec.status.conditions, false, {});
      migration := rec.status.migration;
    }

    /** The status a status update persists. */
    function Status(): PlanStatus
      reads this
    {
      PlanStatus(observedGeneration, conditions.items, migration)
    }
  }

  /** The snapshot once the plan's inputs are captured into it. */
  function Capture(s: Snapshot, uid: string, source: Ref, destination: Ref, fieldMap: map<string, string>): (r: Snapshot)
    ensures r.Keys == s.Keys + {PlanUidKey, SourceKey, DestinationKey, MapKey}
  {
    s[PlanUidKey := Text(uid)][SourceKey := ObjectRef(source)][DestinationKey := ObjectRef(destination)][MapKey := Mapping(fieldMap)]
  }

  /** The migration as sent to the cluster after its snapshot is captured. */
  function Captured(m: Migration, rec: PlanRecord): (r: Migration)
    ensures r == m.(snapshot := r.snapshot)
    ensures PlanUidKey in r.snapshot && r.snapshot[PlanUidKey] == Text(rec.uid)
  {
    m.(snapshot := Capture(m.snapshot, rec.uid, rec.source, rec.destination, rec.fieldMap))
  }

  /** The plan status once `head` becomes the active migration: a head
      that never started first resets the migration status and drops the
      terminal conditions. */
  function Dispatched(s: PlanStatus, head: Migration): (r: PlanStatus)
    ensures r.observedGeneration == s.observedGeneration && r.migration.active == head.uid
    ensures r.conditions.Keys <= s.conditions.Keys
    ensures !head.markedStarted ==> SucceededType !in r.conditions && FailedType !in r.conditions
    ensures !head.markedStarted ==> !r.migration.started && !r.migration.completed
    ensures head.markedStarted ==> r.conditions == s.conditions
  {
    if head.markedStarted then s.(migration := s.migration.(active := head.uid))
    else s.(migration := ResetMigration.(active := head.uid), conditions := s.conditions - {SucceededType, FailedType})
  }

  /** Reconcile's mapping of execute's delay to a requeue result. */
  function RequeueAfter(reQ: int): (r: int)
    ensures r >= 0
    ensures r == 0 <==> reQ <= 0
    ensures reQ > 0 ==> r == reQ
  {
    if reQ > 0 then reQ else NoReQ
  }

  /** execute's delay: a fast requeue replaces 0 while others are pending. */
  function ForcedDelay(pendingCount: nat, delay: int): (r: int)
    ensures r == delay || r == FastReQ
    ensures pendingCount > 1 ==> r != 0
    ensures delay != 0 ==> r == delay
    ensures r != delay ==> pendingCount > 1 && delay == 0
  {
    if pendingCount > 1 && delay == 0 then FastReQ else delay
  }

  /** The status Reconcile persists before executing. */
  ghost function PassStatus(rec: PlanRecord, asserted: map<string, Condition>): PlanStatus
  {
    PlanStatus(rec.generation, Revalidated(ConditionSet(rec.status.conditions, false, {}), asserted).items, rec.status.migration)
  }

  /** Snapshot write-once: a capture sets the sentinel, so a later
      dispatch of the same migration captures nothing; the four keys get the
      plan's inputs and every other key keeps its value. */
  lemma CaptureIsWriteOnce(m: Migration, rec: PlanRecord)
    ensures PlanUidKey in Captured(m, rec).snapshot
    ensures Captured(m, rec).snapshot.Keys == m.snapshot.Keys + {PlanUidKey, SourceKey, DestinationKey, MapKey}
    ensures Captured(m, rec).snapshot[PlanUidKey] == Text(rec.uid)
    ensures Captured(m, rec).snapshot[SourceKey] == ObjectRef(rec.source)
    ensures Captured(m, rec).snapshot[DestinationKey] == ObjectRef(rec.destination)
    ensures Captured(m, rec).snapshot[MapKey] == Mapping(rec.fieldMap)
    ensures forall k :: k in m.snapshot && k != PlanUidKey && k != SourceKey && k != DestinationKey && k != MapKey
                     ==> Captured(m, rec).snapshot[k] == m.snapshot[k]
    ensures Captured(m, rec).(snapshot := m.snapshot) == m
  {
    assert PlanUidKey != SourceKey && PlanUidKey != DestinationKey && PlanUidKey != MapKey by {
      assert PlanUidKey[5] == 'U' && SourceKey[5] == 's' && DestinationKey[5] == 'd' && MapKey[5] == 'm';
    }
    assert SourceKey != DestinationKey && SourceKey != MapKey && DestinationKey != MapKey by {
      assert SourceKey[5] == 's' && DestinationKey[5] == 'd' && MapKey[5] == 'm';
    }
  }

  /** Re-running a pass with nothing changed outside reproduces the same
      conditions and the same active migration: the status written at the
      end of the second pass equals the one written at the end of the first,
      durable conditions included. A dispatch happens only when the
      persisted conditions hold no blocker (line 231). */
  lemma RepeatedPassIsStable(rec: PlanRecord, asserted: map<string, Condition>, head: Migration)
    requires !AnyBlocker(PassStatus(rec, asserted).conditions)
    ensures var once := Dispatched(PassStatus(rec, asserted), head);
            Dispatched(PassStatus(rec.(status := once), asserted), head) == once
  {
    var before := ConditionSet(rec.status.conditions, false, {});
    if head.markedStarted {
      RevalidatedIdempotent(before, asserted);
    } else {
      RevalidatedAfterDelete(before, asserted, {SucceededType, FailedType});
    }
  }

  /** The outcome of an earlier run is durable: it survives revalidation
      and is removed only when a migration that never started is
      dispatched. */
  lemma StaleOutcomeClearedOnDispatch(rec: PlanRecord, asserted: map<string, Condition>, head: Migration)
    requires SucceededType in rec.status.conditions && rec.status.conditions[SucceededType].durable
    requires SucceededType !in asserted
    ensures SucceededType in PassStatus(rec, asserted).conditions
    ensures SucceededType in Dispatched(PassStatus(rec, asserted), head).conditions <==> head.markedStarted
  {
    RevalidatedKeepsAssertedAndDurable(ConditionSet(rec.status.conditions, false, {}), asserted);
    assert SucceededType != ReadyType;
  }

  /** The plan exists and no dependency is mid-update. */
  ghost predicate Admitted(c: Cluster)
  {
    c.plan.Found? && PostponeVerdict(c.providers, c.hosts) == Ok(false)
  }

  /** The conditions persisted by a validated pass include a blocker: a
      re-asserted one or a durable one left from before. */
  ghost predicate Blocked(c: Cluster)
    requires c.plan.Found? && c.validation.Validated?
  {
    AnyBlocker(PassStatus(c.plan.plan, c.validation.asserted).conditions)
  }

  /** The pass reaches execute with a plan that has no blocker. */
  ghost predicate Dispatching(c: Cluster)
  {
    Admitted(c) && c.validation.Validated? && c.statusUpdateOk && !Blocked(c)
  }

  /** execute: dispatch the head of the pending migrations. */
  method Execute(plan: Plan, c: Cluster) returns (reQ: int, err: bool, ghost pending: seq<Migration>, writes: seq<Write>)
    modifies plan
    ensures HasBlocker(old(plan.conditions)) ==> reQ == 0 && !err && writes == [] && unchanged(plan)
    ensures !HasBlocker(old(plan.conditions)) && c.migrations.ListFailed? ==>
      reQ == 0 && err && writes == [] && unchanged(plan)
    ensures !HasBlocker(old(plan.conditions)) && c.migrations.Listed? ==>
      PendingOrder(c.migrations.items, plan.ref, pending)
    ensures !HasBlocker(old(plan.conditions)) && c.migrations.Listed? && pending == [] ==>
      reQ == 0 && !err && writes == [] && unchanged(plan)
    ensures !HasBlocker(old(plan.conditions)) && c.migrations.Listed? && pending != [] ==>
      var head := pending[0];
      && plan.observedGeneration == old(plan.observedGeneration)
      && plan.migration == (if head.markedStarted then old(plan.migration) else ResetMigration).(active := head.uid)
      && plan.conditions == if head.markedStarted then old(plan.conditions)
                            else DeleteConditions(old(plan.conditions), {SucceededType, FailedType})
    ensures !HasBlocker(old(plan.conditions)) && c.migrations.Listed? && pending != [] ==>
      var head := pending[0];
      var capture := PlanUidKey !in head.snapshot;
      var sent := head.(snapshot := Capture(head.snapshot, plan.uid, plan.source, plan.destination, plan.fieldMap));
      var captureWrites := if capture then [MigrationUpdate(sent)] else [];
      && (capture && !c.migrationUpdateOk ==> reQ == 0 && err && writes == captureWrites)
      && (!(capture && !c.migrationUpdateOk) && !c.contextOk ==> reQ == 0 && err && writes == captureWrites)
      && (!(capture && !c.migrationUpdateOk) && c.contextOk && c.run.RunFailed? ==>
            reQ == c.run.delay && err && writes == captureWrites)
      && (!(capture && !c.migrationUpdateOk) && c.contextOk && c.run.Ran? ==>
            && writes == captureWrites + [StatusUpdate(plan.Status())]
            && err == !c.runStatusUpdateOk
            && reQ == ForcedDelay(|pending|, c.run.delay))
  {
    reQ, err, pending, writes := 0, false, [], [];
    if HasBlocker(plan.conditions) {
      return;
    }
    var listed := PendingMigrations(c.migrations, plan.ref);
    if listed.Err? {
      err := true;
      return;
    }
    var list := listed.value;
    pending := list;
    if |list| == 0 {
      return;
    }
    var migration := list[0];
    if !migration.markedStarted {
      plan.migration := ResetMigration;
      plan.conditions := DeleteConditions(plan.conditions, {SucceededType, FailedType});
    }
    plan.migration := plan.migration.(active := migration.uid);
    if PlanUidKey !in migration.snapshot {
      migration := migration.(snapshot := migration.snapshot[PlanUidKey := Text(plan.uid)]);
      migration := migration.(snapshot := migration.snapshot[SourceKey := ObjectRef(plan.source)]);
      migration := migration.(snapshot := migration.snapshot[DestinationKey := ObjectRef(plan.destination)]);
      migration := migration.(snapshot := migration.snapshot[MapKey := Mapping(plan.fieldMap)]);
      assert migration == list[0].(snapshot := Capture(list[0].snapshot, plan.uid, plan.source, plan.destination, plan.fieldMap));
      writes := writes + [MigrationUpdate(migration)];
      if !c.migrationUpdateOk {
        err := true;
        return;
      }
    }
    if !c.contextOk {
      err := true;
      return;
    }
    if c.run.RunFailed? {
      reQ, err := c.run.delay, true;
      return;
    }
    reQ := c.run.delay;
    writes := writes + [StatusUpdate(plan.Status())];
    if !c.runStatusUpdateOk {
      err := true;
    }
    if |list| > 1 && reQ == 0 {
      reQ := FastReQ;
    }
  }

  /** The end of a pass: persist the status with the generation observed,
      then execute and map its outcome to a requeue result. */
  method PersistAndExecute(plan: Plan, c: Cluster) returns (result: int, swallowed: bool, ghost pending: seq<Migration>, writes: seq<Write>)
    modifies plan
    ensures var persisted := PlanStatus(plan.generation, old(plan.conditions.items), old(plan.migration));
      && |writes| > 0 && writes[0] == StatusUpdate(persisted)
      && (!c.statusUpdateOk ==> result == FastReQ && swallowed && |writes| == 1)
      && (c.statusUpdateOk && HasBlocker(old(plan.conditions)) ==> result == NoReQ && !swallowed && |writes| == 1)
      && (c.statusUpdateOk && !HasBlocker(old(plan.conditions)) && c.migrations.ListFailed? ==>
            result == FastReQ && swallowed && |writes| == 1)
      && (c.statusUpdateOk && !HasBlocker(old(plan.conditions)) && c.migrations.Listed? ==>
            PendingOrder(c.migrations.items, plan.ref, pending))
      && (c.statusUpdateOk && !HasBlocker(old(plan.conditions)) && c.migrations.Listed? && pending == [] ==>
            result == NoReQ && !swallowed && |writes| == 1)
      && (c.statusUpdateOk && !HasBlocker(old(plan.conditions)) && c.migrations.Listed? && pending != [] ==>
            var head := pending[0];
            var capture := PlanUidKey !in head.snapshot;
            var sent := head.(snapshot := Capture(head.snapshot, plan.uid, plan.source, plan.destination, plan.fieldMap));
            var prefix := [StatusUpdate(persisted)] + (if capture then [MigrationUpdate(sent)] else []);
            && (capture && !c.migrationUpdateOk ==> result == FastReQ && swallowed && writes == prefix)
            && (!(capture && !c.migrationUpdateOk) && (!c.contextOk || c.run.RunFailed?) ==>
                  result == FastReQ && swallowed && writes == prefix)
            && (!(capture && !c.migrationUpdateOk) && c.contextOk && c.run.Ran? ==>
                  && writes == prefix + [StatusUpdate(Dispatched(persisted, head))]
                  && swallowed == !c.runStatusUpdateOk
                  && result == if c.runStatusUpdateOk then RequeueAfter(ForcedDelay(|pending|, c.run.delay)) else FastReQ))
  {
    result, swallowed, pending, writes := NoReQ, false, [], [];
    plan.observedGeneration := plan.generation;
    ghost var persisted := plan.Status();
    writes := [StatusUpdate(plan.Status())];
    if !c.statusUpdateOk {
      result, swallowed := FastReQ, true;
      return;
    }

    var reQ, err, executed, more := Execute(plan, c);
    assert c.migrations.Listed? && executed != [] && !HasBlocker(old(plan.conditions)) ==>
      plan.Status() == Dispatched(persisted, executed[0]);
    pending := executed;
    writes := writes + more;
    if err {
      result, swallowed := FastReQ, true;
      return;
    }
    result := RequeueAfter(reQ);
  }

  /** Reconcile: one pass of the control loop. Every error is logged and
      cleared; `swallowed` says whether one was. The result is the requeue
      delay; `writes` are the writes issued, in order. */
  method Reconcile(c: Cluster) returns (result: int, swallowed: bool, ghost pending: seq<Migration>, writes: seq<Write>)
    ensures c.plan.NotFound? ==> result == NoReQ && !swallowed && writes == []
    ensures c.plan.FetchFailed? ==> result == NoReQ && swallowed && writes == []
    ensures c.plan.Found? && PostponeVerdict(c.providers, c.hosts) == Err ==>
      result == SlowReQ && swallowed && writes == []
    ensures c.plan.Found? && PostponeVerdict(c.providers, c.hosts) == Ok(true) ==>
      result == SlowReQ && !swallowed && writes == []
    ensures Admitted(c) && c.validation.ProviderNotReady? ==> result == SlowReQ && !swallowed && writes == []
    ensures Admitted(c) && c.validation.ValidationFailed? ==> result == FastReQ && swallowed && writes == []
    ensures Admitted(c) && c.validation.Validated? ==>
      |writes| > 0 && writes[0] == StatusUpdate(PassStatus(c.plan.plan, c.validation.asserted))
    ensures Admitted(c) && c.validation.Validated? && !c.statusUpdateOk ==>
      result == FastReQ && swallowed && |writes| == 1
    ensures Admitted(c) && c.validation.Validated? && c.statusUpdateOk && Blocked(c) ==>
      result == NoReQ && !swallowed && |writes| == 1
    ensures Dispatching(c) && c.migrations.ListFailed? ==> result == FastReQ && swallowed && |writes| == 1
    ensures Dispatching(c) && c.migrations.Listed? ==> PendingOrder(c.migrations.items, c.plan.plan.ref, pending)
    ensures Dispatching(c) && c.migrations.Listed? && pending == [] ==> result == NoReQ && !swallowed && |writes| == 1
    ensures Dispatching(c) && c.migrations.Listed? && pending != [] ==>
      var rec, head := c.plan.plan, pending[0];
      var capture := PlanUidKey !in head.snapshot;
      var prefix := [StatusUpdate(PassStatus(rec, c.validation.asserted))]
                    + (if capture then [MigrationUpdate(Captured(head, rec))] else []);
      && (capture && !c.migrationUpdateOk ==> result == FastReQ && swallowed && writes == prefix)
      && (!(capture && !c.migrationUpdateOk) && (!c.contextOk || c.run.RunFailed?) ==>
            result == FastReQ && swallowed && writes == prefix)
      && (!(capture && !c.migrationUpdateOk) && c.contextOk && c.run.Ran? ==>
            && writes == prefix + [StatusUpdate(Dispatched(PassStatus(rec, c.validation.asserted), head))]
            && swallowed == !c.runStatusUpdateOk
            && result == if c.runStatusUpdateOk then RequeueAfter(ForcedDelay(|pending|, c.run.delay)) else FastReQ)
  {
    result, swallowed, pending, writes := NoReQ, false, [], [];
    if c.plan.NotFound? {
      return;
    }
    if c.plan.FetchFailed? {
      swallowed := true;
      return;
    }
    var rec := c.plan.plan;
    var plan := new Plan(rec);

    var postpone := Postpone(c.providers, c.hosts);
    if postpone.Err? {
      result, swallowed := SlowReQ, true;
      return;
    }
    if postpone.value {
      result := SlowReQ;
      return;
    }

    plan.conditions := BeginStaging(plan.conditions);
    if c.validation.ProviderNotReady? {
      result := SlowReQ;
      return;
    }
    if c.validation.ValidationFailed? {
      result, swallowed := FastReQ, true;
      return;
    }
    var asserted := c.validation.asserted;
    plan.conditions := SetConditions(plan.conditions, asserted);
    if !HasBlocker(plan.conditions) {
      plan.conditions := SetCondition(plan.conditions, ReadyType, ReadyCondition);
    }
    plan.conditions := EndStaging(plan.conditions);
    RevalidatedBlockerIsAnyBlocker(ConditionSet(rec.status.conditions, false, {}), asserted);
    assert plan.conditions == Revalidated(ConditionSet(rec.status.conditions, false, {}), asserted);

    result, swallowed, pending, writes := PersistAndExecute(plan, c);
  }
}
