/**
 The orchestrator's tables as values, and what each handler's transaction does to them.
 The imperative handlers of module `Handlers` are proved to compute these functions.
 */
module Store {
  import opened Basics
  import opened StateMachine

  /** Internal granule id: `<batch_id>:<user id>`, kept as the pair (see module `Names`). */
  datatype Gid = Gid(batch: BatchId, name: Token)

  datatype Granule = Granule(
    state: GranuleState, leasedBy: Option<WorkerId>, leaseExpiresAt: Option<Time>, retryCount: nat,
    error: Option<Text>, stdoutTail: Option<Text>, stderrTail: Option<Text>, updatedAt: Time)

  datatype ObjectRow = ObjectRow(
    granule: Gid, workerId: WorkerId, objectKey: Token, presignedUrl: Token, sha256: Token, size: int,
    uploadedAt: Time, ackedAt: Option<Time>, ackedBy: Option<ReceiverId>, deletedAt: Option<Time>,
    failedPulls: nat, pullLeaseBy: Option<ReceiverId>, pullLeaseExpiresAt: Option<Time>)

  datatype Batch = Batch(
    name: Token, bundleRef: Token, targetReceiver: Option<ReceiverId>, paused: bool, deliveredCount: nat)

  /** A receipt's identity: the unique hash is taken as injective, so the hashed tuple is the key. */
  datatype ReceiptKey = ReceiptKey(granule: Gid, objectId: nat, uploadedAt: Time)

  datatype Receipt = Receipt(
    batchName: Token, bundleRef: Token, objectKey: Token, sha256: Token, size: int,
    receiver: Option<ReceiverId>, deliveredAt: Option<Time>)

  datatype StageTiming = StageTiming(stage: Stage, startedAt: Time, finishedAt: Time, durationMs: nat)

  datatype WorkerRow = WorkerRow(removed: bool, paused: bool)

  /**
   The database. Stage timings are a bag per granule; `receivers` says which are enabled;
   `nextObjectId` is the id the database assigns to the next uploaded object.
   */
  datatype Db = Db(
    granules: map<Gid, Granule>, objects: map<nat, ObjectRow>, batches: map<BatchId, Batch>,
    receipts: map<ReceiptKey, Receipt>, stages: map<Gid, multiset<StageTiming>>, nextObjectId: nat,
    workers: map<WorkerId, WorkerRow>, receivers: map<ReceiverId, bool>)

  const EMPTY_DB: Db := Db(map[], map[], map[], map[], map[], 1, map[], map[])

  datatype Config = Config(maxRetries: nat, maxPullFailures: nat, maxInflight: int, pullLease: Time)

  const LEASE_DURATION: Time := 30 * MINUTE
  const RECLAIM_GRACE: Time := 60 * 1000

  // ----- the runner -------------------------------------------------------------------------

  function NewGranule(now: Time): (g: Granule) {
    Granule(Pending, None, None, 0, None, None, None, now)
  }

  function SnapshotOf(g: Granule): (s: Snapshot) {
    Snapshot(g.state, g.updatedAt, g.retryCount)
  }

  function Updated<T>(change: Change<T>, value: T): (r: T) {
    if change.Set? then change.value else value
  }

  function Patched(g: Granule, r: TransitionResult): (g': Granule) {
    Granule(
      r.newState, Updated(r.fields.leasedBy, g.leasedBy), Updated(r.fields.leaseExpiresAt, g.leaseExpiresAt),
      Updated(r.fields.retryCount, g.retryCount), Updated(r.fields.error, g.error),
      Updated(r.fields.stdoutTail, g.stdoutTail), Updated(r.fields.stderrTail, g.stderrTail), r.fields.updatedAt)
  }

  function TimingOf(row: StageRow): (t: StageTiming) {
    StageTiming(row.stage, row.startedAt, row.finishedAt, Max(0, row.finishedAt - row.startedAt))
  }

  function TimingsOf(rows: seq<StageRow>): (ts: multiset<StageTiming>) {
    if rows == [] then multiset{} else TimingsOf(Init(rows)) + multiset{TimingOf(Last(rows))}
  }

  function StagesOf(stages: map<Gid, multiset<StageTiming>>, gid: Gid): (ts: multiset<StageTiming>) {
    if gid in stages then stages[gid] else multiset{}
  }

  function WithStages(
    stages: map<Gid, multiset<StageTiming>>, gid: Gid, rows: seq<StageRow>): (r: map<Gid, multiset<StageTiming>>)
  {
    if rows == [] then stages else stages[gid := StagesOf(stages, gid) + TimingsOf(rows)]
  }

  function UploadedRow(gid: Gid, o: NewObject, now: Time): (row: ObjectRow) {
    ObjectRow(gid, o.workerId, o.upload.objectKey, o.upload.presignedUrl, o.upload.sha256, o.upload.size,
              now, None, None, None, 0, None, None)
  }

  predicate Within(id: nat, first: nat, n: nat) {
    first <= id < first + n
  }

  function InsertObjects(
    objects: map<nat, ObjectRow>, first: nat, gid: Gid, added: seq<NewObject>, now: Time): (r: map<nat, ObjectRow>)
  {
    objects + (map id: nat | first <= id < first + |added| && Within(id, first, |added|) ::
      UploadedRow(gid, added[id - first], now))
  }

  /**
   The only counted transition: a conditional update that re-asserts `state != deleted` at write time,
   so whatever snapshot the caller decided on, only a real flip marks objects and bumps the counter.
   */
  function FlipDeleted(db: Db, gid: Gid, at: Time): (r: Db) {
    if gid !in db.granules || db.granules[gid].state == Deleted then db
    else db.(
      granules := db.granules[gid := db.granules[gid].(state := Deleted, updatedAt := at)],
      objects := map id | id in db.objects ::
        if db.objects[id].granule == gid then db.objects[id].(deletedAt := Some(at)) else db.objects[id],
      batches :=
        if gid.batch in db.batches
        then db.batches[gid.batch := db.batches[gid.batch].(deliveredCount := db.batches[gid.batch].deliveredCount + 1)]
        else db.batches)
  }

  function Materialise(db: Db, gid: Gid, r: TransitionResult, now: Time): (db': Db)
    requires gid in db.granules
  {
    if r.objectsDeletedAt.Some? then FlipDeleted(db, gid, r.objectsDeletedAt.value)
    else db.(
      granules := db.granules[gid := Patched(db.granules[gid], r)],
      objects := InsertObjects(db.objects, db.nextObjectId, gid, r.newObjects, now),
      nextObjectId := db.nextObjectId + |r.newObjects|,
      stages := WithStages(db.stages, gid, r.stageRows))
  }

  function OutcomeFor(cfg: Config, db: Db, gid: Gid, event: Event, now: Time): (o: Outcome)
    requires gid in db.granules
  {
    Apply(SnapshotOf(db.granules[gid]), event, now, cfg.maxRetries)
  }

  /** Snapshot, decide, write; a conflict writes nothing. */
  function ApplyTransition(cfg: Config, db: Db, gid: Gid, event: Event, now: Time): (db': Db)
    requires gid in db.granules
  {
    var o := OutcomeFor(cfg, db, gid, event, now);
    if o.Accepted? then Materialise(db, gid, o.result, now) else db
  }

  // ----- worker reports ---------------------------------------------------------------------

  datatype WireEvent = WireEvent(granule: Gid, workerId: WorkerId, report: Report)

  /** The granule is unknown, or its lease is not the reporting worker's (deletions need no lease). */
  predicate Missed(db: Db, ev: WireEvent) {
    || ev.granule !in db.granules
    || (!ev.report.DeleteConfirmed? && db.granules[ev.granule].leasedBy != Some(ev.workerId))
  }

  function Emit(cfg: Config, db: Db, ev: WireEvent, now: Time): (db': Db) {
    if Missed(db, ev) then db
    else ApplyTransition(cfg, db, ev.granule, FromWorker(ev.workerId, ev.report), now)
  }

  function EmitAll(cfg: Config, db: Db, evs: seq<WireEvent>, now: Time): (db': Db) {
    if evs == [] then db else Emit(cfg, EmitAll(cfg, db, Init(evs), now), Last(evs), now)
  }

  // ----- guarded bulk updates of granule rows -----------------------------------------------

  /** One bulk statement: which rows it selects at write time, and what it writes. */
  datatype Bulk =
    | Claim(claimer: WorkerId, claimedAt: Time)
    | Renew(renewer: WorkerId, renewedAt: Time)
    | Reclaim(holder: WorkerId, reclaimedAt: Time)
    | SweepExpired(sweptAt: Time)
    | Revoke(revokee: WorkerId, revokedAt: Time)
    | Cancel(cancelledAt: Time)
    | Retry(retriedAt: Time)

  predicate ExpiredBefore(g: Granule, now: Time) {
    g.leaseExpiresAt.Some? && g.leaseExpiresAt.value < now
  }

  predicate Ownerless(g: Granule, now: Time) {
    g.leasedBy.None? || ExpiredBefore(g, now)
  }

  predicate HeldBy(g: Granule, worker: WorkerId) {
    g.leasedBy == Some(worker) && Leased(g.state)
  }

  predicate InPausedBatch(db: Db, gid: Gid) {
    gid.batch in db.batches && db.batches[gid.batch].paused
  }

  /** The statement's WHERE clause, evaluated when it writes. */
  predicate Selects(db: Db, op: Bulk, gid: Gid)
    requires gid in db.granules
  {
    var g := db.granules[gid];
    match op
    case Claim(_, now) => g.state == Pending && Ownerless(g, now) && !InPausedBatch(db, gid)
    case Renew(w, now) => HeldBy(g, w) && ExpiredBefore(g, now + LEASE_DURATION / 2)
    case Reclaim(w, _) => HeldBy(g, w)
    case SweepExpired(now) => Leased(g.state) && Ownerless(g, now)
    case Revoke(w, _) => HeldBy(g, w)
    case Cancel(_) => Cancellable(g.state)
    case Retry(_) => Retryable(g.state)
  }

  function Freed(g: Granule, now: Time): (g': Granule) {
    g.(state := Pending, leasedBy := None, leaseExpiresAt := None, updatedAt := now)
  }

  /** The statement's SET list. */
  function Written(op: Bulk, g: Granule): (g': Granule) {
    match op
    case Claim(w, now) =>
      g.(state := Queued, leasedBy := Some(w), leaseExpiresAt := Some(now + LEASE_DURATION), updatedAt := now)
    case Renew(_, now) => g.(leaseExpiresAt := Some(now + LEASE_DURATION))
    case Reclaim(_, now) => Freed(g, now)
    case SweepExpired(now) => Freed(g, now)
    case Revoke(_, now) => Freed(g, now).(retryCount := g.retryCount + 1)
    case Cancel(now) => Freed(g, now).(state := Blacklisted)
    case Retry(now) => Freed(g, now).(retryCount := 0, error := None)
  }

  /** Write every row among `ids` that the statement still selects. */
  function BulkUpdate(db: Db, ids: set<Gid>, op: Bulk): (db': Db) {
    db.(granules := map gid | gid in db.granules ::
      if gid in ids && Selects(db, op, gid) then Written(op, db.granules[gid]) else db.granules[gid])
  }

  function Selected(db: Db, op: Bulk): (ids: set<Gid>) {
    set gid | gid in db.granules && Selects(db, op, gid)
  }

  // ----- lease quota ------------------------------------------------------------------------

  function LeasedTo(db: Db, worker: WorkerId): (ids: set<Gid>) {
    set gid | gid in db.granules && HeldBy(db.granules[gid], worker)
  }

  function HostedBy(db: Db, worker: WorkerId): (ids: set<Gid>) {
    set id | id in db.objects && db.objects[id].workerId == worker && db.objects[id].deletedAt.None? ::
      db.objects[id].granule
  }

  function CountInflight(db: Db, worker: WorkerId): (n: nat) {
    |LeasedTo(db, worker)| + |HostedBy(db, worker)|
  }

  function ComputeLeaseQuota(requested: int, currentInflight: nat, maxInflight: int): (limit: int) {
    if maxInflight > 0 then Min(requested, Max(0, maxInflight - currentInflight)) else requested
  }

  function LeaseLimit(cfg: Config, db: Db, worker: WorkerId, capacity: int): (limit: int) {
    ComputeLeaseQuota(capacity, if cfg.maxInflight > 0 then CountInflight(db, worker) else 0, cfg.maxInflight)
  }

  predicate ActiveWorker(db: Db, worker: WorkerId) {
    worker in db.workers && !db.workers[worker].removed && !db.workers[worker].paused
  }

  // ----- heartbeat --------------------------------------------------------------------------

  /** The reclaim's read: held, not reported, and untouched for longer than the grace. */
  function ReclaimCandidates(db: Db, worker: WorkerId, active: set<Gid>, now: Time): (ids: set<Gid>) {
    set gid | gid in db.granules && HeldBy(db.granules[gid], worker)
              && db.granules[gid].updatedAt < now - RECLAIM_GRACE && gid !in active
  }

  /** Reclaim (unless the worker reports no active set), then renew. */
  function HeartbeatUpdate(db: Db, worker: WorkerId, active: Option<set<Gid>>, now: Time): (db': Db) {
    var reclaimed :=
      if active.Some?
      then BulkUpdate(db, ReclaimCandidates(db, worker, active.value, now), Reclaim(worker, now))
      else db;
    BulkUpdate(reclaimed, reclaimed.granules.Keys, Renew(worker, now))
  }

  // ----- deliveries -------------------------------------------------------------------------

  datatype Ack = Ack(receiver: ReceiverId, objectId: nat, sha256: Token, success: bool)

  predicate Pullable(cfg: Config, o: ObjectRow) {
    o.ackedAt.None? && o.deletedAt.None? && o.failedPulls < cfg.maxPullFailures
  }

  predicate Exhausted(cfg: Config, o: ObjectRow) {
    o.ackedAt.None? && o.deletedAt.None? && o.failedPulls >= cfg.maxPullFailures
  }

  predicate PullClaimable(cfg: Config, o: ObjectRow, now: Time) {
    Pullable(cfg, o) &&
    (o.pullLeaseBy.None? || (o.pullLeaseExpiresAt.Some? && o.pullLeaseExpiresAt.value < now))
  }

  predicate OfferedTo(cfg: Config, db: Db, id: nat, receiver: ReceiverId, now: Time)
    requires id in db.objects
  {
    var o := db.objects[id];
    && PullClaimable(cfg, o, now)
    && o.granule in db.granules && db.granules[o.granule].state == Uploaded
    && o.granule.batch in db.batches
    && (db.batches[o.granule.batch].targetReceiver == Some(receiver)
        || db.batches[o.granule.batch].targetReceiver.None?)
  }

  function SoftClaim(cfg: Config, db: Db, ids: set<nat>, receiver: ReceiverId, now: Time): (db': Db) {
    db.(objects := map id | id in db.objects ::
      if id in ids
      then db.objects[id].(pullLeaseBy := Some(receiver), pullLeaseExpiresAt := Some(now + cfg.pullLease))
      else db.objects[id])
  }

  function PullFailed(o: ObjectRow): (o': ObjectRow) {
    if o.ackedAt.Some? then o
    else o.(failedPulls := o.failedPulls + 1, pullLeaseBy := None, pullLeaseExpiresAt := None)
  }

  function MarkAcked(o: ObjectRow, receiver: ReceiverId, now: Time): (o': ObjectRow) {
    if o.ackedAt.Some? then o else o.(ackedAt := Some(now), ackedBy := Some(receiver))
  }

  /** The report confirms delivery of a known object with the right digest. */
  predicate Confirms(objects: map<nat, ObjectRow>, a: Ack) {
    a.objectId in objects && a.success && a.sha256 == objects[a.objectId].sha256
  }

  /** One report applied to the object rows alone. */
  function AckObjects(objects: map<nat, ObjectRow>, a: Ack, now: Time): (objects': map<nat, ObjectRow>) {
    if a.objectId !in objects then objects
    else if !a.success then objects[a.objectId := PullFailed(objects[a.objectId])]
    else if Confirms(objects, a) then objects[a.objectId := MarkAcked(objects[a.objectId], a.receiver, now)]
    else objects
  }

  predicate Awaits(objects: map<nat, ObjectRow>, gid: Gid, id: nat) {
    id in objects && objects[id].granule == gid && objects[id].ackedAt.None?
  }

  predicate AllAcked(objects: map<nat, ObjectRow>, gid: Gid) {
    forall id | id in objects :: !Awaits(objects, gid, id)
  }

  function KeyOf(id: nat, o: ObjectRow): (k: ReceiptKey) {
    ReceiptKey(o.granule, id, o.uploadedAt)
  }

  function ReceiptOf(b: Batch, o: ObjectRow): (r: Receipt) {
    Receipt(b.name, b.bundleRef, o.objectKey, o.sha256, o.size, o.ackedBy, o.ackedAt)
  }

  /** Acked, attached to a live granule and batch, and not in the ledger yet. */
  predicate Archivable(db: Db, id: nat) {
    && id in db.objects && db.objects[id].ackedAt.Some?
    && db.objects[id].granule in db.granules && db.objects[id].granule.batch in db.batches
    && KeyOf(id, db.objects[id]) !in db.receipts
  }

  function FreshReceipts(db: Db, ids: set<nat>): (r: map<ReceiptKey, Receipt>) {
    map id | id in ids && Archivable(db, id) ::
      KeyOf(id, db.objects[id]) := ReceiptOf(db.batches[db.objects[id].granule.batch], db.objects[id])
  }

  function Archive(db: Db, ids: set<nat>): (db': Db) {
    db.(receipts := db.receipts + FreshReceipts(db, ids))
  }

  predicate Promotable(db: Db, gid: Gid) {
    gid in db.granules && db.granules[gid].state == Uploaded && AllAcked(db.objects, gid)
  }

  function PromotedGranule(g: Granule, now: Time): (g': Granule) {
    g.(state := StateMachine.Acked, updatedAt := now)
  }

  function DeliverTiming(g: Granule, now: Time): (t: StageTiming) {
    TimingOf(StageRow(Deliver, g.updatedAt, now))
  }

  /** Uploaded granules among `gids` whose objects are all acked become acked, closing `deliver`. */
  function Promote(db: Db, gids: set<Gid>, now: Time): (db': Db) {
    db.(
      granules := map gid | gid in db.granules ::
        if gid in gids && Promotable(db, gid) then PromotedGranule(db.granules[gid], now) else db.granules[gid],
      stages := map gid | gid in db.stages.Keys + (set g | g in gids && Promotable(db, g)) ::
        if gid in gids && Promotable(db, gid)
        then StagesOf(db.stages, gid) + multiset{DeliverTiming(db.granules[gid], now)}
        else db.stages[gid])
  }

  function AckOne(db: Db, a: Ack, now: Time): (db': Db) {
    if !Confirms(db.objects, a) then db.(objects := AckObjects(db.objects, a, now))
    else
      var marked := db.(objects := AckObjects(db.objects, a, now));
      Promote(Archive(marked, {a.objectId}), {db.objects[a.objectId].granule}, now)
  }

  function AckAll(db: Db, acks: seq<Ack>, now: Time): (db': Db) {
    if acks == [] then db else AckOne(AckAll(db, Init(acks), now), Last(acks), now)
  }

  // ----- deletions --------------------------------------------------------------------------

  function FlipAll(db: Db, gids: seq<Gid>, at: Time): (db': Db) {
    if gids == [] then db else FlipDeleted(FlipAll(db, Init(gids), at), Last(gids), at)
  }

  /** An acked granule none of whose undeleted objects sits on a live worker. */
  predicate Orphaned(db: Db, gid: Gid, live: set<WorkerId>) {
    && gid in db.granules && db.granules[gid].state == StateMachine.Acked
    && forall id | id in db.objects && db.objects[id].granule == gid && db.objects[id].deletedAt.None? ::
         db.objects[id].workerId !in live
  }

  function Without<V>(rows: map<Gid, V>, gone: set<Gid>): (rest: map<Gid, V>) {
    map gid | gid in rows && gid !in gone :: rows[gid]
  }

  function ObjectsOf(db: Db, gids: set<Gid>): (ids: set<nat>) {
    set id | id in db.objects && db.objects[id].granule in gids
  }

  function ObjectsOutside(objects: map<nat, ObjectRow>, gids: set<Gid>): (rest: map<nat, ObjectRow>) {
    map id | id in objects && objects[id].granule !in gids :: objects[id]
  }

  /** Hard-delete granules and every row referencing them, archiving receipts first. */
  function Reap(db: Db, doomed: set<Gid>): (db': Db) {
    Archive(db, ObjectsOf(db, doomed)).(
      objects := ObjectsOutside(db.objects, doomed),
      stages := Without(db.stages, doomed),
      granules := Without(db.granules, doomed))
  }

  function DropObjects(db: Db, ids: set<nat>): (db': Db) {
    db.(objects := map id | id in db.objects && id !in ids :: db.objects[id])
  }

  function StaleObjects(db: Db, cutoff: Time): (ids: set<nat>) {
    set id | id in db.objects && db.objects[id].deletedAt.Some? && db.objects[id].deletedAt.value < cutoff
  }

  function StaleGranules(db: Db, cutoff: Time): (ids: set<Gid>) {
    set gid | gid in db.granules && db.granules[gid].state == Deleted && db.granules[gid].updatedAt < cutoff
  }

  /** The retention sweep: expired object rows, then expired deleted granules. */
  function Retain(db: Db, cutoff: Time): (db': Db) {
    var trimmed := DropObjects(db, StaleObjects(db, cutoff));
    Reap(trimmed, StaleGranules(trimmed, cutoff))
  }

  function GranulesOf(db: Db, b: BatchId): (ids: set<Gid>) {
    set gid | gid in db.granules && gid.batch == b
  }

  function RemoveBatch(db: Db, b: BatchId): (db': Db) {
    Reap(db, GranulesOf(db, b)).(batches := map c | c in db.batches && c != b :: db.batches[c])
  }

  // ----- operator actions -------------------------------------------------------------------

  predicate Undeliverable(cfg: Config, db: Db, gid: Gid) {
    && gid in db.granules && db.granules[gid].state == Uploaded
    && forall id | id in db.objects && db.objects[id].granule == gid :: !Pullable(cfg, db.objects[id])
  }

  function RequeuedGranule(g: Granule, now: Time): (g': Granule) {
    Freed(g, now).(retryCount := 0, error := None)
  }

  /** Reset undeliverable granules to pending and drop their object rows. */
  function Requeue(cfg: Config, db: Db, ids: set<Gid>, now: Time): (db': Db) {
    db.(
      granules := map gid | gid in db.granules ::
        if gid in ids && Undeliverable(cfg, db, gid) then RequeuedGranule(db.granules[gid], now) else db.granules[gid],
      objects := map id | id in db.objects
        && !(db.objects[id].granule in ids && Undeliverable(cfg, db, db.objects[id].granule)) :: db.objects[id])
  }

  function ResetPullFailures(cfg: Config, db: Db, scope: Option<BatchId>): (db': Db) {
    db.(objects := map id | id in db.objects ::
      if Exhausted(cfg, db.objects[id]) && (scope.None? || db.objects[id].granule.batch == scope.value)
      then db.objects[id].(failedPulls := 0) else db.objects[id])
  }

  /** Force-removing a worker revokes its leases and writes off every object it hosts. */
  function RemoveWorkerForced(db: Db, worker: WorkerId, now: Time): (db': Db) {
    var revoked := BulkUpdate(db, db.granules.Keys, Revoke(worker, now));
    revoked.(objects := map id | id in db.objects ::
      if db.objects[id].workerId == worker && db.objects[id].deletedAt.None?
      then db.objects[id].(deletedAt := Some(now)) else db.objects[id])
  }

  function AddGranules(db: Db, b: BatchId, names: set<Token>, now: Time): (db': Db) {
    db.(granules := map gid | gid in db.granules.Keys + (set n | n in names :: Gid(b, n)) ::
      if gid in db.granules then db.granules[gid] else NewGranule(now))
  }

  function CreateBatch(db: Db, b: BatchId, row: Batch, names: set<Token>, now: Time): (db': Db) {
    AddGranules(db.(batches := db.batches[b := row]), b, names, now)
  }

  function SetPaused(db: Db, b: BatchId, paused: bool): (db': Db) {
    if b in db.batches then db.(batches := db.batches[b := db.batches[b].(paused := paused)]) else db
  }
}
