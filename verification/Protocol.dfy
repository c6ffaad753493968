/**
 The granule protocol as a transition system: every handler transaction is one step, except that
 the statements which re-check their condition when they write (sweeps, reclaims, deletions)
 may carry a selection or a clock read at any earlier moment.
 */
module Protocol {
  import opened Basics
  import opened StateMachine
  import opened Store

  datatype Step =
    | CreateBatchStep(created: BatchId, row: Batch, firstNames: set<Token>, now: Time)
    | AddStep(extended: BatchId, names: set<Token>, now: Time)
    | ClaimStep(worker: WorkerId, capacity: int, claimed: set<Gid>, now: Time)
    | BulkStep(selection: set<Gid>, op: Bulk)
    | EmitStep(event: WireEvent, now: Time)
    | EmitBatchStep(events: seq<WireEvent>, now: Time)
    | FlipStep(flipped: Gid, now: Time)
    | PullStep(pulled: set<nat>, receiver: ReceiverId, now: Time)
    | AckStep(ack: Ack, now: Time)
    | AckBatchStep(acks: seq<Ack>, now: Time)
    | RequeueStep(requeued: set<Gid>, now: Time)
    | ResetPullsStep(scope: Option<BatchId>)
    | RetainStep(cutoff: Time)
    | RemoveBatchStep(removed: BatchId)
    | ForceRemoveStep(worker: WorkerId, now: Time)
    | SetPausedStep(batch: BatchId, paused: bool)
    | RegistryStep(workers: map<WorkerId, WorkerRow>, receivers: map<ReceiverId, bool>)
    | ReuseIdsStep(next: nat)

  function Next(cfg: Config, db: Db, step: Step): (db': Db) {
    match step
    case CreateBatchStep(b, row, names, now) => CreateBatch(db, b, row, names, now)
    case AddStep(b, names, now) => AddGranules(db, b, names, now)
    case ClaimStep(worker, _, claimed, now) => BulkUpdate(db, claimed, Claim(worker, now))
    case BulkStep(selection, op) => BulkUpdate(db, selection, op)
    case EmitStep(event, now) => Emit(cfg, db, event, now)
    case EmitBatchStep(events, now) => EmitAll(cfg, db, events, now)
    case FlipStep(gid, now) => FlipDeleted(db, gid, now)
    case PullStep(pulled, receiver, now) => SoftClaim(cfg, db, pulled, receiver, now)
    case AckStep(ack, now) => AckOne(db, ack, now)
    case AckBatchStep(acks, now) => AckAll(db, acks, now)
    case RequeueStep(gids, now) => Requeue(cfg, db, gids, now)
    case ResetPullsStep(scope) => ResetPullFailures(cfg, db, scope)
    case RetainStep(cutoff) => Retain(db, cutoff)
    case RemoveBatchStep(b) => RemoveBatch(db, b)
    case ForceRemoveStep(worker, now) => RemoveWorkerForced(db, worker, now)
    case SetPausedStep(b, paused) => SetPaused(db, b, paused)
    case RegistryStep(workers, receivers) => db.(workers := workers, receivers := receivers)
    case ReuseIdsStep(next) => db.(nextObjectId := next)
  }

  /** The pair (object id, upload time) never repeats: an id handed out again comes with a new clock reading. */
  ghost predicate FreshUpload(db: Db, now: Time) {
    forall k | k in db.receipts && k.objectId >= db.nextObjectId :: k.uploadedAt != now
  }

  /** What the handler, the database or the clock guarantees about a step's parameters. */
  ghost predicate Enabled(cfg: Config, db: Db, step: Step) {
    match step
    case CreateBatchStep(b, row, _, _) => b !in db.batches && row.deliveredCount == 0
    case AddStep(b, _, _) => b in db.batches
    case ClaimStep(worker, capacity, claimed, now) =>
      && claimed <= Selected(db, Claim(worker, now))
      && (claimed == {} || |claimed| <= LeaseLimit(cfg, db, worker, capacity))
    case BulkStep(_, op) => !op.Claim?
    case EmitStep(_, now) => FreshUpload(db, now)
    case EmitBatchStep(_, now) => FreshUpload(db, now)
    case PullStep(pulled, receiver, now) => forall id | id in pulled :: id in db.objects && OfferedTo(cfg, db, id, receiver, now)
    case ReuseIdsStep(next) => next > 0 && forall id | id in db.objects :: id < next
    case _ => true
  }

  /** The states the database goes through when every step is enabled. */
  ghost predicate IsRun(cfg: Config, dbs: seq<Db>, steps: seq<Step>) {
    && |dbs| == |steps| + 1
    && forall i | 0 <= i < |steps| :: Enabled(cfg, dbs[i], steps[i]) && dbs[i + 1] == Next(cfg, dbs[i], steps[i])
  }

  // ----- the invariant ----------------------------------------------------------------------

  predicate HoldsObjects(s: GranuleState) {
    s == Uploaded || s == StateMachine.Acked || s == Deleted
  }

  predicate LeaseFits(g: Granule) {
    g.state != Deleted ==>
      && (Leased(g.state) <==> g.leasedBy.Some?)
      && (g.leasedBy.Some? <==> g.leaseExpiresAt.Some?)
  }

  /** A success leaves no stale failure report behind. */
  predicate CleanSuccess(g: Granule) {
    g.state == Uploaded || g.state == StateMachine.Acked ==> g.error.None? && g.stdoutTail.None? && g.stderrTail.None?
  }

  ghost predicate RowsFit(db: Db) {
    forall gid | gid in db.granules :: LeaseFits(db.granules[gid]) && CleanSuccess(db.granules[gid])
  }

  ghost predicate References(db: Db) {
    && (forall gid | gid in db.granules :: gid.batch in db.batches)
    && db.nextObjectId > 0
    && (forall id | id in db.objects :: 0 < id < db.nextObjectId && db.objects[id].granule in db.granules)
    && (forall gid | gid in db.stages :: gid in db.granules)
  }

  ghost predicate ObjectsPlaced(db: Db)
    requires References(db)
  {
    forall id | id in db.objects :: HoldsObjects(db.granules[db.objects[id].granule].state)
  }

  predicate Siblings(db: Db, i: nat, j: nat) {
    i in db.objects && j in db.objects && db.objects[i].granule == db.objects[j].granule
  }

  /** Objects of one granule have one uploader and one deletion time. */
  ghost predicate SiblingsAgree(db: Db) {
    forall i, j | Siblings(db, i, j) ::
      db.objects[i].workerId == db.objects[j].workerId && db.objects[i].deletedAt == db.objects[j].deletedAt
  }

  ghost predicate AckedComplete(db: Db)
    requires References(db)
  {
    forall id | id in db.objects && db.granules[db.objects[id].granule].state == StateMachine.Acked ::
      db.objects[id].ackedAt.Some?
  }

  ghost predicate UploadedIncomplete(db: Db)
    requires References(db)
  {
    forall id | id in db.objects && db.granules[db.objects[id].granule].state == Uploaded ::
      !AllAcked(db.objects, db.objects[id].granule)
  }

  /** Each acked row has its receipt, with the row's and the batch's content; an unacked row has none. */
  ghost predicate Receipted(db: Db)
    requires References(db)
  {
    forall id | id in db.objects ::
      var o := db.objects[id];
      && (o.ackedAt.Some? <==> o.ackedBy.Some?)
      && (o.ackedAt.Some? <==> KeyOf(id, o) in db.receipts)
      && (o.ackedAt.Some? ==> db.receipts[KeyOf(id, o)] == ReceiptOf(db.batches[o.granule.batch], o))
  }

  ghost predicate Inv(db: Db) {
    && References(db)
    && RowsFit(db)
    && ObjectsPlaced(db)
    && SiblingsAgree(db)
    && AckedComplete(db)
    && UploadedIncomplete(db)
    && Receipted(db)
  }
}
