/**
 What the handlers do to the tables, spelled out in the tables' own columns and independently of the vocabulary the
 specification functions are built from.
 */
module Columns {
  import opened Basics
  import opened StateMachine
  import opened Store
  import opened Protocol
  import opened Preservation
  import opened Counting
  import opened Ingress

  // ----- one granule's row under each bulk statement ----------------------------------------

  /** The granule is in a worker's hands. */
  predicate InHand(s: GranuleState) {
    s in {Queued, Downloading, Downloaded, Processing, Processed, Uploading}
  }

  predicate HeldIn(g: Granule, w: WorkerId) {
    InHand(g.state) && g.leasedBy == Some(w)
  }

  function PutBack(g: Granule, now: Time): (g': Granule) {
    g.(state := Pending, leasedBy := None, leaseExpiresAt := None, updatedAt := now)
  }

  /** Which rows each statement takes. */
  ghost predicate Takes(db: Db, op: Bulk, gid: Gid)
    requires gid in db.granules
  {
    var g := db.granules[gid];
    match op
    case Claim(_, now) =>
      && g.state == Pending && !(gid.batch in db.batches && db.batches[gid.batch].paused)
      && (g.leasedBy.None? || (g.leaseExpiresAt.Some? && g.leaseExpiresAt.value < now))
    case Renew(w, now) => HeldIn(g, w) && g.leaseExpiresAt.Some? && g.leaseExpiresAt.value < now + 900000
    case Reclaim(w, _) => HeldIn(g, w)
    case SweepExpired(now) => InHand(g.state) && (g.leasedBy.None? || (g.leaseExpiresAt.Some? && g.leaseExpiresAt.value < now))
    case Revoke(w, _) => HeldIn(g, w)
    case Cancel(_) => g.state == Pending || InHand(g.state)
    case Retry(_) => g.state in {Failed, Blacklisted}
  }

  /** What each statement makes of a row. */
  function Becomes(op: Bulk, g: Granule): (g': Granule) {
    match op
    case Claim(w, now) => g.(state := Queued, leasedBy := Some(w), leaseExpiresAt := Some(now + 1800000), updatedAt := now)
    case Renew(_, now) => g.(leaseExpiresAt := Some(now + 1800000))
    case Reclaim(_, now) => PutBack(g, now)
    case SweepExpired(now) => PutBack(g, now)
    case Revoke(_, now) => PutBack(g, now).(retryCount := g.retryCount + 1)
    case Cancel(now) => PutBack(g, now).(state := Blacklisted)
    case Retry(now) => PutBack(g, now).(retryCount := 0, error := None)
  }

  lemma TakesExactly(db: Db, op: Bulk, gid: Gid)
    requires gid in db.granules
    ensures Selects(db, op, gid) <==> Takes(db, op, gid)
  {
  }

  /** A bulk statement makes of the named rows it takes what it should, and leaves everything else alone. */
  lemma BulkColumns(db: Db, ids: set<Gid>, op: Bulk)
    ensures var db' := BulkUpdate(db, ids, op);
      && db' == db.(granules := db'.granules) && db'.granules.Keys == db.granules.Keys
      && forall gid | gid in db.granules ::
           db'.granules[gid] == if gid in ids && Takes(db, op, gid) then Becomes(op, db.granules[gid]) else db.granules[gid]
  {
    forall gid | gid in db.granules ensures Selects(db, op, gid) <==> Takes(db, op, gid) {
      TakesExactly(db, op, gid);
    }
  }

  /** Renewed when less than 15 minutes are left, to 30 minutes from now. */
  function Renewed(g: Granule, w: WorkerId, now: Time): (g': Granule) {
    if HeldIn(g, w) && g.leaseExpiresAt.Some? && g.leaseExpiresAt.value < now + 900000
    then g.(leaseExpiresAt := Some(now + 1800000)) else g
  }

  /**
   A heartbeat gives back what its worker holds, did not report and last touched over a minute ago, and renews the rest;
   one that reports no set at all gives nothing back.
   */
  lemma HeartbeatColumns(db: Db, w: WorkerId, active: Option<set<Gid>>, now: Time, gid: Gid)
    requires gid in db.granules
    ensures var g := db.granules[gid];
      HeartbeatUpdate(db, w, active, now).granules[gid] ==
        if active.Some? && HeldIn(g, w) && g.updatedAt < now - 60000 && gid !in active.value then PutBack(g, now)
        else Renewed(g, w, now)
  {
  }

  /** Nothing but expiries has changed, and those only to later ones. */
  ghost predicate OnlyLaterExpiries(db: Db, db': Db) {
    && db' == db.(granules := db'.granules) && db'.granules.Keys == db.granules.Keys
    && forall gid | gid in db.granules ::
         && db'.granules[gid] == db.granules[gid].(leaseExpiresAt := db'.granules[gid].leaseExpiresAt)
         && (db'.granules[gid] != db.granules[gid] ==>
               && db.granules[gid].leaseExpiresAt.Some? && db'.granules[gid].leaseExpiresAt.Some?
               && db'.granules[gid].leaseExpiresAt.value > db.granules[gid].leaseExpiresAt.value)
  }

  /** A heartbeat that reports no set gives nothing back. */
  lemma UnreportedHeartbeat(db: Db, w: WorkerId, now: Time)
    ensures OnlyLaterExpiries(db, HeartbeatUpdate(db, w, None, now))
  {
  }

  // ----- the lease quota --------------------------------------------------------------------

  /** What counts against a worker: the granules it works on, and those whose undeleted products it hosts. */
  function InHands(db: Db, w: WorkerId): (ids: set<Gid>) {
    set gid | gid in db.granules && HeldIn(db.granules[gid], w)
  }

  function Hosting(db: Db, w: WorkerId): (ids: set<Gid>) {
    set id | id in db.objects && db.objects[id].deletedAt.None? && db.objects[id].workerId == w :: db.objects[id].granule
  }

  /** Without a cap the quota is the request; with one it is the smaller of the request and what is left of the cap. */
  lemma QuotaColumns(cfg: Config, db: Db, w: WorkerId, capacity: int)
    ensures var n := |InHands(db, w)| + |Hosting(db, w)|;
      LeaseLimit(cfg, db, w, capacity) ==
        if cfg.maxInflight <= 0 then capacity
        else if n >= cfg.maxInflight then (if capacity < 0 then capacity else 0)
        else if capacity < cfg.maxInflight - n then capacity else cfg.maxInflight - n
  {
    assert LeasedTo(db, w) == InHands(db, w);
    assert HostedBy(db, w) == Hosting(db, w);
  }

  // ----- deliveries -------------------------------------------------------------------------

  /** The object is there for this receiver to take now. */
  ghost predicate ForTaking(cfg: Config, db: Db, id: nat, receiver: ReceiverId, now: Time) {
    && id in db.objects
    && var o := db.objects[id];
       && o.ackedAt.None? && o.deletedAt.None? && o.failedPulls < cfg.maxPullFailures
       && (o.pullLeaseBy.None? || (o.pullLeaseExpiresAt.Some? && o.pullLeaseExpiresAt.value < now))
       && o.granule in db.granules && db.granules[o.granule].state == Uploaded
       && o.granule.batch in db.batches && db.batches[o.granule.batch].targetReceiver in {None, Some(receiver)}
  }

  lemma OfferedColumns(cfg: Config, db: Db, id: nat, receiver: ReceiverId, now: Time)
    requires id in db.objects
    ensures OfferedTo(cfg, db, id, receiver, now) <==> ForTaking(cfg, db, id, receiver, now)
  {
  }

  /** These objects are claimed for the receiver until the lease is over; no other row changes. */
  ghost predicate Claimed(cfg: Config, db: Db, db': Db, ids: set<nat>, receiver: ReceiverId, now: Time) {
    && db' == db.(objects := db'.objects) && db'.objects.Keys == db.objects.Keys
    && forall id | id in db.objects :: db'.objects[id] ==
         if id in ids
         then db.objects[id].(pullLeaseBy := Some(receiver), pullLeaseExpiresAt := Some(now + cfg.pullLease))
         else db.objects[id]
  }

  lemma ClaimedColumns(cfg: Config, db: Db, ids: set<nat>, receiver: ReceiverId, now: Time)
    ensures Claimed(cfg, db, SoftClaim(cfg, db, ids, receiver, now), ids, receiver, now)
  {
  }

  /** All objects of the granule are acked. */
  ghost predicate Complete(db: Db, gid: Gid) {
    forall j | j in db.objects && db.objects[j].granule == gid :: db.objects[j].ackedAt.Some?
  }

  /** The granule becomes acked, its delivery stage running from its last change to now. */
  function Closed(db: Db, gid: Gid, now: Time): (db': Db)
    requires gid in db.granules
  {
    var g := db.granules[gid];
    var stage := StageTiming(Deliver, g.updatedAt, now, if now > g.updatedAt then now - g.updatedAt else 0);
    db.(granules := db.granules[gid := g.(state := StateMachine.Acked, updatedAt := now)],
        stages := db.stages[gid := (if gid in db.stages then db.stages[gid] else multiset{}) + multiset{stage}])
  }

  lemma CompleteMeansPromotable(db: Db, gid: Gid)
    requires gid in db.granules
    ensures Promotable(db, gid) <==> db.granules[gid].state == Uploaded && Complete(db, gid)
  {
    if AllAcked(db.objects, gid) {
      forall j | j in db.objects && db.objects[j].granule == gid ensures db.objects[j].ackedAt.Some? {
        assert !Awaits(db.objects, gid, j);
      }
    }
  }

  lemma PromotableCloses(db: Db, gid: Gid, now: Time)
    requires Promotable(db, gid)
    ensures Promote(db, {gid}, now) == Closed(db, gid, now)
  {
    PromoteTables(db, db.objects, {gid}, now);
    ClosedTables(db, gid, now);
    TablesDetermined(db, db.objects, {gid}, now, Promote(db, {gid}, now), Closed(db, gid, now));
  }

  lemma ClosedTables(db: Db, gid: Gid, now: Time)
    requires Promotable(db, gid)
    ensures PromotedTables(db, db.objects, {gid}, now, Closed(db, gid, now))
  {
  }

  lemma PromoteColumns(db: Db, gid: Gid, now: Time)
    requires gid in db.granules
    ensures Promote(db, {gid}, now) ==
      if db.granules[gid].state == Uploaded && Complete(db, gid) then Closed(db, gid, now) else db
  {
    CompleteMeansPromotable(db, gid);
    if Promotable(db, gid) {
      PromotableCloses(db, gid, now);
    } else {
      PromoteNone(db, gid, now);
    }
  }

  lemma PromoteNone(db: Db, gid: Gid, now: Time)
    requires !Promotable(db, gid)
    ensures Promote(db, {gid}, now) == db
  {
    PromoteTables(db, db.objects, {gid}, now);
    assert PromotedTables(db, db.objects, {gid}, now, db);
    TablesDetermined(db, db.objects, {gid}, now, Promote(db, {gid}, now), db);
  }

  /** Acked now, by this receiver, with the receipt that carries the row's and the batch's content. */
  function Recorded(db: Db, id: nat, receiver: ReceiverId, now: Time): (db': Db)
    requires id in db.objects && db.objects[id].granule.batch in db.batches
  {
    var o, b := db.objects[id], db.batches[db.objects[id].granule.batch];
    db.(objects := db.objects[id := o.(ackedAt := Some(now), ackedBy := Some(receiver))],
        receipts := db.receipts[ReceiptKey(o.granule, id, o.uploadedAt) :=
          Receipt(b.name, b.bundleRef, o.objectKey, o.sha256, o.size, Some(receiver), Some(now))])
  }

  /** An acknowledgement of an unknown or acked object, or with another digest, changes nothing. */
  lemma IdleAck(db: Db, a: Ack, now: Time)
    requires Inv(db)
    requires a.objectId !in db.objects || (a.success && a.sha256 != db.objects[a.objectId].sha256)
          || db.objects[a.objectId].ackedAt.Some?
    ensures AckOne(db, a, now) == db
  {
    assert AckObjects(db.objects, a, now) == db.objects;
    if Confirms(db.objects, a) {
      NothingToArchive(db, {a.objectId});
      PromoteColumns(db, db.objects[a.objectId].granule, now);
    }
  }

  /** A failure counts once and frees the claim. */
  lemma FailedAck(db: Db, a: Ack, now: Time)
    requires a.objectId in db.objects && !a.success && db.objects[a.objectId].ackedAt.None?
    ensures AckOne(db, a, now) == db.(objects := db.objects[a.objectId := db.objects[a.objectId].(
      failedPulls := db.objects[a.objectId].failedPulls + 1, pullLeaseBy := None, pullLeaseExpiresAt := None)])
  {
  }

  /**
   The first success with the right digest stamps the object and writes its receipt; the granule becomes acked, closing
   its delivery stage, exactly when it was uploaded and no unacked object is left.
   */
  lemma FirstAck(db: Db, a: Ack, now: Time)
    requires Inv(db) && a.objectId in db.objects && a.success && a.sha256 == db.objects[a.objectId].sha256
    requires db.objects[a.objectId].ackedAt.None?
    ensures var gid := db.objects[a.objectId].granule; var mid := Recorded(db, a.objectId, a.receiver, now);
      AckOne(db, a, now) == if mid.granules[gid].state == Uploaded && Complete(mid, gid) then Closed(mid, gid, now) else mid
  {
    var o' := MarkAcked(db.objects[a.objectId], a.receiver, now);
    ArchiveOneReceipt(db, a.objectId, o');
    var mid := Recorded(db, a.objectId, a.receiver, now);
    assert Archive(db.(objects := db.objects[a.objectId := o']), {a.objectId}) == mid;
    PromoteColumns(mid, o'.granule, now);
  }

  // ----- deletions --------------------------------------------------------------------------

  /** The granules an orphan sweep is for: acked, with no undeleted object on a live worker. */
  function Adrift(db: Db, live: set<WorkerId>): (ids: set<Gid>) {
    set gid | gid in db.granules && db.granules[gid].state == StateMachine.Acked
      && forall id | id in db.objects && db.objects[id].granule == gid && db.objects[id].deletedAt.None? ::
           db.objects[id].workerId !in live
  }

  function OfBatch(gids: set<Gid>, b: BatchId): (ids: set<Gid>) {
    set gid | gid in gids && gid.batch == b
  }

  /** These granules are deleted, with all their objects, and each counted once for its batch; nothing else changes. */
  ghost predicate DeletedAndCounted(db: Db, db': Db, gone: set<Gid>, at: Time) {
    && db' == db.(granules := db'.granules, objects := db'.objects, batches := db'.batches)
    && db'.granules.Keys == db.granules.Keys && db'.objects.Keys == db.objects.Keys && db'.batches.Keys == db.batches.Keys
    && (forall gid | gid in db.granules :: db'.granules[gid] ==
          if gid in gone then db.granules[gid].(state := Deleted, updatedAt := at) else db.granules[gid])
    && (forall id | id in db.objects :: db'.objects[id] ==
          if db.objects[id].granule in gone then db.objects[id].(deletedAt := Some(at)) else db.objects[id])
    && (forall b | b in db.batches :: db'.batches[b] ==
          db.batches[b].(deliveredCount := db.batches[b].deliveredCount + |OfBatch(gone, b)|))
  }

  lemma OfBatchJoin(gone: set<Gid>, gid: Gid, b: BatchId)
    requires gid !in gone
    ensures |OfBatch(gone + {gid}, b)| == |OfBatch(gone, b)| + if gid.batch == b then 1 else 0
    ensures |OfBatch({gid}, b)| == if gid.batch == b then 1 else 0
  {
    assert OfBatch(gone + {gid}, b) == OfBatch(gone, b) + if gid.batch == b then {gid} else {};
    assert OfBatch({gid}, b) == if gid.batch == b then {gid} else {};
  }

  lemma FlipColumns(db: Db, gid: Gid, at: Time)
    requires gid in db.granules && db.granules[gid].state != Deleted
    ensures DeletedAndCounted(db, FlipDeleted(db, gid, at), {gid}, at)
  {
    forall b ensures |OfBatch({gid}, b)| == if gid.batch == b then 1 else 0 {
      OfBatchJoin({}, gid, b);
    }
  }

  lemma DeletionsJoin(db: Db, mid: Db, db': Db, gone: set<Gid>, gid: Gid, at: Time)
    requires DeletedAndCounted(db, mid, gone, at) && DeletedAndCounted(mid, db', {gid}, at) && gid !in gone
    ensures DeletedAndCounted(db, db', gone + {gid}, at)
  {
    forall b | b in db.batches
      ensures db'.batches[b] == db.batches[b].(deliveredCount := db.batches[b].deliveredCount + |OfBatch(gone + {gid}, b)|)
    {
      OfBatchJoin(gone, gid, b);
    }
  }

  lemma AdriftExactly(db: Db, live: set<WorkerId>, gid: Gid)
    ensures Orphaned(db, gid, live) <==> gid in Adrift(db, live)
  {
  }

  lemma {:induction false} FlipAllColumns(db: Db, gids: seq<Gid>, at: Time)
    requires forall i, j | 0 <= i < j < |gids| :: gids[i] != gids[j]
    requires forall gid | gid in gids :: gid in db.granules && db.granules[gid].state != Deleted
    ensures DeletedAndCounted(db, FlipAll(db, gids, at), (set gid | gid in gids), at)
  {
    if gids == [] {
      assert forall b :: OfBatch({}, b) == {};
    } else {
      var mid, gid := FlipAll(db, Init(gids), at), Last(gids);
      assert forall g | g in Init(gids) :: g in gids;
      FlipAllColumns(db, Init(gids), at);
      assert gid in gids && gid !in Init(gids);
      FlipColumns(mid, gid, at);
      DeletionsJoin(db, mid, FlipAll(db, gids, at), (set g | g in Init(gids)), gid, at);
      assert (set g | g in gids) == (set g | g in Init(gids)) + {gid};
    }
  }

  /** The worker hosts an undeleted object of the granule. */
  ghost predicate Hosts(db: Db, w: WorkerId, gid: Gid) {
    exists id :: id in db.objects && db.objects[id].granule == gid && db.objects[id].deletedAt.None? && db.objects[id].workerId == w
  }

  /** Every undeleted object of the granule is acked. */
  ghost predicate Delivered(db: Db, gid: Gid) {
    forall id | id in db.objects && db.objects[id].granule == gid && db.objects[id].deletedAt.None? :: db.objects[id].ackedAt.Some?
  }

  /** Deleted, and last touched before the cutoff. */
  ghost predicate Expired(g: Granule, cutoff: Time) {
    g.state == Deleted && g.updatedAt < cutoff
  }

  /** Gone are the expired granules with all that is theirs, and the objects deleted before the cutoff; the rest stays. */
  ghost predicate Pruned(db: Db, db': Db, cutoff: Time)
    requires References(db)
  {
    && (forall gid :: gid in db'.granules <==> gid in db.granules && !Expired(db.granules[gid], cutoff))
    && (forall gid | gid in db'.granules :: db'.granules[gid] == db.granules[gid])
    && (forall id :: id in db'.objects <==>
          && id in db.objects && !Expired(db.granules[db.objects[id].granule], cutoff)
          && !(db.objects[id].deletedAt.Some? && db.objects[id].deletedAt.value < cutoff))
    && (forall id | id in db'.objects :: db'.objects[id] == db.objects[id])
    && (forall gid :: gid in db'.stages <==>
          gid in db.stages && !(gid in db.granules && Expired(db.granules[gid], cutoff)))
    && (forall gid | gid in db'.stages :: db'.stages[gid] == db.stages[gid])
    && db'.batches == db.batches && db'.workers == db.workers && db'.nextObjectId == db.nextObjectId
  }

  lemma RetentionColumns(db: Db, cutoff: Time)
    requires References(db)
    ensures Pruned(db, Retain(db, cutoff), cutoff)
  {
    var trimmed := DropObjects(db, StaleObjects(db, cutoff));
    ReapColumns(trimmed, StaleGranules(trimmed, cutoff));
  }

  /** Removing a batch takes its row, its granules, their objects and their stages, and nothing of any other batch. */
  lemma RemovalColumns(db: Db, b: BatchId)
    requires References(db)
    ensures var db' := RemoveBatch(db, b);
      && db'.batches == db.batches - {b}
      && (forall gid :: gid in db'.granules <==> gid in db.granules && gid.batch != b)
      && (forall gid | gid in db'.granules :: db'.granules[gid] == db.granules[gid])
      && (forall id :: id in db'.objects <==> id in db.objects && db.objects[id].granule.batch != b)
      && (forall id | id in db'.objects :: db'.objects[id] == db.objects[id])
      && (forall gid :: gid in db'.stages <==> gid in db.stages && gid.batch != b)
      && (forall gid | gid in db'.stages :: db'.stages[gid] == db.stages[gid])
  {
    var doomed := GranulesOf(db, b);
    assert forall gid :: gid in doomed <==> gid in db.granules && gid.batch == b;
    ReapColumns(db, doomed);
  }

  lemma ReapColumns(db: Db, doomed: set<Gid>)
    ensures var db' := Reap(db, doomed);
      && db'.batches == db.batches && db'.workers == db.workers && db'.nextObjectId == db.nextObjectId
      && (forall gid :: gid in db'.granules <==> gid in db.granules && gid !in doomed)
      && (forall gid | gid in db'.granules :: db'.granules[gid] == db.granules[gid])
      && (forall id :: id in db'.objects <==> id in db.objects && db.objects[id].granule !in doomed)
      && (forall id | id in db'.objects :: db'.objects[id] == db.objects[id])
      && (forall gid :: gid in db'.stages <==> gid in db.stages && gid !in doomed)
      && (forall gid | gid in db'.stages :: db'.stages[gid] == db.stages[gid])
  {
  }

  // ----- operator actions -------------------------------------------------------------------

  /** Uploaded, with nothing left that a receiver could still pull. */
  ghost predicate StuckRow(cfg: Config, db: Db, gid: Gid) {
    && gid in db.granules && db.granules[gid].state == Uploaded
    && forall id | id in db.objects && db.objects[id].granule == gid ::
         db.objects[id].ackedAt.Some? || db.objects[id].deletedAt.Some? || db.objects[id].failedPulls >= cfg.maxPullFailures
  }

  lemma StuckExactly(cfg: Config, db: Db, gid: Gid)
    ensures Undeliverable(cfg, db, gid) <==> StuckRow(cfg, db, gid)
  {
    if StuckRow(cfg, db, gid) {
      forall id | id in db.objects && db.objects[id].granule == gid ensures !Pullable(cfg, db.objects[id]) {
      }
    }
    if Undeliverable(cfg, db, gid) {
      forall id | id in db.objects && db.objects[id].granule == gid
        ensures db.objects[id].ackedAt.Some? || db.objects[id].deletedAt.Some? || db.objects[id].failedPulls >= cfg.maxPullFailures
      {
        assert !Pullable(cfg, db.objects[id]);
      }
    }
  }

  /** Requeueing puts the stuck granules among the named back to pending with a clean count, and drops their objects. */
  lemma RequeueColumns(cfg: Config, db: Db, ids: set<Gid>, now: Time)
    requires References(db)
    ensures var db' := Requeue(cfg, db, ids, now);
      && db' == db.(granules := db'.granules, objects := db'.objects) && db'.granules.Keys == db.granules.Keys
      && (forall gid | gid in db.granules :: db'.granules[gid] ==
            if gid in ids && StuckRow(cfg, db, gid) then PutBack(db.granules[gid], now).(retryCount := 0, error := None)
            else db.granules[gid])
      && (forall id :: id in db'.objects <==>
            id in db.objects && !(db.objects[id].granule in ids && StuckRow(cfg, db, db.objects[id].granule)))
      && (forall id | id in db'.objects :: db'.objects[id] == db.objects[id])
  {
    forall gid ensures Undeliverable(cfg, db, gid) <==> StuckRow(cfg, db, gid) {
      StuckExactly(cfg, db, gid);
    }
  }

  /** Resetting pull failures gives exactly the exhausted objects in scope a fresh count. */
  lemma ResetColumns(cfg: Config, db: Db, scope: Option<BatchId>)
    ensures var db' := ResetPullFailures(cfg, db, scope);
      && db' == db.(objects := db'.objects) && db'.objects.Keys == db.objects.Keys
      && forall id | id in db.objects :: db'.objects[id] ==
           if db.objects[id].ackedAt.None? && db.objects[id].deletedAt.None? && db.objects[id].failedPulls >= cfg.maxPullFailures
              && (scope.None? || db.objects[id].granule.batch == scope.value)
           then db.objects[id].(failedPulls := 0) else db.objects[id]
  {
  }

  /** Force-removing a worker revokes what it holds and writes off what it hosts. */
  lemma WriteOffColumns(db: Db, w: WorkerId, now: Time)
    ensures var db' := RemoveWorkerForced(db, w, now);
      && db' == db.(granules := db'.granules, objects := db'.objects)
      && db'.granules.Keys == db.granules.Keys && db'.objects.Keys == db.objects.Keys
      && (forall gid | gid in db.granules :: db'.granules[gid] ==
            if HeldIn(db.granules[gid], w)
            then PutBack(db.granules[gid], now).(retryCount := db.granules[gid].retryCount + 1) else db.granules[gid])
      && (forall id | id in db.objects :: db'.objects[id] ==
            if db.objects[id].workerId == w && db.objects[id].deletedAt.None?
            then db.objects[id].(deletedAt := Some(now)) else db.objects[id])
  {
    BulkColumns(db, db.granules.Keys, Revoke(w, now));
  }

  /** Adding granules adds the new names, pending and untouched by anybody, and leaves the known ones as they are. */
  lemma AddedColumns(db: Db, b: BatchId, names: set<Token>, now: Time)
    ensures var db' := AddGranules(db, b, names, now);
      && db' == db.(granules := db'.granules)
      && (forall gid :: gid in db'.granules <==> gid in db.granules || (gid.batch == b && gid.name in names))
      && (forall gid | gid in db'.granules :: db'.granules[gid] ==
            if gid in db.granules then db.granules[gid] else Granule(Pending, None, None, 0, None, None, None, now))
  {
  }

  lemma CreatedColumns(db: Db, b: BatchId, row: Batch, names: set<Token>, now: Time)
    ensures CreateBatch(db, b, row, names, now) ==
      AddGranules(db, b, names, now).(batches := db.batches[b := row])
  {
  }

  lemma PausedColumns(db: Db, b: BatchId, paused: bool)
    ensures SetPaused(db, b, paused) ==
      if b !in db.batches then db
      else db.(batches := db.batches[b := Batch(db.batches[b].name, db.batches[b].bundleRef, db.batches[b].targetReceiver,
                                               paused, db.batches[b].deliveredCount)])
  {
  }

  /** The batch view counts each live state's granules, and reads `deleted` from the persistent counter. */
  lemma CountsColumns(db: Db, b: BatchId, s: GranuleState)
    requires b in db.batches
    ensures CountOf(StateCounts(db, b), s) ==
      if s == Deleted then db.batches[b].deliveredCount
      else |set gid | gid in db.granules && gid.batch == b && db.granules[gid].state == s|
  {
    assert InState(db, b, s) == set gid | gid in db.granules && gid.batch == b && db.granules[gid].state == s;
  }
}
