/**
 Who may end a lease. A granule is claimed by one worker at a time, and a lease ends only by the holder's
 own report, an operator, a deletion, the holder's own reconcile, or expiry as seen when the sweep writes.
 */
module Leases {
  import opened Basics
  import opened StateMachine
  import opened Store
  import opened Protocol
  import opened Preservation
  import opened Retries

  predicate Holds(db: Db, gid: Gid, w: WorkerId) {
    gid in db.granules && HeldBy(db.granules[gid], w)
  }

  /** The report is the holder's own, or a deletion. */
  predicate MayEnd(ev: WireEvent, gid: Gid, w: WorkerId) {
    ev.granule == gid && (ev.workerId == w || ev.report.DeleteConfirmed?)
  }

  /** The step is entitled to end `w`'s lease on `gid` in this database. */
  predicate MayRelease(db: Db, step: Step, gid: Gid, w: WorkerId) {
    match step
    case EmitStep(event, _) => MayEnd(event, gid, w)
    case EmitBatchStep(events, _) => exists i :: 0 <= i < |events| && MayEnd(events[i], gid, w)
    case FlipStep(flipped, _) => flipped == gid
    case BulkStep(selection, op) =>
      gid in selection &&
      (match op
       case SweepExpired(sweptAt) => gid in db.granules && ExpiredBefore(db.granules[gid], sweptAt)
       case Reclaim(holder, _) => holder == w
       case Revoke(revokee, _) => revokee == w
       case Cancel(_) => true
       case _ => false)
    case ForceRemoveStep(worker, _) => worker == w
    case RemoveBatchStep(b) => b == gid.batch
    case _ => false
  }

  lemma EmitReleases(cfg: Config, db: Db, ev: WireEvent, now: Time, gid: Gid, w: WorkerId)
    requires Holds(db, gid, w) && !Holds(Emit(cfg, db, ev, now), gid, w)
    ensures MayEnd(ev, gid, w)
  {
  }

  lemma {:induction false} EmitAllReleases(cfg: Config, db: Db, evs: seq<WireEvent>, now: Time, gid: Gid, w: WorkerId)
    requires Holds(db, gid, w) && !Holds(EmitAll(cfg, db, evs, now), gid, w)
    ensures exists i :: 0 <= i < |evs| && MayEnd(evs[i], gid, w)
  {
    if Holds(EmitAll(cfg, db, Init(evs), now), gid, w) {
      EmitReleases(cfg, EmitAll(cfg, db, Init(evs), now), Last(evs), now, gid, w);
      assert MayEnd(evs[|evs| - 1], gid, w);
    } else {
      EmitAllReleases(cfg, db, Init(evs), now, gid, w);
      var i :| 0 <= i < |Init(evs)| && MayEnd(Init(evs)[i], gid, w);
      assert MayEnd(evs[i], gid, w);
    }
  }

  lemma AckOneKeepsLeases(db: Db, a: Ack, now: Time, gid: Gid, w: WorkerId)
    requires Inv(db) && Holds(db, gid, w)
    ensures Holds(AckOne(db, a, now), gid, w)
  {
  }

  lemma {:induction false} AckAllKeepsLeases(db: Db, acks: seq<Ack>, now: Time, gid: Gid, w: WorkerId)
    requires Inv(db) && Holds(db, gid, w)
    ensures Holds(AckAll(db, acks, now), gid, w)
  {
    if acks != [] {
      AckAllKeepsLeases(db, Init(acks), now, gid, w);
      AckAllKeepsInv(db, Init(acks), now);
      AckOneKeepsLeases(AckAll(db, Init(acks), now), Last(acks), now, gid, w);
    }
  }

  lemma ReportStepReleases(cfg: Config, db: Db, step: Step, gid: Gid, w: WorkerId)
    requires step.EmitStep? || step.EmitBatchStep?
    requires Holds(db, gid, w) && !Holds(Next(cfg, db, step), gid, w)
    ensures MayRelease(db, step, gid, w)
  {
    if step.EmitStep? {
      EmitReleases(cfg, db, step.event, step.now, gid, w);
    } else {
      EmitAllReleases(cfg, db, step.events, step.now, gid, w);
    }
  }

  lemma LeaseStepReleases(cfg: Config, db: Db, step: Step, gid: Gid, w: WorkerId)
    requires Inv(db) && Enabled(cfg, db, step) && (step.ClaimStep? || step.BulkStep? || step.ForceRemoveStep?)
    requires Holds(db, gid, w) && !Holds(Next(cfg, db, step), gid, w)
    ensures MayRelease(db, step, gid, w)
  {
  }

  lemma AckStepKeepsLeases(cfg: Config, db: Db, step: Step, gid: Gid, w: WorkerId)
    requires Inv(db) && (step.AckStep? || step.AckBatchStep?) && Holds(db, gid, w)
    ensures Holds(Next(cfg, db, step), gid, w)
  {
    if step.AckStep? {
      AckOneKeepsLeases(db, step.ack, step.now, gid, w);
    } else {
      AckAllKeepsLeases(db, step.acks, step.now, gid, w);
    }
  }

  lemma UpkeepReleases(cfg: Config, db: Db, step: Step, gid: Gid, w: WorkerId)
    requires Inv(db) && Enabled(cfg, db, step)
    requires !step.EmitStep? && !step.EmitBatchStep? && !step.AckStep? && !step.AckBatchStep?
    requires !step.ClaimStep? && !step.BulkStep? && !step.ForceRemoveStep?
    requires Holds(db, gid, w) && !Holds(Next(cfg, db, step), gid, w)
    ensures MayRelease(db, step, gid, w)
  {
  }

  /** Only an entitled step ends a lease. */
  lemma LeaseEndsOnlyBy(cfg: Config, db: Db, step: Step, gid: Gid, w: WorkerId)
    requires Inv(db) && Enabled(cfg, db, step)
    requires Holds(db, gid, w) && !Holds(Next(cfg, db, step), gid, w)
    ensures MayRelease(db, step, gid, w)
  {
    if step.EmitStep? || step.EmitBatchStep? {
      ReportStepReleases(cfg, db, step, gid, w);
    } else if step.AckStep? || step.AckBatchStep? {
      AckStepKeepsLeases(cfg, db, step, gid, w);
    } else if step.ClaimStep? || step.BulkStep? || step.ForceRemoveStep? {
      LeaseStepReleases(cfg, db, step, gid, w);
    } else {
      UpkeepReleases(cfg, db, step, gid, w);
    }
  }

  /** While no step ends it, the lease stays: a held granule that is pending later was released in between. */
  lemma {:induction false} ReleasedBetween(
    cfg: Config, dbs: seq<Db>, steps: seq<Step>, i: nat, j: nat, gid: Gid, w: WorkerId) returns (k: nat)
    requires IsRun(cfg, dbs, steps) && dbs[0] == EMPTY_DB && i <= j <= |steps|
    requires Holds(dbs[i], gid, w) && !Holds(dbs[j], gid, w)
    ensures i <= k < j && Holds(dbs[k], gid, w) && !Holds(dbs[k + 1], gid, w)
    ensures MayRelease(dbs[k], steps[k], gid, w)
  {
    if Holds(dbs[j - 1], gid, w) {
      k := j - 1;
      EmptyInv();
      ReachableInv(cfg, dbs, steps, k);
      LeaseEndsOnlyBy(cfg, dbs[k], steps[k], gid, w);
    } else {
      k := ReleasedBetween(cfg, dbs, steps, i, j - 1, gid, w);
    }
  }

  /** Between two claims of one granule the first claimer's lease was ended by an entitled step. */
  lemma ClaimsAreSeparated(cfg: Config, dbs: seq<Db>, steps: seq<Step>, i: nat, j: nat, gid: Gid)
    requires IsRun(cfg, dbs, steps) && dbs[0] == EMPTY_DB && i < j < |steps|
    requires steps[i].ClaimStep? && gid in steps[i].claimed && steps[j].ClaimStep? && gid in steps[j].claimed
    ensures exists k :: && i < k < j
                        && Holds(dbs[k], gid, steps[i].worker) && !Holds(dbs[k + 1], gid, steps[i].worker)
                        && MayRelease(dbs[k], steps[k], gid, steps[i].worker)
  {
    var first, second := steps[i], steps[j];
    assert Selects(dbs[i], Claim(first.worker, first.now), gid);
    assert Selects(dbs[j], Claim(second.worker, second.now), gid);
    assert Holds(dbs[i + 1], gid, first.worker);
    var k := ReleasedBetween(cfg, dbs, steps, i + 1, j, gid, first.worker);
  }

  /**
   The sweep decided on a stale selection and a stale clock, but what it writes it re-checks: every row it
   changes is leased, ownerless or expired before the sweep's own reading, at the moment of the write.
   */
  lemma SweepRechecks(db: Db, selection: set<Gid>, sweptAt: Time, gid: Gid)
    requires Inv(db) && gid in db.granules
    ensures var g, g' := db.granules[gid], BulkUpdate(db, selection, SweepExpired(sweptAt)).granules[gid];
      if gid in selection && Leased(g.state) && g.leaseExpiresAt.Some? && g.leaseExpiresAt.value < sweptAt
      then g' == g.(state := Pending, leasedBy := None, leaseExpiresAt := None, updatedAt := sweptAt)
      else g' == g
  {
  }

  /** A lease claimed or renewed less than its duration before the sweep's reading survives the sweep. */
  lemma RecentLeaseSurvivesSweep(db: Db, ids: set<Gid>, w: WorkerId, at: Time, claim: bool, selection: set<Gid>,
                                 sweptAt: Time, gid: Gid)
    requires Inv(db) && sweptAt <= at + LEASE_DURATION
    requires var op := if claim then Claim(w, at) else Renew(w, at);
      gid in db.granules && gid in ids && Selects(db, op, gid)
    ensures var op := if claim then Claim(w, at) else Renew(w, at);
      Holds(BulkUpdate(BulkUpdate(db, ids, op), selection, SweepExpired(sweptAt)), gid, w)
  {
  }

  /** In reachable databases the ownership clause of the claim is idle: pending and not paused is all it takes. */
  lemma ClaimableExactly(db: Db, w: WorkerId, now: Time, gid: Gid)
    requires Inv(db) && gid in db.granules
    ensures Selects(db, Claim(w, now), gid) <==> db.granules[gid].state == Pending && !db.batches[gid.batch].paused
  {
    assert LeaseFits(db.granules[gid]);
  }

  // ----- receivers' soft claims -------------------------------------------------------------

  /** The object is acked, gone, or soft-claimed at least until then; and its id is not to be handed out again. */
  predicate Reserved(db: Db, id: nat, until: Time) {
    && id < db.nextObjectId
    && (id in db.objects ==> RowReserved(db.objects[id], until))
  }

  predicate RowReserved(o: ObjectRow, until: Time) {
    o.ackedAt.Some? || (o.pullLeaseBy.Some? && o.pullLeaseExpiresAt.Some? && o.pullLeaseExpiresAt.value >= until)
  }

  /** A failure report of the object, the only thing that ends a soft claim early. */
  predicate EndsClaim(step: Step, id: nat) {
    match step
    case AckStep(ack, _) => ack.objectId == id && !ack.success
    case AckBatchStep(acks, _) => exists i :: 0 <= i < |acks| && acks[i].objectId == id && !acks[i].success
    case _ => false
  }

  /** Old object rows stay reserved and new ids are new. */
  predicate KeepsReserved(db: Db, db': Db, id: nat) {
    && db.nextObjectId <= db'.nextObjectId
    && (id in db'.objects && id < db.nextObjectId ==> id in db.objects && SameClaim(db.objects[id], db'.objects[id]))
  }

  /** The rows differ neither in soft claim nor by losing an ack. */
  predicate SameClaim(o: ObjectRow, o': ObjectRow) {
    && o'.pullLeaseBy == o.pullLeaseBy && o'.pullLeaseExpiresAt == o.pullLeaseExpiresAt
    && (o.ackedAt.Some? ==> o'.ackedAt.Some?)
  }

  lemma EmitKeepsClaims(cfg: Config, db: Db, ev: WireEvent, now: Time, id: nat)
    ensures KeepsReserved(db, Emit(cfg, db, ev, now), id)
  {
    if ev.report.DeleteConfirmed? {
      EmitDeletion(cfg, db, ev, now);
    } else if !Missed(db, ev) && OutcomeFor(cfg, db, ev.granule, FromWorker(ev.workerId, ev.report), now).Accepted? {
      ReportMoves(SnapshotOf(db.granules[ev.granule]), ev.workerId, ev.report, now, cfg.maxRetries);
    }
  }

  lemma {:induction false} EmitAllKeepsClaims(cfg: Config, db: Db, evs: seq<WireEvent>, now: Time, id: nat)
    ensures KeepsReserved(db, EmitAll(cfg, db, evs, now), id)
  {
    if evs != [] {
      EmitAllKeepsClaims(cfg, db, Init(evs), now, id);
      EmitKeepsClaims(cfg, EmitAll(cfg, db, Init(evs), now), Last(evs), now, id);
    }
  }

  lemma AckOneKeepsClaims(db: Db, a: Ack, now: Time, id: nat)
    requires a.objectId == id ==> a.success
    ensures KeepsReserved(db, AckOne(db, a, now), id)
  {
    assert AckOne(db, a, now).objects == AckObjects(db.objects, a, now);
  }

  lemma {:induction false} AckAllKeepsClaims(db: Db, acks: seq<Ack>, now: Time, id: nat)
    requires forall i | 0 <= i < |acks| :: acks[i].objectId == id ==> acks[i].success
    ensures KeepsReserved(db, AckAll(db, acks, now), id)
  {
    if acks != [] {
      AckAllKeepsClaims(db, Init(acks), now, id);
      AckOneKeepsClaims(AckAll(db, Init(acks), now), Last(acks), now, id);
    }
  }

  lemma UpkeepKeepsClaims(cfg: Config, db: Db, step: Step, id: nat)
    requires !step.EmitStep? && !step.EmitBatchStep? && !step.AckStep? && !step.AckBatchStep?
    requires !step.PullStep? && !step.ReuseIdsStep?
    ensures KeepsReserved(db, Next(cfg, db, step), id)
  {
  }

  /** Only a failure report makes a reserved object pullable earlier, and a later pull only extends the reservation. */
  lemma ReservedStays(cfg: Config, db: Db, step: Step, id: nat, until: Time)
    requires Enabled(cfg, db, step) && Reserved(db, id, until) && cfg.pullLease > 0
    requires !EndsClaim(step, id) && !step.ReuseIdsStep?
    ensures Reserved(Next(cfg, db, step), id, until)
  {
    if step.EmitStep? {
      EmitKeepsClaims(cfg, db, step.event, step.now, id);
    } else if step.EmitBatchStep? {
      EmitAllKeepsClaims(cfg, db, step.events, step.now, id);
    } else if step.AckStep? {
      AckOneKeepsClaims(db, step.ack, step.now, id);
    } else if step.AckBatchStep? {
      AckAllKeepsClaims(db, step.acks, step.now, id);
    } else if !step.PullStep? {
      UpkeepKeepsClaims(cfg, db, step, id);
    }
  }

  lemma {:induction false} ReservedUntil(cfg: Config, dbs: seq<Db>, steps: seq<Step>, i: nat, j: nat, id: nat, until: Time)
    requires IsRun(cfg, dbs, steps) && i <= j <= |steps| && cfg.pullLease > 0 && Reserved(dbs[i], id, until)
    requires forall k | i <= k < j :: !EndsClaim(steps[k], id) && !steps[k].ReuseIdsStep?
    ensures Reserved(dbs[j], id, until)
  {
    if i < j {
      ReservedUntil(cfg, dbs, steps, i, j - 1, id, until);
      ReservedStays(cfg, dbs[j - 1], steps[j - 1], id, until);
    }
  }

  /**
   From its pull until its soft claim expires an object is offered to no receiver, the claimer included, whatever
   else happens, unless a failure of it is reported (or its id handed out again after its row is gone).
   */
  lemma SoftClaimExcludes(
    cfg: Config, dbs: seq<Db>, steps: seq<Step>, i: nat, j: nat, id: nat, r: ReceiverId, later: Time)
    requires IsRun(cfg, dbs, steps) && dbs[0] == EMPTY_DB && i < j <= |steps| && cfg.pullLease > 0
    requires steps[i].PullStep? && id in steps[i].pulled
    requires forall k | i < k < j :: !EndsClaim(steps[k], id) && !steps[k].ReuseIdsStep?
    requires id in dbs[j].objects && OfferedTo(cfg, dbs[j], id, r, later)
    ensures later > steps[i].now + cfg.pullLease
  {
    EmptyInv();
    ReachableInv(cfg, dbs, steps, i);
    assert References(dbs[i]);
    ReservedUntil(cfg, dbs, steps, i + 1, j, id, steps[i].now + cfg.pullLease);
  }

  /** After the expiry it is offered again to whom it was offered before. */
  lemma SoftClaimLapses(cfg: Config, db: Db, ids: set<nat>, r: ReceiverId, now: Time, id: nat, r': ReceiverId, later: Time)
    requires id in ids && id in db.objects && later > now + cfg.pullLease && OfferedTo(cfg, db, id, r', now)
    ensures OfferedTo(cfg, SoftClaim(cfg, db, ids, r, now), id, r', later)
  {
  }

  /** A reported failure re-offers the object at once, unless it was the last attempt allowed. */
  lemma FailureReoffers(cfg: Config, db: Db, a: Ack, now: Time, later: Time)
    requires a.objectId in db.objects && !a.success
    requires Pullable(cfg, db.objects[a.objectId])
    ensures PullClaimable(cfg, AckOne(db, a, now).objects[a.objectId], later)
       <==> db.objects[a.objectId].failedPulls + 1 < cfg.maxPullFailures
  {
  }

  // ----- what the code does not promise -----------------------------------------------------

  /**
   The reclaim's write re-checks owner and state only, so a report of the holder that slips in after its read saves the
   granule exactly when it ends the lease itself: mere progress is thrown away.
   */
  lemma ReclaimRechecksOnlyOwner(
    cfg: Config, db: Db, ids: set<Gid>, ev: WireEvent, at: Time, w: WorkerId, now: Time, gid: Gid)
    requires Holds(db, gid, w) && gid in ids && ev.granule == gid && ev.workerId == w && !ev.report.DeleteConfirmed?
    requires OutcomeFor(cfg, db, gid, FromWorker(w, ev.report), at).Accepted?
    ensures var db' := Emit(cfg, db, ev, at); var g, g' := db'.granules[gid], BulkUpdate(db', ids, Reclaim(w, now)).granules[gid];
      && (g' == g <==> ev.report.UploadCompleted? || ev.report.ProcessingFailed?)
      && (g' != g ==> g'.state == Pending && g'.leasedBy.None? && g'.retryCount == g.retryCount)
  {
    EmittedRow(cfg, db, ev, at, gid);
    ReportMoves(SnapshotOf(db.granules[gid]), w, ev.report, at, cfg.maxRetries);
  }

  /** A deleted row names an owner exactly when the deletion found the granule leased. */
  lemma DeletionKeepsLeaseFields(db: Db, gid: Gid, at: Time)
    requires Inv(db) && gid in db.granules && db.granules[gid].state != Deleted
    ensures FlipDeleted(db, gid, at).granules[gid].leasedBy.Some? <==> Leased(db.granules[gid].state)
  {
    assert LeaseFits(db.granules[gid]);
  }

  /** A deleted row is as it was or gone. */
  predicate RowFinal(db: Db, db': Db, gid: Gid) {
    gid in db.granules && db.granules[gid].state == Deleted ==>
      gid !in db'.granules || db'.granules[gid] == db.granules[gid]
  }

  lemma EmitLeavesDeleted(cfg: Config, db: Db, ev: WireEvent, now: Time, gid: Gid)
    ensures RowFinal(db, Emit(cfg, db, ev, now), gid)
  {
    if gid in db.granules && db.granules[gid].state == Deleted {
      if ev.report.DeleteConfirmed? {
        EmitDeletion(cfg, db, ev, now);
      } else {
        EmittedRow(cfg, db, ev, now, gid);
      }
    }
  }

  lemma {:induction false} EmitAllLeavesDeleted(cfg: Config, db: Db, evs: seq<WireEvent>, now: Time, gid: Gid)
    ensures RowFinal(db, EmitAll(cfg, db, evs, now), gid)
    ensures gid in EmitAll(cfg, db, evs, now).granules <==> gid in db.granules
  {
    if evs != [] {
      EmitAllLeavesDeleted(cfg, db, Init(evs), now, gid);
      EmitLeavesDeleted(cfg, EmitAll(cfg, db, Init(evs), now), Last(evs), now, gid);
      EmitKeepsRowIds(cfg, EmitAll(cfg, db, Init(evs), now), Last(evs), now);
    }
  }

  lemma {:induction false} AckAllLeavesDeleted(db: Db, acks: seq<Ack>, now: Time, gid: Gid)
    requires Inv(db)
    ensures RowFinal(db, AckAll(db, acks, now), gid)
    ensures gid in AckAll(db, acks, now).granules <==> gid in db.granules
  {
    if acks != [] {
      AckAllLeavesDeleted(db, Init(acks), now, gid);
      AckAllKeepsInv(db, Init(acks), now);
      if gid in db.granules {
        AckedRow(AckAll(db, Init(acks), now), Last(acks), now, gid);
      } else {
        AckAllKeepsRowIds(db, acks, now);
      }
    }
  }

  lemma UpkeepLeavesDeleted(cfg: Config, db: Db, step: Step, gid: Gid)
    requires Inv(db) && Enabled(cfg, db, step)
    requires !step.EmitStep? && !step.EmitBatchStep? && !step.AckStep? && !step.AckBatchStep?
    ensures RowFinal(db, Next(cfg, db, step), gid)
  {
  }

  /** Nothing ever changes a deleted row again, whatever owner and expiry it still shows, until it is reaped. */
  lemma DeletedIsFinal(cfg: Config, db: Db, step: Step, gid: Gid)
    requires Inv(db) && Enabled(cfg, db, step)
    ensures RowFinal(db, Next(cfg, db, step), gid)
  {
    if step.EmitStep? {
      EmitLeavesDeleted(cfg, db, step.event, step.now, gid);
    } else if step.EmitBatchStep? {
      EmitAllLeavesDeleted(cfg, db, step.events, step.now, gid);
    } else if step.AckStep? {
      if gid in db.granules {
        AckedRow(db, step.ack, step.now, gid);
      }
    } else if step.AckBatchStep? {
      AckAllLeavesDeleted(db, step.acks, step.now, gid);
    } else {
      UpkeepLeavesDeleted(cfg, db, step, gid);
    }
  }

  // ----- stuck deliveries -------------------------------------------------------------------

  /**
   Requeueing every undeliverable granule leaves none, and only touches granules with nothing left to pull: each goes
   back to pending with no object row, every other granule and its objects stay as they were.
   */
  lemma RequeueClears(cfg: Config, db: Db, ids: set<Gid>, now: Time, gid: Gid)
    requires Inv(db) && gid in db.granules && forall g | g in db.granules && Undeliverable(cfg, db, g) :: g in ids
    ensures var db' := Requeue(cfg, db, ids, now);
      && gid in db'.granules && !Undeliverable(cfg, db', gid)
      && db'.granules[gid] == (if Undeliverable(cfg, db, gid) then RequeuedGranule(db.granules[gid], now) else db.granules[gid])
      && (forall id | id in db.objects && db.objects[id].granule == gid ::
            if Undeliverable(cfg, db, gid) then id !in db'.objects else id in db'.objects && db'.objects[id] == db.objects[id])
  {
    var db' := Requeue(cfg, db, ids, now);
    if !Undeliverable(cfg, db, gid) && db.granules[gid].state == Uploaded {
      var id :| id in db.objects && db.objects[id].granule == gid && Pullable(cfg, db.objects[id]);
      assert id in db'.objects && db'.objects[id] == db.objects[id];
    }
  }
}
