/** The in-flight cap: with a fixed positive cap no worker ever holds more granules than it. */
module Quota {
  import opened Basics
  import opened StateMachine
  import opened Store
  import opened Protocol
  import opened Preservation

  function Held(db: Db, w: WorkerId): (ids: set<Gid>) {
    LeasedTo(db, w) + HostedBy(db, w)
  }

  /** The two counts never overlap: a leased granule has no objects yet. */
  lemma CountsDisjoint(db: Db, w: WorkerId)
    requires Inv(db)
    ensures LeasedTo(db, w) !! HostedBy(db, w)
    ensures CountInflight(db, w) == |Held(db, w)|
  {
  }

  /** Nothing is newly leased to the worker, and what it newly hosts it held a lease on. */
  ghost predicate Shrinks(db: Db, db': Db, w: WorkerId) {
    && (forall gid | gid in db'.granules && HeldBy(db'.granules[gid], w) ::
          gid in db.granules && HeldBy(db.granules[gid], w))
    && (forall id | id in db'.objects && db'.objects[id].workerId == w && db'.objects[id].deletedAt.None? ::
          || (id in db.objects && db.objects[id].workerId == w && db.objects[id].deletedAt.None?
              && db.objects[id].granule == db'.objects[id].granule)
          || (db'.objects[id].granule in db.granules && HeldBy(db.granules[db'.objects[id].granule], w)))
  }

  lemma ShrinksHeld(db: Db, db': Db, w: WorkerId)
    requires Shrinks(db, db', w)
    ensures Held(db', w) <= Held(db, w)
  {
  }

  lemma FlipShrinks(db: Db, gid: Gid, at: Time, w: WorkerId)
    ensures Shrinks(db, FlipDeleted(db, gid, at), w)
  {
  }

  lemma GrownShrinks(db: Db, db': Db, gid: Gid, worker: WorkerId, w: WorkerId)
    requires Grown(db, db', gid, worker) && HeldBy(db.granules[gid], worker)
    ensures Shrinks(db, db', w)
  {
  }

  lemma RowChangeShrinks(db: Db, gid: Gid, r: TransitionResult, now: Time, w: WorkerId)
    requires gid in db.granules && r.newObjects == [] && r.objectsDeletedAt.None?
    requires Leased(r.newState) ==> r.fields.leasedBy.Keep? && Leased(db.granules[gid].state)
    ensures Shrinks(db, Materialise(db, gid, r, now), w)
  {
  }

  lemma AcceptedReportShrinks(cfg: Config, db: Db, gid: Gid, worker: WorkerId, report: Report, now: Time, w: WorkerId)
    requires Inv(db) && FreshUpload(db, now) && gid in db.granules && !report.DeleteConfirmed?
    requires db.granules[gid].leasedBy == Some(worker)
    requires OutcomeFor(cfg, db, gid, FromWorker(worker, report), now).Accepted?
    ensures Shrinks(db, Materialise(db, gid, OutcomeFor(cfg, db, gid, FromWorker(worker, report), now).result, now), w)
  {
    var r := OutcomeFor(cfg, db, gid, FromWorker(worker, report), now).result;
    ReportMoves(SnapshotOf(db.granules[gid]), worker, report, now, cfg.maxRetries);
    if report.UploadCompleted? {
      UploadGrows(db, gid, r, worker, now);
      GrownShrinks(db, Materialise(db, gid, r, now), gid, worker, w);
    } else {
      RowChangeShrinks(db, gid, r, now, w);
    }
  }

  lemma EmitShrinks(cfg: Config, db: Db, ev: WireEvent, now: Time, w: WorkerId)
    requires Inv(db) && FreshUpload(db, now)
    ensures Held(Emit(cfg, db, ev, now), w) <= Held(db, w)
  {
    if ev.report.DeleteConfirmed? {
      EmitDeletion(cfg, db, ev, now);
      FlipShrinks(db, ev.granule, now, w);
      ShrinksHeld(db, FlipDeleted(db, ev.granule, now), w);
    } else if !Missed(db, ev) && OutcomeFor(cfg, db, ev.granule, FromWorker(ev.workerId, ev.report), now).Accepted? {
      AcceptedReportShrinks(cfg, db, ev.granule, ev.workerId, ev.report, now, w);
      ShrinksHeld(db, Emit(cfg, db, ev, now), w);
    }
  }

  lemma {:induction false} EmitAllShrinks(cfg: Config, db: Db, evs: seq<WireEvent>, now: Time, w: WorkerId)
    requires Inv(db) && FreshUpload(db, now)
    ensures Held(EmitAll(cfg, db, evs, now), w) <= Held(db, w)
  {
    if evs != [] {
      EmitAllShrinks(cfg, db, Init(evs), now, w);
      EmitAllKeepsInv(cfg, db, Init(evs), now);
      EmitShrinks(cfg, EmitAll(cfg, db, Init(evs), now), Last(evs), now, w);
    }
  }

  lemma AckOneShrinks(db: Db, a: Ack, now: Time, w: WorkerId)
    requires Inv(db)
    ensures Held(AckOne(db, a, now), w) <= Held(db, w)
  {
    if Confirms(db.objects, a) {
      AckOneConfirms(db, a, now);
    }
    ShrinksHeld(db, AckOne(db, a, now), w);
  }

  lemma {:induction false} AckAllShrinks(db: Db, acks: seq<Ack>, now: Time, w: WorkerId)
    requires Inv(db)
    ensures Held(AckAll(db, acks, now), w) <= Held(db, w)
  {
    if acks != [] {
      AckAllShrinks(db, Init(acks), now, w);
      AckAllKeepsInv(db, Init(acks), now);
      AckOneShrinks(AckAll(db, Init(acks), now), Last(acks), now, w);
    }
  }

  lemma BulkShrinks(db: Db, ids: set<Gid>, op: Bulk, w: WorkerId)
    requires RowsFit(db) && (!op.Claim? || op.claimer != w)
    ensures Held(BulkUpdate(db, ids, op), w) <= Held(db, w)
  {
  }

  lemma ForceRemoveShrinks(db: Db, worker: WorkerId, now: Time, w: WorkerId)
    requires RowsFit(db)
    ensures Held(RemoveWorkerForced(db, worker, now), w) <= Held(db, w)
  {
  }

  lemma RemovalShrinks(cfg: Config, db: Db, step: Step, w: WorkerId)
    requires Inv(db) && Enabled(cfg, db, step)
    requires step.RetainStep? || step.RemoveBatchStep? || step.RequeueStep? || step.CreateBatchStep? || step.AddStep?
    ensures Held(Next(cfg, db, step), w) <= Held(db, w)
  {
  }

  lemma UpkeepShrinks(cfg: Config, db: Db, step: Step, w: WorkerId)
    requires step.PullStep? || step.ResetPullsStep? || step.SetPausedStep? || step.RegistryStep? || step.ReuseIdsStep?
    ensures Held(Next(cfg, db, step), w) <= Held(db, w)
  {
  }

  /** Only claiming gives a worker more. */
  lemma OnlyClaimsGrow(cfg: Config, db: Db, step: Step, w: WorkerId)
    requires Inv(db) && Enabled(cfg, db, step) && !(step.ClaimStep? && step.worker == w)
    ensures Held(Next(cfg, db, step), w) <= Held(db, w)
  {
    match step
    case EmitStep(event, now) => EmitShrinks(cfg, db, event, now, w);
    case EmitBatchStep(events, now) => EmitAllShrinks(cfg, db, events, now, w);
    case FlipStep(gid, now) =>
      FlipShrinks(db, gid, now, w);
      ShrinksHeld(db, FlipDeleted(db, gid, now), w);
    case AckStep(ack, now) => AckOneShrinks(db, ack, now, w);
    case AckBatchStep(acks, now) => AckAllShrinks(db, acks, now, w);
    case ClaimStep(worker, _, claimed, now) => BulkShrinks(db, claimed, Claim(worker, now), w);
    case BulkStep(selection, op) => BulkShrinks(db, selection, op, w);
    case ForceRemoveStep(worker, now) => ForceRemoveShrinks(db, worker, now, w);
    case RetainStep(_) => RemovalShrinks(cfg, db, step, w);
    case RemoveBatchStep(_) => RemovalShrinks(cfg, db, step, w);
    case RequeueStep(_, _) => RemovalShrinks(cfg, db, step, w);
    case CreateBatchStep(_, _, _, _) => RemovalShrinks(cfg, db, step, w);
    case AddStep(_, _, _) => RemovalShrinks(cfg, db, step, w);
    case _ => UpkeepShrinks(cfg, db, step, w);
  }

  /** A claim stays inside the quota it was granted. */
  lemma ClaimWithinCap(cfg: Config, db: Db, worker: WorkerId, capacity: int, claimed: set<Gid>, now: Time)
    requires Inv(db) && cfg.maxInflight > 0 && |Held(db, worker)| <= cfg.maxInflight
    requires claimed == {} || |claimed| <= LeaseLimit(cfg, db, worker, capacity)
    ensures |Held(BulkUpdate(db, claimed, Claim(worker, now)), worker)| <= cfg.maxInflight
  {
    var db' := BulkUpdate(db, claimed, Claim(worker, now));
    CountsDisjoint(db, worker);
    forall gid | gid in Held(db', worker) && gid !in claimed ensures gid in Held(db, worker) {
      if gid in HostedBy(db', worker) {
        assert gid in HostedBy(db, worker);
      } else {
        assert gid in LeasedTo(db, worker);
      }
    }
    assert Held(db', worker) <= Held(db, worker) + claimed;
    SubsetSize(Held(db', worker), Held(db, worker) + claimed);
    assert |Held(db, worker) + claimed| <= |Held(db, worker)| + |claimed|;
  }

  lemma {:induction false} SubsetSize<T>(a: set<T>, b: set<T>)
    requires a <= b
    ensures |a| <= |b|
  {
    assert b == a + (b - a);
  }

  /** In every reachable database no worker's in-flight count exceeds the cap. */
  lemma {:induction false} InflightCapped(cfg: Config, dbs: seq<Db>, steps: seq<Step>, i: nat, w: WorkerId)
    requires IsRun(cfg, dbs, steps) && dbs[0] == EMPTY_DB && i <= |steps| && cfg.maxInflight > 0
    ensures CountInflight(dbs[i], w) <= cfg.maxInflight
  {
    EmptyInv();
    ReachableInv(cfg, dbs, steps, i);
    CountsDisjoint(dbs[i], w);
    if i > 0 {
      var prev, step := dbs[i - 1], steps[i - 1];
      InflightCapped(cfg, dbs, steps, i - 1, w);
      ReachableInv(cfg, dbs, steps, i - 1);
      CountsDisjoint(prev, w);
      if step.ClaimStep? && step.worker == w {
        ClaimWithinCap(cfg, prev, w, step.capacity, step.claimed, step.now);
      } else {
        OnlyClaimsGrow(cfg, prev, step, w);
        SubsetSize(Held(dbs[i], w), Held(prev, w));
      }
    }
  }

  /** The quota is negative exactly when the worker asks for a negative number, contrary to its description. */
  lemma QuotaSign(requested: int, currentInflight: nat, maxInflight: int)
    ensures ComputeLeaseQuota(requested, currentInflight, maxInflight) < 0 <==> requested < 0
    ensures ComputeLeaseQuota(-1, 0, 4) == -1
  {
  }
}
