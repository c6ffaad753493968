/** Retry accounting over runs, and why claims, reports and acks alone cannot change a granule forever. */
module Retries {
  import opened Basics
  import opened StateMachine
  import opened Store
  import opened Protocol
  import opened Preservation

  predicate FailureAccepted(db: Db, ev: WireEvent, gid: Gid) {
    && ev.granule == gid && ev.report.ProcessingFailed?
    && !Missed(db, ev) && Leased(db.granules[gid].state)
  }

  function FailuresInBatch(cfg: Config, db: Db, evs: seq<WireEvent>, now: Time, gid: Gid): (n: nat) {
    if evs == [] then 0
    else FailuresInBatch(cfg, db, Init(evs), now, gid)
         + if FailureAccepted(EmitAll(cfg, db, Init(evs), now), Last(evs), gid) then 1 else 0
  }

  /** Accepted failure reports for the granule in this step. */
  function FailuresIn(cfg: Config, db: Db, step: Step, gid: Gid): (n: nat) {
    match step
    case EmitStep(event, _) => if FailureAccepted(db, event, gid) then 1 else 0
    case EmitBatchStep(events, now) => FailuresInBatch(cfg, db, events, now, gid)
    case _ => 0
  }

  /** The step takes the granule away from its worker, counting as an attempt. */
  predicate RevokedIn(db: Db, step: Step, gid: Gid)
    requires gid in db.granules
  {
    match step
    case BulkStep(selection, Revoke(w, now)) => gid in selection && Selects(db, Revoke(w, now), gid)
    case ForceRemoveStep(worker, now) => Selects(db, Revoke(worker, now), gid)
    case _ => false
  }

  /** An operator retry or requeue starts the count again. */
  predicate ResetIn(cfg: Config, db: Db, step: Step, gid: Gid)
    requires gid in db.granules
  {
    match step
    case BulkStep(selection, Retry(now)) => gid in selection && Selects(db, Retry(now), gid)
    case RequeueStep(requeued, _) => gid in requeued && Undeliverable(cfg, db, gid)
    case _ => false
  }

  datatype Attempts = Attempts(failures: nat, revocations: nat)

  function CountAttempts(cfg: Config, db: Db, step: Step, gid: Gid, t: Attempts): (t': Attempts) {
    if gid !in db.granules || ResetIn(cfg, db, step, gid) then Attempts(0, 0)
    else Attempts(t.failures + FailuresIn(cfg, db, step, gid),
                  t.revocations + if RevokedIn(db, step, gid) then 1 else 0)
  }

  /** History: accepted failures and revocations since the granule was added or last reset. */
  ghost function AttemptsAt(cfg: Config, dbs: seq<Db>, steps: seq<Step>, i: nat, gid: Gid): (t: Attempts)
    requires |dbs| == |steps| + 1 && i <= |steps|
  {
    if i == 0 then Attempts(0, 0)
    else CountAttempts(cfg, dbs[i - 1], steps[i - 1], gid, AttemptsAt(cfg, dbs, steps, i - 1, gid))
  }

  predicate Stopped(s: GranuleState) { s == Blacklisted || s == Deleted }

  /** The row's retry count is exactly its attempts, and failures alone stay below the cap until it stops. */
  predicate Accounted(cfg: Config, g: Granule, t: Attempts) {
    && g.retryCount == t.failures + t.revocations
    && t.failures <= cfg.maxRetries
    && (!Stopped(g.state) ==> t.failures < cfg.maxRetries)
  }

  /** Unchanged attempts; nothing leaves the stopped states. */
  predicate Steady(g: Granule, g': Granule) {
    g'.retryCount == g.retryCount && (Stopped(g.state) ==> Stopped(g'.state))
  }

  /** An accepted report counts one failure exactly when it reports one. */
  lemma ReportAccounted(cfg: Config, g: Granule, worker: WorkerId, report: Report, now: Time, t: Attempts)
    requires Accounted(cfg, g, t) && !report.DeleteConfirmed?
    requires ApplyReport(SnapshotOf(g), worker, report, now, cfg.maxRetries).Accepted?
    ensures var r := ApplyReport(SnapshotOf(g), worker, report, now, cfg.maxRetries).result;
      Accounted(cfg, Patched(g, r), t.(failures := t.failures + if report.ProcessingFailed? then 1 else 0))
    ensures report.ProcessingFailed? ==> Leased(g.state)
  {
  }

  /** What one report does to one row. */
  lemma EmittedRow(cfg: Config, db: Db, ev: WireEvent, now: Time, gid: Gid)
    requires gid in db.granules && !ev.report.DeleteConfirmed?
    ensures var db', g := Emit(cfg, db, ev, now), db.granules[gid];
      && gid in db'.granules
      && (if gid == ev.granule && !Missed(db, ev)
             && ApplyReport(SnapshotOf(g), ev.workerId, ev.report, now, cfg.maxRetries).Accepted?
          then db'.granules[gid] == Patched(g, ApplyReport(SnapshotOf(g), ev.workerId, ev.report, now, cfg.maxRetries).result)
          else db'.granules[gid] == g)
  {
    if !Missed(db, ev) && OutcomeFor(cfg, db, ev.granule, FromWorker(ev.workerId, ev.report), now).Accepted? {
      ReportMoves(SnapshotOf(db.granules[ev.granule]), ev.workerId, ev.report, now, cfg.maxRetries);
    }
  }

  lemma EmitAccounted(cfg: Config, db: Db, ev: WireEvent, now: Time, gid: Gid, t: Attempts)
    requires gid in db.granules && Accounted(cfg, db.granules[gid], t)
    ensures var db' := Emit(cfg, db, ev, now);
      && gid in db'.granules
      && Accounted(cfg, db'.granules[gid], t.(failures := t.failures + if FailureAccepted(db, ev, gid) then 1 else 0))
  {
    if ev.report.DeleteConfirmed? {
      EmitDeletion(cfg, db, ev, now);
    } else {
      EmittedRow(cfg, db, ev, now, gid);
      if gid == ev.granule && !Missed(db, ev)
         && ApplyReport(SnapshotOf(db.granules[gid]), ev.workerId, ev.report, now, cfg.maxRetries).Accepted? {
        ReportAccounted(cfg, db.granules[gid], ev.workerId, ev.report, now, t);
      }
    }
  }

  lemma {:induction false} EmitAllAccounted(cfg: Config, db: Db, evs: seq<WireEvent>, now: Time, gid: Gid, t: Attempts)
    requires gid in db.granules && Accounted(cfg, db.granules[gid], t)
    ensures var db' := EmitAll(cfg, db, evs, now);
      && gid in db'.granules
      && Accounted(cfg, db'.granules[gid], t.(failures := t.failures + FailuresInBatch(cfg, db, evs, now, gid)))
  {
    if evs != [] {
      EmitAllAccounted(cfg, db, Init(evs), now, gid, t);
      EmitAccounted(cfg, EmitAll(cfg, db, Init(evs), now), Last(evs), now, gid,
                    t.(failures := t.failures + FailuresInBatch(cfg, db, Init(evs), now, gid)));
    }
  }

  lemma AckOneSteady(db: Db, a: Ack, now: Time, gid: Gid)
    requires Inv(db) && gid in db.granules
    ensures var db' := AckOne(db, a, now); gid in db'.granules && Steady(db.granules[gid], db'.granules[gid])
  {
    AckedRow(db, a, now, gid);
  }

  lemma {:induction false} AckAllSteady(db: Db, acks: seq<Ack>, now: Time, gid: Gid)
    requires Inv(db) && gid in db.granules
    ensures var db' := AckAll(db, acks, now); gid in db'.granules && Steady(db.granules[gid], db'.granules[gid])
  {
    if acks != [] {
      AckAllSteady(db, Init(acks), now, gid);
      AckAllKeepsInv(db, Init(acks), now);
      AckOneSteady(AckAll(db, Init(acks), now), Last(acks), now, gid);
    }
  }

  lemma UpkeepSteady(cfg: Config, db: Db, step: Step, gid: Gid)
    requires Inv(db) && Enabled(cfg, db, step) && gid in db.granules && gid in Next(cfg, db, step).granules
    requires !step.EmitStep? && !step.EmitBatchStep? && !step.BulkStep? && !step.ForceRemoveStep? && !step.RequeueStep?
    requires !step.AckStep? && !step.AckBatchStep?
    ensures Steady(db.granules[gid], Next(cfg, db, step).granules[gid])
  {
  }

  lemma OtherSteady(cfg: Config, db: Db, step: Step, gid: Gid)
    requires Inv(db) && Enabled(cfg, db, step) && gid in db.granules && gid in Next(cfg, db, step).granules
    requires !step.EmitStep? && !step.EmitBatchStep? && !step.BulkStep? && !step.ForceRemoveStep? && !step.RequeueStep?
    ensures Steady(db.granules[gid], Next(cfg, db, step).granules[gid])
  {
    if step.AckStep? {
      AckOneSteady(db, step.ack, step.now, gid);
    } else if step.AckBatchStep? {
      AckAllSteady(db, step.acks, step.now, gid);
    } else {
      UpkeepSteady(cfg, db, step, gid);
    }
  }

  lemma ReportStepAccounted(cfg: Config, db: Db, step: Step, gid: Gid, t: Attempts)
    requires (step.EmitStep? || step.EmitBatchStep?) && gid in db.granules && Accounted(cfg, db.granules[gid], t)
    ensures gid in Next(cfg, db, step).granules
    ensures Accounted(cfg, Next(cfg, db, step).granules[gid], CountAttempts(cfg, db, step, gid, t))
  {
    if step.EmitStep? {
      EmitAccounted(cfg, db, step.event, step.now, gid, t);
    } else {
      EmitAllAccounted(cfg, db, step.events, step.now, gid, t);
    }
  }

  lemma OperatorStepAccounted(cfg: Config, db: Db, step: Step, gid: Gid, t: Attempts)
    requires step.BulkStep? || step.ForceRemoveStep? || step.RequeueStep?
    requires gid in db.granules && Accounted(cfg, db.granules[gid], t) && cfg.maxRetries > 0
    ensures gid in Next(cfg, db, step).granules
    ensures Accounted(cfg, Next(cfg, db, step).granules[gid], CountAttempts(cfg, db, step, gid, t))
  {
  }

  lemma NextAccounted(cfg: Config, db: Db, step: Step, gid: Gid, t: Attempts)
    requires Inv(db) && Enabled(cfg, db, step) && cfg.maxRetries > 0
    requires gid in db.granules && gid in Next(cfg, db, step).granules && Accounted(cfg, db.granules[gid], t)
    ensures Accounted(cfg, Next(cfg, db, step).granules[gid], CountAttempts(cfg, db, step, gid, t))
  {
    if step.EmitStep? || step.EmitBatchStep? {
      ReportStepAccounted(cfg, db, step, gid, t);
    } else if step.BulkStep? || step.ForceRemoveStep? || step.RequeueStep? {
      OperatorStepAccounted(cfg, db, step, gid, t);
    } else {
      OtherSteady(cfg, db, step, gid);
    }
  }

  lemma NewRowIsFresh(cfg: Config, db: Db, step: Step, gid: Gid)
    requires Inv(db) && Enabled(cfg, db, step) && gid !in db.granules && gid in Next(cfg, db, step).granules
    ensures Next(cfg, db, step).granules[gid].retryCount == 0 && Next(cfg, db, step).granules[gid].state == Pending
  {
    if step.CreateBatchStep? || step.AddStep? {
    } else {
      NextAddsNoRow(cfg, db, step);
    }
  }

  lemma {:induction false} EmitAllKeepsRowIds(cfg: Config, db: Db, evs: seq<WireEvent>, now: Time)
    ensures EmitAll(cfg, db, evs, now).granules.Keys == db.granules.Keys
  {
    if evs != [] {
      EmitAllKeepsRowIds(cfg, db, Init(evs), now);
      EmitKeepsRowIds(cfg, EmitAll(cfg, db, Init(evs), now), Last(evs), now);
    }
  }

  lemma {:induction false} AckAllKeepsRowIds(db: Db, acks: seq<Ack>, now: Time)
    ensures AckAll(db, acks, now).granules.Keys == db.granules.Keys
  {
    if acks != [] {
      AckAllKeepsRowIds(db, Init(acks), now);
    }
  }

  lemma NextAddsNoRow(cfg: Config, db: Db, step: Step)
    requires !step.CreateBatchStep? && !step.AddStep?
    ensures Next(cfg, db, step).granules.Keys <= db.granules.Keys
  {
    match step
    case EmitStep(event, now) => EmitKeepsRowIds(cfg, db, event, now);
    case EmitBatchStep(events, now) => EmitAllKeepsRowIds(cfg, db, events, now);
    case AckBatchStep(acks, now) => AckAllKeepsRowIds(db, acks, now);
    case _ =>
  }

  /**
   In every reachable database the retry count equals the accepted failures plus the revocations since the
   last operator reset, and at most `maxRetries` failures are accepted between resets.
   */
  lemma {:induction false} RetryCountIsAttempts(cfg: Config, dbs: seq<Db>, steps: seq<Step>, i: nat, gid: Gid)
    requires IsRun(cfg, dbs, steps) && dbs[0] == EMPTY_DB && i <= |steps| && cfg.maxRetries > 0
    requires gid in dbs[i].granules
    ensures Accounted(cfg, dbs[i].granules[gid], AttemptsAt(cfg, dbs, steps, i, gid))
  {
    if i > 0 {
      EmptyInv();
      ReachableInv(cfg, dbs, steps, i - 1);
      if gid in dbs[i - 1].granules {
        RetryCountIsAttempts(cfg, dbs, steps, i - 1, gid);
        NextAccounted(cfg, dbs[i - 1], steps[i - 1], gid, AttemptsAt(cfg, dbs, steps, i - 1, gid));
      } else {
        NewRowIsFresh(cfg, dbs[i - 1], steps[i - 1], gid);
      }
    }
  }

  // ----- termination ------------------------------------------------------------------------

  /** Steps only workers and receivers take. */
  predicate ClientStep(step: Step) {
    || step.ClaimStep? || step.EmitStep? || step.EmitBatchStep? || step.FlipStep?
    || step.PullStep? || step.AckStep? || step.AckBatchStep?
  }

  /** How many states a row may still enter before its next failure. */
  function Remaining(s: GranuleState): (n: nat)
    ensures n < STATE_SPAN
  {
    match s
    case Pending => 10 case Queued => 9 case Downloading => 8 case Downloaded => 7 case Processing => 6
    case Processed => 5 case Uploading => 4 case Uploaded => 3 case Acked => 2
    case Failed => 1 case Blacklisted => 1 case Deleted => 0
  }

  const STATE_SPAN: nat := 11

  /** Attempts left first, then states left: a lexicographic measure packed into one number. */
  function Measure(cfg: Config, g: Granule): (n: nat) {
    STATE_SPAN * Max(0, cfg.maxRetries - g.retryCount) + Remaining(g.state)
  }

  predicate Descends(cfg: Config, g: Granule, g': Granule) {
    (g'.state == g.state && g'.retryCount == g.retryCount) || Measure(cfg, g') < Measure(cfg, g)
  }

  predicate RowDescends(cfg: Config, db: Db, db': Db, gid: Gid) {
    gid in db.granules ==> gid in db'.granules && Descends(cfg, db.granules[gid], db'.granules[gid])
  }

  lemma ReportDescends(cfg: Config, g: Granule, worker: WorkerId, report: Report, now: Time)
    requires !report.DeleteConfirmed?
    requires ApplyReport(SnapshotOf(g), worker, report, now, cfg.maxRetries).Accepted?
    ensures Measure(cfg, Patched(g, ApplyReport(SnapshotOf(g), worker, report, now, cfg.maxRetries).result)) < Measure(cfg, g)
  {
  }

  lemma EmitDescends(cfg: Config, db: Db, ev: WireEvent, now: Time, gid: Gid)
    requires gid in db.granules
    ensures var db' := Emit(cfg, db, ev, now);
      gid in db'.granules && Descends(cfg, db.granules[gid], db'.granules[gid])
  {
    if ev.report.DeleteConfirmed? {
      EmitDeletion(cfg, db, ev, now);
    } else {
      EmittedRow(cfg, db, ev, now, gid);
      if gid == ev.granule && !Missed(db, ev)
         && ApplyReport(SnapshotOf(db.granules[gid]), ev.workerId, ev.report, now, cfg.maxRetries).Accepted? {
        ReportDescends(cfg, db.granules[gid], ev.workerId, ev.report, now);
      }
    }
  }

  lemma {:induction false} EmitAllDescends(cfg: Config, db: Db, evs: seq<WireEvent>, now: Time, gid: Gid)
    requires gid in db.granules
    ensures var db' := EmitAll(cfg, db, evs, now);
      gid in db'.granules && Descends(cfg, db.granules[gid], db'.granules[gid])
  {
    if evs != [] {
      EmitAllDescends(cfg, db, Init(evs), now, gid);
      EmitDescends(cfg, EmitAll(cfg, db, Init(evs), now), Last(evs), now, gid);
    }
  }

  lemma AckOneDescends(cfg: Config, db: Db, a: Ack, now: Time, gid: Gid)
    requires Inv(db) && gid in db.granules
    ensures var db' := AckOne(db, a, now);
      gid in db'.granules && Descends(cfg, db.granules[gid], db'.granules[gid])
  {
    AckedRow(db, a, now, gid);
  }

  lemma {:induction false} AckAllDescends(cfg: Config, db: Db, acks: seq<Ack>, now: Time, gid: Gid)
    requires Inv(db) && gid in db.granules
    ensures var db' := AckAll(db, acks, now);
      gid in db'.granules && Descends(cfg, db.granules[gid], db'.granules[gid])
  {
    if acks != [] {
      AckAllDescends(cfg, db, Init(acks), now, gid);
      AckAllKeepsInv(db, Init(acks), now);
      AckOneDescends(cfg, AckAll(db, Init(acks), now), Last(acks), now, gid);
    }
  }

  lemma ReceiverStepDescends(cfg: Config, db: Db, step: Step, gid: Gid)
    requires Inv(db) && (step.PullStep? || step.AckStep? || step.AckBatchStep?) && gid in db.granules
    ensures RowDescends(cfg, db, Next(cfg, db, step), gid)
  {
    if step.AckStep? {
      AckOneDescends(cfg, db, step.ack, step.now, gid);
    } else if step.AckBatchStep? {
      AckAllDescends(cfg, db, step.acks, step.now, gid);
    }
  }

  lemma WorkerStepDescends(cfg: Config, db: Db, step: Step, gid: Gid)
    requires (step.ClaimStep? || step.EmitStep? || step.EmitBatchStep? || step.FlipStep?) && gid in db.granules
    ensures RowDescends(cfg, db, Next(cfg, db, step), gid)
  {
    if step.EmitStep? {
      EmitDescends(cfg, db, step.event, step.now, gid);
    } else if step.EmitBatchStep? {
      EmitAllDescends(cfg, db, step.events, step.now, gid);
    }
  }

  /** Steps of the stretch that changed the granule's state or attempt count. */
  ghost function Changes(dbs: seq<Db>, i: nat, j: nat, gid: Gid): (n: nat)
    requires i <= j < |dbs| && forall k | i <= k <= j :: gid in dbs[k].granules
  {
    if i == j then 0
    else Changes(dbs, i, j - 1, gid)
         + if dbs[j].granules[gid].state != dbs[j - 1].granules[gid].state
              || dbs[j].granules[gid].retryCount != dbs[j - 1].granules[gid].retryCount then 1 else 0
  }

  lemma {:induction false} DescentSettles(cfg: Config, dbs: seq<Db>, i: nat, j: nat, gid: Gid)
    requires i <= j < |dbs| && gid in dbs[i].granules
    requires forall k | i <= k < j :: RowDescends(cfg, dbs[k], dbs[k + 1], gid)
    ensures forall k | i <= k <= j :: gid in dbs[k].granules
    ensures Changes(dbs, i, j, gid) + Measure(cfg, dbs[j].granules[gid]) <= Measure(cfg, dbs[i].granules[gid])
  {
    if i < j {
      DescentSettles(cfg, dbs, i, j - 1, gid);
      assert RowDescends(cfg, dbs[j - 1], dbs[j - 1 + 1], gid);
    }
  }

  /** Claims, reports and acks alone change a granule's state at most as often as its measure allows. */
  lemma ClientsAloneSettle(cfg: Config, dbs: seq<Db>, steps: seq<Step>, i: nat, j: nat, gid: Gid)
    requires IsRun(cfg, dbs, steps) && dbs[0] == EMPTY_DB && i <= j <= |steps|
    requires gid in dbs[i].granules && forall k | i <= k < j :: ClientStep(steps[k])
    ensures forall k | i <= k <= j :: gid in dbs[k].granules
    ensures Changes(dbs, i, j, gid) + Measure(cfg, dbs[j].granules[gid]) <= Measure(cfg, dbs[i].granules[gid])
  {
    forall k | i <= k < j ensures RowDescends(cfg, dbs[k], dbs[k + 1], gid) {
      RunStepDescends(cfg, dbs, steps, k, gid);
    }
    DescentSettles(cfg, dbs, i, j, gid);
  }

  lemma RunStepDescends(cfg: Config, dbs: seq<Db>, steps: seq<Step>, k: nat, gid: Gid)
    requires IsRun(cfg, dbs, steps) && dbs[0] == EMPTY_DB && k < |steps| && ClientStep(steps[k])
    ensures RowDescends(cfg, dbs[k], dbs[k + 1], gid)
  {
    EmptyInv();
    ReachableInv(cfg, dbs, steps, k);
    if gid in dbs[k].granules {
      if steps[k].PullStep? || steps[k].AckStep? || steps[k].AckBatchStep? {
        ReceiverStepDescends(cfg, dbs[k], steps[k], gid);
      } else {
        WorkerStepDescends(cfg, dbs[k], steps[k], gid);
      }
    }
  }

  /** A pending granule may be past the cap, but only by revocations: its failures alone are below it. */
  lemma PendingMayBePastTheCap(cfg: Config, dbs: seq<Db>, steps: seq<Step>, i: nat, gid: Gid)
    requires IsRun(cfg, dbs, steps) && dbs[0] == EMPTY_DB && i <= |steps| && cfg.maxRetries > 0
    requires gid in dbs[i].granules && dbs[i].granules[gid].state == Pending
    ensures dbs[i].granules[gid].retryCount < cfg.maxRetries + AttemptsAt(cfg, dbs, steps, i, gid).revocations
  {
    RetryCountIsAttempts(cfg, dbs, steps, i, gid);
  }
}
