/** The delivery ledger: receipts only accumulate, one per first acknowledgement, and outlive their rows. */
module Ledger {
  import opened Basics
  import opened StateMachine
  import opened Store
  import opened Protocol
  import opened Preservation

  /** Rows acknowledged for the first time between the two databases. */
  function NewlyAcked(db: Db, db': Db): (ids: set<nat>) {
    set id | id in db.objects && id in db'.objects && db.objects[id].ackedAt.None? && db'.objects[id].ackedAt.Some?
             && KeyOf(id, db'.objects[id]) == KeyOf(id, db.objects[id])
  }

  /** No receipt is written and every acked row was acked before. */
  ghost predicate AcksKept(db: Db, db': Db) {
    && db'.receipts == db.receipts
    && forall id | id in db'.objects && db'.objects[id].ackedAt.Some? ::
         id in db.objects && db.objects[id].ackedAt.Some?
  }

  lemma FramedKeepsAcks(db: Db, db': Db)
    requires FramedTables(db, db') && FramedObjects(db, db')
    ensures AcksKept(db, db')
  {
  }

  lemma UploadsAreUnacked(db: Db, gid: Gid, r: TransitionResult, now: Time)
    requires gid in db.granules && r.objectsDeletedAt.None?
    ensures AcksKept(db, Materialise(db, gid, r, now))
  {
  }

  lemma ReportKeepsAcks(cfg: Config, db: Db, ev: WireEvent, now: Time)
    requires !ev.report.DeleteConfirmed?
    ensures AcksKept(db, Emit(cfg, db, ev, now))
  {
    if !Missed(db, ev) && OutcomeFor(cfg, db, ev.granule, FromWorker(ev.workerId, ev.report), now).Accepted? {
      ReportMoves(SnapshotOf(db.granules[ev.granule]), ev.workerId, ev.report, now, cfg.maxRetries);
      UploadsAreUnacked(db, ev.granule, OutcomeFor(cfg, db, ev.granule, FromWorker(ev.workerId, ev.report), now).result, now);
    }
  }

  lemma EmitKeepsAcks(cfg: Config, db: Db, ev: WireEvent, now: Time)
    requires Inv(db) && FreshUpload(db, now)
    ensures AcksKept(db, Emit(cfg, db, ev, now))
  {
    if ev.report.DeleteConfirmed? {
      EmitDeletion(cfg, db, ev, now);
      FlipFramesTables(db, ev.granule, now);
      FlipFramesObjects(db, ev.granule, now);
      FramedKeepsAcks(db, FlipDeleted(db, ev.granule, now));
    } else {
      ReportKeepsAcks(cfg, db, ev, now);
    }
  }

  lemma {:induction false} EmitAllKeepsAcks(cfg: Config, db: Db, evs: seq<WireEvent>, now: Time)
    requires Inv(db) && FreshUpload(db, now)
    ensures AcksKept(db, EmitAll(cfg, db, evs, now))
  {
    if evs != [] {
      EmitAllKeepsAcks(cfg, db, Init(evs), now);
      EmitAllKeepsInv(cfg, db, Init(evs), now);
      EmitKeepsAcks(cfg, EmitAll(cfg, db, Init(evs), now), Last(evs), now);
    }
  }

  lemma RetainKeepsAcks(db: Db, cutoff: Time)
    requires Inv(db)
    ensures AcksKept(db, Retain(db, cutoff))
  {
    RetainKeepsInv(db, cutoff);
    var trimmed := DropObjects(db, StaleObjects(db, cutoff));
    DropFamiliesFramed(db, StaleObjects(db, cutoff));
    FramedKeepsAcks(db, trimmed);
    ReapFramed(trimmed, StaleGranules(trimmed, cutoff));
    FramedKeepsAcks(trimmed, Retain(db, cutoff));
  }

  lemma RemovalKeepsAcks(cfg: Config, db: Db, step: Step)
    requires Inv(db) && Enabled(cfg, db, step)
    requires step.RetainStep? || step.RemoveBatchStep? || step.RequeueStep? || step.ForceRemoveStep?
    ensures AcksKept(db, Next(cfg, db, step))
  {
    match step
    case RetainStep(cutoff) => RetainKeepsAcks(db, cutoff);
    case RemoveBatchStep(b) =>
      ReapFramed(db, GranulesOf(db, b));
      FramedKeepsAcks(db, Reap(db, GranulesOf(db, b)));
    case RequeueStep(gids, now) =>
      RequeueFramed(cfg, db, gids, now);
      FramedKeepsAcks(db, Requeue(cfg, db, gids, now));
    case ForceRemoveStep(worker, now) =>
  }

  lemma FlipKeepsAcks(db: Db, gid: Gid, at: Time)
    ensures AcksKept(db, FlipDeleted(db, gid, at))
  {
  }

  lemma ReportStepKeepsAcks(cfg: Config, db: Db, step: Step)
    requires Inv(db) && Enabled(cfg, db, step) && (step.EmitStep? || step.EmitBatchStep? || step.FlipStep?)
    ensures AcksKept(db, Next(cfg, db, step))
  {
    if step.EmitStep? {
      EmitKeepsAcks(cfg, db, step.event, step.now);
    } else if step.EmitBatchStep? {
      EmitAllKeepsAcks(cfg, db, step.events, step.now);
    } else {
      FlipKeepsAcks(db, step.flipped, step.now);
    }
  }

  lemma UpkeepKeepsAcks(cfg: Config, db: Db, step: Step)
    requires !step.AckStep? && !step.AckBatchStep? && !step.EmitStep? && !step.EmitBatchStep? && !step.FlipStep?
    requires !step.RetainStep? && !step.RemoveBatchStep? && !step.RequeueStep? && !step.ForceRemoveStep?
    requires Inv(db) && Enabled(cfg, db, step)
    ensures AcksKept(db, Next(cfg, db, step))
  {
  }

  lemma NonAckStepKeepsAcks(cfg: Config, db: Db, step: Step)
    requires Inv(db) && Enabled(cfg, db, step) && !step.AckStep? && !step.AckBatchStep?
    ensures AcksKept(db, Next(cfg, db, step))
  {
    if step.EmitStep? || step.EmitBatchStep? || step.FlipStep? {
      ReportStepKeepsAcks(cfg, db, step);
    } else if step.RetainStep? || step.RemoveBatchStep? || step.RequeueStep? || step.ForceRemoveStep? {
      RemovalKeepsAcks(cfg, db, step);
    } else {
      UpkeepKeepsAcks(cfg, db, step);
    }
  }

  // ----- acknowledgement steps --------------------------------------------------------------

  ghost predicate Extends(db: Db, db': Db) {
    forall k | k in db.receipts :: k in db'.receipts && db'.receipts[k] == db.receipts[k]
  }

  /** The receipts of `db'` are those of `db` and one for each newly acked row. */
  ghost predicate Records(db: Db, db': Db) {
    && db'.objects.Keys == db.objects.Keys
    && (forall id | id in db.objects ::
          KeyOf(id, db'.objects[id]) == KeyOf(id, db.objects[id])
          && (db.objects[id].ackedAt.Some? ==> db'.objects[id].ackedAt.Some?))
    && Extends(db, db')
    && db'.receipts.Keys == db.receipts.Keys + (set id | id in NewlyAcked(db, db') :: KeyOf(id, db.objects[id]))
  }

  lemma ConfirmedRecords(db: Db, db': Db, id: nat)
    requires References(db) && Receipted(db) && RowConfirmed(db, db', id)
    ensures Records(db, db')
  {
  }

  lemma FailureRecords(db: Db, a: Ack, now: Time)
    requires !Confirms(db.objects, a)
    ensures Records(db, AckOne(db, a, now))
  {
  }

  lemma AckOneRecords(db: Db, a: Ack, now: Time)
    requires Inv(db)
    ensures Records(db, AckOne(db, a, now))
  {
    if Confirms(db.objects, a) {
      AckOneConfirms(db, a, now);
      ConfirmedRecords(db, AckOne(db, a, now), a.objectId);
    } else {
      FailureRecords(db, a, now);
    }
  }

  lemma RecordsCompose(db: Db, mid: Db, db': Db)
    requires Records(db, mid) && Records(mid, db')
    ensures Records(db, db')
  {
    assert NewlyAcked(db, db') == NewlyAcked(db, mid) + NewlyAcked(mid, db');
  }

  lemma {:induction false} AckAllRecords(db: Db, acks: seq<Ack>, now: Time)
    requires Inv(db)
    ensures Records(db, AckAll(db, acks, now))
  {
    if acks == [] {
      assert NewlyAcked(db, db) == {};
    } else {
      var mid := AckAll(db, Init(acks), now);
      AckAllRecords(db, Init(acks), now);
      AckAllKeepsInv(db, Init(acks), now);
      AckOneRecords(mid, Last(acks), now);
      RecordsCompose(db, mid, AckAll(db, acks, now));
    }
  }

  // ----- whole runs -------------------------------------------------------------------------

  lemma NextRecords(cfg: Config, db: Db, step: Step)
    requires Inv(db) && Enabled(cfg, db, step)
    ensures var db' := Next(cfg, db, step);
      && Extends(db, db')
      && |db'.receipts| == |db.receipts| + |NewlyAcked(db, db')|
  {
    var db' := Next(cfg, db, step);
    if step.AckStep? || step.AckBatchStep? {
      if step.AckStep? {
        AckOneRecords(db, step.ack, step.now);
      } else {
        AckAllRecords(db, step.acks, step.now);
      }
      RecordsCount(db, db');
    } else {
      NonAckStepKeepsAcks(cfg, db, step);
      assert NewlyAcked(db, db') == {};
    }
  }

  lemma {:induction false} KeysInjective(db: Db, ids: set<nat>)
    requires forall id | id in ids :: id in db.objects
    ensures |set id | id in ids :: KeyOf(id, db.objects[id])| == |ids|
  {
    var keys := set id | id in ids :: KeyOf(id, db.objects[id]);
    if ids == {} {
      assert keys == {};
    } else {
      var id :| id in ids;
      KeysInjective(db, ids - {id});
      assert keys == (set i | i in ids - {id} :: KeyOf(i, db.objects[i])) + {KeyOf(id, db.objects[id])};
    }
  }

  lemma RecordsCount(db: Db, db': Db)
    requires References(db) && Receipted(db) && Records(db, db')
    ensures |db'.receipts| == |db.receipts| + |NewlyAcked(db, db')|
  {
    var added := set id | id in NewlyAcked(db, db') :: KeyOf(id, db.objects[id]);
    KeysInjective(db, NewlyAcked(db, db'));
    assert db.receipts.Keys !! added;
    assert |db'.receipts.Keys| == |db.receipts.Keys| + |added|;
  }

  /** First acknowledgements ever made along the run. */
  ghost function FirstAcks(dbs: seq<Db>, i: nat): (n: nat)
    requires i < |dbs|
  {
    if i == 0 then 0 else FirstAcks(dbs, i - 1) + |NewlyAcked(dbs[i - 1], dbs[i])|
  }

  /** The ledger holds one receipt per first acknowledgement ever made. */
  lemma {:induction false} LedgerCountsFirstAcks(cfg: Config, dbs: seq<Db>, steps: seq<Step>, i: nat)
    requires IsRun(cfg, dbs, steps) && dbs[0] == EMPTY_DB && i <= |steps|
    ensures |dbs[i].receipts| == FirstAcks(dbs, i)
  {
    if i > 0 {
      EmptyInv();
      ReachableInv(cfg, dbs, steps, i - 1);
      LedgerCountsFirstAcks(cfg, dbs, steps, i - 1);
      NextRecords(cfg, dbs[i - 1], steps[i - 1]);
    }
  }

  lemma RunStepExtends(cfg: Config, dbs: seq<Db>, steps: seq<Step>, i: nat)
    requires IsRun(cfg, dbs, steps) && dbs[0] == EMPTY_DB && i < |steps|
    ensures Extends(dbs[i], dbs[i + 1])
  {
    EmptyInv();
    ReachableInv(cfg, dbs, steps, i);
    NextRecords(cfg, dbs[i], steps[i]);
  }

  lemma {:induction false} ExtendsChains(dbs: seq<Db>, i: nat, j: nat)
    requires i <= j < |dbs| && forall k | i <= k < j :: Extends(dbs[k], dbs[k + 1])
    ensures Extends(dbs[i], dbs[j])
  {
    if i < j {
      ExtendsChains(dbs, i, j - 1);
      assert Extends(dbs[j - 1], dbs[j - 1 + 1]);
    }
  }

  /** Receipts never change or vanish. */
  lemma ReceiptsEndure(cfg: Config, dbs: seq<Db>, steps: seq<Step>, i: nat, j: nat)
    requires IsRun(cfg, dbs, steps) && dbs[0] == EMPTY_DB && i <= j <= |steps|
    ensures Extends(dbs[i], dbs[j])
  {
    forall k | i <= k < j ensures Extends(dbs[k], dbs[k + 1]) {
      RunStepExtends(cfg, dbs, steps, k);
    }
    ExtendsChains(dbs, i, j);
  }

  /** A ledger row matches an object row by source id, upload time and granule. */
  predicate Matches(k: ReceiptKey, id: nat, o: ObjectRow) {
    k.objectId == id && k.uploadedAt == o.uploadedAt && k.granule == o.granule
  }

  /** In every reachable database each acked row has exactly one matching receipt, with the row's content. */
  lemma AckedRowHasItsReceipt(cfg: Config, dbs: seq<Db>, steps: seq<Step>, i: nat, id: nat)
    requires IsRun(cfg, dbs, steps) && dbs[0] == EMPTY_DB && i <= |steps| && id in dbs[i].objects
    ensures var db, o := dbs[i], dbs[i].objects[id];
      && (o.ackedAt.Some? <==> exists k :: k in db.receipts && Matches(k, id, o))
      && (forall k | k in db.receipts && Matches(k, id, o) ::
            && db.receipts[k].sha256 == o.sha256 && db.receipts[k].size == o.size
            && db.receipts[k].objectKey == o.objectKey
            && db.receipts[k].receiver == o.ackedBy && db.receipts[k].deliveredAt == o.ackedAt)
      && (forall k, l | k in db.receipts && l in db.receipts && Matches(k, id, o) && Matches(l, id, o) :: k == l)
  {
    EmptyInv();
    ReachableInv(cfg, dbs, steps, i);
    var db, o := dbs[i], dbs[i].objects[id];
    assert Matches(KeyOf(id, o), id, o);
    assert forall k | Matches(k, id, o) :: k == KeyOf(id, o);
  }

  // ----- what a receipt proves --------------------------------------------------------------

  /** Some report in the list confirmed the object behind the receipt, with the receipt's digest. */
  ghost predicate Backed(db: Db, acks: seq<Ack>, k: ReceiptKey, r: Receipt) {
    exists i :: 0 <= i < |acks| && acks[i].success && acks[i].objectId == k.objectId && acks[i].sha256 == r.sha256
                && r.receiver == Some(acks[i].receiver)
  }

  lemma AckOneBacked(db: Db, a: Ack, now: Time, k: ReceiptKey)
    requires Inv(db) && k in AckOne(db, a, now).receipts && k !in db.receipts
    ensures Confirms(db.objects, a) && k.objectId == a.objectId
    ensures var r := AckOne(db, a, now).receipts[k];
      r.sha256 == a.sha256 && r.receiver == Some(a.receiver) && r.deliveredAt == Some(now)
  {
    if Confirms(db.objects, a) {
      AckOneConfirms(db, a, now);
    }
  }

  lemma {:induction false} AckAllBacked(db: Db, acks: seq<Ack>, now: Time, k: ReceiptKey)
    requires Inv(db) && k in AckAll(db, acks, now).receipts && k !in db.receipts
    ensures Backed(db, acks, k, AckAll(db, acks, now).receipts[k])
  {
    var mid := AckAll(db, Init(acks), now);
    AckAllKeepsInv(db, Init(acks), now);
    AckOneRecords(mid, Last(acks), now);
    if k in mid.receipts {
      AckAllBacked(db, Init(acks), now, k);
      var i :| 0 <= i < |Init(acks)| && Init(acks)[i].success && Init(acks)[i].objectId == k.objectId
        && Init(acks)[i].sha256 == mid.receipts[k].sha256 && mid.receipts[k].receiver == Some(Init(acks)[i].receiver);
      assert acks[i] == Init(acks)[i];
    } else {
      AckOneBacked(mid, Last(acks), now, k);
      assert acks[|acks| - 1] == Last(acks);
    }
  }

  /** A receipt enters the ledger only with a successful report carrying its object's digest. */
  lemma ReceiptNeedsMatchingReport(cfg: Config, db: Db, step: Step, k: ReceiptKey)
    requires Inv(db) && Enabled(cfg, db, step) && k in Next(cfg, db, step).receipts && k !in db.receipts
    ensures step.AckStep? || step.AckBatchStep?
    ensures Backed(db, if step.AckStep? then [step.ack] else step.acks, k, Next(cfg, db, step).receipts[k])
  {
    if step.AckStep? {
      AckOneBacked(db, step.ack, step.now, k);
      assert [step.ack][0] == step.ack;
    } else if step.AckBatchStep? {
      AckAllBacked(db, step.acks, step.now, k);
    } else {
      NonAckStepKeepsAcks(cfg, db, step);
    }
  }
}
