/** Every enabled step keeps the protocol invariant, so every reachable database satisfies it. */
module Preservation {
  import opened Basics
  import opened StateMachine
  import opened Store
  import opened Protocol

  // ----- steps that add neither objects nor acks --------------------------------------------

  /** The rows differ at most in deletion mark, failure count and soft claim. */
  predicate SameDelivery(o: ObjectRow, o': ObjectRow) {
    && o'.granule == o.granule && o'.workerId == o.workerId && o'.uploadedAt == o.uploadedAt
    && o'.objectKey == o.objectKey && o'.sha256 == o.sha256 && o'.size == o.size
    && o'.presignedUrl == o.presignedUrl && o'.ackedAt == o.ackedAt && o'.ackedBy == o.ackedBy
  }

  /** A surviving object row keeps its facts, and its granule its state unless that becomes deleted. */
  ghost predicate ObjectFramed(db: Db, db': Db, id: nat)
    requires id in db'.objects
  {
    && id in db.objects && id < db'.nextObjectId && SameDelivery(db.objects[id], db'.objects[id])
    && var gid := db.objects[id].granule;
       && gid in db.granules && gid in db'.granules
       && (db'.granules[gid].state == db.granules[gid].state || db'.granules[gid].state == Deleted)
  }

  ghost predicate FramedTables(db: Db, db': Db) {
    && RowsFit(db') && db'.nextObjectId > 0
    && (forall gid | gid in db'.granules :: gid.batch in db'.batches)
    && (forall gid | gid in db'.stages :: gid in db'.granules)
    && (forall b | b in db'.batches && b in db.batches ::
          db'.batches[b].name == db.batches[b].name && db'.batches[b].bundleRef == db.batches[b].bundleRef)
    && db'.receipts == db.receipts
  }

  ghost predicate FramedObjects(db: Db, db': Db) {
    forall id | id in db'.objects :: ObjectFramed(db, db', id)
  }

  /** A granule's objects leave together and agree on their deletion mark. */
  ghost predicate FramedFamilies(db: Db, db': Db) {
    forall i, j | Siblings(db, i, j) ::
      i in db'.objects ==> j in db'.objects && db'.objects[i].deletedAt == db'.objects[j].deletedAt
  }

  ghost predicate Framed(db: Db, db': Db) {
    FramedTables(db, db') && FramedObjects(db, db') && FramedFamilies(db, db')
  }

  lemma FramedKeepsReferences(db: Db, db': Db)
    requires References(db) && ObjectsPlaced(db) && AckedComplete(db)
    requires FramedTables(db, db') && FramedObjects(db, db')
    ensures References(db') && ObjectsPlaced(db') && AckedComplete(db')
  {
  }

  lemma FramedKeepsSiblings(db: Db, db': Db)
    requires SiblingsAgree(db) && Framed(db, db')
    ensures SiblingsAgree(db')
  {
  }

  lemma FramedKeepsIncomplete(db: Db, db': Db)
    requires References(db) && References(db') && UploadedIncomplete(db) && Framed(db, db')
    ensures UploadedIncomplete(db')
  {
    forall id | id in db'.objects && db'.granules[db'.objects[id].granule].state == Uploaded
      ensures !AllAcked(db'.objects, db'.objects[id].granule)
    {
      var gid := db'.objects[id].granule;
      assert ObjectFramed(db, db', id);
      var j :| j in db.objects && Awaits(db.objects, gid, j);
      assert Siblings(db, id, j);
      assert ObjectFramed(db, db', j);
      assert Awaits(db'.objects, gid, j);
    }
  }

  lemma FramedKeepsReceipts(db: Db, db': Db)
    requires References(db) && References(db') && Receipted(db) && Framed(db, db')
    ensures Receipted(db')
  {
  }

  lemma FramedKeepsInv(db: Db, db': Db)
    requires Inv(db) && Framed(db, db')
    ensures Inv(db')
  {
    FramedKeepsReferences(db, db');
    FramedKeepsSiblings(db, db');
    FramedKeepsIncomplete(db, db');
    FramedKeepsReceipts(db, db');
  }

  // ----- bulk statements --------------------------------------------------------------------

  lemma WrittenRowFits(db: Db, op: Bulk, gid: Gid)
    requires gid in db.granules && Selects(db, op, gid) && LeaseFits(db.granules[gid])
    ensures !HoldsObjects(db.granules[gid].state) && !HoldsObjects(Written(op, db.granules[gid]).state)
    ensures LeaseFits(Written(op, db.granules[gid]))
  {
  }

  lemma BulkRows(db: Db, ids: set<Gid>, op: Bulk, gid: Gid)
    requires RowsFit(db) && gid in db.granules
    ensures var g, g' := db.granules[gid], BulkUpdate(db, ids, op).granules[gid];
      g' == g || (!HoldsObjects(g.state) && !HoldsObjects(g'.state) && LeaseFits(g'))
  {
    if gid in ids && Selects(db, op, gid) {
      WrittenRowFits(db, op, gid);
    }
  }

  lemma BulkFramed(db: Db, ids: set<Gid>, op: Bulk)
    requires References(db) && RowsFit(db) && ObjectsPlaced(db) && SiblingsAgree(db)
    ensures Framed(db, BulkUpdate(db, ids, op))
  {
    forall gid | gid in db.granules
      ensures var g, g' := db.granules[gid], BulkUpdate(db, ids, op).granules[gid];
        g' == g || (!HoldsObjects(g.state) && !HoldsObjects(g'.state) && LeaseFits(g'))
    {
      BulkRows(db, ids, op, gid);
    }
  }

  lemma BulkKeepsInv(db: Db, ids: set<Gid>, op: Bulk)
    requires Inv(db)
    ensures Inv(BulkUpdate(db, ids, op))
  {
    BulkFramed(db, ids, op);
    FramedKeepsInv(db, BulkUpdate(db, ids, op));
  }

  // ----- deletions --------------------------------------------------------------------------

  lemma FlipFramesTables(db: Db, gid: Gid, at: Time)
    requires References(db) && RowsFit(db)
    ensures FramedTables(db, FlipDeleted(db, gid, at))
  {
  }

  lemma FlipFramesObjects(db: Db, gid: Gid, at: Time)
    requires References(db) && SiblingsAgree(db)
    ensures FramedObjects(db, FlipDeleted(db, gid, at)) && FramedFamilies(db, FlipDeleted(db, gid, at))
  {
  }

  lemma FlipKeepsInv(db: Db, gid: Gid, at: Time)
    requires Inv(db)
    ensures Inv(FlipDeleted(db, gid, at))
  {
    FlipFramesTables(db, gid, at);
    FlipFramesObjects(db, gid, at);
    FramedKeepsInv(db, FlipDeleted(db, gid, at));
  }

  // ----- uploads ----------------------------------------------------------------------------

  predicate FreshRow(db: Db, db': Db, gid: Gid, worker: WorkerId, id: nat)
    requires id in db'.objects
  {
    var o := db'.objects[id];
    && o.granule == gid && o.workerId == worker && o.deletedAt.None? && o.ackedAt.None? && o.ackedBy.None?
    && 0 < id < db'.nextObjectId && KeyOf(id, o) !in db.receipts
  }

  /** The granule becomes uploaded and gains fresh rows of one worker; everything else stays. */
  ghost predicate Grown(db: Db, db': Db, gid: Gid, worker: WorkerId) {
    && gid in db.granules && gid in db'.granules && db'.granules == db.granules[gid := db'.granules[gid]]
    && db'.granules[gid].state == Uploaded && LeaseFits(db'.granules[gid]) && CleanSuccess(db'.granules[gid])
    && db'.batches == db.batches && db'.receipts == db.receipts && db.nextObjectId <= db'.nextObjectId
    && (forall g | g in db'.stages :: g in db'.granules)
    && (forall id | id in db.objects :: id in db'.objects && db'.objects[id] == db.objects[id])
    && (forall id | id in db'.objects :: id in db.objects || FreshRow(db, db', gid, worker, id))
    && (forall id | id in db.objects :: db.objects[id].granule != gid)
  }

  lemma GrownKeepsReferences(db: Db, db': Db, gid: Gid, worker: WorkerId)
    requires References(db) && RowsFit(db) && ObjectsPlaced(db) && AckedComplete(db) && Grown(db, db', gid, worker)
    ensures References(db') && RowsFit(db') && ObjectsPlaced(db') && AckedComplete(db')
  {
  }

  lemma GrownKeepsSiblings(db: Db, db': Db, gid: Gid, worker: WorkerId)
    requires SiblingsAgree(db) && Grown(db, db', gid, worker)
    ensures SiblingsAgree(db')
  {
  }

  lemma GrownKeepsIncomplete(db: Db, db': Db, gid: Gid, worker: WorkerId)
    requires References(db) && References(db') && UploadedIncomplete(db) && Grown(db, db', gid, worker)
    ensures UploadedIncomplete(db')
  {
  }

  lemma GrownKeepsReceipts(db: Db, db': Db, gid: Gid, worker: WorkerId)
    requires References(db) && References(db') && Receipted(db) && Grown(db, db', gid, worker)
    ensures Receipted(db')
  {
  }

  lemma GrownKeepsInv(db: Db, db': Db, gid: Gid, worker: WorkerId)
    requires Inv(db) && Grown(db, db', gid, worker)
    ensures Inv(db')
  {
    GrownKeepsReferences(db, db', gid, worker);
    GrownKeepsSiblings(db, db', gid, worker);
    GrownKeepsIncomplete(db, db', gid, worker);
    GrownKeepsReceipts(db, db', gid, worker);
  }

  lemma ReportMoves(snap: Snapshot, worker: WorkerId, report: Report, now: Time, maxRetries: nat)
    requires !report.DeleteConfirmed?
    requires ApplyReport(snap, worker, report, now, maxRetries).Accepted?
    ensures !HoldsObjects(snap.state)
    ensures var r := ApplyReport(snap, worker, report, now, maxRetries).result;
      && r.objectsDeletedAt.None?
      && (report.UploadCompleted? ==>
            && r.newState == Uploaded && r.fields == UploadFields(now)
            && forall i | 0 <= i < |r.newObjects| :: r.newObjects[i].workerId == worker)
      && (!report.UploadCompleted? ==> !HoldsObjects(r.newState) && r.newObjects == [])
      && (Leased(r.newState) ==> r.fields.leasedBy.Keep? && r.fields.leaseExpiresAt.Keep? && Leased(snap.state))
      && (!Leased(r.newState) ==> r.fields.leasedBy == Set(None) && r.fields.leaseExpiresAt == Set(None))
  {
  }

  lemma UploadGrows(db: Db, gid: Gid, r: TransitionResult, worker: WorkerId, now: Time)
    requires References(db) && ObjectsPlaced(db) && gid in db.granules && FreshUpload(db, now)
    requires !HoldsObjects(db.granules[gid].state)
    requires r.newState == Uploaded && r.objectsDeletedAt.None? && r.fields == UploadFields(now)
    requires forall i | 0 <= i < |r.newObjects| :: r.newObjects[i].workerId == worker
    ensures Grown(db, Materialise(db, gid, r, now), gid, worker)
  {
    var db' := Materialise(db, gid, r, now);
    forall id | id in db'.objects && id !in db.objects ensures FreshRow(db, db', gid, worker, id) {
      assert Within(id, db.nextObjectId, |r.newObjects|);
    }
  }

  /** A report other than an upload or a deletion changes one row among states without objects. */
  lemma ReportFramed(db: Db, gid: Gid, r: TransitionResult, now: Time)
    requires References(db) && RowsFit(db) && ObjectsPlaced(db) && SiblingsAgree(db) && gid in db.granules
    requires !HoldsObjects(db.granules[gid].state) && !HoldsObjects(r.newState)
    requires r.objectsDeletedAt.None? && r.newObjects == []
    requires LeaseFits(Patched(db.granules[gid], r))
    ensures Framed(db, Materialise(db, gid, r, now))
  {
  }

  lemma AcceptedReportKeepsInv(cfg: Config, db: Db, gid: Gid, worker: WorkerId, report: Report, now: Time)
    requires Inv(db) && FreshUpload(db, now) && gid in db.granules && !report.DeleteConfirmed?
    requires db.granules[gid].leasedBy == Some(worker)
    requires OutcomeFor(cfg, db, gid, FromWorker(worker, report), now).Accepted?
    ensures Inv(Materialise(db, gid, OutcomeFor(cfg, db, gid, FromWorker(worker, report), now).result, now))
  {
    var r := OutcomeFor(cfg, db, gid, FromWorker(worker, report), now).result;
    ReportMoves(SnapshotOf(db.granules[gid]), worker, report, now, cfg.maxRetries);
    if report.UploadCompleted? {
      UploadGrows(db, gid, r, worker, now);
      GrownKeepsInv(db, Materialise(db, gid, r, now), gid, worker);
    } else {
      ReportFramed(db, gid, r, now);
      FramedKeepsInv(db, Materialise(db, gid, r, now));
    }
  }

  lemma EmitKeepsInv(cfg: Config, db: Db, ev: WireEvent, now: Time)
    requires Inv(db) && FreshUpload(db, now)
    ensures Inv(Emit(cfg, db, ev, now))
  {
    if !Missed(db, ev) {
      if ev.report.DeleteConfirmed? {
        FlipKeepsInv(db, ev.granule, now);
      } else if OutcomeFor(cfg, db, ev.granule, FromWorker(ev.workerId, ev.report), now).Accepted? {
        AcceptedReportKeepsInv(cfg, db, ev.granule, ev.workerId, ev.report, now);
      }
    }
  }

  /** What a report other than a deletion can change besides stages and objects: one early granule's row. */
  lemma EmitMoves(cfg: Config, db: Db, ev: WireEvent, now: Time)
    requires !ev.report.DeleteConfirmed?
    ensures var db' := Emit(cfg, db, ev, now);
      && db'.batches == db.batches && db'.receipts == db.receipts
      && (db' == db ||
          (&& ev.granule in db.granules && !HoldsObjects(db.granules[ev.granule].state)
           && ev.granule in db'.granules && db'.granules == db.granules[ev.granule := db'.granules[ev.granule]]
           && (db'.granules[ev.granule].state == Uploaded || !HoldsObjects(db'.granules[ev.granule].state))))
  {
    if !Missed(db, ev) && OutcomeFor(cfg, db, ev.granule, FromWorker(ev.workerId, ev.report), now).Accepted? {
      ReportMoves(SnapshotOf(db.granules[ev.granule]), ev.workerId, ev.report, now, cfg.maxRetries);
    }
  }

  lemma EmitDeletion(cfg: Config, db: Db, ev: WireEvent, now: Time)
    requires ev.report.DeleteConfirmed?
    ensures Emit(cfg, db, ev, now) == FlipDeleted(db, ev.granule, now)
  {
  }

  lemma EmitKeepsRowIds(cfg: Config, db: Db, ev: WireEvent, now: Time)
    ensures Emit(cfg, db, ev, now).granules.Keys == db.granules.Keys
  {
    if ev.report.DeleteConfirmed? {
      EmitDeletion(cfg, db, ev, now);
    } else {
      EmitMoves(cfg, db, ev, now);
    }
  }

  lemma EmitKeepsFresh(cfg: Config, db: Db, ev: WireEvent, now: Time, later: Time)
    requires FreshUpload(db, later)
    ensures FreshUpload(Emit(cfg, db, ev, now), later)
  {
  }

  lemma {:induction false} EmitAllKeepsInv(cfg: Config, db: Db, evs: seq<WireEvent>, now: Time)
    requires Inv(db) && FreshUpload(db, now)
    ensures Inv(EmitAll(cfg, db, evs, now)) && FreshUpload(EmitAll(cfg, db, evs, now), now)
  {
    if evs != [] {
      EmitAllKeepsInv(cfg, db, Init(evs), now);
      EmitKeepsInv(cfg, EmitAll(cfg, db, Init(evs), now), Last(evs), now);
      EmitKeepsFresh(cfg, EmitAll(cfg, db, Init(evs), now), Last(evs), now, now);
    }
  }

  // ----- acknowledgements -------------------------------------------------------------------

  /** One object row may gain an ack, with its receipt. */
  ghost predicate RowConfirmed(db: Db, db': Db, id: nat) {
    && id in db.objects && id in db'.objects && db'.objects == db.objects[id := db'.objects[id]]
    && var o, o' := db.objects[id], db'.objects[id];
       && o'.granule == o.granule && o'.workerId == o.workerId && o'.deletedAt == o.deletedAt
       && o'.uploadedAt == o.uploadedAt && o'.ackedAt.Some? && o'.ackedBy.Some?
       && (o.ackedAt.Some? ==> o' == o)
       && o.granule.batch in db.batches
       && db'.receipts ==
            (if o.ackedAt.Some? then db.receipts
             else db.receipts[KeyOf(id, o') := ReceiptOf(db.batches[o.granule.batch], o')])
  }

  /** The granule is promoted exactly when it was uploaded and all its objects are now acked. */
  ghost predicate GranulePromoted(db: Db, db': Db, gid: Gid, now: Time) {
    && gid in db.granules
    && db'.granules ==
         if db.granules[gid].state == Uploaded && AllAcked(db'.objects, gid)
         then db.granules[gid := PromotedGranule(db.granules[gid], now)] else db.granules
  }

  ghost predicate Confirmed(db: Db, db': Db, id: nat, now: Time) {
    && RowConfirmed(db, db', id) && GranulePromoted(db, db', db.objects[id].granule, now)
    && db'.batches == db.batches && db'.nextObjectId == db.nextObjectId
    && (forall g | g in db'.stages :: g in db.stages || g in db.granules)
  }

  lemma ConfirmedKeepsReferences(db: Db, db': Db, id: nat, now: Time)
    requires References(db) && RowsFit(db) && ObjectsPlaced(db) && Confirmed(db, db', id, now)
    ensures References(db') && RowsFit(db') && ObjectsPlaced(db')
  {
  }

  lemma ConfirmedKeepsSiblings(db: Db, db': Db, id: nat, now: Time)
    requires SiblingsAgree(db) && Confirmed(db, db', id, now)
    ensures SiblingsAgree(db')
  {
  }

  lemma ConfirmedKeepsAckStates(db: Db, db': Db, id: nat, now: Time)
    requires References(db) && References(db') && Confirmed(db, db', id, now)
    requires AckedComplete(db) && UploadedIncomplete(db)
    ensures AckedComplete(db') && UploadedIncomplete(db')
  {
    var gid := db.objects[id].granule;
    forall i | i in db'.objects && db'.granules[db'.objects[i].granule].state == StateMachine.Acked
      ensures db'.objects[i].ackedAt.Some?
    {
      assert db'.objects[i].granule == gid && db'.objects[i].ackedAt.None? ==> Awaits(db'.objects, gid, i);
    }
    forall i | i in db'.objects && db'.granules[db'.objects[i].granule].state == Uploaded
      ensures !AllAcked(db'.objects, db'.objects[i].granule)
    {
      var g := db'.objects[i].granule;
      if g != gid {
        var j :| j in db.objects && Awaits(db.objects, g, j);
        assert Awaits(db'.objects, g, j);
      }
    }
  }

  lemma ConfirmedKeepsReceipts(db: Db, db': Db, id: nat, now: Time)
    requires References(db) && References(db') && Receipted(db) && Confirmed(db, db', id, now)
    ensures Receipted(db')
  {
  }

  lemma ConfirmedKeepsInv(db: Db, db': Db, id: nat, now: Time)
    requires Inv(db) && Confirmed(db, db', id, now)
    ensures Inv(db')
  {
    ConfirmedKeepsReferences(db, db', id, now);
    ConfirmedKeepsSiblings(db, db', id, now);
    ConfirmedKeepsAckStates(db, db', id, now);
    ConfirmedKeepsReceipts(db, db', id, now);
  }

  lemma ArchiveOneReceipt(db: Db, id: nat, o': ObjectRow)
    requires References(db) && Receipted(db) && id in db.objects
    requires o'.granule == db.objects[id].granule && o'.uploadedAt == db.objects[id].uploadedAt && o'.ackedAt.Some?
    requires db.objects[id].ackedAt.Some? ==> o' == db.objects[id]
    ensures Archive(db.(objects := db.objects[id := o']), {id}).receipts ==
      (if db.objects[id].ackedAt.Some? then db.receipts
       else db.receipts[KeyOf(id, o') := ReceiptOf(db.batches[o'.granule.batch], o')])
  {
  }

  lemma PromoteOne(db: Db, gid: Gid, now: Time)
    requires gid in db.granules
    ensures var db' := Promote(db, {gid}, now);
      && GranulePromoted(db, db', gid, now)
      && (forall g | g in db'.stages :: g in db.stages || g in db.granules)
  {
  }

  lemma AckOneConfirms(db: Db, a: Ack, now: Time)
    requires References(db) && Receipted(db) && Confirms(db.objects, a)
    ensures Confirmed(db, AckOne(db, a, now), a.objectId, now)
  {
    var o' := MarkAcked(db.objects[a.objectId], a.receiver, now);
    var marked := db.(objects := db.objects[a.objectId := o']);
    ArchiveOneReceipt(db, a.objectId, o');
    PromoteOne(Archive(marked, {a.objectId}), o'.granule, now);
  }

  /** An acknowledgement leaves a granule's row alone or promotes it. */
  lemma AckedRow(db: Db, a: Ack, now: Time, gid: Gid)
    requires References(db) && Receipted(db) && gid in db.granules
    ensures var db', g := AckOne(db, a, now), db.granules[gid];
      gid in db'.granules && (db'.granules[gid] == g || (g.state == Uploaded && db'.granules[gid] == PromotedGranule(g, now)))
  {
    if Confirms(db.objects, a) {
      AckOneConfirms(db, a, now);
    }
  }

  lemma AckFailureFramed(db: Db, a: Ack, now: Time)
    requires References(db) && RowsFit(db) && SiblingsAgree(db) && !Confirms(db.objects, a)
    ensures Framed(db, AckOne(db, a, now))
  {
  }

  lemma AckOneKeepsInv(db: Db, a: Ack, now: Time)
    requires Inv(db)
    ensures Inv(AckOne(db, a, now))
  {
    if Confirms(db.objects, a) {
      AckOneConfirms(db, a, now);
      ConfirmedKeepsInv(db, AckOne(db, a, now), a.objectId, now);
    } else {
      AckFailureFramed(db, a, now);
      FramedKeepsInv(db, AckOne(db, a, now));
    }
  }

  lemma {:induction false} AckAllKeepsInv(db: Db, acks: seq<Ack>, now: Time)
    requires Inv(db)
    ensures Inv(AckAll(db, acks, now))
  {
    if acks != [] {
      AckAllKeepsInv(db, Init(acks), now);
      AckOneKeepsInv(AckAll(db, Init(acks), now), Last(acks), now);
    }
  }

  // ----- removals and operator actions ------------------------------------------------------

  lemma NotArchivable(db: Db, id: nat)
    requires References(db) && Receipted(db)
    ensures !Archivable(db, id)
  {
  }

  lemma NothingFresh(db: Db, ids: set<nat>)
    requires forall id | id in ids :: !Archivable(db, id)
    ensures FreshReceipts(db, ids) == map[]
  {
  }

  lemma NothingToArchive(db: Db, ids: set<nat>)
    requires References(db) && Receipted(db)
    ensures Archive(db, ids) == db
  {
    forall id | id in ids ensures !Archivable(db, id) {
      NotArchivable(db, id);
    }
    NothingFresh(db, ids);
    EmptyAdds(db.receipts);
  }

  lemma EmptyAdds<K, V>(m: map<K, V>)
    ensures m + map[] == m
  {
  }

  lemma ReapFramed(db: Db, doomed: set<Gid>)
    requires References(db) && Receipted(db) && RowsFit(db) && SiblingsAgree(db)
    ensures Framed(db, Reap(db, doomed))
  {
    NothingToArchive(db, ObjectsOf(db, doomed));
    ReapFramedTables(db, Reap(db, doomed), doomed);
  }

  lemma ReapFramedTables(db: Db, db': Db, doomed: set<Gid>)
    requires References(db) && RowsFit(db) && SiblingsAgree(db)
    requires db' == db.(
      objects := ObjectsOutside(db.objects, doomed),
      stages := Without(db.stages, doomed),
      granules := Without(db.granules, doomed))
    ensures Framed(db, db')
  {
  }

  lemma DropFamiliesFramed(db: Db, ids: set<nat>)
    requires References(db) && RowsFit(db) && SiblingsAgree(db)
    requires forall i, j | Siblings(db, i, j) :: i in ids <==> j in ids
    ensures Framed(db, DropObjects(db, ids))
  {
  }

  lemma RetainKeepsInv(db: Db, cutoff: Time)
    requires Inv(db)
    ensures Inv(Retain(db, cutoff)) && Inv(DropObjects(db, StaleObjects(db, cutoff)))
  {
    DropFamiliesFramed(db, StaleObjects(db, cutoff));
    var trimmed := DropObjects(db, StaleObjects(db, cutoff));
    FramedKeepsInv(db, trimmed);
    ReapFramed(trimmed, StaleGranules(trimmed, cutoff));
    FramedKeepsInv(trimmed, Reap(trimmed, StaleGranules(trimmed, cutoff)));
  }

  lemma RemoveBatchKeepsInv(db: Db, b: BatchId)
    requires Inv(db)
    ensures Inv(RemoveBatch(db, b))
  {
    ReapFramed(db, GranulesOf(db, b));
    var reaped := Reap(db, GranulesOf(db, b));
    FramedKeepsInv(db, reaped);
    assert Framed(reaped, RemoveBatch(db, b));
    FramedKeepsInv(reaped, RemoveBatch(db, b));
  }

  lemma RequeueFramed(cfg: Config, db: Db, ids: set<Gid>, now: Time)
    requires References(db) && RowsFit(db) && SiblingsAgree(db)
    ensures Framed(db, Requeue(cfg, db, ids, now))
  {
  }

  lemma WriteOffFramed(db: Db, db': Db, worker: WorkerId, now: Time)
    requires References(db) && RowsFit(db) && SiblingsAgree(db)
    requires db' == db.(objects := map id | id in db.objects ::
      if db.objects[id].workerId == worker && db.objects[id].deletedAt.None?
      then db.objects[id].(deletedAt := Some(now)) else db.objects[id])
    ensures Framed(db, db')
  {
  }

  lemma ForceRemoveKeepsInv(db: Db, worker: WorkerId, now: Time)
    requires Inv(db)
    ensures Inv(RemoveWorkerForced(db, worker, now))
  {
    BulkKeepsInv(db, db.granules.Keys, Revoke(worker, now));
    var revoked := BulkUpdate(db, db.granules.Keys, Revoke(worker, now));
    WriteOffFramed(revoked, RemoveWorkerForced(db, worker, now), worker, now);
    FramedKeepsInv(revoked, RemoveWorkerForced(db, worker, now));
  }

  lemma PullFramed(cfg: Config, db: Db, ids: set<nat>, receiver: ReceiverId, now: Time)
    requires References(db) && RowsFit(db) && SiblingsAgree(db)
    ensures Framed(db, SoftClaim(cfg, db, ids, receiver, now))
  {
  }

  lemma ResetPullsFramed(cfg: Config, db: Db, scope: Option<BatchId>)
    requires References(db) && RowsFit(db) && SiblingsAgree(db)
    ensures Framed(db, ResetPullFailures(cfg, db, scope))
  {
  }

  lemma AddFramed(db: Db, b: BatchId, names: set<Token>, now: Time)
    requires References(db) && RowsFit(db) && SiblingsAgree(db) && b in db.batches
    ensures Framed(db, AddGranules(db, b, names, now))
  {
  }

  lemma CreateKeepsInv(db: Db, b: BatchId, row: Batch, names: set<Token>, now: Time)
    requires Inv(db) && b !in db.batches
    ensures Inv(CreateBatch(db, b, row, names, now))
  {
    var created := db.(batches := db.batches[b := row]);
    FramedKeepsInv(db, created);
    AddFramed(created, b, names, now);
    FramedKeepsInv(created, AddGranules(created, b, names, now));
  }

  // ----- every run --------------------------------------------------------------------------

  lemma ClientStepKeepsInv(cfg: Config, db: Db, step: Step)
    requires Inv(db) && Enabled(cfg, db, step)
    requires step.EmitStep? || step.EmitBatchStep? || step.FlipStep? || step.AckStep? || step.AckBatchStep?
          || step.PullStep? || step.ClaimStep? || step.BulkStep?
    ensures Inv(Next(cfg, db, step))
  {
    match step
    case EmitStep(event, now) => EmitKeepsInv(cfg, db, event, now);
    case EmitBatchStep(events, now) => EmitAllKeepsInv(cfg, db, events, now);
    case FlipStep(gid, now) => FlipKeepsInv(db, gid, now);
    case AckStep(ack, now) => AckOneKeepsInv(db, ack, now);
    case AckBatchStep(acks, now) => AckAllKeepsInv(db, acks, now);
    case PullStep(pulled, receiver, now) =>
      PullFramed(cfg, db, pulled, receiver, now);
      FramedKeepsInv(db, SoftClaim(cfg, db, pulled, receiver, now));
    case ClaimStep(worker, _, claimed, now) => BulkKeepsInv(db, claimed, Claim(worker, now));
    case BulkStep(selection, op) => BulkKeepsInv(db, selection, op);
  }

  lemma SetPausedFramed(db: Db, b: BatchId, paused: bool)
    requires References(db) && RowsFit(db) && SiblingsAgree(db)
    ensures Framed(db, SetPaused(db, b, paused))
  {
  }

  lemma RegistryFramed(db: Db, db': Db)
    requires References(db) && RowsFit(db) && SiblingsAgree(db)
    requires db' == db.(workers := db'.workers, receivers := db'.receivers, nextObjectId := db'.nextObjectId)
    requires db'.nextObjectId > 0 && forall id | id in db.objects :: id < db'.nextObjectId
    ensures Framed(db, db')
  {
  }

  lemma RegistryStepKeepsInv(cfg: Config, db: Db, step: Step)
    requires Inv(db) && Enabled(cfg, db, step)
    requires step.SetPausedStep? || step.RegistryStep? || step.ReuseIdsStep?
    ensures Inv(Next(cfg, db, step))
  {
    if step.SetPausedStep? {
      SetPausedFramed(db, step.batch, step.paused);
    } else {
      RegistryFramed(db, Next(cfg, db, step));
    }
    FramedKeepsInv(db, Next(cfg, db, step));
  }

  lemma OperatorStepKeepsInv(cfg: Config, db: Db, step: Step)
    requires Inv(db) && Enabled(cfg, db, step)
    requires step.CreateBatchStep? || step.AddStep? || step.RequeueStep? || step.ResetPullsStep? || step.RetainStep?
          || step.RemoveBatchStep? || step.ForceRemoveStep?
    ensures Inv(Next(cfg, db, step))
  {
    match step
    case CreateBatchStep(b, row, names, now) => CreateKeepsInv(db, b, row, names, now);
    case AddStep(b, names, now) =>
      AddFramed(db, b, names, now);
      FramedKeepsInv(db, AddGranules(db, b, names, now));
    case RequeueStep(gids, now) =>
      RequeueFramed(cfg, db, gids, now);
      FramedKeepsInv(db, Requeue(cfg, db, gids, now));
    case ResetPullsStep(scope) =>
      ResetPullsFramed(cfg, db, scope);
      FramedKeepsInv(db, ResetPullFailures(cfg, db, scope));
    case RetainStep(cutoff) => RetainKeepsInv(db, cutoff);
    case RemoveBatchStep(b) => RemoveBatchKeepsInv(db, b);
    case ForceRemoveStep(worker, now) => ForceRemoveKeepsInv(db, worker, now);
  }

  lemma NextKeepsInv(cfg: Config, db: Db, step: Step)
    requires Inv(db) && Enabled(cfg, db, step)
    ensures Inv(Next(cfg, db, step))
  {
    if step.SetPausedStep? || step.RegistryStep? || step.ReuseIdsStep? {
      RegistryStepKeepsInv(cfg, db, step);
    } else if step.CreateBatchStep? || step.AddStep? || step.RequeueStep? || step.ResetPullsStep? || step.RetainStep?
           || step.RemoveBatchStep? || step.ForceRemoveStep? {
      OperatorStepKeepsInv(cfg, db, step);
    } else {
      ClientStepKeepsInv(cfg, db, step);
    }
  }

  /** Every database a run from the empty one reaches satisfies the invariant. */
  lemma {:induction false} ReachableInv(cfg: Config, dbs: seq<Db>, steps: seq<Step>, i: nat)
    requires IsRun(cfg, dbs, steps) && Inv(dbs[0]) && i <= |steps|
    ensures Inv(dbs[i])
  {
    if i > 0 {
      ReachableInv(cfg, dbs, steps, i - 1);
      NextKeepsInv(cfg, dbs[i - 1], steps[i - 1]);
    }
  }

  lemma EmptyInv()
    ensures Inv(EMPTY_DB)
  {
  }
}
