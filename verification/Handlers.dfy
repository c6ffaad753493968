/**
 The orchestrator's handlers as they are written: methods that change the tables row by row. Each is proved to
 leave exactly the database its specification function in module `Store` describes.
 */
module Handlers {
  import opened Basics
  import opened StateMachine
  import opened Store
  import opened Protocol
  import opened Preservation
  import opened Ingress
  import opened Keyset
  import opened Archiving
  import opened Quota
  import Columns

  datatype Reply = Done | NotFound | Refused | Mismatch | Gone

  class Orchestrator {
    const cfg: Config
    var granules: map<Gid, Granule>
    var objects: map<nat, ObjectRow>
    var batches: map<BatchId, Batch>
    var receipts: map<ReceiptKey, Receipt>
    var stages: map<Gid, multiset<StageTiming>>
    var nextObjectId: nat
    var workers: map<WorkerId, WorkerRow>
    var receivers: map<ReceiverId, bool>

    function Tables(): (db: Db)
      reads this
    {
      Db(granules, objects, batches, receipts, stages, nextObjectId, workers, receivers)
    }

    constructor (cfg: Config)
      ensures this.cfg == cfg && Tables() == EMPTY_DB
    {
      this.cfg := cfg;
      granules, objects, batches, receipts, stages := map[], map[], map[], map[], map[];
      nextObjectId, workers, receivers := 1, map[], map[];
    }

    // ----- the runner -----------------------------------------------------------------------

    /** The counted path: only the request whose conditional update flips the row marks and counts. */
    method FlipToDeleted(gid: Gid, at: Time)
      modifies this`granules, this`objects, this`batches
      ensures Tables() == FlipDeleted(old(Tables()), gid, at)
    {
      if gid !in granules || granules[gid].state == Deleted {
        return;
      }
      granules := granules[gid := granules[gid].(state := Deleted, updatedAt := at)];
      objects := map id | id in objects ::
        if objects[id].granule == gid then objects[id].(deletedAt := Some(at)) else objects[id];
      if gid.batch in batches {
        var b := batches[gid.batch];
        batches := batches[gid.batch := b.(deliveredCount := b.deliveredCount + 1)];
      }
    }

    method AddObjects(gid: Gid, added: seq<NewObject>, now: Time)
      modifies this`objects, this`nextObjectId
      ensures objects == InsertObjects(old(objects), old(nextObjectId), gid, added, now)
      ensures nextObjectId == old(nextObjectId) + |added|
    {
      var i := 0;
      while i < |added|
        invariant 0 <= i <= |added| && nextObjectId == old(nextObjectId) + i
        invariant objects == InsertObjects(old(objects), old(nextObjectId), gid, added[..i], now)
      {
        InsertNext(old(objects), old(nextObjectId), gid, added, now, i);
        objects := objects[nextObjectId := UploadedRow(gid, added[i], now)];
        nextObjectId := nextObjectId + 1;
        i := i + 1;
      }
      assert added[..|added|] == added;
    }

    method AddStageRows(gid: Gid, rows: seq<StageRow>)
      modifies this`stages
      ensures stages == WithStages(old(stages), gid, rows)
    {
      var i := 0;
      while i < |rows|
        invariant 0 <= i <= |rows|
        invariant stages == WithStages(old(stages), gid, rows[..i])
      {
        StageNext(old(stages), gid, rows, i);
        stages := stages[gid := StagesOf(stages, gid) + multiset{TimingOf(rows[i])}];
        i := i + 1;
      }
      assert rows[..|rows|] == rows;
    }

    /** Materialise one transition result. */
    method ApplyToSession(gid: Gid, r: TransitionResult, now: Time)
      requires gid in granules
      modifies this`granules, this`objects, this`batches, this`stages, this`nextObjectId
      ensures Tables() == Materialise(old(Tables()), gid, r, now)
    {
      if r.objectsDeletedAt.Some? {
        FlipToDeleted(gid, r.objectsDeletedAt.value);
        return;
      }
      AddObjects(gid, r.newObjects, now);
      granules := granules[gid := Patched(granules[gid], r)];
      AddStageRows(gid, r.stageRows);
    }

    /** Snapshot, decide, write; `applied` is false on a conflict, which writes nothing. */
    method Transition(gid: Gid, event: Event, now: Time) returns (applied: bool)
      requires gid in granules
      modifies this`granules, this`objects, this`batches, this`stages, this`nextObjectId
      ensures applied <==> OutcomeFor(cfg, old(Tables()), gid, event, now).Accepted?
      ensures Tables() == ApplyTransition(cfg, old(Tables()), gid, event, now)
    {
      var outcome := Apply(SnapshotOf(granules[gid]), event, now, cfg.maxRetries);
      if outcome.Conflict? {
        return false;
      }
      ApplyToSession(gid, outcome.result, now);
      return true;
    }

    // ----- worker reports -------------------------------------------------------------------

    /** POST /events. */
    method EmitEvent(ev: WireEvent, now: Time) returns (reply: Reply)
      modifies this`granules, this`objects, this`batches, this`stages, this`nextObjectId
      ensures Tables() == Emit(cfg, old(Tables()), ev, now)
      ensures reply == NotFound <==> ev.granule !in old(granules)
      ensures reply == Done <==>
        (!Missed(old(Tables()), ev)
         && OutcomeFor(cfg, old(Tables()), ev.granule, FromWorker(ev.workerId, ev.report), now).Accepted?)
      ensures reply != Done ==> Tables() == old(Tables())
      ensures reply in {NotFound, Refused, Done}
    {
      if ev.granule !in granules {
        return NotFound;
      }
      if !ev.report.DeleteConfirmed? && granules[ev.granule].leasedBy != Some(ev.workerId) {
        return Refused;
      }
      var applied := Transition(ev.granule, FromWorker(ev.workerId, ev.report), now);
      return if applied then Done else Refused;
    }

    /** POST /events/batch: in list order; a stale or stolen event is skipped and its granule returned once. */
    method EmitEventsBatch(events: seq<WireEvent>, now: Time) returns (revoked: seq<Gid>)
      modifies this`granules, this`objects, this`batches, this`stages, this`nextObjectId
      ensures Tables() == EmitAll(cfg, old(Tables()), events, now)
      ensures revoked == MissedGranules(cfg, old(Tables()), events, now)
    {
      revoked := [];
      var loaded := set i | 0 <= i < |events| && events[i].granule in granules :: events[i].granule;
      var i := 0;
      while i < |events|
        invariant 0 <= i <= |events|
        invariant Tables() == EmitAll(cfg, old(Tables()), events[..i], now)
        invariant revoked == MissedGranules(cfg, old(Tables()), events[..i], now)
        invariant granules.Keys == old(granules).Keys
      {
        var ev := events[i];
        assert Init(events[..i + 1]) == events[..i] && Last(events[..i + 1]) == ev;
        if ev.granule !in loaded || (!ev.report.DeleteConfirmed? && granules[ev.granule].leasedBy != Some(ev.workerId)) {
          assert Missed(Tables(), ev);
          if ev.granule !in revoked {
            revoked := revoked + [ev.granule];
          }
        } else {
          EmitKeepsRowIds(cfg, Tables(), ev, now);
          var _ := Transition(ev.granule, FromWorker(ev.workerId, ev.report), now);
        }
        i := i + 1;
      }
      assert events[..|events|] == events;
    }

    // ----- guarded UPDATE statements over granule rows --------------------------------------

    method UpdateRow(gid: Gid, op: Bulk) returns (rowcount: nat)
      requires gid in granules
      modifies this`granules
      ensures Tables() == BulkUpdate(old(Tables()), {gid}, op)
      ensures rowcount == if Selects(old(Tables()), op, gid) then 1 else 0
    {
      ghost var db := Tables();
      if Selects(Tables(), op, gid) {
        BulkOneRow(db, op, gid);
        granules := granules[gid := Written(op, granules[gid])];
        return 1;
      }
      BulkNoRow(db, {gid}, op);
      return 0;
    }

    /**
     One guarded UPDATE: every named row that satisfies the statement's condition is written. The source leaves the rows
     to the database; the loop over them, in any order, is this model's.
     */
    method Update(ids: set<Gid>, op: Bulk) returns (rowcount: nat)
      modifies this`granules
      ensures Tables() == BulkUpdate(old(Tables()), ids, op)
      ensures rowcount == |ids * Selected(old(Tables()), op)|
    {
      rowcount := 0;
      ghost var db := Tables();
      var rows := ids * granules.Keys;
      var todo := rows;
      BulkNoRow(db, {}, op);
      assert rows - todo == {};
      while todo != {}
        invariant todo <= rows <= granules.Keys && granules.Keys == db.granules.Keys
        invariant Tables() == BulkUpdate(db, rows - todo, op)
        invariant rowcount == |(rows - todo) * Selected(db, op)|
        decreases |todo|
      {
        var gid :| gid in todo;
        BulkNext(db, rows, todo, gid, op);
        var written := UpdateRow(gid, op);
        rowcount := rowcount + written;
        todo := todo - {gid};
      }
      BulkOnPresent(db, ids, op);
      assert rows - todo == rows;
    }

    /** Select the rows, then put each through the state machine: revoke-all, cancel-batch, retry-failed. */
    method TransitionEach(ids: set<Gid>, op: Bulk) returns (count: nat)
      requires EventOf(op).Some?
      modifies this`granules, this`objects, this`batches, this`stages, this`nextObjectId
      ensures Tables() == BulkUpdate(old(Tables()), ids, op)
      ensures count == |ids * Selected(old(Tables()), op)|
    {
      ghost var db := Tables();
      var rows := set gid | gid in ids && gid in granules && Selects(Tables(), op, gid);
      assert rows == ids * Selected(db, op);
      count := |rows|;
      var todo := rows;
      BulkNoRow(db, {}, op);
      assert rows - todo == {};
      while todo != {}
        invariant todo <= rows <= granules.Keys && granules.Keys == db.granules.Keys
        invariant Tables() == BulkUpdate(db, rows - todo, op)
        decreases |todo|
      {
        var gid :| gid in todo;
        BulkNext(db, rows, todo, gid, op);
        assert Selects(db, op, gid);
        TransitionOne(gid, op);
        todo := todo - {gid};
      }
      BulkOnSelected(db, ids, op);
      assert rows - todo == rows;
    }

    /** One row of a bulk action, put through the state machine. */
    method TransitionOne(gid: Gid, op: Bulk)
      requires EventOf(op).Some? && gid in granules && Selects(Tables(), op, gid)
      modifies this`granules, this`objects, this`batches, this`stages, this`nextObjectId
      ensures Tables() == BulkUpdate(old(Tables()), {gid}, op)
    {
      BulkIsTheTransition(cfg, Tables(), op, gid);
      var _ := Transition(gid, EventOf(op).value, TimeOf(op));
    }

    // ----- leases ---------------------------------------------------------------------------

    /** Claim up to `limit` claimable rows; rows another transaction has locked are skipped. */
    method ClaimPending(worker: WorkerId, limit: nat, now: Time, locked: set<Gid>) returns (claimed: set<Gid>)
      modifies this`granules
      ensures claimed <= Selected(old(Tables()), Claim(worker, now)) - locked
      ensures |claimed| == Min(limit, |Selected(old(Tables()), Claim(worker, now)) - locked|)
      ensures Tables() == BulkUpdate(old(Tables()), claimed, Claim(worker, now))
    {
      claimed := {};
      var free := Selected(Tables(), Claim(worker, now)) - locked;
      var rest := free;
      while |claimed| < limit && rest != {}
        invariant claimed + rest == free && claimed !! rest && |claimed| <= limit
        decreases |rest|
      {
        var gid :| gid in rest;
        claimed, rest := claimed + {gid}, rest - {gid};
      }
      assert |free| == |claimed| + |rest| by {
        assert free - claimed == rest;
      }
      var _ := Update(claimed, Claim(worker, now));
    }

    /** POST /lease: the handler supplies exactly what the protocol's claim step allows. */
    method Lease(worker: WorkerId, capacity: int, now: Time, locked: set<Gid>) returns (reply: Reply, claimed: set<Gid>)
      modifies this`granules
      ensures reply == Refused <==> !(worker in old(workers) && !old(workers)[worker].removed && !old(workers)[worker].paused)
      ensures reply == Done || (reply == Refused && claimed == {})
      ensures Enabled(cfg, old(Tables()), ClaimStep(worker, capacity, claimed, now))
      ensures Tables() == Next(cfg, old(Tables()), ClaimStep(worker, capacity, claimed, now))
      ensures reply == Done ==> |claimed| == Min(Max(0, LeaseLimit(cfg, old(Tables()), worker, capacity)),
                                                 |Selected(old(Tables()), Claim(worker, now)) - locked|)
    {
      BulkNoRow(Tables(), {}, Claim(worker, now));
      if !ActiveWorker(Tables(), worker) {
        return Refused, {};
      }
      var limit := LeaseLimit(cfg, Tables(), worker, capacity);
      if limit <= 0 {
        return Done, {};
      }
      reply := Done;
      claimed := ClaimPending(worker, limit, now, locked);
    }

    method RevokeWorkerLeases(worker: WorkerId, now: Time) returns (count: nat)
      modifies this`granules, this`objects, this`batches, this`stages, this`nextObjectId
      ensures Tables() == BulkUpdate(old(Tables()), old(granules).Keys, Revoke(worker, now))
      ensures count == |old(granules).Keys * Selected(old(Tables()), Revoke(worker, now))|
    {
      count := TransitionEach(granules.Keys, Revoke(worker, now));
    }

    /** Read the leases the report no longer covers, then release those still held when writing. */
    method ReclaimInactive(worker: WorkerId, active: set<Gid>, now: Time) returns (count: nat)
      modifies this`granules
      ensures Tables() == BulkUpdate(old(Tables()), ReclaimCandidates(old(Tables()), worker, active, now), Reclaim(worker, now))
    {
      var ids := ReclaimCandidates(Tables(), worker, active, now);
      if ids == {} {
        BulkNoRow(Tables(), ids, Reclaim(worker, now));
        return 0;
      }
      count := Update(ids, Reclaim(worker, now));
    }

    /** POST /heartbeat: reclaim (when a set is reported), then renew, then tell the worker what it lost. */
    method Heartbeat(worker: WorkerId, active: Option<seq<Gid>>, now: Time) returns (reply: Reply, revoked: seq<Gid>)
      modifies this`granules
      ensures reply == NotFound <==> worker !in old(workers)
      ensures reply == Gone <==> worker in old(workers) && old(workers)[worker].removed
      ensures reply == Done || (reply in {NotFound, Gone} && Tables() == old(Tables()) && revoked == [])
      ensures reply == Done ==>
        && Tables() == HeartbeatUpdate(old(Tables()), worker, ReportedSet(active), now)
        && (active.None? ==> ReportedSet(active).None? && Columns.OnlyLaterExpiries(old(Tables()), Tables()))
        && (active.Some? ==> ReportedSet(active) == Some(set gid | gid in active.value))
        && revoked == if active.Some? then Unowned(Tables(), worker, active.value) else []
    {
      if worker !in workers {
        return NotFound, [];
      }
      if workers[worker].removed {
        return Gone, [];
      }
      Columns.UnreportedHeartbeat(Tables(), worker, now);
      if active.Some? {
        var _ := ReclaimInactive(worker, (set gid | gid in active.value), now);
      }
      var _ := Update(granules.Keys, Renew(worker, now));
      reply, revoked := Done, [];
      if active.Some? {
        revoked := RevokedActive(worker, active.value);
      }
    }

    /** The reported granules the worker no longer holds. */
    method RevokedActive(worker: WorkerId, active: seq<Gid>) returns (revoked: seq<Gid>)
      ensures revoked == Unowned(Tables(), worker, active)
    {
      revoked := [];
      var i := 0;
      while i < |active|
        invariant 0 <= i <= |active| && revoked == Unowned(Tables(), worker, active[..i])
      {
        assert Init(active[..i + 1]) == active[..i];
        var gid := active[i];
        if !(gid in granules && HeldBy(granules[gid], worker)) {
          revoked := revoked + [gid];
        }
        i := i + 1;
      }
      assert active[..|active|] == active;
    }

    /** POST /register: a worker that registers again is a fresh process, so its old leases are revoked. */
    method Register(worker: WorkerId, now: Time) returns (reply: Reply)
      modifies this
      ensures reply == Gone <==> worker in old(workers) && old(workers)[worker].removed
      ensures reply in {Gone, Done}
      ensures Tables() ==
        if worker !in old(workers)
        then old(Tables()).(workers := old(workers)[worker := WorkerRow(false, false)])
        else if old(workers)[worker].removed then old(Tables())
        else BulkUpdate(old(Tables()), old(granules).Keys, Revoke(worker, now))
    {
      if worker in workers && workers[worker].removed {
        return Gone;
      }
      if worker !in workers {
        workers := workers[worker := WorkerRow(false, false)];
      } else {
        var _ := RevokeWorkerLeases(worker, now);
      }
      return Done;
    }

    /** DELETE /workers/{id}: mark the worker removed, or purge the row of one that is. */
    method RemoveWorker(worker: WorkerId, force: bool, purge: bool, now: Time) returns (reply: Reply)
      modifies this
      ensures reply == NotFound <==> worker !in old(workers)
      ensures reply == Refused <==> worker in old(workers) && purge && !old(workers)[worker].removed
      ensures reply in {NotFound, Refused, Done} && (reply != Done ==> Tables() == old(Tables()))
      ensures reply == Done && purge ==> Tables() == old(Tables()).(workers := old(workers) - {worker})
      ensures reply == Done && !purge && old(workers)[worker].removed ==> Tables() == old(Tables())
      ensures reply == Done && !purge && !old(workers)[worker].removed ==>
        Tables() == (if force then RemoveWorkerForced(old(Tables()), worker, now) else old(Tables())).(
          workers := old(workers)[worker := WorkerRow(true, true)])
    {
      if worker !in workers {
        return NotFound;
      }
      if purge {
        if !workers[worker].removed {
          return Refused;
        }
        workers := workers - {worker};
        return Done;
      }
      if workers[worker].removed {
        return Done;
      }
      if force {
        var _ := RevokeWorkerLeases(worker, now);
        objects := map id | id in objects ::
          if objects[id].workerId == worker && objects[id].deletedAt.None?
          then objects[id].(deletedAt := Some(now)) else objects[id];
      }
      workers := workers[worker := WorkerRow(true, true)];
      return Done;
    }

    // ----- receipts -------------------------------------------------------------------------

    const ARCHIVE_CHUNK: nat := 500

    /** Insert one receipt, unless its identity is already in the ledger. */
    method InsertReceipt(id: nat, ghost db: Db, ghost done: set<nat>)
      requires Tables() == Archive(db, done) && Archivable(db, id) && id !in done
      modifies this`receipts
      ensures Tables() == Archive(db, done + {id})
    {
      ArchivableAfter(db, done, id);
      ArchiveAdd(db, done, id);
      var o := objects[id];
      if KeyOf(id, o) !in receipts {
        receipts := receipts[KeyOf(id, o) := ReceiptOf(batches[o.granule.batch], o)];
      }
    }

    method InsertPage(page: seq<nat>, ghost db: Db, ghost done: set<nat>)
      requires Tables() == Archive(db, done) && Due(db, done, page)
      modifies this`receipts
      ensures Tables() == Archive(db, done + SetOf(page))
    {
      var i := 0;
      ghost var covered := done;
      DueStart(done, page);
      while i < |page|
        invariant 0 <= i <= |page| && covered == done + SetOf(page[..i])
        invariant Tables() == Archive(db, covered)
      {
        PageStep(db, done, page, i);
        InsertReceipt(page[i], db, covered);
        covered := covered + {page[i]};
        i := i + 1;
      }
    }

    /** Archive the confirmed objects in scope, scanning and inserting a page at a time. */
    method ArchiveConfirmed(scope: set<nat>)
      requires References(Tables())
      modifies this`receipts
      ensures Tables() == Archive(old(Tables()), scope)
    {
      ghost var db := Tables();
      var after: nat := 0;
      ghost var done := Scanned(db, scope, 0);
      assert done == {};
      ArchiveNone(db);
      while true
        invariant done == Scanned(db, scope, after)
        invariant Tables() == Archive(db, done)
        decreases |Above(scope, after)|
      {
        var due := set id | id in scope && Archivable(Tables(), id);
        var page := FetchPage(due, after, ARCHIVE_CHUNK);
        if page == [] {
          PageDone(db, scope, done, due, after, ARCHIVE_CHUNK);
          return;
        }
        var next := Last(page);
        PageAdvances(db, scope, done, due, after, page, ARCHIVE_CHUNK);
        InsertPage(page, db, done);
        done := Scanned(db, scope, next);
        LessRemains(scope, after, next);
        after := next;
      }
    }

    // ----- acknowledgements -----------------------------------------------------------------

    method RecordPullFailure(id: nat)
      requires id in objects
      modifies this`objects
      ensures objects == old(objects)[id := PullFailed(old(objects)[id])]
    {
      var o := objects[id];
      if o.ackedAt.None? {
        objects := objects[id := o.(failedPulls := o.failedPulls + 1, pullLeaseBy := None, pullLeaseExpiresAt := None)];
      } else {
        assert objects[id := PullFailed(o)] == objects;
      }
    }

    /** Apply one report to its object row; true when the object is confirmed. */
    method ApplyAck(a: Ack, now: Time) returns (confirmed: bool)
      requires a.objectId in objects
      modifies this`objects
      ensures objects == AckObjects(old(objects), a, now)
      ensures confirmed <==> Confirms(old(objects), a)
    {
      if !a.success {
        RecordPullFailure(a.objectId);
        return false;
      }
      var o := objects[a.objectId];
      if a.sha256 != o.sha256 {
        return false;
      }
      if o.ackedAt.None? {
        objects := objects[a.objectId := o.(ackedAt := Some(now), ackedBy := Some(a.receiver))];
      } else {
        assert objects[a.objectId := MarkAcked(o, a.receiver, now)] == objects;
      }
      return true;
    }

    /** Promote one granule whose objects are now all acked. */
    method PromoteIfDone(gid: Gid, now: Time)
      modifies this`granules, this`objects, this`batches, this`stages, this`nextObjectId
      ensures Tables() == Promote(old(Tables()), {gid}, now)
    {
      if gid in granules && AllAcked(objects, gid) {
        PromotionIsTheTransition(cfg, Tables(), gid, now);
        var _ := Transition(gid, ObjectAcked, now);
      } else {
        PromoteNothing(Tables(), {gid}, now);
      }
    }

    /** POST /ack. */
    method AckReport(a: Ack, now: Time) returns (reply: Reply)
      requires References(Tables())
      modifies this`granules, this`objects, this`batches, this`stages, this`nextObjectId, this`receipts
      ensures Tables() == AckOne(old(Tables()), a, now)
      ensures reply == NotFound <==> a.objectId !in old(objects)
      ensures reply == Mismatch <==>
        (a.objectId in old(objects) && a.success && a.sha256 != old(objects)[a.objectId].sha256)
      ensures reply in {NotFound, Mismatch, Done}
    {
      if a.objectId !in objects {
        return NotFound;
      }
      var gid := objects[a.objectId].granule;
      ghost var db := Tables();
      var confirmed := ApplyAck(a, now);
      if !confirmed {
        return if a.success then Mismatch else Done;
      }
      ArchiveConfirmed({a.objectId});
      PromoteIfDone(gid, now);
      return Done;
    }

    method PromoteEach(gids: set<Gid>, now: Time)
      modifies this`granules, this`objects, this`batches, this`stages, this`nextObjectId
      ensures Tables() == Promote(old(Tables()), gids, now)
    {
      ghost var db := Tables();
      var todo := gids;
      PromoteNothing(db, {}, now);
      assert gids - todo == {};
      while todo != {}
        invariant todo <= gids && Tables() == Promote(db, gids - todo, now)
        decreases |todo|
      {
        var gid :| gid in todo;
        PromoteInTurn(db, gids - todo, gid, now);
        assert gids - (todo - {gid}) == gids - todo + {gid};
        PromoteIfDone(gid, now);
        todo := todo - {gid};
      }
      assert gids - todo == gids;
    }

    method MarkEach(acks: seq<Ack>, now: Time) returns (touched: set<Gid>)
      modifies this`objects
      ensures objects == MarkAll(old(objects), acks, now)
      ensures touched == Touched(old(objects), acks)
    {
      ghost var before := objects;
      touched := {};
      var i := 0;
      while i < |acks|
        invariant 0 <= i <= |acks| && objects == MarkAll(before, acks[..i], now)
        invariant touched == Touched(before, acks[..i])
      {
        assert Init(acks[..i + 1]) == acks[..i] && acks[..i + 1] == acks[..i] + [acks[i]];
        TouchedGrows(before, acks[..i], acks[i]);
        ConfirmsStable(before, acks[..i], now, acks[i]);
        if acks[i].objectId in objects {
          MarkAllRow(before, acks[..i], now, acks[i].objectId);
          var gid := objects[acks[i].objectId].granule;
          var confirmed := ApplyAck(acks[i], now);
          if confirmed {
            touched := touched + {gid};
          }
        }
        i := i + 1;
      }
      assert acks[..|acks|] == acks;
    }

    /** POST /ack/batch: mark in order, archive once, promote once. */
    method AckReports(acks: seq<Ack>, now: Time)
      requires Inv(Tables())
      modifies this`granules, this`objects, this`batches, this`stages, this`nextObjectId, this`receipts
      ensures Tables() == AckAll(old(Tables()), acks, now)
    {
      ghost var db := Tables();
      AckBatchIsOneByOne(db, acks, now);
      var touched := MarkEach(acks, now);
      if touched != {} {
        MarkedReferences(db, acks, now);
        ArchiveConfirmed(Named(acks));
        PromoteEach(touched, now);
      }
    }

    /** POST /pull: soft-claim the first `limit` offered objects that no other transaction has locked. */
    method Pull(receiver: ReceiverId, limit: nat, now: Time, locked: set<nat>) returns (reply: Reply, page: seq<nat>)
      requires References(Tables())
      modifies this`objects
      ensures reply == Refused <==> !(receiver in receivers && receivers[receiver])
      ensures reply == Done || (reply == Refused && page == [] && Tables() == old(Tables()))
      ensures reply == Done ==> IsPage(Offered(cfg, old(Tables()), receiver, now) - locked, 0, limit, page)
      ensures forall id | id in page :: Columns.ForTaking(cfg, old(Tables()), id, receiver, now) && id !in locked
      ensures reply == Done ==> forall id | Columns.ForTaking(cfg, old(Tables()), id, receiver, now) && id !in locked ::
        id in page || (|page| == limit && forall i | 0 <= i < |page| :: page[i] < id)
      ensures Columns.Claimed(cfg, old(Tables()), Tables(), SetOf(page), receiver, now)
      ensures Enabled(cfg, old(Tables()), PullStep(SetOf(page), receiver, now))
      ensures Tables() == SoftClaim(cfg, old(Tables()), SetOf(page), receiver, now)
    {
      assert SoftClaim(cfg, Tables(), SetOf([]), receiver, now).objects == objects;
      if !(receiver in receivers && receivers[receiver]) {
        return Refused, [];
      }
      var offered := Offered(cfg, Tables(), receiver, now);
      OfferedIsForTaking(cfg, Tables(), receiver, now);
      page := FetchPage(offered - locked, 0, limit);
      reply := Done;
      Columns.ClaimedColumns(cfg, Tables(), SetOf(page), receiver, now);
      ClaimEach(page, receiver, now);
    }

    method ClaimEach(page: seq<nat>, receiver: ReceiverId, now: Time)
      requires Ascending(page) && forall i | 0 <= i < |page| :: page[i] in objects
      modifies this`objects
      ensures Tables() == SoftClaim(cfg, old(Tables()), SetOf(page), receiver, now)
    {
      ghost var db := Tables();
      assert SoftClaim(cfg, db, SetOf([]), receiver, now).objects == db.objects;
      var i := 0;
      assert page[..0] == [];
      while i < |page|
        invariant 0 <= i <= |page| && Tables() == SoftClaim(cfg, db, SetOf(page[..i]), receiver, now)
      {
        var id := page[i];
        assert id !in page[..i];
        SetOfNext(page, i);
        SoftClaimNext(cfg, db, SetOf(page[..i]), id, receiver, now);
        objects := objects[id := objects[id].(pullLeaseBy := Some(receiver), pullLeaseExpiresAt := Some(now + cfg.pullLease))];
        i := i + 1;
      }
      assert page[..|page|] == page;
    }

    // ----- background sweeps ----------------------------------------------------------------

    /** The lease sweep's write, for whatever rows and clock its earlier read chose. */
    method SweepExpiredLeases(selection: set<Gid>, sweptAt: Time) returns (count: nat)
      modifies this`granules
      ensures Tables() == BulkUpdate(old(Tables()), selection, SweepExpired(sweptAt))
      ensures count == |selection * Selected(old(Tables()), SweepExpired(sweptAt))|
    {
      if selection == {} {
        BulkNoRow(Tables(), {}, SweepExpired(sweptAt));
        return 0;
      }
      count := Update(selection, SweepExpired(sweptAt));
    }

    /** Self-confirm the deletion of acked granules whose objects no live worker hosts. */
    method SweepOrphanedAcked(live: set<WorkerId>, now: Time) returns (orphans: seq<Gid>)
      modifies this`granules, this`objects, this`batches, this`stages, this`nextObjectId
      ensures forall gid :: gid in orphans <==> Orphaned(old(Tables()), gid, live)
      ensures Distinct(orphans)
      ensures Tables() == FlipAll(old(Tables()), orphans, now)
      ensures Columns.DeletedAndCounted(old(Tables()), Tables(), Columns.Adrift(old(Tables()), live), now)
    {
      ghost var db := Tables();
      orphans := [];
      var todo := set gid | gid in granules && Orphaned(Tables(), gid, live);
      while todo != {}
        invariant forall gid :: gid in todo || gid in orphans <==> Orphaned(db, gid, live)
        invariant forall gid | gid in todo :: gid !in orphans && gid in granules && granules[gid] == db.granules[gid]
        invariant Distinct(orphans)
        invariant Tables() == FlipAll(db, orphans, now)
        decreases |todo|
      {
        var gid :| gid in todo;
        FlipOrphan(gid, now);
        assert Init(orphans + [gid]) == orphans;
        orphans, todo := orphans + [gid], todo - {gid};
      }
      OrphansAreAdrift(db, orphans, live, now);
    }

    method FlipOrphan(gid: Gid, now: Time)
      requires gid in granules && granules[gid].state == StateMachine.Acked
      modifies this`granules, this`objects, this`batches, this`stages, this`nextObjectId
      ensures Tables() == FlipDeleted(old(Tables()), gid, now)
      ensures forall g | g in old(granules) && g != gid :: g in granules && granules[g] == old(granules)[g]
    {
      OrphanFlip(cfg, Tables(), gid, now);
      var _ := Transition(gid, ReconcileOrphanDeleted, now);
    }

    const ID_CHUNK: nat := 20000

    /** One chunk: receipts first, then the children, then the granules. */
    method ReapChunk(chunk: set<Gid>) returns (gone: ReapCounts)
      requires References(Tables())
      modifies this`granules, this`objects, this`stages, this`receipts
      ensures Tables() == Reap(old(Tables()), chunk)
      ensures gone == CountReaped(old(Tables()), chunk)
    {
      gone := CountReaped(Tables(), chunk);
      ArchiveConfirmed(ObjectsOf(Tables(), chunk));
      objects := ObjectsOutside(objects, chunk);
      stages := Without(stages, chunk);
      granules := Without(granules, chunk);
    }

    /** Hard-delete granules chunk by chunk; the counts are those of the whole deletion. */
    method ReapGranules(ids: seq<Gid>) returns (gone: ReapCounts)
      requires References(Tables())
      modifies this`granules, this`objects, this`stages, this`receipts
      ensures Tables() == Reap(old(Tables()), GidsOf(ids))
      ensures gone == CountReaped(old(Tables()), GidsOf(ids))
      ensures gone.objects == |set id | id in old(objects) && old(objects)[id].granule in ids|
      ensures gone.granules == |set gid | gid in old(granules) && gid in ids|
    {
      ghost var db := Tables();
      gone := ReapCounts(0, 0);
      var start := 0;
      ghost var done: set<Gid> := {};
      ReapNothing(db);
      CountNothing(db);
      assert GidsOf(ids[..0]) == done;
      while start < |ids|
        invariant 0 <= start <= |ids| && done == GidsOf(ids[..start]) && Tables() == Reap(db, done)
        invariant gone == CountReaped(db, done) && References(Tables())
      {
        var stop := Min(start + ID_CHUNK, |ids|);
        GidsJoin(ids, start, stop);
        var counts := ReapNext(db, done, GidsOf(ids[start..stop]));
        gone := Sum(gone, counts);
        done := done + GidsOf(ids[start..stop]);
        start := stop;
      }
      assert ids[..|ids|] == ids;
      CountColumns(db, ids);
    }

    /** The next chunk after `done` has been reaped. */
    method ReapNext(ghost db: Db, ghost done: set<Gid>, chunk: set<Gid>) returns (gone: ReapCounts)
      requires Tables() == Reap(db, done) && References(Tables())
      modifies this`granules, this`objects, this`stages, this`receipts
      ensures Tables() == Reap(db, done + chunk) && References(Tables())
      ensures CountReaped(db, done + chunk) == Sum(CountReaped(db, done), gone)
    {
      ReapInChunks(db, done, chunk);
      CountInChunks(db, Tables(), done, chunk);
      ReapKeepsReferences(Tables(), chunk);
      gone := ReapChunk(chunk);
    }

    /** The retention sweep's granule part: expired object rows, then expired deleted granules. */
    method SweepRetention(cutoff: Time)
      requires References(Tables())
      modifies this`granules, this`objects, this`stages, this`receipts
      ensures Tables() == Retain(old(Tables()), cutoff) && Columns.Pruned(old(Tables()), Tables(), cutoff)
    {
      Columns.RetentionColumns(Tables(), cutoff);
      PruneRows(cutoff);
    }

    method PruneRows(cutoff: Time)
      requires References(Tables())
      modifies this`granules, this`objects, this`stages, this`receipts
      ensures Tables() == Retain(old(Tables()), cutoff)
    {
      ghost var db := Tables();
      TrimKeepsReferences(db, StaleObjects(db, cutoff));
      objects := DropObjects(Tables(), StaleObjects(Tables(), cutoff)).objects;
      var doomed := ListOf(StaleGranules(Tables(), cutoff));
      var _ := ReapGranules(doomed);
    }

    // ----- operator actions -----------------------------------------------------------------

    /** DELETE /batches/{id}. */
    method DeleteBatch(b: BatchId, force: bool) returns (reply: Reply)
      requires References(Tables())
      modifies this`granules, this`objects, this`stages, this`receipts, this`batches
      ensures reply == NotFound <==> b !in old(batches)
      ensures reply == Refused <==> b in old(batches) && !force && ActiveIn(old(Tables()), b) != {}
      ensures forall gid :: gid in ActiveIn(old(Tables()), b) <==>
        gid in old(granules) && gid.batch == b && Columns.InHand(old(granules)[gid].state)
      ensures reply == Done ==> Tables() == RemoveBatch(old(Tables()), b)
      ensures reply == Done || (reply in {NotFound, Refused} && Tables() == old(Tables()))
    {
      if b !in batches {
        return NotFound;
      }
      if !force && ActiveIn(Tables(), b) != {} {
        return Refused;
      }
      var ids := ListOf(GranulesOf(Tables(), b));
      var _ := ReapGranules(ids);
      batches := map c | c in batches && c != b :: batches[c];
      return Done;
    }

    /** POST /batches/{id}/granules: known ids are skipped, new ones start pending. */
    method AddToBatch(b: BatchId, names: seq<Token>, now: Time) returns (reply: Reply, added: nat, skipped: nat)
      modifies this`granules
      ensures reply == NotFound <==> b !in batches
      ensures reply == Refused <==> b in batches && HasDuplicate(names)
      ensures reply == Done ==>
        && Tables() == AddGranules(old(Tables()), b, NamesOf(names), now)
        && added + skipped == |names| && skipped == |KnownIn(old(Tables()), b, NamesOf(names))|
      ensures reply == Done || (reply in {NotFound, Refused} && Tables() == old(Tables()) && added == skipped == 0)
    {
      added, skipped := 0, 0;
      if b !in batches {
        return NotFound, 0, 0;
      }
      if HasDuplicate(names) {
        return Refused, 0, 0;
      }
      ghost var db := Tables();
      var existing := KnownIn(Tables(), b, NamesOf(names));
      var i := 0;
      ghost var done: set<Token> := {};
      AddNone(db, b, now);
      while i < |names|
        invariant 0 <= i <= |names| && added + skipped == i && done == NamesOf(names[..i])
        invariant Tables() == AddGranules(db, b, done, now)
        invariant skipped == |KnownIn(db, b, done)|
      {
        FreshName(names, i);
        AddNext(db, b, done, names[i], now);
        if names[i] in existing {
          skipped := skipped + 1;
        } else {
          granules := granules[Gid(b, names[i]) := NewGranule(now)];
          added := added + 1;
        }
        done := done + {names[i]};
        i := i + 1;
      }
      assert names[..|names|] == names;
      reply := Done;
    }

    /** Reset one undeliverable granule, then drop its object rows. */
    method RequeueOne(gid: Gid, now: Time)
      requires Undeliverable(cfg, Tables(), gid)
      modifies this`granules, this`objects, this`batches, this`stages, this`nextObjectId
      ensures Tables() == Requeue(cfg, old(Tables()), {gid}, now)
    {
      RequeueIsTheTransition(cfg, Tables(), gid, now);
      RequeueKeepsObjects(cfg, Tables(), gid, now);
      var _ := Transition(gid, RequeueGranule, now);
      objects := DropObjects(Tables(), set id | id in objects && objects[id].granule == gid).objects;
    }

    /** POST /admin/requeue-undeliverable: reset each undeliverable granule and drop its object rows. */
    method RequeueUndeliverable(scope: Option<BatchId>, now: Time) returns (requeued: nat)
      modifies this`granules, this`objects, this`batches, this`stages, this`nextObjectId
      ensures Tables() == Requeue(cfg, old(Tables()), Stuck(cfg, old(Tables()), scope), now)
      ensures requeued == |Stuck(cfg, old(Tables()), scope)|
    {
      ghost var db := Tables();
      var rows := Stuck(cfg, Tables(), scope);
      requeued := |rows|;
      var todo := rows;
      RequeueNone(cfg, db, now);
      assert rows - todo == {};
      while todo != {}
        invariant todo <= rows && Tables() == Requeue(cfg, db, rows - todo, now)
        decreases |todo|
      {
        var gid :| gid in todo;
        RequeueInTurn(cfg, db, rows - todo, gid, now);
        RequeueOne(gid, now);
        assert rows - (todo - {gid}) == rows - todo + {gid};
        todo := todo - {gid};
      }
      assert rows - todo == rows;
    }

    /** GET /workers/deletable: the worker's undeleted acked granules whose undeleted objects are all acked. */
    method Deletable(worker: WorkerId) returns (gids: set<Gid>)
      ensures gids == DeletableGranules(Tables(), worker)
      ensures forall gid :: gid in gids <==> Columns.Hosts(Tables(), worker, gid) && Columns.Delivered(Tables(), gid)
    {
      forall gid
        ensures gid in DeletableGranules(Tables(), worker) <==>
                Columns.Hosts(Tables(), worker, gid) && Columns.Delivered(Tables(), gid)
      {
        DeletableExactly(Tables(), worker, gid);
      }
      var fullyAcked := set id | id in objects && objects[id].deletedAt.None?
        && (forall j | j in objects :: objects[j].granule == objects[id].granule && objects[j].deletedAt.None? ==>
              objects[j].ackedAt.Some?) :: objects[id].granule;
      gids := set id | id in objects && objects[id].workerId == worker && objects[id].ackedAt.Some?
        && objects[id].deletedAt.None? && objects[id].granule in fullyAcked :: objects[id].granule;
    }
  }

  datatype ReapCounts = ReapCounts(objects: nat, granules: nat)

  function Sum(a: ReapCounts, b: ReapCounts): (n: ReapCounts) {
    ReapCounts(a.objects + b.objects, a.granules + b.granules)
  }

  function GidsOf(ids: seq<Gid>): (r: set<Gid>) {
    set gid | gid in ids
  }

  function NamesOf(names: seq<Token>): (r: set<Token>) {
    set n | n in names
  }

  predicate HasDuplicate(names: seq<Token>) {
    exists i, j :: 0 <= i < j < |names| && names[i] == names[j]
  }

  function ActiveIn(db: Db, b: BatchId): (ids: set<Gid>) {
    set gid | gid in db.granules && gid.batch == b && Leased(db.granules[gid].state)
  }

  function KnownIn(db: Db, b: BatchId, names: set<Token>): (known: set<Token>) {
    set n | n in names && Gid(b, n) in db.granules
  }

  function Offered(cfg: Config, db: Db, receiver: ReceiverId, now: Time): (ids: set<nat>) {
    set id | id in db.objects && OfferedTo(cfg, db, id, receiver, now)
  }

  function Stuck(cfg: Config, db: Db, scope: Option<BatchId>): (ids: set<Gid>) {
    set gid | gid in db.granules && Undeliverable(cfg, db, gid) && (scope.None? || gid.batch == scope.value)
  }

  lemma StuckColumns(cfg: Config, db: Db, scope: Option<BatchId>, gid: Gid)
    ensures gid in Stuck(cfg, db, scope) <==> Columns.StuckRow(cfg, db, gid) && scope in {None, Some(gid.batch)}
  {
    Columns.StuckExactly(cfg, db, gid);
  }

  /** The rows a hard deletion of `doomed` removes. */
  function CountReaped(db: Db, doomed: set<Gid>): (n: ReapCounts) {
    ReapCounts(|ObjectsOf(db, doomed)|, |doomed * db.granules.Keys|)
  }

  function DeletableGranules(db: Db, worker: WorkerId): (ids: set<Gid>) {
    set id | id in db.objects && db.objects[id].workerId == worker && db.objects[id].deletedAt.None?
             && (forall j | j in db.objects ::
                   db.objects[j].granule == db.objects[id].granule && db.objects[j].deletedAt.None? ==>
                   db.objects[j].ackedAt.Some?) :: db.objects[id].granule
  }

  lemma DeletableExactly(db: Db, worker: WorkerId, gid: Gid)
    ensures gid in DeletableGranules(db, worker) <==> Columns.Hosts(db, worker, gid) && Columns.Delivered(db, gid)
  {
    if Columns.Hosts(db, worker, gid) && Columns.Delivered(db, gid) {
      var id :| id in db.objects && db.objects[id].granule == gid && db.objects[id].deletedAt.None?
        && db.objects[id].workerId == worker;
      assert db.objects[id].granule in DeletableGranules(db, worker);
    }
  }

  /**
   A worker is told to delete only what has been delivered: every object of the granule is acknowledged and in
   the ledger, and the granule no longer waits for its receiver.
   */
  lemma DeletableIsDelivered(db: Db, worker: WorkerId, gid: Gid)
    requires Inv(db) && gid in DeletableGranules(db, worker)
    ensures gid in db.granules && (db.granules[gid].state == StateMachine.Acked || db.granules[gid].state == Deleted)
    ensures forall id | id in db.objects && db.objects[id].granule == gid ::
      db.objects[id].ackedAt.Some? && KeyOf(id, db.objects[id]) in db.receipts && db.objects[id].workerId == worker
  {
  }

  method ListOf(ids: set<Gid>) returns (list: seq<Gid>)
    ensures GidsOf(list) == ids
  {
    list := [];
    var rest := ids;
    while rest != {}
      invariant rest <= ids && GidsOf(list) == ids - rest
      decreases |rest|
    {
      var gid :| gid in rest;
      assert GidsOf(list + [gid]) == GidsOf(list) + {gid};
      list, rest := list + [gid], rest - {gid};
    }
  }

  lemma OfferedIsForTaking(cfg: Config, db: Db, receiver: ReceiverId, now: Time)
    requires References(db)
    ensures forall id :: id in Offered(cfg, db, receiver, now) <==> Columns.ForTaking(cfg, db, id, receiver, now)
    ensures forall id | id in Offered(cfg, db, receiver, now) :: id > 0
  {
    forall id | id in db.objects ensures OfferedTo(cfg, db, id, receiver, now) <==> Columns.ForTaking(cfg, db, id, receiver, now) {
      Columns.OfferedColumns(cfg, db, id, receiver, now);
    }
  }

  lemma SoftClaimNext(cfg: Config, db: Db, done: set<nat>, id: nat, receiver: ReceiverId, now: Time)
    requires id in db.objects && id !in done
    ensures var before, o := SoftClaim(cfg, db, done, receiver, now), db.objects[id];
      && before.objects.Keys == db.objects.Keys && before.objects[id] == o
      && SoftClaim(cfg, db, done + {id}, receiver, now).objects ==
           before.objects[id := o.(pullLeaseBy := Some(receiver), pullLeaseExpiresAt := Some(now + cfg.pullLease))]
  {
  }

  lemma OrphansAreAdrift(db: Db, orphans: seq<Gid>, live: set<WorkerId>, now: Time)
    requires Distinct(orphans) && forall gid :: gid in orphans <==> Orphaned(db, gid, live)
    ensures Columns.DeletedAndCounted(db, FlipAll(db, orphans, now), Columns.Adrift(db, live), now)
  {
    forall gid ensures gid in orphans <==> gid in Columns.Adrift(db, live) {
      Columns.AdriftExactly(db, live, gid);
    }
    Columns.FlipAllColumns(db, orphans, now);
    assert Columns.Adrift(db, live) == set gid | gid in orphans;
  }

  lemma OrphanFlip(cfg: Config, db: Db, gid: Gid, now: Time)
    requires gid in db.granules && db.granules[gid].state == StateMachine.Acked
    ensures ApplyTransition(cfg, db, gid, ReconcileOrphanDeleted, now) == FlipDeleted(db, gid, now)
    ensures forall g | g in db.granules && g != gid ::
      g in FlipDeleted(db, gid, now).granules && FlipDeleted(db, gid, now).granules[g] == db.granules[g]
  {
  }

  lemma CountColumns(db: Db, ids: seq<Gid>)
    ensures CountReaped(db, GidsOf(ids)).objects == |set id | id in db.objects && db.objects[id].granule in ids|
    ensures CountReaped(db, GidsOf(ids)).granules == |set gid | gid in db.granules && gid in ids|
  {
    assert ObjectsOf(db, GidsOf(ids)) == set id | id in db.objects && db.objects[id].granule in ids;
    assert GidsOf(ids) * db.granules.Keys == set gid | gid in db.granules && gid in ids;
  }

  lemma CountNothing(db: Db)
    ensures CountReaped(db, {}) == ReapCounts(0, 0)
  {
  }

  lemma ObjectsInChunks(db: Db, mid: Db, done: set<Gid>, chunk: set<Gid>)
    requires mid.objects == ObjectsOutside(db.objects, done)
    ensures |ObjectsOf(db, done + chunk)| == |ObjectsOf(db, done)| + |ObjectsOf(mid, chunk)|
  {
    SizesAdd(ObjectsOf(db, done), ObjectsOf(mid, chunk), ObjectsOf(db, done + chunk));
  }

  lemma RowsInChunks(rows: set<Gid>, rest: set<Gid>, done: set<Gid>, chunk: set<Gid>)
    requires rest == rows - done
    ensures |(done + chunk) * rows| == |done * rows| + |chunk * rest|
  {
    assert (done + chunk) * rows == done * rows + chunk * rest;
    assert done * rows !! chunk * rest;
  }

  lemma WithoutKeys<V>(rows: map<Gid, V>, gone: set<Gid>)
    ensures Without(rows, gone).Keys == rows.Keys - gone
  {
  }

  lemma CountInChunks(db: Db, mid: Db, done: set<Gid>, chunk: set<Gid>)
    requires mid.objects == ObjectsOutside(db.objects, done) && mid.granules == Without(db.granules, done)
    ensures CountReaped(db, done + chunk) == Sum(CountReaped(db, done), CountReaped(mid, chunk))
  {
    ObjectsInChunks(db, mid, done, chunk);
    WithoutKeys(db.granules, done);
    RowsInChunks(db.granules.Keys, mid.granules.Keys, done, chunk);
  }

  lemma GidsJoin(ids: seq<Gid>, start: nat, stop: nat)
    requires start <= stop <= |ids|
    ensures GidsOf(ids[..stop]) == GidsOf(ids[..start]) + GidsOf(ids[start..stop])
  {
  }

  lemma TrimKeepsReferences(db: Db, ids: set<nat>)
    requires References(db)
    ensures References(DropObjects(db, ids))
  {
  }

  lemma ReapKeepsReferences(db: Db, doomed: set<Gid>)
    requires References(db)
    ensures References(Reap(db, doomed))
  {
  }

  lemma AddNone(db: Db, b: BatchId, now: Time)
    ensures AddGranules(db, b, {}, now) == db
  {
  }

  lemma FreshName(names: seq<Token>, i: nat)
    requires i < |names| && !HasDuplicate(names)
    ensures names[i] !in NamesOf(names[..i]) && NamesOf(names[..i + 1]) == NamesOf(names[..i]) + {names[i]}
  {
  }

  lemma AddNext(db: Db, b: BatchId, done: set<Token>, n: Token, now: Time)
    requires n !in done
    ensures var before, after := AddGranules(db, b, done, now), AddGranules(db, b, done + {n}, now);
      after.granules == if Gid(b, n) in db.granules then before.granules
                        else before.granules[Gid(b, n) := NewGranule(now)]
    ensures |KnownIn(db, b, done + {n})| == |KnownIn(db, b, done)| + if Gid(b, n) in db.granules then 1 else 0
  {
    assert KnownIn(db, b, done + {n}) == KnownIn(db, b, done) + if Gid(b, n) in db.granules then {n} else {};
    AddNextRows(db, b, done, n, now);
  }

  lemma AddNextRows(db: Db, b: BatchId, done: set<Token>, n: Token, now: Time)
    ensures var before, after := AddGranules(db, b, done, now), AddGranules(db, b, done + {n}, now);
      after.granules == if Gid(b, n) in db.granules then before.granules
                        else before.granules[Gid(b, n) := NewGranule(now)]
  {
  }

  lemma RequeueNone(cfg: Config, db: Db, now: Time)
    ensures Requeue(cfg, db, {}, now) == db
  {
  }

  lemma RequeueInTurn(cfg: Config, db: Db, done: set<Gid>, gid: Gid, now: Time)
    requires gid !in done && Undeliverable(cfg, db, gid)
    ensures var mid := Requeue(cfg, db, done, now);
      Undeliverable(cfg, mid, gid) && Requeue(cfg, mid, {gid}, now) == Requeue(cfg, db, done + {gid}, now)
  {
    var mid := Requeue(cfg, db, done, now);
    assert Requeue(cfg, mid, {gid}, now).granules == Requeue(cfg, db, done + {gid}, now).granules;
    assert Requeue(cfg, mid, {gid}, now).objects == Requeue(cfg, db, done + {gid}, now).objects;
  }

  lemma RequeueKeepsObjects(cfg: Config, db: Db, gid: Gid, now: Time)
    requires Undeliverable(cfg, db, gid)
    ensures ApplyTransition(cfg, db, gid, RequeueGranule, now).objects == db.objects
  {
  }

  lemma MarkedReferences(db: Db, acks: seq<Ack>, now: Time)
    requires References(db)
    ensures References(db.(objects := MarkAll(db.objects, acks, now)))
  {
    forall id | id in db.objects ensures MarkAll(db.objects, acks, now)[id].granule == db.objects[id].granule {
      MarkAllRow(db.objects, acks, now, id);
    }
  }

  lemma PromoteNothing(db: Db, gids: set<Gid>, now: Time)
    requires forall gid | gid in gids :: !Promotable(db, gid)
    ensures Promote(db, gids, now) == db
  {
  }

  lemma PromoteInTurn(db: Db, done: set<Gid>, gid: Gid, now: Time)
    ensures Promote(Promote(db, done, now), {gid}, now) == Promote(db, done + {gid}, now)
  {
    var p := Promote(db, done, now);
    PromoteTables(db, db.objects, done, now);
    PromoteTables(p, db.objects, {gid}, now);
    PromoteStep(db, db.objects, db.objects, done, gid, now, p, Promote(p, {gid}, now));
    PromoteTables(db, db.objects, done + {gid}, now);
    TablesDetermined(db, db.objects, done + {gid}, now, Promote(p, {gid}, now), Promote(db, done + {gid}, now));
  }

  /** The part of the scope a scan up to `after` has covered. */
  ghost function Scanned(db: Db, scope: set<nat>, after: nat): (ids: set<nat>) {
    set id | id in scope && id in db.objects && id <= after
  }

  function Above(scope: set<nat>, after: nat): (ids: set<nat>) {
    set id | id in scope && id > after
  }

  /** Nothing due above the last page: everything in scope has been archived. */
  lemma PageDone(db: Db, scope: set<nat>, done: set<nat>, due: set<nat>, after: nat, limit: nat)
    requires limit > 0 && done == Scanned(db, scope, after)
    requires due == (set id | id in scope && Archivable(Archive(db, done), id)) && IsPage(due, after, limit, [])
    ensures Archive(db, done) == Archive(db, scope)
  {
    EmptyPage(due, after, limit);
    forall id | id in scope && id !in done ensures !Archivable(db, id) {
      ArchivableAfter(db, done, id);
      assert id in due ==> id <= after;
    }
    ArchiveMore(db, done, scope);
  }

  lemma PageAdvances(db: Db, scope: set<nat>, done: set<nat>, due: set<nat>, after: nat, page: seq<nat>, limit: nat)
    requires done == Scanned(db, scope, after)
    requires due == (set id | id in scope && Archivable(Archive(db, done), id))
    requires page != [] && IsPage(due, after, limit, page)
    ensures Last(page) > after && Last(page) in scope
    ensures Due(db, done, page)
    ensures Archive(db, done + SetOf(page)) == Archive(db, Scanned(db, scope, Last(page)))
  {
    var all := Scanned(db, scope, Last(page));
    forall id | id in SetOf(page) ensures Archivable(db, id) && id !in done {
      ArchivableAfter(db, done, id);
    }
    forall id | id in page ensures id in all {
      PageCovers(due, after, limit, page, id);
    }
    forall id | id in all && id !in done && id !in page ensures !Archivable(db, id) {
      PageCovers(due, after, limit, page, id);
      ArchivableAfter(db, done, id);
    }
    ArchiveMore(db, done + SetOf(page), all);
  }

  /** The page's rows are due for archiving, each once, and none has been archived. */
  ghost predicate Due(db: Db, done: set<nat>, page: seq<nat>) {
    Ascending(page) && SetOf(page) !! done && forall id | id in SetOf(page) :: Archivable(db, id)
  }

  lemma DueStart(done: set<nat>, page: seq<nat>)
    ensures done == done + SetOf(page[..0]) && page[..|page|] == page
  {
  }

  lemma PageStep(db: Db, done: set<nat>, page: seq<nat>, i: nat)
    requires Due(db, done, page) && i < |page|
    ensures done + SetOf(page[..i + 1]) == done + SetOf(page[..i]) + {page[i]}
    ensures page[i] !in done + SetOf(page[..i]) && Archivable(db, page[i])
  {
  }

  lemma LessRemains(scope: set<nat>, after: nat, next: nat)
    requires next in scope && next > after
    ensures |Above(scope, next)| < |Above(scope, after)|
  {
    ProperSubsetSize(Above(scope, next), Above(scope, after), next);
  }

  lemma ProperSubsetSize(small: set<nat>, large: set<nat>, extra: nat)
    requires small <= large && extra in large && extra !in small
    ensures |small| < |large|
  {
    assert small <= large - {extra};
    SubsetSize(small, large - {extra});
  }

  function ReportedSet(active: Option<seq<Gid>>): (r: Option<set<Gid>>) {
    if active.None? then None else Some(set gid | gid in active.value)
  }

  /** The reported granules the worker does not hold, in report order. */
  function Unowned(db: Db, worker: WorkerId, active: seq<Gid>): (r: seq<Gid>) {
    if active == [] then []
    else Unowned(db, worker, Init(active)) +
         if Last(active) in db.granules && HeldBy(db.granules[Last(active)], worker) then [] else [Last(active)]
  }

  lemma {:induction false} UnownedExact(db: Db, worker: WorkerId, active: seq<Gid>, gid: Gid)
    ensures gid in Unowned(db, worker, active) <==>
      gid in active && !(gid in db.granules && HeldBy(db.granules[gid], worker))
  {
    if active != [] {
      UnownedExact(db, worker, Init(active), gid);
      assert gid in active <==> gid in Init(active) || gid == Last(active);
    }
  }

  /** What the reply lists keeps the report's order. */
  lemma {:induction false} UnownedJoins(db: Db, worker: WorkerId, xs: seq<Gid>, ys: seq<Gid>)
    ensures Unowned(db, worker, xs + ys) == Unowned(db, worker, xs) + Unowned(db, worker, ys)
  {
    if ys == [] {
      assert xs + ys == xs;
    } else {
      assert Init(xs + ys) == xs + Init(ys) && Last(xs + ys) == Last(ys);
      UnownedJoins(db, worker, xs, Init(ys));
    }
  }

  /**
   After a heartbeat every lease of the worker was reported or touched within the grace, and has at least half
   the lease duration left; a lease is lost only if it was unreported and older than the grace.
   */
  lemma HeartbeatReconciles(db: Db, worker: WorkerId, active: set<Gid>, now: Time, gid: Gid)
    requires RowsFit(db) && gid in db.granules
    ensures var g, g' := db.granules[gid], HeartbeatUpdate(db, worker, Some(active), now).granules[gid];
      && (HeldBy(g', worker) ==>
            && (gid in active || g'.updatedAt >= now - RECLAIM_GRACE)
            && g'.leaseExpiresAt.Some? && g'.leaseExpiresAt.value >= now + LEASE_DURATION / 2)
      && (HeldBy(g, worker) ==>
            (HeldBy(g', worker) <==> gid in active || g.updatedAt >= now - RECLAIM_GRACE))
      && (HeldBy(g', worker) ==> g' == g.(leaseExpiresAt := g'.leaseExpiresAt))
      && (!HeldBy(g, worker) ==> g' == g)
  {
  }

  lemma HeartbeatRow(db: Db, worker: WorkerId, active: set<Gid>, now: Time, gid: Gid)
    requires gid in db.granules
    ensures var g, g' := db.granules[gid], HeartbeatUpdate(db, worker, Some(active), now).granules[gid];
      g' == if HeldBy(g, worker) && g.updatedAt < now - RECLAIM_GRACE && gid !in active then Freed(g, now)
            else if HeldBy(g, worker) && ExpiredBefore(g, now + LEASE_DURATION / 2)
            then g.(leaseExpiresAt := Some(now + LEASE_DURATION))
            else g
  {
  }

  /** Granules of missed events, each once, in order of their first miss. */
  ghost function MissedGranules(cfg: Config, db: Db, evs: seq<WireEvent>, now: Time): (r: seq<Gid>)
  {
    if evs == [] then []
    else
      var before := MissedGranules(cfg, db, Init(evs), now);
      if Missed(EmitAll(cfg, db, Init(evs), now), Last(evs)) && Last(evs).granule !in before
      then before + [Last(evs).granule]
      else before
  }

  /** Later events only add to the reply, at its end. */
  lemma {:induction false} MissedGranulesGrow(cfg: Config, db: Db, evs: seq<WireEvent>, now: Time, i: nat)
    requires i <= |evs|
    ensures MissedGranules(cfg, db, evs[..i], now) <= MissedGranules(cfg, db, evs, now)
  {
    if i < |evs| {
      assert Init(evs)[..i] == evs[..i];
      MissedGranulesGrow(cfg, db, Init(evs), now, i);
    } else {
      assert evs[..i] == evs;
    }
  }

  /** The event at `i` misses when the earlier ones have been applied. */
  ghost predicate MissesAt(cfg: Config, db: Db, evs: seq<WireEvent>, now: Time, i: nat)
    requires i < |evs|
  {
    Missed(EmitAll(cfg, db, evs[..i], now), evs[i])
  }

  lemma MissesInPrefix(cfg: Config, db: Db, evs: seq<WireEvent>, now: Time, i: nat)
    requires i < |evs|
    ensures i < |evs| - 1 ==> MissesAt(cfg, db, evs, now, i) == MissesAt(cfg, db, Init(evs), now, i) && evs[i] == Init(evs)[i]
    ensures MissesAt(cfg, db, evs, now, |evs| - 1) == Missed(EmitAll(cfg, db, Init(evs), now), Last(evs))
  {
    assert evs[..|evs| - 1] == Init(evs);
    if i < |evs| - 1 {
      assert Init(evs)[..i] == evs[..i];
    }
  }

  /** The reply names the granule of every missed event. */
  lemma {:induction false} MissedGranulesComplete(cfg: Config, db: Db, evs: seq<WireEvent>, now: Time, i: nat)
    requires i < |evs| && MissesAt(cfg, db, evs, now, i)
    ensures evs[i].granule in MissedGranules(cfg, db, evs, now)
  {
    MissesInPrefix(cfg, db, evs, now, i);
    if i < |evs| - 1 {
      MissedGranulesComplete(cfg, db, Init(evs), now, i);
    }
  }

  /** Every granule the reply names has a missed event. */
  lemma {:induction false} MissedGranulesSound(cfg: Config, db: Db, evs: seq<WireEvent>, now: Time, gid: Gid) returns (i: nat)
    requires gid in MissedGranules(cfg, db, evs, now)
    ensures i < |evs| && evs[i].granule == gid && MissesAt(cfg, db, evs, now, i)
  {
    if gid in MissedGranules(cfg, db, Init(evs), now) {
      i := MissedGranulesSound(cfg, db, Init(evs), now, gid);
    } else {
      i := |evs| - 1;
    }
    MissesInPrefix(cfg, db, evs, now, i);
  }

  predicate Distinct(gids: seq<Gid>) {
    forall i, j | 0 <= i < j < |gids| :: gids[i] != gids[j]
  }

  lemma AppendOnce(before: seq<Gid>, g: Gid)
    requires g !in before && Distinct(before)
    ensures Distinct(before + [g])
  {
  }

  /** The reply names no granule twice. */
  lemma {:induction false} MissedGranulesOnce(cfg: Config, db: Db, evs: seq<WireEvent>, now: Time)
    ensures Distinct(MissedGranules(cfg, db, evs, now))
  {
    if evs != [] {
      var before, g := MissedGranules(cfg, db, Init(evs), now), Last(evs).granule;
      MissedGranulesOnce(cfg, db, Init(evs), now);
      if g !in before {
        AppendOnce(before, g);
      }
    }
  }

  lemma BulkSplit(db: Db, done: set<Gid>, gid: Gid, op: Bulk)
    requires gid in db.granules && gid !in done
    ensures var mid := BulkUpdate(db, done, op);
      && mid.granules.Keys == db.granules.Keys && mid.granules[gid] == db.granules[gid]
      && Selects(mid, op, gid) == Selects(db, op, gid)
      && BulkUpdate(db, done + {gid}, op) == BulkUpdate(mid, {gid}, op)
  {
    var mid := BulkUpdate(db, done, op);
    assert BulkUpdate(db, done + {gid}, op).granules == BulkUpdate(mid, {gid}, op).granules;
  }

  lemma BulkNoRow(db: Db, ids: set<Gid>, op: Bulk)
    requires forall gid | gid in ids && gid in db.granules :: !Selects(db, op, gid)
    ensures BulkUpdate(db, ids, op) == db
  {
  }

  /** One more row of a bulk action. */
  lemma BulkNext(db: Db, rows: set<Gid>, todo: set<Gid>, gid: Gid, op: Bulk)
    requires gid in todo && todo <= rows <= db.granules.Keys
    ensures var mid := BulkUpdate(db, rows - todo, op);
      && gid in mid.granules && Selects(mid, op, gid) == Selects(db, op, gid)
      && BulkUpdate(db, rows - (todo - {gid}), op) == BulkUpdate(mid, {gid}, op)
    ensures |(rows - (todo - {gid})) * Selected(db, op)|
         == |(rows - todo) * Selected(db, op)| + if Selects(db, op, gid) then 1 else 0
  {
    assert rows - (todo - {gid}) == rows - todo + {gid};
    BulkSplit(db, rows - todo, gid, op);
    CountNext(rows - todo, gid, Selected(db, op));
  }

  lemma CountNext(done: set<Gid>, gid: Gid, sel: set<Gid>)
    requires gid !in done
    ensures |(done + {gid}) * sel| == |done * sel| + if gid in sel then 1 else 0
  {
    if gid in sel {
      assert (done + {gid}) * sel == done * sel + {gid};
    } else {
      assert (done + {gid}) * sel == done * sel;
    }
  }

  lemma BulkOnPresent(db: Db, ids: set<Gid>, op: Bulk)
    ensures BulkUpdate(db, ids * db.granules.Keys, op) == BulkUpdate(db, ids, op)
    ensures (ids * db.granules.Keys) * Selected(db, op) == ids * Selected(db, op)
  {
  }

  lemma BulkOnSelected(db: Db, ids: set<Gid>, op: Bulk)
    ensures BulkUpdate(db, ids * Selected(db, op), op) == BulkUpdate(db, ids, op)
  {
  }

  lemma StageNext(stages: map<Gid, multiset<StageTiming>>, gid: Gid, rows: seq<StageRow>, i: nat)
    requires i < |rows|
    ensures var before := WithStages(stages, gid, rows[..i]);
      WithStages(stages, gid, rows[..i + 1]) == before[gid := StagesOf(before, gid) + multiset{TimingOf(rows[i])}]
  {
    assert Init(rows[..i + 1]) == rows[..i] && Last(rows[..i + 1]) == rows[i];
    var was, more, one := StagesOf(stages, gid), TimingsOf(rows[..i]), multiset{TimingOf(rows[i])};
    assert TimingsOf(rows[..i + 1]) == more + one;
    assert was + (more + one) == (was + more) + one;
    if i > 0 {
      assert stages[gid := was + more][gid := was + more + one] == stages[gid := was + more + one];
    } else {
      assert more == multiset{} && was + more == was;
    }
  }

  lemma InsertNext(objects: map<nat, ObjectRow>, first: nat, gid: Gid, added: seq<NewObject>, now: Time, i: nat)
    requires i < |added|
    ensures InsertObjects(objects, first, gid, added[..i + 1], now)
         == InsertObjects(objects, first, gid, added[..i], now)[first + i := UploadedRow(gid, added[i], now)]
  {
  }
}
