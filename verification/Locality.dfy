/**
 A granule's own view of the database, and the fact that a batch of worker reports acts on each
 granule's view by that granule's own reports alone, in their order.
 */
module Locality {
  import opened Basics
  import opened StateMachine
  import opened Store
  import opened Protocol
  import opened Preservation
  import opened Counting

  /** Everything the tables hold about one granule; object ids are dropped, their order is kept. */
  datatype View = View(row: Option<Granule>, timings: multiset<StageTiming>, rows: seq<ObjectRow>)

  /** The granule's object rows with an id below `n`, in id order. */
  function RowsBelowId(objects: map<nat, ObjectRow>, n: nat, gid: Gid): (rows: seq<ObjectRow>) {
    if n == 0 then []
    else RowsBelowId(objects, n - 1, gid) +
         if n - 1 in objects && objects[n - 1].granule == gid then [objects[n - 1]] else []
  }

  function ViewOf(db: Db, gid: Gid): (v: View) {
    View(if gid in db.granules then Some(db.granules[gid]) else None,
         StagesOf(db.stages, gid), RowsBelowId(db.objects, db.nextObjectId, gid))
  }

  function MarkedDeleted(rows: seq<ObjectRow>, at: Time): (r: seq<ObjectRow>) {
    seq(|rows|, i requires 0 <= i < |rows| => rows[i].(deletedAt := Some(at)))
  }

  function NewRows(gid: Gid, added: seq<NewObject>, now: Time): (r: seq<ObjectRow>) {
    seq(|added|, i requires 0 <= i < |added| => UploadedRow(gid, added[i], now))
  }

  /** One report against the granule's view alone. */
  function EmitView(cfg: Config, v: View, gid: Gid, ev: WireEvent, now: Time): (v': View) {
    if v.row.None? then v
    else
      var g := v.row.value;
      if ev.report.DeleteConfirmed? then
        if g.state == Deleted then v
        else v.(row := Some(g.(state := Deleted, updatedAt := now)), rows := MarkedDeleted(v.rows, now))
      else if g.leasedBy != Some(ev.workerId) then v
      else
        match ApplyReport(SnapshotOf(g), ev.workerId, ev.report, now, cfg.maxRetries)
        case Conflict => v
        case Accepted(r) =>
          View(Some(Patched(g, r)), v.timings + TimingsOf(r.stageRows), v.rows + NewRows(gid, r.newObjects, now))
  }

  function EmitViews(cfg: Config, v: View, gid: Gid, evs: seq<WireEvent>, now: Time): (v': View) {
    if evs == [] then v else EmitView(cfg, EmitViews(cfg, v, gid, Init(evs), now), gid, Last(evs), now)
  }

  /** The granule's own subsequence of a batch. */
  function Own(evs: seq<WireEvent>, gid: Gid): (r: seq<WireEvent>) {
    if evs == [] then []
    else Own(Init(evs), gid) + if Last(evs).granule == gid then [Last(evs)] else []
  }

  lemma {:induction false} RowsAfterInsert(
    objects: map<nat, ObjectRow>, first: nat, gid: Gid, added: seq<NewObject>, now: Time, n: nat, g: Gid)
    requires (forall id | id in objects :: id < first) && n <= first + |added|
    ensures RowsBelowId(InsertObjects(objects, first, gid, added, now), n, g)
         == RowsBelowId(objects, Min(n, first), g)
            + if g == gid && n > first then NewRows(gid, added, now)[..n - first] else []
  {
    var objects' := InsertObjects(objects, first, gid, added, now);
    if n > 0 {
      RowsAfterInsert(objects, first, gid, added, now, n - 1, g);
      if n > first {
        assert Within(n - 1, first, |added|);
        assert objects'[n - 1] == UploadedRow(gid, added[n - 1 - first], now);
        assert NewRows(gid, added, now)[..n - first]
            == NewRows(gid, added, now)[..n - 1 - first] + [NewRows(gid, added, now)[n - 1 - first]];
      } else {
        assert !Within(n - 1, first, |added|);
      }
    }
  }

  lemma {:induction false} RowsAfterFlip(objects: map<nat, ObjectRow>, gid: Gid, at: Time, n: nat, g: Gid)
    ensures var objects' := map id | id in objects ::
        if objects[id].granule == gid then objects[id].(deletedAt := Some(at)) else objects[id];
      RowsBelowId(objects', n, g)
        == if g == gid then MarkedDeleted(RowsBelowId(objects, n, g), at) else RowsBelowId(objects, n, g)
  {
    if n > 0 {
      RowsAfterFlip(objects, gid, at, n - 1, g);
    }
  }

  lemma FlipView(cfg: Config, db: Db, ev: WireEvent, now: Time, gid: Gid)
    requires ev.report.DeleteConfirmed?
    ensures ViewOf(FlipDeleted(db, ev.granule, now), gid)
         == if ev.granule == gid then EmitView(cfg, ViewOf(db, gid), gid, ev, now) else ViewOf(db, gid)
  {
    RowsAfterFlip(db.objects, ev.granule, now, db.nextObjectId, gid);
  }

  lemma MaterialiseRows(db: Db, at: Gid, r: TransitionResult, now: Time, gid: Gid)
    requires forall id | id in db.objects :: id < db.nextObjectId
    ensures RowsBelowId(InsertObjects(db.objects, db.nextObjectId, at, r.newObjects, now),
                        db.nextObjectId + |r.newObjects|, gid)
         == RowsBelowId(db.objects, db.nextObjectId, gid) + if at == gid then NewRows(at, r.newObjects, now) else []
  {
    RowsAfterInsert(db.objects, db.nextObjectId, at, r.newObjects, now, db.nextObjectId + |r.newObjects|, gid);
    var rows := NewRows(at, r.newObjects, now);
    assert rows[..|r.newObjects|] == rows;
  }

  lemma StagesAfter(stages: map<Gid, multiset<StageTiming>>, at: Gid, rows: seq<StageRow>, gid: Gid)
    ensures StagesOf(WithStages(stages, at, rows), gid)
         == StagesOf(stages, gid) + if at == gid then TimingsOf(rows) else multiset{}
  {
  }

  lemma MaterialiseView(db: Db, at: Gid, r: TransitionResult, now: Time, gid: Gid)
    requires References(db) && at in db.granules && r.objectsDeletedAt.None?
    ensures var v, v' := ViewOf(db, gid), ViewOf(Materialise(db, at, r, now), gid);
      v' == if at == gid
            then View(Some(Patched(db.granules[at], r)), v.timings + TimingsOf(r.stageRows), v.rows + NewRows(at, r.newObjects, now))
            else v
  {
    MaterialiseRows(db, at, r, now, gid);
    StagesAfter(db.stages, at, r.stageRows, gid);
  }

  /** A report changes its own granule's view, by that view alone, and no other granule's. */
  lemma EmitIsLocal(cfg: Config, db: Db, ev: WireEvent, now: Time, gid: Gid)
    requires References(db)
    ensures ViewOf(Emit(cfg, db, ev, now), gid)
         == if ev.granule == gid then EmitView(cfg, ViewOf(db, gid), gid, ev, now) else ViewOf(db, gid)
  {
    if ev.report.DeleteConfirmed? {
      EmitDeletion(cfg, db, ev, now);
      FlipView(cfg, db, ev, now, gid);
    } else if !Missed(db, ev) && OutcomeFor(cfg, db, ev.granule, FromWorker(ev.workerId, ev.report), now).Accepted? {
      ReportMoves(SnapshotOf(db.granules[ev.granule]), ev.workerId, ev.report, now, cfg.maxRetries);
      MaterialiseView(db, ev.granule, OutcomeFor(cfg, db, ev.granule, FromWorker(ev.workerId, ev.report), now).result, now, gid);
    }
  }

  lemma OwnStep(cfg: Config, v: View, evs: seq<WireEvent>, now: Time, gid: Gid)
    requires evs != []
    ensures var before := EmitViews(cfg, v, gid, Own(Init(evs), gid), now);
      EmitViews(cfg, v, gid, Own(evs, gid), now)
        == if Last(evs).granule == gid then EmitView(cfg, before, gid, Last(evs), now) else before
  {
    if Last(evs).granule == gid {
      assert Init(Own(evs, gid)) == Own(Init(evs), gid);
    } else {
      assert Own(evs, gid) == Own(Init(evs), gid);
    }
  }

  /** A batch acts on each granule's view by the granule's own reports alone, in their order. */
  lemma {:induction false} EmitAllIsLocal(cfg: Config, db: Db, evs: seq<WireEvent>, now: Time, gid: Gid)
    requires Inv(db) && FreshUpload(db, now)
    ensures ViewOf(EmitAll(cfg, db, evs, now), gid) == EmitViews(cfg, ViewOf(db, gid), gid, Own(evs, gid), now)
  {
    if evs != [] {
      var mid := EmitAll(cfg, db, Init(evs), now);
      EmitAllIsLocal(cfg, db, Init(evs), now, gid);
      EmitAllKeepsInv(cfg, db, Init(evs), now);
      EmitIsLocal(cfg, mid, Last(evs), now, gid);
      OwnStep(cfg, ViewOf(db, gid), evs, now, gid);
    }
  }

  lemma SameDeletedRows(db: Db, db': Db, b: BatchId)
    requires forall gid :: ViewOf(db, gid).row == ViewOf(db', gid).row
    ensures InState(db, b, Deleted) == InState(db', b, Deleted) && GranulesOf(db, b) == GranulesOf(db', b)
  {
    forall gid
      ensures gid in db.granules <==> gid in db'.granules
      ensures gid in db.granules ==> db.granules[gid] == db'.granules[gid]
    {
      assert ViewOf(db, gid).row == ViewOf(db', gid).row;
    }
  }

  /**
   Two batches that give every granule the same subsequence, however interleaved, leave every granule,
   its timings and its objects the same, and every batch's delivered counter the same.
   */
  lemma InterleavingIsIrrelevant(cfg: Config, db: Db, evs: seq<WireEvent>, evs': seq<WireEvent>, now: Time)
    requires Inv(db) && FreshUpload(db, now)
    requires forall gid :: Own(evs, gid) == Own(evs', gid)
    ensures forall gid :: ViewOf(EmitAll(cfg, db, evs, now), gid) == ViewOf(EmitAll(cfg, db, evs', now), gid)
    ensures forall b | b in db.batches ::
      && b in EmitAll(cfg, db, evs, now).batches && b in EmitAll(cfg, db, evs', now).batches
      && EmitAll(cfg, db, evs, now).batches[b].deliveredCount == EmitAll(cfg, db, evs', now).batches[b].deliveredCount
  {
    var p, q := EmitAll(cfg, db, evs, now), EmitAll(cfg, db, evs', now);
    forall gid ensures ViewOf(p, gid) == ViewOf(q, gid) {
      EmitAllIsLocal(cfg, db, evs, now, gid);
      EmitAllIsLocal(cfg, db, evs', now, gid);
      assert Own(evs, gid) == Own(evs', gid);
    }
    forall b | b in db.batches
      ensures b in p.batches && b in q.batches && p.batches[b].deliveredCount == q.batches[b].deliveredCount
    {
      EmitAllIsBalanced(cfg, db, evs, now, b);
      EmitAllIsBalanced(cfg, db, evs', now, b);
      SameDeletedRows(p, q, b);
      assert Vanished(db, p, b) == {} && Vanished(db, q, b) == {};
    }
  }
}
