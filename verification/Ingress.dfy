/**
 Batched ingress equals one-by-one ingress: the acknowledgement batch (mark everything, archive once,
 promote once) leaves what the single acknowledgements leave, an event batch treats every granule by its
 own subsequence alone, and the bulk statements write what the transition function decides row by row.
 */
module Ingress {
  import opened Basics
  import opened StateMachine
  import opened Store
  import opened Protocol
  import opened Preservation
  import opened Counting
  import opened Ledger

  // ----- acknowledgement batches ------------------------------------------------------------

  function MarkAll(objects: map<nat, ObjectRow>, acks: seq<Ack>, now: Time): (r: map<nat, ObjectRow>)
    ensures r.Keys == objects.Keys
  {
    if acks == [] then objects else AckObjects(MarkAll(objects, Init(acks), now), Last(acks), now)
  }

  function Touched(objects: map<nat, ObjectRow>, acks: seq<Ack>): (gids: set<Gid>) {
    set a | a in acks && Confirms(objects, a) :: objects[a.objectId].granule
  }

  function Named(acks: seq<Ack>): (ids: set<nat>) {
    set a | a in acks :: a.objectId
  }

  /** The batch endpoint: mark every row in order, then archive once, then promote once. */
  function AckBatch(db: Db, acks: seq<Ack>, now: Time): (db': Db) {
    var marked := db.(objects := MarkAll(db.objects, acks, now));
    var touched := Touched(db.objects, acks);
    if touched == {} then marked
    else Promote(Archive(marked, Named(acks)), touched, now)
  }

  /** The rows differ at most in their acknowledgement and pull bookkeeping. */
  predicate SameUpload(o: ObjectRow, o': ObjectRow) {
    && o'.granule == o.granule && o'.sha256 == o.sha256 && o'.uploadedAt == o.uploadedAt
    && o'.objectKey == o.objectKey && o'.size == o.size
    && (o.ackedAt.Some? ==> o' == o)
  }

  lemma {:induction false} MarkAllRow(objects: map<nat, ObjectRow>, acks: seq<Ack>, now: Time, id: nat)
    requires id in objects
    ensures SameUpload(objects[id], MarkAll(objects, acks, now)[id])
    ensures MarkAll(objects, acks, now)[id].ackedAt.Some? && objects[id].ackedAt.None? ==>
              id in Named(acks) && objects[id].granule in Touched(objects, acks)
  {
    if acks != [] {
      MarkAllRow(objects, Init(acks), now, id);
      assert forall a | a in Init(acks) :: a in acks;
      var before := MarkAll(objects, Init(acks), now);
      if Last(acks).objectId == id && Confirms(before, Last(acks)) {
        assert Last(acks) in acks && Confirms(objects, Last(acks));
      }
    }
  }

  lemma ConfirmsStable(objects: map<nat, ObjectRow>, acks: seq<Ack>, now: Time, a: Ack)
    ensures Confirms(MarkAll(objects, acks, now), a) == Confirms(objects, a)
  {
  }

  /** From `db`, with the rows marked as in `m`, the granule is touched, uploaded and fully acked. */
  predicate Promotes(db: Db, m: map<nat, ObjectRow>, touched: set<Gid>, x: Gid) {
    x in touched && x in db.granules && db.granules[x].state == Uploaded && AllAcked(m, x)
  }

  /** What promotion, or none, leaves of one granule's row and timings. */
  predicate TablesAt(db: Db, db': Db, x: Gid, promoted: bool, now: Time) {
    && (x in db'.granules <==> x in db.granules)
    && (promoted ==> x in db.granules)
    && (x in db.granules ==>
          db'.granules[x] == if promoted then PromotedGranule(db.granules[x], now) else db.granules[x])
    && (x in db'.stages <==> x in db.stages || promoted)
    && (x in db'.stages ==>
          db'.stages[x] == if promoted then StagesOf(db.stages, x) + multiset{DeliverTiming(db.granules[x], now)}
                           else db.stages[x])
  }

  /** The granule and stage tables are those of promoting exactly the granules `Promotes` names. */
  ghost predicate PromotedTables(db: Db, m: map<nat, ObjectRow>, touched: set<Gid>, now: Time, db': Db) {
    forall x :: TablesAt(db, db', x, Promotes(db, m, touched, x), now)
  }

  lemma PromoteTables(db: Db, m: map<nat, ObjectRow>, touched: set<Gid>, now: Time)
    requires db.objects == m
    ensures PromotedTables(db, m, touched, now, Promote(db, touched, now))
  {
  }

  lemma TablesDetermined(db: Db, m: map<nat, ObjectRow>, touched: set<Gid>, now: Time, p: Db, q: Db)
    requires PromotedTables(db, m, touched, now, p) && PromotedTables(db, m, touched, now, q)
    ensures p.granules == q.granules && p.stages == q.stages
  {
    forall x
      ensures x in p.granules <==> x in q.granules
      ensures x in p.granules ==> p.granules[x] == q.granules[x]
      ensures x in p.stages <==> x in q.stages
      ensures x in p.stages ==> p.stages[x] == q.stages[x]
    {
      assert TablesAt(db, p, x, Promotes(db, m, touched, x), now);
      assert TablesAt(db, q, x, Promotes(db, m, touched, x), now);
    }
  }

  lemma PromoteStepAt(db: Db, p: Db, q: Db, x: Gid, first: bool, second: bool, now: Time)
    requires TablesAt(db, p, x, first, now) && TablesAt(p, q, x, second, now) && !(first && second)
    ensures TablesAt(db, q, x, first || second, now)
  {
  }

  /** Promoting earlier touched granules first changes nothing, once acknowledgements only accumulate. */
  lemma PromoteStep(db: Db, m: map<nat, ObjectRow>, m': map<nat, ObjectRow>, touched: set<Gid>, g: Gid, now: Time,
                    p: Db, q: Db)
    requires forall x | AllAcked(m, x) :: AllAcked(m', x)
    requires forall x | x != g && AllAcked(m', x) :: AllAcked(m, x)
    requires PromotedTables(db, m, touched, now, p) && PromotedTables(p, m', {g}, now, q)
    ensures PromotedTables(db, m', touched + {g}, now, q)
  {
    forall x ensures TablesAt(db, q, x, Promotes(db, m', touched + {g}, x), now) {
      var first, second := Promotes(db, m, touched, x), Promotes(p, m', {g}, x);
      assert TablesAt(db, p, x, first, now) && TablesAt(p, q, x, second, now);
      assert Promotes(db, m', touched + {g}, x) == (first || second) by {
        assert AllAcked(m, x) ==> AllAcked(m', x);
        assert x != g && AllAcked(m', x) ==> AllAcked(m, x);
      }
      PromoteStepAt(db, p, q, x, first, second, now);
    }
  }

  /** One acknowledgement after a prefix of them: the row tables grow by the one promotion it can cause. */
  lemma AckStepTables(db: Db, acks: seq<Ack>, a: Ack, now: Time, mid: Db)
    requires Inv(mid) && mid.objects == MarkAll(db.objects, acks, now)
    requires PromotedTables(db, mid.objects, Touched(db.objects, acks), now, mid)
    ensures var next := AckOne(mid, a, now);
      && next.objects == AckObjects(mid.objects, a, now)
      && PromotedTables(db, next.objects, Touched(db.objects, acks + [a]), now, next)
  {
    var next := AckOne(mid, a, now);
    var touched := Touched(db.objects, acks);
    ConfirmsStable(db.objects, acks, now, a);
    if Confirms(mid.objects, a) {
      var g := mid.objects[a.objectId].granule;
      MarkAllRow(db.objects, acks, now, a.objectId);
      TouchedGrows(db.objects, acks, a);
      AckOneTables(mid, a, now);
      AckedMore(mid.objects, a, now);
      PromoteStep(db, mid.objects, next.objects, touched, g, now, mid, next);
    } else {
      TouchedGrows(db.objects, acks, a);
      AckedMore(mid.objects, a, now);
      assert next.granules == mid.granules && next.stages == mid.stages;
      assert Touched(db.objects, acks + [a]) == touched;
      SameTables(db, mid.objects, next.objects, touched, now, mid, next);
    }
  }

  lemma SameTables(db: Db, m: map<nat, ObjectRow>, m': map<nat, ObjectRow>, touched: set<Gid>, now: Time, p: Db, q: Db)
    requires PromotedTables(db, m, touched, now, p) && q.granules == p.granules && q.stages == p.stages
    requires forall x :: AllAcked(m, x) <==> AllAcked(m', x)
    ensures PromotedTables(db, m', touched, now, q)
  {
    forall x ensures TablesAt(db, q, x, Promotes(db, m', touched, x), now) {
      assert AllAcked(m, x) <==> AllAcked(m', x);
      assert TablesAt(db, p, x, Promotes(db, m, touched, x), now);
    }
  }

  lemma TouchedGrows(objects: map<nat, ObjectRow>, acks: seq<Ack>, a: Ack)
    ensures Touched(objects, acks + [a]) ==
      Touched(objects, acks) + if Confirms(objects, a) then {objects[a.objectId].granule} else {}
  {
  }

  /** An acknowledgement can only complete the granule it confirms an object of. */
  lemma AckedMore(objects: map<nat, ObjectRow>, a: Ack, now: Time)
    ensures var objects' := AckObjects(objects, a, now);
      && (forall x | AllAcked(objects, x) :: AllAcked(objects', x))
      && (forall x | AllAcked(objects', x) && !(Confirms(objects, a) && x == objects[a.objectId].granule) ::
            AllAcked(objects, x))
  {
    var objects' := AckObjects(objects, a, now);
    forall x | AllAcked(objects', x) && !(Confirms(objects, a) && x == objects[a.objectId].granule)
      ensures AllAcked(objects, x)
    {
      forall id | id in objects ensures !Awaits(objects, x, id) {
        assert !Awaits(objects', x, id);
      }
    }
    forall x | AllAcked(objects, x) ensures AllAcked(objects', x) {
      forall id | id in objects' ensures !Awaits(objects', x, id) {
        assert !Awaits(objects, x, id);
      }
    }
  }

  lemma AckOneTables(db: Db, a: Ack, now: Time)
    requires Confirms(db.objects, a)
    ensures var db' := AckOne(db, a, now);
      && db'.objects == AckObjects(db.objects, a, now)
      && PromotedTables(db, db'.objects, {db.objects[a.objectId].granule}, now, db')
  {
    var marked := db.(objects := AckObjects(db.objects, a, now));
    PromoteTables(Archive(marked, {a.objectId}), marked.objects, {db.objects[a.objectId].granule}, now);
  }

  lemma {:induction false} AckAllTables(db: Db, acks: seq<Ack>, now: Time)
    requires Inv(db)
    ensures var db' := AckAll(db, acks, now);
      && db'.objects == MarkAll(db.objects, acks, now)
      && PromotedTables(db, db'.objects, Touched(db.objects, acks), now, db')
  {
    if acks == [] {
      assert Touched(db.objects, acks) == {};
    } else {
      AckAllTables(db, Init(acks), now);
      AckAllKeepsInv(db, Init(acks), now);
      AckStepTables(db, Init(acks), Last(acks), now, AckAll(db, Init(acks), now));
      assert Init(acks) + [Last(acks)] == acks;
    }
  }

  lemma {:induction false} AckAllRest(db: Db, acks: seq<Ack>, now: Time)
    ensures var db' := AckAll(db, acks, now);
      && db'.batches == db.batches && db'.nextObjectId == db.nextObjectId
      && db'.workers == db.workers && db'.receivers == db.receivers
  {
    if acks != [] {
      AckAllRest(db, Init(acks), now);
    }
  }

  /** What one-by-one acknowledging is known to leave, without saying how. */
  ghost predicate Settled(db: Db, acks: seq<Ack>, now: Time, final: Db) {
    && final.objects == MarkAll(db.objects, acks, now)
    && PromotedTables(db, final.objects, Touched(db.objects, acks), now, final)
    && final.batches == db.batches && final.nextObjectId == db.nextObjectId
    && final.workers == db.workers && final.receivers == db.receivers
    && References(final) && Receipted(final) && Records(db, final)
  }

  lemma AckAllSettles(db: Db, acks: seq<Ack>, now: Time)
    requires Inv(db)
    ensures Settled(db, acks, now, AckAll(db, acks, now))
  {
    AckAllTables(db, acks, now);
    AckAllRest(db, acks, now);
    AckAllKeepsInv(db, acks, now);
    AckAllRecords(db, acks, now);
  }

  /** A row is due for archiving after the marking exactly when this batch acked it first. */
  lemma ArchivableIsNew(db: Db, acks: seq<Ack>, now: Time, marked: Db, final: Db, id: nat)
    requires References(db) && Receipted(db) && id in db.objects && Settled(db, acks, now, final)
    requires marked == db.(objects := final.objects)
    ensures Archivable(marked, id) <==> id in NewlyAcked(db, final)
    ensures Archivable(marked, id) ==> id in Named(acks) && db.objects[id].granule in Touched(db.objects, acks)
  {
    MarkAllRow(db.objects, acks, now, id);
  }

  lemma NewReceiptContent(db: Db, acks: seq<Ack>, now: Time, marked: Db, final: Db, id: nat)
    requires Settled(db, acks, now, final) && marked == db.(objects := final.objects)
    requires id in NewlyAcked(db, final) && Archivable(marked, id)
    ensures var k, o := KeyOf(id, marked.objects[id]), marked.objects[id];
      && k in final.receipts && k == KeyOf(id, db.objects[id])
      && final.receipts[k] == ReceiptOf(marked.batches[o.granule.batch], o)
  {
  }

  lemma MapsMeet<K, V>(before: map<K, V>, added: map<K, V>, after: map<K, V>)
    requires forall k | k in before :: k in after && after[k] == before[k]
    requires forall k | k in added :: k in after && after[k] == added[k]
    requires forall k | k in after :: k in before || k in added
    ensures before + added == after
  {
  }

  /** Facts about one row that make the batch's one archive agree with the ledger already settled. */
  ghost predicate FreshFits(db: Db, acks: seq<Ack>, marked: Db, final: Db, id: nat)
    requires id in db.objects && marked.objects.Keys == db.objects.Keys
  {
    && (Archivable(marked, id) <==> id in NewlyAcked(db, final))
    && KeyOf(id, marked.objects[id]) == KeyOf(id, db.objects[id])
    && (Archivable(marked, id) ==>
         var k, o := KeyOf(id, marked.objects[id]), marked.objects[id];
         && id in Named(acks) && db.objects[id].granule in Touched(db.objects, acks)
         && k in final.receipts && final.receipts[k] == ReceiptOf(marked.batches[o.granule.batch], o))
  }

  lemma RowFreshFits(db: Db, acks: seq<Ack>, now: Time, marked: Db, final: Db, id: nat)
    requires References(db) && Receipted(db) && id in db.objects && Settled(db, acks, now, final)
    requires marked == db.(objects := final.objects)
    ensures FreshFits(db, acks, marked, final, id)
  {
    ArchivableIsNew(db, acks, now, marked, final, id);
    if Archivable(marked, id) {
      NewReceiptContent(db, acks, now, marked, final, id);
    }
  }

  lemma FreshReceiptsFit(db: Db, acks: seq<Ack>, marked: Db, final: Db)
    requires Records(db, final) && marked == db.(objects := final.objects)
    requires forall id | id in db.objects :: FreshFits(db, acks, marked, final, id)
    ensures db.receipts + FreshReceipts(marked, Named(acks)) == final.receipts
    ensures Touched(db.objects, acks) == {} ==> final.receipts == db.receipts
  {
    var added := FreshReceipts(marked, Named(acks));
    forall k | k in added ensures k in final.receipts && final.receipts[k] == added[k] {
      var id :| id in Named(acks) && Archivable(marked, id) && k == KeyOf(id, marked.objects[id]);
      assert FreshFits(db, acks, marked, final, id);
    }
    forall k | k in final.receipts ensures k in db.receipts || k in added {
      if k !in db.receipts {
        var id :| id in NewlyAcked(db, final) && k == KeyOf(id, db.objects[id]);
        assert FreshFits(db, acks, marked, final, id);
      }
    }
    MapsMeet(db.receipts, added, final.receipts);
    if Touched(db.objects, acks) == {} {
      NothingNew(db, acks, marked, final);
    }
  }

  lemma NothingNew(db: Db, acks: seq<Ack>, marked: Db, final: Db)
    requires Records(db, final) && marked == db.(objects := final.objects) && Touched(db.objects, acks) == {}
    requires forall id | id in db.objects :: FreshFits(db, acks, marked, final, id)
    ensures final.receipts == db.receipts
  {
  }

  /** Archiving once, over every object the batch names, adds the receipts of the rows acked one by one. */
  lemma BatchReceipts(db: Db, acks: seq<Ack>, now: Time, final: Db)
    requires References(db) && Receipted(db) && Settled(db, acks, now, final)
    ensures Archive(db.(objects := final.objects), Named(acks)).receipts == final.receipts
    ensures Touched(db.objects, acks) == {} ==> final.receipts == db.receipts
  {
    var marked := db.(objects := final.objects);
    forall id | id in db.objects ensures FreshFits(db, acks, marked, final, id) {
      RowFreshFits(db, acks, now, marked, final, id);
    }
    FreshReceiptsFit(db, acks, marked, final);
  }

  /** The batch endpoint leaves exactly the database that acknowledging one by one leaves. */
  lemma AckBatchIsOneByOne(db: Db, acks: seq<Ack>, now: Time)
    requires Inv(db)
    ensures AckBatch(db, acks, now) == AckAll(db, acks, now)
  {
    AckAllSettles(db, acks, now);
    AckBatchSettled(db, acks, now, AckAll(db, acks, now));
  }

  lemma AckBatchSettled(db: Db, acks: seq<Ack>, now: Time, final: Db)
    requires References(db) && Receipted(db) && Settled(db, acks, now, final)
    ensures AckBatch(db, acks, now) == final
  {
    BatchReceipts(db, acks, now, final);
    BatchTables(db, acks, now, final);
  }

  lemma BatchTables(db: Db, acks: seq<Ack>, now: Time, final: Db)
    requires final.objects == MarkAll(db.objects, acks, now)
    requires PromotedTables(db, final.objects, Touched(db.objects, acks), now, final)
    ensures AckBatch(db, acks, now).granules == final.granules && AckBatch(db, acks, now).stages == final.stages
  {
    var marked := db.(objects := final.objects);
    var touched := Touched(db.objects, acks);
    if touched == {} {
      assert PromotedTables(db, final.objects, touched, now, marked);
      TablesDetermined(db, final.objects, touched, now, marked, final);
    } else {
      var archived := Archive(marked, Named(acks));
      PromoteTables(archived, final.objects, touched, now);
      SameBase(db, archived, final.objects, touched, now, Promote(archived, touched, now));
      TablesDetermined(db, final.objects, touched, now, Promote(archived, touched, now), final);
    }
  }

  lemma SameBase(db: Db, base: Db, m: map<nat, ObjectRow>, touched: set<Gid>, now: Time, p: Db)
    requires base.granules == db.granules && base.stages == db.stages
    requires PromotedTables(base, m, touched, now, p)
    ensures PromotedTables(db, m, touched, now, p)
  {
    forall x ensures TablesAt(db, p, x, Promotes(db, m, touched, x), now) {
      assert TablesAt(base, p, x, Promotes(base, m, touched, x), now);
    }
  }

  // ----- bulk statements against the transition function ------------------------------------

  /** The lifecycle event a bulk statement stands for; renewals and releases stand for none. */
  function EventOf(op: Bulk): (e: Option<Event>) {
    match op
    case Claim(w, now) => Some(ClaimByLease(w, now + LEASE_DURATION))
    case Revoke(_, _) => Some(RevokedByOperator)
    case Cancel(_) => Some(CancelGranule)
    case Retry(_) => Some(RetryGranule)
    case _ => None
  }

  function TimeOf(op: Bulk): (now: Time) {
    match op
    case Claim(_, now) => now
    case Renew(_, now) => now
    case Reclaim(_, now) => now
    case SweepExpired(now) => now
    case Revoke(_, now) => now
    case Cancel(now) => now
    case Retry(now) => now
  }

  /** A transition that writes only columns. */
  predicate RowOnly(r: TransitionResult) {
    r.stageRows == [] && r.newObjects == [] && r.objectsDeletedAt.None?
  }

  lemma RowOnlyMaterialise(db: Db, gid: Gid, r: TransitionResult, now: Time)
    requires gid in db.granules && RowOnly(r)
    ensures Materialise(db, gid, r, now) == db.(granules := db.granules[gid := Patched(db.granules[gid], r)])
  {
  }

  lemma BulkRowIsTheTransition(cfg: Config, db: Db, op: Bulk, gid: Gid)
    requires gid in db.granules && EventOf(op).Some? && Selects(db, op, gid)
    ensures var o := OutcomeFor(cfg, db, gid, EventOf(op).value, TimeOf(op));
      o.Accepted? && RowOnly(o.result) && Written(op, db.granules[gid]) == Patched(db.granules[gid], o.result)
  {
  }

  /**
   What a bulk statement writes into a row it selects is what the transition function decides for that row:
   same columns, same values, no stage row, no object.
   */
  lemma BulkIsTheTransition(cfg: Config, db: Db, op: Bulk, gid: Gid)
    requires gid in db.granules && EventOf(op).Some? && Selects(db, op, gid)
    ensures BulkUpdate(db, {gid}, op) == ApplyTransition(cfg, db, gid, EventOf(op).value, TimeOf(op))
    ensures OutcomeFor(cfg, db, gid, EventOf(op).value, TimeOf(op)).Accepted?
  {
    BulkRowIsTheTransition(cfg, db, op, gid);
    RowOnlyMaterialise(db, gid, OutcomeFor(cfg, db, gid, EventOf(op).value, TimeOf(op)).result, TimeOf(op));
    BulkOneRow(db, op, gid);
  }

  lemma BulkOneRow(db: Db, op: Bulk, gid: Gid)
    requires gid in db.granules && Selects(db, op, gid)
    ensures BulkUpdate(db, {gid}, op) == db.(granules := db.granules[gid := Written(op, db.granules[gid])])
  {
  }

  lemma OneTiming(row: StageRow)
    ensures TimingsOf([row]) == multiset{TimingOf(row)}
  {
  }

  lemma AckedTransition(g: Granule, now: Time, maxRetries: nat)
    requires g.state == Uploaded
    ensures var o := Apply(SnapshotOf(g), ObjectAcked, now, maxRetries);
      && o.Accepted? && o.result.newObjects == [] && o.result.objectsDeletedAt.None?
      && o.result.stageRows == [StageRow(Deliver, g.updatedAt, now)]
      && Patched(g, o.result) == PromotedGranule(g, now)
  {
  }

  lemma StagedMaterialise(db: Db, gid: Gid, r: TransitionResult, now: Time, row: StageRow)
    requires gid in db.granules && r.stageRows == [row] && r.newObjects == [] && r.objectsDeletedAt.None?
    ensures Materialise(db, gid, r, now) == db.(
      granules := db.granules[gid := Patched(db.granules[gid], r)],
      stages := db.stages[gid := StagesOf(db.stages, gid) + multiset{TimingOf(row)}])
  {
    OneTiming(row);
    assert Materialise(db, gid, r, now).objects == db.objects;
  }

  /** Promotion is the object-acked transition, and happens exactly when that transition is accepted. */
  lemma PromotionIsTheTransition(cfg: Config, db: Db, gid: Gid, now: Time)
    requires gid in db.granules && AllAcked(db.objects, gid)
    ensures Promote(db, {gid}, now) == ApplyTransition(cfg, db, gid, ObjectAcked, now)
    ensures OutcomeFor(cfg, db, gid, ObjectAcked, now).Accepted? <==> db.granules[gid].state == Uploaded
  {
    if db.granules[gid].state == Uploaded {
      var g := db.granules[gid];
      AckedTransition(g, now, cfg.maxRetries);
      StagedMaterialise(db, gid, OutcomeFor(cfg, db, gid, ObjectAcked, now).result, now, StageRow(Deliver, g.updatedAt, now));
      PromoteUploaded(db, gid, now);
    } else {
      assert Promote(db, {gid}, now).granules == db.granules;
      assert Promote(db, {gid}, now).stages == db.stages;
    }
  }

  lemma PromoteUploaded(db: Db, gid: Gid, now: Time)
    requires Promotable(db, gid)
    ensures Promote(db, {gid}, now) == db.(
      granules := db.granules[gid := PromotedGranule(db.granules[gid], now)],
      stages := db.stages[gid := StagesOf(db.stages, gid) + multiset{DeliverTiming(db.granules[gid], now)}])
  {
    var g := db.granules[gid];
    var q := db.(granules := db.granules[gid := PromotedGranule(g, now)],
                 stages := db.stages[gid := StagesOf(db.stages, gid) + multiset{DeliverTiming(g, now)}]);
    forall x ensures TablesAt(db, q, x, Promotes(db, db.objects, {gid}, x), now) {
      if x != gid {
        assert !Promotes(db, db.objects, {gid}, x);
      }
    }
    PromoteTables(db, db.objects, {gid}, now);
    TablesDetermined(db, db.objects, {gid}, now, q, Promote(db, {gid}, now));
  }

  lemma RequeuedTransition(g: Granule, now: Time, maxRetries: nat)
    requires g.state == Uploaded
    ensures var o := Apply(SnapshotOf(g), RequeueGranule, now, maxRetries);
      o.Accepted? && RowOnly(o.result) && Patched(g, o.result) == RequeuedGranule(g, now)
  {
  }

  /** Requeueing a granule is the requeue transition, plus dropping the rows of its dead objects. */
  lemma RequeueIsTheTransition(cfg: Config, db: Db, gid: Gid, now: Time)
    requires Undeliverable(cfg, db, gid)
    ensures Requeue(cfg, db, {gid}, now) ==
      DropObjects(ApplyTransition(cfg, db, gid, RequeueGranule, now), set id | id in db.objects && db.objects[id].granule == gid)
  {
    RequeuedTransition(db.granules[gid], now, cfg.maxRetries);
    RowOnlyMaterialise(db, gid, OutcomeFor(cfg, db, gid, RequeueGranule, now).result, now);
    RequeueOneRow(cfg, db, gid, now);
  }

  lemma RequeueOneRow(cfg: Config, db: Db, gid: Gid, now: Time)
    requires Undeliverable(cfg, db, gid)
    ensures Requeue(cfg, db, {gid}, now) == DropObjects(
      db.(granules := db.granules[gid := RequeuedGranule(db.granules[gid], now)]),
      set id | id in db.objects && db.objects[id].granule == gid)
  {
  }
}
