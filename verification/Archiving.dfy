/** Archiving and reaping piece by piece gives what one pass over everything gives. */
module Archiving {
  import opened Basics
  import opened StateMachine
  import opened Store
  import opened Protocol

  /** The receipt's key names its object, so membership needs no search. */
  lemma FreshAt(db: Db, ids: set<nat>, k: ReceiptKey)
    ensures k in FreshReceipts(db, ids) <==>
      (k.objectId in ids && Archivable(db, k.objectId) && k == KeyOf(k.objectId, db.objects[k.objectId]))
    ensures k in FreshReceipts(db, ids) ==>
      FreshReceipts(db, ids)[k] == ReceiptOf(db.batches[k.granule.batch], db.objects[k.objectId])
  {
  }

  lemma ArchivableAfter(db: Db, done: set<nat>, id: nat)
    ensures Archivable(Archive(db, done), id) <==> Archivable(db, id) && id !in done
  {
  }

  /** Rows with nothing to archive do not matter. */
  lemma ArchiveMore(db: Db, a: set<nat>, b: set<nat>)
    requires a <= b && forall id | id in b && id !in a :: !Archivable(db, id)
    ensures Archive(db, a) == Archive(db, b)
  {
    assert FreshReceipts(db, a) == FreshReceipts(db, b) by {
      forall k ensures k in FreshReceipts(db, a) <==> k in FreshReceipts(db, b)
      {
        FreshAt(db, a, k);
        FreshAt(db, b, k);
      }
    }
  }

  lemma MapUnion<K(!new), V>(p: map<K, V>, q: map<K, V>, all: map<K, V>)
    requires forall k :: k in all <==> k in p || k in q
    requires forall k | k in all :: (k in p ==> all[k] == p[k] && k !in q) && (k in q ==> all[k] == q[k])
    ensures all == p + q
  {
  }

  lemma FreshNext(db: Db, a: set<nat>, id: nat)
    requires Archivable(db, id)
    ensures var o := db.objects[id];
      FreshReceipts(db, a + {id}) == FreshReceipts(db, a)[KeyOf(id, o) := ReceiptOf(db.batches[o.granule.batch], o)]
  {
  }

  lemma ArchiveAdd(db: Db, a: set<nat>, id: nat)
    requires Archivable(db, id)
    ensures var o := db.objects[id];
      Archive(db, a + {id}) == Archive(db, a).(
        receipts := Archive(db, a).receipts[KeyOf(id, o) := ReceiptOf(db.batches[o.granule.batch], o)])
  {
    FreshNext(db, a, id);
    MapAddLast(db.receipts, FreshReceipts(db, a), KeyOf(id, db.objects[id]),
               ReceiptOf(db.batches[db.objects[id].granule.batch], db.objects[id]));
  }

  lemma MapAddLast<K, V>(base: map<K, V>, p: map<K, V>, at: K, v: V)
    ensures base + p[at := v] == (base + p)[at := v]
  {
  }

  lemma ReapedFreshAt(db: Db, a: set<Gid>, b: set<Gid>, k: ReceiptKey)
    ensures var mid := Reap(db, a);
      var one, two, both := FreshReceipts(db, ObjectsOf(db, a)), FreshReceipts(mid, ObjectsOf(mid, b)), FreshReceipts(db, ObjectsOf(db, a + b));
      && (k in both <==> k in one || k in two)
      && (k in two ==> k !in one && both[k] == two[k])
      && (k in one ==> both[k] == one[k])
  {
    var mid := Reap(db, a);
    FreshAt(db, ObjectsOf(db, a), k);
    FreshAt(mid, ObjectsOf(mid, b), k);
    FreshAt(db, ObjectsOf(db, a + b), k);
    ReapedArchivable(db, a, k.objectId);
  }

  lemma ReapReceipts(db: Db, a: set<Gid>, b: set<Gid>)
    ensures Reap(Reap(db, a), b).receipts == Reap(db, a + b).receipts
  {
    var mid := Reap(db, a);
    var one, two := FreshReceipts(db, ObjectsOf(db, a)), FreshReceipts(mid, ObjectsOf(mid, b));
    var both := FreshReceipts(db, ObjectsOf(db, a + b));
    forall k ensures k in both <==> k in one || k in two
      ensures k in two ==> k !in one && both[k] == two[k]
      ensures k in one ==> both[k] == one[k]
    {
      ReapedFreshAt(db, a, b, k);
    }
    MapUnion(one, two, both);
    ReceiptsAfterReap(db, a);
    ReceiptsAfterReap(mid, b);
    ReceiptsAfterReap(db, a + b);
    MapsAssociate(db.receipts, one, two);
  }

  lemma ReceiptsAfterReap(db: Db, a: set<Gid>)
    ensures Reap(db, a).receipts == db.receipts + FreshReceipts(db, ObjectsOf(db, a))
  {
  }

  lemma MapsAssociate<K, V>(a: map<K, V>, b: map<K, V>, c: map<K, V>)
    ensures (a + b) + c == a + (b + c)
  {
  }

  lemma ReapedArchivable(db: Db, a: set<Gid>, id: nat)
    ensures Archivable(Reap(db, a), id) <==> Archivable(db, id) && db.objects[id].granule !in a
    ensures id in Reap(db, a).objects ==> id in db.objects && Reap(db, a).objects[id] == db.objects[id]
  {
  }

  lemma WithoutTwice<V>(rows: map<Gid, V>, a: set<Gid>, b: set<Gid>)
    ensures Without(Without(rows, a), b) == Without(rows, a + b)
  {
  }

  lemma OutsideTwice(objects: map<nat, ObjectRow>, a: set<Gid>, b: set<Gid>)
    ensures ObjectsOutside(ObjectsOutside(objects, a), b) == ObjectsOutside(objects, a + b)
  {
  }

  /** Reaping chunk after chunk is reaping all at once. */
  lemma ReapInChunks(db: Db, a: set<Gid>, b: set<Gid>)
    ensures Reap(Reap(db, a), b) == Reap(db, a + b)
  {
    ReapReceipts(db, a, b);
    OutsideTwice(db.objects, a, b);
    WithoutTwice(db.granules, a, b);
    WithoutTwice(db.stages, a, b);
  }

  lemma WithoutNone<V>(rows: map<Gid, V>)
    ensures Without(rows, {}) == rows
  {
  }

  lemma OutsideNone(objects: map<nat, ObjectRow>)
    ensures ObjectsOutside(objects, {}) == objects
  {
  }

  lemma ArchiveNone(db: Db)
    ensures Archive(db, {}) == db
  {
    assert FreshReceipts(db, {}).Keys == {};
    assert db.receipts + FreshReceipts(db, {}) == db.receipts;
  }

  lemma ReapNothing(db: Db)
    ensures Reap(db, {}) == db
  {
    assert ObjectsOf(db, {}) == {};
    ArchiveNone(db);
    OutsideNone(db.objects);
    WithoutNone(db.granules);
    WithoutNone(db.stages);
  }
}
