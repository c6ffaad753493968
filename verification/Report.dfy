/**
 The delivery report: two bounded keyset scans, a page per connection, while acknowledgements and uploads go on.
 The first lists retained objects without a receipt at the start, the second the receipts present at the start.
 */
module Report {
  import opened Basics
  import opened StateMachine
  import opened Store
  import opened Protocol
  import opened Preservation
  import opened Ledger
  import opened Keyset

  /** What one query sees: the database, with its ledger rows numbered in order of insertion. */
  datatype Seen = Seen(db: Db, number: map<ReceiptKey, nat>)

  ghost predicate Numbered(s: Seen) {
    && s.number.Keys == s.db.receipts.Keys
    && (forall k | k in s.number :: s.number[k] > 0)
    && (forall k, l | k in s.number && l in s.number && s.number[k] == s.number[l] :: k == l)
  }

  predicate SameFacts(o: ObjectRow, o': ObjectRow) {
    && o'.granule == o.granule && o'.uploadedAt == o.uploadedAt && o'.objectKey == o.objectKey
    && o'.sha256 == o.sha256 && o'.size == o.size
  }

  /** No object row is removed, new ids are above all old ones, and receipts only accumulate. */
  ghost predicate Grows(db: Db, db': Db) {
    && (forall id | id in db.objects :: id in db'.objects && SameFacts(db.objects[id], db'.objects[id]))
    && db.nextObjectId <= db'.nextObjectId
    && (forall id | id in db'.objects && id !in db.objects :: id >= db.nextObjectId)
    && Extends(db, db')
  }

  /** Time passes between two queries: the tables grow, and new receipts are numbered above the old ones. */
  ghost predicate Later(s: Seen, s': Seen) {
    && Grows(s.db, s'.db)
    && (forall k | k in s.number :: k in s'.number && s'.number[k] == s.number[k])
    && (forall k, l | k in s.number && l in s'.number && l !in s.number :: s'.number[l] > s.number[k])
  }

  ghost predicate Evolves(world: nat -> Seen) {
    && (forall t: nat :: Numbered(world(t)) && References(world(t).db))
    && (forall t: nat :: Later(world(t), world(t + 1)))
  }

  lemma {:induction false} LaterOn(world: nat -> Seen, s: nat, t: nat)
    requires Evolves(world) && s <= t
    ensures Later(world(s), world(t))
  {
    if s < t {
      LaterOn(world, s, t - 1);
      assert Later(world(t - 1), world(t - 1 + 1));
    }
  }

  // ----- the protocol's steps grow the tables unless they remove rows -----------------------

  predicate Removes(step: Step) {
    step.RetainStep? || step.RemoveBatchStep? || step.RequeueStep? || step.ReuseIdsStep?
  }

  lemma MaterialiseGrows(db: Db, gid: Gid, r: TransitionResult, now: Time)
    requires gid in db.granules && r.objectsDeletedAt.None? && forall id | id in db.objects :: id < db.nextObjectId
    ensures Grows(db, Materialise(db, gid, r, now))
  {
  }

  lemma FlipGrows(db: Db, gid: Gid, at: Time)
    ensures Grows(db, FlipDeleted(db, gid, at))
  {
  }

  lemma EmitGrows(cfg: Config, db: Db, ev: WireEvent, now: Time)
    requires References(db)
    ensures Grows(db, Emit(cfg, db, ev, now))
  {
    if ev.report.DeleteConfirmed? {
      EmitDeletion(cfg, db, ev, now);
      FlipGrows(db, ev.granule, now);
    } else if !Missed(db, ev) && OutcomeFor(cfg, db, ev.granule, FromWorker(ev.workerId, ev.report), now).Accepted? {
      ReportMoves(SnapshotOf(db.granules[ev.granule]), ev.workerId, ev.report, now, cfg.maxRetries);
      MaterialiseGrows(db, ev.granule, OutcomeFor(cfg, db, ev.granule, FromWorker(ev.workerId, ev.report), now).result, now);
    }
  }

  lemma GrowsChain(a: Db, b: Db, c: Db)
    requires Grows(a, b) && Grows(b, c)
    ensures Grows(a, c)
  {
  }

  lemma {:induction false} EmitAllGrows(cfg: Config, db: Db, evs: seq<WireEvent>, now: Time)
    requires Inv(db) && FreshUpload(db, now)
    ensures Grows(db, EmitAll(cfg, db, evs, now))
  {
    if evs != [] {
      var mid := EmitAll(cfg, db, Init(evs), now);
      EmitAllGrows(cfg, db, Init(evs), now);
      EmitAllKeepsInv(cfg, db, Init(evs), now);
      EmitGrows(cfg, mid, Last(evs), now);
      GrowsChain(db, mid, EmitAll(cfg, db, evs, now));
    }
  }

  lemma AckObjectsFacts(objects: map<nat, ObjectRow>, a: Ack, now: Time)
    ensures var objects' := AckObjects(objects, a, now);
      && objects'.Keys == objects.Keys
      && forall id | id in objects :: SameFacts(objects[id], objects'[id])
  {
  }

  lemma AckOneGrows(db: Db, a: Ack, now: Time)
    requires Inv(db)
    ensures Grows(db, AckOne(db, a, now))
  {
    AckOneRecords(db, a, now);
    AckObjectsFacts(db.objects, a, now);
    assert AckOne(db, a, now).objects == AckObjects(db.objects, a, now);
  }

  lemma {:induction false} AckAllGrows(db: Db, acks: seq<Ack>, now: Time)
    requires Inv(db)
    ensures Grows(db, AckAll(db, acks, now))
  {
    if acks != [] {
      var mid := AckAll(db, Init(acks), now);
      AckAllGrows(db, Init(acks), now);
      AckAllKeepsInv(db, Init(acks), now);
      AckOneGrows(mid, Last(acks), now);
      GrowsChain(db, mid, AckAll(db, acks, now));
    }
  }

  lemma LeaseStepGrows(cfg: Config, db: Db, step: Step)
    requires step.ClaimStep? || step.BulkStep? || step.ForceRemoveStep?
    ensures Grows(db, Next(cfg, db, step))
  {
  }

  lemma PullStepGrows(cfg: Config, db: Db, step: Step)
    requires step.PullStep? || step.ResetPullsStep?
    ensures Grows(db, Next(cfg, db, step))
  {
  }

  lemma RegistryStepGrows(cfg: Config, db: Db, step: Step)
    requires step.CreateBatchStep? || step.AddStep? || step.SetPausedStep? || step.RegistryStep?
    ensures Grows(db, Next(cfg, db, step))
  {
  }

  /** Every step but the removals lets an export go on. */
  lemma StepGrows(cfg: Config, db: Db, step: Step)
    requires Inv(db) && Enabled(cfg, db, step) && !Removes(step)
    ensures Grows(db, Next(cfg, db, step))
  {
    if step.EmitStep? {
      EmitGrows(cfg, db, step.event, step.now);
    } else if step.EmitBatchStep? {
      EmitAllGrows(cfg, db, step.events, step.now);
    } else if step.FlipStep? {
      FlipGrows(db, step.flipped, step.now);
    } else if step.AckStep? {
      AckOneGrows(db, step.ack, step.now);
    } else if step.AckBatchStep? {
      AckAllGrows(db, step.acks, step.now);
    } else if step.ClaimStep? || step.BulkStep? || step.ForceRemoveStep? {
      LeaseStepGrows(cfg, db, step);
    } else if step.PullStep? || step.ResetPullsStep? {
      PullStepGrows(cfg, db, step);
    } else {
      RegistryStepGrows(cfg, db, step);
    }
  }

  // ----- the two scans ----------------------------------------------------------------------

  function BatchObjects(s: Seen, b: BatchId): (ids: set<nat>) {
    set id | id in s.db.objects && s.db.objects[id].granule.batch == b
  }

  function BatchReceipts(s: Seen, b: BatchId): (keys: set<ReceiptKey>) {
    set k | k in s.number && k.granule.batch == b
  }

  /** The ledger row that records this object, if it is numbered up to the bound. */
  predicate Recorded(s: Seen, id: nat, bound: nat)
    requires id in s.db.objects
  {
    var k := KeyOf(id, s.db.objects[id]);
    k in s.number && s.number[k] <= bound
  }

  function Unrecorded(s: Seen, b: BatchId, upper: nat, bound: nat): (ids: set<nat>) {
    set id | id in s.db.objects && s.db.objects[id].granule.batch == b && id <= upper && !Recorded(s, id, bound)
  }

  function Numbers(s: Seen, b: BatchId, bound: nat): (ns: set<nat>) {
    set k | k in BatchReceipts(s, b) && s.number[k] <= bound :: s.number[k]
  }

  function AllNumbers(s: Seen, b: BatchId): (ns: set<nat>)
    ensures forall k | k in BatchReceipts(s, b) :: s.number[k] in ns
  {
    set k | k in BatchReceipts(s, b) :: s.number[k]
  }

  /** The largest of a set of ids, or zero: `MAX(id)` with its default. */
  method MaxOf(ids: set<nat>) returns (top: nat)
    ensures forall id | id in ids :: id <= top
    ensures top == 0 || top in ids
  {
    top := 0;
    var rest := ids;
    while rest != {}
      invariant rest <= ids && (top == 0 || top in ids)
      invariant forall id | id in ids && id !in rest :: id <= top
      decreases |rest|
    {
      var id :| id in rest;
      rest := rest - {id};
      top := Max(top, id);
    }
  }

  /** `upper` and `bound` are what the report reads first: the largest object id, then the largest receipt number. */
  ghost predicate Bounded(world: nat -> Seen, b: BatchId, upper: nat, bound: nat) {
    && (forall id | id in BatchObjects(world(0), b) :: id <= upper)
    && (upper == 0 || upper in BatchObjects(world(0), b))
    && (forall k | k in BatchReceipts(world(1), b) :: world(1).number[k] <= bound)
    && (bound == 0 || exists k :: k in BatchReceipts(world(1), b) && world(1).number[k] == bound)
  }

  /** The objects of the batch present at the start whose receipt did not exist when the ledger's bound was read. */
  ghost function Pending(world: nat -> Seen, b: BatchId): (ids: set<nat>) {
    set id | id in BatchObjects(world(0), b) && KeyOf(id, world(0).db.objects[id]) !in world(1).number
  }

  lemma RecordedMeansEarly(world: nat -> Seen, b: BatchId, upper: nat, bound: nat, t: nat, k: ReceiptKey)
    requires Evolves(world) && Bounded(world, b, upper, bound) && t >= 1 && k.granule.batch == b
    ensures k in world(t).number && world(t).number[k] <= bound <==> k in world(1).number
    ensures k in world(1).number ==> k in world(t).number && world(t).number[k] == world(1).number[k]
  {
    LaterOn(world, 1, t);
  }

  /** Whichever state of the tables a page is read from, the same objects are due. */
  lemma SameDueObjects(world: nat -> Seen, b: BatchId, upper: nat, bound: nat, t: nat)
    requires Evolves(world) && Bounded(world, b, upper, bound) && t >= 1
    ensures Unrecorded(world(t), b, upper, bound) == Pending(world, b)
    ensures forall id | id in Pending(world, b) :: SameFacts(world(0).db.objects[id], world(t).db.objects[id])
  {
    LaterOn(world, 0, t);
    forall id ensures id in Unrecorded(world(t), b, upper, bound) <==> id in Pending(world, b) {
      DueObject(world, b, upper, bound, t, id);
    }
  }

  /** Objects present at the start are kept; later ones are above the bound. */
  lemma ObjectsKept(s: Seen, s': Seen, upper: nat, id: nat)
    requires Grows(s.db, s'.db) && References(s.db) && (upper == 0 || upper in s.db.objects)
    ensures id in s.db.objects ==> id in s'.db.objects && SameFacts(s.db.objects[id], s'.db.objects[id])
    ensures id in s'.db.objects && id <= upper && upper > 0 ==> id in s.db.objects
  {
  }

  lemma DueObject(world: nat -> Seen, b: BatchId, upper: nat, bound: nat, t: nat, id: nat)
    requires Evolves(world) && Bounded(world, b, upper, bound) && t >= 1 && Grows(world(0).db, world(t).db)
    ensures id in Unrecorded(world(t), b, upper, bound) <==> id in Pending(world, b)
  {
    ObjectsKept(world(0), world(t), upper, id);
    assert References(world(t).db);
    if id in world(t).db.objects && world(t).db.objects[id].granule.batch == b {
      RecordedMeansEarly(world, b, upper, bound, t, KeyOf(id, world(t).db.objects[id]));
    }
  }

  /** The batch's receipts at the start are kept, with their numbers. */
  ghost predicate ReceiptsKept(s: Seen, s': Seen, b: BatchId) {
    forall k | k in BatchReceipts(s, b) ::
      && k in s'.number && s'.number[k] == s.number[k]
      && k in s.db.receipts && k in s'.db.receipts && s'.db.receipts[k] == s.db.receipts[k]
  }

  lemma LaterKeepsReceipts(s: Seen, s': Seen, b: BatchId)
    requires Numbered(s) && Later(s, s')
    ensures ReceiptsKept(s, s', b)
  {
  }

  /** Whichever state of the ledger a page is read from, the same receipts are due. */
  lemma SameDueReceipts(world: nat -> Seen, b: BatchId, upper: nat, bound: nat, t: nat)
    requires Evolves(world) && Bounded(world, b, upper, bound) && t >= 1
    ensures Numbers(world(t), b, bound) == AllNumbers(world(1), b)
    ensures ReceiptsKept(world(1), world(t), b)
  {
    forall k: ReceiptKey | k.granule.batch == b
      ensures k in world(t).number && world(t).number[k] <= bound <==> k in world(1).number
      ensures k in world(1).number ==> k in world(t).number && world(t).number[k] == world(1).number[k]
    {
      RecordedMeansEarly(world, b, upper, bound, t, k);
    }
    SameNumbers(world(1), world(t), b, bound);
    LaterOn(world, 1, t);
    LaterKeepsReceipts(world(1), world(t), b);
  }

  lemma SameNumbers(s: Seen, s': Seen, b: BatchId, bound: nat)
    requires forall k: ReceiptKey | k.granule.batch == b ::
      && (k in s'.number && s'.number[k] <= bound <==> k in s.number)
      && (k in s.number ==> k in s'.number && s'.number[k] == s.number[k])
    ensures Numbers(s', b, bound) == AllNumbers(s, b)
  {
  }

  datatype ObjectLine = ObjectLine(id: nat, row: ObjectRow)
  datatype ReceiptLine = ReceiptLine(number: nat, key: ReceiptKey, receipt: Receipt)

  function Ids(lines: seq<ObjectLine>): (ids: seq<nat>) {
    seq(|lines|, i requires 0 <= i < |lines| => lines[i].id)
  }

  function NumbersOf(lines: seq<ReceiptLine>): (ns: seq<nat>) {
    seq(|lines|, i requires 0 <= i < |lines| => lines[i].number)
  }

  /** The first section so far: everything pending up to `after`, each once, with its facts. */
  ghost predicate ObjectsListed(world: nat -> Seen, b: BatchId, after: nat, lines: seq<ObjectLine>) {
    && Ascending(Ids(lines))
    && (forall i | 0 <= i < |lines| ::
          lines[i].id <= after && lines[i].id in Pending(world, b)
          && SameFacts(world(0).db.objects[lines[i].id], lines[i].row))
    && (forall id | id in Pending(world, b) && id <= after :: id in Ids(lines))
  }

  /** The second section so far: the batch's receipts numbered up to `after`, each once, as they were. */
  ghost predicate ReceiptsListed(world: nat -> Seen, b: BatchId, after: nat, lines: seq<ReceiptLine>) {
    && Ascending(NumbersOf(lines)) && Describe(world(1), b, lines)
    && (forall i | 0 <= i < |lines| :: lines[i].number <= after)
    && (forall k | k in BatchReceipts(world(1), b) && world(1).number[k] <= after :: world(1).number[k] in NumbersOf(lines))
  }

  /** The first scan. */
  method ScanObjects(world: nat -> Seen, b: BatchId, upper: nat, bound: nat, chunk: nat, start: nat)
    returns (lines: seq<ObjectLine>, t: nat)
    requires Evolves(world) && Bounded(world, b, upper, bound) && chunk > 0 && start >= 1
    ensures ObjectsListed(world, b, upper, lines) && t >= start
  {
    t, lines := start, [];
    var after: nat := 0;
    PendingPositive(world, b);
    while after < upper
      invariant t >= start && after <= upper && ObjectsListed(world, b, after, lines)
      decreases upper - after
    {
      SameDueObjects(world, b, upper, bound, t);
      var due := Unrecorded(world(t), b, upper, bound);
      var page := FetchPage(due, after, chunk);
      if page == [] {
        EmptyPage(due, after, chunk);
        break;
      }
      ObjectsListedMore(world, b, after, lines, due, page, chunk, t);
      lines := lines + ObjectLines(world(t), page);
      after := Last(page);
      t := t + 1;
    }
  }

  function ObjectLines(s: Seen, page: seq<nat>): (lines: seq<ObjectLine>)
    requires forall i | 0 <= i < |page| :: page[i] in s.db.objects
  {
    seq(|page|, i requires 0 <= i < |page| => ObjectLine(page[i], s.db.objects[page[i]]))
  }

  lemma PendingPositive(world: nat -> Seen, b: BatchId)
    requires Evolves(world)
    ensures forall id | id in Pending(world, b) :: id > 0
    ensures ObjectsListed(world, b, 0, [])
  {
  }

  lemma ObjectsListedMore(world: nat -> Seen, b: BatchId, after: nat, lines: seq<ObjectLine>, due: set<nat>,
                          page: seq<nat>, chunk: nat, t: nat)
    requires ObjectsListed(world, b, after, lines) && due == Pending(world, b) && IsPage(due, after, chunk, page) && page != []
    requires forall id | id in due :: id in world(t).db.objects && SameFacts(world(0).db.objects[id], world(t).db.objects[id])
    ensures after < Last(page) && Last(page) in due
    ensures ObjectsListed(world, b, Last(page), lines + ObjectLines(world(t), page))
  {
    var more := lines + ObjectLines(world(t), page);
    assert Ids(more) == Ids(lines) + page;
    JoinAscending(Ids(lines), page, after);
    PageCovers(due, after, chunk, page, Last(page));
    forall i | 0 <= i < |more| ensures more[i].id <= Last(page) {
      if i >= |lines| {
        assert more[i].id in page;
        PageCovers(due, after, chunk, page, more[i].id);
      }
    }
    forall id | id in Pending(world, b) && id <= Last(page) ensures id in Ids(more) {
      if id > after {
        PageCovers(due, after, chunk, page, id);
      }
    }
  }

  lemma JoinAscending(xs: seq<nat>, ys: seq<nat>, mid: nat)
    requires Ascending(xs) && Ascending(ys)
    requires (forall i | 0 <= i < |xs| :: xs[i] <= mid) && (forall j | 0 <= j < |ys| :: ys[j] > mid)
    ensures Ascending(xs + ys)
  {
  }

  /** The second scan. */
  method ScanReceipts(world: nat -> Seen, b: BatchId, upper: nat, bound: nat, chunk: nat, start: nat)
    returns (lines: seq<ReceiptLine>)
    requires Evolves(world) && Bounded(world, b, upper, bound) && chunk > 0 && start >= 1
    ensures ReceiptsListed(world, b, bound, lines)
  {
    var t := start;
    lines := [];
    var after: nat := 0;
    NumbersPositive(world, b);
    while after < bound
      invariant t >= start && after <= bound && ReceiptsListed(world, b, after, lines)
      decreases bound - after
    {
      SameDueReceipts(world, b, upper, bound, t);
      var page := FetchPage(Numbers(world(t), b, bound), after, chunk);
      BoundIsDue(world, b, upper, bound, after, page, chunk);
      if page == [] {
        break;
      }
      LaterOn(world, 1, t);
      var more := ReceiptLines(world(t), b, page, world(1));
      ReceiptsListedMore(world, b, upper, bound, after, lines, page, more, chunk);
      lines := lines + more;
      after := Last(page);
      t := t + 1;
    }
  }

  /** The lines describe these receipts of an earlier state. */
  ghost predicate Describe(s: Seen, b: BatchId, lines: seq<ReceiptLine>) {
    forall i | 0 <= i < |lines| ::
      && lines[i].key in BatchReceipts(s, b) && s.number[lines[i].key] == lines[i].number
      && lines[i].key in s.db.receipts && lines[i].receipt == s.db.receipts[lines[i].key]
  }

  method ReceiptLines(s: Seen, b: BatchId, page: seq<nat>, ghost s0: Seen) returns (lines: seq<ReceiptLine>)
    requires Numbered(s) && ReceiptsKept(s0, s, b) && forall i | 0 <= i < |page| :: page[i] in AllNumbers(s0, b)
    ensures NumbersOf(lines) == page && Describe(s0, b, lines)
  {
    lines := [];
    var i := 0;
    while i < |page|
      invariant 0 <= i <= |page| && NumbersOf(lines) == page[..i] && Describe(s0, b, lines)
    {
      assert page[i] in AllNumbers(s0, b);
      ghost var was :| was in BatchReceipts(s0, b) && s0.number[was] == page[i];
      assert was in BatchReceipts(s, b) && s.number[was] == page[i];
      var k :| k in BatchReceipts(s, b) && s.number[k] == page[i];
      assert k == was;
      var line := ReceiptLine(page[i], k, s.db.receipts[k]);
      assert NumbersOf(lines + [line]) == NumbersOf(lines) + [page[i]];
      lines := lines + [line];
      i := i + 1;
    }
  }

  lemma NumbersPositive(world: nat -> Seen, b: BatchId)
    requires Evolves(world)
    ensures ReceiptsListed(world, b, 0, [])
  {
  }

  /** The receipt that set the bound is still due, so the scan never meets an empty page. */
  lemma BoundIsDue(world: nat -> Seen, b: BatchId, upper: nat, bound: nat, after: nat, page: seq<nat>, chunk: nat)
    requires Bounded(world, b, upper, bound) && after < bound && chunk > 0
    requires IsPage(AllNumbers(world(1), b), after, chunk, page)
    ensures page != []
  {
  }

  lemma ReceiptsListedMore(world: nat -> Seen, b: BatchId, upper: nat, bound: nat, after: nat, lines: seq<ReceiptLine>,
                           page: seq<nat>, more: seq<ReceiptLine>, chunk: nat)
    requires Bounded(world, b, upper, bound) && ReceiptsListed(world, b, after, lines) && page != []
    requires IsPage(AllNumbers(world(1), b), after, chunk, page) && NumbersOf(more) == page && Describe(world(1), b, more)
    ensures after < Last(page) <= bound
    ensures ReceiptsListed(world, b, Last(page), lines + more)
  {
    var due, all := AllNumbers(world(1), b), lines + more;
    assert NumbersOf(all) == NumbersOf(lines) + page;
    JoinAscending(NumbersOf(lines), page, after);
    PageCovers(due, after, chunk, page, Last(page));
    PageNumbersBelow(lines, more, page, due, after, chunk);
    DescribeJoined(world(1), b, lines, more);
    forall k | k in BatchReceipts(world(1), b) && world(1).number[k] <= Last(page)
      ensures world(1).number[k] in NumbersOf(all)
    {
      NumberOnPage(NumbersOf(lines), page, due, after, chunk, world(1).number[k]);
    }
  }

  lemma DescribeJoined(s: Seen, b: BatchId, lines: seq<ReceiptLine>, more: seq<ReceiptLine>)
    requires Describe(s, b, lines) && Describe(s, b, more)
    ensures Describe(s, b, lines + more)
  {
  }

  lemma PageNumbersBelow(lines: seq<ReceiptLine>, more: seq<ReceiptLine>, page: seq<nat>, due: set<nat>, after: nat, chunk: nat)
    requires NumbersOf(more) == page != [] && IsPage(due, after, chunk, page)
    requires forall i | 0 <= i < |lines| :: lines[i].number <= after
    ensures forall i | 0 <= i < |lines + more| :: (lines + more)[i].number <= Last(page)
  {
    PageCovers(due, after, chunk, page, Last(page));
    forall i | 0 <= i < |more| ensures more[i].number <= Last(page) {
      assert more[i].number == page[i];
      PageCovers(due, after, chunk, page, page[i]);
    }
  }

  lemma NumberOnPage(listed: seq<nat>, page: seq<nat>, due: set<nat>, after: nat, chunk: nat, n: nat)
    requires page != [] && IsPage(due, after, chunk, page) && n in due && n <= Last(page)
    requires n <= after ==> n in listed
    ensures n in listed + page
  {
  }

  /** GET /batches/{id}/delivery-report: query `t` sees `world(t)`. */
  method DeliveryReport(world: nat -> Seen, b: BatchId, chunk: nat)
    returns (objectLines: seq<ObjectLine>, receiptLines: seq<ReceiptLine>)
    requires Evolves(world) && chunk > 0
    ensures Ascending(Ids(objectLines)) && Ascending(NumbersOf(receiptLines))
    ensures forall id :: id in Ids(objectLines) <==> id in Pending(world, b)
    ensures forall i | 0 <= i < |objectLines| ::
      objectLines[i].id in world(0).db.objects && SameFacts(world(0).db.objects[objectLines[i].id], objectLines[i].row)
    ensures forall n :: n in NumbersOf(receiptLines) <==> n in AllNumbers(world(1), b)
    ensures Describe(world(1), b, receiptLines)
  {
    assert Numbered(world(1));
    var upper := MaxOf(BatchObjects(world(0), b));
    var bound := MaxOf(AllNumbers(world(1), b));
    assert Bounded(world, b, upper, bound);
    var t;
    objectLines, t := ScanObjects(world, b, upper, bound, chunk, 2);
    receiptLines := ScanReceipts(world, b, upper, bound, chunk, t);
  }

  lemma {:induction false} AscendingOnce(s: seq<nat>, x: nat)
    requires Ascending(s)
    ensures multiset(s)[x] == if x in s then 1 else 0
  {
    if s != [] {
      assert s == Init(s) + [Last(s)];
      AscendingOnce(Init(s), x);
      if x in Init(s) {
        var i :| 0 <= i < |Init(s)| && Init(s)[i] == x;
        assert s[i] < s[|s| - 1];
      }
    }
  }

  /**
   A report with those properties lists every object of the batch present at the start exactly once, over both
   sections, and every receipt present when the ledger's bound was read exactly once.
   */
  lemma EachExactlyOnce(world: nat -> Seen, b: BatchId, objectLines: seq<ObjectLine>, receiptLines: seq<ReceiptLine>, id: nat)
    requires Evolves(world) && id in BatchObjects(world(0), b)
    requires Ascending(Ids(objectLines)) && Ascending(NumbersOf(receiptLines))
    requires forall i :: i in Ids(objectLines) <==> i in Pending(world, b)
    requires forall n :: n in NumbersOf(receiptLines) <==> n in AllNumbers(world(1), b)
    ensures var k := KeyOf(id, world(0).db.objects[id]);
      multiset(Ids(objectLines))[id] +
      (if k in world(1).number then multiset(NumbersOf(receiptLines))[world(1).number[k]] else 0) == 1
    ensures forall k | k in BatchReceipts(world(1), b) :: multiset(NumbersOf(receiptLines))[world(1).number[k]] == 1
  {
    AscendingOnce(Ids(objectLines), id);
    forall k | k in BatchReceipts(world(1), b) ensures multiset(NumbersOf(receiptLines))[world(1).number[k]] == 1 {
      AscendingOnce(NumbersOf(receiptLines), world(1).number[k]);
    }
  }

  // ----- an export during a run -------------------------------------------------------------

  /** The ledger's numbers along a run: rows keep theirs, and a step's new rows come after all that were there. */
  ghost predicate Numbering(dbs: seq<Db>, numbers: seq<map<ReceiptKey, nat>>) {
    && |numbers| == |dbs|
    && (forall j | 0 <= j < |dbs| :: Numbered(Seen(dbs[j], numbers[j])))
    && (forall j | 0 <= j < |dbs| - 1 :: NumbersGrow(numbers[j], numbers[j + 1]))
  }

  ghost predicate NumbersGrow(number: map<ReceiptKey, nat>, number': map<ReceiptKey, nat>) {
    && (forall k | k in number :: k in number' && number'[k] == number[k])
    && (forall k, l | k in number && l in number' && l !in number :: number'[l] > number[k])
  }

  /** Rows numbered up to the bound, each number once. */
  ghost predicate NumberedTo<K(!new)>(number: map<K, nat>, top: nat) {
    && (forall k | k in number :: 0 < number[k] <= top)
    && (forall k, l | k in number && l in number && number[k] == number[l] :: k == l)
  }

  lemma NumberOne<K(!new)>(number: map<K, nat>, top: nat, k: K)
    requires NumberedTo(number, top) && k !in number
    ensures NumberedTo(number[k := top + 1], top + 1)
  {
  }

  lemma MoreKept<K(!new)>(number: map<K, nat>, next: map<K, nat>, number': map<K, nat>, top: nat, added: set<K>,
                            rest: set<K>, k: K)
    requires number.Keys !! added && k in added && next == number[k := top + 1] && rest == added - {k}
    requires number'.Keys == next.Keys + rest && forall x | x in next :: number'[x] == next[x]
    requires forall l | l in rest :: number'[l] > top + 1
    ensures number'.Keys == number.Keys + added
    ensures forall x | x in number :: number'[x] == number[x]
    ensures forall l | l in added :: number'[l] > top
  {
    assert number'[k] == next[k] == top + 1;
    forall x | x in number ensures number'[x] == number[x] {
      assert x in next && x != k;
    }
  }

  lemma {:induction false} NumberMore<K(!new)>(number: map<K, nat>, top: nat, added: set<K>)
    returns (number': map<K, nat>, top': nat)
    requires NumberedTo(number, top) && number.Keys !! added
    ensures NumberedTo(number', top') && number'.Keys == number.Keys + added
    ensures forall k | k in number :: number'[k] == number[k]
    ensures forall l | l in added :: number'[l] > top
    decreases |added|
  {
    if added == {} {
      number', top' := number, top;
    } else {
      var k :| k in added;
      var next, rest := number[k := top + 1], added - {k};
      NumberOne(number, top, k);
      number', top' := NumberMore(next, top + 1, rest);
      MoreKept(number, next, number', top, added, rest, k);
    }
  }

  lemma {:induction false} NumberRun(cfg: Config, dbs: seq<Db>, steps: seq<Step>, j: nat)
    returns (numbers: seq<map<ReceiptKey, nat>>, top: nat)
    requires IsRun(cfg, dbs, steps) && dbs[0] == EMPTY_DB && j <= |steps|
    ensures Numbering(dbs[..j + 1], numbers) && NumberedTo(Last(numbers), top)
  {
    if j == 0 {
      numbers, top := [map[]], 0;
    } else {
      numbers, top := NumberRun(cfg, dbs, steps, j - 1);
      RunStepExtends(cfg, dbs, steps, j - 1);
      var before := Last(numbers);
      assert Numbered(Seen(dbs[..j][j - 1], numbers[j - 1]));
      var more, top' := NumberMore(before, top, dbs[j].receipts.Keys - before.Keys);
      NumberingNext(dbs, numbers, j, more);
      numbers, top := numbers + [more], top';
    }
  }

  lemma NumberingNext(dbs: seq<Db>, numbers: seq<map<ReceiptKey, nat>>, j: nat, more: map<ReceiptKey, nat>)
    requires 0 < j < |dbs| && Numbering(dbs[..j], numbers)
    requires Numbered(Seen(dbs[j], more)) && NumbersGrow(numbers[j - 1], more)
    ensures Numbering(dbs[..j + 1], numbers + [more])
  {
    var all := numbers + [more];
    forall i | 0 <= i < j + 1 ensures Numbered(Seen(dbs[..j + 1][i], all[i])) {
      if i < j {
        assert dbs[..j + 1][i] == dbs[..j][i] && all[i] == numbers[i];
      }
    }
    forall i | 0 <= i < j ensures NumbersGrow(all[i], all[i + 1]) {
      if i < j - 1 {
        assert all[i] == numbers[i] && all[i + 1] == numbers[i + 1];
      }
    }
  }

  /** As receipts only accumulate, every run's ledger can be numbered so. */
  lemma EveryRunNumbers(cfg: Config, dbs: seq<Db>, steps: seq<Step>) returns (numbers: seq<map<ReceiptKey, nat>>)
    requires IsRun(cfg, dbs, steps) && dbs[0] == EMPTY_DB
    ensures Numbering(dbs, numbers)
  {
    var top;
    numbers, top := NumberRun(cfg, dbs, steps, |steps|);
    assert dbs[..|steps| + 1] == dbs;
  }

  /** What query `t` sees when it runs after `at(t)` steps. */
  function WorldOf(dbs: seq<Db>, numbers: seq<map<ReceiptKey, nat>>, at: nat -> nat): (world: nat -> Seen)
    requires |dbs| == |numbers| > 0
  {
    (t: nat) => var j := Min(at(t), |dbs| - 1); Seen(dbs[j], numbers[j])
  }

  lemma LaterChain(a: Seen, b: Seen, c: Seen)
    requires Later(a, b) && Later(b, c)
    ensures Later(a, c)
  {
    GrowsChain(a.db, b.db, c.db);
  }

  lemma {:induction false} LaterInRun(
    cfg: Config, dbs: seq<Db>, steps: seq<Step>, numbers: seq<map<ReceiptKey, nat>>, i: nat, j: nat)
    requires IsRun(cfg, dbs, steps) && Inv(dbs[0]) && Numbering(dbs, numbers) && i <= j <= |steps|
    requires forall k | i <= k < j :: !Removes(steps[k])
    ensures Later(Seen(dbs[i], numbers[i]), Seen(dbs[j], numbers[j]))
  {
    if i < j {
      LaterInRun(cfg, dbs, steps, numbers, i, j - 1);
      ReachableInv(cfg, dbs, steps, j - 1);
      StepGrows(cfg, dbs[j - 1], steps[j - 1]);
      assert NumbersGrow(numbers[j - 1], numbers[j - 1 + 1]);
      LaterChain(Seen(dbs[i], numbers[i]), Seen(dbs[j - 1], numbers[j - 1]), Seen(dbs[j], numbers[j]));
    }
  }

  /** The run and the moments of its queries; no step after the first query removes an object row. */
  ghost predicate Queried(cfg: Config, dbs: seq<Db>, steps: seq<Step>, numbers: seq<map<ReceiptKey, nat>>, at: nat -> nat) {
    && IsRun(cfg, dbs, steps) && Inv(dbs[0]) && Numbering(dbs, numbers)
    && (forall t: nat :: at(t) <= at(t + 1))
    && forall k | at(0) <= k < |steps| :: !Removes(steps[k])
  }

  lemma SeenFits(cfg: Config, dbs: seq<Db>, steps: seq<Step>, numbers: seq<map<ReceiptKey, nat>>, at: nat -> nat, t: nat)
    requires Queried(cfg, dbs, steps, numbers, at)
    ensures var s := WorldOf(dbs, numbers, at)(t); Numbered(s) && References(s.db)
  {
    ReachableInv(cfg, dbs, steps, Min(at(t), |steps|));
  }

  lemma SeenLater(cfg: Config, dbs: seq<Db>, steps: seq<Step>, numbers: seq<map<ReceiptKey, nat>>, at: nat -> nat, t: nat)
    requires Queried(cfg, dbs, steps, numbers, at)
    ensures Later(WorldOf(dbs, numbers, at)(t), WorldOf(dbs, numbers, at)(t + 1))
  {
    Forward(at, t);
    LaterInRun(cfg, dbs, steps, numbers, Min(at(t), |steps|), Min(at(t + 1), |steps|));
  }

  /** What queries see along a run is such a world. */
  lemma RunEvolves(cfg: Config, dbs: seq<Db>, steps: seq<Step>, numbers: seq<map<ReceiptKey, nat>>, at: nat -> nat)
    requires Queried(cfg, dbs, steps, numbers, at)
    ensures Evolves(WorldOf(dbs, numbers, at))
  {
    var world := WorldOf(dbs, numbers, at);
    forall t: nat ensures Numbered(world(t)) && References(world(t).db) {
      SeenFits(cfg, dbs, steps, numbers, at, t);
    }
    forall t: nat ensures Later(world(t), world(t + 1)) {
      SeenLater(cfg, dbs, steps, numbers, at, t);
    }
  }

  lemma {:induction false} Forward(at: nat -> nat, t: nat)
    requires forall t: nat :: at(t) <= at(t + 1)
    ensures at(0) <= at(t)
  {
    if t > 0 {
      Forward(at, t - 1);
      assert at(t - 1) <= at(t - 1 + 1);
    }
  }

  /** Each of the batch's objects in the first state is listed once over both sections, each receipt of the second once. */
  ghost predicate ListedOnce(s0: Seen, s1: Seen, b: BatchId, objectLines: seq<ObjectLine>, receiptLines: seq<ReceiptLine>)
    requires Numbered(s1)
  {
    && (forall id | id in BatchObjects(s0, b) ::
          var k := KeyOf(id, s0.db.objects[id]);
          multiset(Ids(objectLines))[id] +
          (if k in s1.db.receipts then multiset(NumbersOf(receiptLines))[s1.number[k]] else 0) == 1)
    && (forall k | k in BatchReceipts(s1, b) :: multiset(NumbersOf(receiptLines))[s1.number[k]] == 1)
    && (forall id | id in Ids(objectLines) :: id in BatchObjects(s0, b))
    && (forall n | n in NumbersOf(receiptLines) :: n in AllNumbers(s1, b))
  }

  lemma ReportListsOnce(world: nat -> Seen, b: BatchId, objectLines: seq<ObjectLine>, receiptLines: seq<ReceiptLine>)
    requires Evolves(world) && Ascending(Ids(objectLines)) && Ascending(NumbersOf(receiptLines))
    requires forall i :: i in Ids(objectLines) <==> i in Pending(world, b)
    requires forall n :: n in NumbersOf(receiptLines) <==> n in AllNumbers(world(1), b)
    ensures Numbered(world(1)) && ListedOnce(world(0), world(1), b, objectLines, receiptLines)
  {
    assert Numbered(world(1));
    forall id | id in BatchObjects(world(0), b)
      ensures var k := KeyOf(id, world(0).db.objects[id]);
        multiset(Ids(objectLines))[id] +
        (if k in world(1).db.receipts then multiset(NumbersOf(receiptLines))[world(1).number[k]] else 0) == 1
    {
      EachExactlyOnce(world, b, objectLines, receiptLines, id);
    }
    forall k | k in BatchReceipts(world(1), b) ensures multiset(NumbersOf(receiptLines))[world(1).number[k]] == 1 {
      AscendingOnce(NumbersOf(receiptLines), world(1).number[k]);
    }
  }

  method ReportOnce(world: nat -> Seen, b: BatchId, chunk: nat)
    returns (objectLines: seq<ObjectLine>, receiptLines: seq<ReceiptLine>)
    requires Evolves(world) && chunk > 0
    ensures Numbered(world(1)) && ListedOnce(world(0), world(1), b, objectLines, receiptLines)
  {
    objectLines, receiptLines := DeliveryReport(world, b, chunk);
    ReportListsOnce(world, b, objectLines, receiptLines);
  }

  lemma FirstQueries(cfg: Config, dbs: seq<Db>, steps: seq<Step>, numbers: seq<map<ReceiptKey, nat>>, at: nat -> nat)
    requires Queried(cfg, dbs, steps, numbers, at) && at(1) <= |steps|
    ensures at(0) <= at(1) < |dbs| == |numbers|
    ensures WorldOf(dbs, numbers, at)(0) == Seen(dbs[at(0)], numbers[at(0)])
    ensures WorldOf(dbs, numbers, at)(1) == Seen(dbs[at(1)], numbers[at(1)])
  {
    assert at(0) <= at(0 + 1);
  }

  /**
   A report made while a run goes on, query `t` after `at(t)` steps: every object the batch had at the first query is
   listed exactly once over both sections, every receipt there was at the second query exactly once, and nothing else.
   */
  method DeliveryReportInRun(ghost cfg: Config, dbs: seq<Db>, ghost steps: seq<Step>, numbers: seq<map<ReceiptKey, nat>>,
                             at: nat -> nat, b: BatchId, chunk: nat)
    returns (objectLines: seq<ObjectLine>, receiptLines: seq<ReceiptLine>)
    requires Queried(cfg, dbs, steps, numbers, at) && at(1) <= |steps| && chunk > 0
    ensures at(0) <= at(1) && ListedOnce(Seen(dbs[at(0)], numbers[at(0)]), Seen(dbs[at(1)], numbers[at(1)]), b,
                                         objectLines, receiptLines)
  {
    RunEvolves(cfg, dbs, steps, numbers, at);
    FirstQueries(cfg, dbs, steps, numbers, at);
    objectLines, receiptLines := ReportOnce(WorldOf(dbs, numbers, at), b, chunk);
  }
}
