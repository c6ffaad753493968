/**
 Exactly-once counting: a batch's delivered counter equals its deleted granules still present plus
 those already reaped, so the state counts always sum to the granules ever added to the batch.
 */
module Counting {
  import opened Basics
  import opened StateMachine
  import opened Store
  import opened Protocol
  import opened Preservation

  function InState(db: Db, b: BatchId, s: GranuleState): (ids: set<Gid>) {
    set gid | gid in db.granules && gid.batch == b && db.granules[gid].state == s
  }

  /** The counter's excess over the deleted granules still present. */
  function Owed(db: Db, b: BatchId): (n: int)
    requires b in db.batches
  {
    db.batches[b].deliveredCount - |InState(db, b, Deleted)|
  }

  function Vanished(db: Db, db': Db, b: BatchId): (ids: set<Gid>) {
    GranulesOf(db, b) - GranulesOf(db', b)
  }

  /** Whatever happened between the two databases, the counter accounts for every vanished granule. */
  ghost predicate Balanced(db: Db, db': Db, b: BatchId)
    requires b in db.batches
  {
    b in db'.batches && Owed(db', b) == Owed(db, b) + |Vanished(db, db', b)|
  }

  /** No granule of the batch vanishes, and none becomes or stops being deleted. */
  ghost predicate DeletionsKept(db: Db, db': Db, b: BatchId) {
    && b in db.batches && b in db'.batches && db'.batches[b].deliveredCount == db.batches[b].deliveredCount
    && (forall gid | gid in db.granules && gid.batch == b :: gid in db'.granules)
    && (forall gid | gid in db'.granules && gid.batch == b ::
          db'.granules[gid].state == Deleted <==> (gid in db.granules && db.granules[gid].state == Deleted))
  }

  lemma KeptIsBalanced(db: Db, db': Db, b: BatchId)
    requires DeletionsKept(db, db', b)
    ensures Balanced(db, db', b)
  {
    assert InState(db', b, Deleted) == InState(db, b, Deleted);
    assert Vanished(db, db', b) == {};
  }

  lemma FlipAddsOne(db: Db, gid: Gid, at: Time)
    requires gid in db.granules && db.granules[gid].state != Deleted
    ensures InState(FlipDeleted(db, gid, at), gid.batch, Deleted) == InState(db, gid.batch, Deleted) + {gid}
    ensures gid !in InState(db, gid.batch, Deleted)
    ensures FlipDeleted(db, gid, at).granules.Keys == db.granules.Keys
  {
  }

  lemma FlipKeepsOthers(db: Db, gid: Gid, at: Time, b: BatchId)
    requires b in db.batches && (gid.batch != b || gid !in db.granules || db.granules[gid].state == Deleted)
    ensures DeletionsKept(db, FlipDeleted(db, gid, at), b)
    ensures FlipDeleted(db, gid, at).granules.Keys == db.granules.Keys
  {
  }

  lemma FlipIsBalanced(db: Db, gid: Gid, at: Time, b: BatchId)
    requires References(db) && b in db.batches
    ensures Balanced(db, FlipDeleted(db, gid, at), b)
    ensures FlipDeleted(db, gid, at).granules.Keys == db.granules.Keys
  {
    if gid.batch == b && gid in db.granules && db.granules[gid].state != Deleted {
      FlipAddsOne(db, gid, at);
      assert Vanished(db, FlipDeleted(db, gid, at), b) == {};
    } else {
      FlipKeepsOthers(db, gid, at, b);
      KeptIsBalanced(db, FlipDeleted(db, gid, at), b);
    }
  }

  lemma ReportKeepsDeletions(cfg: Config, db: Db, ev: WireEvent, now: Time, b: BatchId)
    requires !ev.report.DeleteConfirmed? && b in db.batches
    ensures DeletionsKept(db, Emit(cfg, db, ev, now), b)
    ensures Emit(cfg, db, ev, now).granules.Keys == db.granules.Keys
  {
    EmitMoves(cfg, db, ev, now);
  }

  lemma EmitIsBalanced(cfg: Config, db: Db, ev: WireEvent, now: Time, b: BatchId)
    requires References(db) && b in db.batches
    ensures Balanced(db, Emit(cfg, db, ev, now), b)
    ensures Emit(cfg, db, ev, now).granules.Keys == db.granules.Keys
  {
    if ev.report.DeleteConfirmed? {
      EmitDeletion(cfg, db, ev, now);
      FlipIsBalanced(db, ev.granule, now, b);
    } else {
      ReportKeepsDeletions(cfg, db, ev, now, b);
      KeptIsBalanced(db, Emit(cfg, db, ev, now), b);
    }
  }

  lemma {:induction false} EmitAllIsBalanced(cfg: Config, db: Db, evs: seq<WireEvent>, now: Time, b: BatchId)
    requires Inv(db) && FreshUpload(db, now) && b in db.batches
    ensures Balanced(db, EmitAll(cfg, db, evs, now), b)
    ensures EmitAll(cfg, db, evs, now).granules.Keys == db.granules.Keys
  {
    if evs == [] {
      KeptIsBalanced(db, db, b);
    } else {
      var mid := EmitAll(cfg, db, Init(evs), now);
      EmitAllIsBalanced(cfg, db, Init(evs), now, b);
      EmitAllKeepsInv(cfg, db, Init(evs), now);
      EmitIsBalanced(cfg, mid, Last(evs), now, b);
      var db' := EmitAll(cfg, db, evs, now);
      assert Vanished(db, mid, b) == {} && Vanished(mid, db', b) == {} && Vanished(db, db', b) == {};
    }
  }

  lemma AckOneKeepsDeletions(db: Db, a: Ack, now: Time, b: BatchId)
    requires Inv(db) && b in db.batches
    ensures DeletionsKept(db, AckOne(db, a, now), b)
  {
  }

  lemma {:induction false} AckAllKeepsDeletions(db: Db, acks: seq<Ack>, now: Time, b: BatchId)
    requires Inv(db) && b in db.batches
    ensures DeletionsKept(db, AckAll(db, acks, now), b)
  {
    if acks != [] {
      AckAllKeepsDeletions(db, Init(acks), now, b);
      AckAllKeepsInv(db, Init(acks), now);
      AckOneKeepsDeletions(AckAll(db, Init(acks), now), Last(acks), now, b);
    }
  }

  lemma ReapIsBalanced(db: Db, doomed: set<Gid>, b: BatchId)
    requires b in db.batches
    requires forall gid | gid in doomed && gid in db.granules && gid.batch == b :: db.granules[gid].state == Deleted
    ensures Balanced(db, Reap(db, doomed), b)
  {
    var db' := Reap(db, doomed);
    var gone := Vanished(db, db', b);
    assert InState(db, b, Deleted) == InState(db', b, Deleted) + gone;
    assert InState(db', b, Deleted) !! gone;
  }

  lemma RetainIsBalanced(db: Db, cutoff: Time, b: BatchId)
    requires b in db.batches
    ensures Balanced(db, Retain(db, cutoff), b)
  {
    var trimmed := DropObjects(db, StaleObjects(db, cutoff));
    ReapIsBalanced(trimmed, StaleGranules(trimmed, cutoff), b);
    assert InState(trimmed, b, Deleted) == InState(db, b, Deleted);
    assert Vanished(trimmed, Retain(db, cutoff), b) == Vanished(db, Retain(db, cutoff), b);
  }

  lemma RemoveBatchIsBalanced(db: Db, gone: BatchId, b: BatchId)
    requires b in db.batches && b != gone
    ensures Balanced(db, RemoveBatch(db, gone), b)
  {
    var db' := RemoveBatch(db, gone);
    assert InState(db', b, Deleted) == InState(db, b, Deleted);
    assert Vanished(db, db', b) == {};
  }

  lemma BulkKeepsDeletions(db: Db, ids: set<Gid>, op: Bulk, b: BatchId)
    requires RowsFit(db) && b in db.batches
    ensures DeletionsKept(db, BulkUpdate(db, ids, op), b)
  {
  }

  lemma NextIsBalanced(cfg: Config, db: Db, step: Step, b: BatchId)
    requires Inv(db) && Enabled(cfg, db, step) && b in db.batches && b in Next(cfg, db, step).batches
    ensures Balanced(db, Next(cfg, db, step), b)
  {
    match step
    case EmitStep(event, now) => EmitIsBalanced(cfg, db, event, now, b);
    case EmitBatchStep(events, now) => EmitAllIsBalanced(cfg, db, events, now, b);
    case FlipStep(gid, now) => FlipIsBalanced(db, gid, now, b);
    case RetainStep(cutoff) => RetainIsBalanced(db, cutoff, b);
    case RemoveBatchStep(gone) => RemoveBatchIsBalanced(db, gone, b);
    case _ =>
      NextKeepsDeletions(cfg, db, step, b);
      KeptIsBalanced(db, Next(cfg, db, step), b);
  }

  lemma LeaseStepKeepsDeletions(cfg: Config, db: Db, step: Step, b: BatchId)
    requires Inv(db) && (step.ClaimStep? || step.BulkStep? || step.ForceRemoveStep?) && b in db.batches
    ensures DeletionsKept(db, Next(cfg, db, step), b)
  {
    if step.ClaimStep? {
      BulkKeepsDeletions(db, step.claimed, Claim(step.worker, step.now), b);
    } else if step.BulkStep? {
      BulkKeepsDeletions(db, step.selection, step.op, b);
    } else {
      BulkKeepsDeletions(db, db.granules.Keys, Revoke(step.worker, step.now), b);
    }
  }

  lemma UpkeepKeepsDeletions(cfg: Config, db: Db, step: Step, b: BatchId)
    requires Inv(db) && Enabled(cfg, db, step) && b in db.batches
    requires !step.EmitStep? && !step.EmitBatchStep? && !step.FlipStep? && !step.RetainStep? && !step.RemoveBatchStep?
    requires !step.ClaimStep? && !step.BulkStep? && !step.ForceRemoveStep? && !step.AckStep? && !step.AckBatchStep?
    ensures DeletionsKept(db, Next(cfg, db, step), b)
  {
  }

  lemma NextKeepsDeletions(cfg: Config, db: Db, step: Step, b: BatchId)
    requires Inv(db) && Enabled(cfg, db, step) && b in db.batches
    requires !step.EmitStep? && !step.EmitBatchStep? && !step.FlipStep? && !step.RetainStep? && !step.RemoveBatchStep?
    ensures DeletionsKept(db, Next(cfg, db, step), b)
  {
    if step.ClaimStep? || step.BulkStep? || step.ForceRemoveStep? {
      LeaseStepKeepsDeletions(cfg, db, step, b);
    } else if step.AckStep? {
      AckOneKeepsDeletions(db, step.ack, step.now, b);
    } else if step.AckBatchStep? {
      AckAllKeepsDeletions(db, step.acks, step.now, b);
    } else {
      UpkeepKeepsDeletions(cfg, db, step, b);
    }
  }

  // ----- whole runs -------------------------------------------------------------------------

  /** History: how many granules each living batch was ever given, and how many of them were reaped. */
  datatype Tally = Tally(added: map<BatchId, nat>, reaped: map<BatchId, nat>)

  ghost function Tallied(t: Tally, db: Db, db': Db): (t': Tally)
    requires t.added.Keys == t.reaped.Keys == db.batches.Keys
    ensures t'.added.Keys == t'.reaped.Keys == db'.batches.Keys
  {
    Tally(
      map b | b in db'.batches ::
        (if b in t.added then t.added[b] else 0) + |GranulesOf(db', b) - GranulesOf(db, b)|,
      map b | b in db'.batches ::
        (if b in t.reaped then t.reaped[b] else 0) + |Vanished(db, db', b)|)
  }

  ghost function History(dbs: seq<Db>, i: nat): (t: Tally)
    requires i < |dbs| && dbs[0] == EMPTY_DB
    ensures t.added.Keys == t.reaped.Keys == dbs[i].batches.Keys
  {
    if i == 0 then Tally(map[], map[]) else Tallied(History(dbs, i - 1), dbs[i - 1], dbs[i])
  }

  lemma NewBatchIsEmpty(cfg: Config, db: Db, step: Step, b: BatchId)
    requires Inv(db) && Enabled(cfg, db, step) && b !in db.batches && b in Next(cfg, db, step).batches
    ensures Owed(Next(cfg, db, step), b) == 0 && GranulesOf(db, b) == {}
  {
    if step.CreateBatchStep? {
      assert InState(Next(cfg, db, step), b, Deleted) == {};
    } else {
      NextBatches(cfg, db, step);
    }
  }

  lemma EmitKeepsBatchIds(cfg: Config, db: Db, ev: WireEvent, now: Time)
    requires References(db)
    ensures Emit(cfg, db, ev, now).batches.Keys == db.batches.Keys
  {
  }

  lemma {:induction false} EmitAllKeepsBatchIds(cfg: Config, db: Db, evs: seq<WireEvent>, now: Time)
    requires Inv(db) && FreshUpload(db, now)
    ensures EmitAll(cfg, db, evs, now).batches.Keys == db.batches.Keys
  {
    if evs != [] {
      EmitAllKeepsBatchIds(cfg, db, Init(evs), now);
      EmitAllKeepsInv(cfg, db, Init(evs), now);
      EmitKeepsBatchIds(cfg, EmitAll(cfg, db, Init(evs), now), Last(evs), now);
    }
  }

  lemma {:induction false} AckAllKeepsBatches(db: Db, acks: seq<Ack>, now: Time)
    ensures AckAll(db, acks, now).batches == db.batches
  {
    if acks != [] {
      AckAllKeepsBatches(db, Init(acks), now);
    }
  }

  /** Only creating a batch adds a batch. */
  lemma NextBatches(cfg: Config, db: Db, step: Step)
    requires Inv(db) && Enabled(cfg, db, step) && !step.CreateBatchStep?
    ensures Next(cfg, db, step).batches.Keys <= db.batches.Keys
  {
    match step
    case EmitStep(event, now) => EmitKeepsBatchIds(cfg, db, event, now);
    case EmitBatchStep(events, now) => EmitAllKeepsBatchIds(cfg, db, events, now);
    case AckBatchStep(acks, now) => AckAllKeepsBatches(db, acks, now);
    case _ =>
  }

  lemma RunStepBalanced(cfg: Config, dbs: seq<Db>, steps: seq<Step>, i: nat, b: BatchId)
    requires IsRun(cfg, dbs, steps) && dbs[0] == EMPTY_DB && i < |steps| && b in dbs[i + 1].batches
    ensures b in dbs[i].batches ==> Balanced(dbs[i], dbs[i + 1], b)
    ensures b !in dbs[i].batches ==> Owed(dbs[i + 1], b) == 0 && GranulesOf(dbs[i], b) == {}
  {
    EmptyInv();
    ReachableInv(cfg, dbs, steps, i);
    if b in dbs[i].batches {
      NextIsBalanced(cfg, dbs[i], steps[i], b);
    } else {
      NewBatchIsEmpty(cfg, dbs[i], steps[i], b);
    }
  }

  /** The counter equals the deleted granules still present plus those already reaped. */
  lemma {:induction false} DeliveredExactlyOnce(cfg: Config, dbs: seq<Db>, steps: seq<Step>, i: nat, b: BatchId)
    requires IsRun(cfg, dbs, steps) && dbs[0] == EMPTY_DB && i <= |steps| && b in dbs[i].batches
    ensures dbs[i].batches[b].deliveredCount == |InState(dbs[i], b, Deleted)| + History(dbs, i).reaped[b]
  {
    if i > 0 {
      RunStepBalanced(cfg, dbs, steps, i - 1, b);
      if b in dbs[i - 1].batches {
        DeliveredExactlyOnce(cfg, dbs, steps, i - 1, b);
      } else {
        assert Vanished(dbs[i - 1], dbs[i], b) == {};
      }
    }
  }

  // ----- the read side ----------------------------------------------------------------------

  const STATE_COUNT: nat := 12

  function Rank(s: GranuleState): (n: nat)
    ensures n < STATE_COUNT
  {
    match s
    case Pending => 0 case Queued => 1 case Downloading => 2 case Downloaded => 3 case Processing => 4
    case Processed => 5 case Uploading => 6 case Uploaded => 7 case Acked => 8 case Deleted => 9
    case Failed => 10 case Blacklisted => 11
  }

  /** The batch view: live rows by state, with `deleted` read from the persistent counter. */
  function StateCounts(db: Db, b: BatchId): (counts: map<GranuleState, nat>)
    requires b in db.batches
  {
    (map s: GranuleState | s != Deleted && InState(db, b, s) != {} :: |InState(db, b, s)|)
      [Deleted := db.batches[b].deliveredCount]
  }

  function CountOf(counts: map<GranuleState, nat>, s: GranuleState): (n: nat) {
    if s in counts then counts[s] else 0
  }

  function StateAt(n: nat): (s: GranuleState)
    requires n < STATE_COUNT
    ensures Rank(s) == n
  {
    if n == 0 then Pending else if n == 1 then Queued else if n == 2 then Downloading
    else if n == 3 then Downloaded else if n == 4 then Processing else if n == 5 then Processed
    else if n == 6 then Uploading else if n == 7 then Uploaded else if n == 8 then StateMachine.Acked
    else if n == 9 then Deleted else if n == 10 then Failed else Blacklisted
  }

  /** The sum of the counts of the first `n` states. */
  function Total(counts: map<GranuleState, nat>, n: nat): (sum: nat)
    requires n <= STATE_COUNT
  {
    if n == 0 then 0 else Total(counts, n - 1) + CountOf(counts, StateAt(n - 1))
  }

  function RowsBelow(db: Db, b: BatchId, n: nat): (ids: set<Gid>) {
    set gid | gid in db.granules && gid.batch == b && Rank(db.granules[gid].state) < n
  }

  lemma StateAtRank(s: GranuleState)
    ensures StateAt(Rank(s)) == s
  {
  }

  lemma RankIsUnique(s: GranuleState, t: GranuleState)
    requires Rank(t) == Rank(s)
    ensures t == s
  {
  }

  lemma RowsBelowGrow(db: Db, b: BatchId, n: nat, s: GranuleState)
    requires Rank(s) == n
    ensures |RowsBelow(db, b, n + 1)| == |RowsBelow(db, b, n)| + |InState(db, b, s)|
  {
    forall gid | gid in GranulesOf(db, b)
      ensures gid in RowsBelow(db, b, n + 1) <==> gid in RowsBelow(db, b, n) || gid in InState(db, b, s)
      ensures !(gid in RowsBelow(db, b, n) && gid in InState(db, b, s))
    {
      var t := db.granules[gid].state;
      if Rank(t) == n {
        RankIsUnique(s, t);
      }
    }
    SizesAdd(RowsBelow(db, b, n), InState(db, b, s), RowsBelow(db, b, n + 1));
  }

  lemma CountOfState(db: Db, b: BatchId, s: GranuleState)
    requires b in db.batches
    ensures CountOf(StateCounts(db, b), s) == |InState(db, b, s)| + if s == Deleted then Owed(db, b) else 0
  {
  }

  lemma {:induction false} TotalCountsRows(db: Db, b: BatchId, n: nat)
    requires b in db.batches && n <= STATE_COUNT
    ensures Total(StateCounts(db, b), n)
         == |RowsBelow(db, b, n)| + if n > Rank(Deleted) then Owed(db, b) else 0
  {
    if n == 0 {
      assert RowsBelow(db, b, 0) == {};
    } else {
      TotalCountsRows(db, b, n - 1);
      RowsBelowGrow(db, b, n - 1, StateAt(n - 1));
      CountOfState(db, b, StateAt(n - 1));
      StateAtRank(Deleted);
    }
  }

  lemma SizeChange(prev: set<Gid>, now: set<Gid>)
    ensures |now| == |prev| - |prev - now| + |now - prev|
  {
  }

  lemma {:induction false} AddedMinusReaped(cfg: Config, dbs: seq<Db>, steps: seq<Step>, i: nat, b: BatchId)
    requires IsRun(cfg, dbs, steps) && dbs[0] == EMPTY_DB && i <= |steps| && b in dbs[i].batches
    ensures History(dbs, i).added[b] == |GranulesOf(dbs[i], b)| + History(dbs, i).reaped[b]
  {
    if i > 0 {
      RunStepBalanced(cfg, dbs, steps, i - 1, b);
      SizeChange(GranulesOf(dbs[i - 1], b), GranulesOf(dbs[i], b));
      if b in dbs[i - 1].batches {
        AddedMinusReaped(cfg, dbs, steps, i - 1, b);
      }
    }
  }

  /** The state counts of a batch always sum to the granules ever added to it. */
  lemma CountsSumToAdded(cfg: Config, dbs: seq<Db>, steps: seq<Step>, i: nat, b: BatchId)
    requires IsRun(cfg, dbs, steps) && dbs[0] == EMPTY_DB && i <= |steps| && b in dbs[i].batches
    ensures Total(StateCounts(dbs[i], b), STATE_COUNT) == History(dbs, i).added[b]
  {
    TotalCountsRows(dbs[i], b, STATE_COUNT);
    DeliveredExactlyOnce(cfg, dbs, steps, i, b);
    AddedMinusReaped(cfg, dbs, steps, i, b);
    assert RowsBelow(dbs[i], b, STATE_COUNT) == GranulesOf(dbs[i], b);
  }
}
