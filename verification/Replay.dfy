/**
 Replays are no-ops. A report that has been applied once stays ignored until its granule is claimed again,
 whatever else the orchestrator does meanwhile, so first-in-first-out at-least-once delivery of a worker's
 report log has the effect of delivering every report once, if no such claim comes before a repetition.
 */
module Replay {
  import opened Basics
  import opened StateMachine
  import opened Store
  import opened Protocol
  import opened Preservation
  import opened Retries

  /** The order in which the worker's handler (and then its janitor) reports on one lease. */
  function Rank(report: Report): (n: nat) {
    match report
    case DownloadStarted => 1
    case DownloadFinished => 2
    case ProcessStarted(_) => 3
    case ProcessFinished => 4
    case UploadStarted => 5
    case UploadCompleted(_, _, _) => 6
    case ProcessingFailed(_, _, _) => 6
    case DeleteConfirmed => 7
  }

  /** The states from which the transition function accepts a report other than a deletion. */
  predicate Accepts(s: GranuleState, report: Report) {
    match report
    case DownloadStarted => s == Queued
    case DownloadFinished => s == Downloading
    case ProcessStarted(_) => s == Downloading || s == Downloaded
    case ProcessFinished => s == Processing
    case UploadStarted => s == Processed
    case UploadCompleted(_, _, _) => s == Queued || s == Processing || s == Uploading
    case ProcessingFailed(_, _, _) => Leased(s)
    case DeleteConfirmed => true
  }

  lemma AcceptsDecides(snap: Snapshot, w: WorkerId, report: Report, now: Time, maxRetries: nat)
    ensures Accepts(snap.state, report) <==> ApplyReport(snap, w, report, now, maxRetries).Accepted?
  {
  }

  predicate RowIgnores(g: Granule, ev: WireEvent) {
    if ev.report.DeleteConfirmed? then g.state == Deleted
    else g.leasedBy != Some(ev.workerId) || !Accepts(g.state, ev.report)
  }

  /** The report would change nothing, whenever it arrives. */
  predicate Ignored(db: Db, ev: WireEvent) {
    ev.granule in db.granules ==> RowIgnores(db.granules[ev.granule], ev)
  }

  lemma IgnoredChangesNothing(cfg: Config, db: Db, ev: WireEvent, now: Time)
    ensures Ignored(db, ev) ==> Emit(cfg, db, ev, now) == db
  {
    if Ignored(db, ev) {
      if ev.report.DeleteConfirmed? {
        EmitDeletion(cfg, db, ev, now);
      } else if ev.granule in db.granules {
        AcceptsDecides(SnapshotOf(db.granules[ev.granule]), ev.workerId, ev.report, now, cfg.maxRetries);
      }
    }
  }

  // ----- a report does not undo an earlier one of the same lease ----------------------------

  /** Reports of the same worker on the same granule come in handler order. */
  predicate InOrder(earlier: WireEvent, later: WireEvent) {
    earlier.granule == later.granule && earlier.workerId == later.workerId ==> Rank(earlier.report) <= Rank(later.report)
  }

  /** The row's state and lease after an accepted report. */
  lemma ReportedRow(cfg: Config, g: Granule, ev: WireEvent, now: Time)
    requires !ev.report.DeleteConfirmed? && Accepts(g.state, ev.report)
    ensures var o := ApplyReport(SnapshotOf(g), ev.workerId, ev.report, now, cfg.maxRetries);
      && o.Accepted?
      && var g' := Patched(g, o.result);
         && RowIgnores(g', ev)
         && (g'.leasedBy == g.leasedBy || g'.leasedBy.None?)
         && forall e: WireEvent | !e.report.DeleteConfirmed? && Rank(e.report) <= Rank(ev.report)
                && !Accepts(g.state, e.report) && g'.leasedBy.Some? :: !Accepts(g'.state, e.report)
  {
  }

  lemma EmitIgnoresAfter(cfg: Config, db: Db, ev: WireEvent, now: Time)
    ensures Ignored(Emit(cfg, db, ev, now), ev)
  {
    if ev.granule in db.granules {
      if ev.report.DeleteConfirmed? {
        EmitDeletion(cfg, db, ev, now);
      } else {
        EmittedRow(cfg, db, ev, now, ev.granule);
        AcceptsDecides(SnapshotOf(db.granules[ev.granule]), ev.workerId, ev.report, now, cfg.maxRetries);
        if Accepts(db.granules[ev.granule].state, ev.report) {
          ReportedRow(cfg, db.granules[ev.granule], ev, now);
        }
      }
    }
  }

  lemma EmitKeepsIgnored(cfg: Config, db: Db, ev: WireEvent, now: Time, past: WireEvent)
    requires Ignored(db, past) && InOrder(past, ev)
    ensures Ignored(Emit(cfg, db, ev, now), past)
  {
    if past.granule in db.granules {
      if ev.report.DeleteConfirmed? {
        EmitDeletion(cfg, db, ev, now);
      } else {
        var g := db.granules[past.granule];
        EmittedRow(cfg, db, ev, now, past.granule);
        AcceptsDecides(SnapshotOf(g), ev.workerId, ev.report, now, cfg.maxRetries);
        if ev.granule == past.granule && !Missed(db, ev) && Accepts(g.state, ev.report) {
          ReportedRow(cfg, g, ev, now);
          ReportMoves(SnapshotOf(g), ev.workerId, ev.report, now, cfg.maxRetries);
        }
      }
    } else {
      EmitKeepsRowIds(cfg, db, ev, now);
    }
  }

  lemma {:induction false} EmitAllKeepsIgnored(cfg: Config, db: Db, evs: seq<WireEvent>, now: Time, past: WireEvent)
    requires Ignored(db, past) && forall i | 0 <= i < |evs| :: InOrder(past, evs[i])
    ensures Ignored(EmitAll(cfg, db, evs, now), past)
  {
    if evs != [] {
      EmitAllKeepsIgnored(cfg, db, Init(evs), now, past);
      EmitKeepsIgnored(cfg, EmitAll(cfg, db, Init(evs), now), Last(evs), now, past);
    }
  }

  /** Reports in handler order, granule by granule. */
  ghost predicate Ordered(evs: seq<WireEvent>) {
    forall i, j | 0 <= i < j < |evs| :: InOrder(evs[i], evs[j])
  }

  lemma {:induction false} BatchIgnoredAfter(cfg: Config, db: Db, evs: seq<WireEvent>, now: Time, i: nat)
    requires i < |evs| && forall j | i < j < |evs| :: InOrder(evs[i], evs[j])
    ensures Ignored(EmitAll(cfg, db, evs, now), evs[i])
  {
    var mid := EmitAll(cfg, db, Init(evs), now);
    if i == |evs| - 1 {
      EmitIgnoresAfter(cfg, mid, Last(evs), now);
    } else {
      BatchIgnoredAfter(cfg, db, Init(evs), now, i);
      EmitKeepsIgnored(cfg, mid, Last(evs), now, evs[i]);
    }
  }

  lemma {:induction false} IgnoredBatchChangesNothing(cfg: Config, db: Db, evs: seq<WireEvent>, now: Time)
    requires forall i | 0 <= i < |evs| :: Ignored(db, evs[i])
    ensures EmitAll(cfg, db, evs, now) == db
  {
    if evs != [] {
      IgnoredBatchChangesNothing(cfg, db, Init(evs), now);
      IgnoredChangesNothing(cfg, db, Last(evs), now);
    }
  }

  /** A report that is not ignored takes its granule down the measure. */
  lemma ActingDescends(cfg: Config, db: Db, ev: WireEvent, now: Time)
    requires !Ignored(db, ev)
    ensures ev.granule in db.granules && ev.granule in Emit(cfg, db, ev, now).granules
    ensures Measure(cfg, Emit(cfg, db, ev, now).granules[ev.granule]) < Measure(cfg, db.granules[ev.granule])
  {
    var g := db.granules[ev.granule];
    if ev.report.DeleteConfirmed? {
      EmitDeletion(cfg, db, ev, now);
    } else {
      EmittedRow(cfg, db, ev, now, ev.granule);
      AcceptsDecides(SnapshotOf(g), ev.workerId, ev.report, now, cfg.maxRetries);
      ReportDescends(cfg, g, ev.workerId, ev.report, now);
    }
  }

  lemma {:induction false} UnchangedMeansIgnored(cfg: Config, db: Db, evs: seq<WireEvent>, now: Time, i: nat)
    requires EmitAll(cfg, db, evs, now) == db && i < |evs|
    ensures Ignored(db, evs[i])
  {
    var mid, ev := EmitAll(cfg, db, Init(evs), now), Last(evs);
    if Ignored(mid, ev) {
      IgnoredChangesNothing(cfg, mid, ev, now);
      if i < |evs| - 1 {
        UnchangedMeansIgnored(cfg, db, Init(evs), now, i);
      }
    } else {
      ActingDescends(cfg, mid, ev, now);
      EmitAllDescends(cfg, db, Init(evs), now, ev.granule);
      assert false;
    }
  }

  /** A batch, whatever its order, changes nothing exactly when each of its reports is ignored. */
  lemma BatchIsNoOpExactly(cfg: Config, db: Db, evs: seq<WireEvent>, now: Time)
    ensures EmitAll(cfg, db, evs, now) == db <==> forall i | 0 <= i < |evs| :: Ignored(db, evs[i])
  {
    if EmitAll(cfg, db, evs, now) == db {
      forall i | 0 <= i < |evs| ensures Ignored(db, evs[i]) {
        UnchangedMeansIgnored(cfg, db, evs, now, i);
      }
    } else if forall i | 0 <= i < |evs| :: Ignored(db, evs[i]) {
      IgnoredBatchChangesNothing(cfg, db, evs, now);
    }
  }

  /** Re-applying an ordered batch right away, at any later time, changes nothing. */
  lemma ReplayIsNoOp(cfg: Config, db: Db, evs: seq<WireEvent>, now: Time, later: Time)
    requires Ordered(evs)
    ensures var db' := EmitAll(cfg, db, evs, now); EmitAll(cfg, db', evs, later) == db'
  {
    var db' := EmitAll(cfg, db, evs, now);
    forall i | 0 <= i < |evs| ensures Ignored(db', evs[i]) {
      BatchIgnoredAfter(cfg, db, evs, now, i);
    }
    IgnoredBatchChangesNothing(cfg, db', evs, later);
  }

  // ----- whatever else happens --------------------------------------------------------------

  predicate Creates(step: Step, gid: Gid) {
    match step
    case CreateBatchStep(b, _, names, _) => gid.batch == b && gid.name in names
    case AddStep(b, names, _) => gid.batch == b && gid.name in names
    case _ => false
  }

  /** The report's worker claims its granule again, and the report is one that acts on a fresh lease. */
  predicate ClaimsAgain(step: Step, ev: WireEvent) {
    && step.ClaimStep? && ev.granule in step.claimed && step.worker == ev.workerId
    && !ev.report.DeleteConfirmed? && Accepts(Queued, ev.report)
  }

  /** The report is a deletion, and its granule is added anew after its row was reaped. */
  predicate AddsAgain(db: Db, step: Step, ev: WireEvent) {
    ev.report.DeleteConfirmed? && ev.granule !in db.granules && Creates(step, ev.granule)
  }

  /** The step neither opens the granule to the report again nor carries an earlier-ranked report of its worker. */
  ghost predicate Quiet(db: Db, step: Step, ev: WireEvent) {
    && !ClaimsAgain(step, ev) && !AddsAgain(db, step, ev)
    && (step.EmitStep? ==> InOrder(ev, step.event))
    && (step.EmitBatchStep? ==> forall i | 0 <= i < |step.events| :: InOrder(ev, step.events[i]))
  }

  /** The lease stays or is given up, and a kept lease keeps its state or comes to rest. */
  predicate RowRests(g: Granule, g': Granule) {
    && (g'.leasedBy == g.leasedBy || g'.leasedBy.None?)
    && (g'.leasedBy.Some? ==> g'.state == g.state || g'.state == Deleted || g'.state == StateMachine.Acked)
    && (g.state == Deleted ==> g'.state == Deleted)
  }

  predicate Rests(db: Db, db': Db, gid: Gid) {
    gid in db'.granules ==> gid in db.granules && RowRests(db.granules[gid], db'.granules[gid])
  }

  lemma RestsKeepsIgnored(db: Db, db': Db, ev: WireEvent)
    requires Ignored(db, ev) && Rests(db, db', ev.granule)
    ensures Ignored(db', ev)
  {
  }

  lemma AckOneRests(db: Db, a: Ack, now: Time, gid: Gid)
    requires Inv(db)
    ensures Rests(db, AckOne(db, a, now), gid)
  {
  }

  lemma {:induction false} AckAllRests(db: Db, acks: seq<Ack>, now: Time, gid: Gid)
    requires Inv(db)
    ensures Rests(db, AckAll(db, acks, now), gid)
  {
    if acks != [] {
      AckAllRests(db, Init(acks), now, gid);
      AckAllKeepsInv(db, Init(acks), now);
      AckOneRests(AckAll(db, Init(acks), now), Last(acks), now, gid);
    }
  }

  lemma BulkRests(db: Db, ids: set<Gid>, op: Bulk, gid: Gid)
    requires op.Claim? ==> gid !in ids
    ensures Rests(db, BulkUpdate(db, ids, op), gid)
  {
  }

  lemma OperatorRests(cfg: Config, db: Db, step: Step, gid: Gid)
    requires Inv(db) && Enabled(cfg, db, step) && !(gid !in db.granules && Creates(step, gid))
    requires !step.EmitStep? && !step.EmitBatchStep? && !step.AckStep? && !step.AckBatchStep?
    requires !step.ClaimStep? && !step.BulkStep? && !step.ForceRemoveStep?
    ensures Rests(db, Next(cfg, db, step), gid)
  {
  }

  lemma UpkeepRests(cfg: Config, db: Db, step: Step, gid: Gid)
    requires Inv(db) && Enabled(cfg, db, step) && !step.EmitStep? && !step.EmitBatchStep? && !step.ClaimStep?
    requires !(gid !in db.granules && Creates(step, gid))
    ensures Rests(db, Next(cfg, db, step), gid)
  {
    if step.AckStep? {
      AckOneRests(db, step.ack, step.now, gid);
    } else if step.AckBatchStep? {
      AckAllRests(db, step.acks, step.now, gid);
    } else if step.BulkStep? {
      BulkRests(db, step.selection, step.op, gid);
    } else if step.ForceRemoveStep? {
      BulkRests(db, db.granules.Keys, Revoke(step.worker, step.now), gid);
    } else {
      OperatorRests(cfg, db, step, gid);
    }
  }

  /** A claim revives an ignored report exactly when it is its worker's own and the report acts on a fresh lease. */
  lemma ClaimRevives(cfg: Config, db: Db, step: Step, ev: WireEvent)
    requires Enabled(cfg, db, step) && Ignored(db, ev) && step.ClaimStep?
    ensures Ignored(Next(cfg, db, step), ev) <==> !ClaimsAgain(step, ev)
  {
    if ev.granule in step.claimed {
      assert Selects(db, Claim(step.worker, step.now), ev.granule);
    }
  }

  /** Adding a granule whose row was reaped revives exactly the deletions. */
  lemma AdditionRevives(cfg: Config, db: Db, step: Step, ev: WireEvent)
    requires Enabled(cfg, db, step) && ev.granule !in db.granules && Creates(step, ev.granule)
    ensures Ignored(Next(cfg, db, step), ev) <==> !AddsAgain(db, step, ev)
  {
  }

  /** Once a report is ignored it stays so, until a claim or an addition opens its granule to it again. */
  lemma IgnoredStays(cfg: Config, db: Db, step: Step, ev: WireEvent)
    requires Inv(db) && Enabled(cfg, db, step) && Ignored(db, ev) && Quiet(db, step, ev)
    ensures Ignored(Next(cfg, db, step), ev)
  {
    if step.EmitStep? {
      EmitKeepsIgnored(cfg, db, step.event, step.now, ev);
    } else if step.EmitBatchStep? {
      EmitAllKeepsIgnored(cfg, db, step.events, step.now, ev);
    } else if step.ClaimStep? {
      ClaimRevives(cfg, db, step, ev);
    } else if ev.granule !in db.granules && Creates(step, ev.granule) {
      AdditionRevives(cfg, db, step, ev);
    } else {
      UpkeepRests(cfg, db, step, ev.granule);
      RestsKeepsIgnored(db, Next(cfg, db, step), ev);
    }
  }

  // ----- at-least-once delivery of a log ----------------------------------------------------

  /** The part of the log one flush carries. */
  datatype Segment = Segment(from: nat, to: nat)

  predicate Sends(step: Step, log: seq<WireEvent>, seg: Segment) {
    seg.from <= seg.to <= |log| && step.EmitBatchStep? && step.events == log[seg.from..seg.to]
  }

  /** Everything sent up to the high-water mark has been delivered or shed. */
  function HighWater(sends: seq<Option<Segment>>): (n: nat) {
    if sends == [] then 0
    else Max(HighWater(Init(sends)), if Last(sends).Some? then Last(sends).value.to else 0)
  }

  predicate Carries(send: Option<Segment>, i: nat) {
    send.Some? && send.value.from <= i < send.value.to
  }

  predicate Delivered(sends: seq<Option<Segment>>, i: nat) {
    exists k :: 0 <= k < |sends| && Carries(sends[k], i)
  }

  /** Some flush from the `k`th step on carries the report. */
  predicate SentFrom(sends: seq<Option<Segment>>, k: nat, i: nat) {
    exists l :: k <= l < |sends| && Carries(sends[l], i)
  }

  /** First in, first out: a later flush never starts before an earlier one (retries restart at the same item). */
  ghost predicate Fifo(sends: seq<Option<Segment>>) {
    forall k, l | 0 <= k < l < |sends| && sends[k].Some? && sends[l].Some? :: sends[k].value.from <= sends[l].value.from
  }

  /** Nothing between the high-water mark and a flush's start was dropped. */
  ghost predicate Gapless(sends: seq<Option<Segment>>) {
    forall l | 0 <= l < |sends| && sends[l].Some? :: sends[l].value.from <= HighWater(sends[..l])
  }

  predicate Flushes(steps: seq<Step>, sends: seq<Option<Segment>>, log: seq<WireEvent>) {
    && |sends| == |steps|
    && forall k | 0 <= k < |steps| && sends[k].Some? :: Sends(steps[k], log, sends[k].value)
  }

  /** While a delivered report may still be sent again, the steps between the flushes do not revive it. */
  ghost predicate Undisturbed(dbs: seq<Db>, steps: seq<Step>, sends: seq<Option<Segment>>, log: seq<WireEvent>)
    requires |dbs| == |steps| + 1 && |sends| == |steps|
  {
    forall k, i | 0 <= k < |steps| && sends[k].None? && 0 <= i < |log| && Delivered(sends[..k], i) && SentFrom(sends, k, i) ::
      Quiet(dbs[k], steps[k], log[i])
  }

  /** A report that is sent again after a later one went out with it belongs before that one in its lease. */
  ghost predicate ResentInOrder(sends: seq<Option<Segment>>, log: seq<WireEvent>) {
    forall k, i, j | 0 <= k < |sends| && 0 <= i < j < |log|
        && Carries(sends[k], i) && Carries(sends[k], j) && SentFrom(sends, k + 1, i) ::
      InOrder(log[i], log[j])
  }

  /** The log's flushes and the database along a run. */
  ghost predicate LogRun(cfg: Config, dbs: seq<Db>, steps: seq<Step>, sends: seq<Option<Segment>>, log: seq<WireEvent>) {
    && IsRun(cfg, dbs, steps) && Inv(dbs[0])
    && Flushes(steps, sends, log) && Fifo(sends)
    && Undisturbed(dbs, steps, sends, log) && ResentInOrder(sends, log)
  }

  lemma {:induction false} BelowHighWaterWasDelivered(sends: seq<Option<Segment>>, seg: Segment, i: nat)
    requires Fifo(sends + [Some(seg)]) && seg.from <= i < HighWater(sends)
    ensures Delivered(sends, i)
  {
    var before := Init(sends);
    if i < HighWater(before) {
      var all := sends + [Some(seg)];
      forall k, l | 0 <= k < l < |before + [Some(seg)]| && (before + [Some(seg)])[k].Some? && (before + [Some(seg)])[l].Some?
        ensures (before + [Some(seg)])[k].value.from <= (before + [Some(seg)])[l].value.from
      {
        assert (before + [Some(seg)])[k] == all[k];
        assert (before + [Some(seg)])[l] == all[if l == |before| then |sends| else l];
      }
      BelowHighWaterWasDelivered(before, seg, i);
      var k :| 0 <= k < |before| && before[k].Some? && before[k].value.from <= i < before[k].value.to;
      assert sends[k] == before[k];
    } else {
      var k := |sends| - 1;
      assert (sends + [Some(seg)])[k] == sends[k] && (sends + [Some(seg)])[|sends|] == Some(seg);
      assert sends[k].value.from <= i < sends[k].value.to;
    }
  }

  lemma {:induction false} EmitAllAppend(cfg: Config, db: Db, xs: seq<WireEvent>, ys: seq<WireEvent>, now: Time)
    ensures EmitAll(cfg, db, xs + ys, now) == EmitAll(cfg, EmitAll(cfg, db, xs, now), ys, now)
  {
    if ys == [] {
      assert xs + ys == xs;
    } else {
      assert Init(xs + ys) == xs + Init(ys) && Last(xs + ys) == Last(ys);
      EmitAllAppend(cfg, db, xs, Init(ys), now);
    }
  }

  /** Leading reports that are already ignored may be left out of a batch. */
  lemma SkipIgnored(cfg: Config, db: Db, log: seq<WireEvent>, from: nat, mid: nat, to: nat, now: Time)
    requires from <= mid <= to <= |log| && forall j | from <= j < mid :: Ignored(db, log[j])
    ensures EmitAll(cfg, db, log[from..to], now) == EmitAll(cfg, db, log[mid..to], now)
  {
    assert log[from..to] == log[from..mid] + log[mid..to];
    EmitAllAppend(cfg, db, log[from..mid], log[mid..to], now);
    IgnoredBatchChangesNothing(cfg, db, log[from..mid], now);
  }

  lemma FifoPrefix(sends: seq<Option<Segment>>, k: nat, seg: Segment)
    requires Fifo(sends) && k < |sends| && sends[k] == Some(seg)
    ensures Fifo(sends[..k] + [Some(seg)]) && Fifo(sends[..k])
  {
  }

  lemma FlushStep(cfg: Config, dbs: seq<Db>, steps: seq<Step>, sends: seq<Option<Segment>>, log: seq<WireEvent>, k: nat)
    requires LogRun(cfg, dbs, steps, sends, log) && k < |steps|
    ensures Inv(dbs[k]) && Enabled(cfg, dbs[k], steps[k]) && dbs[k + 1] == Next(cfg, dbs[k], steps[k])
    ensures sends[k].Some? ==>
      && Sends(steps[k], log, sends[k].value)
      && dbs[k + 1] == EmitAll(cfg, dbs[k], log[sends[k].value.from..sends[k].value.to], steps[k].now)
  {
    ReachableInv(cfg, dbs, steps, k);
  }

  /** Where a segment's part above the high-water mark starts. */
  function Split(seg: Segment, hw: nat): (mid: nat)
    requires seg.from <= seg.to
    ensures seg.from <= mid <= seg.to
  {
    Min(Max(seg.from, hw), seg.to)
  }

  /** Everything delivered so far that may still be sent again is ignored. */
  ghost predicate PastIgnored(db: Db, sends: seq<Option<Segment>>, log: seq<WireEvent>, k: nat)
    requires k <= |sends|
  {
    forall i | 0 <= i < |log| && Delivered(sends[..k], i) && SentFrom(sends, k, i) :: Ignored(db, log[i])
  }

  /** A flush acts as its part above the high-water mark does: what lies below it was delivered and is ignored. */
  lemma FlushIsItsRest(cfg: Config, dbs: seq<Db>, steps: seq<Step>, sends: seq<Option<Segment>>, log: seq<WireEvent>, k: nat)
    requires LogRun(cfg, dbs, steps, sends, log) && k < |steps| && sends[k].Some?
    requires PastIgnored(dbs[k], sends, log, k)
    ensures Sends(steps[k], log, sends[k].value)
    ensures var seg := sends[k].value; var mid := Split(seg, HighWater(sends[..k]));
      dbs[k + 1] == EmitAll(cfg, dbs[k], log[mid..seg.to], steps[k].now)
  {
    FlushStep(cfg, dbs, steps, sends, log, k);
    var seg, hw := sends[k].value, HighWater(sends[..k]);
    forall j | seg.from <= j < Split(seg, hw) ensures Ignored(dbs[k], log[j]) {
      FifoPrefix(sends, k, seg);
      BelowHighWaterWasDelivered(sends[..k], seg, j);
      assert Carries(sends[k], j) && SentFrom(sends, k, j);
    }
    SkipIgnored(cfg, dbs[k], log, seg.from, Split(seg, hw), seg.to, steps[k].now);
  }

  /** After a stretch of the log, an item of it is ignored, and so is one before it that was: later ones are in order. */
  lemma StretchIgnores(cfg: Config, db: Db, log: seq<WireEvent>, mid: nat, to: nat, now: Time, i: nat)
    requires mid <= to <= |log| && i < |log| && (i < to || mid == to)
    requires i < mid || i >= to ==> Ignored(db, log[i])
    requires forall j | mid <= j < to && i < j :: InOrder(log[i], log[j])
    ensures Ignored(EmitAll(cfg, db, log[mid..to], now), log[i])
  {
    var rest := log[mid..to];
    forall j | 0 <= j < |rest| && i < mid + j ensures InOrder(log[i], rest[j]) {
      assert rest[j] == log[mid + j];
    }
    if mid <= i < to {
      assert rest[i - mid] == log[i];
      BatchIgnoredAfter(cfg, db, rest, now, i - mid);
    } else {
      EmitAllKeepsIgnored(cfg, db, rest, now, log[i]);
    }
  }

  /** Something this flush or an earlier one delivered, and a later one sends again, is at or after this flush's start. */
  lemma ResentStarts(sends: seq<Option<Segment>>, k: nat, i: nat)
    requires Fifo(sends) && k < |sends| && sends[k].Some? && SentFrom(sends, k + 1, i)
    ensures sends[k].value.from <= i && SentFrom(sends, k, i)
    ensures i < HighWater(sends[..k]) ==> Delivered(sends[..k], i)
    ensures Delivered(sends[..k], i) ==> i < HighWater(sends[..k])
  {
    var l :| k + 1 <= l < |sends| && Carries(sends[l], i);
    assert sends[k].value.from <= sends[l].value.from;
    FifoPrefix(sends, k, sends[k].value);
    if i < HighWater(sends[..k]) {
      BelowHighWaterWasDelivered(sends[..k], sends[k].value, i);
    }
    if Delivered(sends[..k], i) {
      DeliveredBelow(sends[..k], i);
    }
  }

  /** What this flush or an earlier one delivered, and a later one will send again, is ignored after it. */
  lemma FlushKeepsPast(
    cfg: Config, dbs: seq<Db>, steps: seq<Step>, sends: seq<Option<Segment>>, log: seq<WireEvent>, k: nat, i: nat)
    requires LogRun(cfg, dbs, steps, sends, log) && k < |steps| && sends[k].Some? && i < |log|
    requires PastIgnored(dbs[k], sends, log, k)
    requires Delivered(sends[..k + 1], i) && SentFrom(sends, k + 1, i)
    ensures Ignored(dbs[k + 1], log[i])
  {
    FlushIsItsRest(cfg, dbs, steps, sends, log, k);
    DeliveredLast(sends, k, i);
    ResentStarts(sends, k, i);
    var seg, hw := sends[k].value, HighWater(sends[..k]);
    var mid := Split(seg, hw);
    forall j | mid <= j < seg.to && i < j ensures InOrder(log[i], log[j]) {
      assert Carries(sends[k], i) && Carries(sends[k], j);
    }
    StretchIgnores(cfg, dbs[k], log, mid, seg.to, steps[k].now, i);
  }

  lemma DeliveredLast(sends: seq<Option<Segment>>, k: nat, i: nat)
    requires k < |sends| && Delivered(sends[..k + 1], i)
    ensures Delivered(sends[..k], i) || Carries(sends[k], i)
  {
  }

  /** The other steps do not revive it. */
  lemma QuietKeepsPast(
    cfg: Config, dbs: seq<Db>, steps: seq<Step>, sends: seq<Option<Segment>>, log: seq<WireEvent>, k: nat, i: nat)
    requires LogRun(cfg, dbs, steps, sends, log) && k < |steps| && sends[k].None? && i < |log|
    requires PastIgnored(dbs[k], sends, log, k)
    requires Delivered(sends[..k + 1], i) && SentFrom(sends, k + 1, i)
    ensures Ignored(dbs[k + 1], log[i])
  {
    DeliveredLast(sends, k, i);
    assert SentFrom(sends, k, i);
    FlushStep(cfg, dbs, steps, sends, log, k);
    IgnoredStays(cfg, dbs[k], steps[k], log[i]);
  }

  /** In every run: what was delivered and may still be sent again is ignored. */
  lemma {:induction false} DeliveredIsIgnored(
    cfg: Config, dbs: seq<Db>, steps: seq<Step>, sends: seq<Option<Segment>>, log: seq<WireEvent>, k: nat)
    requires LogRun(cfg, dbs, steps, sends, log) && k <= |steps|
    ensures PastIgnored(dbs[k], sends, log, k)
  {
    if k > 0 {
      DeliveredIsIgnored(cfg, dbs, steps, sends, log, k - 1);
      forall i | 0 <= i < |log| && Delivered(sends[..k], i) && SentFrom(sends, k, i) ensures Ignored(dbs[k], log[i]) {
        if sends[k - 1].Some? {
          FlushKeepsPast(cfg, dbs, steps, sends, log, k - 1, i);
        } else {
          QuietKeepsPast(cfg, dbs, steps, sends, log, k - 1, i);
        }
      }
    }
  }

  lemma {:induction false} DeliveredBelow(sends: seq<Option<Segment>>, i: nat)
    requires Delivered(sends, i)
    ensures i < HighWater(sends)
  {
    var k :| 0 <= k < |sends| && sends[k].Some? && sends[k].value.from <= i < sends[k].value.to;
    if k < |sends| - 1 {
      assert Init(sends)[k] == sends[k];
      DeliveredBelow(Init(sends), i);
    }
  }

  /** What a flush really adds: the part of its segment above the high-water mark. */
  function Trimmed(steps: seq<Step>, sends: seq<Option<Segment>>, log: seq<WireEvent>, k: nat): (step: Step)
    requires |steps| == |sends| && k < |steps|
    requires sends[k].Some? ==> Sends(steps[k], log, sends[k].value) && HighWater(sends[..k]) <= |log|
  {
    if sends[k].None? then steps[k]
    else
      var hw := HighWater(sends[..k]);
      EmitBatchStep(log[Max(sends[k].value.from, hw)..Max(sends[k].value.to, hw)], steps[k].now)
  }

  lemma {:induction false} HighWaterInLog(steps: seq<Step>, sends: seq<Option<Segment>>, log: seq<WireEvent>, k: nat)
    requires Flushes(steps, sends, log) && k <= |sends|
    ensures HighWater(sends[..k]) <= |log|
  {
    if k > 0 {
      assert Init(sends[..k]) == sends[..k - 1];
      HighWaterInLog(steps, sends, log, k - 1);
    }
  }

  /**
   At-least-once, first-in-first-out flushing has the effect of sending each report once: every flush, retries
   included, leaves the database that delivering only its never-delivered part would leave.
   */
  lemma FlushActsOnce(cfg: Config, dbs: seq<Db>, steps: seq<Step>, sends: seq<Option<Segment>>, log: seq<WireEvent>, k: nat)
    requires LogRun(cfg, dbs, steps, sends, log) && k < |steps|
    ensures HighWater(sends[..k]) <= |log|
    ensures sends[k].Some? ==> Sends(steps[k], log, sends[k].value)
    ensures Enabled(cfg, dbs[k], Trimmed(steps, sends, log, k))
    ensures dbs[k + 1] == Next(cfg, dbs[k], Trimmed(steps, sends, log, k))
  {
    HighWaterInLog(steps, sends, log, k);
    FlushStep(cfg, dbs, steps, sends, log, k);
    if sends[k].Some? {
      DeliveredIsIgnored(cfg, dbs, steps, sends, log, k);
      FlushIsItsRest(cfg, dbs, steps, sends, log, k);
      var seg, hw := sends[k].value, HighWater(sends[..k]);
      if seg.to < hw {
        assert log[seg.to..seg.to] == log[hw..hw];
      }
    }
  }

  /** The run with every report sent once. */
  function TrimmedRun(steps: seq<Step>, sends: seq<Option<Segment>>, log: seq<WireEvent>): (once: seq<Step>)
    requires Flushes(steps, sends, log) && forall k | 0 <= k < |sends| :: HighWater(sends[..k]) <= |log|
  {
    seq(|steps|, k requires 0 <= k < |steps| => Trimmed(steps, sends, log, k))
  }

  /** So the databases are also those of the run that sends every report at most once. */
  lemma RunSendsOnce(cfg: Config, dbs: seq<Db>, steps: seq<Step>, sends: seq<Option<Segment>>, log: seq<WireEvent>)
    requires LogRun(cfg, dbs, steps, sends, log)
    ensures forall k | 0 <= k < |sends| :: HighWater(sends[..k]) <= |log|
    ensures IsRun(cfg, dbs, TrimmedRun(steps, sends, log))
  {
    forall k | 0 <= k < |sends| ensures HighWater(sends[..k]) <= |log| {
      HighWaterInLog(steps, sends, log, k);
    }
    forall k | 0 <= k < |steps|
      ensures Enabled(cfg, dbs[k], Trimmed(steps, sends, log, k))
           && dbs[k + 1] == Next(cfg, dbs[k], Trimmed(steps, sends, log, k))
    {
      FlushActsOnce(cfg, dbs, steps, sends, log, k);
    }
  }

  /** When no report is ever sent again, the other steps are free, and so is the order of the log. */
  lemma NothingSentAgain(dbs: seq<Db>, steps: seq<Step>, sends: seq<Option<Segment>>, log: seq<WireEvent>)
    requires |dbs| == |steps| + 1 && Flushes(steps, sends, log)
    requires forall k, l | 0 <= k < l < |sends| && sends[k].Some? && sends[l].Some? :: sends[k].value.to <= sends[l].value.from
    ensures Fifo(sends) && Undisturbed(dbs, steps, sends, log) && ResentInOrder(sends, log)
  {
    forall k, i: nat | 0 <= k < |sends| && sends[k].None? && Delivered(sends[..k], i) ensures !SentFrom(sends, k, i) {
      var j :| 0 <= j < |sends[..k]| && Carries(sends[..k][j], i);
      assert Carries(sends[j], i);
    }
  }

  /** The reports carried by the trimmed flushes before step `k`, in order. */
  ghost function Carried(sends: seq<Option<Segment>>, log: seq<WireEvent>, k: nat): (evs: seq<WireEvent>)
    requires k <= |sends| && forall l | 0 <= l <= k :: HighWater(sends[..l]) <= |log|
    requires forall l | 0 <= l < k && sends[l].Some? :: sends[l].value.from <= sends[l].value.to <= |log|
  {
    if k == 0 then []
    else if sends[k - 1].None? then Carried(sends, log, k - 1)
    else
      var hw := HighWater(sends[..k - 1]);
      Carried(sends, log, k - 1) + log[Max(sends[k - 1].value.from, hw)..Max(sends[k - 1].value.to, hw)]
  }

  /** When nothing was shed, the trimmed flushes carry the log's sent prefix: every report once, in order. */
  lemma {:induction false} CarriedOnceInOrder(steps: seq<Step>, sends: seq<Option<Segment>>, log: seq<WireEvent>, k: nat)
    requires Flushes(steps, sends, log) && k <= |sends|
    requires Gapless(sends)
    ensures forall l | 0 <= l <= k :: HighWater(sends[..l]) <= |log|
    ensures Carried(sends, log, k) == log[..HighWater(sends[..k])]
  {
    forall l | 0 <= l <= k ensures HighWater(sends[..l]) <= |log| {
      HighWaterInLog(steps, sends, log, l);
    }
    if k > 0 {
      CarriedOnceInOrder(steps, sends, log, k - 1);
      assert Init(sends[..k]) == sends[..k - 1];
      var hw := HighWater(sends[..k - 1]);
      if sends[k - 1].Some? {
        assert Sends(steps[k - 1], log, sends[k - 1].value);
        var top := Max(sends[k - 1].value.to, hw);
        assert log[..hw] + log[hw..top] == log[..top];
      }
    }
  }

  /**
   The claim in between matters: a failure report changes the database exactly when its worker holds the
   granule, so a stale one that arrives after the same worker has leased the granule again fails the new attempt.
   */
  lemma FailureReportActsOnWhateverLease(cfg: Config, db: Db, ev: WireEvent, now: Time)
    requires ev.report.ProcessingFailed?
    ensures Emit(cfg, db, ev, now) != db <==> ev.granule in db.granules && HeldBy(db.granules[ev.granule], ev.workerId)
  {
  }
}
