/**
 Concrete runs of one granule: that the theorems about runs speak of runs in which things happen, and that what the
 code does not promise is really lost in some run.
 */
module Scenarios {
  import opened Basics
  import opened StateMachine
  import opened Store
  import opened Protocol
  import opened Preservation
  import opened Replay
  import opened Handlers
  import opened WorkerLink

  const BATCH: BatchId := 0
  const GID: Gid := Gid(BATCH, 0)
  const WORKER: WorkerId := 7

  const CREATE: Step := CreateBatchStep(BATCH, NewBatch(), {0}, 0)

  function NewBatch(): (b: Batch) {
    Batch(0, 0, None, false, 0)
  }

  /** The database that holds this one granule and nothing else but its batch. */
  function One(g: Granule): (db: Db) {
    EMPTY_DB.(granules := map[GID := g], batches := map[BATCH := NewBatch()])
  }

  function ClaimOne(now: Time): (step: Step) {
    ClaimStep(WORKER, 1, {GID}, now)
  }

  function HeldFrom(g: Granule, now: Time): (g': Granule) {
    Written(Claim(WORKER, now), g)
  }

  lemma Created(cfg: Config)
    ensures IsRun(cfg, [EMPTY_DB, One(NewGranule(0))], [CREATE])
  {
    assert Next(cfg, EMPTY_DB, CREATE).granules == One(NewGranule(0)).granules;
  }

  lemma NothingInflight(g: Granule)
    requires !Leased(g.state)
    ensures CountInflight(One(g), WORKER) == 0
  {
    assert LeasedTo(One(g), WORKER) == {};
    assert HostedBy(One(g), WORKER) == {};
  }

  lemma ClaimedOne(cfg: Config, g: Granule, now: Time)
    requires g.state == Pending && g.leasedBy.None?
    ensures IsRun(cfg, [One(g), One(HeldFrom(g, now))], [ClaimOne(now)])
    ensures Enabled(cfg, One(g), ClaimOne(now)) && BulkUpdate(One(g), {GID}, Claim(WORKER, now)) == One(HeldFrom(g, now))
  {
    NothingInflight(g);
    assert Selects(One(g), Claim(WORKER, now), GID);
    assert Next(cfg, One(g), ClaimOne(now)).granules == One(HeldFrom(g, now)).granules;
  }

  lemma RevokedOne(cfg: Config, g: Granule, now: Time)
    requires HeldBy(g, WORKER)
    ensures IsRun(cfg, [One(g), One(Written(Revoke(WORKER, now), g))], [BulkStep({GID}, Revoke(WORKER, now))])
  {
    var step := BulkStep({GID}, Revoke(WORKER, now));
    assert Selects(One(g), step.op, GID);
    assert Next(cfg, One(g), step).granules == One(Written(step.op, g)).granules;
  }

  lemma Joined(cfg: Config, dbs: seq<Db>, steps: seq<Step>, dbs': seq<Db>, steps': seq<Step>)
    requires IsRun(cfg, dbs, steps) && IsRun(cfg, dbs', steps') && Last(dbs) == dbs'[0]
    ensures IsRun(cfg, dbs + dbs'[1..], steps + steps')
  {
    var all, done := dbs + dbs'[1..], steps + steps';
    forall i | 0 <= i < |done| ensures Enabled(cfg, all[i], done[i]) && all[i + 1] == Next(cfg, all[i], done[i]) {
      if i < |steps| {
        assert done[i] == steps[i];
      } else {
        assert done[i] == steps'[i - |steps|] && all[i] == dbs'[i - |steps|] && all[i + 1] == dbs'[i + 1 - |steps|];
      }
    }
  }

  lemma Extended(cfg: Config, dbs: seq<Db>, steps: seq<Step>, dbs': seq<Db>, steps': seq<Step>)
    returns (all: seq<Db>, done: seq<Step>)
    requires IsRun(cfg, dbs, steps) && IsRun(cfg, dbs', steps') && Last(dbs) == dbs'[0]
    ensures IsRun(cfg, all, done) && all == dbs + dbs'[1..] && done == steps + steps' && Last(all) == Last(dbs')
  {
    Joined(cfg, dbs, steps, dbs', steps');
    all, done := dbs + dbs'[1..], steps + steps';
  }

  // ----- what a pending or deleted row may look like ----------------------------------------

  /** Whatever the cap, revocations alone take a granule past it and leave it pending. */
  lemma {:induction false} PendingPastAnyCap(cfg: Config, n: nat) returns (dbs: seq<Db>, steps: seq<Step>)
    ensures IsRun(cfg, dbs, steps) && dbs[0] == EMPTY_DB && Last(dbs) == One(NewGranule(0).(retryCount := n))
    ensures Last(dbs).granules[GID].state == Pending && Last(dbs).granules[GID].retryCount == n
  {
    if n == 0 {
      Created(cfg);
      dbs, steps := [EMPTY_DB, One(NewGranule(0))], [CREATE];
    } else {
      dbs, steps := PendingPastAnyCap(cfg, n - 1);
      var g := NewGranule(0).(retryCount := n - 1);
      var held := HeldFrom(g, 0);
      var freed := Written(Revoke(WORKER, 0), held);
      ClaimedOne(cfg, g, 0);
      RevokedOne(cfg, held, 0);
      dbs, steps := Extended(cfg, dbs, steps, [One(g), One(held)], [ClaimOne(0)]);
      dbs, steps := Extended(cfg, dbs, steps, [One(held), One(freed)], [BulkStep({GID}, Revoke(WORKER, 0))]);
    }
  }

  /** Added, and claimed at time 1. */
  lemma FirstLease(cfg: Config)
    ensures IsRun(cfg, [EMPTY_DB, One(NewGranule(0)), One(HeldFrom(NewGranule(0), 1))], [CREATE, ClaimOne(1)])
  {
    var held := One(HeldFrom(NewGranule(0), 1));
    Created(cfg);
    ClaimedOne(cfg, NewGranule(0), 1);
    Joined(cfg, [EMPTY_DB, One(NewGranule(0))], [CREATE], [One(NewGranule(0)), held], [ClaimOne(1)]);
    assert [EMPTY_DB, One(NewGranule(0))] + [One(NewGranule(0)), held][1..] == [EMPTY_DB, One(NewGranule(0)), held];
    assert [CREATE] + [ClaimOne(1)] == [CREATE, ClaimOne(1)];
  }

  /** A deletion may reach a granule that is leased, and the row then still names its worker. */
  lemma DeletedWithOwner(cfg: Config) returns (dbs: seq<Db>, steps: seq<Step>)
    ensures IsRun(cfg, dbs, steps) && dbs[0] == EMPTY_DB && GID in Last(dbs).granules
    ensures Last(dbs).granules[GID].state == Deleted && Last(dbs).granules[GID].leasedBy == Some(WORKER)
  {
    var held := One(HeldFrom(NewGranule(0), 1));
    var gone := FlipDeleted(held, GID, 2);
    FirstLease(cfg);
    dbs, steps := Extended(cfg, [EMPTY_DB, One(NewGranule(0)), held], [CREATE, ClaimOne(1)], [held, gone], [FlipStep(GID, 2)]);
  }

  // ----- sending reports again --------------------------------------------------------------

  const FAILURE: WireEvent := WireEvent(GID, WORKER, ProcessingFailed(Text(0, 0), None, None))
  const PROGRESS: WireEvent := WireEvent(GID, WORKER, DownloadStarted)

  function FailedRow(g: Granule, now: Time): (g': Granule) {
    Freed(g, now).(retryCount := g.retryCount + 1, error := Some(Text(0, 0)))
  }

  lemma FailedOne(cfg: Config, g: Granule, now: Time)
    requires HeldBy(g, WORKER) && g.retryCount + 1 < cfg.maxRetries
    ensures Emit(cfg, One(g), FAILURE, now) == One(FailedRow(g, now))
  {
    assert Emit(cfg, One(g), FAILURE, now).granules == One(FailedRow(g, now)).granules;
    assert Emit(cfg, One(g), FAILURE, now).objects == map[];
  }

  lemma ProgressActs(cfg: Config, g: Granule, now: Time)
    requires g.state == Queued && g.leasedBy == Some(WORKER)
    ensures var db' := Emit(cfg, One(g), PROGRESS, now);
      db'.receipts == map[] && GID in db'.granules && db'.granules[GID].state == Downloading
  {
  }

  lemma SingleBatch(cfg: Config, db: Db, ev: WireEvent, now: Time)
    ensures EmitAll(cfg, db, [ev], now) == Emit(cfg, db, ev, now)
  {
    assert Init([ev]) == [];
  }

  function Flush(ev: WireEvent, now: Time): (step: Step) {
    EmitBatchStep([ev], now)
  }

  /** A flush of one report. */
  lemma FlushedOne(cfg: Config, db: Db, ev: WireEvent, now: Time)
    requires db.receipts == map[]
    ensures IsRun(cfg, [db, Emit(cfg, db, ev, now)], [Flush(ev, now)])
  {
    SingleBatch(cfg, db, ev, now);
  }

  /** A flush of one report, and the same flush again. */
  lemma FlushedTwice(cfg: Config, db: Db, ev: WireEvent, now: Time, later: Time)
    requires db.receipts == map[] && Emit(cfg, db, ev, now).receipts == map[]
    ensures var db' := Emit(cfg, db, ev, now); IsRun(cfg, [db, db', db'], [Flush(ev, now), Flush(ev, later)])
  {
    var db' := Emit(cfg, db, ev, now);
    FlushedOne(cfg, db, ev, now);
    FlushedOne(cfg, db', ev, later);
    SingleBatch(cfg, db, ev, now);
    SingleBatch(cfg, db', ev, later);
    ReplayIsNoOp(cfg, db, [ev], now, later);
    Joined(cfg, [db, db'], [Flush(ev, now)], [db', db'], [Flush(ev, later)]);
    assert [db, db'] + [db', db'][1..] == [db, db', db'];
    assert [Flush(ev, now)] + [Flush(ev, later)] == [Flush(ev, now), Flush(ev, later)];
  }

  /** The ordinary retry: a failure, the same granule leased again, a report on the new lease; both flushes repeated. */
  const RETRY_STEPS: seq<Step> := [
    CREATE, ClaimOne(1), Flush(FAILURE, 2), Flush(FAILURE, 3), ClaimOne(4), Flush(PROGRESS, 5), Flush(PROGRESS, 6)]

  const RETRY_LOG: seq<WireEvent> := [FAILURE, PROGRESS]

  const RETRY_SENDS: seq<Option<Segment>> :=
    [None, None, Some(Segment(0, 1)), Some(Segment(0, 1)), None, Some(Segment(1, 2)), Some(Segment(1, 2))]

  /** The databases of that run, given its rows. */
  function RetryDbs(held: Granule, failed: Granule, again: Granule, ahead: Db): (dbs: seq<Db>) {
    [EMPTY_DB, One(NewGranule(0)), One(held), One(failed), One(failed), One(again), ahead, ahead]
  }

  /** Stretches of a run, joined and written out. */
  lemma Spliced<T>(e: T, a: T, b: T, c: T, d: T, x: T)
    ensures [e, a, b] + [b, c, c][1..] + [c, d][1..] + [d, x, x][1..] == [e, a, b, c, c, d, x, x]
    ensures [e, a, b] + [b, c][1..] + [c, d][1..] + [d, x][1..] == [e, a, b, c, d, x]
  {
  }

  lemma SplicedSteps<T>(s: T, t: T, u: T, v: T, w: T, x: T, y: T)
    ensures [s, t] + [u, v] + [w] + [x, y] == [s, t, u, v, w, x, y]
    ensures [s, t] + [u] + [v] + [w] == [s, t, u, v, w]
  {
  }

  lemma RetryRuns(cfg: Config, held: Granule, failed: Granule, again: Granule, ahead: Db)
    requires cfg.maxRetries > 1 && held == HeldFrom(NewGranule(0), 1) && failed == FailedRow(held, 2)
    requires again == HeldFrom(failed, 4) && ahead == Emit(cfg, One(again), PROGRESS, 5)
    ensures IsRun(cfg, RetryDbs(held, failed, again, ahead), RETRY_STEPS)
    ensures GID in ahead.granules && ahead.granules[GID].state == Downloading
  {
    FirstLease(cfg);
    FailedOne(cfg, held, 2);
    FlushedTwice(cfg, One(held), FAILURE, 2, 3);
    ClaimedOne(cfg, failed, 4);
    ProgressActs(cfg, again, 5);
    FlushedTwice(cfg, One(again), PROGRESS, 5, 6);
    var dbs, steps := [EMPTY_DB, One(NewGranule(0)), One(held)], [CREATE, ClaimOne(1)];
    dbs, steps := Extended(cfg, dbs, steps, [One(held), One(failed), One(failed)], [Flush(FAILURE, 2), Flush(FAILURE, 3)]);
    dbs, steps := Extended(cfg, dbs, steps, [One(failed), One(again)], [ClaimOne(4)]);
    dbs, steps := Extended(cfg, dbs, steps, [One(again), ahead, ahead], [Flush(PROGRESS, 5), Flush(PROGRESS, 6)]);
    Spliced(EMPTY_DB, One(NewGranule(0)), One(held), One(failed), One(again), ahead);
    SplicedSteps(CREATE, ClaimOne(1), Flush(FAILURE, 2), Flush(FAILURE, 3), ClaimOne(4), Flush(PROGRESS, 5), Flush(PROGRESS, 6));
  }

  /** The theorems about resent reports hold of that run: both first flushes act in it, neither repetition does. */
  lemma RetryIsALogRun(cfg: Config) returns (dbs: seq<Db>)
    requires cfg.maxRetries > 1
    ensures LogRun(cfg, dbs, RETRY_STEPS, RETRY_SENDS, RETRY_LOG) && dbs[0] == EMPTY_DB && !Ordered(RETRY_LOG)
    ensures dbs[3] != dbs[2] && dbs[4] == dbs[3] && dbs[6] != dbs[5] && dbs[7] == dbs[6]
  {
    var held := HeldFrom(NewGranule(0), 1);
    var failed := FailedRow(held, 2);
    var again := HeldFrom(failed, 4);
    var ahead := Emit(cfg, One(again), PROGRESS, 5);
    RetryRuns(cfg, held, failed, again, ahead);
    dbs := RetryDbs(held, failed, again, ahead);
    RowsDiffer(held, failed, again, ahead);
    EmptyInv();
    RetryShape(dbs);
  }

  lemma RowsDiffer(held: Granule, failed: Granule, again: Granule, ahead: Db)
    requires held.state == Queued && failed.state == Pending && again.state == Queued
    requires GID in ahead.granules && ahead.granules[GID].state == Downloading
    ensures One(held) != One(failed) && One(again) != ahead && !Ordered(RETRY_LOG)
  {
    assert One(held).granules[GID] != One(failed).granules[GID];
    assert !InOrder(RETRY_LOG[0], RETRY_LOG[1]);
  }

  lemma RetryShape(dbs: seq<Db>)
    requires |dbs| == |RETRY_STEPS| + 1
    ensures Fifo(RETRY_SENDS) && Flushes(RETRY_STEPS, RETRY_SENDS, RETRY_LOG)
    ensures Undisturbed(dbs, RETRY_STEPS, RETRY_SENDS, RETRY_LOG) && ResentInOrder(RETRY_SENDS, RETRY_LOG)
  {
    RetryFlushes();
    forall k, i: nat | 0 <= k < |RETRY_SENDS| && RETRY_SENDS[k].None? && Delivered(RETRY_SENDS[..k], i)
      ensures !SentFrom(RETRY_SENDS, k, i)
    {
      NothingPending(k, i);
    }
  }

  lemma RetryFlushes()
    ensures Fifo(RETRY_SENDS) && Flushes(RETRY_STEPS, RETRY_SENDS, RETRY_LOG) && ResentInOrder(RETRY_SENDS, RETRY_LOG)
  {
  }

  /** At the steps between the flushes nothing delivered is sent again. */
  lemma NothingPending(k: nat, i: nat)
    requires k < |RETRY_SENDS| && RETRY_SENDS[k].None? && Delivered(RETRY_SENDS[..k], i)
    ensures !SentFrom(RETRY_SENDS, k, i)
  {
    var j :| 0 <= j < |RETRY_SENDS[..k]| && Carries(RETRY_SENDS[..k][j], i);
    assert k == 4 && i == 0;
  }

  // ----- a claim between a flush and its repetition -----------------------------------------

  const STALE_STEPS: seq<Step> := [CREATE, ClaimOne(1), Flush(FAILURE, 2), ClaimOne(4), Flush(FAILURE, 5)]

  const STALE_LOG: seq<WireEvent> := [FAILURE]

  const STALE_SENDS: seq<Option<Segment>> := [None, None, Some(Segment(0, 1)), None, Some(Segment(0, 1))]

  function StaleDbs(held: Granule, failed: Granule, again: Granule, lost: Db): (dbs: seq<Db>) {
    [EMPTY_DB, One(NewGranule(0)), One(held), One(failed), One(again), lost]
  }

  lemma StaleRuns(cfg: Config, held: Granule, failed: Granule, again: Granule, lost: Db)
    requires cfg.maxRetries > 1 && held == HeldFrom(NewGranule(0), 1) && failed == FailedRow(held, 2)
    requires again == HeldFrom(failed, 4) && lost == Emit(cfg, One(again), FAILURE, 5)
    ensures IsRun(cfg, StaleDbs(held, failed, again, lost), STALE_STEPS)
  {
    FirstLease(cfg);
    FailedOne(cfg, held, 2);
    FlushedOne(cfg, One(held), FAILURE, 2);
    ClaimedOne(cfg, failed, 4);
    FlushedOne(cfg, One(again), FAILURE, 5);
    var dbs, steps := [EMPTY_DB, One(NewGranule(0)), One(held)], [CREATE, ClaimOne(1)];
    dbs, steps := Extended(cfg, dbs, steps, [One(held), One(failed)], [Flush(FAILURE, 2)]);
    dbs, steps := Extended(cfg, dbs, steps, [One(failed), One(again)], [ClaimOne(4)]);
    dbs, steps := Extended(cfg, dbs, steps, [One(again), lost], [Flush(FAILURE, 5)]);
    Spliced(EMPTY_DB, One(NewGranule(0)), One(held), One(failed), One(again), lost);
    SplicedSteps(CREATE, ClaimOne(1), Flush(FAILURE, 2), ClaimOne(4), Flush(FAILURE, 5), CREATE, CREATE);
  }

  /**
   The claim in between does matter: the reply to a failure report is lost, the worker leases the granule again before
   it repeats the request, and the repetition, which carries nothing new, takes the new lease away.
   */
  lemma StaleFailureHitsNewLease(cfg: Config) returns (dbs: seq<Db>)
    requires cfg.maxRetries > 1
    ensures IsRun(cfg, dbs, STALE_STEPS) && dbs[0] == EMPTY_DB
    ensures Flushes(STALE_STEPS, STALE_SENDS, STALE_LOG) && Fifo(STALE_SENDS) && ResentInOrder(STALE_SENDS, STALE_LOG)
    ensures !Undisturbed(dbs, STALE_STEPS, STALE_SENDS, STALE_LOG) && HighWater(STALE_SENDS[..4]) == 1
    ensures dbs[5] != dbs[4] && dbs[5] != Next(cfg, dbs[4], Trimmed(STALE_STEPS, STALE_SENDS, STALE_LOG, 4))
  {
    var held := HeldFrom(NewGranule(0), 1);
    var failed := FailedRow(held, 2);
    var again := HeldFrom(failed, 4);
    var lost := Emit(cfg, One(again), FAILURE, 5);
    StaleRuns(cfg, held, failed, again, lost);
    FailureReportActsOnWhateverLease(cfg, One(again), FAILURE, 5);
    dbs := StaleDbs(held, failed, again, lost);
    StaleShape(dbs);
    NothingSent(cfg, dbs[4]);
  }

  lemma NothingSent(cfg: Config, db: Db)
    ensures Next(cfg, db, EmitBatchStep([], 5)) == db
  {
  }

  lemma StaleShape(dbs: seq<Db>)
    requires |dbs| == |STALE_STEPS| + 1
    ensures Flushes(STALE_STEPS, STALE_SENDS, STALE_LOG) && Fifo(STALE_SENDS) && ResentInOrder(STALE_SENDS, STALE_LOG)
    ensures !Undisturbed(dbs, STALE_STEPS, STALE_SENDS, STALE_LOG) && HighWater(STALE_SENDS[..4]) == 1
    ensures Trimmed(STALE_STEPS, STALE_SENDS, STALE_LOG, 4) == EmitBatchStep([], 5)
  {
    StaleHighWater();
    assert Carries(STALE_SENDS[..3][2], 0) && Carries(STALE_SENDS[4], 0);
    assert Delivered(STALE_SENDS[..3], 0) && SentFrom(STALE_SENDS, 3, 0);
    assert !Quiet(dbs[3], STALE_STEPS[3], STALE_LOG[0]);
  }

  lemma StaleHighWater()
    ensures HighWater(STALE_SENDS[..4]) == 1
  {
    assert STALE_SENDS[..1] == [None] && Init(STALE_SENDS[..1]) == [];
    assert HighWater(STALE_SENDS[..1]) == 0;
    assert Init(STALE_SENDS[..2]) == STALE_SENDS[..1];
    assert HighWater(STALE_SENDS[..2]) == 0;
    assert Init(STALE_SENDS[..3]) == STALE_SENDS[..2];
    assert HighWater(STALE_SENDS[..3]) == 1;
    assert Init(STALE_SENDS[..4]) == STALE_SENDS[..3];
  }

  // ----- a granule leased again under its running handler -----------------------------------

  const AT_ONCE: Delays := Delays(0, 0)
  const SPAN: Time := RECLAIM_GRACE + 1
  const ARRIVED: LeaseReply := LeaseReply(GID, 0)
  const SILENT: Beat := Beat({}, SPAN)
  const REVOKE: Step := BulkStep({GID}, Revoke(WORKER, 0))

  /** One step of the link, with messages that take no time. */
  ghost predicate Goes(cfg: Config, l: Link, s: LinkStep, l': Link) {
    LinkRun(cfg, AT_ONCE, WORKER, [l, l'], [s])
  }

  lemma LinkJoined(cfg: Config, ls: seq<Link>, steps: seq<LinkStep>, ls': seq<Link>, steps': seq<LinkStep>)
    returns (all: seq<Link>, done: seq<LinkStep>)
    requires LinkRun(cfg, AT_ONCE, WORKER, ls, steps) && LinkRun(cfg, AT_ONCE, WORKER, ls', steps') && Last(ls) == ls'[0]
    ensures LinkRun(cfg, AT_ONCE, WORKER, all, done) && Last(all) == Last(ls')
    ensures all == ls + ls'[1..] && done == steps + steps'
  {
    all, done := ls + ls'[1..], steps + steps';
    forall i | 0 <= i < |done|
      ensures InTime(AT_ONCE, all[i]) && Possible(cfg, WORKER, all[i], done[i])
           && all[i + 1] == After(cfg, WORKER, all[i], done[i])
    {
      if i < |steps| {
        assert done[i] == steps[i];
      } else {
        assert done[i] == steps'[i - |steps|] && all[i] == ls'[i - |steps|] && all[i + 1] == ls'[i + 1 - |steps|];
      }
    }
  }

  lemma OrchestratorGoes(cfg: Config, l: Link, db: Db, step: Step)
    requires IsRun(cfg, [l.db, db], [step]) && Timely(WORKER, l.now, step) && InTime(AT_ONCE, l)
    ensures Goes(cfg, l, Orchestrate(step), l.(db := db))
  {
    assert [l.db, db][1] == db && [step][0] == step;
  }

  lemma ClaimedLink(l: Link, db: Db)
    requires l.claims.Keys <= {GID} && l.now == 0 && l.replies == {} && db == BulkUpdate(l.db, {GID}, Claim(WORKER, 0))
    ensures Claimed(WORKER, l, {GID}) == l.(db := db, claims := map[GID := 0], replies := {ARRIVED})
  {
    var claimed := Claimed(WORKER, l, {GID});
    assert claimed.claims == map[GID := 0];
    assert claimed.replies == {ARRIVED};
  }

  lemma ClaimGoes(cfg: Config, l: Link, g: Granule)
    requires l.db == One(g) && g.state == Pending && g.leasedBy.None? && l.claims.Keys <= {GID}
    requires l.now == 0 && l.replies == {} && l.beats == {}
    ensures Goes(cfg, l, ClaimHere(1, {GID}),
                 l.(db := One(HeldFrom(g, 0)), claims := map[GID := 0], replies := {ARRIVED}))
  {
    ClaimedOne(cfg, g, 0);
    ClaimedLink(l, One(HeldFrom(g, 0)));
    PossibleGoes(cfg, l, ClaimHere(1, {GID}), Claimed(WORKER, l, {GID}));
  }

  lemma PossibleGoes(cfg: Config, l: Link, s: LinkStep, l': Link)
    requires Possible(cfg, WORKER, l, s) && l' == After(cfg, WORKER, l, s) && l.replies == {} && l.beats == {}
    ensures Goes(cfg, l, s, l')
  {
  }

  lemma ArriveGoes(cfg: Config, l: Link)
    requires l.now == 0 && l.replies == {} && l.beats == {}
    ensures Goes(cfg, l.(replies := {ARRIVED}), ReplyArrives(ARRIVED), Arrive(l, GID))
  {
    assert {ARRIVED} - {ARRIVED} == {};
  }

  lemma EndGoes(cfg: Config, l: Link, task: TaskId)
    requires task in l.tasks && l.replies == {} && l.beats == {}
    ensures Goes(cfg, l, TaskEnds(task), Finish(l, task))
  {
  }

  /** A minute of silence, and then a report of nothing. */
  lemma WaitGoes(cfg: Config, l: Link)
    requires l.now == 0 && l.replies == {} && l.beats == {}
    ensures Goes(cfg, l, Tick(SPAN), l.(now := SPAN))
  {
  }

  lemma SendGoes(cfg: Config, l: Link)
    requires l.now == SPAN && l.replies == {} && l.beats == {} && Active(l) == {}
    ensures Goes(cfg, l, SendBeat, l.(beats := {SILENT}))
  {
    assert {} + {Beat({}, SPAN)} == {SILENT};
  }

  /** The reconcile under the running handler. */
  lemma Reclaimed(held: Granule)
    requires HeldBy(held, WORKER) && held.updatedAt == 0
    ensures HeartbeatUpdate(One(held), WORKER, Some({}), SPAN) == One(Freed(held, SPAN))
  {
    var lost := HeartbeatUpdate(One(held), WORKER, Some({}), SPAN);
    HeartbeatRow(One(held), WORKER, {}, SPAN, GID);
    assert lost.granules == One(Freed(held, SPAN)).granules;
  }

  lemma BeatGoes(cfg: Config, l: Link, held: Granule)
    requires l.db == One(held) && HeldBy(held, WORKER) && held.updatedAt == 0
    requires l.now == SPAN && l.replies == {} && l.beats == {}
    ensures Goes(cfg, l.(beats := {SILENT}), BeatArrives(SILENT), l.(db := One(Freed(held, SPAN))))
  {
    Reclaimed(held);
    assert {SILENT} - {SILENT} == {};
  }

  /** The worker's side at rest, with these handlers running and in its dictionary. */
  function Resting(g: Granule, now: Time, tasks: map<TaskId, Gid>, handlers: map<Gid, TaskId>, next: TaskId): (l: Link) {
    Link(One(g), now, map[GID := 0], {}, {}, tasks, handlers, next, [], [])
  }

  /** Leased for the first time. */
  lemma FirstLeaseGoes(cfg: Config, l: Link, g: Granule)
    requires l == Link(EMPTY_DB, 0, map[], {}, {}, map[], map[], 0, [], []) && g == NewGranule(0)
    ensures var held := HeldFrom(g, 0);
      LinkRun(cfg, AT_ONCE, WORKER,
              [l, l.(db := One(g)), Resting(held, 0, map[], map[], 0).(replies := {ARRIVED}),
               Resting(held, 0, map[0 := GID], map[GID := 0], 1)],
              [Orchestrate(CREATE), ClaimHere(1, {GID}), ReplyArrives(ARRIVED)])
  {
    var held := HeldFrom(g, 0);
    var added, asked := l.(db := One(g)), Resting(held, 0, map[], map[], 0);
    Created(cfg);
    OrchestratorGoes(cfg, l, One(g), CREATE);
    ClaimGoes(cfg, added, g);
    ArriveGoes(cfg, asked);
    ThreeGo(cfg, l, added, asked.(replies := {ARRIVED}), Arrive(asked, GID), Orchestrate(CREATE), ClaimHere(1, {GID}), ReplyArrives(ARRIVED));
  }

  lemma ThreeGo(cfg: Config, a: Link, b: Link, c: Link, d: Link, s: LinkStep, s': LinkStep, s'': LinkStep)
    requires Goes(cfg, a, s, b) && Goes(cfg, b, s', c) && Goes(cfg, c, s'', d)
    ensures LinkRun(cfg, AT_ONCE, WORKER, [a, b, c, d], [s, s', s''])
  {
    var ls, steps := LinkJoined(cfg, [a, b], [s], [b, c], [s']);
    ls, steps := LinkJoined(cfg, ls, steps, [c, d], [s'']);
    LinkSpliced(a, b, c, d);
    LinkSpliced(s, s', s'', s'');
  }

  lemma LinkSpliced<T>(a: T, b: T, c: T, d: T)
    ensures [a, b] + [b, c][1..] + [c, d][1..] == [a, b, c, d]
    ensures [a] + [b] + [c] == [a, b, c]
  {
  }

  /** Revoked by the operator and leased to the same worker again, while its handler still runs. */
  lemma SecondLeaseGoes(cfg: Config, held: Granule, freed: Granule, again: Granule)
    requires HeldBy(held, WORKER) && freed == Written(Revoke(WORKER, 0), held) && again == HeldFrom(freed, 0)
    ensures LinkRun(cfg, AT_ONCE, WORKER,
              [Resting(held, 0, map[0 := GID], map[GID := 0], 1), Resting(freed, 0, map[0 := GID], map[GID := 0], 1),
               Resting(again, 0, map[0 := GID], map[GID := 0], 1).(replies := {ARRIVED}),
               Resting(again, 0, map[0 := GID, 1 := GID], map[GID := 1], 2)],
              [Orchestrate(REVOKE), ClaimHere(1, {GID}), ReplyArrives(ARRIVED)])
  {
    var l := Resting(held, 0, map[0 := GID], map[GID := 0], 1);
    var revoked, asked := l.(db := One(freed)), l.(db := One(again));
    RevokedOne(cfg, held, 0);
    OrchestratorGoes(cfg, l, One(freed), REVOKE);
    ClaimGoes(cfg, revoked, freed);
    ArriveGoes(cfg, asked);
    ThreeGo(cfg, l, revoked, asked.(replies := {ARRIVED}), Arrive(asked, GID), Orchestrate(REVOKE), ClaimHere(1, {GID}), ReplyArrives(ARRIVED));
    assert Arrive(asked, GID) == Resting(again, 0, map[0 := GID, 1 := GID], map[GID := 1], 2);
  }

  /** The second handler ends at once, a minute passes, and the report that follows is empty. */
  lemma SilenceGoes(cfg: Config, again: Granule)
    requires HeldBy(again, WORKER) && again.updatedAt == 0
    ensures LinkRun(cfg, AT_ONCE, WORKER,
              [Resting(again, 0, map[0 := GID, 1 := GID], map[GID := 1], 2), Resting(again, 0, map[0 := GID], map[], 2),
               Resting(again, SPAN, map[0 := GID], map[], 2), Resting(again, SPAN, map[0 := GID], map[], 2).(beats := {SILENT})],
              [TaskEnds(1), Tick(SPAN), SendBeat])
  {
    var l := Resting(again, 0, map[0 := GID, 1 := GID], map[GID := 1], 2);
    var alone, later := Resting(again, 0, map[0 := GID], map[], 2), Resting(again, SPAN, map[0 := GID], map[], 2);
    EndGoes(cfg, l, 1);
    assert Finish(l, 1).tasks == alone.tasks && Finish(l, 1).handlers == alone.handlers;
    WaitGoes(cfg, alone);
    SendGoes(cfg, later);
    ThreeGo(cfg, l, alone, later, later.(beats := {SILENT}), TaskEnds(1), Tick(SPAN), SendBeat);
  }

  const LOSING_STEPS: seq<LinkStep> := [
    Orchestrate(CREATE), ClaimHere(1, {GID}), ReplyArrives(ARRIVED), Orchestrate(REVOKE), ClaimHere(1, {GID}),
    ReplyArrives(ARRIVED), TaskEnds(1), Tick(SPAN), SendBeat, BeatArrives(SILENT)]

  function LosingLinks(held: Granule, freed: Granule, again: Granule): (ls: seq<Link>) {
    var idle := Link(EMPTY_DB, 0, map[], {}, {}, map[], map[], 0, [], []);
    [idle, idle.(db := One(NewGranule(0))),
     Resting(held, 0, map[], map[], 0).(replies := {ARRIVED}),
     Resting(held, 0, map[0 := GID], map[GID := 0], 1),
     Resting(freed, 0, map[0 := GID], map[GID := 0], 1),
     Resting(again, 0, map[0 := GID], map[GID := 0], 1).(replies := {ARRIVED}),
     Resting(again, 0, map[0 := GID, 1 := GID], map[GID := 1], 2),
     Resting(again, 0, map[0 := GID], map[], 2),
     Resting(again, SPAN, map[0 := GID], map[], 2),
     Resting(again, SPAN, map[0 := GID], map[], 2).(beats := {SILENT}),
     Resting(Freed(again, SPAN), SPAN, map[0 := GID], map[], 2)]
  }

  lemma LosingSpliced<T>(a: T, b: T, c: T, d: T, e: T, f: T, g: T, h: T, i: T, j: T, k: T)
    ensures [a, b, c, d] + [d, e, f, g][1..] + [g, h, i, j][1..] + [j, k][1..] == [a, b, c, d, e, f, g, h, i, j, k]
    ensures [a, b, c] + [d, e, f] + [g, h, i] + [j] == [a, b, c, d, e, f, g, h, i, j]
  {
  }

  lemma LosingRun(cfg: Config, held: Granule, freed: Granule, again: Granule)
    requires held == HeldFrom(NewGranule(0), 0) && freed == Written(Revoke(WORKER, 0), held) && again == HeldFrom(freed, 0)
    ensures LinkRun(cfg, AT_ONCE, WORKER, LosingLinks(held, freed, again), LOSING_STEPS)
  {
    var at := LosingLinks(held, freed, again);
    FirstLeaseGoes(cfg, at[0], NewGranule(0));
    SecondLeaseGoes(cfg, held, freed, again);
    SilenceGoes(cfg, again);
    BeatGoes(cfg, at[8], again);
    LosingAssembled(cfg, at, LOSING_STEPS);
  }

  lemma LosingAssembled(cfg: Config, at: seq<Link>, s: seq<LinkStep>)
    requires |at| == 11 && |s| == 10
    requires LinkRun(cfg, AT_ONCE, WORKER, [at[0], at[1], at[2], at[3]], [s[0], s[1], s[2]])
    requires LinkRun(cfg, AT_ONCE, WORKER, [at[3], at[4], at[5], at[6]], [s[3], s[4], s[5]])
    requires LinkRun(cfg, AT_ONCE, WORKER, [at[6], at[7], at[8], at[9]], [s[6], s[7], s[8]])
    requires LinkRun(cfg, AT_ONCE, WORKER, [at[9], at[10]], [s[9]])
    ensures LinkRun(cfg, AT_ONCE, WORKER, at, s)
  {
    var ls, steps := LinkJoined(cfg, [at[0], at[1], at[2], at[3]], [s[0], s[1], s[2]],
                                [at[3], at[4], at[5], at[6]], [s[3], s[4], s[5]]);
    ls, steps := LinkJoined(cfg, ls, steps, [at[6], at[7], at[8], at[9]], [s[6], s[7], s[8]]);
    ls, steps := LinkJoined(cfg, ls, steps, [at[9], at[10]], [s[9]]);
    LosingSpliced(at[0], at[1], at[2], at[3], at[4], at[5], at[6], at[7], at[8], at[9], at[10]);
    LosingSpliced(s[0], s[1], s[2], s[3], s[4], s[5], s[6], s[7], s[8], s[9], s[9]);
    assert ls == at && steps == s;
  }

  /**
   What popping by granule id costs, in a run that starts with a fresh worker and in which every message takes no time:
   the one step that names a granule still handled is the second lease reply, and the run ends with the granule
   pending under the running first handler.
   */
  lemma LeasedAgainLosesWork(cfg: Config) returns (ls: seq<Link>)
    ensures LinkRun(cfg, AT_ONCE, WORKER, ls, LOSING_STEPS) && WorkerLink.Started(WORKER, ls[0])
    ensures forall i | 0 <= i < |LOSING_STEPS| :: NotHandled(ls[i], LOSING_STEPS[i]) <==> i != 5
    ensures GID in Busy(ls[9]) && GID in ls[9].db.granules && HeldBy(ls[9].db.granules[GID], WORKER)
    ensures GID in Busy(ls[10]) && GID in ls[10].db.granules && ls[10].db.granules[GID].state == Pending
  {
    var held := HeldFrom(NewGranule(0), 0);
    var freed := Written(Revoke(WORKER, 0), held);
    var again := HeldFrom(freed, 0);
    ls := LosingLinks(held, freed, again);
    LosingRun(cfg, held, freed, again);
    LosingEnds(held, freed, again);
    EmptyInv();
  }

  lemma LosingEnds(held: Granule, freed: Granule, again: Granule)
    requires HeldBy(again, WORKER)
    ensures var ls := LosingLinks(held, freed, again);
      && (forall i | 0 <= i < |LOSING_STEPS| :: NotHandled(ls[i], LOSING_STEPS[i]) <==> i != 5)
      && GID in Busy(ls[9]) && GID in ls[9].db.granules && HeldBy(ls[9].db.granules[GID], WORKER)
      && GID in Busy(ls[10]) && GID in ls[10].db.granules && ls[10].db.granules[GID].state == Pending
  {
    var ls := LosingLinks(held, freed, again);
    assert ls[9].tasks[0] == GID && ls[10].tasks[0] == GID;
  }
}
