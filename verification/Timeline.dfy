/** The stage timeline and failure record a granule's row accumulates through its reports. */
module Timeline {
  import opened Basics
  import opened StateMachine
  import opened Store
  import opened Replay

  /** The report is accepted for the row at `t`, giving this row and these stage rows. */
  predicate Advances(g: Granule, w: WorkerId, report: Report, t: Time, maxRetries: nat, g': Granule, rows: seq<StageRow>) {
    var o := ApplyReport(SnapshotOf(g), w, report, t, maxRetries);
    o.Accepted? && g' == Patched(g, o.result) && rows == o.result.stageRows
  }

  /** The state each single-step report leads to, and the stage it closes. */
  function TargetOf(report: Report): (s: GranuleState)
    requires report.DownloadStarted? || report.DownloadFinished? || report.ProcessStarted? || report.ProcessFinished?
          || report.UploadStarted? || report.UploadCompleted?
  {
    match report
    case DownloadStarted => Downloading
    case DownloadFinished => Downloaded
    case ProcessStarted(_) => Processing
    case ProcessFinished => Processed
    case UploadStarted => Uploading
    case UploadCompleted(_, _, _) => Uploaded
  }

  /** One step of the six-report path: the stage closed runs from the row's last change to now. */
  lemma StepCloses(g: Granule, w: WorkerId, report: Report, t: Time, maxRetries: nat, g': Granule, rows: seq<StageRow>, stage: Stage)
    requires Advances(g, w, report, t, maxRetries, g', rows)
    requires || (report.DownloadStarted? && stage == DownloadWait)
             || (report.DownloadFinished? && stage == Download)
             || (report.ProcessStarted? && g.state == Downloaded && stage == ProcessWait)
             || (report.ProcessFinished? && stage == Process)
             || (report.UploadStarted? && stage == UploadWait)
             || (report.UploadCompleted? && g.state == Uploading && stage == Upload)
    ensures g'.state == TargetOf(report) && g'.updatedAt == t && rows == [StageRow(stage, g.updatedAt, t)]
    ensures !report.UploadCompleted? ==> g'.leasedBy == g.leasedBy && g'.leaseExpiresAt == g.leaseExpiresAt
  {
  }

  /** The six reports of the single-step path, the stage each closes and the state it leads to. */
  function PathStage(i: nat): (stage: Stage)
    requires i < 6
  {
    if i == 0 then DownloadWait else if i == 1 then Download else if i == 2 then ProcessWait
    else if i == 3 then Process else if i == 4 then UploadWait else Upload
  }

  function PathState(i: nat): (s: GranuleState)
    requires i <= 6
  {
    if i == 0 then Queued else if i == 1 then Downloading else if i == 2 then Downloaded else if i == 3 then Processing
    else if i == 4 then Processed else if i == 5 then Uploading else Uploaded
  }

  predicate OnPath(report: Report, i: nat)
    requires i < 6
  {
    if i == 0 then report.DownloadStarted? else if i == 1 then report.DownloadFinished?
    else if i == 2 then report.ProcessStarted? else if i == 3 then report.ProcessFinished?
    else if i == 4 then report.UploadStarted? else report.UploadCompleted?
  }

  /** A path: row, report, time and stage rows step by step. */
  ghost predicate Path(gs: seq<Granule>, reports: seq<Report>, ts: seq<Time>, rows: seq<seq<StageRow>>, w: WorkerId, maxRetries: nat) {
    && |reports| == |rows| <= 6 && |gs| == |ts| == |reports| + 1
    && gs[0].state == Queued && gs[0].updatedAt == ts[0]
    && (forall i | 0 <= i < |reports| :: OnPath(reports[i], i))
    && (forall i | 0 <= i < |reports| :: Advances(gs[i], w, reports[i], ts[i + 1], maxRetries, gs[i + 1], rows[i]))
  }

  lemma {:induction false} PathStep(gs: seq<Granule>, reports: seq<Report>, ts: seq<Time>, rows: seq<seq<StageRow>>,
                                    w: WorkerId, maxRetries: nat, n: nat)
    requires Path(gs, reports, ts, rows, w, maxRetries) && n <= |reports|
    ensures gs[n].state == PathState(n) && gs[n].updatedAt == ts[n]
    ensures forall i | 0 <= i < n :: rows[i] == [StageRow(PathStage(i), ts[i], ts[i + 1])]
  {
    if n > 0 {
      PathStep(gs, reports, ts, rows, w, maxRetries, n - 1);
      var i := n - 1;
      assert OnPath(reports[i], i) && Advances(gs[i], w, reports[i], ts[i + 1], maxRetries, gs[i + 1], rows[i]);
      StepCloses(gs[i], w, reports[i], ts[i + 1], maxRetries, gs[i + 1], rows[i], PathStage(i));
    }
  }

  /**
   The stages of the single-step path tile the time from the claim to the upload: each starts where the one before
   ended, in pipeline order, so their durations add up to the whole.
   */
  lemma StagesTile(gs: seq<Granule>, reports: seq<Report>, ts: seq<Time>, rows: seq<seq<StageRow>>, w: WorkerId, maxRetries: nat)
    requires Path(gs, reports, ts, rows, w, maxRetries) && forall i | 0 <= i < |reports| :: ts[i] <= ts[i + 1]
    ensures Last(gs).state == PathState(|reports|)
    ensures forall i | 0 <= i < |reports| :: rows[i] == [StageRow(PathStage(i), ts[i], ts[i + 1])]
    ensures TotalDuration(rows) == Last(ts) - ts[0]
  {
    PathStep(gs, reports, ts, rows, w, maxRetries, |reports|);
    forall i | 0 <= i < |rows| ensures |rows[i]| == 1 && rows[i][0].startedAt == ts[i] && rows[i][0].finishedAt == ts[i + 1] {
      assert rows[i] == [StageRow(PathStage(i), ts[i], ts[i + 1])];
    }
    TiledRowsAddUp(rows, ts);
  }

  /** A success gives up the lease and leaves no failure report behind. */
  lemma SuccessLeaves(g: Granule, w: WorkerId, objects: seq<UploadedObject>, processMs: Option<int>, fetchMs: Option<int>,
                     t: Time, maxRetries: nat, g': Granule, rows: seq<StageRow>)
    requires Advances(g, w, UploadCompleted(objects, processMs, fetchMs), t, maxRetries, g', rows)
    ensures g'.state == Uploaded && g'.leasedBy.None? && g'.leaseExpiresAt.None?
    ensures g'.error.None? && g'.stdoutTail.None? && g'.stderrTail.None? && g'.retryCount == g.retryCount
  {
  }

  /** Rows that follow on from each other last as long as the time they span. */
  lemma {:induction false} TiledRowsAddUp(rows: seq<seq<StageRow>>, ts: seq<Time>)
    requires |ts| == |rows| + 1
    requires forall i | 0 <= i < |rows| :: ts[i] <= ts[i + 1]
    requires forall i | 0 <= i < |rows| ::
      |rows[i]| == 1 && rows[i][0].startedAt == ts[i] && rows[i][0].finishedAt == ts[i + 1]
    ensures TotalDuration(rows) == Last(ts) - ts[0]
  {
    if rows != [] {
      TiledRowsAddUp(Init(rows), Init(ts));
      assert ts[|rows| - 1] <= ts[|rows| - 1 + 1];
    }
  }

  function TotalDuration(rows: seq<seq<StageRow>>): (n: nat) {
    if rows == [] then 0
    else TotalDuration(Init(rows)) + if Last(rows) == [] then 0 else TimingOf(Last(rows)[0]).durationMs
  }

  /**
   A failure is recorded exactly once, in the capped texts, and gives the granule up; it stops for good exactly when
   the attempts reach the cap.
   */
  lemma FailureLeaves(g: Granule, w: WorkerId, error: Text, out: Option<Text>, err: Option<Text>, t: Time, maxRetries: nat,
                      g': Granule, rows: seq<StageRow>)
    requires Advances(g, w, ProcessingFailed(error, out, err), t, maxRetries, g', rows)
    ensures Leased(g.state) && rows == [] && g'.updatedAt == t
    ensures g'.leasedBy.None? && g'.leaseExpiresAt.None? && g'.retryCount == g.retryCount + 1
    ensures g'.state == Blacklisted <==> g.retryCount + 1 >= maxRetries
    ensures g'.state == Blacklisted || g'.state == Pending
    ensures g'.error.Some? && g'.error.value.source == error.source && g'.error.value.length == Min(error.length, 2000)
    ensures if out.Some? then g'.stdoutTail.Some? && g'.stdoutTail.value.source == out.value.source
                              && g'.stdoutTail.value.length == Min(out.value.length, 16000)
            else g'.stdoutTail == g.stdoutTail
    ensures if err.Some? then g'.stderrTail.Some? && g'.stderrTail.value.source == err.value.source
                              && g'.stderrTail.value.length == Min(err.value.length, 16000)
            else g'.stderrTail == g.stderrTail
  {
  }

  /** The uploaded rows are the reported objects, in order, hosted by the reporting worker and free to be pulled. */
  lemma UploadedRowsMatch(cfg: Config, snap: Snapshot, w: WorkerId, objects: seq<UploadedObject>, processMs: Option<int>,
                          fetchMs: Option<int>, gid: Gid, t: Time, i: nat)
    requires ApplyReport(snap, w, UploadCompleted(objects, processMs, fetchMs), t, cfg.maxRetries).Accepted?
    requires i < |objects| && cfg.maxPullFailures > 0
    ensures var r := ApplyReport(snap, w, UploadCompleted(objects, processMs, fetchMs), t, cfg.maxRetries).result;
      && |r.newObjects| == |objects|
      && var row := UploadedRow(gid, r.newObjects[i], t);
         && row.granule == gid && row.workerId == w && row.objectKey == objects[i].objectKey
         && row.presignedUrl == objects[i].presignedUrl && row.sha256 == objects[i].sha256 && row.size == objects[i].size
         && row.uploadedAt == t && PullClaimable(cfg, row, t)
  {
  }

  /** From the worker's own measure, backwards from now, if it gives one; else from the row's last change. */
  function Measured(stage: Stage, ms: Option<int>, g: Granule, t: Time): (row: StageRow) {
    StageRow(stage, if ms.None? then g.updatedAt else if ms.value > 0 then t - ms.value else t, t)
  }

  /** A report that skips a state closes the stages it skips, measured by the worker where it says so. */
  lemma SkippedStages(g: Granule, w: WorkerId, report: Report, t: Time, maxRetries: nat, g': Granule, rows: seq<StageRow>)
    requires Advances(g, w, report, t, maxRetries, g', rows)
    ensures report.ProcessStarted? && g.state == Downloading ==> rows == [Measured(Download, report.downloadMs, g, t)]
    ensures report.UploadCompleted? && g.state == Processing ==> rows == [Measured(Process, report.processMs, g, t)]
    ensures report.UploadCompleted? && g.state == Queued && report.fetchMs.Some? && report.processMs.Some? ==>
      rows == [Measured(Download, report.fetchMs, g, t), Measured(Process, report.processMs, g, t)]
    ensures report.UploadCompleted? && g.state == Queued && report.fetchMs.Some? && report.processMs.None? ==>
      rows == [Measured(Download, report.fetchMs, g, t)]
    ensures report.UploadCompleted? && g.state == Queued && report.fetchMs.None? ==>
      rows == [Measured(Process, report.processMs, g, t)]
  {
  }
}
