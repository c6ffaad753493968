/**
 The granule lifecycle: states, events and the pure transition function that decides,
 for one event against one granule, every database change the orchestrator makes.
 */
module StateMachine {
  import opened Basics

  datatype GranuleState =
    | Pending | Queued | Downloading | Downloaded | Processing | Processed
    | Uploading | Uploaded | Acked | Deleted | Failed | Blacklisted

  datatype Stage = DownloadWait | Download | ProcessWait | Process | UploadWait | Upload | Deliver

  // The declarative state table, one function per column.

  /** The states in which a worker holds the granule. */
  predicate Leased(s: GranuleState) {
    s.Queued? || s.Downloading? || s.Downloaded? || s.Processing? || s.Processed? || s.Uploading?
  }

  predicate InFlight(s: GranuleState) { s.Pending? || Leased(s) }

  predicate Cancellable(s: GranuleState) { s.Pending? || Leased(s) }

  predicate Retryable(s: GranuleState) { s.Failed? || s.Blacklisted? }

  function Predecessor(s: GranuleState): (p: Option<GranuleState>) {
    match s
    case Queued => Some(Pending)
    case Downloading => Some(Queued)
    case Downloaded => Some(Downloading)
    case Processing => Some(Downloaded)
    case Processed => Some(Processing)
    case Uploading => Some(Processed)
    case Uploaded => Some(Uploading)
    case _ => None
  }

  function ClosesStage(s: GranuleState): (stage: Option<Stage>) {
    match s
    case Downloading => Some(DownloadWait)
    case Downloaded => Some(Download)
    case Processing => Some(ProcessWait)
    case Processed => Some(Process)
    case Uploading => Some(UploadWait)
    case Uploaded => Some(Upload)
    case Acked => Some(Deliver)
    case _ => None
  }

  datatype UploadedObject = UploadedObject(objectKey: Token, presignedUrl: Token, sha256: Token, size: int)

  /** What a worker may report over the wire. */
  datatype Report =
    | DownloadStarted
    | DownloadFinished
    | ProcessStarted(downloadMs: Option<int>)
    | ProcessFinished
    | UploadStarted
    | UploadCompleted(objects: seq<UploadedObject>, processMs: Option<int>, fetchMs: Option<int>)
    | ProcessingFailed(error: Text, stdoutTail: Option<Text>, stderrTail: Option<Text>)
    | DeleteConfirmed

  /** A worker's report, or one of the triggers only the orchestrator may raise. */
  datatype Event =
    | FromWorker(workerId: WorkerId, report: Report)
    | ClaimByLease(claimant: WorkerId, expiresAt: Time)
    | RevokedByOperator
    | CancelGranule
    | RetryGranule
    | RequeueGranule
    | ObjectAcked
    | ReconcileOrphanDeleted

  const ERROR_CAP: nat := 2000
  const TAIL_CAP: nat := 16000

  datatype StageRow = StageRow(stage: Stage, startedAt: Time, finishedAt: Time)

  datatype NewObject = NewObject(workerId: WorkerId, upload: UploadedObject)

  datatype Snapshot = Snapshot(state: GranuleState, updatedAt: Time, retryCount: nat)

  datatype Change<+T> = Keep | Set(value: T)

  /** The column updates of one transition; a column not named is kept. */
  datatype Fields = Fields(
    leasedBy: Change<Option<WorkerId>>, leaseExpiresAt: Change<Option<Time>>, retryCount: Change<nat>,
    error: Change<Option<Text>>, stdoutTail: Change<Option<Text>>, stderrTail: Change<Option<Text>>,
    updatedAt: Time)

  datatype TransitionResult = TransitionResult(
    newState: GranuleState, fields: Fields, stageRows: seq<StageRow>,
    newObjects: seq<NewObject>, objectsDeletedAt: Option<Time>)

  datatype Outcome = Conflict | Accepted(result: TransitionResult)

  function Touch(now: Time): (f: Fields) {
    Fields(Keep, Keep, Keep, Keep, Keep, Keep, now)
  }

  function Released(now: Time): (f: Fields) {
    Touch(now).(leasedBy := Set(None), leaseExpiresAt := Set(None))
  }

  function Plain(target: GranuleState, fields: Fields, rows: seq<StageRow>): (o: Outcome) {
    Accepted(TransitionResult(target, fields, rows, [], None))
  }

  function ClosingRows(snap: Snapshot, target: GranuleState, now: Time): (rows: seq<StageRow>) {
    match ClosesStage(target)
    case None => []
    case Some(stage) => [StageRow(stage, snap.updatedAt, now)]
  }

  predicate FollowsPredecessor(snap: Snapshot, target: GranuleState) {
    Predecessor(target) == Some(snap.state)
  }

  function ForwardStage(snap: Snapshot, target: GranuleState, now: Time): (o: Outcome) {
    if FollowsPredecessor(snap, target)
    then Plain(target, Touch(now), ClosingRows(snap, target, now))
    else Conflict
  }

  /** A stage row from a worker-measured duration, back-dated from `now`. */
  function MeasuredStage(stage: Stage, durationMs: int, now: Time): (row: StageRow) {
    StageRow(stage, now - Max(0, durationMs), now)
  }

  function MeasuredOr(stage: Stage, measured: Option<int>, snap: Snapshot, now: Time): (row: StageRow) {
    match measured
    case Some(ms) => MeasuredStage(stage, ms, now)
    case None => StageRow(stage, snap.updatedAt, now)
  }

  function EnterProcessing(snap: Snapshot, downloadMs: Option<int>, now: Time): (o: Outcome) {
    if snap.state == Downloading then
      Plain(Processing, Touch(now), [MeasuredOr(Download, downloadMs, snap, now)])
    else if snap.state == Downloaded then
      Plain(Processing, Touch(now), [StageRow(ProcessWait, snap.updatedAt, now)])
    else
      Conflict
  }

  function FastRows(snap: Snapshot, processMs: Option<int>, fetchMs: Option<int>, now: Time): (rows: seq<StageRow>) {
    var rows :=
      (if fetchMs.Some? then [MeasuredStage(Download, fetchMs.value, now)] else []) +
      (if processMs.Some? then [MeasuredStage(Process, processMs.value, now)] else []);
    if rows == [] then [StageRow(Process, snap.updatedAt, now)] else rows
  }

  function UploadFields(now: Time): (f: Fields) {
    Released(now).(error := Set(None), stdoutTail := Set(None), stderrTail := Set(None))
  }

  function CompleteUpload(
    snap: Snapshot, workerId: WorkerId, objects: seq<UploadedObject>,
    processMs: Option<int>, fetchMs: Option<int>, now: Time): (o: Outcome)
  {
    if snap.state != Queued && snap.state != Processing && snap.state != Uploading then
      Conflict
    else
      var rows :=
        if snap.state == Queued then FastRows(snap, processMs, fetchMs, now)
        else if snap.state == Processing then [MeasuredOr(Process, processMs, snap, now)]
        else [StageRow(Upload, snap.updatedAt, now)];
      Accepted(TransitionResult(
        Uploaded, UploadFields(now), rows,
        seq(|objects|, i requires 0 <= i < |objects| => NewObject(workerId, objects[i])), None))
  }

  function FailureFields(
    snap: Snapshot, error: Text, stdoutTail: Option<Text>, stderrTail: Option<Text>, now: Time): (f: Fields)
  {
    Released(now).(
      retryCount := Set(snap.retryCount + 1),
      error := Set(Some(Clip(error, ERROR_CAP))),
      stdoutTail := if stdoutTail.Some? then Set(Some(Clip(stdoutTail.value, TAIL_CAP))) else Keep,
      stderrTail := if stderrTail.Some? then Set(Some(Clip(stderrTail.value, TAIL_CAP))) else Keep)
  }

  function ResetFields(now: Time): (f: Fields) {
    Released(now).(retryCount := Set(0), error := Set(None))
  }

  function Deletion(now: Time): (o: Outcome) {
    Accepted(TransitionResult(Deleted, Touch(now), [], [], Some(now)))
  }

  function ApplyReport(
    snap: Snapshot, workerId: WorkerId, report: Report, now: Time, maxRetries: nat): (o: Outcome)
  {
    match report
    case DownloadStarted => ForwardStage(snap, Downloading, now)
    case DownloadFinished => ForwardStage(snap, Downloaded, now)
    case ProcessStarted(downloadMs) => EnterProcessing(snap, downloadMs, now)
    case ProcessFinished => ForwardStage(snap, Processed, now)
    case UploadStarted => ForwardStage(snap, Uploading, now)
    case UploadCompleted(objects, processMs, fetchMs) =>
      CompleteUpload(snap, workerId, objects, processMs, fetchMs, now)
    case ProcessingFailed(error, stdoutTail, stderrTail) =>
      if !Leased(snap.state) then Conflict
      else
        Plain(if snap.retryCount + 1 >= maxRetries then Blacklisted else Pending,
              FailureFields(snap, error, stdoutTail, stderrTail, now), [])
    case DeleteConfirmed => Deletion(now)
  }

  /** The transition function: a description of every database change, or a conflict. */
  function Apply(snap: Snapshot, event: Event, now: Time, maxRetries: nat): (o: Outcome) {
    match event
    case FromWorker(workerId, report) => ApplyReport(snap, workerId, report, now, maxRetries)
    case ClaimByLease(claimant, expiresAt) =>
      if FollowsPredecessor(snap, Queued)
      then Plain(Queued, Touch(now).(leasedBy := Set(Some(claimant)), leaseExpiresAt := Set(Some(expiresAt))), [])
      else Conflict
    case RevokedByOperator =>
      if Leased(snap.state)
      then Plain(Pending, Released(now).(retryCount := Set(snap.retryCount + 1)), [])
      else Conflict
    case CancelGranule =>
      if Cancellable(snap.state) then Plain(Blacklisted, Released(now), []) else Conflict
    case RetryGranule =>
      if Retryable(snap.state) then Plain(Pending, ResetFields(now), []) else Conflict
    case RequeueGranule =>
      if snap.state == Uploaded then Plain(Pending, ResetFields(now), []) else Conflict
    case ObjectAcked =>
      if snap.state == Uploaded then Plain(Acked, Touch(now), ClosingRows(snap, Acked, now)) else Conflict
    case ReconcileOrphanDeleted =>
      if snap.state == Acked then Deletion(now) else Conflict
  }
}
