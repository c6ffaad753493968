/**
 The worker process: the event buffer's in-flight bookkeeping, the handler dictionary, and the order in which one
 handler reports. The methods are proved against the link model of module `WorkerLink`.
 */
module WorkerRuntime {
  import opened Basics
  import opened StateMachine
  import opened Store
  import opened Locality
  import opened Replay
  import opened FlushBuffers
  import opened WorkerLink

  function GidsIn(events: seq<WireEvent>): (gids: set<Gid>) {
    set e | e in events :: e.granule
  }

  predicate Terminal(r: Report) {
    r.UploadCompleted? || r.ProcessingFailed? || r.DeleteConfirmed?
  }

  /** A flush buffer of events that remembers the granules of the batch being sent. */
  class EventBuffer {
    const buffer: FlushBuffer<WireEvent>
    var inflightGids: set<Gid>

    ghost predicate Valid()
      reads this, buffer
    {
      && buffer.Valid() && inflightGids == GidsIn(buffer.InFlight())
      && forall e :: buffer.wakeOn(e) <==> Terminal(e.report)
    }

    constructor (maxBatch: nat, maxBuffer: nat)
      ensures Valid() && fresh(buffer) && buffer.log == [] && buffer.batch.None?
      ensures buffer.maxBatch == maxBatch && buffer.maxBuffer == maxBuffer
    {
      buffer := new FlushBuffer(maxBatch, maxBuffer, (e: WireEvent) => Terminal(e.report));
      inflightGids := {};
    }

    /** Appends without blocking; a terminal event, or a full batch, does not wait for the interval. */
    method Enqueue(event: WireEvent)
      requires Valid()
      modifies buffer
      ensures Valid() && buffer.queue == old(buffer.queue) + [event] && buffer.log == old(buffer.log) + [event]
      ensures buffer.batch == old(buffer.batch)
      ensures buffer.wake <==> old(buffer.wake) || Terminal(event.report) || |buffer.queue| >= buffer.maxBatch
    {
      buffer.Enqueue(event);
    }

    /** Slice a batch off the queue and start its request. */
    method BeginSend()
      requires Valid() && buffer.batch.None? && buffer.queue != []
      modifies this`inflightGids, buffer
      ensures Valid() && buffer.InFlight() + buffer.queue == old(buffer.queue) && buffer.batch.Some?
      ensures |buffer.InFlight()| == Min(buffer.maxBatch, |old(buffer.queue)|) && buffer.log == old(buffer.log)
    {
      buffer.BeginFlush();
      inflightGids := set e | e in buffer.InFlight() :: e.granule;
    }

    /** The request ended: forget its granules; a failed batch goes back in front in the same turn. */
    method EndSend(accepted: bool)
      requires Valid() && buffer.batch.Some? && (accepted ==> buffer.arrived)
      modifies this`inflightGids, buffer
      ensures Valid() && buffer.batch.None? && buffer.log == old(buffer.log)
      ensures accepted ==> buffer.queue == old(buffer.queue)
      ensures !accepted ==>
        var all := old(buffer.InFlight()) + old(buffer.queue); buffer.queue == all[|all| - Min(buffer.maxBuffer, |all|)..]
    {
      inflightGids := {};
      if accepted {
        buffer.FlushSucceeded();
      } else {
        buffer.FlushFailed();
      }
    }

    /** The granules whose events are still owed: queued or mid-send, with no gap between the two. */
    method PendingGranuleIds() returns (gids: set<Gid>)
      requires Valid()
      ensures gids == GidsIn(buffer.InFlight() + buffer.queue)
    {
      gids := (set e | e in buffer.queue :: e.granule) + inflightGids;
      GidsJoin(buffer.InFlight(), buffer.queue);
    }
  }

  lemma GidsJoin(xs: seq<WireEvent>, ys: seq<WireEvent>)
    ensures GidsIn(xs + ys) == GidsIn(xs) + GidsIn(ys)
  {
  }

  function Named(gids: seq<Gid>): (names: set<Gid>) {
    set gid | gid in gids
  }

  lemma NamedNext(gids: seq<Gid>, i: nat)
    requires i < |gids|
    ensures Named(gids[..i + 1]) == Named(gids[..i]) + {gids[i]}
  {
    assert gids[..i + 1] == gids[..i] + [gids[i]];
  }

  lemma {:induction false} NamedSize(gids: seq<Gid>)
    ensures |Named(gids)| <= |gids|
  {
    if gids != [] {
      NamedSize(Init(gids));
      NamedNext(gids, |gids| - 1);
      assert gids[..|gids|] == gids;
    }
  }

  /** A dictionary whose keys grew by these names grew by at most as many entries. */
  lemma GrownBy(m: map<Gid, TaskId>, m': map<Gid, TaskId>, gids: seq<Gid>)
    requires m'.Keys == m.Keys + Named(gids)
    ensures |m'| <= |m| + |gids|
  {
    NamedSize(gids);
    assert |m'| == |m'.Keys| && |m| == |m.Keys|;
    assert m'.Keys == m.Keys + (Named(gids) - m.Keys);
  }

  class Runtime {
    const events: EventBuffer
    var handlers: map<Gid, TaskId>
    var slotFree: bool
    /** The number of the next task created, and the handlers really running. */
    var nextTask: TaskId
    ghost var tasks: map<TaskId, Gid>

    ghost function Side(l: Link): (l': Link)
      reads this
    {
      l.(handlers := handlers, tasks := tasks, nextTask := nextTask)
    }

    constructor (events: EventBuffer)
      ensures this.events == events && handlers == map[] && tasks == map[] && nextTask == 0 && !slotFree
    {
      this.events := events;
      handlers, slotFree, tasks, nextTask := map[], false, map[], 0;
    }

    method StartHandler(gid: Gid)
      modifies this`handlers, this`tasks, this`nextTask
      ensures forall l :: Side(l) == Arrive(old(Side(l)), gid)
      ensures handlers == old(handlers)[gid := old(nextTask)]
    {
      handlers, tasks := handlers[gid := nextTask], tasks[nextTask := gid];
      nextTask := nextTask + 1;
    }

    /** Pop before signalling: whoever sees the signal sees the slot free. */
    method OnHandlerDone(gid: Gid, ghost task: TaskId)
      requires task in tasks && tasks[task] == gid
      modifies this`handlers, this`slotFree, this`tasks
      ensures forall l :: Side(l) == Finish(old(Side(l)), task)
      ensures slotFree && gid !in handlers
    {
      handlers := map g | g in handlers && g != gid :: handlers[g];
      slotFree := true;
      tasks := map t | t in tasks && t != task :: tasks[t];
    }

    /** What the heartbeat reports: handled, or owed. */
    method ActiveGranuleIds() returns (gids: set<Gid>)
      requires events.Valid()
      ensures gids == handlers.Keys + GidsIn(events.buffer.InFlight() + events.buffer.queue)
    {
      var pending := events.PendingGranuleIds();
      gids := handlers.Keys + pending;
    }

    /** The free slots the pipeline loop asks a lease for; none while leasing is gated. */
    method FreeSlots(ceiling: int, gated: bool) returns (free: int)
      modifies this`slotFree
      ensures !slotFree && free >= 0 && (gated ==> free == 0)
      ensures |handlers| + free <= Max(ceiling, |handlers|)
      ensures !gated ==> |handlers| + free >= ceiling
    {
      slotFree := false;
      free := ceiling - |handlers|;
      if free <= 0 || gated {
        free := 0;
      }
    }

    method StartAll(leased: seq<Gid>)
      modifies this`handlers, this`tasks, this`nextTask
      ensures handlers.Keys == old(handlers).Keys + Named(leased)
    {
      var i := 0;
      while i < |leased|
        invariant 0 <= i <= |leased| && handlers.Keys == old(handlers).Keys + Named(leased[..i])
      {
        NamedNext(leased, i);
        StartHandler(leased[i]);
        i := i + 1;
      }
      assert leased[..|leased|] == leased;
    }

    /**
     One turn of the pipeline loop: ask for the free slots, start a handler for every item leased. As the orchestrator
     leases no more than asked for, the dictionary never outgrows the ceiling.
     */
    method PipelineTurn(ceiling: int, gated: bool, lease: int -> seq<Gid>) returns (leased: seq<Gid>)
      requires forall n | n > 0 :: |lease(n)| <= n
      modifies this`handlers, this`slotFree, this`tasks, this`nextTask
      ensures |handlers| <= Max(ceiling, |old(handlers)|) && (gated ==> leased == [])
      ensures handlers.Keys == old(handlers).Keys + Named(leased)
      ensures |leased| <= Max(0, ceiling - |old(handlers)|)
    {
      leased := [];
      var free := FreeSlots(ceiling, gated);
      if free > 0 {
        leased := lease(free);
        StartAll(leased);
        GrownBy(old(handlers), handlers, leased);
      }
    }

    /** A heartbeat reply: cancel the handlers of revoked granules that are still running. */
    method CancelRevoked(revoked: seq<Gid>, ended: set<TaskId>) returns (cancelled: set<TaskId>)
      ensures forall t :: t in cancelled <==>
        exists gid :: gid in revoked && gid in handlers && handlers[gid] == t && t !in ended
    {
      cancelled := {};
      var i := 0;
      while i < |revoked|
        invariant 0 <= i <= |revoked|
        invariant forall t :: t in cancelled <==>
          exists j :: 0 <= j < i && revoked[j] in handlers && handlers[revoked[j]] == t && t !in ended
      {
        if revoked[i] in handlers && handlers[revoked[i]] !in ended {
          cancelled := cancelled + {handlers[revoked[i]]};
        }
        i := i + 1;
      }
    }
  }

  // ----- what one handler reports -----------------------------------------------------------

  /** How a handler's run ends. */
  datatype Ending =
    | Cancelled(stage: nat)
    | FailedAt(stage: nat, error: Text)
    | NotOk(error: Text, stdoutTail: Option<Text>, stderrTail: Option<Text>)
    | Finished(objects: seq<UploadedObject>)

  /** One handler's run: the detail mode as read at each report, the measured durations, and the ending. */
  datatype HandlerRun = HandlerRun(
    verboseAtDownload: bool, verboseAtProcess: bool, verboseAtUpload: bool,
    downloadMs: int, processMs: int, ending: Ending)

  /** Stages are reached in order; a cancelled or failed run stops after the stage it names. */
  predicate Reaches(run: HandlerRun, stage: nat) {
    match run.ending
    case Cancelled(s) => stage <= s
    case FailedAt(s, _) => stage <= s
    case _ => true
  }

  function Closing(run: HandlerRun): (rs: seq<Report>) {
    match run.ending
    case Cancelled(_) => []
    case FailedAt(_, error) => [ProcessingFailed(error, None, None)]
    case NotOk(error, out, err) => [ProcessingFailed(error, out, err)]
    case Finished(objects) =>
      [UploadCompleted(objects, Some(run.processMs), if run.verboseAtUpload then None else Some(run.downloadMs))]
  }

  function Reports(run: HandlerRun): (rs: seq<Report>) {
    (if Reaches(run, 1) && run.verboseAtDownload then [DownloadStarted] else []) +
    (if Reaches(run, 2) && run.verboseAtProcess then [ProcessStarted(Some(run.downloadMs))] else []) +
    Closing(run)
  }

  /** One handler's events, enqueued as its stages go by. */
  method Handle(events: EventBuffer, gid: Gid, w: WorkerId, run: HandlerRun)
    requires events.Valid()
    modifies events.buffer
    ensures events.Valid()
    ensures events.buffer.queue == old(events.buffer.queue) + Wired(gid, w, Reports(run))
  {
    ghost var said: seq<Report> := [];
    if Reaches(run, 1) && run.verboseAtDownload {
      events.Enqueue(WireEvent(gid, w, DownloadStarted));
      said := said + [DownloadStarted];
    }
    if Reaches(run, 2) && run.verboseAtProcess {
      events.Enqueue(WireEvent(gid, w, ProcessStarted(Some(run.downloadMs))));
      said := said + [ProcessStarted(Some(run.downloadMs))];
    }
    assert events.buffer.queue == old(events.buffer.queue) + Wired(gid, w, said);
    Conclude(events, gid, w, run);
    assert Reports(run) == said + Closing(run);
    WiredJoin(gid, w, said, Closing(run));
  }

  /** The terminal report, unless the run was cancelled. */
  method Conclude(events: EventBuffer, gid: Gid, w: WorkerId, run: HandlerRun)
    requires events.Valid()
    modifies events.buffer
    ensures events.Valid()
    ensures events.buffer.queue == old(events.buffer.queue) + Wired(gid, w, Closing(run))
  {
    match run.ending
    case Cancelled(_) =>
    case FailedAt(_, error) =>
      events.Enqueue(WireEvent(gid, w, ProcessingFailed(error, None, None)));
    case NotOk(error, out, err) =>
      events.Enqueue(WireEvent(gid, w, ProcessingFailed(error, out, err)));
    case Finished(objects) =>
      events.Enqueue(WireEvent(gid, w, UploadCompleted(
        objects, Some(run.processMs), if run.verboseAtUpload then None else Some(run.downloadMs))));
  }

  function Wired(gid: Gid, w: WorkerId, rs: seq<Report>): (evs: seq<WireEvent>) {
    seq(|rs|, i requires 0 <= i < |rs| => WireEvent(gid, w, rs[i]))
  }

  lemma WiredJoin(gid: Gid, w: WorkerId, xs: seq<Report>, ys: seq<Report>)
    ensures Wired(gid, w, xs + ys) == Wired(gid, w, xs) + Wired(gid, w, ys)
  {
  }

  /** A handler reports in pipeline order, with at most one terminal report, as its last. */
  lemma HandlerReportsInOrder(gid: Gid, w: WorkerId, run: HandlerRun)
    ensures Ordered(Wired(gid, w, Reports(run)))
    ensures var rs := Reports(run);
      && (forall i, j | 0 <= i < j < |rs| :: Replay.Rank(rs[i]) < Replay.Rank(rs[j]))
      && (forall i | 0 <= i < |rs| - 1 :: !Terminal(rs[i]))
      && (rs == [] || Terminal(Last(rs)) || run.ending.Cancelled?)
  {
  }

  /** The waypoint, if the mode called for it, against the granule's view. */
  function AfterWaypoint(cfg: Config, v: View, gid: Gid, w: WorkerId, said: bool, report: Report, t: Time): (v': View) {
    if said then EmitView(cfg, v, gid, WireEvent(gid, w, report), t) else v
  }

  function AfterUpload(cfg: Config, v: View, gid: Gid, w: WorkerId, run: HandlerRun, t: Time): (v': View)
    requires run.ending.Finished?
  {
    EmitView(cfg, v, gid, WireEvent(gid, w, UploadCompleted(
      run.ending.objects, Some(run.processMs), if run.verboseAtUpload then None else Some(run.downloadMs))), t)
  }

  /**
   Switching the detail mode during a granule is not harmless: a finished run leaves its granule uploaded unless
   the mode went from verbose to fast between the first two reports, and then its result is refused.
   */
  lemma ModeSwitchDecides(cfg: Config, v: View, v1: View, v2: View, v3: View, gid: Gid, w: WorkerId, run: HandlerRun,
                          t1: Time, t2: Time, t3: Time)
    requires run.ending.Finished? && LeasedView(v, w) && v.row.value.state == Queued
    requires v1 == AfterWaypoint(cfg, v, gid, w, run.verboseAtDownload, DownloadStarted, t1)
    requires v2 == AfterWaypoint(cfg, v1, gid, w, run.verboseAtProcess, ProcessStarted(Some(run.downloadMs)), t2)
    requires v3 == AfterUpload(cfg, v2, gid, w, run, t3)
    ensures v3.row.Some?
    ensures v3.row.value.state == Uploaded <==> (run.verboseAtDownload ==> run.verboseAtProcess)
    ensures v3.row.value.state == Uploaded ==> |v3.rows| == |v.rows| + |run.ending.objects|
    ensures v3.row.value.state != Uploaded ==> v3.row.value.state == Downloading && v3.rows == v.rows
  {
    WaypointSaid(cfg, v, v1, gid, w, run.verboseAtDownload, DownloadStarted, t1);
    WaypointSaid(cfg, v1, v2, gid, w, run.verboseAtProcess, ProcessStarted(Some(run.downloadMs)), t2);
    UploadSaid(cfg, v2, v3, gid, w, run, t3);
    SaidDecides(v, v1, v2, v3, w, run);
  }

  /** The waypoint left the lease and the objects alone and moved the state if it was acceptable. */
  predicate Waypointed(v: View, v': View, w: WorkerId, said: bool, report: Report) {
    LeasedView(v, w) ==>
      && LeasedView(v', w) && v'.rows == v.rows
      && v'.row.value.state == (if !said || !Accepts(v.row.value.state, report) then v.row.value.state
                                else if report.DownloadStarted? then Downloading else Processing)
  }

  predicate UploadEnds(v: View, v': View, w: WorkerId, objects: seq<UploadedObject>) {
    LeasedView(v, w) ==>
      && v'.row.Some?
      && (Accepts(v.row.value.state, UploadCompleted([], None, None)) ==>
            v'.row.value.state == Uploaded && |v'.rows| == |v.rows| + |objects|)
      && (!Accepts(v.row.value.state, UploadCompleted([], None, None)) ==> v' == v)
  }

  lemma SaidDecides(v: View, v1: View, v2: View, v3: View, w: WorkerId, run: HandlerRun)
    requires run.ending.Finished? && LeasedView(v, w) && v.row.value.state == Queued
    requires Waypointed(v, v1, w, run.verboseAtDownload, DownloadStarted)
    requires Waypointed(v1, v2, w, run.verboseAtProcess, ProcessStarted(Some(run.downloadMs)))
    requires UploadEnds(v2, v3, w, run.ending.objects)
    ensures v3.row.Some?
    ensures v3.row.value.state == Uploaded <==> (run.verboseAtDownload ==> run.verboseAtProcess)
    ensures v3.row.value.state == Uploaded ==> |v3.rows| == |v.rows| + |run.ending.objects|
    ensures v3.row.value.state != Uploaded ==> v3.row.value.state == Downloading && v3.rows == v.rows
  {
  }

  lemma WaypointSaid(cfg: Config, v: View, v': View, gid: Gid, w: WorkerId, said: bool, report: Report, t: Time)
    requires v' == AfterWaypoint(cfg, v, gid, w, said, report, t) && (report.DownloadStarted? || report.ProcessStarted?)
    ensures Waypointed(v, v', w, said, report)
  {
  }

  lemma UploadSaid(cfg: Config, v: View, v': View, gid: Gid, w: WorkerId, run: HandlerRun, t: Time)
    requires run.ending.Finished? && v' == AfterUpload(cfg, v, gid, w, run, t)
    ensures UploadEnds(v, v', w, run.ending.objects)
  {
  }

  predicate LeasedView(v: View, w: WorkerId) {
    v.row.Some? && v.row.value.leasedBy == Some(w)
  }

  function DurationsOf(ts: seq<StageRow>): (r: seq<(Stage, nat)>) {
    seq(|ts|, i requires 0 <= i < |ts| => (ts[i].stage, TimingOf(ts[i]).durationMs))
  }

  function RowsOf(o: Outcome): (rows: seq<StageRow>) {
    if o.Accepted? then o.result.stageRows else []
  }

  /** The fast path records the stages the verbose path records, with the same durations, minus the download wait. */
  lemma FastRecordsTheSameStages(s1: Snapshot, s2: Snapshot, s3: Snapshot, s: Snapshot, w: WorkerId,
                                 objects: seq<UploadedObject>, downloadMs: int, processMs: int,
                                 t1: Time, t2: Time, t3: Time, t: Time, maxRetries: nat)
    requires s1.state == Queued && s2.state == Downloading && s3.state == Processing && s.state == Queued
    ensures
      var verbose := RowsOf(ApplyReport(s1, w, DownloadStarted, t1, maxRetries))
                   + RowsOf(ApplyReport(s2, w, ProcessStarted(Some(downloadMs)), t2, maxRetries))
                   + RowsOf(ApplyReport(s3, w, UploadCompleted(objects, Some(processMs), None), t3, maxRetries));
      var fast := RowsOf(ApplyReport(s, w, UploadCompleted(objects, Some(processMs), Some(downloadMs)), t, maxRetries));
      && |verbose| == 3 && verbose[0].stage == DownloadWait
      && DurationsOf(verbose[1..]) == DurationsOf(fast) == [(Download, Max(0, downloadMs)), (Process, Max(0, processMs))]
  {
  }

  // ----- a handler's reports at the orchestrator --------------------------------------------

  lemma {:induction false} ViewsJoin(cfg: Config, v: View, gid: Gid, xs: seq<WireEvent>, ys: seq<WireEvent>, t: Time)
    ensures EmitViews(cfg, v, gid, xs + ys, t) == EmitViews(cfg, EmitViews(cfg, v, gid, xs, t), gid, ys, t)
  {
    if ys == [] {
      assert xs + ys == xs;
    } else {
      assert Init(xs + ys) == xs + Init(ys) && Last(xs + ys) == Last(ys);
      ViewsJoin(cfg, v, gid, xs, Init(ys), t);
    }
  }

  /** At most one report. */
  lemma OneView(cfg: Config, v: View, gid: Gid, w: WorkerId, rs: seq<Report>, t: Time)
    requires |rs| <= 1
    ensures EmitViews(cfg, v, gid, Wired(gid, w, rs), t)
         == if rs == [] then v else EmitView(cfg, v, gid, WireEvent(gid, w, rs[0]), t)
  {
    if rs != [] {
      assert Init(Wired(gid, w, rs)) == [];
    }
  }

  /** The view before the closing report: after whichever waypoints the run reported. */
  function BeforeClosing(cfg: Config, v: View, gid: Gid, w: WorkerId, run: HandlerRun, t: Time): (v': View) {
    AfterWaypoint(cfg, AfterWaypoint(cfg, v, gid, w, Reaches(run, 1) && run.verboseAtDownload, DownloadStarted, t),
                  gid, w, Reaches(run, 2) && run.verboseAtProcess, ProcessStarted(Some(run.downloadMs)), t)
  }

  lemma SentInParts(cfg: Config, v: View, gid: Gid, w: WorkerId, run: HandlerRun, t: Time)
    ensures SentView(cfg, v, gid, w, run, t)
         == EmitViews(cfg, BeforeClosing(cfg, v, gid, w, run, t), gid, Wired(gid, w, Closing(run)), t)
  {
    var d := if Reaches(run, 1) && run.verboseAtDownload then [DownloadStarted] else [];
    var p := if Reaches(run, 2) && run.verboseAtProcess then [ProcessStarted(Some(run.downloadMs))] else [];
    WiredJoin(gid, w, d + p, Closing(run));
    WiredJoin(gid, w, d, p);
    ViewsJoin(cfg, v, gid, Wired(gid, w, d + p), Wired(gid, w, Closing(run)), t);
    ViewsJoin(cfg, v, gid, Wired(gid, w, d), Wired(gid, w, p), t);
    OneView(cfg, v, gid, w, d, t);
    OneView(cfg, EmitViews(cfg, v, gid, Wired(gid, w, d), t), gid, w, p, t);
  }

  /** The waypoints leave the lease, the attempts and the objects alone, and a state the closing report is accepted from. */
  lemma WaypointsPass(cfg: Config, v: View, gid: Gid, w: WorkerId, run: HandlerRun, t: Time)
    requires Steady(run) && LeasedView(v, w) && v.row.value.state == Queued
    ensures var v' := BeforeClosing(cfg, v, gid, w, run, t);
      && LeasedView(v', w) && v'.rows == v.rows && Leased(v'.row.value.state)
      && (run.ending.Finished? ==> v'.row.value.state in {Queued, Processing})
  {
    var v1 := AfterWaypoint(cfg, v, gid, w, Reaches(run, 1) && run.verboseAtDownload, DownloadStarted, t);
    var v2 := BeforeClosing(cfg, v, gid, w, run, t);
    WaypointSaid(cfg, v, v1, gid, w, Reaches(run, 1) && run.verboseAtDownload, DownloadStarted, t);
    WaypointSaid(cfg, v1, v2, gid, w, Reaches(run, 2) && run.verboseAtProcess, ProcessStarted(Some(run.downloadMs)), t);
  }

  lemma WaypointKeepsCount(cfg: Config, v: View, gid: Gid, w: WorkerId, said: bool, report: Report, t: Time)
    requires LeasedView(v, w) && (report.DownloadStarted? || report.ProcessStarted?)
    ensures var v' := AfterWaypoint(cfg, v, gid, w, said, report, t);
      v'.row.Some? && v'.row.value.retryCount == v.row.value.retryCount
  {
  }

  lemma UploadLands(cfg: Config, v: View, gid: Gid, w: WorkerId, objects: seq<UploadedObject>, p: Option<int>, f: Option<int>, t: Time)
    requires LeasedView(v, w) && v.row.value.state in {Queued, Processing}
    ensures var v' := EmitView(cfg, v, gid, WireEvent(gid, w, UploadCompleted(objects, p, f)), t);
      && v'.row.Some? && v'.row.value.state == Uploaded && v'.row.value.leasedBy.None?
      && |v'.rows| == |v.rows| + |objects| && v'.rows[..|v.rows|] == v.rows
      && forall i | 0 <= i < |objects| :: Holds(v'.rows[|v.rows| + i], gid, w, objects[i], t)
  {
  }

  /** The row is of this object, hosted by this worker since this time. */
  predicate Holds(o: ObjectRow, gid: Gid, w: WorkerId, u: UploadedObject, t: Time) {
    && o.granule == gid && o.workerId == w && o.uploadedAt == t && o.objectKey == u.objectKey
    && o.presignedUrl == u.presignedUrl && o.sha256 == u.sha256 && o.size == u.size
  }

  lemma FailureLands(cfg: Config, v: View, gid: Gid, w: WorkerId, error: Text, out: Option<Text>, err: Option<Text>, t: Time)
    requires LeasedView(v, w) && Leased(v.row.value.state)
    ensures var v' := EmitView(cfg, v, gid, WireEvent(gid, w, ProcessingFailed(error, out, err)), t);
      && v'.row.Some? && v'.rows == v.rows && GivenUp(v.row.value, v'.row.value, error)
  {
  }

  /** Free again or stopped, with one attempt more and the failure's text. */
  predicate GivenUp(g: Granule, g': Granule, error: Text) {
    && g'.leasedBy.None? && g'.retryCount == g.retryCount + 1 && g'.state in {Pending, Blacklisted}
    && g'.error.Some? && g'.error.value.source == error.source
  }

  /** The handler's three moments, with the mode the same at each, as the orchestrator sees them. */
  predicate Steady(run: HandlerRun) {
    run.verboseAtDownload == run.verboseAtProcess == run.verboseAtUpload
  }

  function SentView(cfg: Config, v: View, gid: Gid, w: WorkerId, run: HandlerRun, t: Time): (v': View) {
    EmitViews(cfg, v, gid, Wired(gid, w, Reports(run)), t)
  }

  /**
   Sent to the orchestrator while the worker holds the granule, the reports of a finished run leave it uploaded with the
   run's objects behind those it had, whichever mode the run was in.
   */
  lemma FinishedRunUploads(cfg: Config, v: View, gid: Gid, w: WorkerId, run: HandlerRun, t: Time)
    requires run.ending.Finished? && Steady(run) && LeasedView(v, w) && v.row.value.state == Queued
    ensures var v' := SentView(cfg, v, gid, w, run, t);
      && v'.row.Some? && v'.row.value.state == Uploaded && v'.row.value.leasedBy.None?
      && |v'.rows| == |v.rows| + |run.ending.objects| && v'.rows[..|v.rows|] == v.rows
      && forall i | 0 <= i < |run.ending.objects| :: Holds(v'.rows[|v.rows| + i], gid, w, run.ending.objects[i], t)
  {
    SentInParts(cfg, v, gid, w, run, t);
    WaypointsPass(cfg, v, gid, w, run, t);
    var mid := BeforeClosing(cfg, v, gid, w, run, t);
    OneView(cfg, mid, gid, w, Closing(run), t);
    var f := if run.verboseAtUpload then None else Some(run.downloadMs);
    UploadLands(cfg, mid, gid, w, run.ending.objects, Some(run.processMs), f, t);
  }

  /** Those of a failed run give it up, with one attempt counted and the failure's text; a cancelled run keeps it. */
  lemma OtherRunsEnd(cfg: Config, v: View, gid: Gid, w: WorkerId, run: HandlerRun, t: Time)
    requires !run.ending.Finished? && Steady(run) && LeasedView(v, w) && v.row.value.state == Queued
    ensures var v' := SentView(cfg, v, gid, w, run, t);
      && v'.row.Some? && v'.rows == v.rows
      && if run.ending.Cancelled? then LeasedView(v', w) else GivenUp(v.row.value, v'.row.value, run.ending.error)
  {
    SentInParts(cfg, v, gid, w, run, t);
    WaypointsPass(cfg, v, gid, w, run, t);
    var first := AfterWaypoint(cfg, v, gid, w, Reaches(run, 1) && run.verboseAtDownload, DownloadStarted, t);
    var mid := BeforeClosing(cfg, v, gid, w, run, t);
    WaypointSaid(cfg, v, first, gid, w, Reaches(run, 1) && run.verboseAtDownload, DownloadStarted, t);
    WaypointKeepsCount(cfg, v, gid, w, Reaches(run, 1) && run.verboseAtDownload, DownloadStarted, t);
    WaypointKeepsCount(cfg, first, gid, w, Reaches(run, 2) && run.verboseAtProcess, ProcessStarted(Some(run.downloadMs)), t);
    OneView(cfg, mid, gid, w, Closing(run), t);
    match run.ending
    case Cancelled(_) =>
    case FailedAt(_, error) => FailureLands(cfg, mid, gid, w, error, None, None, t);
    case NotOk(error, out, err) => FailureLands(cfg, mid, gid, w, error, out, err, t);
  }
}
