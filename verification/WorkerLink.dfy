/**
 One worker's link to the orchestrator, in time: lease replies and heartbeats take a while to travel, handlers
 run and finish, events wait in the buffer. While a lease reply and a heartbeat together take no longer than the
 reclaim grace, no heartbeat reclaims a granule that is still being worked on or whose event is still owed.
 */
module WorkerLink {
  import opened Basics
  import opened StateMachine
  import opened Store
  import opened Protocol
  import opened Preservation
  import opened Retries
  import opened Handlers

  type TaskId = nat

  /** One leased item on its way to the worker. */
  datatype LeaseReply = LeaseReply(gid: Gid, claimedAt: Time)

  /** A heartbeat on its way to the orchestrator. */
  datatype Beat = Beat(active: set<Gid>, sentAt: Time)

  /** The longest a lease reply and a heartbeat travel. */
  datatype Delays = Delays(reply: Time, beat: Time)

  /**
   `claims` is when each granule was last claimed by this worker; `handlers` is the worker's dictionary of
   handlers, `tasks` the handlers actually running; `queue` and `batch` are the buffered and mid-send events.
   */
  datatype Link = Link(
    db: Db, now: Time, claims: map<Gid, Time>, replies: set<LeaseReply>, beats: set<Beat>,
    tasks: map<TaskId, Gid>, handlers: map<Gid, TaskId>, nextTask: TaskId, queue: seq<Gid>, batch: seq<Gid>)

  datatype LinkStep =
    | Tick(elapsed: Time)
    | Orchestrate(step: Step)
    | ClaimHere(capacity: int, claimed: set<Gid>)
    | ReplyArrives(reply: LeaseReply)
    | ReplyLost(reply: LeaseReply)
    | TaskEmits(task: TaskId)
    | TaskEnds(task: TaskId)
    | BeginSend(count: nat)
    | EndSend(accepted: bool, shed: nat)
    | SendBeat
    | BeatArrives(beat: Beat)
    | BeatLost(beat: Beat)

  /** The granules whose handler runs or whose event is owed. */
  function Busy(l: Link): (gids: set<Gid>) {
    (set t | t in l.tasks :: l.tasks[t]) + Owed(l)
  }

  function Owed(l: Link): (gids: set<Gid>) {
    (set g | g in l.queue) + (set g | g in l.batch)
  }

  /** What the worker reports as active. */
  function Active(l: Link): (gids: set<Gid>) {
    l.handlers.Keys + Owed(l)
  }

  /** The worker starts a handler for a leased item. */
  function Arrive(l: Link, gid: Gid): (l': Link) {
    l.(tasks := l.tasks[l.nextTask := gid], handlers := l.handlers[gid := l.nextTask], nextTask := l.nextTask + 1)
  }

  /** A handler finished; the done-callback pops its granule from the dictionary. */
  function Finish(l: Link, task: TaskId): (l': Link) {
    if task !in l.tasks then l
    else l.(tasks := map t | t in l.tasks && t != task :: l.tasks[t],
            handlers := map g | g in l.handlers && g != l.tasks[task] :: l.handlers[g])
  }

  function Claimed(w: WorkerId, l: Link, claimed: set<Gid>): (l': Link) {
    l.(db := BulkUpdate(l.db, claimed, Claim(w, l.now)),
       claims := map g | g in l.claims.Keys + claimed :: if g in claimed then l.now else l.claims[g],
       replies := l.replies + (set g | g in claimed :: LeaseReply(g, l.now)))
  }

  function Reconciled(w: WorkerId, l: Link, beat: Beat): (l': Link) {
    l.(db := HeartbeatUpdate(l.db, w, Some(beat.active), l.now), beats := l.beats - {beat})
  }

  function After(cfg: Config, w: WorkerId, l: Link, s: LinkStep): (l': Link) {
    match s
    case Tick(elapsed) => l.(now := l.now + elapsed)
    case Orchestrate(step) => l.(db := Next(cfg, l.db, step))
    case ClaimHere(_, claimed) => Claimed(w, l, claimed)
    case ReplyArrives(reply) => Arrive(l.(replies := l.replies - {reply}), reply.gid)
    case ReplyLost(reply) => l.(replies := l.replies - {reply})
    case TaskEmits(task) => if task in l.tasks then l.(queue := l.queue + [l.tasks[task]]) else l
    case TaskEnds(task) => Finish(l, task)
    case BeginSend(count) =>
      l.(batch := l.queue[..Min(count, |l.queue|)], queue := l.queue[Min(count, |l.queue|)..])
    case EndSend(accepted, shed) =>
      l.(batch := [], queue := if accepted then l.queue else (l.batch + l.queue)[Min(shed, |l.batch + l.queue|)..])
    case SendBeat => l.(beats := l.beats + {Beat(Active(l), l.now)})
    case BeatArrives(beat) => Reconciled(w, l, beat)
    case BeatLost(beat) => l.(beats := l.beats - {beat})
  }

  /** The orchestrator's other steps: reports are stamped with the clock; claims and reconciles are not this worker's. */
  predicate Timely(w: WorkerId, now: Time, step: Step) {
    match step
    case ClaimStep(worker, _, _, _) => worker != w
    case EmitStep(_, at) => at == now
    case EmitBatchStep(_, at) => at == now
    case BulkStep(_, op) => op.Reclaim? ==> op.holder != w
    case _ => true
  }

  ghost predicate Possible(cfg: Config, w: WorkerId, l: Link, s: LinkStep) {
    match s
    case Tick(elapsed) => elapsed >= 0
    case Orchestrate(step) => Enabled(cfg, l.db, step) && Timely(w, l.now, step)
    case ClaimHere(capacity, claimed) => Enabled(cfg, l.db, ClaimStep(w, capacity, claimed, l.now))
    case ReplyArrives(reply) => reply in l.replies
    case ReplyLost(reply) => reply in l.replies
    case TaskEmits(task) => task in l.tasks
    case TaskEnds(task) => task in l.tasks
    case BeginSend(_) => l.batch == []
    case EndSend(_, _) => true
    case SendBeat => true
    case BeatArrives(beat) => beat in l.beats
    case BeatLost(beat) => beat in l.beats
  }

  /** The time bound on messages: nothing travels longer than its delay. */
  ghost predicate InTime(d: Delays, l: Link) {
    && (forall r | r in l.replies :: l.now <= r.claimedAt + d.reply)
    && (forall b | b in l.beats :: l.now <= b.sentAt + d.beat)
  }

  /** The one thing the worker does not check: a lease reply must not name a granule it still handles. */
  predicate NotHandled(l: Link, s: LinkStep) {
    s.ReplyArrives? ==> s.reply.gid !in l.handlers
  }

  // ----- the invariant ----------------------------------------------------------------------

  /** Every running handler is the one the dictionary holds for its granule. */
  ghost predicate Mirrored(l: Link) {
    && (forall t | t in l.tasks :: l.tasks[t] in l.handlers && l.handlers[l.tasks[t]] == t)
    && (forall t | t in l.tasks :: t < l.nextTask)
  }

  predicate ClaimedSince(l: Link, gid: Gid, at: Time) {
    gid in l.claims && l.claims[gid] >= at
  }

  /** A busy granule was reported by the beat, or claimed no earlier than a reply's delay before it was sent. */
  ghost predicate BeatsCover(d: Delays, l: Link) {
    forall b, gid | b in l.beats && gid in Busy(l) :: gid in b.active || ClaimedSince(l, gid, b.sentAt - d.reply)
  }

  ghost predicate Dated(l: Link) {
    && (forall r | r in l.replies :: r.claimedAt <= l.now && ClaimedSince(l, r.gid, r.claimedAt))
    && (forall b | b in l.beats :: b.sentAt <= l.now)
    && (forall g | g in l.claims :: l.claims[g] <= l.now)
  }

  /** A row this worker holds was touched no earlier than its last claim. */
  ghost predicate HeldSinceClaim(w: WorkerId, l: Link) {
    forall gid | gid in l.db.granules && HeldBy(l.db.granules[gid], w) ::
      gid in l.claims && l.db.granules[gid].updatedAt >= l.claims[gid]
  }

  ghost predicate LinkInv(d: Delays, w: WorkerId, l: Link) {
    Inv(l.db) && Mirrored(l) && BeatsCover(d, l) && Dated(l) && HeldSinceClaim(w, l)
  }

  // ----- the orchestrator's side ------------------------------------------------------------

  /** A row held after the step was held before, and was touched by it at most with the clock. */
  predicate HeldRowKept(db: Db, db': Db, gid: Gid, w: WorkerId, now: Time) {
    gid in db'.granules && HeldBy(db'.granules[gid], w) ==>
      && gid in db.granules && HeldBy(db.granules[gid], w)
      && (db'.granules[gid].updatedAt == db.granules[gid].updatedAt || db'.granules[gid].updatedAt == now)
  }

  lemma EmitKeepsHeld(cfg: Config, db: Db, ev: WireEvent, now: Time, gid: Gid, w: WorkerId)
    ensures HeldRowKept(db, Emit(cfg, db, ev, now), gid, w, now)
  {
    if ev.report.DeleteConfirmed? {
      EmitDeletion(cfg, db, ev, now);
    } else {
      EmitKeepsRowIds(cfg, db, ev, now);
      if gid in db.granules {
        EmittedRow(cfg, db, ev, now, gid);
        var g := db.granules[gid];
        if gid == ev.granule && !Missed(db, ev)
           && ApplyReport(SnapshotOf(g), ev.workerId, ev.report, now, cfg.maxRetries).Accepted? {
          ReportMoves(SnapshotOf(g), ev.workerId, ev.report, now, cfg.maxRetries);
        }
      }
    }
  }

  lemma {:induction false} EmitAllKeepsHeld(cfg: Config, db: Db, evs: seq<WireEvent>, now: Time, gid: Gid, w: WorkerId)
    ensures HeldRowKept(db, EmitAll(cfg, db, evs, now), gid, w, now)
  {
    if evs != [] {
      EmitAllKeepsHeld(cfg, db, Init(evs), now, gid, w);
      EmitKeepsHeld(cfg, EmitAll(cfg, db, Init(evs), now), Last(evs), now, gid, w);
    }
  }

  lemma AckOneKeepsHeld(db: Db, a: Ack, now: Time, gid: Gid, w: WorkerId, at: Time)
    requires Inv(db)
    ensures HeldRowKept(db, AckOne(db, a, now), gid, w, at)
  {
    if Confirms(db.objects, a) {
      AckOneConfirms(db, a, now);
    }
  }

  lemma {:induction false} AckAllKeepsHeld(db: Db, acks: seq<Ack>, now: Time, gid: Gid, w: WorkerId, at: Time)
    requires Inv(db)
    ensures HeldRowKept(db, AckAll(db, acks, now), gid, w, at)
  {
    if acks != [] {
      AckAllKeepsHeld(db, Init(acks), now, gid, w, at);
      AckAllKeepsInv(db, Init(acks), now);
      AckOneKeepsHeld(AckAll(db, Init(acks), now), Last(acks), now, gid, w, at);
    }
  }

  lemma BulkKeepsHeld(db: Db, ids: set<Gid>, op: Bulk, gid: Gid, w: WorkerId, at: Time)
    requires op.Claim? ==> op.claimer != w
    ensures HeldRowKept(db, BulkUpdate(db, ids, op), gid, w, at)
  {
  }

  lemma UpkeepKeepsHeld(cfg: Config, db: Db, step: Step, gid: Gid, w: WorkerId, at: Time)
    requires Inv(db) && Enabled(cfg, db, step)
    requires !step.EmitStep? && !step.EmitBatchStep? && !step.AckStep? && !step.AckBatchStep?
    requires !step.ClaimStep? && !step.BulkStep? && !step.ForceRemoveStep?
    ensures HeldRowKept(db, Next(cfg, db, step), gid, w, at)
  {
  }

  lemma OrchestrateKeepsHeld(cfg: Config, w: WorkerId, db: Db, step: Step, now: Time, gid: Gid)
    requires Inv(db) && Enabled(cfg, db, step) && Timely(w, now, step)
    ensures HeldRowKept(db, Next(cfg, db, step), gid, w, now)
  {
    if step.EmitStep? {
      EmitKeepsHeld(cfg, db, step.event, now, gid, w);
    } else if step.EmitBatchStep? {
      EmitAllKeepsHeld(cfg, db, step.events, now, gid, w);
    } else if step.AckStep? {
      AckOneKeepsHeld(db, step.ack, step.now, gid, w, now);
    } else if step.AckBatchStep? {
      AckAllKeepsHeld(db, step.acks, step.now, gid, w, now);
    } else if step.ClaimStep? {
      BulkKeepsHeld(db, step.claimed, Claim(step.worker, step.now), gid, w, now);
    } else if step.BulkStep? {
      BulkKeepsHeld(db, step.selection, step.op, gid, w, now);
    } else if step.ForceRemoveStep? {
      BulkKeepsHeld(db, db.granules.Keys, Revoke(step.worker, step.now), gid, w, now);
    } else {
      UpkeepKeepsHeld(cfg, db, step, gid, w, now);
    }
  }

  lemma HeldFromKept(w: WorkerId, l: Link, l': Link, now: Time)
    requires HeldSinceClaim(w, l) && l'.claims == l.claims && (forall g | g in l.claims :: l.claims[g] <= now)
    requires forall gid :: HeldRowKept(l.db, l'.db, gid, w, now)
    ensures HeldSinceClaim(w, l')
  {
    forall gid | gid in l'.db.granules && HeldBy(l'.db.granules[gid], w)
      ensures gid in l'.claims && l'.db.granules[gid].updatedAt >= l'.claims[gid]
    {
      assert HeldRowKept(l.db, l'.db, gid, w, now);
    }
  }

  lemma HeartbeatKeepsHeld(db: Db, w: WorkerId, active: set<Gid>, now: Time, gid: Gid)
    ensures HeldRowKept(db, HeartbeatUpdate(db, w, Some(active), now), gid, w, now)
  {
  }

  lemma HeartbeatKeepsInv(db: Db, w: WorkerId, active: set<Gid>, now: Time)
    requires Inv(db)
    ensures Inv(HeartbeatUpdate(db, w, Some(active), now))
  {
    BulkKeepsInv(db, ReclaimCandidates(db, w, active, now), Reclaim(w, now));
    var mid := BulkUpdate(db, ReclaimCandidates(db, w, active, now), Reclaim(w, now));
    BulkKeepsInv(mid, mid.granules.Keys, Renew(w, now));
  }

  // ----- preservation -----------------------------------------------------------------------

  lemma OrchestrateKeepsLink(cfg: Config, d: Delays, w: WorkerId, l: Link, step: Step)
    requires LinkInv(d, w, l) && Enabled(cfg, l.db, step) && Timely(w, l.now, step)
    ensures LinkInv(d, w, l.(db := Next(cfg, l.db, step)))
  {
    var l' := l.(db := Next(cfg, l.db, step));
    NextKeepsInv(cfg, l.db, step);
    forall gid ensures HeldRowKept(l.db, l'.db, gid, w, l.now) {
      OrchestrateKeepsHeld(cfg, w, l.db, step, l.now, gid);
    }
    HeldFromKept(w, l, l', l.now);
    assert Busy(l') == Busy(l);
  }

  /** Later claims only strengthen what the beats and replies rely on. */
  lemma LaterClaims(d: Delays, l: Link, l': Link)
    requires BeatsCover(d, l) && Dated(l)
    requires l'.tasks == l.tasks && l'.queue == l.queue && l'.batch == l.batch && l'.beats == l.beats && l'.now == l.now
    requires forall g | g in l.claims :: g in l'.claims && l.claims[g] <= l'.claims[g]
    requires forall g | g in l'.claims :: l'.claims[g] <= l.now
    requires forall r | r in l'.replies :: r in l.replies || (r.claimedAt == l.now && ClaimedSince(l', r.gid, l.now))
    ensures BeatsCover(d, l') && Dated(l')
  {
    forall b, gid | b in l'.beats && gid in Busy(l')
      ensures gid in b.active || ClaimedSince(l', gid, b.sentAt - d.reply)
    {
      assert gid in Busy(l);
    }
  }

  lemma ClaimedRows(w: WorkerId, l: Link, claimed: set<Gid>)
    requires HeldSinceClaim(w, l) && claimed <= Selected(l.db, Claim(w, l.now))
    ensures HeldSinceClaim(w, Claimed(w, l, claimed))
  {
  }

  lemma ClaimKeepsLink(d: Delays, w: WorkerId, l: Link, claimed: set<Gid>)
    requires LinkInv(d, w, l) && claimed <= Selected(l.db, Claim(w, l.now))
    ensures LinkInv(d, w, Claimed(w, l, claimed))
  {
    BulkKeepsInv(l.db, claimed, Claim(w, l.now));
    ClaimedRows(w, l, claimed);
    LaterClaims(d, l, Claimed(w, l, claimed));
  }

  lemma BeatKeepsLink(d: Delays, w: WorkerId, l: Link, beat: Beat)
    requires LinkInv(d, w, l) && beat in l.beats
    ensures LinkInv(d, w, Reconciled(w, l, beat))
  {
    var l' := Reconciled(w, l, beat);
    HeartbeatKeepsInv(l.db, w, beat.active, l.now);
    forall gid ensures HeldRowKept(l.db, l'.db, gid, w, l.now) {
      HeartbeatKeepsHeld(l.db, w, beat.active, l.now, gid);
    }
    HeldFromKept(w, l, l', l.now);
    assert Busy(l') == Busy(l);
  }

  lemma ArriveKeepsLink(d: Delays, w: WorkerId, l: Link, reply: LeaseReply)
    requires LinkInv(d, w, l) && InTime(d, l) && reply in l.replies && reply.gid !in l.handlers
    ensures LinkInv(d, w, Arrive(l.(replies := l.replies - {reply}), reply.gid))
  {
    var l' := Arrive(l.(replies := l.replies - {reply}), reply.gid);
    forall b, gid | b in l'.beats && gid in Busy(l')
      ensures gid in b.active || ClaimedSince(l', gid, b.sentAt - d.reply)
    {
      assert gid in Busy(l) || gid == reply.gid;
    }
  }

  lemma WorkerKeepsLink(cfg: Config, d: Delays, w: WorkerId, l: Link, s: LinkStep)
    requires LinkInv(d, w, l) && Possible(cfg, w, l, s)
    requires s.TaskEmits? || s.TaskEnds? || s.BeginSend? || s.EndSend? || s.SendBeat? || s.Tick? || s.ReplyLost? || s.BeatLost?
    ensures LinkInv(d, w, After(cfg, w, l, s))
  {
    var l' := After(cfg, w, l, s);
    assert Busy(l') <= Busy(l);
    forall b, gid | b in l'.beats && gid in Busy(l')
      ensures gid in b.active || ClaimedSince(l', gid, b.sentAt - d.reply)
    {
      assert b !in l.beats ==> Busy(l) <= Active(l);
    }
  }

  lemma LinkStepKeeps(cfg: Config, d: Delays, w: WorkerId, l: Link, s: LinkStep)
    requires LinkInv(d, w, l) && InTime(d, l) && Possible(cfg, w, l, s) && NotHandled(l, s)
    ensures LinkInv(d, w, After(cfg, w, l, s))
  {
    if s.Orchestrate? {
      OrchestrateKeepsLink(cfg, d, w, l, s.step);
    } else if s.ClaimHere? {
      ClaimKeepsLink(d, w, l, s.claimed);
    } else if s.ReplyArrives? {
      ArriveKeepsLink(d, w, l, s.reply);
    } else if s.BeatArrives? {
      BeatKeepsLink(d, w, l, s.beat);
    } else {
      WorkerKeepsLink(cfg, d, w, l, s);
    }
  }

  // ----- no finished work is lost -----------------------------------------------------------

  ghost predicate LinkRun(cfg: Config, d: Delays, w: WorkerId, ls: seq<Link>, steps: seq<LinkStep>) {
    && |ls| == |steps| + 1
    && forall i | 0 <= i < |steps| ::
         InTime(d, ls[i]) && Possible(cfg, w, ls[i], steps[i]) && ls[i + 1] == After(cfg, w, ls[i], steps[i])
  }

  /** The worker has just registered: it handles nothing, owes nothing and holds nothing. */
  ghost predicate Started(w: WorkerId, l: Link) {
    && Inv(l.db) && l.replies == {} && l.beats == {} && l.tasks == map[] && l.handlers == map[]
    && l.queue == [] && l.batch == [] && l.claims == map[]
    && forall gid | gid in l.db.granules :: !HeldBy(l.db.granules[gid], w)
  }

  lemma {:induction false} RunKeepsLink(cfg: Config, d: Delays, w: WorkerId, ls: seq<Link>, steps: seq<LinkStep>, i: nat)
    requires LinkRun(cfg, d, w, ls, steps) && Started(w, ls[0]) && i <= |steps|
    requires forall j | 0 <= j < i :: NotHandled(ls[j], steps[j])
    ensures LinkInv(d, w, ls[i])
  {
    if i > 0 {
      RunKeepsLink(cfg, d, w, ls, steps, i - 1);
      LinkStepKeeps(cfg, d, w, ls[i - 1], steps[i - 1]);
    }
  }

  /** Busy granules are outside the grace or in the report, so the reconcile leaves their leases alone. */
  lemma BeatSparesBusy(d: Delays, w: WorkerId, l: Link, beat: Beat, gid: Gid)
    requires LinkInv(d, w, l) && InTime(d, l) && beat in l.beats && d.reply + d.beat <= RECLAIM_GRACE
    requires gid in Busy(l) && gid in l.db.granules && HeldBy(l.db.granules[gid], w)
    ensures var rows := Reconciled(w, l, beat).db.granules;
      gid in rows && HeldBy(rows[gid], w) && rows[gid].state == l.db.granules[gid].state
  {
  }

  /**
   No heartbeat ever reclaims a granule whose handler is running or whose event is queued or mid-send, provided
   a lease reply and a heartbeat together take no longer than the grace, and no lease reply ever names a granule
   whose handler is still in the worker's dictionary.
   */
  lemma NoFinishedWorkLost(
    cfg: Config, d: Delays, w: WorkerId, ls: seq<Link>, steps: seq<LinkStep>, i: nat, gid: Gid)
    requires LinkRun(cfg, d, w, ls, steps) && Started(w, ls[0]) && i < |steps| && d.reply + d.beat <= RECLAIM_GRACE
    requires forall j | 0 <= j < i :: NotHandled(ls[j], steps[j])
    requires steps[i].BeatArrives? && gid in Busy(ls[i])
    requires gid in ls[i].db.granules && HeldBy(ls[i].db.granules[gid], w)
    ensures gid in ls[i + 1].db.granules && HeldBy(ls[i + 1].db.granules[gid], w)
    ensures ls[i + 1].db.granules[gid].state == ls[i].db.granules[gid].state
  {
    RunKeepsLink(cfg, d, w, ls, steps, i);
    BeatSparesBusy(d, w, ls[i], steps[i].beat, gid);
  }

  // ----- the corner the worker does not check -----------------------------------------------

  /**
   Popping by granule id is safe exactly when the reply did not name a granule already being handled: otherwise
   the newcomer's end removes the older, still running handler from the dictionary.
   */
  lemma PopByGranuleId(l: Link, gid: Gid)
    requires Mirrored(l) && l.handlers.Keys == set t | t in l.tasks :: l.tasks[t]
    ensures Mirrored(Finish(Arrive(l, gid), l.nextTask)) <==> gid !in l.handlers
  {
    var l' := Finish(Arrive(l, gid), l.nextTask);
    if gid in l.handlers {
      var t :| t in l.tasks && l.tasks[t] == gid;
      assert t in l'.tasks && l'.tasks[t] == gid && gid !in l'.handlers;
    }
  }

  /**
   What it costs: when a granule with a running handler is leased to the same worker again (its first lease was
   revoked or swept and the heartbeat has not cancelled the handler yet) and the second handler ends at once, the
   next report leaves the granule out, and a minute later the reconcile releases it under the running handler.
   */
  lemma HandledReplyLosesWork(w: WorkerId, l: Link, gid: Gid)
    requires Mirrored(l) && gid in l.handlers && l.handlers[gid] in l.tasks && l.tasks[l.handlers[gid]] == gid
    requires gid !in Owed(l)
    requires gid in l.db.granules && HeldBy(l.db.granules[gid], w) && l.db.granules[gid].updatedAt <= l.now
    ensures var l' := Finish(Arrive(l, gid), l.nextTask).(now := l.now + RECLAIM_GRACE + 1);
      var l'' := Reconciled(w, l', Beat(Active(l'), l'.now));
      && gid in Busy(l') && gid !in Active(l')
      && gid in Busy(l'') && gid in l''.db.granules && l''.db.granules[gid].state == Pending
  {
    var l' := Finish(Arrive(l, gid), l.nextTask).(now := l.now + RECLAIM_GRACE + 1);
    assert l'.tasks[l.handlers[gid]] == gid;
    HeartbeatRow(l'.db, w, Active(l'), l'.now, gid);
  }
}
