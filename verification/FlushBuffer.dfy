/**
 The coalescing flush buffer of workers and receivers: non-blocking enqueue, one flush at a time, a failed batch
 put back in front, the oldest items shed past the bound. Ghost history ties it to the order of enqueueing.
 */
module FlushBuffers {
  import opened Basics
  import opened Store
  import opened Protocol
  import opened Replay

  datatype Fate = Held | Sent | Shed

  /** Arrived requests started where the queue then started, and every sent item was carried by one. */
  ghost predicate ArrivalsFit(arrivals: seq<Option<Segment>>, head: nat, fates: seq<Fate>) {
    && head <= |fates|
    && (forall k | 0 <= k < |arrivals| ::
          arrivals[k].Some? && arrivals[k].value.from <= arrivals[k].value.to <= |fates| && arrivals[k].value.from <= head)
    && Fifo(arrivals)
    && (forall i | 0 <= i < head && fates[i] == Sent :: Delivered(arrivals, i))
    && (Shed !in fates ==> Gapless(arrivals))
  }

  class FlushBuffer<T> {
    const maxBatch: nat
    const maxBuffer: nat
    const wakeOn: T -> bool
    var queue: seq<T>
    var wake: bool
    var batch: Option<seq<T>>

    /** Everything ever enqueued, and what became of each item. */
    ghost var log: seq<T>
    ghost var fates: seq<Fate>
    ghost var head: nat
    /** The part of the log each request carried that reached the other side, whether or not its reply came back. */
    ghost var arrivals: seq<Option<Segment>>
    /** Whether the request under way has reached it. */
    ghost var arrived: bool

    function InFlight(): (items: seq<T>)
      reads this
    {
      if batch.Some? then batch.value else []
    }

    /** In-flight plus queued is a suffix of the enqueue order; exactly the items before it have a final fate. */
    ghost predicate Valid()
      reads this
    {
      && head <= |log| == |fates|
      && InFlight() + queue == log[head..]
      && (forall i | 0 <= i < |log| :: fates[i] == Held <==> head <= i)
      && ArrivalsFit(arrivals, head, fates)
      && (arrived ==> batch.Some? && arrivals != [] && Last(arrivals) == Some(Segment(head, head + |batch.value|)))
    }

    constructor (maxBatch: nat, maxBuffer: nat, wakeOn: T -> bool)
      ensures Valid() && log == [] && queue == [] && batch.None? && !wake && arrivals == []
      ensures this.maxBatch == maxBatch && this.maxBuffer == maxBuffer && this.wakeOn == wakeOn
    {
      this.maxBatch, this.maxBuffer, this.wakeOn := maxBatch, maxBuffer, wakeOn;
      queue, wake, batch := [], false, None;
      log, fates, head, arrivals, arrived := [], [], 0, [], false;
    }

    /** Append without blocking; an item that cannot wait, or a full batch, wakes the flusher. */
    method Enqueue(item: T)
      requires Valid()
      modifies this`queue, this`wake, this`log, this`fates
      ensures Valid() && queue == old(queue) + [item] && log == old(log) + [item] && fates == old(fates) + [Held]
      ensures wake <==> old(wake) || wakeOn(item) || |queue| >= maxBatch
    {
      queue := queue + [item];
      if wakeOn(item) || |queue| >= maxBatch {
        wake := true;
      }
      assert log[head..] + [item] == (log + [item])[head..];
      log, fates := log + [item], fates + [Held];
    }

    /** Slice the next batch off the queue and start sending it. */
    method BeginFlush()
      requires Valid() && batch.None? && queue != []
      modifies this`queue, this`batch
      ensures Valid() && batch.Some? && batch.value + queue == old(queue)
      ensures |batch.value| == Min(maxBatch, |old(queue)|)
    {
      var n := Min(maxBatch, |queue|);
      batch, queue := Some(queue[..n]), queue[n..];
      assert batch.value + queue == old(queue);
    }

    /** The request under way reaches the other side. */
    ghost method RequestArrives()
      requires Valid() && batch.Some? && !arrived
      modifies this`arrivals, this`arrived
      ensures Valid() && arrived && arrivals == old(arrivals) + [Some(Segment(head, head + |batch.value|))]
    {
      assert |log[head..]| == |batch.value| + |queue|;
      ArrivalsNext(arrivals, head, fates, |batch.value|);
      arrivals, arrived := arrivals + [Some(Segment(head, head + |batch.value|))], true;
    }

    /** The batch was accepted: its items are sent, in order. */
    method FlushSucceeded()
      requires Valid() && batch.Some? && arrived
      modifies this`batch, this`fates, this`head, this`arrived
      ensures Valid() && batch.None? && !arrived && head == old(head) + |old(batch).value|
      ensures |fates| == |old(fates)|
      ensures forall i | 0 <= i < |fates| :: fates[i] == if old(head) <= i < head then Sent else old(fates)[i]
    {
      ghost var n := |batch.value|;
      ghost var last := |arrivals| - 1;
      fates := fates[..head] + seq(n, _ => Sent) + fates[head + n..];
      assert log[head..][n..] == log[head + n..];
      assert queue == (InFlight() + queue)[n..];
      forall i | 0 <= i < head + n && fates[i] == Sent ensures Delivered(arrivals, i) {
        if i >= head {
          assert Carries(arrivals[last], i);
        }
      }
      head, arrived := head + n, false;
      batch := None;
    }

    /** The batch failed, on its way or on the reply's: put it back in front, then shed the oldest past the bound. */
    method FlushFailed()
      requires Valid() && batch.Some?
      modifies this`queue, this`batch, this`fates, this`head, this`arrived
      ensures Valid() && batch.None? && !arrived && |queue| <= Max(maxBuffer, 0)
      ensures var all := old(batch).value + old(queue);
        && queue == all[|all| - Min(maxBuffer, |all|)..] && head == old(head) + |all| - |queue|
      ensures |fates| == |old(fates)|
      ensures forall i | 0 <= i < |fates| :: fates[i] == if old(head) <= i < head then Shed else old(fates)[i]
    {
      queue := batch.value + queue;
      batch, arrived := None, false;
      if |queue| > maxBuffer {
        var over := |queue| - maxBuffer;
        assert log[head..][over..] == log[head + over..];
        queue := queue[over..];
        fates := fates[..head] + seq(over, _ => Shed) + fates[head + over..];
        head := head + over;
      }
    }

    /** One flush; whether the request arrives and whether it is confirmed is up to the network. */
    method Flush(accepted: bool, ghost arrives: bool)
      requires Valid() && batch.None? && (accepted ==> arrives)
      modifies this`queue, this`batch, this`arrivals, this`arrived, this`fates, this`head
      ensures Valid() && batch.None? && |queue| <= |old(queue)|
      ensures old(queue) == [] ==> queue == []
      ensures accepted ==> queue == old(queue)[Min(maxBatch, |old(queue)|)..]
      ensures !accepted && old(queue) != [] ==> queue == old(queue)[|old(queue)| - Min(maxBuffer, |old(queue)|)..]
    {
      if queue == [] {
        return;
      }
      BeginFlush();
      if accepted {
        RequestArrives();
        FlushSucceeded();
      } else {
        if arrives {
          RequestArrives();
        }
        FlushFailed();
      }
    }

    /** Drain on cancellation: flush until empty, or until a flush makes no progress. */
    method Drain(accepts: nat -> bool, ghost arrives: nat -> bool) returns (rounds: nat)
      requires Valid() && batch.None? && forall k :: accepts(k) ==> arrives(k)
      modifies this`queue, this`batch, this`arrivals, this`arrived, this`fates, this`head
      ensures Valid() && batch.None?
      ensures queue == [] || (rounds > 0 && (!accepts(rounds - 1) || maxBatch == 0))
      ensures maxBatch > 0 && (forall k :: accepts(k)) ==> queue == []
      ensures rounds <= |old(queue)| + 1
    {
      rounds := 0;
      while queue != []
        invariant Valid() && batch.None? && rounds + |queue| <= |old(queue)|
        decreases |queue|
      {
        var before := |queue|;
        Flush(accepts(rounds), arrives(rounds));
        rounds := rounds + 1;
        if |queue| >= before {
          break;
        }
      }
    }
  }

  lemma ArrivalsNext(arrivals: seq<Option<Segment>>, head: nat, fates: seq<Fate>, n: nat)
    requires ArrivalsFit(arrivals, head, fates) && head + n <= |fates|
    requires forall i | 0 <= i < |fates| :: fates[i] == Held <==> head <= i
    ensures ArrivalsFit(arrivals + [Some(Segment(head, head + n))], head, fates)
  {
    var more := arrivals + [Some(Segment(head, head + n))];
    forall i | 0 <= i < head && fates[i] == Sent ensures Delivered(more, i) {
      var k :| 0 <= k < |arrivals| && Carries(arrivals[k], i);
      assert more[k] == arrivals[k];
    }
    if Shed !in fates {
      GaplessNext(arrivals, head, fates, Segment(head, head + n));
    }
  }

  /** While nothing was shed, the next request starts no later than the high-water mark. */
  lemma GaplessNext(arrivals: seq<Option<Segment>>, head: nat, fates: seq<Fate>, seg: Segment)
    requires Gapless(arrivals) && seg.from == head <= |fates|
    requires forall i | 0 <= i < head :: fates[i] == Sent && Delivered(arrivals, i)
    ensures Gapless(arrivals + [Some(seg)])
  {
    if head > 0 {
      DeliveredBelow(arrivals, head - 1);
    }
    var more := arrivals + [Some(seg)];
    forall l | 0 <= l < |more| && more[l].Some? ensures more[l].value.from <= HighWater(more[..l]) {
      assert more[..l] == arrivals[..l];
      if l == |arrivals| {
        assert arrivals[..l] == arrivals;
      }
    }
  }

  // ----- a buffer's requests among other steps ----------------------------------------------

  /** The requests of a run, with the steps that were not requests of this buffer left out. */
  ghost function Compact(sends: seq<Option<Segment>>): (r: seq<Option<Segment>>) {
    if sends == [] then []
    else Compact(Init(sends)) + if Last(sends).Some? then [Last(sends)] else []
  }

  lemma {:induction false} CompactHighWater(sends: seq<Option<Segment>>)
    ensures HighWater(Compact(sends)) == HighWater(sends)
  {
    if sends != [] {
      CompactHighWater(Init(sends));
      if Last(sends).Some? {
        assert Init(Compact(sends)) == Compact(Init(sends));
      } else {
        assert Compact(sends) == Compact(Init(sends));
      }
    }
  }

  lemma {:induction false} CompactHas(sends: seq<Option<Segment>>, k: nat) returns (at: nat)
    requires k < |sends| && sends[k].Some?
    ensures at < |Compact(sends)| && Compact(sends)[at] == sends[k]
    ensures k < |sends| - 1 ==> at < |Compact(Init(sends))|
  {
    if k == |sends| - 1 {
      at := |Compact(Init(sends))|;
    } else {
      at := CompactHas(Init(sends), k);
    }
  }

  /** What the buffer guarantees of its requests carries over to a run with other steps in between. */
  lemma RequestsInARun(sends: seq<Option<Segment>>)
    requires Fifo(Compact(sends)) && Gapless(Compact(sends))
    ensures Fifo(sends) && Gapless(sends)
  {
    FifoInARun(sends);
    GaplessInARun(sends);
  }

  lemma {:induction false} FifoInARun(sends: seq<Option<Segment>>)
    requires Fifo(Compact(sends))
    ensures Fifo(sends)
  {
    if sends != [] {
      var all := Compact(sends);
      CompactPrefix(sends);
      FifoInARun(Init(sends));
      forall k, l | 0 <= k < l < |sends| && sends[k].Some? && sends[l].Some?
        ensures sends[k].value.from <= sends[l].value.from
      {
        if l < |sends| - 1 {
          assert Init(sends)[k] == sends[k] && Init(sends)[l] == sends[l];
        } else {
          var at := CompactHas(sends, k);
          assert all[at].value.from <= all[|all| - 1].value.from;
        }
      }
    }
  }

  lemma {:induction false} GaplessInARun(sends: seq<Option<Segment>>)
    requires Gapless(Compact(sends))
    ensures Gapless(sends)
  {
    if sends != [] {
      var before, all := Compact(Init(sends)), Compact(sends);
      CompactPrefix(sends);
      GaplessInARun(Init(sends));
      forall l | 0 <= l < |sends| && sends[l].Some? ensures sends[l].value.from <= HighWater(sends[..l]) {
        if l < |sends| - 1 {
          assert Init(sends)[..l] == sends[..l] && Init(sends)[l] == sends[l];
        } else {
          assert sends[..l] == Init(sends) && all[..|before|] == before;
          CompactHighWater(Init(sends));
          assert all[|before|] == sends[l];
        }
      }
    }
  }

  lemma CompactPrefix(sends: seq<Option<Segment>>)
    requires sends != []
    ensures Fifo(Compact(sends)) ==> Fifo(Compact(Init(sends)))
    ensures Gapless(Compact(sends)) ==> Gapless(Compact(Init(sends)))
  {
    var before, all := Compact(Init(sends)), Compact(sends);
    assert forall k | 0 <= k < |before| :: all[k] == before[k];
    assert forall l | 0 <= l < |before| :: all[..l] == before[..l];
  }

  /** In a run, every sent item lies below the high-water mark of the buffer's arrived requests. */
  lemma SentIsBelow(b: FlushBuffer<WireEvent>, sends: seq<Option<Segment>>, i: nat)
    requires b.Valid() && Compact(sends) == b.arrivals && i < |b.fates| && b.fates[i] == Sent
    ensures i < HighWater(sends)
  {
    DeliveredBelow(b.arrivals, i);
    CompactHighWater(sends);
  }

  /**
   The worker's buffer and the orchestrator together. Take a run among whose steps are the requests of this buffer
   that arrived, confirmed or not, in their order. If the other steps do not revive a delivered report that is sent
   again, the databases are those of the run that sends each report at most once; and if the buffer shed nothing,
   that run carries a prefix of what was ever enqueued, once each and in order, with every item counted as sent.
   */
  lemma BufferSendsOnce(
    b: FlushBuffer<WireEvent>, cfg: Config, dbs: seq<Db>, steps: seq<Step>, sends: seq<Option<Segment>>)
    requires b.Valid() && Compact(sends) == b.arrivals
    requires IsRun(cfg, dbs, steps) && Inv(dbs[0]) && Flushes(steps, sends, b.log)
    requires Undisturbed(dbs, steps, sends, b.log) && ResentInOrder(sends, b.log)
    ensures forall k | 0 <= k <= |sends| :: HighWater(sends[..k]) <= |b.log|
    ensures IsRun(cfg, dbs, TrimmedRun(steps, sends, b.log))
    ensures Shed !in b.fates ==>
      && Carried(sends, b.log, |sends|) == b.log[..HighWater(sends)]
      && forall i | 0 <= i < |b.fates| && b.fates[i] == Sent :: i < HighWater(sends)
  {
    FifoInARun(sends);
    RunSendsOnce(cfg, dbs, steps, sends, b.log);
    forall k | 0 <= k <= |sends| ensures HighWater(sends[..k]) <= |b.log| {
      HighWaterInLog(steps, sends, b.log, k);
    }
    if Shed !in b.fates {
      GaplessInARun(sends);
      CarriedOnceInOrder(steps, sends, b.log, |sends|);
      assert sends[..|sends|] == sends;
      forall i | 0 <= i < |b.fates| && b.fates[i] == Sent ensures i < HighWater(sends) {
        SentIsBelow(b, sends, i);
      }
    }
  }
}
