/**
 The staged fleet rollout: operator requests and leader ticks over one row per rollout. A tick moves a rollout from
 canary to batch to fleet only when every member of the frozen cohort is on the target version or excused.
 */
module Rollouts {
  import opened Basics

  datatype Phase = Pending | Running | Halted | Done | Aborted

  /** A worker's row, as far as the rollout reads it, and the update one-shot it writes. */
  datatype Member = Member(removed: bool, paused: bool, version: Token, stamp: Option<Token>)

  datatype Rollout = Rollout(
    target: Token, phase: Phase, wave: int, cohort: seq<WorkerId>, deadline: Option<Time>,
    canary: int, batchPct: real, timeout: Time)

  datatype Fleet = Fleet(workers: map<WorkerId, Member>, rollouts: seq<Rollout>)

  // ----- listing and slicing ----------------------------------------------------------------

  predicate IsLeast(ids: set<int>, m: int) {
    m in ids && forall x | x in ids :: m <= x
  }

  lemma HasMember(ids: set<int>)
    ensures ids == {} || exists x :: x in ids
  {
    if forall x :: x !in ids {
      assert ids == {};
    }
  }

  lemma {:induction false} LeastExists(ids: set<int>)
    requires ids != {}
    ensures exists m :: IsLeast(ids, m)
    decreases |ids|
  {
    HasMember(ids);
    var pick :| pick in ids;
    var rest := ids - {pick};
    HasMember(rest);
    if rest == {} {
      forall x | x in ids ensures pick <= x {
        assert x == pick || x in rest;
      }
      assert IsLeast(ids, pick);
    } else {
      LeastExists(rest);
      var m :| IsLeast(rest, m);
      assert forall x | x in ids :: x == pick || x in rest;
      assert IsLeast(ids, if pick < m then pick else m);
    }
  }

  /** `ORDER BY worker_id`: the ids, each once, ascending. */
  ghost predicate Lists(list: seq<int>, ids: set<int>) {
    && |list| == |ids| && (forall x :: x in list <==> x in ids)
    && (forall i, j | 0 <= i < j < |list| :: list[i] < list[j])
  }

  lemma {:induction false} ListingExists(ids: set<int>)
    ensures exists list :: Lists(list, ids)
    decreases |ids|
  {
    if ids == {} {
      assert Lists([], ids);
    } else {
      LeastExists(ids);
      var m :| IsLeast(ids, m);
      ListingExists(ids - {m});
      var rest :| Lists(rest, ids - {m});
      LeastFirst(ids, m, rest);
    }
  }

  lemma LeastFirst(ids: set<int>, m: int, rest: seq<int>)
    requires IsLeast(ids, m) && Lists(rest, ids - {m})
    ensures Lists([m] + rest, ids)
  {
    var list := [m] + rest;
    forall x ensures x in list <==> x in ids {
      assert x in list <==> x == m || x in rest;
    }
    forall i, j | 0 <= i < j < |list| ensures list[i] < list[j] {
      assert list[j] == rest[j - 1] && rest[j - 1] in rest;
      if i > 0 {
        assert list[i] == rest[i - 1];
      }
    }
  }

  /** There is only one such list. */
  lemma {:induction false} ListingIsUnique(list: seq<int>, list': seq<int>, ids: set<int>)
    requires Lists(list, ids) && Lists(list', ids)
    ensures list == list'
    decreases |ids|
  {
    if ids != {} {
      assert list[0] in list && list'[0] in list';
      var i :| 0 <= i < |list| && list[i] == list'[0];
      var j :| 0 <= j < |list'| && list'[j] == list[0];
      assert list[0] == list'[0];
      TailLists(list, ids);
      TailLists(list', ids);
      ListingIsUnique(list[1..], list'[1..], ids - {list[0]});
      assert list == [list[0]] + list[1..] && list' == [list'[0]] + list'[1..];
    }
  }

  lemma TailLists(list: seq<int>, ids: set<int>)
    requires Lists(list, ids) && list != []
    ensures Lists(list[1..], ids - {list[0]})
  {
    forall x ensures x in list[1..] <==> x in ids - {list[0]} {
      if x in list[1..] {
        var i :| 0 <= i < |list[1..]| && list[1..][i] == x;
        assert list[i + 1] == x && list[0] < x;
      }
      if x in ids && x != list[0] {
        var i :| 0 <= i < |list| && list[i] == x;
        assert list[1..][i - 1] == x;
      }
    }
  }

  /** Python's `s[:n]`, which counts from the end when `n` is negative. */
  function Sliced<T>(s: seq<T>, n: int): (r: seq<T>)
    ensures |r| == if n >= 0 then Min(n, |s|) else Max(0, |s| + n)
  {
    if n >= 0 then s[..Min(n, |s|)] else s[..Max(0, |s| + n)]
  }

  function Ceil(x: real): (n: int)
    ensures (n - 1) as real < x <= n as real
  {
    if x == x.Floor as real then x.Floor else x.Floor + 1
  }

  // ----- the row's transitions --------------------------------------------------------------

  predicate Eligible(workers: map<WorkerId, Member>, target: Token, w: WorkerId) {
    w in workers && !workers[w].removed && !workers[w].paused && workers[w].version != target
  }

  ghost function EligibleIds(workers: map<WorkerId, Member>, target: Token): (list: seq<WorkerId>)
    ensures Lists(list, set w | w in workers && Eligible(workers, target, w))
  {
    var ids := set w | w in workers && Eligible(workers, target, w);
    ListingExists(ids);
    var list :| Lists(list, ids);
    list
  }

  function WaveSize(wave: int, n: nat, r: Rollout): (size: int) {
    if n == 0 then 0
    else if wave == 0 then Min(r.canary, n)
    else if wave == 1 then Min(n, Max(1, Ceil(n as real * r.batchPct)))
    else n
  }

  /** Gone, removed or paused: dropped from the cohort's denominator. */
  predicate Excused(workers: map<WorkerId, Member>, w: WorkerId) {
    w !in workers || workers[w].removed || workers[w].paused
  }

  predicate Confirmed(workers: map<WorkerId, Member>, target: Token, w: WorkerId) {
    !Excused(workers, w) && workers[w].version == target
  }

  function Awaited(workers: map<WorkerId, Member>, target: Token, cohort: seq<WorkerId>): (ids: seq<WorkerId>) {
    if cohort == [] then []
    else Awaited(workers, target, Init(cohort)) +
         if Excused(workers, Last(cohort)) || Confirmed(workers, target, Last(cohort)) then [] else [Last(cohort)]
  }

  function ConfirmedOf(workers: map<WorkerId, Member>, target: Token, cohort: seq<WorkerId>): (ids: seq<WorkerId>) {
    if cohort == [] then []
    else ConfirmedOf(workers, target, Init(cohort)) + if Confirmed(workers, target, Last(cohort)) then [Last(cohort)] else []
  }

  function ExcusedOf(workers: map<WorkerId, Member>, cohort: seq<WorkerId>): (ids: seq<WorkerId>) {
    if cohort == [] then []
    else ExcusedOf(workers, Init(cohort)) + if Excused(workers, Last(cohort)) then [Last(cohort)] else []
  }

  lemma {:induction false} BreakdownExact(workers: map<WorkerId, Member>, target: Token, cohort: seq<WorkerId>, w: WorkerId)
    ensures w in ConfirmedOf(workers, target, cohort) <==> w in cohort && Confirmed(workers, target, w)
    ensures w in ExcusedOf(workers, cohort) <==> w in cohort && Excused(workers, w)
  {
    if cohort != [] {
      BreakdownExact(workers, target, Init(cohort), w);
      assert cohort == Init(cohort) + [Last(cohort)];
    }
  }

  function Stamped(workers: map<WorkerId, Member>, ids: seq<WorkerId>, target: Token): (r: map<WorkerId, Member>) {
    map w | w in workers :: if w in ids then workers[w].(stamp := Some(target)) else workers[w]
  }

  ghost function EnterWave(f: Fleet, i: nat, wave: int, now: Time): (f': Fleet)
    requires i < |f.rollouts|
  {
    var r := f.rollouts[i];
    var eligible := EligibleIds(f.workers, r.target);
    var size := WaveSize(wave, |eligible|, r);
    if size == 0 then f.(rollouts := f.rollouts[i := r.(phase := Done)])
    else
      var members := Sliced(eligible, size);
      Fleet(Stamped(f.workers, members, r.target),
            f.rollouts[i := r.(phase := Running, wave := wave, cohort := members, deadline := Some(now + r.timeout))])
  }

  /** The latest row in one of the phases, or -1. */
  function LatestIn(rs: seq<Rollout>, phases: set<Phase>): (i: int)
    ensures -1 <= i < |rs|
    ensures i >= 0 ==> rs[i].phase in phases
    ensures forall j | i < j < |rs| :: rs[j].phase !in phases
  {
    if rs == [] then -1 else if Last(rs).phase in phases then |rs| - 1 else LatestIn(Init(rs), phases)
  }

  const OPEN: set<Phase> := {Pending, Running, Halted}
  const DRIVEN: set<Phase> := {Pending, Running}

  /** One leader tick. */
  ghost function Tick(f: Fleet, now: Time): (f': Fleet) {
    var i := LatestIn(f.rollouts, DRIVEN);
    if i < 0 then f
    else
      var r := f.rollouts[i];
      if r.phase == Pending then EnterWave(f, i, 0, now)
      else if Awaited(f.workers, r.target, r.cohort) == [] then
        if r.wave >= 2 then f.(rollouts := f.rollouts[i := r.(phase := Done)]) else EnterWave(f, i, r.wave + 1, now)
      else if r.deadline.Some? && now >= r.deadline.value then f.(rollouts := f.rollouts[i := r.(phase := Halted)])
      else f
  }

  function NewRollout(target: Token, canary: int, batchPct: real, timeout: Time): (r: Rollout) {
    Rollout(target, Pending, -1, [], None, canary, batchPct, timeout)
  }

  function Start(f: Fleet, target: Token, canary: int, batchPct: real, timeout: Time): (f': Fleet) {
    if LatestIn(f.rollouts, OPEN) >= 0 then f else f.(rollouts := f.rollouts + [NewRollout(target, canary, batchPct, timeout)])
  }

  function Abort(f: Fleet): (f': Fleet) {
    var i := LatestIn(f.rollouts, OPEN);
    if i < 0 then f else f.(rollouts := f.rollouts[i := f.rollouts[i].(phase := Aborted)])
  }

  function Resume(f: Fleet, now: Time): (f': Fleet) {
    var i := LatestIn(f.rollouts, {Halted});
    if i < 0 then f
    else
      var r := f.rollouts[i];
      Fleet(Stamped(f.workers, Awaited(f.workers, r.target, r.cohort), r.target),
            f.rollouts[i := r.(phase := Running, deadline := Some(now + r.timeout))])
  }

  // ----- the handlers -----------------------------------------------------------------------

  datatype Request = Accepted | Conflict | NotFound

  lemma TakeMore<T>(s: seq<T>, i: nat)
    requires i < |s|
    ensures Init(s[..i + 1]) == s[..i] && Last(s[..i + 1]) == s[i]
  {
  }

  method ListIds(ids: set<int>) returns (list: seq<int>)
    ensures Lists(list, ids)
  {
    list := [];
    var rest := ids;
    while rest != {}
      invariant rest <= ids && Lists(list, ids - rest) && forall x, y | x in list && y in rest :: x < y
      decreases |rest|
    {
      LeastExists(rest);
      var m :| IsLeast(rest, m);
      LastListed(list, ids - rest, m);
      assert ids - (rest - {m}) == ids - rest + {m};
      list, rest := list + [m], rest - {m};
    }
    assert ids - rest == ids;
  }

  lemma LastListed(list: seq<int>, ids: set<int>, m: int)
    requires Lists(list, ids) && m !in ids && forall x | x in list :: x < m
    ensures Lists(list + [m], ids + {m})
  {
    var more := list + [m];
    forall i, j | 0 <= i < j < |more| ensures more[i] < more[j] {
      assert more[i] == list[i] && list[i] in list;
    }
  }

  class Service {
    var workers: map<WorkerId, Member>
    var rollouts: seq<Rollout>

    function State(): (f: Fleet)
      reads this
    {
      Fleet(workers, rollouts)
    }

    constructor (workers: map<WorkerId, Member>)
      ensures State() == Fleet(workers, [])
    {
      this.workers, rollouts := workers, [];
    }

    /** Members on target, still awaited, and excused, each in cohort order. */
    method MemberBreakdown(r: Rollout) returns (confirmed: seq<WorkerId>, awaited: seq<WorkerId>, excused: seq<WorkerId>)
      ensures awaited == Awaited(workers, r.target, r.cohort)
      ensures forall w :: w in confirmed <==> w in r.cohort && Confirmed(workers, r.target, w)
      ensures forall w :: w in excused <==> w in r.cohort && Excused(workers, w)
      ensures |confirmed| + |awaited| + |excused| == |r.cohort|
    {
      confirmed, awaited, excused := [], [], [];
      var i := 0;
      while i < |r.cohort|
        invariant 0 <= i <= |r.cohort| && |confirmed| + |awaited| + |excused| == i
        invariant awaited == Awaited(workers, r.target, r.cohort[..i])
        invariant confirmed == ConfirmedOf(workers, r.target, r.cohort[..i])
        invariant excused == ExcusedOf(workers, r.cohort[..i])
      {
        var w := r.cohort[i];
        TakeMore(r.cohort, i);
        if w !in workers || workers[w].removed || workers[w].paused {
          excused := excused + [w];
        } else if workers[w].version == r.target {
          confirmed := confirmed + [w];
        } else {
          awaited := awaited + [w];
        }
        i := i + 1;
      }
      assert r.cohort[..|r.cohort|] == r.cohort;
      forall w
        ensures w in confirmed <==> w in r.cohort && Confirmed(workers, r.target, w)
        ensures w in excused <==> w in r.cohort && Excused(workers, w)
      {
        BreakdownExact(workers, r.target, r.cohort, w);
      }
    }

    method StampEach(ids: seq<WorkerId>, target: Token)
      modifies this`workers
      ensures workers == Stamped(old(workers), ids, target)
    {
      var i := 0;
      assert Stamped(workers, ids[..0], target) == workers;
      while i < |ids|
        invariant 0 <= i <= |ids| && workers == Stamped(old(workers), ids[..i], target)
      {
        assert ids[..i + 1] == ids[..i] + [ids[i]];
        if ids[i] in workers {
          workers := workers[ids[i] := workers[ids[i]].(stamp := Some(target))];
        }
        assert workers == Stamped(old(workers), ids[..i + 1], target);
        i := i + 1;
      }
      assert ids[..|ids|] == ids;
    }

    /** The workers a wave may take, by id. */
    method ListEligible(target: Token) returns (list: seq<WorkerId>)
      ensures list == EligibleIds(workers, target)
    {
      var ids := set w | w in workers && Eligible(workers, target, w);
      list := ListIds(ids);
      ListingIsUnique(list, EligibleIds(workers, target), ids);
    }

    method Enter(i: nat, wave: int, now: Time)
      requires i < |rollouts|
      modifies this
      ensures State() == EnterWave(old(State()), i, wave, now)
      ensures 0 <= wave <= 2 ==>
        |rollouts| == |old(rollouts)| && Enters(old(State()), State(), old(rollouts)[i], rollouts[i], wave, now)
    {
      if 0 <= wave <= 2 {
        EnterEnters(State(), i, wave, now, EnterWave(State(), i, wave, now));
      }
      var r := rollouts[i];
      var eligible := ListEligible(r.target);
      var size := WaveSize(wave, |eligible|, r);
      if size == 0 {
        rollouts := rollouts[i := r.(phase := Done)];
        return;
      }
      var members := Sliced(eligible, size);
      StampEach(members, r.target);
      rollouts := rollouts[i := r.(phase := Running, wave := wave, cohort := members, deadline := Some(now + r.timeout))];
    }

    /** One leader tick; true when it wrote the row. */
    method Advance(now: Time) returns (changed: bool)
      modifies this
      ensures State() == Tick(old(State()), now)
      ensures !changed ==> State() == old(State())
      ensures Valid(old(State())) && old(rollouts) != [] ==>
        rollouts != [] && TickMeans(old(State()), State(), Last(old(rollouts)), Last(rollouts), now)
    {
      if Valid(State()) && rollouts != [] {
        TickDecides(State(), now);
      }
      changed := AdvanceRow(now);
    }

    method AdvanceRow(now: Time) returns (changed: bool)
      modifies this
      ensures State() == Tick(old(State()), now)
      ensures !changed ==> State() == old(State())
    {
      var i := LatestIn(rollouts, DRIVEN);
      if i < 0 {
        return false;
      }
      var r := rollouts[i];
      if r.phase == Pending {
        Enter(i, 0, now);
        return true;
      }
      var _, awaited, _ := MemberBreakdown(r);
      if awaited == [] {
        if r.wave >= 2 {
          rollouts := rollouts[i := r.(phase := Done)];
        } else {
          Enter(i, r.wave + 1, now);
        }
        return true;
      }
      if r.deadline.Some? && now >= r.deadline.value {
        rollouts := rollouts[i := r.(phase := Halted)];
        return true;
      }
      return false;
    }

    /** `canary` and `timeout` of zero, like none, mean the configured defaults. */
    method StartRollout(target: Token, canary: Option<int>, batchPct: Option<real>, timeout: Option<Time>,
                        defaultCanary: int, defaultPct: real, defaultTimeout: Time) returns (reply: Request)
      modifies this`rollouts
      ensures reply == Conflict <==> exists i :: 0 <= i < |old(rollouts)| && old(rollouts)[i].phase in OPEN
      ensures reply in {Accepted, Conflict}
      ensures reply == Conflict ==> rollouts == old(rollouts)
      ensures reply == Accepted ==>
        && |rollouts| == |old(rollouts)| + 1 && rollouts[..|old(rollouts)|] == old(rollouts)
        && var r := Last(rollouts);
           && r.target == target && r.phase == Pending && r.wave == -1 && r.cohort == [] && r.deadline.None?
           && r.canary == (if canary.Some? && canary.value != 0 then canary.value else defaultCanary)
           && r.timeout == (if timeout.Some? && timeout.value != 0 then timeout.value else defaultTimeout)
           && r.batchPct == (if batchPct.Some? then batchPct.value else defaultPct)
      ensures State() == Start(old(State()), target,
                               if canary.Some? && canary.value != 0 then canary.value else defaultCanary,
                               if batchPct.Some? then batchPct.value else defaultPct,
                               if timeout.Some? && timeout.value != 0 then timeout.value else defaultTimeout)
    {
      var open := LatestIn(rollouts, OPEN);
      if open >= 0 {
        return Conflict;
      }
      rollouts := rollouts + [NewRollout(
        target, if canary.Some? && canary.value != 0 then canary.value else defaultCanary,
        if batchPct.Some? then batchPct.value else defaultPct,
        if timeout.Some? && timeout.value != 0 then timeout.value else defaultTimeout)];
      return Accepted;
    }

    method AbortRollout() returns (reply: Request)
      modifies this`rollouts
      ensures reply == NotFound <==> LatestIn(old(rollouts), OPEN) < 0
      ensures reply in {Accepted, NotFound} && State() == Abort(old(State()))
    {
      var i := LatestIn(rollouts, OPEN);
      if i < 0 {
        return NotFound;
      }
      rollouts := rollouts[i := rollouts[i].(phase := Aborted)];
      return Accepted;
    }

    /** Re-stamp the members still awaited and extend the deadline. */
    method ResumeRollout(now: Time) returns (reply: Request)
      modifies this
      ensures reply == NotFound <==> LatestIn(old(rollouts), {Halted}) < 0
      ensures reply in {Accepted, NotFound} && State() == Resume(old(State()), now)
    {
      var i := LatestIn(rollouts, {Halted});
      if i < 0 {
        return NotFound;
      }
      var r := rollouts[i];
      var _, awaited, _ := MemberBreakdown(r);
      StampEach(awaited, r.target);
      rollouts := rollouts[i := r.(phase := Running, deadline := Some(now + r.timeout))];
      return Accepted;
    }
  }

  // ----- runs -------------------------------------------------------------------------------

  /** What happens to the rollout tables; the fleet's own changes are arbitrary. */
  datatype Op =
    | StartOp(target: Token, canary: int, batchPct: real, timeout: Time)
    | AbortOp
    | ResumeOp(now: Time)
    | TickOp(now: Time)
    | FleetOp(workers: map<WorkerId, Member>)

  ghost function Apply(f: Fleet, op: Op): (f': Fleet) {
    match op
    case StartOp(target, canary, batchPct, timeout) => Start(f, target, canary, batchPct, timeout)
    case AbortOp => Abort(f)
    case ResumeOp(now) => Resume(f, now)
    case TickOp(now) => Tick(f, now)
    case FleetOp(workers) => f.(workers := workers)
  }

  ghost predicate IsRun(fs: seq<Fleet>, ops: seq<Op>) {
    |fs| == |ops| + 1 && forall i | 0 <= i < |ops| :: fs[i + 1] == Apply(fs[i], ops[i])
  }

  predicate RowFits(r: Rollout) {
    && -1 <= r.wave <= 2
    && (r.phase == Pending ==> r.wave == -1)
    && (r.phase == Running || r.phase == Halted ==> r.wave >= 0)
    && (r.wave == -1 ==> r.cohort == [])
    && (r.wave == 0 && r.canary >= 0 ==> |r.cohort| <= r.canary)
  }

  /** Only the newest rollout may be open. */
  ghost predicate Valid(f: Fleet) {
    && (forall i | 0 <= i < |f.rollouts| :: RowFits(f.rollouts[i]))
    && (forall i | 0 <= i < |f.rollouts| - 1 :: f.rollouts[i].phase !in OPEN)
  }

  /** Rewriting the newest row with one that fits keeps the table valid. */
  lemma RewriteKeepsValid(f: Fleet, r: Rollout, workers: map<WorkerId, Member>)
    requires Valid(f) && f.rollouts != [] && RowFits(r)
    ensures Valid(Fleet(workers, f.rollouts[|f.rollouts| - 1 := r]))
  {
  }

  lemma OpenIsLast(f: Fleet, phases: set<Phase>)
    requires Valid(f) && phases <= OPEN
    ensures var i := LatestIn(f.rollouts, phases); i >= 0 ==> i == |f.rollouts| - 1
  {
  }

  lemma EnterKeepsValid(f: Fleet, wave: int, now: Time)
    requires Valid(f) && f.rollouts != [] && 0 <= wave <= 2
    ensures Valid(EnterWave(f, |f.rollouts| - 1, wave, now))
  {
    var i := |f.rollouts| - 1;
    var r' := EnterWave(f, i, wave, now).rollouts[i];
    assert RowFits(r');
    RewriteKeepsValid(f, r', EnterWave(f, i, wave, now).workers);
  }

  lemma TickKeepsValid(f: Fleet, now: Time)
    requires Valid(f)
    ensures Valid(Tick(f, now))
  {
    OpenIsLast(f, DRIVEN);
    var i := LatestIn(f.rollouts, DRIVEN);
    if i >= 0 {
      var r := f.rollouts[i];
      if r.phase == Pending {
        EnterKeepsValid(f, 0, now);
      } else {
        RewriteKeepsValid(f, r.(phase := Done), f.workers);
        RewriteKeepsValid(f, r.(phase := Halted), f.workers);
        if r.wave < 2 {
          EnterKeepsValid(f, r.wave + 1, now);
        }
      }
    }
  }

  lemma ApplyKeepsValid(f: Fleet, op: Op)
    requires Valid(f)
    ensures Valid(Apply(f, op))
  {
    match op
    case TickOp(now) => TickKeepsValid(f, now);
    case ResumeOp(now) => OpenIsLast(f, {Halted});
    case AbortOp => OpenIsLast(f, OPEN);
    case _ =>
  }

  lemma ValidMeansOneOpen(f: Fleet, i: nat, j: nat)
    requires Valid(f) && i < |f.rollouts| && j < |f.rollouts|
    requires f.rollouts[i].phase in OPEN && f.rollouts[j].phase in OPEN
    ensures i == j
  {
  }

  lemma {:induction false} ReachableValid(fs: seq<Fleet>, ops: seq<Op>, k: nat)
    requires IsRun(fs, ops) && fs[0].rollouts == [] && k <= |ops|
    ensures Valid(fs[k])
  {
    if k > 0 {
      ReachableValid(fs, ops, k - 1);
      ApplyKeepsValid(fs[k - 1], ops[k - 1]);
    }
  }

  /** At most one rollout is pending, running or halted, in every reachable state. */
  lemma AtMostOneOpen(fs: seq<Fleet>, ops: seq<Op>, k: nat, i: nat, j: nat)
    requires IsRun(fs, ops) && fs[0].rollouts == [] && k <= |ops|
    requires i < |fs[k].rollouts| && j < |fs[k].rollouts|
    requires fs[k].rollouts[i].phase in OPEN && fs[k].rollouts[j].phase in OPEN
    ensures i == j
  {
    ReachableValid(fs, ops, k);
    ValidMeansOneOpen(fs[k], i, j);
  }

  /** Rows are never removed, their target never changes and their wave never goes back. */
  lemma WavesNeverGoBack(f: Fleet, op: Op, i: nat)
    requires Valid(f) && i < |f.rollouts|
    ensures |f.rollouts| <= |Apply(f, op).rollouts|
    ensures Apply(f, op).rollouts[i].target == f.rollouts[i].target
    ensures f.rollouts[i].wave <= Apply(f, op).rollouts[i].wave
  {
  }

  lemma {:induction false} AwaitedExact(workers: map<WorkerId, Member>, target: Token, cohort: seq<WorkerId>, w: WorkerId)
    ensures w in Awaited(workers, target, cohort) <==>
      w in cohort && !Excused(workers, w) && !Confirmed(workers, target, w)
  {
    if cohort != [] {
      AwaitedExact(workers, target, Init(cohort), w);
      assert cohort == Init(cohort) + [Last(cohort)];
    }
  }

  /**
   The gate: a rollout's wave moves past the canary only by a tick at which every member of the frozen cohort is
   on the target version or excused; and then by one.
   */
  lemma LaterWaveIsGated(f: Fleet, op: Op, i: nat)
    requires Valid(f) && i < |f.rollouts| && f.rollouts[i].wave >= 0
    requires Apply(f, op).rollouts[i].wave != f.rollouts[i].wave
    ensures op.TickOp? && Apply(f, op).rollouts[i].wave == f.rollouts[i].wave + 1
    ensures forall w | w in f.rollouts[i].cohort ::
      Excused(f.workers, w) || Confirmed(f.workers, f.rollouts[i].target, w)
  {
    var r := f.rollouts[i];
    WaveChangeNeedsEmpty(f, op, i);
    forall w | w in r.cohort ensures Excused(f.workers, w) || Confirmed(f.workers, r.target, w) {
      AwaitedExact(f.workers, r.target, r.cohort, w);
    }
  }

  lemma OnlyTicksMoveWaves(f: Fleet, op: Op, i: nat)
    requires Valid(f) && i < |f.rollouts| && !op.TickOp?
    ensures i < |Apply(f, op).rollouts| && Apply(f, op).rollouts[i].wave == f.rollouts[i].wave
  {
  }

  lemma WaveChangeNeedsEmpty(f: Fleet, op: Op, i: nat)
    requires Valid(f) && i < |f.rollouts| && f.rollouts[i].wave >= 0
    requires Apply(f, op).rollouts[i].wave != f.rollouts[i].wave
    ensures op.TickOp? && Apply(f, op).rollouts[i].wave == f.rollouts[i].wave + 1
    ensures Awaited(f.workers, f.rollouts[i].target, f.rollouts[i].cohort) == []
  {
    if !op.TickOp? {
      OnlyTicksMoveWaves(f, op, i);
    } else {
      OpenIsLast(f, DRIVEN);
    }
  }

  /** Besides the fleet's own changes, only members of the open rollout's cohort get stamped, with its target. */
  lemma OnlyTheCohortIsStamped(f: Fleet, op: Op, w: WorkerId)
    requires Valid(f) && !op.FleetOp? && w in f.workers
    requires Apply(f, op).workers[w] != f.workers[w]
    ensures f.rollouts != [] && w in Last(Apply(f, op).rollouts).cohort
    ensures Apply(f, op).workers[w] == f.workers[w].(stamp := Some(Last(f.rollouts).target))
  {
    if op.ResumeOp? {
      var i := LatestIn(f.rollouts, {Halted});
      AwaitedExact(f.workers, f.rollouts[i].target, f.rollouts[i].cohort, w);
    }
  }

  /** A worker a wave may take: not removed, not paused, not on the target. */
  predicate Behind(m: Member, target: Token) {
    !m.removed && !m.paused && m.version != target
  }

  /** These workers and no others carry the target as their update one-shot now. */
  ghost predicate StampedExactly(f: Fleet, f': Fleet, ids: seq<WorkerId>, target: Token) {
    && f'.workers.Keys == f.workers.Keys
    && forall w | w in f.workers :: f'.workers[w] == if w in ids then f.workers[w].(stamp := Some(target)) else f.workers[w]
  }

  /** The list is the first workers, by id, of those a wave may take. */
  ghost predicate FirstBehind(workers: map<WorkerId, Member>, target: Token, ids: seq<WorkerId>) {
    && (forall i, j | 0 <= i < j < |ids| :: ids[i] < ids[j])
    && (forall w | w in ids :: w in workers && Behind(workers[w], target))
    && (forall w | w in workers && Behind(workers[w], target) && w !in ids :: forall c | c in ids :: c < w)
  }

  lemma PrefixIsFirst(workers: map<WorkerId, Member>, target: Token, all: seq<WorkerId>, k: nat)
    requires k <= |all| && (forall i, j | 0 <= i < j < |all| :: all[i] < all[j])
    requires forall w :: w in all <==> w in workers && Behind(workers[w], target)
    ensures FirstBehind(workers, target, all[..k])
  {
    var ids := all[..k];
    forall w | w in ids ensures w in workers && Behind(workers[w], target) {
      assert w in all;
    }
    forall w | w in all && w !in ids ensures forall c | c in ids :: c < w {
      var j :| 0 <= j < |all| && all[j] == w;
      assert forall m | 0 <= m < k :: ids[m] == all[m] && all[m] in ids;
    }
  }

  lemma SlicedIsFirst(workers: map<WorkerId, Member>, target: Token, size: int)
    ensures FirstBehind(workers, target, Sliced(EligibleIds(workers, target), size))
  {
    var all := EligibleIds(workers, target);
    PrefixIsFirst(workers, target, all, if size >= 0 then Min(size, |all|) else Max(0, |all| + size));
  }

  lemma StampedIsExact(f: Fleet, f': Fleet, ids: seq<WorkerId>, target: Token)
    requires f'.workers == Stamped(f.workers, ids, target)
    ensures StampedExactly(f, f', ids, target)
  {
  }

  lemma EnterStamps(f: Fleet, i: nat, wave: int, now: Time)
    requires i < |f.rollouts| && WaveSize(wave, |EligibleIds(f.workers, f.rollouts[i].target)|, f.rollouts[i]) != 0
    ensures var f', r := EnterWave(f, i, wave, now), f.rollouts[i]; var r' := f'.rollouts[i];
      && FirstBehind(f.workers, r.target, r'.cohort) && StampedExactly(f, f', r'.cohort, r.target)
      && r' == r.(phase := Running, wave := wave, cohort := r'.cohort, deadline := Some(now + r.timeout))
  {
    var r := f.rollouts[i];
    var size := WaveSize(wave, |EligibleIds(f.workers, r.target)|, r);
    SlicedIsFirst(f.workers, r.target, size);
    StampedIsExact(f, EnterWave(f, i, wave, now), Sliced(EligibleIds(f.workers, r.target), size), r.target);
  }

  /** Some worker is left for a wave to take. */
  ghost predicate AnyBehind(workers: map<WorkerId, Member>, target: Token) {
    exists w :: w in workers && Behind(workers[w], target)
  }

  lemma NobodyEligible(workers: map<WorkerId, Member>, target: Token)
    ensures EligibleIds(workers, target) == [] <==> !AnyBehind(workers, target)
  {
    var ids := set w | w in workers && Eligible(workers, target, w);
    HasMember(ids);
    if w :| w in workers && Behind(workers[w], target) {
      assert w in ids && w in EligibleIds(workers, target);
    }
  }

  /** Some member of the cohort is still to come: known, neither removed nor paused, and off the target. */
  ghost predicate Blocked(workers: map<WorkerId, Member>, r: Rollout) {
    exists w :: w in r.cohort && w in workers && Behind(workers[w], r.target)
  }

  lemma NobodyAwaited(workers: map<WorkerId, Member>, r: Rollout)
    ensures Awaited(workers, r.target, r.cohort) == [] <==> !Blocked(workers, r)
  {
    if w :| w in r.cohort && w in workers && Behind(workers[w], r.target) {
      AwaitedExact(workers, r.target, r.cohort, w);
    }
    if Awaited(workers, r.target, r.cohort) != [] {
      var w := Awaited(workers, r.target, r.cohort)[0];
      AwaitedExact(workers, r.target, r.cohort, w);
      assert w in r.cohort && w in workers && Behind(workers[w], r.target);
    }
  }

  /** The row enters the wave if that has anybody to take, stamping exactly its cohort; else the rollout is done. */
  ghost predicate Enters(f: Fleet, f': Fleet, r: Rollout, r': Rollout, wave: int, now: Time) {
    if AnyBehind(f.workers, r.target) && !(wave == 0 && r.canary == 0) then
      && r' == r.(phase := Running, wave := wave, cohort := r'.cohort, deadline := Some(now + r.timeout))
      && FirstBehind(f.workers, r.target, r'.cohort) && StampedExactly(f, f', r'.cohort, r.target)
    else
      r' == r.(phase := Done) && f'.workers == f.workers
  }

  lemma EnterEnters(f: Fleet, i: nat, wave: int, now: Time, f': Fleet)
    requires i < |f.rollouts| && 0 <= wave <= 2 && f' == EnterWave(f, i, wave, now)
    ensures |f'.rollouts| == |f.rollouts| && f'.rollouts == f.rollouts[i := f'.rollouts[i]]
    ensures Enters(f, f', f.rollouts[i], f'.rollouts[i], wave, now)
  {
    var r := f.rollouts[i];
    NobodyEligible(f.workers, r.target);
    if WaveSize(wave, |EligibleIds(f.workers, r.target)|, r) != 0 {
      EnterStamps(f, i, wave, now);
    }
  }

  lemma TickIsNewest(f: Fleet, now: Time)
    requires Valid(f) && f.rollouts != []
    ensures var i, r := |f.rollouts| - 1, Last(f.rollouts);
      Tick(f, now) ==
        if r.phase != Pending && r.phase != Running then f
        else if r.phase == Pending then EnterWave(f, i, 0, now)
        else if Awaited(f.workers, r.target, r.cohort) == [] then
          if r.wave >= 2 then f.(rollouts := f.rollouts[i := r.(phase := Done)]) else EnterWave(f, i, r.wave + 1, now)
        else if r.deadline.Some? && now >= r.deadline.value then f.(rollouts := f.rollouts[i := r.(phase := Halted)])
        else f
  {
    OpenIsLast(f, DRIVEN);
  }

  /** What a tick makes of the newest rollout. */
  ghost predicate TickMeans(f: Fleet, f': Fleet, r: Rollout, r': Rollout, now: Time) {
    match r.phase
    case Pending => Enters(f, f', r, r', 0, now)
    case Running =>
      if Blocked(f.workers, r) then
        && f'.workers == f.workers
        && r' == if r.deadline.Some? && now >= r.deadline.value then r.(phase := Halted) else r
      else if r.wave < 2 then Enters(f, f', r, r', r.wave + 1, now)
      else r' == r.(phase := Done) && f'.workers == f.workers
    case _ => f' == f
  }

  /**
   A tick on the newest rollout: a pending one enters the canary; a running one whose cohort is through enters the next
   wave, or is done after the last; a blocked one is halted at its deadline and else waits; any other rests, and then
   nothing changes at all.
   */
  lemma TickDecides(f: Fleet, now: Time)
    requires Valid(f) && f.rollouts != []
    ensures |Tick(f, now).rollouts| == |f.rollouts| && Init(Tick(f, now).rollouts) == Init(f.rollouts)
    ensures TickMeans(f, Tick(f, now), Last(f.rollouts), Last(Tick(f, now).rollouts), now)
  {
    var i, r := |f.rollouts| - 1, Last(f.rollouts);
    TickIsNewest(f, now);
    NobodyAwaited(f.workers, r);
    if r.phase == Pending {
      EnterEnters(f, i, 0, now, Tick(f, now));
    } else if r.phase == Running && r.wave < 2 && !Blocked(f.workers, r) {
      EnterEnters(f, i, r.wave + 1, now, Tick(f, now));
    }
  }

  /** Whenever an operation raises a wave, its new cohort is told to update, and nobody else is. */
  lemma RaisedWaveStamps(f: Fleet, op: Op, i: nat)
    requires Valid(f) && i < |f.rollouts| && i < |Apply(f, op).rollouts|
    requires Apply(f, op).rollouts[i].wave > f.rollouts[i].wave
    ensures var f' := Apply(f, op); var r' := f'.rollouts[i];
      FirstBehind(f.workers, f.rollouts[i].target, r'.cohort) && StampedExactly(f, f', r'.cohort, f.rollouts[i].target)
  {
    if op.TickOp? {
      OpenIsLast(f, DRIVEN);
      TickDecides(f, op.now);
    } else {
      OnlyTicksMoveWaves(f, op, i);
    }
  }

  /** A resume tells every member that is still to come again, and nobody else, and gives the wave its time anew. */
  lemma ResumeStamps(f: Fleet, now: Time)
    requires Valid(f) && f.rollouts != []
    ensures var f', r := Resume(f, now), Last(f.rollouts);
      if r.phase != Halted then f' == f
      else
        && f'.rollouts == f.rollouts[|f.rollouts| - 1 := r.(phase := Running, deadline := Some(now + r.timeout))]
        && f'.workers.Keys == f.workers.Keys
        && forall w | w in f.workers :: f'.workers[w] ==
             if w in r.cohort && Behind(f.workers[w], r.target) then f.workers[w].(stamp := Some(r.target)) else f.workers[w]
  {
    var r := Last(f.rollouts);
    OpenIsLast(f, {Halted});
    forall w | w in f.workers
      ensures w in Awaited(f.workers, r.target, r.cohort) <==> w in r.cohort && Behind(f.workers[w], r.target)
    {
      AwaitedExact(f.workers, r.target, r.cohort, w);
    }
  }

  /** An abort closes the open rollout, if there is one, and touches no other row and no worker. */
  lemma AbortCloses(f: Fleet)
    requires Valid(f)
    ensures var f' := Abort(f);
      && f'.workers == f.workers && |f'.rollouts| == |f.rollouts|
      && forall i | 0 <= i < |f.rollouts| :: f'.rollouts[i] ==
           if f.rollouts[i].phase in {Pending, Running, Halted} then f.rollouts[i].(phase := Aborted) else f.rollouts[i]
  {
    OpenIsLast(f, OPEN);
  }

  /** Workers a wave may take. */
  function BehindIds(workers: map<WorkerId, Member>, target: Token): (ids: set<WorkerId>) {
    set w | w in workers && Behind(workers[w], target)
  }

  /** Of `n` workers a batch wave takes the asked fraction, rounded up, at least one; the fleet wave takes them all. */
  ghost predicate Share(n: nat, pct: real, wave: int, taken: nat) {
    && 1 <= taken <= n
    && (wave == 2 ==> taken == n)
    && (wave == 1 ==> n as real * pct <= taken as real && (taken == 1 || (taken - 1) as real < n as real * pct))
  }

  lemma WaveShare(n: nat, r: Rollout, wave: int)
    requires n > 0 && wave in {1, 2} && 0.0 <= r.batchPct <= 1.0
    ensures WaveSize(wave, n, r) > 0 && Share(n, r.batchPct, wave, WaveSize(wave, n, r))
  {
    LaterWaveSizes(n, r);
  }

  lemma EnterTakes(f: Fleet, i: nat, wave: int, now: Time, taken: int, f': Fleet)
    requires i < |f.rollouts| && f' == EnterWave(f, i, wave, now)
    requires taken == WaveSize(wave, |EligibleIds(f.workers, f.rollouts[i].target)|, f.rollouts[i])
    requires 0 < taken <= |EligibleIds(f.workers, f.rollouts[i].target)|
    ensures |f'.rollouts| == |f.rollouts| && |f'.rollouts[i].cohort| == taken && f'.rollouts[i].wave == wave
  {
  }

  lemma LaterCohortSizes(f: Fleet, now: Time)
    requires Valid(f) && f.rollouts != [] && Last(f.rollouts).phase == Running && 0.0 <= Last(f.rollouts).batchPct <= 1.0
    requires !Blocked(f.workers, Last(f.rollouts)) && Last(f.rollouts).wave < 2
    requires AnyBehind(f.workers, Last(f.rollouts).target)
    ensures Last(f.rollouts).wave >= 0 && |Tick(f, now).rollouts| == |f.rollouts|
    ensures var r, r' := Last(f.rollouts), Last(Tick(f, now).rollouts);
      r'.wave == r.wave + 1 && Share(|BehindIds(f.workers, r.target)|, r.batchPct, r'.wave, |r'.cohort|)
  {
    var i, r := |f.rollouts| - 1, Last(f.rollouts);
    var n := |EligibleIds(f.workers, r.target)|;
    assert RowFits(f.rollouts[i]);
    TickIsNewest(f, now);
    NobodyAwaited(f.workers, r);
    NobodyEligible(f.workers, r.target);
    assert BehindIds(f.workers, r.target) == set w | w in f.workers && Eligible(f.workers, r.target, w);
    WaveShare(n, r, r.wave + 1);
    EnterTakes(f, i, r.wave + 1, now, WaveSize(r.wave + 1, n, r), Tick(f, now));
  }

  /** How many workers the canary wave stamps. */
  function CanaryCount(n: nat, canary: int): (count: nat) {
    if canary >= 0 then Min(canary, n) else Max(0, n + canary)
  }

  /**
   The canary wave takes at most the configured count exactly when that count is not negative or the fleet is small: a
   negative count, which the request accepts, takes all but that many workers.
   */
  lemma CanarySize(f: Fleet, now: Time)
    requires Valid(f) && f.rollouts != [] && Last(f.rollouts).phase == Pending
    ensures var r, n := Last(f.rollouts), |EligibleIds(f.workers, Last(f.rollouts).target)|;
      var r' := Last(Tick(f, now).rollouts);
      && |r'.cohort| == CanaryCount(n, r.canary)
      && (|r'.cohort| <= Max(1, r.canary) <==> r.canary >= 0 || n + r.canary <= 1)
  {
  }

  /** The workers this operation stamped for a rollout in its canary wave; the fleet's own changes stamp nobody. */
  ghost function CanaryStamps(f: Fleet, op: Op, i: nat): (ids: set<WorkerId>) {
    set w | w in f.workers && !op.FleetOp? && StampsFor(f, Apply(f, op), i, w)
  }

  predicate StampsFor(f: Fleet, f': Fleet, i: nat, w: WorkerId) {
    && i == |f'.rollouts| - 1 && f'.rollouts[i].wave == 0
    && w in f.workers && w in f'.workers && f'.workers[w] != f.workers[w]
  }

  ghost function StampedInCanary(fs: seq<Fleet>, ops: seq<Op>, k: nat, i: nat): (ids: set<WorkerId>)
    requires IsRun(fs, ops) && k <= |ops|
  {
    if k == 0 then {} else StampedInCanary(fs, ops, k - 1, i) + CanaryStamps(fs[k - 1], ops[k - 1], i)
  }

  /** The canary's cohort is frozen with its wave, and its count is the row's own. */
  lemma CanaryFrozen(f: Fleet, op: Op, i: nat)
    requires Valid(f) && i < |f.rollouts|
    ensures i < |Apply(f, op).rollouts| && Apply(f, op).rollouts[i].canary == f.rollouts[i].canary
    ensures f.rollouts[i].wave == 0 && Apply(f, op).rollouts[i].wave == 0 ==>
      Apply(f, op).rollouts[i].cohort == f.rollouts[i].cohort
  {
    if op.TickOp? {
      TickFreezes(f, op.now, i);
    } else {
      OthersFreeze(f, op, i);
    }
  }

  lemma TickFreezes(f: Fleet, now: Time, i: nat)
    requires Valid(f) && i < |f.rollouts|
    ensures i < |Tick(f, now).rollouts| && Tick(f, now).rollouts[i].canary == f.rollouts[i].canary
    ensures f.rollouts[i].wave == 0 && Tick(f, now).rollouts[i].wave == 0 ==>
      Tick(f, now).rollouts[i].cohort == f.rollouts[i].cohort
  {
    OpenIsLast(f, DRIVEN);
  }

  lemma OthersFreeze(f: Fleet, op: Op, i: nat)
    requires Valid(f) && i < |f.rollouts| && !op.TickOp?
    ensures i < |Apply(f, op).rollouts| && Apply(f, op).rollouts[i].canary == f.rollouts[i].canary
    ensures Apply(f, op).rollouts[i].cohort == f.rollouts[i].cohort
  {
  }

  lemma {:induction false} MembersBound(s: seq<WorkerId>, ids: set<WorkerId>)
    requires forall w | w in ids :: w in s
    ensures |ids| <= |s|
  {
    if s == [] {
      HasMember(ids);
    } else {
      MembersBound(Init(s), ids - {Last(s)});
      assert ids <= (ids - {Last(s)}) + {Last(s)};
      assert |ids| <= |(ids - {Last(s)}) + {Last(s)}|;
    }
  }

  /** Whoever was stamped in the canary wave is in its cohort as long as the wave lasts. */
  ghost predicate CanaryHeld(f: Fleet, stamped: set<WorkerId>, i: nat) {
    if i >= |f.rollouts| || f.rollouts[i].wave < 0 then stamped == {}
    else if f.rollouts[i].wave == 0 then forall w | w in stamped :: w in f.rollouts[i].cohort
    else f.rollouts[i].canary >= 0 ==> |stamped| <= f.rollouts[i].canary
  }

  lemma CanaryStampsMembers(f: Fleet, op: Op, i: nat, w: WorkerId)
    requires Valid(f) && w in CanaryStamps(f, op, i)
    ensures w in Apply(f, op).rollouts[i].cohort
  {
    OnlyTheCohortIsStamped(f, op, w);
  }

  lemma CanaryStepHeld(f: Fleet, op: Op, stamped: set<WorkerId>, i: nat)
    requires Valid(f) && CanaryHeld(f, stamped, i)
    ensures CanaryHeld(Apply(f, op), stamped + CanaryStamps(f, op, i), i)
  {
    var f', more := Apply(f, op), CanaryStamps(f, op, i);
    forall w | w in more ensures w in f'.rollouts[i].cohort {
      CanaryStampsMembers(f, op, i, w);
    }
    if i < |f'.rollouts| && f'.rollouts[i].wave == 0 {
      if i < |f.rollouts| {
        WavesNeverGoBack(f, op, i);
        CanaryFrozen(f, op, i);
      } else {
        assert stamped == {};
      }
    } else {
      assert more == {};
      assert stamped + more == stamped;
      if i < |f.rollouts| {
        WavesNeverGoBack(f, op, i);
        CanaryFrozen(f, op, i);
        if f.rollouts[i].wave == 0 {
          MembersBound(f.rollouts[i].cohort, stamped);
        }
        if f.rollouts[i].wave < 0 && f'.rollouts[i].wave > 0 {
          NoWaveSkipped(f, op, i);
        }
      } else if i < |f'.rollouts| {
        NewRowWaits(f, op, i);
      }
    }
  }

  lemma NoWaveSkipped(f: Fleet, op: Op, i: nat)
    requires Valid(f) && i < |f.rollouts| && f.rollouts[i].wave < 0
    ensures Apply(f, op).rollouts[i].wave <= 0
  {
    if op.TickOp? {
      OpenIsLast(f, DRIVEN);
    } else {
      OnlyTicksMoveWaves(f, op, i);
    }
  }

  lemma OnlyStartsAddRows(f: Fleet, op: Op)
    requires Valid(f) && !op.StartOp?
    ensures |Apply(f, op).rollouts| == |f.rollouts|
  {
    if op.TickOp? {
      OpenIsLast(f, DRIVEN);
    }
  }

  lemma NewRowWaits(f: Fleet, op: Op, i: nat)
    requires Valid(f) && |f.rollouts| <= i < |Apply(f, op).rollouts|
    ensures Apply(f, op).rollouts[i].wave < 0
  {
    if !op.StartOp? {
      OnlyStartsAddRows(f, op);
    }
  }

  lemma {:induction false} CanaryReached(fs: seq<Fleet>, ops: seq<Op>, k: nat, i: nat)
    requires IsRun(fs, ops) && fs[0].rollouts == [] && k <= |ops|
    ensures CanaryHeld(fs[k], StampedInCanary(fs, ops, k, i), i)
  {
    if k > 0 {
      CanaryReached(fs, ops, k - 1, i);
      ReachableValid(fs, ops, k - 1);
      CanaryStepHeld(fs[k - 1], ops[k - 1], StampedInCanary(fs, ops, k - 1, i), i);
    }
  }

  /**
   In every run, all ticks and resumes of a rollout's canary wave together stamp at most as many workers as its canary
   count, if that is not negative.
   */
  lemma CanaryStampsBounded(fs: seq<Fleet>, ops: seq<Op>, k: nat, i: nat)
    requires IsRun(fs, ops) && fs[0].rollouts == [] && k <= |ops| && i < |fs[k].rollouts|
    requires fs[k].rollouts[i].canary >= 0
    ensures |StampedInCanary(fs, ops, k, i)| <= fs[k].rollouts[i].canary
  {
    CanaryReached(fs, ops, k, i);
    ReachableValid(fs, ops, k);
    if fs[k].rollouts[i].wave == 0 {
      MembersBound(fs[k].rollouts[i].cohort, StampedInCanary(fs, ops, k, i));
    }
  }

  /** The batch wave takes the asked fraction of the remaining workers, rounded up, at least one; the fleet wave all. */
  lemma LaterWaveSizes(n: nat, r: Rollout)
    requires n > 0 && 0.0 <= r.batchPct <= 1.0
    ensures 1 <= WaveSize(1, n, r) <= n && WaveSize(2, n, r) == n
    ensures n as real * r.batchPct <= WaveSize(1, n, r) as real
    ensures WaveSize(1, n, r) == 1 || (WaveSize(1, n, r) - 1) as real < n as real * r.batchPct
  {
    FractionAtMost(n as real, r.batchPct);
    CeilAtMost(n as real * r.batchPct, n);
  }

  lemma CeilAtMost(x: real, n: int)
    requires x <= n as real
    ensures Ceil(x) <= n
  {
  }

  lemma FractionAtMost(x: real, f: real)
    requires x >= 0.0 && 0.0 <= f <= 1.0
    ensures x * f <= x
  {
  }

  /** Ticks left before the row rests, unless an operator resumes it. */
  function TicksLeft(r: Rollout): (n: nat)
    requires RowFits(r)
  {
    match r.phase
    case Pending => 4
    case Running => 3 - r.wave
    case _ => 0
  }

  lemma TickCountsDown(f: Fleet, now: Time, i: nat)
    requires Valid(f) && i < |f.rollouts|
    ensures i < |Tick(f, now).rollouts| && RowFits(Tick(f, now).rollouts[i])
    ensures Tick(f, now).rollouts[i] == f.rollouts[i] || TicksLeft(Tick(f, now).rollouts[i]) < TicksLeft(f.rollouts[i])
  {
  }

  lemma OthersDoNotCountUp(f: Fleet, op: Op, i: nat)
    requires Valid(f) && i < |f.rollouts| && !op.ResumeOp? && !op.TickOp?
    ensures i < |Apply(f, op).rollouts| && RowFits(Apply(f, op).rollouts[i])
    ensures TicksLeft(Apply(f, op).rollouts[i]) <= TicksLeft(f.rollouts[i])
  {
  }

  ghost function ChangingTicks(fs: seq<Fleet>, ops: seq<Op>, from: nat, to: nat, i: nat): (n: nat)
    requires IsRun(fs, ops) && from <= to <= |ops|
  {
    if from == to then 0
    else ChangingTicks(fs, ops, from, to - 1, i) +
         if ops[to - 1].TickOp? && i < |fs[to - 1].rollouts| && i < |fs[to].rollouts|
            && fs[to].rollouts[i] != fs[to - 1].rollouts[i] then 1 else 0
  }

  /** Without a resume, at most four ticks ever change a rollout's row. */
  lemma {:induction false} AtMostFourTicks(fs: seq<Fleet>, ops: seq<Op>, from: nat, to: nat, i: nat)
    requires IsRun(fs, ops) && from <= to <= |ops| && Valid(fs[from]) && i < |fs[from].rollouts|
    requires forall k | from <= k < to :: !ops[k].ResumeOp?
    ensures Valid(fs[to]) && i < |fs[to].rollouts|
    ensures ChangingTicks(fs, ops, from, to, i) + TicksLeft(fs[to].rollouts[i]) <= TicksLeft(fs[from].rollouts[i]) <= 4
  {
    if from < to {
      AtMostFourTicks(fs, ops, from, to - 1, i);
      StepCountsDown(fs[to - 1], ops[to - 1], fs[to], i);
    }
  }

  lemma StepCountsDown(f: Fleet, op: Op, f': Fleet, i: nat)
    requires Valid(f) && i < |f.rollouts| && !op.ResumeOp? && f' == Apply(f, op)
    ensures Valid(f') && i < |f'.rollouts| && TicksLeft(f'.rollouts[i]) <= TicksLeft(f.rollouts[i]) <= 4
    ensures op.TickOp? && f'.rollouts[i] != f.rollouts[i] ==> TicksLeft(f'.rollouts[i]) < TicksLeft(f.rollouts[i])
  {
    ApplyKeepsValid(f, op);
    if op.TickOp? {
      TickCountsDown(f, op.now, i);
    } else {
      OthersDoNotCountUp(f, op, i);
    }
  }
}
