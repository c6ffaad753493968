/**
 Segmented pull: one object fetched by concurrent range requests into one shared file. The file is an array every
 segment writes into; the scheduler may interleave the segments' network events in any order.
 */
module Puller {
  import opened Basics
  import opened HttpRange

  type byte = bv8

  datatype Range = Range(start: nat, end: nat)

  // ----- splitting --------------------------------------------------------------------------

  lemma SegmentFits(size: nat, n: nat)
    requires 0 < n <= size
    ensures size / n >= 1 && n * (size / n) <= size
  {
  }

  /** The ranges are consecutive, non-empty, and cover `0..size`. */
  ghost predicate Partitions(ranges: seq<Range>, size: nat) {
    && (forall i | 0 <= i < |ranges| :: ranges[i].start <= ranges[i].end < size)
    && (forall i | 0 <= i < |ranges| - 1 :: ranges[i + 1].start == ranges[i].end + 1)
    && (if size == 0 then ranges == []
        else ranges != [] && ranges[0].start == 0 && Last(ranges).end == size - 1)
  }

  method ByteRanges(size: int, n: int) returns (ranges: Option<seq<Range>>)
    ensures ranges.None? <==> size < 0
    ensures ranges.Some? ==> Partitions(ranges.value, size) && |ranges.value| == if size == 0 then 0 else Max(1, Min(n, size))
    ensures ranges.Some? ==> forall i | 0 <= i < |ranges.value| - 1 ::
      ranges.value[i].end + 1 - ranges.value[i].start == size / |ranges.value|
  {
    if size < 0 {
      return None;
    }
    if size == 0 {
      return Some([]);
    }
    var count := Max(1, Min(n, size));
    var seg := size / count;
    SegmentFits(size, count);
    var out: seq<Range> := [];
    var i := 0;
    while i < count
      invariant 0 <= i <= count == Max(1, Min(n, size)) && |out| == i && seg >= 1 && count * seg <= size
      invariant forall j | 0 <= j < i :: out[j].start == j * seg && out[j].start <= out[j].end < size
      invariant forall j | 0 <= j < i && j < count - 1 :: out[j].end == (j + 1) * seg - 1
      invariant i == count ==> out[count - 1].end == size - 1
    {
      SegmentInside(i, count, seg, size);
      var start := i * seg;
      var end := if i < count - 1 then (i + 1) * seg - 1 else size - 1;
      out := out + [Range(start, end)];
      i := i + 1;
    }
    return Some(out);
  }

  lemma SegmentInside(i: nat, n: nat, seg: nat, size: nat)
    requires i < n && seg >= 1 && n * seg <= size
    ensures 0 <= i * seg && i * seg <= (i + 1) * seg - 1 < size && i * seg < size
  {
  }

  predicate Within(r: Range, p: nat) { r.start <= p <= r.end }

  lemma {:induction false} StartsAscend(ranges: seq<Range>, size: nat, i: nat, j: nat)
    requires Partitions(ranges, size) && i < j < |ranges|
    ensures ranges[i].end < ranges[j].start
  {
    if i + 1 < j {
      StartsAscend(ranges, size, i, j - 1);
      assert ranges[j - 1 + 1].start == ranges[j - 1].end + 1;
    } else {
      assert ranges[i + 1].start == ranges[i].end + 1;
    }
  }

  /** Every position lies in exactly one range. */
  lemma {:induction false} CoveredOnce(ranges: seq<Range>, size: nat, p: nat) returns (i: nat)
    requires Partitions(ranges, size) && p < size
    ensures i < |ranges| && Within(ranges[i], p)
    ensures forall j | 0 <= j < |ranges| && Within(ranges[j], p) :: j == i
  {
    i := 0;
    while ranges[i].end < p
      invariant i < |ranges| && ranges[i].start <= p
      decreases |ranges| - i
    {
      assert i < |ranges| - 1;
      assert ranges[i + 1].start == ranges[i].end + 1;
      i := i + 1;
    }
    forall j | 0 <= j < |ranges| && Within(ranges[j], p) ensures j == i {
      if j < i {
        StartsAscend(ranges, size, j, i);
      } else if i < j {
        StartsAscend(ranges, size, i, j);
      }
    }
  }

  // ----- one segment ------------------------------------------------------------------------

  /** What the network does next for one segment's request. */
  datatype NetEvent =
    | Responds(status: int, span: Option<ContentRange>, identity: bool)
    | Delivers(count: nat)
    | EndsBody
    | Breaks(transient: bool)

  datatype Phase = Connecting | Streaming | Returned | Raised

  const MAX_RETRIES: nat := 3

  /** How far one segment's task has come. */
  datatype Progress = Progress(pos: nat, attempt: nat, phase: Phase)

  function Failed(p: Progress, transient: bool): (p': Progress) {
    if p.attempt >= MAX_RETRIES || !transient then p.(phase := Raised)
    else p.(phase := Connecting, attempt := p.attempt + 1)
  }

  /** The response serves exactly what was asked for: this range, of an object of the expected size. */
  predicate ServesExactly(r: Range, size: nat, pos: nat, status: int, span: Option<ContentRange>, identity: bool) {
    status == 206 && span == Some(ContentRange(pos, r.end, Some(size))) && identity
  }

  /** One network event; events the task is not waiting for do not occur. */
  function Advance(r: Range, size: nat, p: Progress, e: NetEvent): (p': Progress) {
    match e
    case Responds(status, span, identity) =>
      if !p.phase.Connecting? then p
      else if status >= 400 then Failed(p, 500 <= status < 600)
      else if ServesExactly(r, size, p.pos, status, span, identity) && HttpRange.Valid(span.value) then p.(phase := Streaming)
      else p.(phase := Raised)
    case Delivers(count) =>
      if !p.phase.Streaming? then p
      else if p.pos + count > r.end + 1 then p.(phase := Raised)
      else p.(pos := p.pos + count)
    case EndsBody =>
      if !p.phase.Streaming? then p
      else if p.pos == r.end + 1 then p.(phase := Returned)
      else Failed(p, true)
    case Breaks(transient) =>
      if p.phase.Connecting? || p.phase.Streaming? then Failed(p, transient) else p
  }

  /** One task's progress over its own events of a schedule. */
  function Progressed(r: Range, size: nat, k: nat, schedule: seq<(nat, NetEvent)>): (p: Progress) {
    if schedule == [] then Progress(r.start, 0, Connecting)
    else
      var p := Progressed(r, size, k, Init(schedule));
      if Last(schedule).0 == k then Advance(r, size, p, Last(schedule).1) else p
  }

  class Segment {
    const start: nat
    const end: nat
    const file: array<byte>
    var pos: nat
    var attempt: nat
    var phase: Phase

    /** What has been fetched is in place; returned means all of it. */
    ghost predicate Valid(content: seq<byte>)
      reads this, file
    {
      && start <= end < |content| == file.Length && start <= pos <= end + 1 && attempt <= MAX_RETRIES
      && (phase.Returned? ==> pos == end + 1)
      && forall p | start <= p < pos :: file[p] == content[p]
    }

    function State(): (p: Progress)
      reads this
    {
      Progress(pos, attempt, phase)
    }

    constructor (start: nat, end: nat, file: array<byte>, ghost content: seq<byte>)
      requires start <= end < |content| == file.Length
      ensures Valid(content) && this.start == start && this.end == end && this.file == file
      ensures pos == start && attempt == 0 && phase == Connecting
    {
      this.start, this.end, this.file := start, end, file;
      pos, attempt, phase := start, 0, Connecting;
    }

    /** A failed attempt: retry a transient error from where it got to, unless it was the last attempt. */
    method Fail(transient: bool)
      modifies this`attempt, this`phase
      ensures State() == Failed(old(State()), transient)
    {
      if attempt >= MAX_RETRIES || !transient {
        phase := Raised;
      } else {
        attempt, phase := attempt + 1, Connecting;
      }
    }

    /** The response headers: an error status, a refusal to serve exactly this range, or the start of the body. */
    method OnResponse(status: int, span: Option<ContentRange>, identity: bool)
      requires phase == Connecting
      modifies this`attempt, this`phase
      ensures State() == Advance(Range(start, end), file.Length, old(State()), Responds(status, span, identity))
    {
      if 400 <= status {
        Fail(500 <= status < 600);
      } else if status != 206 || span.None? || !HttpRange.Valid(span.value)
        || span.value.start != pos || span.value.end != end || span.value.total != Some(file.Length) || !identity {
        phase := Raised;
      } else {
        phase := Streaming;
      }
    }

    /** A chunk of the body: refused when it overshoots the range, else written at the segment's own position. */
    method OnChunk(chunk: seq<byte>, ghost content: seq<byte>)
      requires Valid(content) && phase == Streaming
      requires pos + |chunk| <= end + 1 ==> chunk == content[pos..pos + |chunk|]
      modifies this`pos, this`phase, file
      ensures Valid(content)
      ensures State() == Advance(Range(start, end), file.Length, old(State()), Delivers(|chunk|))
      ensures forall p | 0 <= p < file.Length && !(start <= p <= end) :: file[p] == old(file[p])
    {
      if pos + |chunk| > end + 1 {
        phase := Raised;
        return;
      }
      var i := 0;
      while i < |chunk|
        invariant 0 <= i <= |chunk| && pos == old(pos) && phase == Streaming
        invariant forall p | 0 <= p < file.Length :: file[p] == if pos <= p < pos + i then chunk[p - pos] else old(file[p])
      {
        file[pos + i] := chunk[i];
        i := i + 1;
      }
      pos := pos + |chunk|;
    }

    /** The body ended: done if the range is complete, else one more failed attempt. */
    method OnEnd()
      requires phase == Streaming
      modifies this`attempt, this`phase
      ensures State() == Advance(Range(start, end), file.Length, old(State()), EndsBody)
    {
      if pos == end + 1 {
        phase := Returned;
      } else {
        Fail(true);
      }
    }

    /** One network event for this segment. */
    method On(event: NetEvent, content: seq<byte>)
      requires Valid(content)
      modifies this`pos, this`attempt, this`phase, file
      ensures Valid(content)
      ensures State() == Advance(Range(start, end), file.Length, old(State()), event)
      ensures Transient(Range(start, end), old(State()), event) && old(attempt) < 3 ==>
        phase == Connecting && pos == old(pos) && attempt == old(attempt) + 1
      ensures Transient(Range(start, end), old(State()), event) && old(attempt) >= 3 ==> phase == Raised
      ensures Hopeless(Range(start, end), file.Length, old(State()), event) ==> phase == Raised
      ensures forall p | 0 <= p < file.Length && !(start <= p <= end) :: file[p] == old(file[p])
    {
      FailureDecides(Range(start, end), file.Length, State(), event);
      match event
      case Responds(status, span, identity) =>
        if phase == Connecting {
          OnResponse(status, span, identity);
        }
      case Delivers(count) =>
        if phase == Streaming {
          var chunk := if pos + count <= end + 1 then content[pos..pos + count] else seq(count, _ => 0);
          OnChunk(chunk, content);
        }
      case EndsBody =>
        if phase == Streaming {
          OnEnd();
        }
      case Breaks(transient) =>
        if phase == Connecting || phase == Streaming {
          Fail(transient);
        }
    }
  }

  // ----- the pull ---------------------------------------------------------------------------

  /** The tasks stand for the ranges, in order, over the one file. */
  ghost predicate Tasks(tasks: seq<Segment>, ranges: seq<Range>, file: array<byte>) {
    && |tasks| == |ranges|
    && (forall i | 0 <= i < |tasks| ::
          tasks[i].start == ranges[i].start && tasks[i].end == ranges[i].end && tasks[i].file == file)
    && (forall i, j | 0 <= i < j < |tasks| :: tasks[i] != tasks[j])
  }

  /** A write inside one task's range leaves every other task's part of the file alone. */
  method DeliverTo(tasks: seq<Segment>, ghost ranges: seq<Range>, file: array<byte>, k: nat, event: NetEvent, content: seq<byte>)
    requires Tasks(tasks, ranges, file) && Partitions(ranges, |content|) && k < |tasks|
    requires forall i | 0 <= i < |tasks| :: tasks[i].Valid(content)
    modifies tasks, file
    ensures forall i | 0 <= i < |tasks| :: tasks[i].Valid(content)
    ensures forall i | 0 <= i < |tasks| && i != k :: tasks[i].State() == old(tasks[i].State())
    ensures tasks[k].State() == Advance(ranges[k], |content|, old(tasks[k].State()), event)
    ensures forall p | 0 <= p < file.Length && !Within(ranges[k], p) :: file[p] == old(file[p])
  {
    tasks[k].On(event, content);
    forall i | 0 <= i < |tasks| && i != k ensures tasks[i].Valid(content) {
      if i < k {
        StartsAscend(ranges, |content|, i, k);
      } else {
        StartsAscend(ranges, |content|, k, i);
      }
    }
  }

  /** One task per range. */
  method CreateTasks(ranges: seq<Range>, file: array<byte>, ghost content: seq<byte>) returns (tasks: seq<Segment>)
    requires Partitions(ranges, |content|) && file.Length == |content|
    ensures Tasks(tasks, ranges, file)
    ensures forall i | 0 <= i < |tasks| :: fresh(tasks[i]) && tasks[i].Valid(content)
    ensures forall i | 0 <= i < |tasks| :: tasks[i].State() == Progress(ranges[i].start, 0, Connecting)
  {
    tasks := [];
    while |tasks| < |ranges|
      invariant |tasks| <= |ranges| && Tasks(tasks, ranges[..|tasks|], file)
      invariant forall i | 0 <= i < |tasks| :: fresh(tasks[i]) && tasks[i].Valid(content)
      invariant forall i | 0 <= i < |tasks| :: tasks[i].State() == Progress(ranges[i].start, 0, Connecting)
    {
      var r := ranges[|tasks|];
      var task := new Segment(r.start, r.end, file, content);
      tasks := tasks + [task];
    }
    assert ranges[..|ranges|] == ranges;
  }

  /**
   Fetch the object of the expected size in up to `segments` segments. `schedule` is what the network does, in
   the order it happens, each event at one task.
   */
  method PullSegmented(content: seq<byte>, segments: int, schedule: seq<(nat, NetEvent)>)
    returns (complete: bool, file: array<byte>, ranges: seq<Range>)
    ensures Partitions(ranges, |content|) && |ranges| == if content == [] then 0 else Max(1, Min(segments, |content|))
    ensures complete <==>
      (forall k | 0 <= k < |ranges| :: Progressed(ranges[k], |content|, k, schedule).phase == Returned)
    ensures fresh(file) && file.Length == |content|
    ensures complete ==> file[..] == content
    ensures (exists setbacks :: Survivable(ranges, |content|, schedule, setbacks)) ==> complete
  {
    var split := ByteRanges(|content|, segments);
    ranges := split.value;
    file := new byte[|content|](_ => 0);
    var tasks := CreateTasks(ranges, file, content);
    var step := 0;
    while step < |schedule|
      invariant 0 <= step <= |schedule| && Tasks(tasks, ranges, file)
      invariant forall i | 0 <= i < |tasks| :: fresh(tasks[i]) && tasks[i].Valid(content)
      invariant forall i | 0 <= i < |tasks| :: tasks[i].State() == Progressed(ranges[i], |content|, i, schedule[..step])
    {
      assert Init(schedule[..step + 1]) == schedule[..step] && Last(schedule[..step + 1]) == schedule[step];
      var (k, event) := schedule[step];
      if k < |tasks| {
        DeliverTo(tasks, ranges, file, k, event, content);
      }
      step := step + 1;
    }
    assert schedule[..|schedule|] == schedule;
    complete := true;
    var i := 0;
    while i < |tasks|
      invariant 0 <= i <= |tasks| && (complete <==> forall j | 0 <= j < i :: tasks[j].State().phase == Returned)
    {
      if tasks[i].phase != Returned {
        complete := false;
      }
      i := i + 1;
    }
    if complete {
      AllInPlace(tasks, ranges, file, content);
    }
    if setbacks :| Survivable(ranges, |content|, schedule, setbacks) {
      SurvivableReturns(ranges, |content|, schedule, setbacks);
    }
  }

  lemma AllInPlace(tasks: seq<Segment>, ranges: seq<Range>, file: array<byte>, content: seq<byte>)
    requires Tasks(tasks, ranges, file) && Partitions(ranges, |content|) && file.Length == |content|
    requires forall i | 0 <= i < |tasks| :: tasks[i].Valid(content) && tasks[i].phase == Returned
    ensures file[..] == content
  {
    forall p | 0 <= p < |content| ensures file[p] == content[p] {
      var i := CoveredOnce(ranges, |content|, p);
      assert tasks[i].Valid(content);
    }
  }

  // ----- when a segment returns -------------------------------------------------------------

  function Events(r: Range, size: nat, p: Progress, es: seq<NetEvent>): (p': Progress) {
    if es == [] then p else Advance(r, size, Events(r, size, p, Init(es)), Last(es))
  }

  /** From any point of any attempt, a full answer to the next request finishes the segment. */
  lemma AnswerFinishes(r: Range, size: nat, p: Progress)
    requires r.start <= p.pos <= r.end < size && p.phase == Connecting
    ensures var answer := [Responds(206, Some(ContentRange(p.pos, r.end, Some(size))), true), Delivers(r.end + 1 - p.pos), EndsBody];
      Events(r, size, p, answer) == p.(pos := r.end + 1, phase := Returned)
  {
    var a, b, c := Responds(206, Some(ContentRange(p.pos, r.end, Some(size))), true), Delivers(r.end + 1 - p.pos), EndsBody;
    assert Init([a, b, c]) == [a, b] && Init([a, b]) == [a] && Init([a]) == [];
    assert Events(r, size, p, [a]) == p.(phase := Streaming);
    assert Events(r, size, p, [a, b]) == p.(phase := Streaming, pos := r.end + 1);
  }

  /** A failure worth another request: the transport broke, a body ended short, or the server erred. */
  predicate Transient(r: Range, p: Progress, e: NetEvent) {
    match e
    case Breaks(transient) => transient && (p.phase == Connecting || p.phase == Streaming)
    case EndsBody => p.phase == Streaming && p.pos <= r.end
    case Responds(status, _, _) => p.phase == Connecting && 500 <= status < 600
    case Delivers(_) => false
  }

  /** A client error, a server that serves anything but the range asked for, or a break that is not the transport's. */
  predicate Hopeless(r: Range, size: nat, p: Progress, e: NetEvent) {
    match e
    case Breaks(transient) => !transient && (p.phase == Connecting || p.phase == Streaming)
    case Responds(status, span, identity) =>
      && p.phase == Connecting && !(500 <= status < 600)
      && !(status == 206 && identity && span == Some(ContentRange(p.pos, r.end, Some(size))))
    case Delivers(count) => p.phase == Streaming && p.pos + count > r.end + 1
    case EndsBody => false
  }

  /** Up to three transient failures each cost one request and no byte; a fourth, or a hopeless one, is final. */
  lemma FailureDecides(r: Range, size: nat, p: Progress, e: NetEvent)
    ensures Transient(r, p, e) && p.attempt < 3 ==> Advance(r, size, p, e) == Progress(p.pos, p.attempt + 1, Connecting)
    ensures Transient(r, p, e) && p.attempt >= 3 ==> Advance(r, size, p, e) == Progress(p.pos, p.attempt, Raised)
    ensures Hopeless(r, size, p, e) ==> Advance(r, size, p, e) == Progress(p.pos, p.attempt, Raised)
  {
  }

  lemma {:induction false} EventsJoin(r: Range, size: nat, p: Progress, es: seq<NetEvent>, fs: seq<NetEvent>)
    ensures Events(r, size, p, es + fs) == Events(r, size, Events(r, size, p, es), fs)
  {
    if fs == [] {
      assert es + fs == es;
    } else {
      assert Init(es + fs) == es + Init(fs) && Last(es + fs) == Last(fs);
      EventsJoin(r, size, p, es, Init(fs));
    }
  }

  /** An answer that does not finish the range: the transport breaks, the body ends short, or the server errs. */
  datatype Setback = Cut(count: nat) | Short(count: nat) | Erred(code: int)

  function Gained(s: Setback): (count: nat) {
    if s.Erred? then 0 else s.count
  }

  function SetbackEvents(r: Range, size: nat, pos: nat, s: Setback): (es: seq<NetEvent>) {
    match s
    case Cut(count) => [Responds(206, Some(ContentRange(pos, r.end, Some(size))), true), Delivers(count), Breaks(true)]
    case Short(count) => [Responds(206, Some(ContentRange(pos, r.end, Some(size))), true), Delivers(count), EndsBody]
    case Erred(code) => [Responds(code, None, true)]
  }

  predicate ServerError(s: Setback) {
    s.Erred? ==> 500 <= s.code < 600
  }

  /** What the network does: these setbacks one after the other, each met from where the last got to, then a full answer. */
  function Script(r: Range, size: nat, pos: nat, setbacks: seq<Setback>): (es: seq<NetEvent>)
    requires pos <= r.end
    decreases |setbacks|
  {
    if setbacks == [] || pos + Gained(setbacks[0]) > r.end then
      [Responds(206, Some(ContentRange(pos, r.end, Some(size))), true), Delivers(r.end + 1 - pos), EndsBody]
    else
      SetbackEvents(r, size, pos, setbacks[0]) + Script(r, size, pos + Gained(setbacks[0]), setbacks[1..])
  }

  lemma SetbackCosts(r: Range, size: nat, p: Progress, s: Setback)
    requires r.start <= p.pos <= r.end < size && p.phase == Connecting && p.attempt < 3
    requires p.pos + Gained(s) <= r.end && ServerError(s)
    ensures Events(r, size, p, SetbackEvents(r, size, p.pos, s)) == Progress(p.pos + Gained(s), p.attempt + 1, Connecting)
  {
    var es := SetbackEvents(r, size, p.pos, s);
    if s.Erred? {
      assert Init(es) == [];
    } else {
      assert Init(es) == [es[0], es[1]] && Init([es[0], es[1]]) == [es[0]] && Init([es[0]]) == [];
      assert Events(r, size, p, [es[0]]) == p.(phase := Streaming);
      assert Events(r, size, p, [es[0], es[1]]) == p.(phase := Streaming, pos := p.pos + Gained(s));
    }
  }

  lemma AfterSetback(r: Range, size: nat, p: Progress, s: Setback, es: seq<NetEvent>)
    requires r.start <= p.pos <= r.end < size && p.phase == Connecting && p.attempt < 3
    requires p.pos + Gained(s) <= r.end && ServerError(s)
    ensures Events(r, size, p, SetbackEvents(r, size, p.pos, s) + es)
         == Events(r, size, Progress(p.pos + Gained(s), p.attempt + 1, Connecting), es)
  {
    SetbackCosts(r, size, p, s);
    EventsJoin(r, size, p, SetbackEvents(r, size, p.pos, s), es);
  }

  lemma ScriptAfterSetback(r: Range, size: nat, p: Progress, setbacks: seq<Setback>)
    requires r.start <= p.pos <= r.end < size && p.phase == Connecting && p.attempt < 3
    requires setbacks != [] && p.pos + Gained(setbacks[0]) <= r.end && ServerError(setbacks[0])
    ensures var q := Progress(p.pos + Gained(setbacks[0]), p.attempt + 1, Connecting);
      Events(r, size, p, Script(r, size, p.pos, setbacks)) == Events(r, size, q, Script(r, size, q.pos, setbacks[1..]))
  {
    AfterSetback(r, size, p, setbacks[0], Script(r, size, p.pos + Gained(setbacks[0]), setbacks[1..]));
  }

  /** With no more than three setbacks the segment resumes each time where it got to, and returns with its whole range. */
  lemma {:induction false} ResumesAndReturns(r: Range, size: nat, p: Progress, setbacks: seq<Setback>)
    requires r.start <= p.pos <= r.end < size && p.phase == Connecting && p.attempt + |setbacks| <= 3
    requires forall i | 0 <= i < |setbacks| :: ServerError(setbacks[i])
    ensures var p' := Events(r, size, p, Script(r, size, p.pos, setbacks)); p'.phase == Returned && p'.pos == r.end + 1
    decreases |setbacks|
  {
    if setbacks == [] || p.pos + Gained(setbacks[0]) > r.end {
      AnswerFinishes(r, size, p);
    } else {
      var q := Progress(p.pos + Gained(setbacks[0]), p.attempt + 1, Connecting);
      ResumesAndReturns(r, size, q, setbacks[1..]);
      ScriptAfterSetback(r, size, p, setbacks);
    }
  }

  /** The events of one task in a schedule. */
  function OwnEvents(schedule: seq<(nat, NetEvent)>, k: nat): (es: seq<NetEvent>) {
    if schedule == [] then []
    else OwnEvents(Init(schedule), k) + if Last(schedule).0 == k then [Last(schedule).1] else []
  }

  /** A task's progress is that of its own events, whatever the others' are. */
  lemma {:induction false} ProgressIsOwn(r: Range, size: nat, k: nat, schedule: seq<(nat, NetEvent)>)
    ensures Progressed(r, size, k, schedule) == Events(r, size, Progress(r.start, 0, Connecting), OwnEvents(schedule, k))
  {
    if schedule != [] {
      ProgressIsOwn(r, size, k, Init(schedule));
      if Last(schedule).0 == k {
        var own := OwnEvents(schedule, k);
        assert Init(own) == OwnEvents(Init(schedule), k) && Last(own) == Last(schedule).1;
      } else {
        assert OwnEvents(schedule, k) == OwnEvents(Init(schedule), k);
      }
    }
  }

  /** Every task meets at most three setbacks, these, before its full answer; the tasks' events mix in any way. */
  ghost predicate Survivable(ranges: seq<Range>, size: nat, schedule: seq<(nat, NetEvent)>, setbacks: seq<seq<Setback>>)
    requires Partitions(ranges, size)
  {
    && |setbacks| == |ranges|
    && forall k | 0 <= k < |ranges| ::
         && |setbacks[k]| <= 3 && (forall i | 0 <= i < |setbacks[k]| :: ServerError(setbacks[k][i]))
         && OwnEvents(schedule, k) == Script(ranges[k], size, ranges[k].start, setbacks[k])
  }

  lemma SurvivableReturns(ranges: seq<Range>, size: nat, schedule: seq<(nat, NetEvent)>, setbacks: seq<seq<Setback>>)
    requires Partitions(ranges, size) && Survivable(ranges, size, schedule, setbacks)
    ensures forall k | 0 <= k < |ranges| :: Progressed(ranges[k], size, k, schedule).phase == Returned
  {
    forall k | 0 <= k < |ranges| ensures Progressed(ranges[k], size, k, schedule).phase == Returned {
      ProgressIsOwn(ranges[k], size, k, schedule);
      ResumesAndReturns(ranges[k], size, Progress(ranges[k].start, 0, Connecting), setbacks[k]);
    }
  }

  /** Whatever happens, written bytes are never given up, and a task makes at most four requests. */
  lemma {:induction false} ProgressKept(r: Range, size: nat, p: Progress, es: seq<NetEvent>)
    requires p.attempt <= MAX_RETRIES && p.pos <= r.end + 1
    ensures var p' := Events(r, size, p, es);
      p.pos <= p'.pos <= r.end + 1 && p.attempt <= p'.attempt <= MAX_RETRIES
  {
    if es != [] {
      ProgressKept(r, size, p, Init(es));
    }
  }

  /**
   A segment whose last byte is written but whose request then breaks can never return: the next request asks for
   an empty range, which no valid response can serve.
   */
  lemma {:induction false} BrokenAfterLastByte(r: Range, size: nat, p: Progress, es: seq<NetEvent>)
    requires p.pos == r.end + 1 && p.phase == Connecting
    ensures var p' := Events(r, size, p, es); p'.pos == r.end + 1 && (p'.phase == Connecting || p'.phase == Raised)
  {
    if es != [] {
      BrokenAfterLastByte(r, size, p, Init(es));
    }
  }
}
