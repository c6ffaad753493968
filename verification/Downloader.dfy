/**
 Resumable download over a partial file: `HttpDownloader.fetch` with its resume, restart and size checks. What the
 server answers is a parameter; an honest server's bytes are those of one unchanging object.
 */
module Downloader {
  import opened Basics
  import opened HttpRange

  type byte = bv8

  /** One answer: the headers the code looks at, the chunks that arrived, and whether the body ended properly. */
  datatype Response = Response(
    status: int, contentRange: string, contentLength: Option<nat>, encoded: bool, chunks: seq<seq<byte>>, ended: bool)

  datatype Result = Fetched(size: nat) | ProtocolError | HttpError | TransportError

  function Joined(chunks: seq<seq<byte>>): (bytes: seq<byte>) {
    if chunks == [] then [] else Joined(Init(chunks)) + Last(chunks)
  }

  /** The bytes are the object's from `offset` on, as far as the object goes. */
  predicate Agrees(remote: seq<byte>, offset: nat, bytes: seq<byte>) {
    forall i | 0 <= i < |bytes| && offset + i < |remote| :: bytes[i] == remote[offset + i]
  }

  /** The offset a response's body starts at. */
  function OffsetOf(r: Response): (offset: nat) {
    var span := ParseContentRange(r.contentRange);
    if r.status == 206 && span.Some? then span.value.start else 0
  }

  /** The total size the response declares, as far as the code trusts it. */
  function DeclaredTotal(r: Response): (total: Option<nat>) {
    if r.status == 206 then
      var span := ParseContentRange(r.contentRange);
      if span.Some? then span.value.total else None
    else if r.status == 416 then UnsatisfiedRangeSize(r.contentRange)
    else if r.encoded then None
    else r.contentLength
  }

  /**
   The server serves this object: what it declares is its size and what it sends are its bytes; when it declares
   no size it sends no more than the object.
   */
  ghost predicate Honest(remote: seq<byte>, r: Response) {
    && (DeclaredTotal(r).Some? ==> DeclaredTotal(r).value == |remote|)
    && Agrees(remote, OffsetOf(r), Joined(r.chunks))
    && (DeclaredTotal(r).None? ==> |Joined(r.chunks)| <= |remote|)
  }

  predicate PrefixOf(part: seq<byte>, remote: seq<byte>) {
    |part| <= |remote| && part == remote[..|part|]
  }

  // ----- what a conforming server may answer ------------------------------------------------

  /** The whole rest of the object from `from` on, as a partial answer that says so. */
  ghost predicate ServesRest(remote: seq<byte>, from: nat, r: Response) {
    && from < |remote| && r.status == 206 && !r.encoded && r.ended
    && r.contentRange == Format(ContentRange(from, |remote| - 1, Some(|remote|)))
    && Joined(r.chunks) == remote[from..]
  }

  /** The whole object, with its length. */
  ghost predicate ServesWhole(remote: seq<byte>, r: Response) {
    r.status == 200 && !r.encoded && r.ended && r.contentLength == Some(|remote|) && Joined(r.chunks) == remote
  }

  /** The partial file is whole, and the server says so. */
  ghost predicate ConfirmsWhole(part: Option<seq<byte>>, first: Response) {
    part.Some? && part.value != [] && first.status == 416 && first.contentRange == FormatUnsatisfied(|part.value|)
  }

  /** The server refuses to resume a partial file, and serves the object on the second request. */
  ghost predicate Restarts(remote: seq<byte>, part: Option<seq<byte>>, first: Response, second: Response) {
    && part.Some? && 0 < |part.value| < |remote|
    && first.status == 416 && first.contentRange == FormatUnsatisfied(|remote|)
    && (ServesWhole(remote, second) || ServesRest(remote, 0, second))
  }

  /** A complete answer of another length than it declares. */
  predicate Misstated(r: Response) {
    && r.status == 200 && r.ended && !r.encoded
    && r.contentLength.Some? && |Joined(r.chunks)| != r.contentLength.value
  }

  /** A partial answer about another stretch than the rest from `from` on, or about a transformed one. */
  ghost predicate ServesOther(from: nat, r: Response) {
    && r.status == 206
    && (r.encoded || exists span: ContentRange ::
          && HttpRange.Valid(span) && r.contentRange == Format(span)
          && (span.start != from || span.total.None? || span.end + 1 != span.total.value))
  }

  // ----- when a fetch returns ---------------------------------------------------------------

  /** The headers of an answer to a request that resumes at `existing` (or starts over, at zero). */
  predicate HeadersFit(r: Response, existing: nat) {
    if r.status == 206 then
      var span := ParseContentRange(r.contentRange);
      && span.Some? && span.value.start == existing && span.value.total.Some?
      && span.value.end == span.value.total.value - 1 && !r.encoded
    else r.status == 200
  }

  function StartOf(r: Response, existing: nat): (start: nat) {
    if r.status == 206 then existing else 0
  }

  /** The body arrived, and if a size was declared, exactly that much. */
  predicate BodyComplete(r: Response, start: nat) {
    r.ended && (DeclaredTotal(r).Some? ==> start + |Joined(r.chunks)| == DeclaredTotal(r).value)
  }

  function SizeOf(part: Option<seq<byte>>): (n: nat) {
    if part.Some? then |part.value| else 0
  }

  /** The server refused to resume. */
  predicate Refused(part: Option<seq<byte>>, first: Response) {
    first.status == 416 && SizeOf(part) > 0
  }

  /** The refusal says that the partial file is already whole. */
  predicate AlreadyWhole(part: Option<seq<byte>>, first: Response) {
    Refused(part, first) && UnsatisfiedRangeSize(first.contentRange) == Some(SizeOf(part))
  }

  /** The answer whose body counts: the second one after a refused resume, else the first. */
  function Answer(part: Option<seq<byte>>, first: Response, second: Response): (r: Response) {
    if Refused(part, first) && !AlreadyWhole(part, first) then second else first
  }

  predicate Returns(part: Option<seq<byte>>, first: Response, second: Response) {
    || AlreadyWhole(part, first)
    || (var r := Answer(part, first, second);
        var existing := if Refused(part, first) then 0 else SizeOf(part);
        HeadersFit(r, existing) && BodyComplete(r, StartOf(r, existing)))
  }

  lemma {:induction false} JoinedPrefix(chunks: seq<seq<byte>>, i: nat)
    requires i <= |chunks|
    ensures |Joined(chunks[..i])| <= |Joined(chunks)| && Joined(chunks[..i]) == Joined(chunks)[..|Joined(chunks[..i])|]
  {
    if i < |chunks| {
      assert Init(chunks)[..i] == chunks[..i];
      JoinedPrefix(Init(chunks), i);
    } else {
      assert chunks[..i] == chunks;
    }
  }

  lemma PrefixExtends(remote: seq<byte>, part: seq<byte>, bytes: seq<byte>, n: nat)
    requires PrefixOf(part, remote) && Agrees(remote, |part|, bytes) && n <= |bytes| && |part| + n <= |remote|
    ensures PrefixOf(part + bytes[..n], remote)
  {
  }

  lemma ChunkStep(chunks: seq<seq<byte>>, i: nat)
    requires i < |chunks|
    ensures Joined(chunks[..i + 1]) == Joined(chunks[..i]) + chunks[i]
    ensures |Joined(chunks[..i + 1])| <= |Joined(chunks)|
  {
    assert Init(chunks[..i + 1]) == chunks[..i];
    JoinedPrefix(chunks, i + 1);
  }

  lemma PrefixSoFar(remote: seq<byte>, base: seq<byte>, chunks: seq<seq<byte>>, i: nat)
    requires PrefixOf(base, remote) && Agrees(remote, |base|, Joined(chunks)) && i <= |chunks|
    requires |base| + |Joined(chunks[..i])| <= |remote|
    ensures PrefixOf(base + Joined(chunks[..i]), remote)
  {
    JoinedPrefix(chunks, i);
    PrefixExtends(remote, base, Joined(chunks), |Joined(chunks[..i])|);
  }

  class Files {
    /** The partial file, if there is one, and the destination once a fetch has returned. */
    var part: Option<seq<byte>>
    var dest: Option<seq<byte>>

    constructor ()
      ensures part.None? && dest.None?
    {
      part, dest := None, None;
    }

    ghost predicate Sound(remote: seq<byte>)
      reads this
    {
      part.Some? ==> PrefixOf(part.value, remote)
    }

    /** Rename the partial file over the destination. */
    method Finish() returns (size: nat)
      requires part.Some?
      modifies this
      ensures dest == old(part) && part.None? && size == |old(part).value|
    {
      dest := part;
      part := None;
      size := |dest.value|;
    }

    /** Append the chunks that arrive, refusing one that would exceed the declared total. */
    method Receive(chunks: seq<seq<byte>>, ended: bool, total: Option<nat>, ghost remote: seq<byte>)
      returns (error: Option<Result>)
      requires part.Some? && PrefixOf(part.value, remote) && Agrees(remote, |part.value|, Joined(chunks))
      requires if total.Some? then total.value == |remote| else |part.value| + |Joined(chunks)| <= |remote|
      modifies this`part
      ensures part.Some? && Sound(remote)
      ensures error.None? <==> ended && (total.Some? ==> |old(part).value| + |Joined(chunks)| == total.value)
      ensures error.None? || error == Some(TransportError) ==> part.value == old(part).value + Joined(chunks)
      ensures error == Some(TransportError) ==> !ended
      ensures error.Some? && ended ==> error == Some(ProtocolError)
      ensures error.Some? ==> !error.value.Fetched?
    {
      ghost var base := part.value;
      var i := 0;
      while i < |chunks|
        invariant 0 <= i <= |chunks| && part.Some? && part.value == base + Joined(chunks[..i])
        invariant |part.value| <= |remote|
      {
        ChunkStep(chunks, i);
        if total.Some? && |part.value| + |chunks[i]| > total.value {
          PrefixSoFar(remote, base, chunks, i);
          return Some(ProtocolError);
        }
        part := Some(part.value + chunks[i]);
        i := i + 1;
      }
      assert chunks[..|chunks|] == chunks;
      PrefixSoFar(remote, base, chunks, |chunks|);
      if !ended {
        return Some(TransportError);
      }
      if total.Some? && |part.value| != total.value {
        return Some(ProtocolError);
      }
      return None;
    }

    /** An answer that is not a refused resume: check its headers, then receive the body. */
    method Accept(r: Response, existing: nat, ghost remote: seq<byte>) returns (result: Result)
      requires Sound(remote) && Honest(remote, r)
      requires existing == 0 || existing == SizeOf(part)
      modifies this
      ensures Sound(remote)
      ensures result.Fetched? <==> HeadersFit(r, existing) && BodyComplete(r, StartOf(r, existing))
      ensures result.Fetched? ==> part.None? && dest.Some? && result.size == |dest.value|
      ensures result.Fetched? ==>
        dest.value == (if r.status == 206 && existing > 0 then old(part).value else []) + Joined(r.chunks)
      ensures !result.Fetched? ==> dest == old(dest)
      ensures r.status < 200 || r.status >= 300 ==> result == HttpError && part == old(part)
      ensures ServesOther(existing, r) ==> result == ProtocolError && part == old(part)
      ensures 200 <= r.status < 300 && r.ended && !result.Fetched? ==> result == ProtocolError
      ensures result == TransportError ==>
        !r.ended && part == Some((if r.status == 206 && existing > 0 then old(part).value else []) + Joined(r.chunks))
    {
      if ServesOther(existing, r) {
        OtherDoesNotFit(existing, r);
      }
      if r.status < 200 || r.status >= 300 {
        return HttpError;
      }
      var resumed := r.status == 206;
      var total: Option<nat> := None;
      if resumed {
        var span := ParseContentRange(r.contentRange);
        if span.None? || span.value.start != existing || span.value.total.None?
          || span.value.end != span.value.total.value - 1 || r.encoded {
          return ProtocolError;
        }
        total := span.value.total;
      } else {
        if r.status != 200 {
          return ProtocolError;
        }
        total := if r.encoded then None else r.contentLength;
      }
      if !(resumed && existing > 0) {
        part := Some([]);
      }
      var error := Receive(r.chunks, r.ended, total, remote);
      if error.Some? {
        return error.value;
      }
      var n := Finish();
      return Fetched(n);
    }

    /** Fetch, resuming a partial file; a refused stale partial gets one clean restart. */
    method Fetch(first: Response, second: Response, ghost remote: seq<byte>) returns (result: Result)
      requires Sound(remote) && Honest(remote, first) && Honest(remote, second)
      modifies this
      ensures Sound(remote)
      ensures result.Fetched? <==> Returns(old(part), first, second)
      ensures result.Fetched? ==> part.None? && dest.Some? && result.size == |dest.value|
      ensures result.Fetched? && DeclaredTotal(Answer(old(part), first, second)).Some? ==> dest == Some(remote)
      ensures result.Fetched? && DeclaredTotal(Answer(old(part), first, second)).None? ==>
        dest == Some(Joined(Answer(old(part), first, second).chunks))
      ensures !result.Fetched? ==> dest == old(dest)
      ensures old(part).Some? && ServesRest(remote, |old(part).value|, first) ==>
        result == Fetched(|remote|) && dest == Some(remote)
      ensures old(part).None? && ServesRest(remote, 0, first) ==> result == Fetched(|remote|) && dest == Some(remote)
      ensures ServesWhole(remote, first) ==> result == Fetched(|remote|) && dest == Some(remote)
      ensures ConfirmsWhole(old(part), first) ==> result == Fetched(|remote|) && dest == Some(remote)
      ensures Restarts(remote, old(part), first, second) ==> result == Fetched(|remote|) && dest == Some(remote)
      ensures first.status == 200 && first.ended && (first.encoded || first.contentLength.None?) ==>
        result == Fetched(|Joined(first.chunks)|) && dest == Some(Joined(first.chunks))
      ensures Misstated(first) ==> result == ProtocolError
      ensures ServesOther(SizeOf(old(part)), first) ==> result == ProtocolError && part == old(part)
      ensures (first.status < 200 || first.status >= 300) && (first.status != 416 || SizeOf(old(part)) == 0) ==>
        result == HttpError && part == old(part)
      ensures result == TransportError && first.status == 206 ==>
        part == Some((if old(part).Some? then old(part).value else []) + Joined(first.chunks))
    {
      ConformingReturns(remote, part, first, second);
      ghost var was := part;
      var existing := if part.Some? then |part.value| else 0;
      var r := first;
      if r.status == 416 && existing > 0 {
        var size := UnsatisfiedRangeSize(r.contentRange);
        if size == Some(existing) {
          assert part.value == remote;
          var n := Finish();
          return Fetched(n);
        }
        existing, r := 0, second;
      }
      result := Accept(r, existing, remote);
      if result.Fetched? {
        WholeBody(remote, was, r, existing, dest.value);
      }
    }

    /** Fetch again and again until one attempt returns; every answer is about the same object. */
    method FetchAgain(answers: seq<(Response, Response)>, ghost remote: seq<byte>) returns (done: bool)
      requires Sound(remote) && forall i | 0 <= i < |answers| :: Honest(remote, answers[i].0) && Honest(remote, answers[i].1)
      requires forall i | 0 <= i < |answers| :: Declares(answers[i].0) && Declares(answers[i].1)
      modifies this
      ensures Sound(remote) && (done ==> dest == Some(remote)) && (!done ==> dest == old(dest))
    {
      var i := 0;
      while i < |answers|
        invariant 0 <= i <= |answers| && Sound(remote) && dest == old(dest)
      {
        ghost var was := part;
        var result := Fetch(answers[i].0, answers[i].1, remote);
        if result.Fetched? {
          return true;
        }
        i := i + 1;
      }
      return false;
    }
  }

  lemma OtherDoesNotFit(existing: nat, r: Response)
    requires ServesOther(existing, r)
    ensures !HeadersFit(r, existing)
  {
    if !r.encoded {
      var span: ContentRange :| HttpRange.Valid(span) && r.contentRange == Format(span)
        && (span.start != existing || span.total.None? || span.end + 1 != span.total.value);
      CanonicalParses(span);
    }
  }

  lemma RestFits(remote: seq<byte>, from: nat, r: Response)
    requires ServesRest(remote, from, r)
    ensures HeadersFit(r, from) && BodyComplete(r, StartOf(r, from)) && DeclaredTotal(r) == Some(|remote|)
  {
    CanonicalParses(ContentRange(from, |remote| - 1, Some(|remote|)));
  }

  /** With the answers of a conforming server the fetch returns: resumed, restarted, already whole, or from scratch. */
  lemma ConformingReturns(remote: seq<byte>, part: Option<seq<byte>>, first: Response, second: Response)
    ensures ServesRest(remote, SizeOf(part), first) || ServesWhole(remote, first) ==>
      Returns(part, first, second) && Answer(part, first, second) == first && DeclaredTotal(first) == Some(|remote|)
    ensures ConfirmsWhole(part, first) ==> AlreadyWhole(part, first) && DeclaredTotal(first) == Some(|part.value|)
    ensures Restarts(remote, part, first, second) ==>
      Returns(part, first, second) && Answer(part, first, second) == second && DeclaredTotal(second) == Some(|remote|)
  {
    UnsatisfiedRoundTrip(SizeOf(part));
    UnsatisfiedRoundTrip(|remote|);
    if ServesRest(remote, SizeOf(part), first) {
      RestFits(remote, SizeOf(part), first);
    }
    if ServesRest(remote, 0, second) {
      RestFits(remote, 0, second);
    }
  }

  /** The answer says how large the object is, if it is one a fetch can return with. */
  predicate Declares(r: Response) {
    r.status == 200 ==> !r.encoded && r.contentLength.Some?
  }

  /** A body of the declared size, at the right offset of a prefix, completes the object. */
  lemma WholeBody(remote: seq<byte>, was: Option<seq<byte>>, r: Response, existing: nat, bytes: seq<byte>)
    requires was.Some? ==> PrefixOf(was.value, remote)
    requires existing == 0 || existing == SizeOf(was)
    requires Honest(remote, r) && HeadersFit(r, existing) && BodyComplete(r, StartOf(r, existing))
    requires bytes == (if r.status == 206 && existing > 0 then was.value else []) + Joined(r.chunks)
    ensures DeclaredTotal(r).Some? ==> bytes == remote
    ensures DeclaredTotal(r).None? ==> bytes == Joined(r.chunks) && PrefixOf(bytes, remote)
  {
  }

  /** Without a declared size a cut-off body is taken for the whole: the destination is then whole only if it was. */
  lemma UndeclaredIsTrusted(remote: seq<byte>, r: Response)
    requires Honest(remote, r) && r.status == 200 && DeclaredTotal(r).None? && r.ended
    ensures Returns(None, r, r)
    ensures Joined(r.chunks) == remote <==> |Joined(r.chunks)| == |remote|
  {
  }
}
