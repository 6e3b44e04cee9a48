/** What the upload protocol guarantees: how `_upload_chunk` slices the
    buffer and numbers the parts, where it stops on a failure, and the
    call sequences of a whole small or large upload. */
module UploadProperties {
  import opened Common
  import opened Paths
  import opened UploadProtocol

  /** The concatenation of a sequence of byte strings. */
  function Flatten(chunks: seq<seq<Byte>>): seq<Byte>
  {
    if chunks == [] then [] else chunks[0] + Flatten(chunks[1..])
  }

  /** The slices of `bytes` that `blocksize`-sized reads produce, which
      concatenate back to `bytes`. */
  function Chunks(bytes: seq<Byte>, blocksize: nat): (r: seq<seq<Byte>>)
    requires blocksize > 0
    ensures Flatten(r) == bytes
    decreases |bytes|
  {
    if bytes == [] then []
    else if |bytes| <= blocksize then [bytes]
    else [bytes[..blocksize]] + Chunks(bytes[blocksize..], blocksize)
  }

  /** No slice is empty, none is longer than a block, and all but the last
      are exactly a block long. */
  lemma {:induction false} ChunksShape(bytes: seq<Byte>, blocksize: nat)
    requires blocksize > 0
    ensures var r := Chunks(bytes, blocksize);
            && (forall i :: 0 <= i < |r| ==> 0 < |r[i]| <= blocksize)
            && (forall i :: 0 <= i < |r| - 1 ==> |r[i]| == blocksize)
    decreases |bytes|
  {
    if |bytes| > blocksize {
      ChunksShape(bytes[blocksize..], blocksize);
      var r := Chunks(bytes, blocksize);
      assert r[1..] == Chunks(bytes[blocksize..], blocksize);
    }
  }

  /** There are `ceil(|bytes| / blocksize)` slices: the fewest blocks that
      cover the buffer. */
  lemma {:induction false} ChunksCount(bytes: seq<Byte>, blocksize: nat)
    requires blocksize > 0
    ensures var k := |Chunks(bytes, blocksize)|;
            k * blocksize - blocksize < |bytes| <= k * blocksize
            || (bytes == [] && k == 0)
    decreases |bytes|
  {
    if |bytes| > blocksize {
      var k := |Chunks(bytes, blocksize)|;
      var k' := |Chunks(bytes[blocksize..], blocksize)|;
      ChunksCount(bytes[blocksize..], blocksize);
      assert k == k' + 1;
      var m := k' * blocksize;
      assert k * blocksize == m + blocksize;
    }
  }

  /** The `upload_part` calls for the given slices, numbered from `first`. */
  function UploadCalls(target: ObjectStorageName, uploadId: Option<string>, chunks: seq<seq<Byte>>, first: nat): (r: seq<Call>)
    ensures |r| == |chunks|
    decreases |chunks|
  {
    if chunks == [] then []
    else [UploadPart(target, uploadId, first, chunks[0])] + UploadCalls(target, uploadId, chunks[1..], first + 1)
  }

  /** The `i`-th call uploads the `i`-th slice as part `first + i`. */
  lemma {:induction false} UploadCallsAt(target: ObjectStorageName, uploadId: Option<string>, chunks: seq<seq<Byte>>, first: nat)
    ensures forall i :: 0 <= i < |chunks| ==>
              UploadCalls(target, uploadId, chunks, first)[i] == UploadPart(target, uploadId, first + i, chunks[i])
    decreases |chunks|
  {
    if chunks != [] {
      UploadCallsAt(target, uploadId, chunks[1..], first + 1);
    }
  }

  /** The etag a reply carries. */
  function EtagOf(reply: Reply): string
  {
    if reply.Answered? then reply.value else ""
  }

  /** The parts recorded for `n` answered uploads numbered from `first`,
      the first of them answered by `backend(sent)`. */
  function ReceivedParts(first: nat, backend: Backend, sent: nat, n: nat): (r: seq<Part>)
    ensures |r| == n
    decreases n
  {
    if n == 0 then [] else [Part(first, EtagOf(backend(sent)))] + ReceivedParts(first + 1, backend, sent + 1, n - 1)
  }

  /** The `i`-th part is numbered `first + i` and carries the etag of the
      reply to the `i`-th upload. */
  lemma {:induction false} ReceivedPartsAt(first: nat, backend: Backend, sent: nat, n: nat)
    ensures forall i :: 0 <= i < n ==>
              ReceivedParts(first, backend, sent, n)[i] == Part(first + i, EtagOf(backend(sent + i)))
    decreases n
  {
    if n > 0 {
      ReceivedPartsAt(first + 1, backend, sent + 1, n - 1);
    }
  }

  /** The backend answers the `n` calls from the `from`-th on without an exception. */
  predicate AllAnswered(backend: Backend, from: nat, n: nat)
  {
    forall i :: from <= i < from + n ==> backend(i).Answered?
  }

  /** Parts numbered 1, 2, ... in order. */
  predicate PartsNumbered(parts: seq<Part>)
  {
    forall i :: 0 <= i < |parts| ==> parts[i].partNum == i + 1
  }

  /** The part loop started by a read at position `q` of the buffer `bytes`. */
  function SendAt(cfg: Config, bytes: seq<Byte>, q: nat, uploadId: Option<string>,
                  parts: seq<Part>, backend: Backend, sent: nat): Sending
    requires q <= |bytes|
  {
    var (chunk, stream) := Stream(bytes, q).Read(cfg.blocksize);
    SendFrom(cfg, chunk, stream, uploadId, parts, backend, sent)
  }

  /** Where a read of a block from position `q` leaves the buffer. */
  function NextPos(q: nat, blocksize: nat, size: nat): nat
  {
    if q + blocksize <= size then q + blocksize else size
  }

  /** One answered round of the part loop: the slice at `q` is uploaded and
      the loop goes on from the next block. */
  lemma SendAtAnswered(cfg: Config, bytes: seq<Byte>, q: nat, uploadId: Option<string>,
                       parts: seq<Part>, backend: Backend, sent: nat)
    requires cfg.blocksize > 0 && q < |bytes| && backend(sent).Answered?
    ensures var q' := NextPos(q, cfg.blocksize, |bytes|);
            var more := SendAt(cfg, bytes, q', uploadId, parts + [Part(|parts| + 1, backend(sent).value)], backend, sent + 1);
            SendAt(cfg, bytes, q, uploadId, parts, backend, sent)
            == Sending(more.stream, more.parts, [UploadPart(cfg.target, uploadId, |parts| + 1, bytes[q..q'])] + more.calls, more.stop)
  {
    var (chunk, stream) := Stream(bytes, q).Read(cfg.blocksize);
    assert stream == Stream(bytes, NextPos(q, cfg.blocksize, |bytes|));
  }

  /** A round of the part loop whose upload raises. */
  lemma SendAtRaised(cfg: Config, bytes: seq<Byte>, q: nat, uploadId: Option<string>,
                     parts: seq<Part>, backend: Backend, sent: nat)
    requires cfg.blocksize > 0 && q < |bytes| && backend(sent).Raised?
    ensures var e := backend(sent).error;
            SendAt(cfg, bytes, q, uploadId, parts, backend, sent)
            == Sending(Stream(bytes, NextPos(q, cfg.blocksize, |bytes|)), parts,
                       [UploadPart(cfg.target, uploadId, |parts| + 1, bytes[q..NextPos(q, cfg.blocksize, |bytes|)])],
                       if e.ClientError? then Stopped else Failed(e))
  {
  }

  lemma UploadCallsCons(target: ObjectStorageName, uploadId: Option<string>, chunk: seq<Byte>,
                        rest: seq<seq<Byte>>, first: nat)
    ensures UploadCalls(target, uploadId, [chunk] + rest, first)
            == [UploadPart(target, uploadId, first, chunk)] + UploadCalls(target, uploadId, rest, first + 1)
  {
    assert ([chunk] + rest)[1..] == rest;
  }

  /** The parts after one more answered upload. */
  lemma ReceivedPartsCons(parts: seq<Part>, backend: Backend, sent: nat, n: nat)
    requires n > 0
    ensures parts + [Part(|parts| + 1, EtagOf(backend(sent)))] + ReceivedParts(|parts| + 2, backend, sent + 1, n - 1)
            == parts + ReceivedParts(|parts| + 1, backend, sent, n)
  {
  }

  /** A read of a block from position `q` short of the end takes the first slice. */
  lemma ChunksStep(bytes: seq<Byte>, q: nat, blocksize: nat)
    requires blocksize > 0 && q < |bytes|
    ensures Chunks(bytes[q..], blocksize)
            == [bytes[q..NextPos(q, blocksize, |bytes|)]] + Chunks(bytes[NextPos(q, blocksize, |bytes|)..], blocksize)
  {
    var q' := NextPos(q, blocksize, |bytes|);
    if |bytes| - q <= blocksize {
      assert bytes[q'..] == [];
      assert bytes[q..q'] == bytes[q..];
    } else {
      assert bytes[q..][..blocksize] == bytes[q..q'];
      assert bytes[q..][blocksize..] == bytes[q'..];
    }
  }

  /** When every upload is answered, the part loop started by a read at
      position `q` uploads the slices of the rest of the buffer in order,
      numbered on from the parts it had, records one part per slice with
      the etag of its reply, and leaves the buffer at its end. */
  lemma {:induction false} SendAtAllAnswered(cfg: Config, bytes: seq<Byte>, q: nat, uploadId: Option<string>,
                                            parts: seq<Part>, backend: Backend, sent: nat)
    requires cfg.blocksize > 0 && q <= |bytes|
    requires AllAnswered(backend, sent, |Chunks(bytes[q..], cfg.blocksize)|)
    ensures var chunks := Chunks(bytes[q..], cfg.blocksize);
            SendAt(cfg, bytes, q, uploadId, parts, backend, sent)
            == Sending(Stream(bytes, |bytes|),
                       parts + ReceivedParts(|parts| + 1, backend, sent, |chunks|),
                       UploadCalls(cfg.target, uploadId, chunks, |parts| + 1),
                       Drained)
    decreases |bytes| - q
  {
    if q == |bytes| {
      assert bytes[q..] == [];
    } else {
      var q' := NextPos(q, cfg.blocksize, |bytes|);
      var chunks := Chunks(bytes[q..], cfg.blocksize);
      var rest := Chunks(bytes[q'..], cfg.blocksize);
      ChunksStep(bytes, q, cfg.blocksize);
      assert backend(sent).Answered?;
      var parts' := parts + [Part(|parts| + 1, backend(sent).value)];
      SendAtAnswered(cfg, bytes, q, uploadId, parts, backend, sent);
      SendAtAllAnswered(cfg, bytes, q', uploadId, parts', backend, sent + 1);
      UploadCallsCons(cfg.target, uploadId, bytes[q..q'], rest, |parts| + 1);
      ReceivedPartsCons(parts, backend, sent, |chunks|);
    }
  }

  /** When the backend answers `k` uploads and raises on the next, the part
      loop makes exactly the first `k + 1` uploads, keeps the parts it had
      plus the `k` answered ones, and stops: quietly on a `ClientError`,
      with the exception otherwise. */
  lemma {:induction false} SendAtFirstFailure(cfg: Config, bytes: seq<Byte>, q: nat, uploadId: Option<string>,
                                             parts: seq<Part>, backend: Backend, sent: nat, k: nat)
    requires cfg.blocksize > 0 && q <= |bytes|
    requires k < |Chunks(bytes[q..], cfg.blocksize)|
    requires AllAnswered(backend, sent, k) && backend(sent + k).Raised?
    ensures var chunks := Chunks(bytes[q..], cfg.blocksize);
            var r := SendAt(cfg, bytes, q, uploadId, parts, backend, sent);
            var e := backend(sent + k).error;
            && r.calls == UploadCalls(cfg.target, uploadId, chunks[..k + 1], |parts| + 1)
            && r.parts == parts + ReceivedParts(|parts| + 1, backend, sent, k)
            && r.stop == if e.ClientError? then Stopped else Failed(e)
    decreases k
  {
    var q' := NextPos(q, cfg.blocksize, |bytes|);
    var chunks := Chunks(bytes[q..], cfg.blocksize);
    var rest := Chunks(bytes[q'..], cfg.blocksize);
    ChunksStep(bytes, q, cfg.blocksize);
    if k == 0 {
      SendAtRaised(cfg, bytes, q, uploadId, parts, backend, sent);
      assert chunks[..1] == [bytes[q..q']];
    } else {
      assert backend(sent).Answered?;
      var parts' := parts + [Part(|parts| + 1, backend(sent).value)];
      assert AllAnswered(backend, sent + 1, k - 1);
      SendAtAnswered(cfg, bytes, q, uploadId, parts, backend, sent);
      var more := SendAt(cfg, bytes, q', uploadId, parts', backend, sent + 1);
      assert |rest| == |chunks| - 1 && sent + 1 + (k - 1) == sent + k;
      SendAtFirstFailure(cfg, bytes, q', uploadId, parts', backend, sent + 1, k - 1);
      assert chunks[..k + 1] == [bytes[q..q']] + rest[..k];
      UploadCallsCons(cfg.target, uploadId, bytes[q..q'], rest[..k], |parts| + 1);
      ReceivedPartsCons(parts, backend, sent, k);
    }
  }

  /** Whatever the backend answers, the part loop only appends to the
      parts, and appends them numbered on from the ones it had. */
  lemma {:induction false} SendFromExtendsParts(cfg: Config, chunk: seq<Byte>, stream: Stream, uploadId: Option<string>,
                                               parts: seq<Part>, backend: Backend, sent: nat)
    requires stream.Valid()
    ensures var r := SendFrom(cfg, chunk, stream, uploadId, parts, backend, sent);
            && parts <= r.parts
            && (PartsNumbered(parts) ==> PartsNumbered(r.parts))
    decreases |chunk| + (|stream.bytes| - stream.pos)
  {
    if chunk != [] && backend(sent).Answered? {
      var (next, rest) := stream.Read(cfg.blocksize);
      var parts' := parts + [Part(|parts| + 1, backend(sent).value)];
      SendFromAnswered(cfg, chunk, stream, uploadId, parts, backend, sent);
      SendFromExtendsParts(cfg, next, rest, uploadId, parts', backend, sent + 1);
    }
  }

  /** On the slicing path the part loop starts with a read at position 0. */
  lemma UploadChunkSends(cfg: Config, h: Handle, final: bool, backend: Backend, sent: nat)
    requires Ready(h) && !SkipsParts(cfg, h, final)
    ensures var r := SendAt(cfg, h.buffer.value.bytes, 0, h.uploadId, h.parts, backend, sent);
            UploadChunkRun(cfg, h, final, backend, sent)
            == AfterParts(cfg, Handle(Some(r.stream), h.uploadId, r.parts), final, r, backend, sent + |r.calls|)
  {
    assert h.buffer.value.Rewind() == Stream(h.buffer.value.bytes, 0);
  }

  /** `_upload_chunk` when every upload is answered: the buffer, read from
      its start, is uploaded as `Chunks(buffer, blocksize)` in order with
      part numbers `len(parts) + 1, len(parts) + 2, ...`, one part recorded
      per slice; then it returns `not final`, or, when `autocommit and
      final`, makes exactly one more call, the multipart commit of all the
      parts, which raises nothing but a `ServiceError`. */
  lemma UploadChunkAllAnswered(cfg: Config, h: Handle, final: bool, backend: Backend, sent: nat)
    requires Ready(h) && cfg.blocksize > 0 && !SkipsParts(cfg, h, final)
    requires AllAnswered(backend, sent, |Chunks(h.buffer.value.bytes, cfg.blocksize)|)
    ensures var b := h.buffer.value.bytes;
            var chunks := Chunks(b, cfg.blocksize);
            var uploaded := h.parts + ReceivedParts(|h.parts| + 1, backend, sent, |chunks|);
            var uploads := UploadCalls(cfg.target, h.uploadId, chunks, |h.parts| + 1);
            var r := UploadChunkRun(cfg, h, final, backend, sent);
            && r.handle == Handle(Some(Stream(b, |b|)), h.uploadId, uploaded)
            && (!(cfg.autocommit && final) ==> r.calls == uploads && r.outcome == Returned(!final))
            && (cfg.autocommit && final ==>
                 && r.calls == uploads + [CommitMultipartUpload(cfg.target, h.uploadId, uploaded)]
                 && (r.outcome.Threw? <==> backend(sent + |chunks|) == Raised(ServiceError))
                 && (r.outcome.Returned? ==> r.outcome.value == false))
  {
    var b := h.buffer.value.bytes;
    var chunks := Chunks(b, cfg.blocksize);
    var uploaded := h.parts + ReceivedParts(|h.parts| + 1, backend, sent, |chunks|);
    var uploads := UploadCalls(cfg.target, h.uploadId, chunks, |h.parts| + 1);
    UploadChunkSends(cfg, h, final, backend, sent);
    assert b[0..] == b;
    SendAtAllAnswered(cfg, b, 0, h.uploadId, h.parts, backend, sent);
    var r := SendAt(cfg, b, 0, h.uploadId, h.parts, backend, sent);
    assert r == Sending(Stream(b, |b|), uploaded, uploads, Drained);
    if cfg.autocommit && final {
      assert chunks != [];
    }
    AfterDrained(cfg, Handle(Some(r.stream), h.uploadId, r.parts), final, r, backend, sent + |r.calls|);
  }

  /** A part loop that ran out of buffer: `not final` is returned, after one
      multipart commit of the parts when `autocommit and final`. */
  lemma AfterDrained(cfg: Config, after: Handle, final: bool, r: Sending, backend: Backend, sent: nat)
    requires Ready(after) && r.stop == Drained
    ensures !(cfg.autocommit && final) ==> AfterParts(cfg, after, final, r, backend, sent) == Run(after, r.calls, Returned(!final))
    ensures cfg.autocommit && final && |after.parts| != 0 ==>
      var a := AfterParts(cfg, after, final, r, backend, sent);
      && a.handle == after
      && a.calls == r.calls + [CommitMultipartUpload(cfg.target, after.uploadId, after.parts)]
      && (a.outcome.Threw? <==> backend(sent) == Raised(ServiceError))
      && (a.outcome.Returned? ==> a.outcome.value == false)
  {
  }

  /** `_upload_chunk` when the backend answers `k` uploads and raises on the
      next: it makes exactly the first `k + 1` uploads and no commit, keeps
      the parts it had plus the `k` answered ones, and returns `False` on a
      `ClientError` or lets any other exception escape. */
  lemma UploadChunkFirstFailure(cfg: Config, h: Handle, final: bool, backend: Backend, sent: nat, k: nat)
    requires Ready(h) && cfg.blocksize > 0 && !SkipsParts(cfg, h, final)
    requires k < |Chunks(h.buffer.value.bytes, cfg.blocksize)|
    requires AllAnswered(backend, sent, k) && backend(sent + k).Raised?
    ensures var chunks := Chunks(h.buffer.value.bytes, cfg.blocksize);
            var r := UploadChunkRun(cfg, h, final, backend, sent);
            var e := backend(sent + k).error;
            && r.calls == UploadCalls(cfg.target, h.uploadId, chunks[..k + 1], |h.parts| + 1)
            && r.handle.parts == h.parts + ReceivedParts(|h.parts| + 1, backend, sent, k)
            && r.handle.uploadId == h.uploadId
            && r.outcome == if e.ClientError? then Returned(false) else Threw(e)
  {
    var b := h.buffer.value.bytes;
    UploadChunkSends(cfg, h, final, backend, sent);
    assert b[0..] == b;
    SendAtFirstFailure(cfg, b, 0, h.uploadId, h.parts, backend, sent, k);
  }

  /** Whatever the backend answers, `_upload_chunk` keeps the parts it had
      as a prefix and keeps them numbered 1, 2, ... in order. */
  lemma UploadChunkKeepsNumbering(cfg: Config, h: Handle, final: bool, backend: Backend, sent: nat)
    requires Ready(h)
    ensures var r := UploadChunkRun(cfg, h, final, backend, sent);
            && h.parts <= r.handle.parts
            && (PartsNumbered(h.parts) ==> PartsNumbered(r.handle.parts))
  {
    var (chunk, stream) := FirstRead(cfg, h, final);
    SendFromExtendsParts(cfg, chunk, stream, h.uploadId, h.parts, backend, sent);
  }

  /** The final flush of an auto-committing handle with less than a block
      buffered uploads no part: its only call is the commit, which with
      parts already uploaded commits just those, leaving the buffered bytes
      out of the object. */
  lemma FinalShortFlushUploadsNoPart(cfg: Config, h: Handle, backend: Backend, sent: nat)
    requires Ready(h) && SkipsParts(cfg, h, true)
    ensures var r := UploadChunkRun(cfg, h, true, backend, sent);
            && r.calls == [if |h.parts| == 0 then PutObject(cfg.target, h.buffer.value.bytes, 0)
                           else CommitMultipartUpload(cfg.target, h.uploadId, h.parts)]
            && r.handle.parts == h.parts
            && (r.outcome.Returned? ==> r.outcome.value == false)
  {
  }

  /** A whole upload of fewer than `blocksize` bytes by an auto-committing
      handle (`_initiate_upload`, then the final `_upload_chunk`): a single
      `put_object` of all the bytes, with content length 0, and no
      multipart call. */
  lemma SmallUploadIsSinglePut(cfg: Config, bytes: seq<Byte>, backend: Backend, sent: nat)
    requires |bytes| < cfg.blocksize && cfg.autocommit
    ensures var h := Opened(bytes);
            var i := InitiateRun(cfg, h, backend, sent);
            var u := UploadChunkRun(cfg, i.handle, true, backend, sent + |i.calls|);
            && i.calls + u.calls == [PutObject(cfg.target, bytes, 0)]
            && u.outcome == if backend(sent).Raised? then Threw(backend(sent).error) else Returned(false)
  {
  }

  /** A whole upload of at least `blocksize` bytes by an auto-committing
      handle, every call but the commit answered: one
      `create_multipart_upload`, then the slices uploaded in order as parts
      1, 2, ... under the upload id it returned, then one
      `commit_multipart_upload` of exactly those parts in order. */
  lemma LargeUploadSequence(cfg: Config, bytes: seq<Byte>, backend: Backend, sent: nat)
    requires 0 < cfg.blocksize <= |bytes| && cfg.autocommit
    requires AllAnswered(backend, sent, 1 + |Chunks(bytes, cfg.blocksize)|)
    ensures var h := Opened(bytes);
            var i := InitiateRun(cfg, h, backend, sent);
            var u := UploadChunkRun(cfg, i.handle, true, backend, sent + |i.calls|);
            var id := Some(backend(sent).value);
            var chunks := Chunks(bytes, cfg.blocksize);
            var parts := ReceivedParts(1, backend, sent + 1, |chunks|);
            && i.calls + u.calls
               == [CreateMultipartUpload(cfg.target)] + UploadCalls(cfg.target, id, chunks, 1)
                  + [CommitMultipartUpload(cfg.target, id, parts)]
            && PartsNumbered(parts) && u.handle.parts == parts
            && (u.outcome.Threw? <==> backend(sent + 1 + |chunks|) == Raised(ServiceError))
  {
    var h := Opened(bytes);
    var i := InitiateRun(cfg, h, backend, sent);
    assert AllAnswered(backend, sent + 1, |Chunks(bytes, cfg.blocksize)|);
    UploadChunkAllAnswered(cfg, i.handle, true, backend, sent + 1);
    var chunks := Chunks(bytes, cfg.blocksize);
    var parts := ReceivedParts(1, backend, sent + 1, |chunks|);
    ReceivedPartsAt(1, backend, sent + 1, |chunks|);
    assert [] + parts == parts;
    var uploads := UploadCalls(cfg.target, Some(backend(sent).value), chunks, 1);
    var commit := CommitMultipartUpload(cfg.target, Some(backend(sent).value), parts);
    assert i.calls + (uploads + [commit]) == [CreateMultipartUpload(cfg.target)] + uploads + [commit];
  }

  /** After `_upload_chunk` fails on an upload part, `discard` of a handle
      with a session makes exactly one `abort_multipart_upload`, for the
      handle's upload id, and leaves no buffer, no upload id and no parts,
      whatever the abort answers. */
  lemma FailedUploadThenDiscard(cfg: Config, h: Handle, final: bool, backend: Backend, sent: nat, k: nat)
    requires Ready(h) && cfg.blocksize > 0 && !SkipsParts(cfg, h, final)
    requires k < |Chunks(h.buffer.value.bytes, cfg.blocksize)|
    requires AllAnswered(backend, sent, k) && backend(sent + k).Raised?
    requires SessionOpen(h) || k > 0
    ensures var u := UploadChunkRun(cfg, h, final, backend, sent);
            var d := DiscardRun(cfg, u.handle, backend, sent + |u.calls|);
            && u.calls + d.calls
               == UploadCalls(cfg.target, h.uploadId, Chunks(h.buffer.value.bytes, cfg.blocksize)[..k + 1], |h.parts| + 1)
                  + [AbortMultipartUpload(cfg.target, h.uploadId)]
            && d.handle == Cleared()
  {
    UploadChunkFirstFailure(cfg, h, final, backend, sent, k);
  }
}
