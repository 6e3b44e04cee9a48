/** The write handle's multipart upload protocol, as functions of the
    handle's state and of the backend's replies: what `_initiate_upload`,
    `_upload_chunk`, `commit` and `discard` send and what state they leave.
    The backend is the sequence of its replies: `backend(k)` answers the
    k-th call the client makes. */
module UploadProtocol {
  import opened Common
  import opened Paths

  /** An uploaded part: its number and the etag the backend gave it. */
  datatype Part = Part(partNum: nat, etag: string)

  /** A call to the object storage client, with the arguments that vary. */
  datatype Call =
    | CreateMultipartUpload(target: ObjectStorageName)
    | UploadPart(target: ObjectStorageName, uploadId: Option<string>, partNum: nat, body: seq<Byte>)
    | PutObject(target: ObjectStorageName, body: seq<Byte>, contentLength: nat)
    | CommitMultipartUpload(target: ObjectStorageName, uploadId: Option<string>, parts: seq<Part>)
    | AbortMultipartUpload(target: ObjectStorageName, uploadId: Option<string>)

  /** The backend's reply to a call: the string the caller reads from the
      response (an upload id, an etag), or an exception. */
  datatype Reply = Answered(value: string) | Raised(error: Failure)

  type Backend = nat -> Reply

  /** An in-memory byte buffer with a position, as `io.BytesIO` behaves. */
  datatype Stream = Stream(bytes: seq<Byte>, pos: nat)
  {
    predicate Valid()
    {
      pos <= |bytes|
    }

    /** `seek(0)`. */
    function Rewind(): Stream
    {
      Stream(bytes, 0)
    }

    /** `read(n)`: up to `n` bytes from the position on, which advances past them. */
    function Read(n: nat): (r: (seq<Byte>, Stream))
      requires Valid()
      ensures r.1.Valid() && r.1.bytes == bytes && pos <= r.1.pos
      ensures r.0 == bytes[pos..r.1.pos]
      ensures |r.0| == if |bytes| - pos < n then |bytes| - pos else n
    {
      var end := if pos + n <= |bytes| then pos + n else |bytes|;
      (bytes[pos..end], Stream(bytes, end))
    }

    /** `write(data)`: overwrites from the position on, extending the buffer as needed. */
    function Write(data: seq<Byte>): (r: Stream)
      requires Valid()
      ensures r.Valid() && r.pos == pos + |data|
      ensures r.bytes[..pos] == bytes[..pos] && r.bytes[pos..r.pos] == data
      ensures |bytes| <= r.pos ==> |r.bytes| == r.pos
      ensures r.pos < |bytes| ==> r.bytes[r.pos..] == bytes[r.pos..]
    {
      var end := pos + |data|;
      Stream(bytes[..pos] + data + (if end < |bytes| then bytes[end..] else []), end)
    }
  }

  /** The handle's state: the buffer (`None` once cleaned up), the upload id
      and the parts uploaded so far. */
  datatype Handle = Handle(buffer: Option<Stream>, uploadId: Option<string>, parts: seq<Part>)

  /** What the handle does not change: the object it writes, its block size
      and whether it commits by itself. */
  datatype Config = Config(target: ObjectStorageName, blocksize: nat, autocommit: bool)

  /** A handle with a buffer to work on. */
  predicate Ready(h: Handle)
  {
    h.buffer.Some? && h.buffer.value.Valid()
  }

  /** The state of a handle just opened for writing: nothing buffered and
      no multipart session to abort. */
  function Fresh(): (h: Handle)
    ensures Ready(h) && h.buffer.value.bytes == [] && h.uploadId.None? && h.parts == []
    ensures !SessionOpen(h)
  {
    Handle(Some(Stream([], 0)), None, [])
  }

  /** A handle just opened for writing after `data` was written to it: the
      buffer holds exactly `data` with the position at its end, and there
      is still no upload id and no part. */
  function Opened(data: seq<Byte>): (h: Handle)
    ensures h == Handle(Some(Stream(data, |data|)), None, [])
  {
    var written := Fresh().buffer.value.Write(data);
    assert written.bytes == written.bytes[..|data|];
    Fresh().(buffer := Some(written))
  }

  /** Discarding a handle that has only had bytes written makes no call and
      changes nothing. */
  lemma DiscardOpened(cfg: Config, data: seq<Byte>, backend: Backend, sent: nat)
    ensures DiscardRun(cfg, Fresh(), backend, sent) == Run(Fresh(), [], Returned(()))
    ensures DiscardRun(cfg, Opened(data), backend, sent) == Run(Opened(data), [], Returned(()))
  {
  }

  /** The state `_cleanup_multipart_upload` leaves. */
  function Cleared(): Handle
  {
    Handle(None, None, [])
  }

  /** `len(self.parts) != 0 or self.upload_id`: there is a session to abort. */
  predicate SessionOpen(h: Handle)
  {
    |h.parts| != 0 || (h.uploadId.Some? && h.uploadId.value != "")
  }

  /** A method's result: a value, or an exception it lets escape. */
  datatype Outcome<T> = Returned(value: T) | Threw(error: Failure)

  /** What an operation does: the state it leaves, the calls it makes in
      order, and its outcome. */
  datatype Run<T> = Run(handle: Handle, calls: seq<Call>, outcome: Outcome<T>)

  /** `_initiate_upload`: no call while the buffer holds fewer than
      `blocksize` bytes; otherwise one `create_multipart_upload` whose
      upload id is kept, or whose exception is raised again with the state
      unchanged. */
  function InitiateRun(cfg: Config, h: Handle, backend: Backend, sent: nat): (r: Run<()>)
    requires Ready(h)
    ensures r.calls == [] <==> h.buffer.value.pos < cfg.blocksize
    ensures r.calls == [] ==> r.handle == h && r.outcome.Returned?
    ensures r.calls != [] ==>
      && r.calls == [CreateMultipartUpload(cfg.target)]
      && r.handle.buffer == h.buffer && r.handle.parts == h.parts
      && (backend(sent).Answered? ==> r.handle.uploadId == Some(backend(sent).value) && r.outcome.Returned?)
      && (backend(sent).Raised? ==> r.handle == h && r.outcome == Threw(backend(sent).error))
  {
    if h.buffer.value.pos < cfg.blocksize then Run(h, [], Returned(()))
    else
      var call := CreateMultipartUpload(cfg.target);
      match backend(sent)
      case Answered(id) => Run(h.(uploadId := Some(id)), [call], Returned(()))
      case Raised(e) => Run(h, [call], Threw(e))
  }

  /** How the part loop ends: the buffer ran out, an upload failed with a
      `ClientError` (the loop returns `False`), or with another exception. */
  datatype Stop = Drained | Stopped | Failed(error: Failure)

  datatype Sending = Sending(stream: Stream, parts: seq<Part>, calls: seq<Call>, stop: Stop)

  /** The `while part_data` loop of `_upload_chunk`, from a chunk already
      read from the stream: each non-empty chunk is uploaded as part number
      `len(parts) + 1` and recorded with its etag, and the next chunk is
      read, until a chunk is empty or an upload fails. */
  function SendFrom(cfg: Config, chunk: seq<Byte>, stream: Stream, uploadId: Option<string>,
                    parts: seq<Part>, backend: Backend, sent: nat): (r: Sending)
    requires stream.Valid()
    ensures r.stream.Valid() && r.stream.bytes == stream.bytes
    decreases |chunk| + (|stream.bytes| - stream.pos)
  {
    if chunk == [] then Sending(stream, parts, [], Drained)
    else
      var call := UploadPart(cfg.target, uploadId, |parts| + 1, chunk);
      match backend(sent)
      case Answered(etag) =>
        var (next, rest) := stream.Read(cfg.blocksize);
        var more := SendFrom(cfg, next, rest, uploadId, parts + [Part(|parts| + 1, etag)], backend, sent + 1);
        Sending(more.stream, more.parts, [call] + more.calls, more.stop)
      case Raised(e) => Sending(stream, parts, [call], if e.ClientError? then Stopped else Failed(e))
  }

  /** One answered round of the part loop: the chunk is uploaded and
      recorded, and the loop goes on from the next read. */
  lemma SendFromAnswered(cfg: Config, chunk: seq<Byte>, stream: Stream, uploadId: Option<string>,
                         parts: seq<Part>, backend: Backend, sent: nat)
    requires stream.Valid() && chunk != [] && backend(sent).Answered?
    ensures var (next, rest) := stream.Read(cfg.blocksize);
            var more := SendFrom(cfg, next, rest, uploadId, parts + [Part(|parts| + 1, backend(sent).value)], backend, sent + 1);
            SendFrom(cfg, chunk, stream, uploadId, parts, backend, sent)
            == Sending(more.stream, more.parts, [UploadPart(cfg.target, uploadId, |parts| + 1, chunk)] + more.calls, more.stop)
  {
  }

  /** A round of the part loop whose upload raises: the loop ends there. */
  lemma SendFromRaised(cfg: Config, chunk: seq<Byte>, stream: Stream, uploadId: Option<string>,
                       parts: seq<Part>, backend: Backend, sent: nat)
    requires stream.Valid() && chunk != [] && backend(sent).Raised?
    ensures var e := backend(sent).error;
            SendFrom(cfg, chunk, stream, uploadId, parts, backend, sent)
            == Sending(stream, parts, [UploadPart(cfg.target, uploadId, |parts| + 1, chunk)],
                       if e.ClientError? then Stopped else Failed(e))
  {
  }

  /** A part loop resumed from `chunk`, `stream` and `parts`, after the
      calls `trace`, ends as `total` does when started after `start`. */
  predicate Resumes(cfg: Config, chunk: seq<Byte>, stream: Stream, uploadId: Option<string>, parts: seq<Part>,
                    backend: Backend, trace: seq<Call>, start: seq<Call>, total: Sending)
    requires stream.Valid()
  {
    var now := SendFrom(cfg, chunk, stream, uploadId, parts, backend, |trace|);
    && now.stream == total.stream && now.parts == total.parts && now.stop == total.stop
    && trace + now.calls == start + total.calls
  }

  /** An answered upload keeps the loop on course. */
  lemma ResumesAnswered(cfg: Config, chunk: seq<Byte>, stream: Stream, uploadId: Option<string>, parts: seq<Part>,
                        backend: Backend, trace: seq<Call>, start: seq<Call>, total: Sending)
    requires stream.Valid() && chunk != [] && backend(|trace|).Answered?
    requires Resumes(cfg, chunk, stream, uploadId, parts, backend, trace, start, total)
    ensures var (next, rest) := stream.Read(cfg.blocksize);
            Resumes(cfg, next, rest, uploadId, parts + [Part(|parts| + 1, backend(|trace|).value)],
                    backend, trace + [UploadPart(cfg.target, uploadId, |parts| + 1, chunk)], start, total)
  {
    SendFromAnswered(cfg, chunk, stream, uploadId, parts, backend, |trace|);
    var (next, rest) := stream.Read(cfg.blocksize);
    var call := UploadPart(cfg.target, uploadId, |parts| + 1, chunk);
    var more := SendFrom(cfg, next, rest, uploadId, parts + [Part(|parts| + 1, backend(|trace|).value)], backend, |trace| + 1);
    assert trace + [call] + more.calls == trace + ([call] + more.calls);
  }

  /** A raised upload ends the loop as `total` ends. */
  lemma ResumesRaised(cfg: Config, chunk: seq<Byte>, stream: Stream, uploadId: Option<string>, parts: seq<Part>,
                      backend: Backend, trace: seq<Call>, start: seq<Call>, total: Sending)
    requires stream.Valid() && chunk != [] && backend(|trace|).Raised?
    requires Resumes(cfg, chunk, stream, uploadId, parts, backend, trace, start, total)
    ensures var e := backend(|trace|).error;
            && total.stream == stream && total.parts == parts
            && total.stop == (if e.ClientError? then Stopped else Failed(e))
            && trace + [UploadPart(cfg.target, uploadId, |parts| + 1, chunk)] == start + total.calls
  {
    SendFromRaised(cfg, chunk, stream, uploadId, parts, backend, |trace|);
  }

  /** An empty chunk ends the loop as `total` ends. */
  lemma ResumesDrained(cfg: Config, stream: Stream, uploadId: Option<string>, parts: seq<Part>,
                       backend: Backend, trace: seq<Call>, start: seq<Call>, total: Sending)
    requires stream.Valid()
    requires Resumes(cfg, [], stream, uploadId, parts, backend, trace, start, total)
    ensures total.stream == stream && total.parts == parts && total.stop == Drained && trace == start + total.calls
  {
  }

  /** Whether `_upload_chunk` skips the part loop: the final flush of an
      auto-committing handle whose buffer is shorter than a block. */
  predicate SkipsParts(cfg: Config, h: Handle, final: bool)
    requires Ready(h)
  {
    cfg.autocommit && final && h.buffer.value.pos < cfg.blocksize
  }

  /** The chunk the part loop of `_upload_chunk` starts from: none when it
      skips the loop, else the first block of the rewound buffer. */
  function FirstRead(cfg: Config, h: Handle, final: bool): (r: (seq<Byte>, Stream))
    requires Ready(h)
    ensures r.1.Valid() && r.1.bytes == h.buffer.value.bytes
  {
    var buf := h.buffer.value;
    if SkipsParts(cfg, h, final) then ([], buf) else buf.Rewind().Read(cfg.blocksize)
  }

  /** `_upload_chunk(final)`: the part loop over the buffer read from its
      start (unless skipped), then `commit` when `autocommit and final`. */
  function UploadChunkRun(cfg: Config, h: Handle, final: bool, backend: Backend, sent: nat): Run<bool>
    requires Ready(h)
  {
    var (chunk, stream) := FirstRead(cfg, h, final);
    var r := SendFrom(cfg, chunk, stream, h.uploadId, h.parts, backend, sent);
    AfterParts(cfg, Handle(Some(r.stream), h.uploadId, r.parts), final, r, backend, sent + |r.calls|)
  }

  /** What `_upload_chunk` does once the part loop has ended as `r`, with
      `after` the handle's state then and `sent` the calls made so far:
      `False` on a `ClientError`, any other exception let through, and
      otherwise `not final` after a `commit` when `autocommit and final`. */
  function AfterParts(cfg: Config, after: Handle, final: bool, r: Sending, backend: Backend, sent: nat): Run<bool>
    requires Ready(after)
  {
    match r.stop
    case Stopped => Run(after, r.calls, Returned(false))
    case Failed(e) => Run(after, r.calls, Threw(e))
    case Drained =>
      if cfg.autocommit && final then
        var c := CommitRun(cfg, after, backend, sent);
        Run(c.handle, r.calls + c.calls, if c.outcome.Threw? then Threw(c.outcome.error) else Returned(!final))
      else Run(after, r.calls, Returned(!final))
  }

  /** `commit`: one `put_object` of the whole buffer when no part was
      uploaded, its `content_length` read right after rewinding, so 0, and
      any exception raised; otherwise one `commit_multipart_upload` of the
      parts in order, a `ClientError` from it swallowed and any other
      exception raised. */
  function CommitRun(cfg: Config, h: Handle, backend: Backend, sent: nat): (r: Run<()>)
    requires Ready(h)
    ensures Ready(r.handle) && r.handle.uploadId == h.uploadId && r.handle.parts == h.parts
    ensures r.handle.buffer.value.bytes == h.buffer.value.bytes
    ensures |r.calls| == 1
    ensures |h.parts| == 0 ==>
      && r.calls[0] == PutObject(cfg.target, h.buffer.value.bytes, 0)
      && (r.outcome.Threw? <==> backend(sent).Raised?)
    ensures |h.parts| != 0 ==>
      && r.calls[0] == CommitMultipartUpload(cfg.target, h.uploadId, h.parts)
      && r.handle == h
      && (r.outcome.Threw? <==> backend(sent).Raised? && !backend(sent).error.ClientError?)
    ensures r.outcome.Threw? ==> r.outcome.error == backend(sent).error
  {
    if |h.parts| == 0 then
      var buf := h.buffer.value.Rewind();
      var call := PutObject(cfg.target, buf.bytes[buf.pos..], buf.pos);
      var after := h.(buffer := Some(buf));
      match backend(sent)
      case Answered(_) => Run(after, [call], Returned(()))
      case Raised(e) => Run(after, [call], Threw(e))
    else
      var call := CommitMultipartUpload(cfg.target, h.uploadId, h.parts);
      match backend(sent)
      case Raised(ServiceError) => Run(h, [call], Threw(ServiceError))
      case _ => Run(h, [call], Returned(()))
  }

  /** `discard`: with no session, no call and no change; otherwise one
      `abort_multipart_upload`, after which the state is cleared whether or
      not the abort raised. */
  function DiscardRun(cfg: Config, h: Handle, backend: Backend, sent: nat): (r: Run<()>)
    ensures !SessionOpen(h) ==> r == Run(h, [], Returned(()))
    ensures SessionOpen(h) ==>
      && r.calls == [AbortMultipartUpload(cfg.target, h.uploadId)]
      && r.handle == Cleared()
      && (r.outcome.Threw? <==> backend(sent).Raised?)
      && (r.outcome.Threw? ==> r.outcome.error == backend(sent).error)
  {
    if SessionOpen(h) then
      var call := AbortMultipartUpload(cfg.target, h.uploadId);
      match backend(sent)
      case Answered(_) => Run(Cleared(), [call], Returned(()))
      case Raised(e) => Run(Cleared(), [call], Threw(e))
    else Run(h, [], Returned(()))
  }
}
