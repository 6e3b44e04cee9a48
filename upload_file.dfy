/** The write handle as an object whose fields change in place, talking to
    an object storage client that records the calls it is sent. Every
    method is proved to do what the corresponding run of the upload
    protocol describes: same new state, same calls appended to the trace,
    same outcome. */
module UploadFile {
  import opened Common
  import opened Paths
  import opened UploadProtocol

  /** The object storage client: it records every call in `trace` and
      answers the k-th call it receives with `respond(k)`. */
  class StorageClient {
    var trace: seq<Call>
    const respond: Backend

    constructor (respond: Backend)
      ensures trace == [] && this.respond == respond
    {
      this.respond := respond;
      trace := [];
    }

    method Send(call: Call) returns (reply: Reply)
      modifies this
      ensures trace == old(trace) + [call]
      ensures reply == respond(|old(trace)|)
    {
      reply := respond(|trace|);
      trace := trace + [call];
    }
  }

  /** `OCIObjectStorageFile` in write mode: the object it writes, its block
      size and autocommit flag, and the three fields the upload changes. */
  class ObjectStorageFile {
    const client: StorageClient
    const target: ObjectStorageName
    const blocksize: nat
    const autocommit: bool
    var buffer: Option<Stream>
    var uploadId: Option<string>
    var parts: seq<Part>

    function Settings(): Config
    {
      Config(target, blocksize, autocommit)
    }

    function State(): Handle
      reads this
    {
      Handle(buffer, uploadId, parts)
    }

    /** A handle just opened for writing: an empty buffer, no upload id, no parts. */
    constructor (client: StorageClient, target: ObjectStorageName, blocksize: nat, autocommit: bool)
      ensures this.client == client && Settings() == Config(target, blocksize, autocommit)
      ensures State() == Fresh()
    {
      this.client := client;
      this.target := target;
      this.blocksize := blocksize;
      this.autocommit := autocommit;
      buffer := Some(Stream([], 0));
      uploadId := None;
      parts := [];
    }

    /** The write into the buffer that precedes a flush; on a handle just
        opened it leaves the handle `Opened(data)`. */
    method Write(data: seq<Byte>)
      requires Ready(State())
      modifies this
      ensures State() == old(State()).(buffer := Some(old(buffer.value).Write(data)))
      ensures old(State()) == Fresh() ==> State() == Opened(data)
    {
      buffer := Some(buffer.value.Write(data));
    }

    /** `_initiate_upload`. */
    method InitiateUpload() returns (outcome: Outcome<()>)
      requires Ready(State())
      modifies this, client
      ensures var run := InitiateRun(Settings(), old(State()), client.respond, |old(client.trace)|);
              State() == run.handle && client.trace == old(client.trace) + run.calls && outcome == run.outcome
    {
      if buffer.value.pos < blocksize {
        return Returned(());
      }
      var reply := client.Send(CreateMultipartUpload(target));
      match reply
      case Answered(id) =>
        uploadId := Some(id);
        outcome := Returned(());
      case Raised(e) =>
        outcome := Threw(e);
    }

    /** `_upload_chunk(final)`: the part loop over the rewound buffer, then
        the commit of an auto-committing handle's final flush. */
    method UploadChunk(final: bool) returns (outcome: Outcome<bool>)
      requires Ready(State())
      modifies this, client
      ensures var run := UploadChunkRun(Settings(), old(State()), final, client.respond, |old(client.trace)|);
              State() == run.handle && client.trace == old(client.trace) + run.calls && outcome == run.outcome
    {
      ghost var first := FirstRead(Settings(), State(), final);
      ghost var run := UploadChunkRun(Settings(), State(), final, client.respond, |client.trace|);
      var partData: seq<Byte>;
      if autocommit && final && buffer.value.pos < blocksize {
        partData := [];
      } else {
        var (chunk, stream) := buffer.value.Rewind().Read(blocksize);
        buffer := Some(stream);
        partData := chunk;
      }
      assert (partData, buffer.value) == first;
      ghost var r := SendFrom(Settings(), partData, buffer.value, uploadId, parts, client.respond, |client.trace|);
      var stop := SendParts(partData);
      assert run == AfterParts(Settings(), State(), final, r, client.respond, |client.trace|);
      match stop
      case Stopped =>
        return Returned(false);
      case Failed(e) =>
        return Threw(e);
      case Drained =>
        if autocommit && final {
          ghost var after := State();
          ghost var sent := |client.trace|;
          var committed := Commit();
          ghost var c := CommitRun(Settings(), after, client.respond, sent);
          assert run == Run(c.handle, r.calls + c.calls, if c.outcome.Threw? then Threw(c.outcome.error) else Returned(!final));
          assert client.trace == old(client.trace) + (r.calls + c.calls);
          if committed.Threw? {
            return Threw(committed.error);
          }
        }
        return Returned(!final);
    }

    /** The `while part_data` loop of `_upload_chunk`, from the chunk already
        read: how it ends, `Stopped` standing for its `return False`. */
    method SendParts(chunk: seq<Byte>) returns (stop: Stop)
      requires Ready(State())
      modifies this, client
      ensures var r := SendFrom(Settings(), chunk, old(buffer.value), old(uploadId), old(parts),
                                client.respond, |old(client.trace)|);
              && State() == Handle(Some(r.stream), old(uploadId), r.parts)
              && client.trace == old(client.trace) + r.calls
              && stop == r.stop
    {
      var partData := chunk;
      ghost var start := client.trace;
      ghost var total := SendFrom(Settings(), partData, buffer.value, uploadId, parts, client.respond, |start|);
      while partData != []
        invariant buffer.Some? && buffer.value.Valid()
        invariant uploadId == old(uploadId)
        invariant Resumes(Settings(), partData, buffer.value, uploadId, parts, client.respond, client.trace, start, total)
        decreases |partData| + (|buffer.value.bytes| - buffer.value.pos)
      {
        ghost var sent := client.trace;
        var call := UploadPart(target, uploadId, |parts| + 1, partData);
        var reply := client.Send(call);
        match reply
        case Answered(etag) =>
          ResumesAnswered(Settings(), partData, buffer.value, uploadId, parts, client.respond, sent, start, total);
          parts := parts + [Part(|parts| + 1, etag)];
          var (next, stream) := buffer.value.Read(blocksize);
          buffer := Some(stream);
          partData := next;
        case Raised(e) =>
          ResumesRaised(Settings(), partData, buffer.value, uploadId, parts, client.respond, sent, start, total);
          return if e.ClientError? then Stopped else Failed(e);
      }
      ResumesDrained(Settings(), buffer.value, uploadId, parts, client.respond, client.trace, start, total);
      return Drained;
    }

    /** `commit`. */
    method Commit() returns (outcome: Outcome<()>)
      requires Ready(State())
      modifies this, client
      ensures var run := CommitRun(Settings(), old(State()), client.respond, |old(client.trace)|);
              State() == run.handle && client.trace == old(client.trace) + run.calls && outcome == run.outcome
    {
      if |parts| == 0 {
        buffer := Some(buffer.value.Rewind());
        var body := buffer.value.bytes[buffer.value.pos..];
        var reply := client.Send(PutObject(target, body, buffer.value.pos));
        match reply
        case Answered(_) => outcome := Returned(());
        case Raised(e) => outcome := Threw(e);
      } else {
        var reply := client.Send(CommitMultipartUpload(target, uploadId, parts));
        match reply
        case Raised(ServiceError) => outcome := Threw(ServiceError);
        case _ => outcome := Returned(());
      }
    }

    /** `discard`: the abort's outcome is reported after the cleanup. */
    method Discard() returns (outcome: Outcome<()>)
      modifies this, client
      ensures var run := DiscardRun(Settings(), old(State()), client.respond, |old(client.trace)|);
              State() == run.handle && client.trace == old(client.trace) + run.calls && outcome == run.outcome
    {
      if |parts| != 0 || (uploadId.Some? && uploadId.value != "") {
        var reply := client.Send(AbortMultipartUpload(target, uploadId));
        CleanupMultipartUpload();
        match reply
        case Answered(_) => outcome := Returned(());
        case Raised(e) => outcome := Threw(e);
      } else {
        outcome := Returned(());
      }
    }

    /** `_cleanup_multipart_upload`. */
    method CleanupMultipartUpload()
      modifies this
      ensures State() == Cleared()
    {
      buffer := None;
      parts := [];
      uploadId := None;
    }
  }
}
