# ocifsspec core in Dafny

This project models the core of `ocifsspec`, an fsspec file system for OCI
Object Storage. A path of the form `bucket@namespace/path/to/object` is
turned into Object Storage requests. A handle opened for writing buffers
bytes and uploads them, either as one `put_object` or as a multipart upload.

All of the modelled code is in
`ocifsspec/core/impl/oci_object_storage_file_system.py`. It has two halves.

**The file system helpers (`OCIObjectStorageFileSystem`).** These are pure,
and are modelled as functions with lemmas about them.
- `Paths` covers `_parse_path_2`, the older `_parse_path` and
  `_get_file_name`. It also holds `PROTOCOL`, which is `"oci"`.
- `Text` holds the string operations they use: `partition`, `rstrip`,
  `split`, `join`, decimal rendering and parsing.
- `Listing` covers `_get_page_data`, `_generate_results` and the page loop of
  `ls`. The loop is a method with loop invariants, proved equal to the
  function `Drain`.
- `Requests` covers `get_bytes_range` and the `get_object` request of
  `cat_file`, plus the guard structure of `info` and `copy`.

**The upload state machine (`OCIObjectStorageFile`).** It has three fields:
- the byte buffer with its position;
- `upload_id`;
- the list of committed-part details.

This half is modelled twice:
- `UploadProtocol` gives each operation as a pure *run*: a function from the
  settings, the old handle state, a backend and the number of calls already
  sent. A run gives the new state, the calls made and the outcome, which is
  either a return value or an exception.
- `UploadFile` is the imperative model. `ObjectStorageFile` is a class with
  the three fields. Its methods `InitiateUpload`, `UploadChunk` (with the
  part loop `SendParts`), `Commit`, `Discard` and `CleanupMultipartUpload`
  change those fields in place. They talk to a `StorageClient`, which
  records every call in a trace. Each method is proved to produce exactly
  the state, trace extension and outcome of its run.

`UploadProperties` proves what the source promises about these runs:
- how the buffer is cut into `blocksize` slices;
- how parts are numbered;
- where the loop stops on the first failure;
- the complete call sequence of a small and of a large upload;
- that `discard` clears everything.

The OCI client is an abstract backend: `backend(k)` is the reply to the
k-th call the handle makes. A reply is either an answer (an upload id or an
etag) or an exception. Exceptions come in two kinds:
- `ClientError`, which `_upload_chunk` and `commit` catch;
- everything else (`ServiceError`), which only propagates.

In `ls` the backend is the sequence of page replies, consumed in order.

**Where the code does something other than what one would expect of it,
the model follows the code:**
- `commit` reads `content_length` from `buffer.tell()` right after
  `seek(0)` (lines 85-90). The length sent is therefore 0, not the buffer
  size.
- `info` has no not-found fallback to a listing. Every exception from
  `head_object` is re-raised (lines 188-189), and line 193 is unreachable.
- `_parse_path_2` rejects nothing. A first segment without `@` gives an
  empty namespace (line 307).
- `_get_page_data` sends no delimiter and no continuation token (lines
  349-354). So every page request is the same, and no directory entries
  are made.
- The prefix is the object name as it is, with no `/` appended.
- `get_bytes_range` passes `end` through as given (lines 384-388).
- `ls` reads past the first page only if the backend answers the same request differently. With no continuation token there is no way to ask for the next page (`Listing.SameReplyEveryPage`).
- `commit` swallows only a `ClientError` from `commit_multipart_upload`
  (line 105). Any other exception escapes.
- A part failure other than a `ClientError` escapes `_upload_chunk` rather
  than returning `False` (line 72).
- The final flush of an auto-committing handle with less than a block
  buffered skips the part loop (lines 46-47). If parts were already
  uploaded, the commit covers only those parts, and the buffered bytes are
  not uploaded (`FinalShortFlushUploadsNoPart`).
- `_parse_path` compares the number of `/`-segments with 2 (line 330),
  not the number of `@`-parts. So it rejects every nested key.
- In `_parse_path`, a first segment without `@` raises an `IndexError`
  (line 334).
- The `validate_path` branch of `_parse_path` (line 336) can never be
  taken.

## Model

All source paths are in `ocifsspec/core/impl/oci_object_storage_file_system.py`.

| member | source | states |
|---|---|---|
| Paths.ParsePath2 | ocifsspec/core/impl/oci_object_storage_file_system.py:300-309 | The bucket has no '@' and no '/', and the namespace has no '/'. The object name never ends in '/' and is empty when the path has no '/'. The first segment is `bucket@namespace`, or just the bucket with an empty namespace when it has no '@'. The object name is the text after the first '/' with only a run of '/' removed from its end. |
| Paths.ParseFileName | ocifsspec/core/impl/oci_object_storage_file_system.py:345-346 | Rendering `bucket@namespace/name` with `_get_file_name` and parsing it back gives the same bucket and namespace, and the name without its trailing slashes. |
| Paths.TrailingSlashesNameTheBucket | ocifsspec/core/impl/oci_object_storage_file_system.py:304-308 | A path whose part after the first segment is only slashes has an empty object name. |
| Paths.ParsePath | ocifsspec/core/impl/oci_object_storage_file_system.py:311-343 | Accepts exactly the paths `oci://` + text with one '/' whose first segment holds an '@'. It raises IndexError exactly when that segment has no '@', and ValueError in every other rejected case. An accepted address has no '/' in any component and no '@' in the bucket or namespace. |
| Paths.ParsePathAgreesWithParsePath2 | ocifsspec/core/impl/oci_object_storage_file_system.py:311-343 | Where `_parse_path` accepts, `_parse_path_2` on the text after `://` gives the same bucket and object name. Its namespace equals the older one up to a second '@'. |
| Listing.PageRequestOfPath | ocifsspec/core/impl/oci_object_storage_file_system.py:348-354 | For the path given to `ls`, the `list_objects` prefix is the text after the first '/' with its trailing slashes removed, and it is empty when there is no '/'. The bucket holds no '@' or '/', and the first segment is `bucket@namespace`, or just the bucket. The fields are `name,size,etag,md5` and the limit is the one given. No token and no delimiter are sent. |
| Listing.GenerateResults | ocifsspec/core/impl/oci_object_storage_file_system.py:366-380 | One entry per listed object. |
| Listing.GenerateResultsEntries | ocifsspec/core/impl/oci_object_storage_file_system.py:366-380 | Entry i is named `bucket@namespace/<name of object i>`. Without detail an entry holds only `name`. With detail it holds exactly name, size, etag, md5 and `type` = 'file', with the object's size (or null), etag and md5. |
| Listing.DrainStep | ocifsspec/core/impl/oci_object_storage_file_system.py:356-364 | One turn of the page loop. A failed `list_objects` ends `ls` with its exception. A page without `next_start_with` ends it with that page's entries. Any other page's entries come before what the later pages give. |
| Listing.SameReplyEveryPage | ocifsspec/core/impl/oci_object_storage_file_system.py:349-364 | Since every page request is the same, a backend that answers the same request alike makes `ls` read exactly one page, or never end when that page names a next one. |
| Listing.DrainIsAllPages | ocifsspec/core/impl/oci_object_storage_file_system.py:147-155 | `ls` reads pages up to and including the first without `next_start_with`. It returns the entries of all their objects in page order, or the exception of the first failing call. |
| Listing.LsNamesParseBack | ocifsspec/core/impl/oci_object_storage_file_system.py:146-155 | Every name `ls` returns parses back to the listed bucket and namespace and to the object's name without trailing slashes. |
| Listing.Ls | ocifsspec/core/impl/oci_object_storage_file_system.py:136-155 | The imperative page loop returns what `Drain` specifies. It makes one identical page request per page read, and reads exactly `PagesRead` pages. |
| Requests.GetBytesRange | ocifsspec/core/impl/oci_object_storage_file_system.py:382-391 | The range is "" exactly when neither start nor end is a positive number. Otherwise it reads back as `bytes=first-last` with both bounds, where each side is a missing bound or the digits of a positive one without a leading zero. |
| Requests.RangeTextIsUnique | ocifsspec/core/impl/oci_object_storage_file_system.py:382-391 | When start or end is positive, the `get_bytes_range` value is the only text that reads back as those two bounds. So the value is fully determined: `str` of each positive bound, or nothing. |
| Text.DecimalUnique | ocifsspec/core/impl/oci_object_storage_file_system.py:388 | Digits without a leading zero are the only text `str` writes for the number they denote. |
| Text.DecimalRoundTrip | ocifsspec/core/impl/oci_object_storage_file_system.py:388 | The digits `str` writes for a number read back as that number. |
| Requests.CatFileRequest | ocifsspec/core/impl/oci_object_storage_file_system.py:205-214 | `get_object` goes to the `_parse_path_2` address. It carries a `range` argument exactly when start or end is positive, and that argument is the `get_bytes_range` text. |
| Requests.FileInfo | ocifsspec/core/impl/oci_object_storage_file_system.py:176-187 | The entry for a found object has its path as name, type 'file' and the response's etag. |
| Requests.Info | ocifsspec/core/impl/oci_object_storage_file_system.py:168-190 | No request is sent exactly when the object name is empty, and then the result is the directory stub. Otherwise exactly one `head_object` goes to the parsed address. A failure is re-raised unchanged, and a success gives the file entry. |
| Requests.InfoOfBucketRoot | ocifsspec/core/impl/oci_object_storage_file_system.py:169-170 | A path naming only a bucket, with or without trailing slashes, gets the directory stub and no backend call. |
| Requests.Copy | ocifsspec/core/impl/oci_object_storage_file_system.py:235-258 | No request is sent exactly when the destination region (the keyword, else the file system's region) is missing or empty, and then ValueError is raised. Otherwise one `copy_object` goes from the source address to the destination address and region. Its response or exception is passed on. |
| UploadProtocol.Stream.Read | ocifsspec/core/impl/oci_object_storage_file_system.py:55 | A buffer read returns the next `min(n, remaining)` bytes from the position and advances the position past them. |
| UploadProtocol.Opened | ocifsspec/core/impl/oci_object_storage_file_system.py:19-25 | A new handle that has had bytes written to it holds exactly those bytes, with the position at their end. It has no upload id and no part. The whole-upload lemmas start from this state. |
| UploadProtocol.DiscardOpened | ocifsspec/core/impl/oci_object_storage_file_system.py:108-109 | Discarding a new handle, or one that has only had bytes written, makes no call and changes nothing. |
| UploadProtocol.InitiateRun | ocifsspec/core/impl/oci_object_storage_file_system.py:27-43 | No call exactly when the buffer position is below blocksize. Otherwise exactly one `create_multipart_upload` for the target. An answer sets the upload id; an exception leaves the state unchanged and propagates. |
| UploadProtocol.CommitRun | ocifsspec/core/impl/oci_object_storage_file_system.py:80-106 | Always exactly one call. With no parts it is a `put_object` of the whole buffer with content length 0, and its exception propagates. With parts it is a `commit_multipart_upload` of those parts in order, and only a non-ClientError escapes. Upload id and parts are unchanged. |
| UploadProtocol.DiscardRun | ocifsspec/core/impl/oci_object_storage_file_system.py:108-125 | Without parts or a non-empty upload id: no call and no change. Otherwise exactly one `abort_multipart_upload` for the upload id, and buffer, parts and upload id are cleared even when the abort raises. The abort's exception is re-raised. |
| UploadProperties.Chunks | ocifsspec/core/impl/oci_object_storage_file_system.py:54-71 | The slices produced by `blocksize` reads from position 0 concatenate back to the buffer. |
| UploadProperties.ChunksShape | ocifsspec/core/impl/oci_object_storage_file_system.py:54-71 | No slice of the loop is empty, none exceeds blocksize, and all but the last are exactly blocksize long. |
| UploadProperties.ChunksCount | ocifsspec/core/impl/oci_object_storage_file_system.py:54-71 | The number of slices k is ceil(size / blocksize): `(k-1)*blocksize < size <= k*blocksize`, or both are 0. |
| UploadProperties.UploadCallsAt | ocifsspec/core/impl/oci_object_storage_file_system.py:58-65 | The i-th upload call carries slice i, the handle's upload id and part number `first + i`. |
| UploadProperties.ReceivedPartsAt | ocifsspec/core/impl/oci_object_storage_file_system.py:67-69 | The i-th recorded part has number `first + i` and the etag of the i-th reply. |
| UploadProperties.SendAtAllAnswered | ocifsspec/core/impl/oci_object_storage_file_system.py:56-71 | When every upload is answered, the loop uploads every remaining slice in order, numbered on from the existing parts. It records one part per slice and leaves the buffer at its end. |
| UploadProperties.SendAtFirstFailure | ocifsspec/core/impl/oci_object_storage_file_system.py:56-74 | When k uploads are answered and the next raises, the loop makes exactly k+1 uploads and keeps the old parts plus the k answered ones. It stops quietly on a ClientError and with the exception otherwise. |
| UploadProperties.SendFromExtendsParts | ocifsspec/core/impl/oci_object_storage_file_system.py:56-71 | Whatever the backend answers, the loop only appends parts, and keeps them numbered 1, 2, ... when they were. |
| UploadProperties.UploadChunkAllAnswered | ocifsspec/core/impl/oci_object_storage_file_system.py:45-77 | On the slicing path with every upload answered, the calls are the uploads of all slices, numbered from `len(parts)+1`, and one part is recorded per slice. The result is `not final`. With autocommit and final there is exactly one more call, the multipart commit of all parts, which raises only on a ServiceError. |
| UploadProperties.UploadChunkFirstFailure | ocifsspec/core/impl/oci_object_storage_file_system.py:56-74 | On the first failing upload no later part is attempted and no commit is made. The parts so far are kept and the upload id is unchanged. The result is `False` on a ClientError, and any other exception escapes. |
| UploadProperties.UploadChunkKeepsNumbering | ocifsspec/core/impl/oci_object_storage_file_system.py:63-69 | Whatever happens, `_upload_chunk` keeps the old parts as a prefix, and keeps parts numbered 1, 2, ... |
| UploadProperties.FinalShortFlushUploadsNoPart | ocifsspec/core/impl/oci_object_storage_file_system.py:46-47 | The final flush of an auto-committing handle with less than a block buffered makes one call, the commit, and uploads no part. With parts already present it commits only those. |
| UploadProperties.SmallUploadIsSinglePut | ocifsspec/core/impl/oci_object_storage_file_system.py:27-30 | For an auto-committing handle, a whole upload below blocksize (initiate, then final flush) is exactly one `put_object` of all the bytes and no multipart call. Its exception propagates. |
| UploadProperties.LargeUploadSequence | ocifsspec/core/impl/oci_object_storage_file_system.py:27-106 | For an auto-committing handle, a whole upload of at least blocksize bytes, every call but the commit answered, is one create, the slices uploaded as parts 1, 2, ... under the returned upload id, then one commit of exactly those parts in order. |
| UploadProperties.FailedUploadThenDiscard | ocifsspec/core/impl/oci_object_storage_file_system.py:108-125 | After a failed part upload, when the handle had an upload id or a part was recorded before the failure, `discard` makes exactly one abort for the handle's upload id and leaves no buffer, no upload id and no parts. |
| UploadFile.StorageClient.Send | ocifsspec/core/impl/oci_object_storage_file_system.py:58-65 | Each client call is appended to the trace and answered with the backend's reply for its position. |
| UploadFile.ObjectStorageFile.constructor | ocifsspec/core/impl/oci_object_storage_file_system.py:19-25 | A new write handle is in the fresh state. |
| UploadFile.ObjectStorageFile.InitiateUpload | ocifsspec/core/impl/oci_object_storage_file_system.py:27-43 | New fields, appended calls and outcome are those of `InitiateRun`. |
| UploadFile.ObjectStorageFile.UploadChunk | ocifsspec/core/impl/oci_object_storage_file_system.py:45-77 | New fields, appended calls and outcome are those of `UploadChunkRun`. |
| UploadFile.ObjectStorageFile.SendParts | ocifsspec/core/impl/oci_object_storage_file_system.py:56-74 | The `while part_data` loop changes the buffer and parts and appends the calls exactly as `SendFrom` specifies. |
| UploadFile.ObjectStorageFile.Commit | ocifsspec/core/impl/oci_object_storage_file_system.py:80-106 | New fields, appended calls and outcome are those of `CommitRun`. |
| UploadFile.ObjectStorageFile.Discard | ocifsspec/core/impl/oci_object_storage_file_system.py:108-120 | New fields, appended calls and outcome are those of `DiscardRun`. |
| UploadFile.ObjectStorageFile.CleanupMultipartUpload | ocifsspec/core/impl/oci_object_storage_file_system.py:122-125 | Buffer, parts and upload id are reset. |

## Left out

- `Requests.FileInfo`: the `size` key (`int(Content-Length)` at line 179) is left out, because it parses a header string with Python's `int`. A missing `Content-Length` header would raise a `KeyError`, which is not modelled either.
- `Requests.Copy`: the response headers are not read by key. The reply is already a `CopyResponse`, so a `KeyError` for a missing header (lines 254-258) is not modelled.
- `Listing.Ls`: requires that some reply in the given sequence ends the loop (a failure or a page without `next_start_with`). `_get_page_data` sends the same request every time (lines 349-354). So a backend that answers a repeated request the same way, and names a next page, makes `ls` loop forever (`Listing.SameReplyEveryPage`). The model does not promise anything about that case.
- The page-size constant and the `limit` keyword (line 147): `limit` is a parameter. The constants module is not part of this model.
- The upload methods: the etag read from a response header (`response.headers['etag']`, line 69) is the answer of the call. A missing header is not modelled.
- `UploadFile.ObjectStorageFile.InitiateUpload`, `UploadChunk`, `SendParts`, `Commit` and `Write`: require a buffer (`Ready`). Calling them on a discarded handle, whose buffer is `None`, would raise `AttributeError` in Python, and this is not modelled.
- The OCI SDK calls are a backend that answers each call with an answer or an exception. The model records what each call carries, not what the service does.
- `put_object`: how much of the seekable buffer the SDK reads is not modelled. The model sends the bytes from position 0, and the position left afterwards stays at 0.
- The fsspec driver (`AbstractBufferedFile.write`, `flush`, `close`, `_strip_protocol`, `open`) is not shown. `UploadFile.ObjectStorageFile.Write` is only an in-memory buffer write, and paths are taken with the `oci://` prefix already stripped.
- `checksum` is not modelled. It hashes with fsspec's `tokenize`.
- The async file system is not modelled. It only moves calls onto threads.
- The client factory and the authentication settings are not modelled. They read configuration files and build SDK signers.
- The `print` logging is not modelled.
- The `**kwargs` passed on to `head_object` (line 175) are not modelled.
- `copy`'s `recursive`, `maxdepth` and `on_error` arguments are not modelled, because `copy` ignores them.
