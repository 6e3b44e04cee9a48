/** The requests the file system builds for single objects: the `Range`
    value of `get_bytes_range` and the `get_object` call of `cat_file`, the
    early exit and the `head_object` call of `info`, and the region check
    and the `copy_object` call of `copy`. */
module Requests {
  import opened Common
  import opened Text
  import opened Paths

  /** Whether an optional `start`/`end` argument is a positive number. */
  predicate Positive(x: Option<int>)
  {
    x.Some? && x.value > 0
  }

  /** The bound an argument stands for in the range: its value when positive. */
  function BoundOf(x: Option<int>): Option<nat>
  {
    if Positive(x) then Some(x.value as nat) else None
  }

  /** What an argument contributes to the range: `str(x)` when it is a
      positive number, the empty string otherwise. */
  function RangeText(x: Option<int>): (r: string)
    ensures r == "" <==> !Positive(x)
    ensures forall i :: 0 <= i < |r| ==> IsDigit(r[i])
    ensures r != "" ==> r[0] != '0'
    ensures '-' !in r
  {
    if Positive(x) then Decimal(x.value) else ""
  }

  /** Reads a `Range` value `bytes=first-last` (section 14.1.2 of RFC 9110)
      in which either bound may be missing and each bound is written as
      `str` writes a positive int, without leading zeros: the two bounds,
      or `None` when the text is not of that form. */
  function ParseByteRange(s: string): Option<(Option<nat>, Option<nat>)>
  {
    if |s| < 6 || s[..6] != "bytes=" then None
    else
      var (first, sep, last) := Partition(s[6..], '-');
      if sep == "" then None
      else
        match (ParseBound(first), ParseBound(last))
        case (Some(a), Some(b)) => Some((a, b))
        case _ => None
  }

  /** A missing bound, or a number with no leading zero. */
  function ParseBound(s: string): Option<Option<nat>>
  {
    if s == "" then Some(None)
    else if s[0] == '0' then None
    else
      match ParseDecimal(s)
      case Some(n) => Some(Some(n))
      case None => None
  }

  /** `get_bytes_range`: the empty string exactly when neither `start` nor
      `end` is a positive number; otherwise a `bytes=first-last` value that
      reads back as the positive arguments, each missing one left out.
      `end` is put in as it is given. */
  function GetBytesRange(start: Option<int>, end: Option<int>): (r: string)
    ensures r == "" <==> !Positive(start) && !Positive(end)
    ensures r != "" ==> ParseByteRange(r) == Some((BoundOf(start), BoundOf(end)))
  {
    var startRange := RangeText(start);
    var endRange := RangeText(end);
    if startRange != "" || endRange != "" then
      ParseRangeOf(startRange, endRange);
      BoundRoundTrip(start);
      BoundRoundTrip(end);
      "bytes=" + startRange + "-" + endRange
    else ""
  }

  /** A range whose first bound holds no dash splits at the dash after it. */
  lemma ParseRangeOf(first: string, last: string)
    requires '-' !in first
    ensures ParseByteRange("bytes=" + first + "-" + last)
            == match (ParseBound(first), ParseBound(last))
               case (Some(a), Some(b)) => Some((a, b))
               case _ => None
  {
    var s := "bytes=" + first + "-" + last;
    assert s[..6] == "bytes=";
    assert s[6..] == first + "-" + last;
    IndexOfAfter(first, '-', last);
    assert (first + "-" + last)[..|first|] == first;
    assert (first + "-" + last)[|first| + 1..] == last;
  }

  /** The text of an argument reads back as its bound. */
  lemma BoundRoundTrip(x: Option<int>)
    ensures ParseBound(RangeText(x)) == Some(BoundOf(x))
  {
    if Positive(x) {
      DecimalRoundTrip(x.value);
    }
  }

  /** The text of an argument is the only text that reads back as its bound. */
  lemma BoundUnique(s: string, x: Option<int>)
    requires ParseBound(s) == Some(BoundOf(x))
    ensures s == RangeText(x)
  {
    if s != "" {
      DecimalUnique(s);
    }
  }

  /** The value `get_bytes_range` writes is the only `Range` value that reads
      back as its two bounds. */
  lemma RangeTextIsUnique(start: Option<int>, end: Option<int>, s: string)
    requires Positive(start) || Positive(end)
    requires ParseByteRange(s) == Some((BoundOf(start), BoundOf(end)))
    ensures s == GetBytesRange(start, end)
  {
    assert s[..6] == "bytes=";
    var (first, sep, last) := Partition(s[6..], '-');
    assert sep != "" && ParseBound(first) == Some(BoundOf(start)) && ParseBound(last) == Some(BoundOf(end));
    assert s[6..] == first + "-" + last;
    BoundUnique(first, start);
    BoundUnique(last, end);
    assert RangeText(start) != "" || RangeText(end) != "";
    assert s == "bytes=" + first + "-" + last by {
      assert s == s[..6] + s[6..];
    }
  }

  /** The arguments of a `get_object` call. */
  datatype GetObjectRequest = GetObjectRequest(namespace: string, bucket: string, objectName: string, range: Option<string>)

  /** The `get_object` call `cat_file` makes: the parsed address, with a
      `range` argument only when `get_bytes_range` is not empty. The call's
      content is what `cat_file` returns. */
  function CatFileRequest(path: string, start: Option<int>, end: Option<int>): (r: GetObjectRequest)
    ensures var osn := ParsePath2(path);
      r.namespace == osn.namespace && r.bucket == osn.bucket && r.objectName == osn.objectName
    ensures r.range.Some? <==> Positive(start) || Positive(end)
    ensures r.range.Some? ==> r.range.value == GetBytesRange(start, end)
                              && ParseByteRange(r.range.value) == Some((BoundOf(start), BoundOf(end)))
  {
    var osn := ParsePath2(path);
    var rangeBytes := GetBytesRange(start, end);
    GetObjectRequest(osn.namespace, osn.bucket, osn.objectName,
                     if rangeBytes != "" then Some(rangeBytes) else None)
  }

  /** The arguments of a `head_object` call. */
  datatype HeadRequest = HeadRequest(namespace: string, bucket: string, objectName: string)

  /** What the backend answers to `head_object`: the response headers, or an exception. */
  datatype HeadReply = HeadOk(headers: map<string, string>) | HeadFailed(error: Failure)

  /** The calls `info` makes and what it returns or raises. */
  datatype Lookup = Lookup(requests: seq<HeadRequest>, result: Result<Entry, Failure>)

  /** The entry `info` returns for a bucket root. */
  function DirectoryStub(path: string): Entry
  {
    map["name" := Str(path), "size" := Int(0), "type" := Str("directory")]
  }

  /** `headers.get(key)`. */
  function Header(headers: map<string, string>, key: string): Value
  {
    if key in headers then Str(headers[key]) else Null
  }

  /** The entry `info` builds from `head_object` headers (its `size` is left out). */
  function FileInfo(path: string, headers: map<string, string>): (r: Entry)
    ensures "name" in r && r["name"] == Str(path)
    ensures "type" in r && r["type"] == Str("file")
    ensures "etag" in r && r["etag"] == Header(headers, "etag")
  {
    map["name" := Str(path), "type" := Str("file"),
        "etag" := Header(headers, "etag"),
        "timeCreated" := Header(headers, "date"),
        "lastModified" := Header(headers, "last-modified"),
        "contentMd5" := Header(headers, "content-md5"),
        "storageTier" := Header(headers, "storage-tier"),
        "versionId" := Header(headers, "version-id"),
        "contentType" := Header(headers, "Content-Type")]
  }

  /** `info`: a path without an object name is a directory, answered
      without a backend call; otherwise exactly one `head_object` call is
      made, a file entry is returned on success, and any exception is
      raised again, with no fallback to a listing. */
  function Info(path: string, reply: HeadReply): (r: Lookup)
    ensures ParsePath2(path).objectName == "" <==> r.requests == []
    ensures r.requests == [] ==> r.result == Ok(DirectoryStub(path))
    ensures r.requests != [] ==>
      var osn := ParsePath2(path);
      && r.requests == [HeadRequest(osn.namespace, osn.bucket, osn.objectName)]
      && (reply.HeadFailed? ==> r.result == Err(reply.error))
      && (reply.HeadOk? ==> r.result == Ok(FileInfo(path, reply.headers)))
  {
    var osn := ParsePath2(path);
    if osn.objectName != "" then
      var request := HeadRequest(osn.namespace, osn.bucket, osn.objectName);
      match reply
      case HeadOk(headers) => Lookup([request], Ok(FileInfo(path, headers)))
      case HeadFailed(e) => Lookup([request], Err(e))
    else Lookup([], Ok(DirectoryStub(path)))
  }

  /** A path made of a first segment and slashes only is a directory for
      `info`, whatever the backend would answer: no call is made. */
  lemma InfoOfBucketRoot(head: string, slashes: string, reply: HeadReply)
    requires '/' !in head
    requires forall i :: 0 <= i < |slashes| ==> slashes[i] == '/'
    ensures Info(head + slashes, reply) == Lookup([], Ok(DirectoryStub(head + slashes)))
  {
    TrailingSlashesNameTheBucket(head, slashes);
  }

  /** A keyword argument that may have been passed (with any value, `None` included) or not. */
  datatype Kwarg<T> = Unset | Set(value: T)

  /** `kwargs.get(DESTINATION_REGION_KEY, self.region)`. */
  function DestinationRegion(kw: Kwarg<Option<string>>, fsRegion: Option<string>): Option<string>
  {
    match kw
    case Set(v) => v
    case Unset => fsRegion
  }

  /** `not destination_region`: no region, or an empty one. */
  predicate RegionMissing(region: Option<string>)
  {
    region.None? || region.value == ""
  }

  /** The arguments of a `copy_object` call. */
  datatype CopyRequest = CopyRequest(
    namespace: string, bucket: string, sourceObjectName: string, destinationRegion: string,
    destinationNamespace: string, destinationBucket: string, destinationObjectName: string)

  /** The tracking identifiers `copy` returns. */
  datatype CopyResponse = CopyResponse(workRequestId: string, requestId: string, date: string)

  datatype CopyReply = Copied(response: CopyResponse) | CopyFailed(error: Failure)

  /** `ValueError` for a missing region, or an exception from `copy_object`. */
  datatype CopyError = MissingRegion | CopyRaised(error: Failure)

  datatype CopyRun = CopyRun(requests: seq<CopyRequest>, result: Result<CopyResponse, CopyError>)

  /** `copy`: without a destination region (neither passed nor configured,
      or empty) it raises `ValueError` before any backend call; otherwise it
      makes one `copy_object` call from the first path's address to the
      second's, and returns the call's identifiers or raises its exception.
      A region passed as an argument wins over the configured one, even when
      it is empty. */
  function Copy(path1: string, path2: string, kw: Kwarg<Option<string>>, fsRegion: Option<string>,
                reply: CopyReply): (r: CopyRun)
    ensures RegionMissing(DestinationRegion(kw, fsRegion)) <==> r.requests == []
    ensures r.requests == [] ==> r.result == Err(MissingRegion)
    ensures r.requests != [] ==>
      var src := ParsePath2(path1);
      var dst := ParsePath2(path2);
      && r.requests == [CopyRequest(src.namespace, src.bucket, src.objectName,
                                    DestinationRegion(kw, fsRegion).value,
                                    dst.namespace, dst.bucket, dst.objectName)]
      && r.result == (match reply
                      case Copied(response) => Ok(response)
                      case CopyFailed(e) => Err(CopyRaised(e)))
    ensures kw.Set? ==> (r.requests == [] <==> RegionMissing(kw.value))
  {
    var src := ParsePath2(path1);
    var dst := ParsePath2(path2);
    var region := DestinationRegion(kw, fsRegion);
    if RegionMissing(region) then CopyRun([], Err(MissingRegion))
    else
      var request := CopyRequest(src.namespace, src.bucket, src.objectName, region.value,
                                 dst.namespace, dst.bucket, dst.objectName);
      match reply
      case Copied(response) => CopyRun([request], Ok(response))
      case CopyFailed(e) => CopyRun([request], Err(CopyRaised(e)))
  }
}
