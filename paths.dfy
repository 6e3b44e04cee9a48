/** The address model: how a file-system path names an object
    (`_parse_path_2`, the older `_parse_path`, and `_get_file_name`). */
module Paths {
  import opened Common
  import opened Text

  /** The scheme of the file system's paths, as in `oci://bucket@namespace/key`. */
  const PROTOCOL: string := "oci"

  /** The `ObjectStorageName` triple: where an object lives. */
  datatype ObjectStorageName = ObjectStorageName(namespace: string, bucket: string, objectName: string)

  /** The exceptions `_parse_path` can raise. */
  datatype PathError = ValueError | IndexError

  /** `_parse_path_2` applied to a path whose `oci://` prefix was already
      stripped: the bucket is the text before the first '@' of the first
      segment, the namespace the rest of that segment (empty when it has no
      '@'), and the object name everything after the first '/', without its
      trailing slashes. Nothing is rejected. */
  function ParsePath2(path: string): (r: ObjectStorageName)
    ensures '@' !in r.bucket && '/' !in r.bucket && '/' !in r.namespace
    ensures r.objectName == [] || r.objectName[|r.objectName| - 1] != '/'
    ensures '/' !in path ==> r.objectName == []
    ensures var head := Partition(path, '/').0;
      && head == (if '@' in head then r.bucket + "@" + r.namespace else r.bucket)
      && ('@' !in head ==> r.namespace == [])
    ensures var tail := Partition(path, '/').2;
      && |r.objectName| <= |tail| && r.objectName == tail[..|r.objectName|]
      && forall i :: |r.objectName| <= i < |tail| ==> tail[i] == '/'
  {
    var (fullBucket, _, objPath) := Partition(path, '/');
    var (bucket, _, namespace) := Partition(fullBucket, '@');
    assert '@' in fullBucket ==> fullBucket == bucket + "@" + namespace;
    assert forall k :: 0 <= k < |namespace| ==> namespace[k] == fullBucket[|bucket| + 1 + k];
    ObjectStorageName(namespace, bucket, RStrip(objPath, '/'))
  }

  /** `_get_file_name`: the display path `bucket@namespace/name`. */
  function FileName(osn: ObjectStorageName, name: string): string
  {
    osn.bucket + "@" + osn.namespace + "/" + name
  }

  /** Rendering a name with `_get_file_name` and parsing it back with
      `_parse_path_2` gives the same bucket and namespace, and the name
      without its trailing slashes. */
  lemma ParseFileName(osn: ObjectStorageName, name: string)
    requires '@' !in osn.bucket && '/' !in osn.bucket && '/' !in osn.namespace
    ensures ParsePath2(FileName(osn, name)) == ObjectStorageName(osn.namespace, osn.bucket, RStrip(name, '/'))
  {
    var head := osn.bucket + "@" + osn.namespace;
    assert FileName(osn, name) == head + "/" + name;
    IndexOfAfter(head, '/', name);
    assert (head + "/" + name)[..|head|] == head;
    IndexOfAfter(osn.bucket, '@', osn.namespace);
    assert head[..|osn.bucket|] == osn.bucket;
  }

  /** A path whose object part is only slashes names the bucket itself. */
  lemma {:induction false} TrailingSlashesNameTheBucket(head: string, slashes: string)
    requires '/' !in head
    requires forall i :: 0 <= i < |slashes| ==> slashes[i] == '/'
    ensures ParsePath2(head + slashes).objectName == ""
  {
    if |slashes| > 0 {
      var s := head + slashes;
      assert s == head + "/" + slashes[1..];
      IndexOfAfter(head, '/', slashes[1..]);
      assert s[..|head|] == head;
      RStripRun("", slashes[1..], '/');
      assert "" + slashes[1..] == slashes[1..];
    } else {
      assert head + slashes == head;
    }
  }

  /** `_parse_path`, the older validator (the file system no longer calls
      it). It accepts `oci://` followed by exactly one '/', and reads the
      namespace as the text between the first and the second '@'. Its
      `validate_path` branch cannot be taken once the segment count is 2,
      so the flag has no parameter here. */
  function ParsePath(path: string): (r: Result<ObjectStorageName, PathError>)
    ensures var base := SplitOn(path, "://");
      r.Ok? <==> (|base| == 2 && base[0] == PROTOCOL && Count(base[1], '/') == 1
                  && '@' in Partition(base[1], '/').0)
    ensures var base := SplitOn(path, "://");
      r == Err(IndexError) <==> (|base| == 2 && base[0] == PROTOCOL && Count(base[1], '/') == 1
                                 && '@' !in Partition(base[1], '/').0)
    ensures r.Ok? ==> && '/' !in r.value.objectName && '/' !in r.value.bucket && '/' !in r.value.namespace
                      && '@' !in r.value.bucket && '@' !in r.value.namespace
  {
    var base := SplitOn(path, "://");
    if |base| != 2 || base[0] != PROTOCOL then Err(ValueError)
    else
      var segments := SplitChar(base[1], '/');
      SplitCount(base[1], '/');
      if |segments| <= 1 then Err(ValueError)
      else
        var bucketNamespace := SplitChar(segments[0], '@');
        if |segments| != 2 then Err(ValueError)
        else if |bucketNamespace| < 2 then Err(IndexError)
        else
          assert '/' !in bucketNamespace[0] && '/' !in bucketNamespace[1] by {
            assert Join(bucketNamespace, "@") == segments[0];
            JoinedPartsAbsent(bucketNamespace, "@", '/');
          }
          Ok(ObjectStorageName(bucketNamespace[1], bucketNamespace[0], Join(segments[1..], "/")))
  }

  /** A character absent from a joined string is absent from every part. */
  lemma {:induction false} JoinedPartsAbsent(parts: seq<string>, sep: string, c: char)
    requires c !in Join(parts, sep)
    ensures forall i :: 0 <= i < |parts| ==> c !in parts[i]
  {
    if |parts| >= 2 {
      var rest := Join(parts[1..], sep);
      assert Join(parts, sep) == parts[0] + sep + rest;
      assert forall k :: 0 <= k < |parts[0]| ==> parts[0][k] == Join(parts, sep)[k];
      assert forall k :: 0 <= k < |rest| ==> rest[k] == Join(parts, sep)[|parts[0]| + |sep| + k];
      JoinedPartsAbsent(parts[1..], sep, c);
      assert forall i :: 1 <= i < |parts| ==> parts[i] == parts[1..][i - 1];
    }
  }

  /** Where the older validator accepts a path, the parser in use agrees
      with it on the bucket and the object name; its namespace is the
      older one's up to the second '@', so the two agree whenever the
      first segment holds a single '@'. */
  lemma ParsePathAgreesWithParsePath2(path: string)
    ensures ParsePath(path).Ok? ==>
      var older := ParsePath(path).value;
      var now := ParsePath2(SplitOn(path, "://")[1]);
      && now.bucket == older.bucket
      && now.objectName == older.objectName
      && older.namespace == Partition(now.namespace, '@').0
      && ('@' !in now.namespace ==> now.namespace == older.namespace)
  {
    if ParsePath(path).Ok? {
      var s := SplitOn(path, "://")[1];
      SplitCount(s, '/');
      var segments := SplitChar(s, '/');
      var (head, _, tail) := Partition(s, '/');
      assert segments[1..] == SplitChar(tail, '/');
      assert segments[1..] == [tail];
      var bucketNamespace := SplitChar(head, '@');
      var (b, _, ns) := Partition(head, '@');
      assert bucketNamespace[1..] == SplitChar(ns, '@');
    }
  }
}
