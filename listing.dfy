/** Listing: the `ls` page loop, the request `_get_page_data` sends and the
    entries `_generate_results` builds from a page. */
module Listing {
  import opened Common
  import opened Text
  import opened Paths

  /** One object of a `list_objects` page (the fields the request asks for). */
  datatype ObjectSummary = ObjectSummary(name: string, size: Option<int>, etag: Option<string>, md5: Option<string>)

  /** A `list_objects` page; `nextStartWith` is `None` on the last page. */
  datatype ListPage = ListPage(objects: seq<ObjectSummary>, nextStartWith: Option<string>)

  /** What the backend answers to one `list_objects` request. */
  datatype ListReply = Listed(page: ListPage) | ListFailed(error: Failure)

  /** The arguments of a `list_objects` call. There is no field for a
      continuation token or a delimiter because `_get_page_data` sends none. */
  datatype ListRequest = ListRequest(namespace: string, bucket: string, prefix: string, fields: string, limit: int)

  /** The request `_get_page_data` sends for an address: the object name is
      the prefix, as it is, and the same request is sent for every page. */
  function PageRequest(osn: ObjectStorageName, limit: int): ListRequest
  {
    ListRequest(osn.namespace, osn.bucket, osn.objectName, "name,size,etag,md5", limit)
  }

  /** The request `ls` sends for a path: the prefix is the text after the
      first '/' without its trailing slashes, and the bucket is the text
      before the first '@' of the first segment. */
  lemma PageRequestOfPath(path: string, limit: int)
    ensures var r := PageRequest(ParsePath2(path), limit);
      && r.prefix == RStrip(Partition(path, '/').2, '/')
      && ('/' !in path ==> r.prefix == "")
      && '@' !in r.bucket && '/' !in r.bucket && '/' !in r.namespace
      && Partition(path, '/').0 == (if '@' in Partition(path, '/').0 then r.bucket + "@" + r.namespace else r.bucket)
      && r.fields == "name,size,etag,md5" && r.limit == limit
  {
  }

  /** The entry `_generate_results` builds for one listed object. */
  function ObjectEntry(osn: ObjectStorageName, item: ObjectSummary, detail: bool): Entry
  {
    if !detail then map["name" := Str(FileName(osn, item.name))]
    else map["name" := Str(FileName(osn, item.name)),
             "size" := match item.size case Some(n) => Int(n) case None => Null,
             "etag" := OptionalStr(item.etag),
             "md5" := OptionalStr(item.md5),
             "type" := Str("file")]
  }

  /** `_generate_results`: the entries of one page's objects. */
  function GenerateResults(objects: seq<ObjectSummary>, osn: ObjectStorageName, detail: bool): (r: seq<Entry>)
    ensures |r| == |objects|
  {
    seq(|objects|, i requires 0 <= i < |objects| => ObjectEntry(osn, objects[i], detail))
  }

  /** `_generate_results` gives one entry per listed object, in order,
      named `bucket@namespace/<object name>`; with `detail` false an entry
      holds only the name, otherwise also size, etag, md5 and the type 'file'. */
  lemma GenerateResultsEntries(objects: seq<ObjectSummary>, osn: ObjectStorageName, detail: bool)
    ensures var r := GenerateResults(objects, osn, detail);
      && |r| == |objects|
      && (forall i :: 0 <= i < |r| ==> "name" in r[i] && r[i]["name"] == Str(FileName(osn, objects[i].name)))
      && (!detail ==> forall i :: 0 <= i < |r| ==> r[i].Keys == {"name"})
      && (detail ==> forall i :: 0 <= i < |r| ==>
            && r[i].Keys == {"name", "size", "etag", "md5", "type"}
            && r[i]["type"] == Str("file")
            && r[i]["size"] == (match objects[i].size case Some(n) => Int(n) case None => Null)
            && r[i]["etag"] == OptionalStr(objects[i].etag)
            && r[i]["md5"] == OptionalStr(objects[i].md5))
  {
  }

  /** The results of consecutive pages are the results of their objects together. */
  lemma GenerateResultsConcat(a: seq<ObjectSummary>, b: seq<ObjectSummary>, osn: ObjectStorageName, detail: bool)
    ensures GenerateResults(a + b, osn, detail) == GenerateResults(a, osn, detail) + GenerateResults(b, osn, detail)
  {
    var l := GenerateResults(a + b, osn, detail);
    var r := GenerateResults(a, osn, detail) + GenerateResults(b, osn, detail);
    assert |l| == |r|;
    forall i | 0 <= i < |l| ensures l[i] == r[i] {
      if i < |a| { assert (a + b)[i] == a[i]; } else { assert (a + b)[i] == b[i - |a|]; }
    }
  }

  /** A reply after which the page loop does not ask again. */
  predicate Stops(reply: ListReply)
  {
    reply.ListFailed? || reply.page.nextStartWith.None?
  }

  /** `_get_page_data` on one reply: the page's entries and whether another
      page follows (`next_start_with` is not `None`); an exception from
      `list_objects` propagates. */
  function PageData(reply: ListReply, osn: ObjectStorageName, detail: bool): (r: Result<(seq<Entry>, bool), Failure>)
    ensures r.Err? <==> reply.ListFailed?
    ensures r.Err? ==> r.error == reply.error
    ensures r.Ok? ==> (r.value.1 <==> !Stops(reply)) && r.value.0 == GenerateResults(reply.page.objects, osn, detail)
  {
    match reply
    case ListFailed(e) => Err(e)
    case Listed(page) => Ok((GenerateResults(page.objects, osn, detail), page.nextStartWith.Some?))
  }


  /** From the `k`-th reply on, the backend reaches a last page or a failure. */
  predicate TerminatesFrom(replies: seq<ListReply>, k: nat)
  {
    exists i :: k <= i < |replies| && Stops(replies[i])
  }

  predicate Terminates(replies: seq<ListReply>)
  {
    TerminatesFrom(replies, 0)
  }

  /** How many pages the loop reads from the `k`-th reply on: up to and
      including the first reply that stops it. */
  function PagesReadFrom(replies: seq<ListReply>, k: nat): (n: nat)
    requires TerminatesFrom(replies, k)
    ensures 1 <= n && k + n <= |replies| && Stops(replies[k + n - 1])
    ensures forall i :: k <= i < k + n - 1 ==> !Stops(replies[i])
    decreases |replies| - k
  {
    if Stops(replies[k]) then 1 else 1 + PagesReadFrom(replies, k + 1)
  }

  function PagesRead(replies: seq<ListReply>): (n: nat)
    requires Terminates(replies)
  {
    PagesReadFrom(replies, 0)
  }

  /** The first reply that stops the loop determines how many pages were read. */
  lemma PagesReadIs(replies: seq<ListReply>, n: nat)
    requires 1 <= n <= |replies| && Stops(replies[n - 1])
    requires forall i :: 0 <= i < n - 1 ==> !Stops(replies[i])
    ensures Terminates(replies) && PagesRead(replies) == n
  {
    assert Stops(replies[n - 1]);
  }

  /** Every page request of `ls` is the same, with no continuation token, so
      against a backend that answers the same request alike the loop reads
      exactly one page or never ends. */
  lemma SameReplyEveryPage(replies: seq<ListReply>)
    requires |replies| > 0 && forall i :: 0 <= i < |replies| ==> replies[i] == replies[0]
    ensures Terminates(replies) <==> Stops(replies[0])
    ensures Terminates(replies) ==> PagesRead(replies) == 1
  {
    if Stops(replies[0]) {
      PagesReadIs(replies, 1);
    }
  }

  /** What `ls` returns, from its `k`-th request on, for the replies the
      backend gives in order. */
  function DrainFrom(replies: seq<ListReply>, k: nat, osn: ObjectStorageName, detail: bool): Result<seq<Entry>, Failure>
    requires TerminatesFrom(replies, k)
    decreases |replies| - k
  {
    match replies[k]
    case ListFailed(e) => Err(e)
    case Listed(page) =>
      var entries := GenerateResults(page.objects, osn, detail);
      if page.nextStartWith.None? then Ok(entries)
      else Prefixed(entries, DrainFrom(replies, k + 1, osn, detail))
  }

  function Drain(replies: seq<ListReply>, osn: ObjectStorageName, detail: bool): Result<seq<Entry>, Failure>
    requires Terminates(replies)
  {
    DrainFrom(replies, 0, osn, detail)
  }

  /** One turn of the page loop: what the `k`-th reply contributes. */
  lemma DrainStep(replies: seq<ListReply>, k: nat, osn: ObjectStorageName, detail: bool)
    requires TerminatesFrom(replies, k)
    ensures replies[k].ListFailed? ==> DrainFrom(replies, k, osn, detail) == Err(replies[k].error)
    ensures replies[k].Listed? && replies[k].page.nextStartWith.None? ==>
      DrainFrom(replies, k, osn, detail) == Ok(GenerateResults(replies[k].page.objects, osn, detail))
    ensures replies[k].Listed? && replies[k].page.nextStartWith.Some? ==>
      && TerminatesFrom(replies, k + 1)
      && DrainFrom(replies, k, osn, detail)
         == Prefixed(GenerateResults(replies[k].page.objects, osn, detail), DrainFrom(replies, k + 1, osn, detail))
  {
  }

  /** One turn of `ls`'s loop on the `k`-th reply, for a listing `total`
      still owed after the entries gathered so far. */
  lemma PageStep(replies: seq<ListReply>, k: nat, osn: ObjectStorageName, detail: bool,
                 results: seq<Entry>, total: Result<seq<Entry>, Failure>, page: Result<(seq<Entry>, bool), Failure>)
    requires TerminatesFrom(replies, k)
    requires total == Prefixed(results, DrainFrom(replies, k, osn, detail))
    requires page == PageData(replies[k], osn, detail)
    ensures && (page.Err? ==> PagesReadFrom(replies, k) == 1 && total == Err(page.error))
      && (page.Ok? && !page.value.1 ==> PagesReadFrom(replies, k) == 1 && total == Ok(results + page.value.0))
      && (page.Ok? && page.value.1 ==>
            && TerminatesFrom(replies, k + 1) && PagesReadFrom(replies, k) == 1 + PagesReadFrom(replies, k + 1)
            && total == Prefixed(results + page.value.0, DrainFrom(replies, k + 1, osn, detail)))
  {
    DrainStep(replies, k, osn, detail);
    if replies[k].Listed? && replies[k].page.nextStartWith.Some? {
      PrefixedTwice(results, GenerateResults(replies[k].page.objects, osn, detail), DrainFrom(replies, k + 1, osn, detail));
    }
  }

  /** `n` copies of `x`. */
  function Repeat<T>(x: T, n: nat): (r: seq<T>)
    ensures |r| == n && forall i :: 0 <= i < n ==> r[i] == x
  {
    if n == 0 then [] else Repeat(x, n - 1) + [x]
  }

  /** The entries of earlier pages put in front of a listing result. */
  function Prefixed(entries: seq<Entry>, r: Result<seq<Entry>, Failure>): Result<seq<Entry>, Failure>
  {
    match r
    case Ok(rest) => Ok(entries + rest)
    case Err(e) => Err(e)
  }

  lemma PrefixedNothing(r: Result<seq<Entry>, Failure>)
    ensures Prefixed([], r) == r
  {
    if r.Ok? { assert [] + r.value == r.value; }
  }

  lemma PrefixedTwice(a: seq<Entry>, b: seq<Entry>, r: Result<seq<Entry>, Failure>)
    ensures Prefixed(a, Prefixed(b, r)) == Prefixed(a + b, r)
  {
    if r.Ok? { assert a + (b + r.value) == (a + b) + r.value; }
  }

  /** The objects of the replies from `lo` to `hi` that are pages, in page order. */
  function ObjectsBetween(replies: seq<ListReply>, lo: nat, hi: nat): seq<ObjectSummary>
    requires lo <= hi <= |replies|
    decreases hi - lo
  {
    if lo == hi then []
    else (if replies[lo].Listed? then replies[lo].page.objects else []) + ObjectsBetween(replies, lo + 1, hi)
  }

  /** The objects of the pages `ls` reads, in page order. */
  function ObjectsOf(replies: seq<ListReply>, n: nat): seq<ObjectSummary>
    requires n <= |replies|
  {
    ObjectsBetween(replies, 0, n)
  }

  /** From its `k`-th request on, `ls` reads pages up to and including the
      first one without a continuation, and returns the entries of all
      their objects in page order; if a `list_objects` call fails first,
      its exception propagates. */
  lemma {:induction false} DrainFromIsAllPages(replies: seq<ListReply>, k: nat, osn: ObjectStorageName, detail: bool)
    requires TerminatesFrom(replies, k)
    ensures var n := PagesReadFrom(replies, k);
      DrainFrom(replies, k, osn, detail) ==
        if replies[k + n - 1].ListFailed? then Err(replies[k + n - 1].error)
        else Ok(GenerateResults(ObjectsBetween(replies, k, k + n), osn, detail))
    decreases |replies| - k
  {
    var n := PagesReadFrom(replies, k);
    if !Stops(replies[k]) {
      DrainFromIsAllPages(replies, k + 1, osn, detail);
      GenerateResultsConcat(replies[k].page.objects, ObjectsBetween(replies, k + 1, k + n), osn, detail);
    } else if replies[k].Listed? {
      assert ObjectsBetween(replies, k + 1, k + 1) == [];
      assert replies[k].page.objects + [] == replies[k].page.objects;
    }
  }

  /** `ls` reads pages up to and including the first one without a
      continuation and returns the entries of all their objects in page
      order; if a `list_objects` call fails first, its exception propagates. */
  lemma DrainIsAllPages(replies: seq<ListReply>, osn: ObjectStorageName, detail: bool)
    requires Terminates(replies)
    ensures var n := PagesRead(replies);
      Drain(replies, osn, detail) ==
        if replies[n - 1].ListFailed? then Err(replies[n - 1].error)
        else Ok(GenerateResults(ObjectsOf(replies, n), osn, detail))
  {
    DrainFromIsAllPages(replies, 0, osn, detail);
  }

  /** Every name `ls` returns parses back, with `_parse_path_2`, to the
      listed bucket and namespace and to the object's own name without its
      trailing slashes. */
  lemma LsNamesParseBack(path: string, replies: seq<ListReply>, detail: bool, entries: seq<Entry>)
    requires Terminates(replies)
    requires Drain(replies, ParsePath2(path), detail) == Ok(entries)
    ensures var osn := ParsePath2(path);
      var objects := ObjectsOf(replies, PagesRead(replies));
      && entries == GenerateResults(objects, osn, detail)
      && forall i :: 0 <= i < |entries| ==>
           && "name" in entries[i] && entries[i]["name"] == Str(FileName(osn, objects[i].name))
           && ParsePath2(FileName(osn, objects[i].name))
              == ObjectStorageName(osn.namespace, osn.bucket, RStrip(objects[i].name, '/'))
  {
    var osn := ParsePath2(path);
    DrainIsAllPages(replies, osn, detail);
    var objects := ObjectsOf(replies, PagesRead(replies));
    assert entries == GenerateResults(objects, osn, detail);
    GenerateResultsEntries(objects, osn, detail);
    forall i | 0 <= i < |entries|
      ensures ParsePath2(FileName(osn, objects[i].name))
              == ObjectStorageName(osn.namespace, osn.bucket, RStrip(objects[i].name, '/'))
    {
      ParseFileName(osn, objects[i].name);
    }
  }

  /** `ls`: parse the path, then call `list_objects` and extend the
      results with each page's entries while a continuation is reported.
      The backend's replies are given in the order it sends them;
      `requests` are the calls made. */
  method Ls(path: string, detail: bool, limit: int, replies: seq<ListReply>)
    returns (r: Result<seq<Entry>, Failure>, requests: seq<ListRequest>)
    requires Terminates(replies)
    ensures r == Drain(replies, ParsePath2(path), detail)
    ensures requests == Repeat(PageRequest(ParsePath2(path), limit), PagesRead(replies))
  {
    var osn := ParsePath2(path);
    var request := PageRequest(osn, limit);
    ghost var total := Drain(replies, osn, detail);
    ghost var pages := PagesRead(replies);
    var results: seq<Entry> := [];
    var hasMorePage := true;
    var k := 0;
    requests := [];
    PrefixedNothing(total);
    while hasMorePage
      invariant 0 <= k <= |replies|
      invariant requests == Repeat(request, k)
      invariant hasMorePage ==> && TerminatesFrom(replies, k) && pages == k + PagesReadFrom(replies, k)
                                && total == Prefixed(results, DrainFrom(replies, k, osn, detail))
      invariant !hasMorePage ==> pages == k && total == Ok(results)
      decreases |replies| - k
    {
      requests := requests + [request];
      var page := PageData(replies[k], osn, detail);
      PageStep(replies, k, osn, detail, results, total, page);
      if page.Err? {
        return Err(page.error), requests;
      }
      results, hasMorePage := results + page.value.0, page.value.1;
      k := k + 1;
    }
    r := Ok(results);
  }
}
