/**
 * The S3 provider (s3.go). The SDK call ListObjectsV2Pages is an input: a
 * Service answers each request with the pages it fetched, in order, and the
 * error that ended paging, if one did.
 */
module S3 {
  import opened Wrappers
  import opened Objects

  /** One entry of a page's `Contents`; Key and Size are pointers that may be nil. */
  datatype S3Object = S3Object(key: Option<string>, size: Option<int>)

  /** The fields of ListObjectsV2Input that List sets. */
  datatype ListRequest = ListRequest(bucket: string, delimiter: string, prefix: string, maxKeys: int)

  /** The pages the SDK delivered to the callback, then the error that stopped it, if any. */
  datatype Pages = Pages(pages: seq<seq<S3Object>>, failure: Option<string>)

  type Service = ListRequest -> Pages

  /** The record built for one S3 object: nil Key and Size read as "" and 0. */
  function ToObject(o: S3Object, baseURL: string): Object {
    Object(o.key.GetOr(""), baseURL, o.size.GetOr(0))
  }

  /** The records for a run of S3 objects, one per object and in the same order. */
  function Convert(objs: seq<S3Object>, baseURL: string): (r: seq<Object>)
    ensures |r| == |objs| && AllStamped(r, baseURL)
    ensures forall k :: 0 <= k < |objs| ==>
              r[k].name == (if objs[k].key.Some? then objs[k].key.value else "") &&
              r[k].size == (if objs[k].size.Some? then objs[k].size.value else 0)
  {
    seq(|objs|, k requires 0 <= k < |objs| => ToObject(objs[k], baseURL))
  }

  lemma ConvertAppend(a: seq<S3Object>, b: seq<S3Object>, baseURL: string)
    ensures Convert(a + b, baseURL) == Convert(a, baseURL) + Convert(b, baseURL)
  {
    assert forall k :: 0 <= k < |a + b| ==> Convert(a + b, baseURL)[k] == ToObject((a + b)[k], baseURL);
  }

  /** All pages' contents, page after page. */
  function Flatten(pages: seq<seq<S3Object>>): seq<S3Object>
  {
    if pages == [] then [] else Flatten(pages[..|pages| - 1]) + pages[|pages| - 1]
  }

  /** The sum of the page sizes. */
  function TotalSize(pages: seq<seq<S3Object>>): nat
  {
    if pages == [] then 0 else TotalSize(pages[..|pages| - 1]) + |pages[|pages| - 1]|
  }

  lemma {:induction false} FlattenLength(pages: seq<seq<S3Object>>)
    ensures |Flatten(pages)| == TotalSize(pages)
  {
    if pages != [] {
      FlattenLength(pages[..|pages| - 1]);
    }
  }

  /**
   * Order across page boundaries: entry j of page k sits in the flattened
   * sequence after every entry of the earlier pages.
   */
  lemma {:induction false} FlattenAt(pages: seq<seq<S3Object>>, k: nat, j: nat)
    requires k < |pages| && j < |pages[k]|
    ensures TotalSize(pages[..k]) + j < |Flatten(pages)|
    ensures Flatten(pages)[TotalSize(pages[..k]) + j] == pages[k][j]
  {
    var init := pages[..|pages| - 1];
    FlattenLength(pages);
    FlattenLength(init);
    if k == |pages| - 1 {
      assert pages[..k] == init;
    } else {
      assert pages[..k] == init[..k];
      FlattenAt(init, k, j);
    }
  }

  /** What List returns for the SDK's answer: every page's records, or the process exits. */
  function Collect(resp: Pages, baseURL: string): Listing
  {
    match resp.failure
    case Some(e) => Fatal(e)
    case None => Listed(Convert(Flatten(resp.pages), baseURL))
  }

  /**
   * The S3 listing: an error exits the process and nothing else does; otherwise
   * there are as many records as the pages hold together, all stamped with the
   * provider's base URL.
   */
  lemma CollectContents(resp: Pages, baseURL: string)
    ensures resp.failure.Some? <==> Collect(resp, baseURL).Fatal?
    ensures !Collect(resp, baseURL).ListFailed?
    ensures Collect(resp, baseURL).Listed? ==>
              |Collect(resp, baseURL).files| == TotalSize(resp.pages) &&
              AllStamped(Collect(resp, baseURL).files, baseURL)
  {
    FlattenLength(resp.pages);
  }

  /** Entry j of page k becomes the record after all records of the earlier pages. */
  lemma CollectAt(resp: Pages, baseURL: string, k: nat, j: nat)
    requires resp.failure.None? && k < |resp.pages| && j < |resp.pages[k]|
    ensures TotalSize(resp.pages[..k]) + j < |Collect(resp, baseURL).files|
    ensures Collect(resp, baseURL).files[TotalSize(resp.pages[..k]) + j] == ToObject(resp.pages[k][j], baseURL)
  {
    FlattenAt(resp.pages, k, j);
    var flat, i := Flatten(resp.pages), TotalSize(resp.pages[..k]) + j;
    assert Convert(flat, baseURL)[i] == ToObject(flat[i], baseURL);
  }

  /** Three pages of sizes 2, 2 and 1 give five records, in the order received. */
  lemma ThreePages(a: S3Object, b: S3Object, c: S3Object, d: S3Object, e: S3Object, baseURL: string)
    ensures Collect(Pages([[a, b], [c, d], [e]], None), baseURL) == Listed(Convert([a, b, c, d, e], baseURL))
  {
    var pages := [[a, b], [c, d], [e]];
    assert pages[..2][..1] == [[a, b]];
    assert pages[..2] == [[a, b], [c, d]];
    assert Flatten([[a, b]]) == [a, b] by {
      assert [[a, b]][..0] == [];
    }
    assert Flatten(pages) == [a, b, c, d, e];
  }

  datatype S3Provider = S3Provider(bucket: string, prefix: string, baseURL: string) {

    /** Prefix(): the stored prefix. */
    function Prefix(): string { prefix }

    /** BaseURL(): the stored base URL. */
    function BaseURL(): string { baseURL }

    /** The paging callback: appends the page's records and asks for more. */
    method OnPage(files: seq<Object>, page: seq<S3Object>) returns (files': seq<Object>, more: bool)
      ensures files' == files + Convert(page, baseURL)
      ensures more
    {
      files' := files;
      for j := 0 to |page|
        invariant files' == files + Convert(page[..j], baseURL)
      {
        ConvertAppend(page[..j], [page[j]], baseURL);
        assert page[..j + 1] == page[..j] + [page[j]];
        files' := files' + [ToObject(page[j], baseURL)];
      }
      assert page[..|page|] == page;
      more := true;
    }

    /**
     * List: one ListObjectsV2Pages request with the stored bucket and the given
     * prefix, delimiter and max; marker and q play no part. Paging runs until
     * the SDK has no more pages, since the callback always asks for more.
     */
    method List(prefix: string, delimiter: string, marker: string, max: int, q: Query, service: Service)
      returns (r: Listing)
      ensures r == Collect(service(ListRequest(bucket, delimiter, prefix, max)), baseURL)
      ensures !r.ListFailed?
      ensures r.Listed? ==> |r.files| == TotalSize(service(ListRequest(bucket, delimiter, prefix, max)).pages)
    {
      var resp := service(ListRequest(bucket, delimiter, prefix, max));
      var files: seq<Object> := [];
      var i := 0;
      var more := true;
      while i < |resp.pages| && more
        invariant 0 <= i <= |resp.pages|
        invariant more
        invariant files == Convert(Flatten(resp.pages[..i]), baseURL)
      {
        var page := resp.pages[i];
        files, more := OnPage(files, page);
        assert resp.pages[..i + 1][..i] == resp.pages[..i];
        ConvertAppend(Flatten(resp.pages[..i]), page, baseURL);
        i := i + 1;
      }
      assert resp.pages[..i] == resp.pages;
      FlattenLength(resp.pages);
      // the SDK reports the error that ended paging only once paging reached it
      var err := if i == |resp.pages| then resp.failure else None;
      if err.Some? {
        return Fatal(err.value);
      }
      return Listed(files);
    }
  }
}
