/**
 * The Google Cloud Storage provider (gcs.go). The SDK's object iterator is an
 * input: the results `Next` gives one after another. Once the sequence runs
 * out, `Next` answers Done, as an exhausted iterator does.
 */
module Gcs {
  import opened Objects

  /** One answer of `resp.Next()`: an object, iterator.Done, or another error. */
  datatype IterResult = Item(name: string, size: int) | Done | IterErr(err: string)

  /** `c.b.Objects(c.ctx, q)` for the bucket handle of a bucket name. */
  type Service = (string, Query) -> seq<IterResult>

  /** The answer of the i-th call of `Next`. */
  function Next(it: seq<IterResult>, i: nat): IterResult {
    if i < |it| then it[i] else Done
  }

  /** How many objects the iterator yields before its first Done or error. */
  function StopAt(it: seq<IterResult>): (n: nat)
    ensures n <= |it|
    ensures forall k :: 0 <= k < n ==> it[k].Item?
    ensures n < |it| ==> !it[n].Item?
  {
    if it == [] || !it[0].Item? then 0 else 1 + StopAt(it[1..])
  }

  /** The records for the first n results, all of them objects. */
  function Records(it: seq<IterResult>, n: nat, baseURL: string): (r: seq<Object>)
    requires n <= |it| && forall k :: 0 <= k < n ==> it[k].Item?
    ensures |r| == n && AllStamped(r, baseURL)
    ensures forall k :: 0 <= k < n ==> r[k].name == it[k].name && r[k].size == it[k].size
  {
    seq(n, k requires 0 <= k < n => Object(it[k].name, baseURL, it[k].size))
  }

  /** What List returns for an iterator: the objects before Done, or the first error alone. */
  function Drain(it: seq<IterResult>, baseURL: string): Listing
  {
    var n := StopAt(it);
    if n < |it| && it[n].IterErr? then ListFailed(it[n].err) else Listed(Records(it, n, baseURL))
  }

  /** The listing fails exactly when an error comes before any Done. */
  lemma DrainFailsIff(it: seq<IterResult>, baseURL: string)
    ensures Drain(it, baseURL).ListFailed? <==>
            exists k :: 0 <= k < |it| && it[k].IterErr? && forall j :: 0 <= j < k ==> it[j].Item?
  {
    var n := StopAt(it);
    if exists k :: 0 <= k < |it| && it[k].IterErr? && forall j :: 0 <= j < k ==> it[j].Item? {
      var k :| 0 <= k < |it| && it[k].IterErr? && forall j :: 0 <= j < k ==> it[j].Item?;
      assert k == n;
    }
  }

  /** Partial results are discarded: objects before an error do not reach the caller. */
  lemma ErrorDiscardsItems(items: seq<IterResult>, e: string, rest: seq<IterResult>, baseURL: string)
    requires forall k :: 0 <= k < |items| ==> items[k].Item?
    ensures Drain(items + [IterErr(e)] + rest, baseURL) == ListFailed(e)
  {
    var it := items + [IterErr(e)] + rest;
    assert it[|items|] == IterErr(e);
    assert forall k :: 0 <= k < |items| ==> it[k] == items[k];
    assert StopAt(it) == |items|;
  }

  /** Iteration stops at Done: whatever the iterator would give after it is never read. */
  lemma DoneEndsListing(items: seq<IterResult>, rest: seq<IterResult>, baseURL: string)
    requires forall k :: 0 <= k < |items| ==> items[k].Item?
    ensures Drain(items + [Done] + rest, baseURL) == Listed(Records(items, |items|, baseURL))
  {
    var it := items + [Done] + rest;
    assert it[|items|] == Done;
    assert forall k :: 0 <= k < |items| ==> it[k] == items[k];
    assert StopAt(it) == |items|;
    assert Records(it, |items|, baseURL) == Records(items, |items|, baseURL);
  }

  datatype GcsProvider = GcsProvider(bucket: string, prefix: string, baseURL: string) {

    /** Prefix(): the stored prefix. */
    function Prefix(): string { prefix }

    /** BaseURL(): the stored base URL. */
    function BaseURL(): string { baseURL }

    /**
     * List: iterates the objects that `q` selects in the stored bucket; prefix,
     * delimiter, marker and max play no part. Returns the objects in iterator
     * order once Done comes, and only the error if an error comes first.
     */
    method List(prefix: string, delimiter: string, marker: string, max: int, q: Query, service: Service)
      returns (r: Listing)
      ensures r == Drain(service(bucket, q), baseURL)
      ensures !r.Fatal?
      ensures r.Listed? ==> |r.files| == StopAt(service(bucket, q)) && AllStamped(r.files, baseURL)
    {
      var resp := service(bucket, q);
      var files: seq<Object> := [];
      var i := 0;
      while true
        invariant 0 <= i <= StopAt(resp)
        invariant files == Records(resp, i, baseURL)
        decreases |resp| - i
      {
        var f := Next(resp, i);
        if f.Done? {
          break;
        }
        if f.IterErr? {
          return ListFailed(f.err);
        }
        files := files + [Object(f.name, BaseURL(), f.size)];
        i := i + 1;
      }
      return Listed(files);
    }
  }
}
