/** The records that flow from the providers to the index page. */
module Objects {

  /** One listed item: the `object` struct of main.go (its int64 size is an int here). */
  datatype Object = Object(name: string, baseURL: string, size: int)

  /** The `storage.Query` the index builder hands to `List`; only its prefix is set. */
  datatype Query = Query(prefix: string)

  /**
   * What one call of a provider's `List` ends in: the files with a nil error,
   * a non-nil error (and nil files), or the process exiting inside `List`
   * (logrus.Fatalf), after which nothing else runs.
   */
  datatype Listing = Listed(files: seq<Object>) | ListFailed(err: string) | Fatal(msg: string)

  /** Every record links to the same bucket base URL. */
  predicate AllStamped(files: seq<Object>, baseURL: string) {
    forall k :: 0 <= k < |files| ==> files[k].baseURL == baseURL
  }
}
