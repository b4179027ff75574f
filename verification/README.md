# s3server core in Dafny

A model of the core of s3server, a Go program that lists an S3 or Google Cloud
Storage bucket, renders the listing into `index.html` and rebuilds that page
on a timer. The model covers:

- parsing the `-bucket` argument into bucket and prefix, and deriving the S3 endpoint
  and the base URLs of both providers (`provider.dfy`);
- each provider's `List`, which folds what its SDK returns into an ordered sequence of
  object records (`s3.dfy`, `gcs.dfy`);
- the `ext` and `base` helpers given to the page template (`templates.dfy`);
- `createStaticIndex`, `moveFile`, the `updating` flag, the ticker loop and program
  start-up (`static_index.dfy`).

`go_strings.dfy` states the Go `strings` functions the core relies on; `filepath.Ext` is in
`templates.dfy`.
`objects.dfy` holds the record type shared by all of the above. `wrappers.dfy` holds
Option and Result.

How the outside world is modelled:
- The SDKs are inputs. The S3 SDK is a function from a `ListObjectsV2Input` to the pages
  it delivers, plus the error that ended paging, if any. The GCS SDK is a function from a
  bucket and a query to the results `Next` returns one after another. Past the end of that
  sequence, `Next` answers `Done`.
- Each build also takes as inputs: whether the temporary file can be created, the current
  time as text, the template rendering, and how `moveFile` ends.
- The filesystem is reduced to the content of `index.html`.
- `logrus.Fatalf` ends the process. In the model it sets `running` to false, and nothing
  runs after that.

Behaviour of the code worth knowing:
- Publication is not atomic. `moveFile` truncates `index.html` with `os.Create` and then
  copies into it. A copy that fails partway leaves a truncated page
  (`FailedCopyTruncatesIndex`).
- A temporary file that cannot be removed fails the build (main.go:248-249), although the
  full new page is already in `index.html` (`FailedRemovePublishesPage`).
- A failing S3 listing does not fail just the current build. `s3Provider.List` calls
  `logrus.Fatalf`, so the whole process exits, during start-up or on any later tick.
- `createStaticIndex` does not lower `updating` on failure. The ticker loop does that
  (main.go:124). The initial build's failure is fatal anyway.
- The list call passes the provider prefix as the delimiter too, not an empty delimiter
  (main.go:177).
- main.go:101 calls `newProvider` with five arguments, but provider.go:21 declares six. The
  missing one is `s3Endpoint`, the third parameter and the first of the four S3 settings.
  The model calls it with provider.go's six parameters.
- Pagination is not capped. In the model an SDK answer is a finite sequence of pages or
  results, so every `List` terminates.

## Model

| member | source | states |
|---|---|---|
| GoStrings.SplitN2 | provider.go:55 | `strings.SplitN(s, "/", 2)`: one piece iff `s` has no '/'; otherwise a first piece without '/', and the two pieces joined by '/' give `s` back |
| GoStrings.Split | main.go:188 | `strings.Split` yields at least one piece |
| GoStrings.SplitPieceFree | main.go:188 | no piece of `strings.Split` contains the separator |
| GoStrings.JoinSplit | main.go:188 | joining the pieces of `strings.Split` with the separator gives back the original string |
| Templates.ExtDot | main.go:185 | the backward scan of `filepath.Ext` finds a '.' that no later '.' or '/' follows |
| Templates.Ext | main.go:184-186 | `ext(name)` contains no '.' and no '/', and is a suffix of `name` |
| Templates.ExtDotIsLastDot | main.go:185 | the scan answers the last '.' exactly when it lies after the last '/', otherwise nothing |
| Templates.ExtAfterLastDot | main.go:184-186 | `ext(name)` is the text after the last '.' when that dot follows the last '/', and "" when the last element has no dot |
| Templates.Base | main.go:187-190 | `base(name)` contains no '/', and is everything after the last '/', or the whole name when there is none |
| Templates.BaseIsLastElement | main.go:187-190 | `base(name)` is a suffix of `name`, and what precedes it is empty or ends in '/' |
| Templates.TxtExample | main.go:184-190 | for "docs/a.txt", `ext` gives "txt" and `base` gives "a.txt" |
| S3.Convert | s3.go:25-31 | one record per S3 object, in order: Name is Key or "", Size is Size or 0, BaseURL is the provider's |
| S3.FlattenLength | s3.go:24-33 | the accumulated contents of all pages are as many as the page sizes add up to |
| S3.FlattenAt | s3.go:24-33 | entry j of page k lands after all entries of the earlier pages, at offset j |
| S3.CollectContents | s3.go:19-40 | the process exits iff the SDK reports an error; `List` never returns an error; otherwise there are as many records as all pages hold, each stamped with the base URL |
| S3.CollectAt | s3.go:24-31 | record number (sizes of pages before k) + j is built from entry j of page k |
| S3.ThreePages | s3.go:24-33 | pages of sizes 2, 2 and 1 give the five records in the order received |
| S3.S3Provider.OnPage | s3.go:24-34 | the paging callback appends the page's records, in page order, and always asks for more pages |
| S3.S3Provider.Prefix | s3.go:43-46 | returns the stored prefix unchanged |
| S3.S3Provider.BaseURL | s3.go:48-51 | returns the stored base URL unchanged |
| S3.S3Provider.List | s3.go:18-41 | the result is the listing of the request (stored bucket, given delimiter, prefix and max, no marker or query) over every page; never an error; the length is the sum of the page sizes |
| Gcs.StopAt | gcs.go:24-37 | counts the results before the first Done or error: all before it are objects, the one at it is not |
| Gcs.Records | gcs.go:32-36 | one record per object, in iterator order, with the object's Name and Size and the provider's BaseURL |
| Gcs.DrainFailsIff | gcs.go:24-31 | the listing fails iff an error comes before any Done |
| Gcs.ErrorDiscardsItems | gcs.go:29-31 | objects yielded before an error are discarded: the result is the error alone |
| Gcs.DoneEndsListing | gcs.go:24-28 | at Done the objects so far are returned, and nothing after Done is read |
| Gcs.GcsProvider.Prefix | gcs.go:42-45 | returns the stored prefix unchanged |
| Gcs.GcsProvider.BaseURL | gcs.go:47-50 | returns the stored base URL unchanged |
| Gcs.GcsProvider.List | gcs.go:20-40 | the result depends only on the stored bucket and `q` (not on prefix, delimiter, marker or max); the listing never exits the process; it has one record per object before Done, stamped with the base URL |
| Provider.Cloud.Prefix | provider.go:17 | answers what the chosen provider's `Prefix` answers |
| Provider.Cloud.BaseURL | provider.go:18 | answers what the chosen provider's `BaseURL` answers |
| Provider.Cloud.List | provider.go:15-19 | the interface's `List` answers what the chosen provider's `List` answers; only GCS reports errors and only S3 exits |
| Provider.StripMarkers | provider.go:53-54 | removing the markers leaves a suffix of the argument |
| Provider.CleanBucketName | provider.go:52-61 | the bucket never contains '/'; with no '/' left after the markers, the result is (that text, "/"); otherwise bucket + "/" + prefix is that text |
| Provider.SplitAtFirstSlash | provider.go:55-60 | the split is at the first '/': the text before it is the bucket, everything after it (later slashes included) is the prefix |
| Provider.UnmarkedWithoutSlash | provider.go:53-54 | text without '/' carries neither marker, so stripping leaves it unchanged |
| Provider.BucketReparses | provider.go:52-58 | parsing a returned bucket again gives (bucket, "/") |
| Provider.MarkerRemovedOnce | provider.go:53-54 | an argument with no marker passes through unchanged, and one leading `s3://` or `gcs://` is removed |
| Provider.MarkerOrder | provider.go:53-54 | `s3://` is removed before `gcs://`, each at most once: `s3://gcs://x` gives x, but `gcs://s3://x` keeps `s3://x` |
| Provider.CleanBucketExample | provider.go:52-61 | `s3://mybucket/docs` gives bucket "mybucket" and prefix "docs" |
| Provider.NewAwsConfig | provider.go:63-78 | the endpoint is exactly "s3." + region + "." + endpoint, the region is the given one, and the credential chain is the given key pair, then the environment, then the shared file, in that order |
| Provider.GcsBaseURL | provider.go:43-46 | the GCS base URL starts with the bucket, equals it iff the bucket contains "j3ss.co", and otherwise is the bucket + ".storage.googleapis.com" |
| Provider.NewProvider | provider.go:21-48 | the provider is `ProviderFor`'s; "s3" gives the S3 provider and every other name gives the GCS provider; only a failing GCS client gives an error; bucket and prefix come from `cleanBucketName`; the S3 base URL is bucket + ".s3." + region + "." + endpoint |
| StaticIndex.BuiltPublishesListing | main.go:177-226 | a build succeeds iff the listing, temporary file, rendering and move all succeed; then `index.html` holds the page rendered from exactly the listed files |
| StaticIndex.EarlyFailureKeepsIndex | main.go:177-224 | listing, temporary-file and render failures, a process exit, and move failures before `index.html` is created all leave `index.html` untouched |
| StaticIndex.FailedRemovePublishesPage | main.go:247-249 | a temporary file that cannot be removed fails the build while `index.html` already holds the whole new page |
| StaticIndex.FailedCopyTruncatesIndex | main.go:229-250 | a copy that fails after n characters leaves `index.html` holding the first n characters of the new page, and the build fails |
| StaticIndex.IndexStaysPresent | main.go:229-250 | once `index.html` exists, no build removes it |
| StaticIndex.BuildRequest | main.go:171-177 | a build lists with the provider prefix as both prefix and delimiter, max 2000, and a query on that prefix |
| StaticIndex.AfterExitUnchanged | main.go:118-128 | once the process has exited, later ticks change nothing |
| StaticIndex.Server.constructor | main.go:25-41 | the process starts running with `updating` false |
| StaticIndex.Server.MoveFile | main.go:229-250 | `index.html` after `moveFile` is unchanged, truncated to what was copied, or the new page, depending on how the move ends; success only if every step succeeds |
| StaticIndex.Server.CreateStaticIndex | main.go:167-227 | raises `updating` and lowers it only after a successful move; result, `index.html` and the running state are those of one build |
| StaticIndex.Server.Tick | main.go:120-126 | a tick with `updating` raised changes nothing; otherwise it runs a build, and after a failed build `updating` is false again |
| StaticIndex.Server.RunTicks | main.go:118-128 | processes the ticks one at a time until the process exits; `updating` is false at every tick check, so no tick is skipped; `index.html` never disappears |
| StaticIndex.CheckProvider | main.go:77-79 | a provider name is accepted iff it is "s3" or "gcs" |
| StaticIndex.Start | main.go:71-128 | refuses exactly the provider names other than "s3" and "gcs"; fails before serving exactly when the GCS client fails; stops exactly when the initial build with the chosen provider does not succeed, with that build's outcome; otherwise `index.html` and whether the process still runs are those the ticks leave, starting from the page the initial build published; serves only with an `index.html` in place; skips no tick |

## Left out

- The HTTP/TLS server, the mux, CLI flag parsing, signal handling and `os.Exit(0)` on a
  signal (main.go:43-153 apart from the parts above) are I/O and process plumbing.
- `os.Getwd` and the path joins (main.go:107-111, 207-208, 220) are left out. The model
  has a single `index.html` and no directories.
- The `size` template helper (main.go:191-193) is left out. It converts to `float64` and
  calls `units.HumanSize` from a library that is not part of this model.
- Template parsing and execution are one input function. A parse failure makes
  `template.Must` panic (main.go:214); that panic is not modelled.
- The timestamp from `time.Now().Local().Format(time.RFC1123)` (main.go:212) is an input
  string.
- The temporary file is only "could be created or not" (main.go:198-203). Its name, its
  closing and its deferred removal are not modelled.
- SDK and credential plumbing is not modelled: `s3.New`, `awsSession.New`, the credential
  chain's lookups, `storage.NewClient`, `Bucket` and `Objects`. A failing
  `storage.NewClient` is an optional error input to `NewProvider`.
- The ticker is a sequence of ticks handled one after another. Concurrency between the
  ticker goroutine and the HTTP server, and the data race on `updating`, are not modelled.
- Log messages and the texts of wrapped errors are not modelled. `Fatal` carries the SDK's
  error, and build errors carry the failing step.
- Object sizes are unbounded integers rather than `int64`. No arithmetic is done on them.
- Go strings are byte sequences; here they are sequences of characters. The code inspects
  only ASCII text ('/', '.', "s3://", "gcs://", "j3ss.co"), so for these the two agree.
- MoveResult: `CopyFailed(written)` truncates the page after `written` characters, where
  `io.Copy` (main.go:242-244) counts bytes; for a page holding non-ASCII file names the
  truncated `index.html` of `FailedCopyTruncatesIndex` is not Go's first `written` bytes.
- Templates.ExtDot: the scan stops at '/' only. On Windows `filepath.Ext` also stops at
  `\`; the model takes the '/'-separated platforms the server is deployed on.
