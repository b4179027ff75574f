/**
 * The index builder and its scheduler (main.go): one build lists the bucket,
 * renders the page into a temporary file and moves it over index.html; a
 * ticker starts a new build unless one is marked as running. The filesystem
 * is reduced to the content of index.html; the template, the clock and each
 * filesystem call's outcome are inputs of a build.
 */
module StaticIndex {
  import opened Wrappers
  import opened Objects
  import Provider
  import S3
  import Gcs

  /** The page size ceiling createStaticIndex asks for. */
  const MaxKeys := 2000

  /** The `data` handed to the template. SiteURL is never set. */
  datatype PageData = PageData(siteURL: string, lastUpdated: string, files: seq<Object>)

  /** Executing the layout template into the temporary file. */
  datatype Render = Rendered(html: string) | RenderFailed(err: string)

  /**
   * How moveFile(index.html, temp) ends: opening the temporary file fails,
   * creating (truncating) index.html fails, the copy fails after `written`
   * characters, removing the temporary file fails, or all succeeds.
   */
  datatype MoveResult = OpenFailed | CreateFailed | CopyFailed(written: nat) | RemoveFailed | Moved

  /** The published index.html. */
  datatype IndexFile = Absent | File(content: string)

  datatype BuildError = ListError(err: string) | TempFileError | RenderError(err: string) | MoveError(result: MoveResult)

  /** A build returns nil, returns an error, or ends the process (inside S3 List). */
  datatype Outcome = Built | Failed(error: BuildError) | Exited(msg: string)

  /** What the world answers during one build. */
  datatype Env = Env(sdk: Provider.Sdk, tempFile: bool, now: string, render: PageData -> Render, move: MoveResult)

  datatype BuildResult = BuildResult(outcome: Outcome, index: IndexFile)

  function Min(a: nat, b: nat): nat { if a < b then a else b }

  /** index.html after moveFile copied `html` over it. */
  function Publish(index: IndexFile, html: string, move: MoveResult): IndexFile {
    match move
    case OpenFailed => index
    case CreateFailed => index
    case CopyFailed(n) => File(html[..Min(n, |html|)])
    case RemoveFailed => File(html)
    case Moved => File(html)
  }

  /** The List call of a build: the provider's prefix as prefix and delimiter, no marker, MaxKeys. */
  function BuildListing(cloud: Provider.Cloud, env: Env): Listing {
    var p := cloud.Prefix();
    cloud.ListResult(p, p, MaxKeys, Query(p), env.sdk)
  }

  /** One createStaticIndex run, from the index.html it starts with. */
  function Build(cloud: Provider.Cloud, env: Env, index: IndexFile): BuildResult {
    match BuildListing(cloud, env)
    case Fatal(msg) => BuildResult(Exited(msg), index)
    case ListFailed(e) => BuildResult(Failed(ListError(e)), index)
    case Listed(files) =>
      if !env.tempFile then BuildResult(Failed(TempFileError), index)
      else
        match env.render(PageData("", env.now, files))
        case RenderFailed(e) => BuildResult(Failed(RenderError(e)), index)
        case Rendered(html) =>
          BuildResult(if env.move.Moved? then Built else Failed(MoveError(env.move)), Publish(index, html, env.move))
  }

  /**
   * A build succeeds exactly when listing, temporary file, rendering and move
   * all succeed, and then index.html holds the page rendered from exactly the
   * listed files, in listing order.
   */
  lemma BuiltPublishesListing(cloud: Provider.Cloud, env: Env, index: IndexFile)
    ensures var b, l := Build(cloud, env, index), BuildListing(cloud, env);
            b.outcome.Built? <==>
              l.Listed? && env.tempFile && env.render(PageData("", env.now, l.files)).Rendered? && env.move.Moved?
    ensures var b, l := Build(cloud, env, index), BuildListing(cloud, env);
            b.outcome.Built? ==> b.index == File(env.render(PageData("", env.now, l.files)).html)
  {
  }

  /**
   * index.html is untouched when the build ends before moveFile (listing,
   * temporary file or rendering fails, or the process exits), and when moveFile
   * fails before it creates index.html.
   */
  lemma EarlyFailureKeepsIndex(cloud: Provider.Cloud, env: Env, index: IndexFile)
    ensures var b := Build(cloud, env, index);
            (b.outcome.Exited? || (b.outcome.Failed? && !b.outcome.error.MoveError?)) ==> b.index == index
    ensures var b := Build(cloud, env, index);
            (b.outcome.Failed? && b.outcome.error.MoveError? &&
             (b.outcome.error.result.OpenFailed? || b.outcome.error.result.CreateFailed?)) ==> b.index == index
  {
  }

  /**
   * Publishing is not atomic: a copy that fails partway leaves index.html
   * holding only the start of the new page, neither the old nor the new one.
   */
  lemma FailedCopyTruncatesIndex(cloud: Provider.Cloud, env: Env, index: IndexFile)
    requires env.move.CopyFailed?
    requires BuildListing(cloud, env).Listed? && env.tempFile
    requires env.render(PageData("", env.now, BuildListing(cloud, env).files)).Rendered?
    ensures var html := env.render(PageData("", env.now, BuildListing(cloud, env).files)).html;
            var b := Build(cloud, env, index);
            b.outcome == Failed(MoveError(env.move)) && b.index.File? &&
            b.index.content == html[..Min(env.move.written, |html|)]
  {
  }

  /**
   * A temporary file that cannot be removed fails the build although the
   * whole new page is already published.
   */
  lemma FailedRemovePublishesPage(cloud: Provider.Cloud, env: Env, index: IndexFile)
    requires env.move.RemoveFailed?
    requires BuildListing(cloud, env).Listed? && env.tempFile
    requires env.render(PageData("", env.now, BuildListing(cloud, env).files)).Rendered?
    ensures var html := env.render(PageData("", env.now, BuildListing(cloud, env).files)).html;
            Build(cloud, env, index) == BuildResult(Failed(MoveError(RemoveFailed)), File(html))
  {
  }

  /** Once index.html exists, no build removes it. */
  lemma IndexStaysPresent(cloud: Provider.Cloud, env: Env, index: IndexFile)
    requires index.File?
    ensures Build(cloud, env, index).index.File?
  {
  }

  /** Which request each provider's SDK sees during a build. */
  lemma BuildRequest(cloud: Provider.Cloud, env: Env)
    ensures cloud.S3Cloud? ==>
              BuildListing(cloud, env) ==
              S3.Collect(env.sdk.s3(S3.ListRequest(cloud.s3p.bucket, cloud.s3p.prefix, cloud.s3p.prefix, 2000)), cloud.s3p.baseURL)
    ensures cloud.GcsCloud? ==>
              BuildListing(cloud, env) == Gcs.Drain(env.sdk.gcs(cloud.gcsp.bucket, Query(cloud.gcsp.prefix)), cloud.gcsp.baseURL)
  {
  }

  /** The state the scheduler acts on between ticks. */
  datatype State = State(index: IndexFile, running: bool)

  /** The state after the ticks, processed one at a time; ticks after an exit do nothing. */
  function AfterTicks(cloud: Provider.Cloud, envs: seq<Env>, s: State): State
  {
    if envs == [] then s
    else
      var t := AfterTicks(cloud, envs[..|envs| - 1], s);
      if !t.running then t
      else
        var b := Build(cloud, envs[|envs| - 1], t.index);
        State(b.index, !b.outcome.Exited?)
  }

  /** After the process exits, later ticks change nothing. */
  lemma {:induction false} AfterExitUnchanged(cloud: Provider.Cloud, envs: seq<Env>, i: nat, s: State)
    requires i <= |envs| && !AfterTicks(cloud, envs[..i], s).running
    ensures AfterTicks(cloud, envs, s) == AfterTicks(cloud, envs[..i], s)
    decreases |envs| - i
  {
    if i < |envs| {
      assert envs[..i + 1][..i] == envs[..i];
      AfterExitUnchanged(cloud, envs, i + 1, s);
    } else {
      assert envs[..i] == envs;
    }
  }

  /** The process: the provider, the `updating` flag, index.html and whether it still runs. */
  class Server {
    const cloud: Provider.Cloud
    var updating: bool
    var index: IndexFile
    var running: bool

    /** Between builds the flag is down while the process runs. */
    ghost predicate Idle()
      reads this
    {
      running ==> !updating
    }

    constructor (cloud: Provider.Cloud, index: IndexFile)
      ensures this.cloud == cloud && this.index == index
      ensures running && !updating
    {
      this.cloud := cloud;
      this.index := index;
      running := true;
      updating := false;
    }

    /**
     * moveFile: os.Create truncates index.html, then the copy writes into it.
     * The empty File stores mark that truncation, which no later step observes.
     */
    method MoveFile(html: string, move: MoveResult) returns (ok: bool)
      modifies this`index
      ensures index == Publish(old(index), html, move)
      ensures ok == move.Moved?
    {
      match move
      case OpenFailed =>
        ok := false;
      case CreateFailed =>
        ok := false;
      case CopyFailed(n) =>
        index := File("");
        index := File(html[..Min(n, |html|)]);
        ok := false;
      case RemoveFailed =>
        index := File("");
        index := File(html);
        ok := false;
      case Moved =>
        index := File("");
        index := File(html);
        ok := true;
    }

    /**
     * createStaticIndex: raises `updating`, and lowers it only after a
     * successful move; every failure returns with it still raised.
     */
    method CreateStaticIndex(env: Env) returns (outcome: Outcome)
      requires running
      modifies this
      ensures outcome == Build(cloud, env, old(index)).outcome
      ensures index == Build(cloud, env, old(index)).index
      ensures running == !outcome.Exited?
      ensures updating == !outcome.Built?
    {
      updating := true;

      var prefix := cloud.Prefix();
      var listing := cloud.List(prefix, prefix, "", MaxKeys, Query(prefix), env.sdk);
      if listing.Fatal? {
        running := false;
        return Exited(listing.msg);
      }
      if listing.ListFailed? {
        return Failed(ListError(listing.err));
      }

      if !env.tempFile {
        return Failed(TempFileError);
      }

      var data := PageData("", env.now, listing.files);
      var page := env.render(data);
      if page.RenderFailed? {
        return Failed(RenderError(page.err));
      }

      var moved := MoveFile(page.html, env.move);
      if !moved {
        return Failed(MoveError(env.move));
      }
      updating := false;
      return Built;
    }

    /**
     * One tick of the ticker: a build unless `updating` is raised; a failed
     * build lowers the flag again.
     */
    method Tick(env: Env) returns (skipped: bool)
      requires running
      modifies this
      ensures skipped == old(updating)
      ensures old(updating) ==> index == old(index) && running && updating
      ensures !old(updating) ==>
                index == Build(cloud, env, old(index)).index &&
                running == !Build(cloud, env, old(index)).outcome.Exited? &&
                updating == !running
      ensures old(index).File? ==> index.File?
    {
      skipped := updating;
      if !updating {
        if index.File? {
          IndexStaysPresent(cloud, env, index);
        }
        var outcome := CreateStaticIndex(env);
        if outcome.Failed? {
          updating := false;
        }
      }
    }

    /**
     * The ticker loop: ticks processed one at a time until the process exits.
     * No tick ever finds `updating` raised, so none is skipped.
     */
    method RunTicks(envs: seq<Env>) returns (skips: int)
      requires Idle()
      modifies this
      ensures Idle()
      ensures skips == 0
      ensures State(index, running) == AfterTicks(cloud, envs, State(old(index), old(running)))
      ensures old(index).File? ==> index.File?
    {
      skips := 0;
      var i := 0;
      while i < |envs| && running
        invariant 0 <= i <= |envs|
        invariant Idle()
        invariant skips == 0
        invariant State(index, running) == AfterTicks(cloud, envs[..i], State(old(index), old(running)))
        invariant old(index).File? ==> index.File?
      {
        var skipped := Tick(envs[i]);
        if skipped {
          skips := skips + 1;
        }
        assert envs[..i + 1][..i] == envs[..i];
        i := i + 1;
      }
      if i < |envs| {
        AfterExitUnchanged(cloud, envs, i, State(old(index), old(running)));
      } else {
        assert envs[..i] == envs;
      }
    }
  }

  /** The settings of the command line that reach the core. */
  datatype Config = Config(provider: string, bucket: string, s3Endpoint: string, s3Region: string,
                           s3AccessKey: string, s3SecretKey: string)

  /** The Before hook: only "s3" and "gcs" name a provider. */
  function CheckProvider(provider: string): (err: Option<string>)
    ensures err.None? <==> provider == "s3" || provider == "gcs"
  {
    if provider != "s3" && provider != "gcs" then Some(provider + " is not a valid provider, try `s3` or `gcs`")
    else None
  }

  /**
   * How the program ends up: refused before starting, stopped by a fatal
   * error before serving, or serving (still running, or exited later by a
   * fatal listing error) with the given index.html.
   */
  datatype Run =
    | InvalidProvider(msg: string)
    | ProviderFailed(msg: string)
    | StartFailed(outcome: Outcome)
    | Serving(index: IndexFile)
    | Stopped(index: IndexFile)

  /** The provider start-up builds for the configuration. */
  function CloudOf(cfg: Config, gcsClientErr: Option<string>): Result<Provider.Cloud> {
    Provider.ProviderFor(cfg.provider, cfg.bucket, cfg.s3Endpoint, cfg.s3Region, gcsClientErr)
  }

  /**
   * The program's Before hook and Action: check the provider, build it, run
   * the initial build (whose failure is fatal) and then the ticks. The server
   * serves only after a successful initial build, from the index.html that
   * build published as the ticks then change it, and no tick is skipped.
   */
  method Start(cfg: Config, gcsClientErr: Option<string>, index: IndexFile, initial: Env, ticks: seq<Env>)
    returns (run: Run, skips: int)
    ensures run.InvalidProvider? <==> cfg.provider != "s3" && cfg.provider != "gcs"
    ensures run.ProviderFailed? <==> cfg.provider == "gcs" && gcsClientErr.Some?
    ensures var c := CloudOf(cfg, gcsClientErr);
            run.StartFailed? <==>
              CheckProvider(cfg.provider).None? && c.Ok? && !Build(c.value, initial, index).outcome.Built?
    ensures var c := CloudOf(cfg, gcsClientErr);
            run.StartFailed? ==> c.Ok? && run.outcome == Build(c.value, initial, index).outcome
    ensures var c := CloudOf(cfg, gcsClientErr);
            (run.Serving? || run.Stopped?) ==>
              c.Ok? && State(run.index, run.Serving?) == AfterTicks(c.value, ticks, State(Build(c.value, initial, index).index, true))
    ensures (run.Serving? || run.Stopped?) ==> run.index.File?
    ensures skips == 0
  {
    var err := CheckProvider(cfg.provider);
    if err.Some? {
      return InvalidProvider(err.value), 0;
    }

    var cloud := Provider.NewProvider(cfg.provider, cfg.bucket, cfg.s3Endpoint, cfg.s3Region,
                                      cfg.s3AccessKey, cfg.s3SecretKey, gcsClientErr);
    if cloud.Err? {
      return ProviderFailed(cloud.msg), 0;
    }

    var server := new Server(cloud.value, index);
    var outcome := server.CreateStaticIndex(initial);
    if !outcome.Built? {
      return StartFailed(outcome), 0;
    }
    BuiltPublishesListing(cloud.value, initial, index);

    skips := server.RunTicks(ticks);
    if server.running {
      run := Serving(server.index);
    } else {
      run := Stopped(server.index);
    }
  }
}
