/**
 * Provider construction and the `cloud` interface (provider.go): parsing the
 * bucket argument, deriving base URLs and the S3 endpoint, and choosing the
 * provider. SDK clients and sessions are not modelled; the listing SDKs are
 * handed to `List` instead.
 */
module Provider {
  import opened Wrappers
  import opened Objects
  import opened GoStrings
  import S3
  import Gcs

  const S3Marker := "s3://"
  const GcsMarker := "gcs://"
  /** Appended to a GCS bucket name to reach its public objects. */
  const GcsDomain := ".storage.googleapis.com"
  /** A bucket whose name contains this is served under its own domain. */
  const CustomDomain := "j3ss.co"

  /** The listing services of both SDKs, as one build sees them. */
  datatype Sdk = Sdk(s3: S3.Service, gcs: Gcs.Service)

  /** The `cloud` interface: exactly the two providers. */
  datatype Cloud = S3Cloud(s3p: S3.S3Provider) | GcsCloud(gcsp: Gcs.GcsProvider) {

    function Prefix(): string {
      match this
      case S3Cloud(p) => p.Prefix()
      case GcsCloud(p) => p.Prefix()
    }

    function BaseURL(): string {
      match this
      case S3Cloud(p) => p.BaseURL()
      case GcsCloud(p) => p.BaseURL()
    }

    /** What the provider's List answers, given what its SDK answers. */
    function ListResult(prefix: string, delimiter: string, max: int, q: Query, sdk: Sdk): Listing {
      match this
      case S3Cloud(p) => S3.Collect(sdk.s3(S3.ListRequest(p.bucket, delimiter, prefix, max)), p.baseURL)
      case GcsCloud(p) => Gcs.Drain(sdk.gcs(p.bucket, q), p.baseURL)
    }

    /** Dispatch of `List` to the provider: S3 never reports an error, GCS never exits. */
    method List(prefix: string, delimiter: string, marker: string, max: int, q: Query, sdk: Sdk)
      returns (r: Listing)
      ensures r == ListResult(prefix, delimiter, max, q, sdk)
      ensures S3Cloud? ==> !r.ListFailed?
      ensures GcsCloud? ==> !r.Fatal?
    {
      match this
      case S3Cloud(p) => r := p.List(prefix, delimiter, marker, max, q, sdk.s3);
      case GcsCloud(p) => r := p.List(prefix, delimiter, marker, max, q, sdk.gcs);
    }
  }

  /** The bucket argument without its `s3://` marker and then its `gcs://` marker. */
  function StripMarkers(raw: string): (s: string)
    ensures HasSuffix(raw, s)
  {
    TrimPrefix(TrimPrefix(raw, S3Marker), GcsMarker)
  }

  /**
   * cleanBucketName: the bucket (before the first '/') and the prefix (after
   * it), or the whole stripped string and "/" when it has no '/'.
   */
  function CleanBucketName(raw: string): (r: (string, string))
    ensures '/' !in r.0
    ensures '/' !in StripMarkers(raw) ==> r == (StripMarkers(raw), "/")
    ensures '/' in StripMarkers(raw) ==> r.0 + "/" + r.1 == StripMarkers(raw)
  {
    var bucket := StripMarkers(raw);
    var parts := SplitN2(bucket, '/');
    if |parts| == 1 then (bucket, "/") else (parts[0], parts[1])
  }

  /**
   * The split happens at the first '/': whatever text without '/' comes before
   * a '/' is the bucket, and everything after it, later slashes included, is
   * the prefix.
   */
  lemma SplitAtFirstSlash(raw: string, bucket: string, prefix: string)
    requires StripMarkers(raw) == bucket + "/" + prefix && '/' !in bucket
    ensures CleanBucketName(raw) == (bucket, prefix)
  {
    var s, r := StripMarkers(raw), CleanBucketName(raw);
    assert s[|bucket|] == '/';
    assert s[|r.0|] == '/';
    assert forall k :: 0 <= k < |bucket| ==> s[k] == bucket[k];
    assert forall k :: 0 <= k < |r.0| ==> s[k] == r.0[k];
    assert |r.0| == |bucket|;
    assert r.0 == s[..|bucket|] == bucket;
    assert r.1 == s[|bucket| + 1..] == prefix;
  }

  /** Both markers hold a '/', so text without one carries no marker. */
  lemma UnmarkedWithoutSlash(b: string)
    requires '/' !in b
    ensures StripMarkers(b) == b
  {
    assert |b| >= |S3Marker| ==> b[..|S3Marker|][3] != S3Marker[3];
    assert TrimPrefix(b, S3Marker) == b;
    assert |b| >= |GcsMarker| ==> b[..|GcsMarker|][4] != GcsMarker[4];
  }

  /** Parsing a parsed bucket again gives it back unchanged with prefix "/". */
  lemma BucketReparses(raw: string)
    ensures var b := CleanBucketName(raw).0; CleanBucketName(b) == (b, "/")
  {
    UnmarkedWithoutSlash(CleanBucketName(raw).0);
  }

  /** One marker is removed, once; a marked bucket path parses like the path itself. */
  lemma MarkerRemovedOnce(path: string)
    requires !HasPrefix(path, S3Marker) && !HasPrefix(path, GcsMarker)
    ensures StripMarkers(path) == path
    ensures StripMarkers(S3Marker + path) == path
    ensures StripMarkers(GcsMarker + path) == path
  {
    assert (S3Marker + path)[..|S3Marker|] == S3Marker;
    assert (S3Marker + path)[|S3Marker|..] == path;
    assert (GcsMarker + path)[..|GcsMarker|] == GcsMarker;
    assert (GcsMarker + path)[|GcsMarker|..] == path;
    assert (GcsMarker + path)[0] != S3Marker[0];
  }

  /** `s3://` is stripped before `gcs://`, so an `s3://` after `gcs://` stays. */
  lemma MarkerOrder(path: string)
    requires !HasPrefix(path, S3Marker) && !HasPrefix(path, GcsMarker)
    ensures StripMarkers(S3Marker + GcsMarker + path) == path
    ensures StripMarkers(GcsMarker + S3Marker + path) == S3Marker + path
  {
    var s := S3Marker + GcsMarker + path;
    assert s[..|S3Marker|] == S3Marker && s[|S3Marker|..] == GcsMarker + path;
    var g := GcsMarker + path;
    assert g[..|GcsMarker|] == GcsMarker && g[|GcsMarker|..] == path;
    var t := GcsMarker + S3Marker + path;
    assert t[..|GcsMarker|] == GcsMarker && t[|GcsMarker|..] == S3Marker + path;
    assert t[0] != S3Marker[0];
  }

  /** The example bucket argument of an S3 deployment. */
  lemma CleanBucketExample()
    ensures CleanBucketName("s3://mybucket/docs") == ("mybucket", "docs")
  {
    var raw, path := "s3://mybucket/docs", "mybucket/docs";
    assert raw[..5] == S3Marker && raw[5..] == path;
    assert path[0] != GcsMarker[0];
    assert StripMarkers(raw) == "mybucket" + "/" + "docs";
    SplitAtFirstSlash(raw, "mybucket", "docs");
  }

  /** The credentials tried in order: the given key pair, the environment, the shared file. */
  datatype Credential = Static(accessKey: string, secretKey: string) | Environment | SharedFile

  datatype AwsConfig = AwsConfig(endpoint: string, region: string, credentials: seq<Credential>)

  /** The S3 endpoint host for a region: "s3.<region>.<endpoint>". */
  function S3Endpoint(region: string, endpoint: string): string {
    "s3." + region + "." + endpoint
  }

  /** newAwsConfig: the regional endpoint, the region, and the credential chain. */
  function NewAwsConfig(endpoint: string, region: string, accessKey: string, secretKey: string): (c: AwsConfig)
    ensures c.endpoint == S3Endpoint(region, endpoint)
    ensures HasPrefix(c.endpoint, "s3." + region + ".") && HasSuffix(c.endpoint, endpoint)
    ensures c.region == region
    ensures c.credentials == [Static(accessKey, secretKey), Environment, SharedFile]
  {
    var host := S3Endpoint(region, endpoint);
    assert host[..|"s3." + region + "."|] == "s3." + region + ".";
    AwsConfig(host, region, [Static(accessKey, secretKey), Environment, SharedFile])
  }

  /** The GCS base URL: the bucket name, with the storage domain unless it names a custom domain. */
  function GcsBaseURL(bucket: string): (url: string)
    ensures HasPrefix(url, bucket)
    ensures url == bucket <==> Contains(bucket, CustomDomain)
    ensures url != bucket ==> url == bucket + GcsDomain
  {
    var url := if Contains(bucket, CustomDomain) then bucket else bucket + GcsDomain;
    assert url[..|bucket|] == bucket;
    url
  }

  /**
   * The provider newProvider settles on: the S3 provider for "s3", otherwise
   * the GCS provider unless its client cannot be created.
   */
  function ProviderFor(provider: string, bucket: string, s3Endpoint: string, s3Region: string,
                       gcsClientErr: Option<string>): Result<Cloud>
  {
    var (b, prefix) := CleanBucketName(bucket);
    if provider == "s3" then Ok(S3Cloud(S3.S3Provider(b, prefix, b + "." + S3Endpoint(s3Region, s3Endpoint))))
    else if gcsClientErr.Some? then Err(gcsClientErr.value)
    else Ok(GcsCloud(Gcs.GcsProvider(b, prefix, GcsBaseURL(b))))
  }

  /**
   * newProvider: "s3" builds the S3 provider; any other name builds the GCS
   * provider, which fails only when its client cannot be created.
   */
  method NewProvider(provider: string, bucket: string, s3Endpoint: string, s3Region: string,
                     s3AccessKey: string, s3SecretKey: string, gcsClientErr: Option<string>)
    returns (r: Result<Cloud>)
    ensures r == ProviderFor(provider, bucket, s3Endpoint, s3Region, gcsClientErr)
    ensures r.Ok? ==> (r.value.S3Cloud? <==> provider == "s3")
    ensures r.Err? <==> provider != "s3" && gcsClientErr.Some?
    ensures r.Err? ==> r.msg == gcsClientErr.value
    ensures r.Ok? ==> r.value.Prefix() == CleanBucketName(bucket).1
    ensures r.Ok? && r.value.S3Cloud? ==>
              var b := CleanBucketName(bucket).0;
              r.value.s3p.bucket == b && r.value.BaseURL() == b + "." + S3Endpoint(s3Region, s3Endpoint)
    ensures r.Ok? && r.value.GcsCloud? ==>
              var b := CleanBucketName(bucket).0;
              r.value.gcsp.bucket == b && r.value.BaseURL() == GcsBaseURL(b)
  {
    var (b, prefix) := CleanBucketName(bucket);

    if provider == "s3" {
      var conf := NewAwsConfig(s3Endpoint, s3Region, s3AccessKey, s3SecretKey);
      var p := S3.S3Provider(b, prefix, "");
      p := p.(baseURL := p.bucket + "." + conf.endpoint);
      return Ok(S3Cloud(p));
    }

    if gcsClientErr.Some? {
      return Err(gcsClientErr.value);
    }
    var p := Gcs.GcsProvider(b, prefix, "");
    p := p.(baseURL := p.bucket);
    if !Contains(p.bucket, CustomDomain) {
      p := p.(baseURL := p.baseURL + GcsDomain);
    }
    assert p.baseURL == GcsBaseURL(b);
    return Ok(GcsCloud(p));
  }
}
