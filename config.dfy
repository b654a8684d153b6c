/** The YAML configuration of the mirror: the defaults filled in after decoding
    (internal/config/config.go, LoadFromFile) and the validation chain
    (Validate, validateStorageConfig). Decoding and file reading are not modelled. */
module Config {
  import opened Results

  /** One storage endpoint. `kind` is the YAML field `type` ("s3" or "minio"). */
  datatype StorageConfig = StorageConfig(
    kind: string,
    bucket: string,
    region: string,
    endpoint: string,
    accessKeyId: string,
    secretAccessKey: string,
    useSsl: bool,
    prefix: string)

  datatype Config = Config(
    source: StorageConfig,
    target: StorageConfig,
    workers: int,
    dryRun: bool,
    verbose: bool)

  const DefaultWorkers := 10
  const DefaultKind := "s3"
  const DefaultRegion := "us-east-1"

  // ---------------------------------------------------------------------------
  // Defaulting
  // ---------------------------------------------------------------------------

  /** The defaults one endpoint receives: an empty type becomes "s3", and an
      "s3" endpoint (after that) without a region gets "us-east-1". */
  function EndpointDefaults(e: StorageConfig): (d: StorageConfig)
    ensures e.kind != "" ==> d.kind == e.kind
    ensures e.kind == "" ==> d.kind == DefaultKind
    ensures d.region != e.region <==> (e.kind == "" || e.kind == "s3") && e.region == ""
    ensures d.region != e.region ==> d.region == DefaultRegion
    ensures e.kind == "minio" ==> d == e
    ensures d.(kind := e.kind, region := e.region) == e
  {
    var typed := if e.kind == "" then e.(kind := DefaultKind) else e;
    if typed.kind == "s3" && typed.region == "" then typed.(region := DefaultRegion) else typed
  }

  /** The configuration `LoadFromFile` returns for a decoded one. */
  function WithDefaults(c: Config): (d: Config)
    ensures c.workers == 0 ==> d.workers == DefaultWorkers
    ensures c.workers != 0 ==> d.workers == c.workers
    ensures d.source == EndpointDefaults(c.source)
    ensures d.target == EndpointDefaults(c.target)
    ensures d.dryRun == c.dryRun && d.verbose == c.verbose
  {
    Config(
      EndpointDefaults(c.source),
      EndpointDefaults(c.target),
      if c.workers == 0 then DefaultWorkers else c.workers,
      c.dryRun,
      c.verbose)
  }

  /** The defaulting block of LoadFromFile, updating the decoded value field
      by field in the order the source does. */
  method ApplyDefaults(decoded: Config) returns (cfg: Config)
    ensures cfg == WithDefaults(decoded)
  {
    cfg := decoded;
    if cfg.workers == 0 {
      cfg := cfg.(workers := DefaultWorkers);
    }
    if cfg.source.kind == "" {
      cfg := cfg.(source := cfg.source.(kind := DefaultKind));
    }
    if cfg.target.kind == "" {
      cfg := cfg.(target := cfg.target.(kind := DefaultKind));
    }
    if cfg.source.kind == "s3" && cfg.source.region == "" {
      cfg := cfg.(source := cfg.source.(region := DefaultRegion));
    }
    if cfg.target.kind == "s3" && cfg.target.region == "" {
      cfg := cfg.(target := cfg.target.(region := DefaultRegion));
    }
  }

  // ---------------------------------------------------------------------------
  // Validation
  // ---------------------------------------------------------------------------

  /** What `validateStorageConfig` accepts, stated independently of its order. */
  predicate EndpointValid(e: StorageConfig)
  {
    && (e.kind == "s3" || e.kind == "minio")
    && e.bucket != ""
    && (e.kind == "minio" ==> e.endpoint != "" && e.accessKeyId != "" && e.secretAccessKey != "")
  }

  /** What `Validate` accepts. */
  predicate ConfigValid(c: Config)
  {
    EndpointValid(c.source) && EndpointValid(c.target) && 1 <= c.workers <= 100
  }

  /** The message `errors.New(name + ": " + reason)` carries. */
  function Prefixed(name: string, reason: string): (m: string)
    ensures name + ": " <= m
  {
    var head := name + ": ";
    assert (head + reason)[..|head|] == head;
    head + reason
  }

  function ValidateStorageConfig(name: string, e: StorageConfig): (r: Result<()>)
    ensures r.Ok? <==> EndpointValid(e)
    ensures r.Err? ==> name + ": " <= r.error
    // the first failing check, in the order type, bucket, endpoint, access key, secret key
    ensures e.kind != "s3" && e.kind != "minio" ==>
      r == Err(Prefixed(name, "type must be 's3' or 'minio'"))
    ensures (e.kind == "s3" || e.kind == "minio") && e.bucket == "" ==>
      r == Err(Prefixed(name, "bucket cannot be empty"))
    ensures e.kind == "minio" && e.bucket != "" && e.endpoint == "" ==>
      r == Err(Prefixed(name, "endpoint is required for MinIO"))
    ensures e.kind == "minio" && e.bucket != "" && e.endpoint != "" && e.accessKeyId == "" ==>
      r == Err(Prefixed(name, "access_key_id is required for MinIO"))
    ensures (e.kind == "minio" && e.bucket != "" && e.endpoint != "" && e.accessKeyId != ""
             && e.secretAccessKey == "") ==>
      r == Err(Prefixed(name, "secret_access_key is required for MinIO"))
  {
    if e.kind != "s3" && e.kind != "minio" then Err(Prefixed(name, "type must be 's3' or 'minio'"))
    else if e.bucket == "" then Err(Prefixed(name, "bucket cannot be empty"))
    else if e.kind == "minio" && e.endpoint == "" then Err(Prefixed(name, "endpoint is required for MinIO"))
    else if e.kind == "minio" && e.accessKeyId == "" then Err(Prefixed(name, "access_key_id is required for MinIO"))
    else if e.kind == "minio" && e.secretAccessKey == "" then Err(Prefixed(name, "secret_access_key is required for MinIO"))
    else Ok(())
  }

  function Validate(c: Config): (r: Result<()>)
    ensures r.Ok? <==> ConfigValid(c)
    ensures r.Ok? ==> 1 <= c.workers <= 100
    ensures !EndpointValid(c.source) ==> r == ValidateStorageConfig("source", c.source)
    ensures !EndpointValid(c.source) ==> r.Err? && "source: " <= r.error
    ensures EndpointValid(c.source) && !EndpointValid(c.target) ==> r == ValidateStorageConfig("target", c.target)
    ensures EndpointValid(c.source) && !EndpointValid(c.target) ==> r.Err? && "target: " <= r.error
    ensures EndpointValid(c.source) && EndpointValid(c.target) && c.workers < 1 ==>
      r == Err("workers must be at least 1")
    ensures EndpointValid(c.source) && EndpointValid(c.target) && c.workers > 100 ==>
      r == Err("workers cannot exceed 100")
  {
    var source := ValidateStorageConfig("source", c.source);
    if source.Err? then source
    else
      var target := ValidateStorageConfig("target", c.target);
      if target.Err? then target
      else if c.workers < 1 then Err("workers must be at least 1")
      else if c.workers > 100 then Err("workers cannot exceed 100")
      else Ok(())
  }

  // ---------------------------------------------------------------------------
  // Properties of defaulting and validation together
  // ---------------------------------------------------------------------------

  /** Defaulting a second time changes nothing. */
  lemma DefaultsIdempotent(c: Config)
    ensures WithDefaults(WithDefaults(c)) == WithDefaults(c)
  {
  }

  /** Defaulting never overwrites a field that was already set. */
  lemma DefaultsKeepSetFields(c: Config)
    requires c.workers != 0
    requires c.source.kind != "" && c.source.region != ""
    requires c.target.kind != "" && c.target.region != ""
    ensures WithDefaults(c) == c
  {
    assert WithDefaults(c).source == c.source;
    assert WithDefaults(c).target == c.target;
  }

  /** A negative worker count survives defaulting and is then rejected; zero is
      replaced by ten, which passes both worker bounds. */
  lemma DefaultedWorkerBounds(c: Config)
    ensures c.workers < 0 ==> Validate(WithDefaults(c)).Err?
    ensures c.workers == 0 ==> 1 <= WithDefaults(c).workers <= 100
  {
  }

  /** An endpoint without a type validates as an "s3" endpoint after defaulting:
      only a bucket is needed, never the MinIO credentials. */
  lemma UntypedEndpointIsS3(e: StorageConfig)
    requires e.kind == ""
    ensures EndpointValid(EndpointDefaults(e)) <==> e.bucket != ""
    ensures EndpointDefaults(e).region != ""
  {
  }
}
