# s3-mirror, modelled in Dafny

s3-mirror copies the objects of one bucket (optionally under a key prefix) into
another bucket, possibly on a different S3-compatible provider. It copies only
objects whose ETag differs on the target, can run as a dry run, and reports five
counters: total, copied, skipped, errors and bytes transferred.

This project models two parts of it:

- **The mirror engine** (`internal/mirror/mirror.go`). `Mirror.Service` is a class
  with a mutable `stats` field and methods `Mirror`, `Worker`, `Process` (one
  iteration of the worker loop), `CopyObject` and `Transfer` (the download/upload
  tail of copyObject). Every method is proved against pure specification
  functions: `CopyStep` gives the outcome, the new target bucket and the calls made
  for one object; `RunAll` threads these through a sequence of objects; `Tally`
  folds the outcomes into the counters; `MirrorStats` is what `Mirror` leaves.
  The lemmas in `mirror_properties.dfy` are about those functions.
- **Configuration defaulting and validation** (`internal/config/config.go`).
  `ApplyDefaults` is the in-place defaulting that follows YAML decoding, proved
  equal to the function `WithDefaults`. `Validate` and `ValidateStorageConfig`
  return the first failing check, and are characterised by the predicates
  `ConfigValid` and `EndpointValid`.

The storage backends are foreign code. `Storage.Client` stands for either backend.
Its `state` is a `Bucket` value: a catalog from key to metadata plus the faults the
environment injects (the listing fails, or a lookup, fetch or store fails for one
key). Ghost state records every call made on the client (`calls`) and the keys
of the bodies it has opened and not yet closed (`open`).

The worker pool is modelled as one sequential loop over the listed objects. The
goroutines share the counters and the target bucket. The counters change only by
atomic additions, which commute. In the target, each object touches only its own
target key, and a duplicate-free listing gives distinct target keys
(`TargetKeyInjective`, `RunFrame`), so each object's outcome is the one it would
have alone (`OutcomeIsPerObject`). So the final counters and the final target of
any interleaving are those of the sequential run.

Two behaviours of the code are worth stating:

- The counters live on the `Service` and are never reset. `Mirror` overwrites
  `TotalObjects` but adds to the other four. So "total = copied + skipped +
  errors" holds after the first `Mirror` call on a fresh `Service` and fails
  after a second one (`ReusedServiceAccounting`, `SecondMirrorOvercounts`).
- A failed target lookup of any kind (not found or otherwise) leads to a copy.
  It is never a skip and never an error by itself.

Files: `results.dfy` (Result/Option), `config.dfy` (module `Config`),
`storage.dfy` (module `Storage`), `mirror.dfy` (module `Mirror`),
`mirror_properties.dfy` (module `MirrorProperties`).

## Model

| member | source | states |
|---|---|---|
| `Config.EndpointDefaults` | internal/config/config.go:49-62 | an empty type becomes "s3" and a set type is kept; the region changes exactly when the (defaulted) type is "s3" and the region is empty, and then becomes "us-east-1"; a "minio" endpoint is untouched; no other field changes |
| `Config.WithDefaults` | internal/config/config.go:43-70 | workers 0 becomes 10 and any other value (negative included) is kept; both endpoints get `EndpointDefaults`; dry-run and verbose flags unchanged |
| `Config.ApplyDefaults` | internal/config/config.go:43-70 | the step-by-step in-place defaulting yields exactly `WithDefaults` of the decoded configuration |
| `Config.DefaultsIdempotent` | internal/config/config.go:43-70 | defaulting twice equals defaulting once |
| `Config.DefaultsKeepSetFields` | internal/config/config.go:43-62 | a configuration whose workers, types and regions are all set is left unchanged |
| `Config.DefaultedWorkerBounds` | internal/config/config.go:44-46 | a negative worker count survives defaulting and is rejected by `Validate`; zero becomes a count within 1..100 |
| `Config.UntypedEndpointIsS3` | internal/config/config.go:49-59 | an endpoint without a type is valid after defaulting iff it names a bucket, and always has a region |
| `Config.ValidateStorageConfig` | internal/config/config.go:92-111 | succeeds iff the type is exactly "s3" or "minio", the bucket is non-empty and, for "minio" only, endpoint, access key id and secret key are non-empty; otherwise returns the message of the first failing check in the order type, bucket, endpoint, access key id, secret key, prefixed with the endpoint's name |
| `Config.Validate` | internal/config/config.go:76-90 | succeeds iff both endpoints are valid and 1 <= workers <= 100; on failure reports the source endpoint's own error first, then the target endpoint's (prefixed "source: " / "target: "), then "workers must be at least 1", then "workers cannot exceed 100" |
| `Storage.Head` | internal/storage/storage.go:16 | the metadata lookup succeeds iff no fault is injected for the key and the key exists, and then reports that object |
| `Storage.Client.ListObjects` | internal/storage/storage.go:13 | fails iff the listing fault is injected; otherwise returns every object under the prefix exactly once, with its stored metadata; logs one list call |
| `Storage.Client.HeadObject` | internal/storage/storage.go:16 | answers `Head` of the bucket and logs one lookup |
| `Storage.Client.GetObject` | internal/storage/storage.go:14 | fails iff a fault is injected or the key is missing; on success returns the stored object's body and records it as open |
| `Storage.Client.Close` | internal/storage/storage.go:14 | closes an open body: removes one occurrence of its key from the open bodies |
| `Storage.Client.PutObject` | internal/storage/storage.go:15 | fails iff a fault is injected for the key and then changes nothing; otherwise stores the given size and the body's ETag under the key and changes nothing else |
| `Mirror.TargetKey` | internal/mirror/mirror.go:97-101 | the target key is target prefix + source key, so an empty prefix leaves the key unchanged |
| `Mirror.Record` | internal/mirror/mirror.go:87-141 | the counter bumps of lines 87-92, 111, 119 and 140-141: one object bumps exactly one of copied, skipped and errors, by one; skipped iff the outcome is a skip, errors iff it failed; only a real copy adds bytes, its size; the total is untouched |
| `Mirror.CopyStep` | internal/mirror/mirror.go:96-144 | skip iff the target lookup succeeds with an identical ETag; a skip makes only the lookup call and leaves the target as it was; a dry run makes only the lookup call and never fetches, stores or fails; a real copy attempt fetches first, stops after a failed fetch, and otherwise closes the body and makes exactly one store; after a failed lookup or an ETag mismatch, a real run fails at the fetch iff the fetch fault or a missing key applies, fails at the store iff the fetch succeeds and the store fault applies, and copies otherwise; a real copy stores the listed size and the source ETag under the target key and reports the listed size; a fetched body is closed |
| `Mirror.TransferStep` | internal/mirror/mirror.go:123-143 | the download/upload tail never yields a skip or a dry-run copy; it fails at the fetch iff the fetch fails, at the store iff the fetch succeeds and the store fails, copies the listed size otherwise; a failure leaves the target unchanged; a failed fetch makes no call on the target, and a successful fetch is followed by exactly one close and exactly one store |
| `Mirror.RunAll` | internal/mirror/mirror.go:72-92 | one outcome per object, and the target's injected faults are never changed |
| `Mirror.Tally` | internal/mirror/mirror.go:87-92 | folding n outcomes keeps the total and adds exactly n to copied + skipped + errors |
| `Mirror.Service.constructor` | internal/mirror/mirror.go:32-40 | a new service has all five counters at zero |
| `Mirror.Service.CopyObject` | internal/mirror/mirror.go:96-143 | does what `CopyStep` says: returns an error iff the step failed, bumps the step's counter unless it failed, leaves the target and both call logs as the step says, and closes every body it opened |
| `Mirror.Service.Transfer` | internal/mirror/mirror.go:123-143 | does what `TransferStep` says; a failed fetch returns an error prefixed "failed to get object: " and a failed store one prefixed "failed to put object: "; the body is closed after both a successful and a failed store |
| `Mirror.Service.Process` | internal/mirror/mirror.go:87-92 | one object changes the counters by `Record` of its outcome: the worker adds the error copyObject does not count |
| `Mirror.Service.Worker` | internal/mirror/mirror.go:84-93 | draining a sequence of objects leaves the counters at `Tally` of `RunAll`, the target and the call logs as `RunAll` says, and no body open |
| `Mirror.Service.Mirror` | internal/mirror/mirror.go:43-81 | fails iff listing fails, and then changes no counter, makes no other call and prefixes the error with "failed to list source objects: "; otherwise the listing is complete and duplicate-free, the counters are `MirrorStats` (total overwritten, the rest accumulated) and are returned, and no body is left open |
| `MirrorProperties.FirstMirrorAccounting` | internal/mirror/mirror.go:58-92 | on a fresh service, total = number listed = copied + skipped + errors |
| `MirrorProperties.ReusedServiceAccounting` | internal/mirror/mirror.go:58-92 | the identity holds after a Mirror call iff copied + skipped + errors were zero before it |
| `MirrorProperties.SecondMirrorOvercounts` | internal/mirror/mirror.go:58-80 | two calls on one service over a one-object bucket end with total 1, copied 1, skipped 1 |
| `MirrorProperties.TallyAllSkipped` | internal/mirror/mirror.go:111 | outcomes that are all skips add their number to skipped and change nothing else |
| `MirrorProperties.TallyWithoutTransfers` | internal/mirror/mirror.go:140-141 | without a real copy the bytes counter is unchanged |
| `MirrorProperties.DryRunTransfersNothing` | internal/mirror/mirror.go:117-121 | a dry run makes no call on the source, makes only lookups on the target and leaves it unchanged, and every outcome is a skip or a dry-run copy |
| `MirrorProperties.DryRunAddsNoBytes` | internal/mirror/mirror.go:117-121 | a dry-run Mirror leaves bytes transferred where it was |
| `MirrorProperties.TargetKeyInjective` | internal/mirror/mirror.go:98-101 | different source keys never map to the same target key |
| `MirrorProperties.DistinctTargetKeys` | internal/mirror/mirror.go:98-101 | in a duplicate-free listing the last object's target key is not that of any earlier object |
| `MirrorProperties.RunFrame` | internal/mirror/mirror.go:131 | a run changes the target only under the target keys of the objects it processed |
| `MirrorProperties.OutcomeIsPerObject` | internal/mirror/mirror.go:84-93 | for a duplicate-free listing each object's outcome equals its outcome alone against the original buckets, so one object's failure affects no other |
| `MirrorProperties.RunSynchronises` | internal/mirror/mirror.go:104-141 | a real run without faults leaves every listed object under its target key with its ETag |
| `MirrorProperties.RerunSkipsEverything` | internal/mirror/mirror.go:104-113 | against a target holding every object with its ETag, every outcome is a skip, the source sees no call and the target is unchanged |
| `MirrorProperties.MirrorIsIdempotent` | internal/mirror/mirror.go:53-141 | after a fault-free real run, a second run from fresh counters, over a listing of the unchanged source in any order, copies nothing, fails nothing, transfers nothing and skips every listed object |
| `Mirror.MirrorStats` | internal/mirror/mirror.go:58-92 | the total is overwritten with the number listed; copied, skipped and errors never decrease and together grow by exactly the number listed |
| `Mirror.TallyKeepsGrowing` | internal/mirror/mirror.go:87-92 | folding outcomes never decreases copied, skipped or errors |

## Left out

- Goroutines, the `sync.WaitGroup` and the buffered channel (internal/mirror/mirror.go:62-78): replaced by one sequential loop in listing order. The counters change only through commutative atomic additions, and each object writes only its own target key, so each outcome is the one it has alone (`OutcomeIsPerObject`, `RunFrame`) and the final counters and target are the same. Interleavings of the call logs are not modelled.
- A source and target configured on the same bucket, with prefixes such that a target key (target prefix + key) is another listed source key: `Validate` allows it, and a store could then overwrite a source object that is still to be copied, depending on order. The model keeps the two buckets as separate values.
- Storage.Client.GetObject: minio-go's `GetObject` is lazy, so a missing key on a MinIO source fails at the first read, that is during the store, not at the fetch. The model reports it as a failed fetch. The counters are the same (one error), but the outcome kind and the call log differ for that backend.
- Mirror.Service.Mirror: requires at least one worker, as `Validate` guarantees, and then processes every listed object with one sequential worker. The zero-worker case is excluded.
- Mirror.Service.constructor: requires the source and target clients to be different objects (as `cmd/s3-mirror/main.go` creates them). Aliasing one client for both sides is not modelled.
- Storage.Client.PutObject: the stored ETag is the source object's and the stored size is the size passed. Real providers compute their own ETag (multipart uploads differ), and the S3 client ignores the size argument. The stored last-modified time is the empty string. The idempotence lemmas rest on this ETag assumption.
- The concrete S3 and MinIO clients (internal/storage/s3_client.go, internal/storage/minio_client.go), the `NewClient` factory and the unused `CopyObject` client call: foreign SDK code, represented only by `Storage.Client`.
- `GetBucket`, all logging and the `Verbose` flag: they only affect log output.
- `context.Context`: no cancellation exists in the source.
- YAML decoding and file reading in `LoadFromFile` (internal/config/config.go:33-41): I/O and a foreign parser. Only the defaulting that follows is modelled. The MinIO SSL block (lines 65-70) has empty bodies and changes nothing.
- `cmd/s3-mirror/main.go`: flag parsing, printing, the MB figure (floating point) and the exit code.
- int64 width of the counters and sizes: modelled as unbounded `nat`/`int`, so overflow of `BytesTransferred` is not modelled.
