/** The mirror engine (internal/mirror/mirror.go): per listed source object,
    decide from the target's metadata whether to skip, then copy or pretend to,
    and fold each outcome into the service's counters.

    The source runs a pool of goroutines over a channel. They share the counters,
    changed by atomic additions, which commute, and the target bucket. Listed
    keys are distinct, so their target keys are distinct too, and each object's
    step reads and writes only its own target key (MirrorProperties.RunFrame,
    MirrorProperties.OutcomeIsPerObject). The model therefore processes the
    listed objects one after another, in listing order. */
module Mirror {
  import opened Results
  import opened Storage
  import Config

  /** The five counters of `Stats`. */
  datatype Stats = Stats(
    totalObjects: nat,
    copiedObjects: nat,
    skippedObjects: nat,
    errors: nat,
    bytesTransferred: int)

  /** The counters of a freshly created Service. */
  const NoStats := Stats(0, 0, 0, 0, 0)

  /** How the processing of one object ended. */
  datatype Outcome =
    | Skipped            // the target already holds the same ETag
    | DryRunCopied       // would have been copied; dry run
    | Copied(bytes: int) // fetched from source and stored on target
    | GetFailed          // the source fetch failed
    | PutFailed          // the target store failed

  predicate Failed(o: Outcome)
  {
    o.GetFailed? || o.PutFailed?
  }

  /** The key an object is stored under on the target. */
  function TargetKey(targetPrefix: string, key: string): (k: string)
    ensures k == targetPrefix + key
    ensures targetPrefix == "" ==> k == key
  {
    if targetPrefix != "" then targetPrefix + key else key
  }

  /** The counters after one object: exactly one of copied, skipped and errors
      goes up by one, and only a real copy adds bytes. */
  function Record(s: Stats, o: Outcome): (t: Stats)
    ensures t.totalObjects == s.totalObjects
    ensures t.copiedObjects + t.skippedObjects + t.errors
         == s.copiedObjects + s.skippedObjects + s.errors + 1
    ensures t.copiedObjects >= s.copiedObjects && t.skippedObjects >= s.skippedObjects && t.errors >= s.errors
    ensures t.skippedObjects > s.skippedObjects <==> o.Skipped?
    ensures t.errors > s.errors <==> Failed(o)
    ensures t.bytesTransferred == s.bytesTransferred + (if o.Copied? then o.bytes else 0)
  {
    match o
    case Skipped => s.(skippedObjects := s.skippedObjects + 1)
    case DryRunCopied => s.(copiedObjects := s.copiedObjects + 1)
    case Copied(n) => s.(copiedObjects := s.copiedObjects + 1, bytesTransferred := s.bytesTransferred + n)
    case GetFailed => s.(errors := s.errors + 1)
    case PutFailed => s.(errors := s.errors + 1)
  }

  /** Everything copyObject does to one object: its outcome, the target bucket
      afterwards, and the calls it makes on the source and on the target. */
  datatype Step = Step(outcome: Outcome, target: Bucket, sourceCalls: seq<Call>, targetCalls: seq<Call>)

  function CopyStep(cfg: Config.Config, obj: ObjectInfo, source: Bucket, target: Bucket): (s: Step)
    // skip iff the metadata lookup succeeds with an identical ETag
    ensures var h := Head(target, TargetKey(cfg.target.prefix, obj.key));
      s.outcome.Skipped? <==> h.Ok? && h.value.etag == obj.etag
    // a skip reads and writes no data
    ensures s.outcome.Skipped? ==>
      s.sourceCalls == [] && s.targetCalls == [HeadCall(TargetKey(cfg.target.prefix, obj.key))] && s.target == target
    // a dry run reads and writes no data and never reports a transfer or an error
    ensures cfg.dryRun ==>
      && (s.outcome.Skipped? || s.outcome.DryRunCopied?)
      && s.sourceCalls == []
      && s.targetCalls == [HeadCall(TargetKey(cfg.target.prefix, obj.key))]
      && s.target == target
    // past the skip check, a real run fails at the fetch, fails at the store, or copies
    ensures !s.outcome.Skipped? && !cfg.dryRun ==>
      && (s.outcome == GetFailed <==> GetFails(source, obj.key))
      && (s.outcome == PutFailed <==>
            !GetFails(source, obj.key) && PutFails(target, TargetKey(cfg.target.prefix, obj.key)))
      && (s.outcome == Copied(obj.size) <==>
            !GetFails(source, obj.key) && !PutFails(target, TargetKey(cfg.target.prefix, obj.key)))
    // a failed lookup or an ETag mismatch is an error only if the transfer then fails
    ensures Failed(s.outcome) ==>
      !cfg.dryRun && (GetFails(source, obj.key) || PutFails(target, TargetKey(cfg.target.prefix, obj.key)))
    ensures Failed(s.outcome) ==> s.target == target
    // a real copy stores the listed size under the target key and reports it
    ensures s.outcome.Copied? ==>
      && s.outcome.bytes == obj.size
      && var k := TargetKey(cfg.target.prefix, obj.key);
      && s.targetCalls == [HeadCall(k), PutCall(k, obj.size)]
      && obj.key in source.objects
      && s.target == target.(objects := target.objects[k := Meta(obj.size, source.objects[obj.key].etag, "")])
    // every fetched body is closed again
    ensures GetCall(obj.key) in s.sourceCalls && !s.outcome.GetFailed? ==>
      s.sourceCalls == [GetCall(obj.key), CloseCall(obj.key)]
    // a real copy attempt fetches first, and stores only what it fetched
    ensures !s.outcome.Skipped? && !cfg.dryRun ==>
      var k := TargetKey(cfg.target.prefix, obj.key);
      && (GetFails(source, obj.key) ==>
            s.sourceCalls == [GetCall(obj.key)] && s.targetCalls == [HeadCall(k)])
      && (!GetFails(source, obj.key) ==>
            && s.sourceCalls == [GetCall(obj.key), CloseCall(obj.key)]
            && s.targetCalls == [HeadCall(k), PutCall(k, obj.size)])
  {
    var key := TargetKey(cfg.target.prefix, obj.key);
    var head := Head(target, key);
    if head.Ok? && head.value.etag == obj.etag then
      Step(Skipped, target, [], [HeadCall(key)])
    else if cfg.dryRun then
      Step(DryRunCopied, target, [], [HeadCall(key)])
    else
      var t := TransferStep(obj, key, source, target);
      Step(t.outcome, t.target, t.sourceCalls, [HeadCall(key)] + t.targetCalls)
  }

  /** The real copy: fetch the object from the source and store it under
      `key` on the target, closing the fetched body on every path. */
  function TransferStep(obj: ObjectInfo, key: string, source: Bucket, target: Bucket): (s: Step)
    ensures !s.outcome.Skipped? && !s.outcome.DryRunCopied?
    ensures s.outcome == GetFailed <==> GetFails(source, obj.key)
    ensures s.outcome == PutFailed <==> !GetFails(source, obj.key) && PutFails(target, key)
    ensures s.outcome == Copied(obj.size) <==> !GetFails(source, obj.key) && !PutFails(target, key)
    ensures Failed(s.outcome) ==> s.target == target
    ensures !GetFails(source, obj.key) ==> s.sourceCalls == [GetCall(obj.key), CloseCall(obj.key)]
    // a failed fetch returns before the store; otherwise exactly one store is made
    ensures GetFails(source, obj.key) ==> s.sourceCalls == [GetCall(obj.key)] && s.targetCalls == []
    ensures !GetFails(source, obj.key) ==> s.targetCalls == [PutCall(key, obj.size)]
  {
    if GetFails(source, obj.key) then
      Step(GetFailed, target, [GetCall(obj.key)], [])
    else
      var body := Body(Info(obj.key, source.objects[obj.key]));
      var fetched := [GetCall(obj.key), CloseCall(obj.key)];
      if PutFails(target, key) then
        Step(PutFailed, target, fetched, [PutCall(key, obj.size)])
      else
        Step(Copied(obj.size), target.(objects := target.objects[key := Stored(body, obj.size)]),
             fetched, [PutCall(key, obj.size)])
  }

  /** The accumulated effect of processing `objects` in order. */
  datatype Run = Run(outcomes: seq<Outcome>, target: Bucket, sourceCalls: seq<Call>, targetCalls: seq<Call>)

  function RunAll(cfg: Config.Config, objects: seq<ObjectInfo>, source: Bucket, target: Bucket): (r: Run)
    ensures |r.outcomes| == |objects|
    ensures r.target.failHead == target.failHead && r.target.failPut == target.failPut
    decreases |objects|
  {
    if objects == [] then Run([], target, [], [])
    else
      var prev := RunAll(cfg, objects[..|objects| - 1], source, target);
      var step := CopyStep(cfg, objects[|objects| - 1], source, prev.target);
      Run(prev.outcomes + [step.outcome], step.target,
          prev.sourceCalls + step.sourceCalls, prev.targetCalls + step.targetCalls)
  }

  lemma RunAllSnoc(cfg: Config.Config, objects: seq<ObjectInfo>, i: nat, source: Bucket, target: Bucket)
    requires i < |objects|
    ensures var prev := RunAll(cfg, objects[..i], source, target);
      var step := CopyStep(cfg, objects[i], source, prev.target);
      RunAll(cfg, objects[..i + 1], source, target)
        == Run(prev.outcomes + [step.outcome], step.target,
               prev.sourceCalls + step.sourceCalls, prev.targetCalls + step.targetCalls)
  {
    assert objects[..i + 1][..i] == objects[..i];
  }

  /** The counters after recording `outcomes` in order. */
  function Tally(s: Stats, outcomes: seq<Outcome>): (t: Stats)
    ensures t.totalObjects == s.totalObjects
    ensures t.copiedObjects + t.skippedObjects + t.errors
         == s.copiedObjects + s.skippedObjects + s.errors + |outcomes|
    decreases |outcomes|
  {
    if outcomes == [] then s
    else Record(Tally(s, outcomes[..|outcomes| - 1]), outcomes[|outcomes| - 1])
  }

  /** Recording outcomes never lowers copied, skipped or errors. */
  lemma {:induction false} TallyKeepsGrowing(s: Stats, outcomes: seq<Outcome>)
    ensures var t := Tally(s, outcomes);
      t.copiedObjects >= s.copiedObjects && t.skippedObjects >= s.skippedObjects && t.errors >= s.errors
    decreases |outcomes|
  {
    if outcomes != [] {
      TallyKeepsGrowing(s, outcomes[..|outcomes| - 1]);
    }
  }

  lemma Append3<T>(a: seq<T>, b: seq<T>, c: seq<T>)
    ensures (a + b) + c == a + (b + c)
  {
  }

  lemma TallySnoc(s: Stats, outcomes: seq<Outcome>, o: Outcome)
    ensures Tally(s, outcomes + [o]) == Record(Tally(s, outcomes), o)
  {
    assert (outcomes + [o])[..|outcomes|] == outcomes;
  }

  /** The counters `Mirror` leaves after listing `listed`: the total is
      overwritten, the other four counters keep accumulating. */
  function MirrorStats(cfg: Config.Config, before: Stats, listed: seq<ObjectInfo>, source: Bucket, target: Bucket): (t: Stats)
    ensures t.totalObjects == |listed|
    ensures t.copiedObjects >= before.copiedObjects && t.skippedObjects >= before.skippedObjects
    ensures t.errors >= before.errors
    ensures t.copiedObjects + t.skippedObjects + t.errors
         == before.copiedObjects + before.skippedObjects + before.errors + |listed|
  {
    TallyKeepsGrowing(before.(totalObjects := |listed|), RunAll(cfg, listed, source, target).outcomes);
    Tally(before.(totalObjects := |listed|), RunAll(cfg, listed, source, target).outcomes)
  }

  class Service {
    const source: Client
    const target: Client
    const config: Config.Config
    var stats: Stats

    constructor (source: Client, target: Client, config: Config.Config)
      requires source != target
      ensures this.source == source && this.target == target && this.config == config
      ensures stats == NoStats
    {
      this.source := source;
      this.target := target;
      this.config := config;
      stats := NoStats;
    }

    /** copyObject: the counter it bumps itself, and the error it returns to
        the worker, which then bumps `errors`. */
    method CopyObject(obj: ObjectInfo) returns (err: Option<string>)
      requires source != target
      modifies this`stats, source`calls, source`open, target`calls, target`state
      ensures err.Some? <==> Failed(CopyStep(config, obj, old(source.state), old(target.state)).outcome)
      ensures stats == (var o := CopyStep(config, obj, old(source.state), old(target.state)).outcome;
                        if Failed(o) then old(stats) else Record(old(stats), o))
      ensures target.state == CopyStep(config, obj, old(source.state), old(target.state)).target
      ensures source.calls == old(source.calls) + CopyStep(config, obj, old(source.state), old(target.state)).sourceCalls
      ensures target.calls == old(target.calls) + CopyStep(config, obj, old(source.state), old(target.state)).targetCalls
      ensures source.open == old(source.open)
    {
      var key := TargetKey(config.target.prefix, obj.key);
      var head := target.HeadObject(key);
      if head.Ok? && head.value.etag == obj.etag {
        stats := stats.(skippedObjects := stats.skippedObjects + 1);
        return None;
      }
      if config.dryRun {
        stats := stats.(copiedObjects := stats.copiedObjects + 1);
        return None;
      }
      err := Transfer(obj, key);
    }

    /** The part of copyObject after the skip and dry-run checks. */
    method Transfer(obj: ObjectInfo, key: string) returns (err: Option<string>)
      requires source != target
      modifies this`stats, source`calls, source`open, target`calls, target`state
      ensures err.Some? <==> Failed(TransferStep(obj, key, old(source.state), old(target.state)).outcome)
      ensures TransferStep(obj, key, old(source.state), old(target.state)).outcome == GetFailed ==>
        "failed to get object: " <= err.value
      ensures TransferStep(obj, key, old(source.state), old(target.state)).outcome == PutFailed ==>
        "failed to put object: " <= err.value
      ensures stats == (var o := TransferStep(obj, key, old(source.state), old(target.state)).outcome;
                        if Failed(o) then old(stats) else Record(old(stats), o))
      ensures target.state == TransferStep(obj, key, old(source.state), old(target.state)).target
      ensures source.calls == old(source.calls) + TransferStep(obj, key, old(source.state), old(target.state)).sourceCalls
      ensures target.calls == old(target.calls) + TransferStep(obj, key, old(source.state), old(target.state)).targetCalls
      ensures source.open == old(source.open)
    {
      var body := source.GetObject(obj.key);
      if body.Err? {
        return Some(Config.Prefixed("failed to get object", body.error));
      }
      var put := target.PutObject(key, body.value, obj.size);
      if put.Err? {
        source.Close(body.value);
        return Some(Config.Prefixed("failed to put object", put.error));
      }
      stats := stats.(copiedObjects := stats.copiedObjects + 1,
                      bytesTransferred := stats.bytesTransferred + obj.size);
      source.Close(body.value);
      return None;
    }

    /** One iteration of the worker's loop: copy the object, and count the
        error copyObject returns. */
    method Process(obj: ObjectInfo)
      requires source != target
      modifies this`stats, source`calls, source`open, target`calls, target`state
      ensures var s := CopyStep(config, obj, old(source.state), old(target.state));
        && stats == Record(old(stats), s.outcome)
        && target.state == s.target
        && source.calls == old(source.calls) + s.sourceCalls
        && target.calls == old(target.calls) + s.targetCalls
      ensures source.open == old(source.open)
    {
      var err := CopyObject(obj);
      if err.Some? {
        stats := stats.(errors := stats.errors + 1);
      }
    }

    /** worker: drain the objects handed to it, counting every failed copy. */
    method Worker(objects: seq<ObjectInfo>)
      requires source != target
      modifies this`stats, source`calls, source`open, target`calls, target`state
      ensures var run := RunAll(config, objects, old(source.state), old(target.state));
        && stats == Tally(old(stats), run.outcomes)
        && target.state == run.target
        && source.calls == old(source.calls) + run.sourceCalls
        && target.calls == old(target.calls) + run.targetCalls
      ensures source.open == old(source.open)
    {
      var i := 0;
      while i < |objects|
        invariant 0 <= i <= |objects|
        invariant var run := RunAll(config, objects[..i], old(source.state), old(target.state));
          && stats == Tally(old(stats), run.outcomes)
          && target.state == run.target
          && source.calls == old(source.calls) + run.sourceCalls
          && target.calls == old(target.calls) + run.targetCalls
        invariant source.open == old(source.open)
        invariant source.state == old(source.state)
      {
        ghost var prev := RunAll(config, objects[..i], old(source.state), old(target.state));
        ghost var step := CopyStep(config, objects[i], old(source.state), prev.target);
        Process(objects[i]);
        RunAllSnoc(config, objects, i, old(source.state), old(target.state));
        TallySnoc(old(stats), prev.outcomes, step.outcome);
        Append3(old(source.calls), prev.sourceCalls, step.sourceCalls);
        Append3(old(target.calls), prev.targetCalls, step.targetCalls);
        i := i + 1;
      }
      assert objects[..|objects|] == objects;
    }

    /** Mirror: list the source under its prefix, overwrite the total, process
        every listed object, and return the counters. A listing failure returns
        an error before anything else happens. */
    method Mirror() returns (r: Result<Stats>, ghost listed: seq<ObjectInfo>)
      requires source != target
      requires config.workers >= 1
      modifies this`stats, source`calls, source`open, target`calls, target`state
      ensures r.Err? <==> old(source.state).failList
      ensures r.Err? ==>
        && "failed to list source objects: " <= r.error
        && stats == old(stats)
        && target.state == old(target.state)
        && source.calls == old(source.calls) + [ListCall(config.source.prefix)]
        && target.calls == old(target.calls)
      ensures r.Ok? ==>
        && IsListing(listed, old(source.state), config.source.prefix)
        && var run := RunAll(config, listed, old(source.state), old(target.state));
        && stats == MirrorStats(config, old(stats), listed, old(source.state), old(target.state))
        && r.value == stats
        && target.state == run.target
        && source.calls == old(source.calls) + [ListCall(config.source.prefix)] + run.sourceCalls
        && target.calls == old(target.calls) + run.targetCalls
      ensures source.open == old(source.open)
    {
      var objects := source.ListObjects(config.source.prefix);
      if objects.Err? {
        listed := [];
        return Err(Config.Prefixed("failed to list source objects", objects.error)), listed;
      }
      listed := objects.value;
      stats := stats.(totalObjects := |objects.value|);
      Worker(objects.value);
      r := Ok(stats);
    }
  }
}
