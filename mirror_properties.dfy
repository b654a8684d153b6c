/** Properties of whole mirror runs, stated over the specification functions
    that `Service.Mirror` is proved against. */
module MirrorProperties {
  import opened Storage
  import opened Mirror
  import Config

  // ---------------------------------------------------------------------------
  // Accounting
  // ---------------------------------------------------------------------------

  /** On a fresh Service every listed object is counted exactly once as
      copied, skipped or failed. */
  lemma FirstMirrorAccounting(cfg: Config.Config, listed: seq<ObjectInfo>, source: Bucket, target: Bucket)
    ensures var t := MirrorStats(cfg, NoStats, listed, source, target);
      t.totalObjects == |listed| == t.copiedObjects + t.skippedObjects + t.errors
  {
  }

  /** The total is overwritten while the other counters accumulate, so the
      accounting identity holds after a Mirror call exactly when the counters
      it started from were all zero. */
  lemma ReusedServiceAccounting(cfg: Config.Config, before: Stats, listed: seq<ObjectInfo>, source: Bucket, target: Bucket)
    ensures var t := MirrorStats(cfg, before, listed, source, target);
      && t.totalObjects == |listed|
      && (t.totalObjects == t.copiedObjects + t.skippedObjects + t.errors
          <==> before.copiedObjects + before.skippedObjects + before.errors == 0)
  {
  }

  /** Counters of outcomes that are all skips. */
  lemma {:induction false} TallyAllSkipped(s: Stats, outcomes: seq<Outcome>)
    requires forall i :: 0 <= i < |outcomes| ==> outcomes[i] == Skipped
    ensures Tally(s, outcomes) == s.(skippedObjects := s.skippedObjects + |outcomes|)
  {
    if outcomes != [] {
      TallyAllSkipped(s, outcomes[..|outcomes| - 1]);
    }
  }

  /** Only a real copy adds bytes. */
  lemma {:induction false} TallyWithoutTransfers(s: Stats, outcomes: seq<Outcome>)
    requires forall i :: 0 <= i < |outcomes| ==> !outcomes[i].Copied?
    ensures Tally(s, outcomes).bytesTransferred == s.bytesTransferred
  {
    if outcomes != [] {
      TallyWithoutTransfers(s, outcomes[..|outcomes| - 1]);
    }
  }

  /** Two Mirror calls on one Service, over a source holding one object:
      the first copies it, the second skips it, and the Service then reports
      one object in total but two processed. */
  lemma SecondMirrorOvercounts()
    ensures
      var cfg := Config.Config(
        Config.StorageConfig("s3", "src", "us-east-1", "", "", "", false, ""),
        Config.StorageConfig("s3", "dst", "us-east-1", "", "", "", false, ""),
        1, false, false);
      var source := Bucket(map["a.txt" := Meta(5, "e1", "t")], false, {}, {}, {});
      var target := Bucket(map[], false, {}, {}, {});
      var listed := [ObjectInfo("a.txt", 5, "e1", "t")];
      var first := MirrorStats(cfg, NoStats, listed, source, target);
      var afterFirst := RunAll(cfg, listed, source, target).target;
      var second := MirrorStats(cfg, first, listed, source, afterFirst);
      && first == Stats(1, 1, 0, 0, 5)
      && second == Stats(1, 1, 1, 0, 5)
      && second.totalObjects != second.copiedObjects + second.skippedObjects + second.errors
  {
    var cfg := Config.Config(
      Config.StorageConfig("s3", "src", "us-east-1", "", "", "", false, ""),
      Config.StorageConfig("s3", "dst", "us-east-1", "", "", "", false, ""),
      1, false, false);
    var source := Bucket(map["a.txt" := Meta(5, "e1", "t")], false, {}, {}, {});
    var target := Bucket(map[], false, {}, {}, {});
    var listed := [ObjectInfo("a.txt", 5, "e1", "t")];
    assert listed[..0] == [];
    var run1 := RunAll(cfg, listed, source, target);
    assert run1.outcomes == [Copied(5)];
    assert run1.outcomes[..0] == [];
    var first := Tally(NoStats.(totalObjects := 1), run1.outcomes);
    TallySnoc(NoStats.(totalObjects := 1), [], Copied(5));
    assert [] + [Copied(5)] == run1.outcomes;
    var run2 := RunAll(cfg, listed, source, run1.target);
    assert run2.outcomes == [Skipped];
    assert run2.outcomes[..0] == [];
    TallySnoc(first, [], Skipped);
    assert [] + [Skipped] == run2.outcomes;
  }

  // ---------------------------------------------------------------------------
  // Dry run
  // ---------------------------------------------------------------------------

  /** A dry run neither reads nor writes data: every object is skipped or
      reported as copied, the source sees no call and the target is unchanged. */
  lemma {:induction false} DryRunTransfersNothing(cfg: Config.Config, objects: seq<ObjectInfo>, source: Bucket, target: Bucket)
    requires cfg.dryRun
    ensures var r := RunAll(cfg, objects, source, target);
      && r.target == target
      && r.sourceCalls == []
      && (forall c :: c in r.targetCalls ==> c.HeadCall?)
      && forall i :: 0 <= i < |objects| ==> r.outcomes[i].Skipped? || r.outcomes[i].DryRunCopied?
  {
    if objects != [] {
      DryRunTransfersNothing(cfg, objects[..|objects| - 1], source, target);
    }
  }

  /** A dry-run Mirror leaves the transferred-bytes counter where it was. */
  lemma DryRunAddsNoBytes(cfg: Config.Config, before: Stats, listed: seq<ObjectInfo>, source: Bucket, target: Bucket)
    requires cfg.dryRun
    ensures MirrorStats(cfg, before, listed, source, target).bytesTransferred == before.bytesTransferred
  {
    DryRunTransfersNothing(cfg, listed, source, target);
    TallyWithoutTransfers(before.(totalObjects := |listed|), RunAll(cfg, listed, source, target).outcomes);
  }

  // ---------------------------------------------------------------------------
  // Per-object independence
  // ---------------------------------------------------------------------------

  lemma TargetKeyInjective(prefix: string, a: string, b: string)
    requires TargetKey(prefix, a) == TargetKey(prefix, b)
    ensures a == b
  {
    assert (prefix + a)[|prefix|..] == a;
    assert (prefix + b)[|prefix|..] == b;
  }

  function TargetKeys(cfg: Config.Config, objects: seq<ObjectInfo>): set<string>
  {
    set i | 0 <= i < |objects| :: TargetKey(cfg.target.prefix, objects[i].key)
  }

  /** `a` and `b` hold the same entry, or none, under `k`. */
  predicate AgreeAt(a: Bucket, b: Bucket, k: string)
  {
    (k in a.objects <==> k in b.objects) && (k in a.objects ==> a.objects[k] == b.objects[k])
  }

  /** A run changes the target only under the target keys of the objects it
      processed, and never its injected faults. */
  lemma {:induction false} RunFrame(cfg: Config.Config, objects: seq<ObjectInfo>, source: Bucket, target: Bucket, k: string)
    requires k !in TargetKeys(cfg, objects)
    ensures var r := RunAll(cfg, objects, source, target);
      AgreeAt(r.target, target, k) && r.target == target.(objects := r.target.objects)
  {
    if objects != [] {
      var n := |objects| - 1;
      assert TargetKeys(cfg, objects[..n]) <= TargetKeys(cfg, objects) by {
        forall x | x in TargetKeys(cfg, objects[..n]) ensures x in TargetKeys(cfg, objects) {
          var i :| 0 <= i < n && TargetKey(cfg.target.prefix, objects[..n][i].key) == x;
          assert objects[..n][i] == objects[i];
        }
      }
      RunFrame(cfg, objects[..n], source, target, k);
      assert TargetKey(cfg.target.prefix, objects[n].key) in TargetKeys(cfg, objects);
    }
  }

  /** Two objects with different keys never share a target key. */
  lemma DistinctTargetKeys(cfg: Config.Config, objects: seq<ObjectInfo>)
    requires DistinctKeys(objects)
    requires |objects| > 0
    ensures TargetKey(cfg.target.prefix, objects[|objects| - 1].key) !in TargetKeys(cfg, objects[..|objects| - 1])
  {
    var n := |objects| - 1;
    var k := TargetKey(cfg.target.prefix, objects[n].key);
    if k in TargetKeys(cfg, objects[..n]) {
      var i :| 0 <= i < n && TargetKey(cfg.target.prefix, objects[..n][i].key) == k;
      TargetKeyInjective(cfg.target.prefix, objects[i].key, objects[n].key);
      assert false;
    }
  }

  /** When listed keys are distinct, each object's outcome is the one it would
      have on its own against the original buckets: a failure on one object
      changes no other object's outcome. */
  lemma {:induction false} OutcomeIsPerObject(cfg: Config.Config, objects: seq<ObjectInfo>, source: Bucket, target: Bucket)
    requires DistinctKeys(objects)
    ensures var r := RunAll(cfg, objects, source, target);
      forall i :: 0 <= i < |objects| ==> r.outcomes[i] == CopyStep(cfg, objects[i], source, target).outcome
  {
    if objects != [] {
      var n := |objects| - 1;
      var prefix := objects[..n];
      OutcomeIsPerObject(cfg, prefix, source, target);
      var prev := RunAll(cfg, prefix, source, target);
      var k := TargetKey(cfg.target.prefix, objects[n].key);
      DistinctTargetKeys(cfg, objects);
      RunFrame(cfg, prefix, source, target, k);
      assert Head(prev.target, k) == Head(target, k);
      var r := RunAll(cfg, objects, source, target);
      forall i | 0 <= i < |objects|
        ensures r.outcomes[i] == CopyStep(cfg, objects[i], source, target).outcome
      {
        if i < n {
          assert prefix[i] == objects[i];
        }
      }
    }
  }

  // ---------------------------------------------------------------------------
  // Idempotence
  // ---------------------------------------------------------------------------

  /** No fault is injected for any of `objects`, and the source holds each of
      them with the listed ETag. */
  predicate Healthy(cfg: Config.Config, objects: seq<ObjectInfo>, source: Bucket, target: Bucket)
  {
    forall i :: 0 <= i < |objects| ==>
      && objects[i].key in source.objects
      && source.objects[objects[i].key].etag == objects[i].etag
      && objects[i].key !in source.failGet
      && TargetKey(cfg.target.prefix, objects[i].key) !in target.failHead
      && TargetKey(cfg.target.prefix, objects[i].key) !in target.failPut
  }

  /** The target holds every object of `objects` under its target key with the
      object's ETag. */
  predicate Synchronised(cfg: Config.Config, objects: seq<ObjectInfo>, target: Bucket)
  {
    forall i :: 0 <= i < |objects| ==>
      var k := TargetKey(cfg.target.prefix, objects[i].key);
      k in target.objects && target.objects[k].etag == objects[i].etag
  }

  /** A real run without faults leaves the target holding every object. */
  lemma {:induction false} RunSynchronises(cfg: Config.Config, objects: seq<ObjectInfo>, source: Bucket, target: Bucket)
    requires !cfg.dryRun
    requires DistinctKeys(objects)
    requires Healthy(cfg, objects, source, target)
    ensures Synchronised(cfg, objects, RunAll(cfg, objects, source, target).target)
  {
    if objects != [] {
      var n := |objects| - 1;
      var prefix := objects[..n];
      assert forall i :: 0 <= i < n ==> prefix[i] == objects[i];
      RunSynchronises(cfg, prefix, source, target);
      var prev := RunAll(cfg, prefix, source, target);
      var step := CopyStep(cfg, objects[n], source, prev.target);
      var k := TargetKey(cfg.target.prefix, objects[n].key);
      DistinctTargetKeys(cfg, objects);
      forall i | 0 <= i < |objects|
        ensures var ki := TargetKey(cfg.target.prefix, objects[i].key);
          ki in step.target.objects && step.target.objects[ki].etag == objects[i].etag
      {
        if i < n {
          var ki := TargetKey(cfg.target.prefix, objects[i].key);
          assert ki in TargetKeys(cfg, prefix) by { assert prefix[i] == objects[i]; }
        }
      }
    }
  }

  /** Against a target that already holds every object, a run skips all of
      them and neither reads nor writes data. */
  lemma {:induction false} RerunSkipsEverything(cfg: Config.Config, objects: seq<ObjectInfo>, source: Bucket, target: Bucket)
    requires Synchronised(cfg, objects, target)
    requires forall i :: 0 <= i < |objects| ==> TargetKey(cfg.target.prefix, objects[i].key) !in target.failHead
    ensures var r := RunAll(cfg, objects, source, target);
      && r.target == target
      && r.sourceCalls == []
      && forall i :: 0 <= i < |objects| ==> r.outcomes[i] == Skipped
  {
    if objects != [] {
      var n := |objects| - 1;
      var prefix := objects[..n];
      assert forall i :: 0 <= i < n ==> prefix[i] == objects[i];
      RerunSkipsEverything(cfg, prefix, source, target);
    }
  }

  /** Mirroring twice without faults, each time from a fresh Service and each
      time listing the unchanged source in whatever order: the second run copies
      nothing, transfers nothing and skips every listed object. */
  lemma MirrorIsIdempotent(cfg: Config.Config, listed: seq<ObjectInfo>, listed2: seq<ObjectInfo>, source: Bucket, target: Bucket)
    requires !cfg.dryRun
    requires IsListing(listed, source, cfg.source.prefix)
    requires IsListing(listed2, source, cfg.source.prefix)
    requires Healthy(cfg, listed, source, target)
    ensures var afterFirst := RunAll(cfg, listed, source, target).target;
      var second := MirrorStats(cfg, NoStats, listed2, source, afterFirst);
      && second.copiedObjects == 0 && second.errors == 0 && second.bytesTransferred == 0
      && second.skippedObjects == second.totalObjects == |listed2|
  {
    RunSynchronises(cfg, listed, source, target);
    var afterFirst := RunAll(cfg, listed, source, target).target;
    assert RunAll(cfg, listed, source, target).target.failHead == target.failHead;
    forall j | 0 <= j < |listed2|
      ensures var k := TargetKey(cfg.target.prefix, listed2[j].key);
        && k in afterFirst.objects && afterFirst.objects[k].etag == listed2[j].etag
        && k !in afterFirst.failHead
    {
      assert listed2[j].key in Keys(listed);
      var i :| 0 <= i < |listed| && listed[i].key == listed2[j].key;
      assert listed2[j] == listed[i];
    }
    RerunSkipsEverything(cfg, listed2, source, afterFirst);
    TallyAllSkipped(NoStats.(totalObjects := |listed2|), RunAll(cfg, listed2, source, afterFirst).outcomes);
  }
}
