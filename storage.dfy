/** The storage capability both endpoints provide (internal/storage/storage.go,
    interface Client). The concrete S3 and MinIO backends are foreign code; here
    one class stands for either: its bucket is a value whose catalog and injected
    faults decide every answer, and ghost state records the calls the mirror
    makes and the object bodies it holds open. */
module Storage {
  import opened Results

  /** What a listing or a metadata lookup reports about one object. */
  datatype ObjectInfo = ObjectInfo(key: string, size: int, etag: string, lastModified: string)

  /** What the bucket keeps per key. */
  datatype Meta = Meta(size: int, etag: string, lastModified: string)

  function Info(key: string, m: Meta): ObjectInfo
  {
    ObjectInfo(key, m.size, m.etag, m.lastModified)
  }

  /** An open stream over the content of one stored object. */
  datatype Body = Body(content: ObjectInfo)

  /** One call made on a client, as the ghost call log records it. */
  datatype Call =
    | ListCall(prefix: string)
    | HeadCall(key: string)
    | GetCall(key: string)
    | PutCall(key: string, size: int)
    | CloseCall(key: string)

  /** A bucket's catalog and the faults the environment injects: the listing
      fails as a whole, or a lookup, fetch or store fails for one key. */
  datatype Bucket = Bucket(
    objects: map<string, Meta>,
    failList: bool,
    failHead: set<string>,
    failGet: set<string>,
    failPut: set<string>)

  const NotFound := "NotFound: object does not exist"
  const Injected := "injected fault"

  /** The answer of HeadObject: an injected fault, not-found, or the metadata. */
  function Head(b: Bucket, key: string): (r: Result<ObjectInfo>)
    ensures r.Ok? <==> key !in b.failHead && key in b.objects
    ensures r.Ok? ==> r.value == Info(key, b.objects[key])
  {
    if key in b.failHead then Err(Injected)
    else if key !in b.objects then Err(NotFound)
    else Ok(Info(key, b.objects[key]))
  }

  predicate GetFails(b: Bucket, key: string)
  {
    key in b.failGet || key !in b.objects
  }

  predicate PutFails(b: Bucket, key: string)
  {
    key in b.failPut
  }

  /** What a bucket keeps after storing `body`: the size the caller passed and
      the fingerprint of the bytes received, which are the source object's.
      The store's own timestamp is not modelled. */
  function Stored(body: Body, size: int): Meta
  {
    Meta(size, body.content.etag, "")
  }

  function Keys(listed: seq<ObjectInfo>): set<string>
  {
    set i | 0 <= i < |listed| :: listed[i].key
  }

  lemma KeysAppend(listed: seq<ObjectInfo>, o: ObjectInfo)
    ensures Keys(listed + [o]) == Keys(listed) + {o.key}
  {
    var next := listed + [o];
    forall x | x in Keys(next) ensures x in Keys(listed) + {o.key} {
      var i :| 0 <= i < |next| && next[i].key == x;
      if i < |listed| { assert listed[i].key == x; }
    }
    forall x | x in Keys(listed) + {o.key} ensures x in Keys(next) {
      if x == o.key {
        assert next[|listed|].key == x;
      } else {
        var i :| 0 <= i < |listed| && listed[i].key == x;
        assert next[i].key == x;
      }
    }
  }

  predicate DistinctKeys(listed: seq<ObjectInfo>)
  {
    forall i, j :: 0 <= i < j < |listed| ==> listed[i].key != listed[j].key
  }

  /** `listed` enumerates, once each and in any order, every object of `b`
      whose key starts with `prefix`. */
  predicate IsListing(listed: seq<ObjectInfo>, b: Bucket, prefix: string)
  {
    && DistinctKeys(listed)
    && (forall i :: 0 <= i < |listed| ==>
          prefix <= listed[i].key && listed[i].key in b.objects
          && listed[i] == Info(listed[i].key, b.objects[listed[i].key]))
    && (forall k :: k in b.objects && prefix <= k ==> k in Keys(listed))
  }

  class Client {
    const bucket: string
    var state: Bucket
    ghost var calls: seq<Call>
    ghost var open: multiset<string>

    constructor (bucket: string, state: Bucket)
      ensures this.bucket == bucket && this.state == state
      ensures calls == [] && open == multiset{}
    {
      this.bucket := bucket;
      this.state := state;
      calls := [];
      open := multiset{};
    }

    method ListObjects(prefix: string) returns (r: Result<seq<ObjectInfo>>)
      modifies this`calls
      ensures calls == old(calls) + [ListCall(prefix)]
      ensures r.Err? <==> state.failList
      ensures r.Ok? ==> IsListing(r.value, state, prefix)
    {
      calls := calls + [ListCall(prefix)];
      if state.failList {
        return Err(Injected);
      }
      var pending := set k | k in state.objects && prefix <= k;
      var listed := [];
      while pending != {}
        invariant calls == old(calls) + [ListCall(prefix)]
        invariant forall k :: k in pending ==> k in state.objects && prefix <= k
        invariant DistinctKeys(listed)
        invariant forall i :: 0 <= i < |listed| ==>
          prefix <= listed[i].key && listed[i].key in state.objects
          && listed[i] == Info(listed[i].key, state.objects[listed[i].key])
          && listed[i].key !in pending
        invariant forall k :: k in state.objects && prefix <= k ==> k in pending || k in Keys(listed)
        decreases pending
      {
        var k :| k in pending;
        var next := listed + [Info(k, state.objects[k])];
        KeysAppend(listed, Info(k, state.objects[k]));
        listed, pending := next, pending - {k};
      }
      r := Ok(listed);
    }

    method HeadObject(key: string) returns (r: Result<ObjectInfo>)
      modifies this`calls
      ensures calls == old(calls) + [HeadCall(key)]
      ensures r == Head(state, key)
    {
      calls := calls + [HeadCall(key)];
      r := Head(state, key);
    }

    /** Opens a body the caller must close. */
    method GetObject(key: string) returns (r: Result<Body>)
      modifies this`calls, this`open
      ensures calls == old(calls) + [GetCall(key)]
      ensures r.Err? <==> GetFails(state, key)
      ensures r.Ok? ==> r.value == Body(Info(key, state.objects[key])) && open == old(open) + multiset{key}
      ensures r.Err? ==> open == old(open)
    {
      calls := calls + [GetCall(key)];
      if key in state.failGet {
        return Err(Injected);
      }
      if key !in state.objects {
        return Err(NotFound);
      }
      r := Ok(Body(Info(key, state.objects[key])));
      open := open + multiset{key};
    }

    /** Closes a body this client opened. */
    method Close(body: Body)
      requires body.content.key in open
      modifies this`calls, this`open
      ensures calls == old(calls) + [CloseCall(body.content.key)]
      ensures open == old(open) - multiset{body.content.key}
    {
      calls := calls + [CloseCall(body.content.key)];
      open := open - multiset{body.content.key};
    }

    method PutObject(key: string, body: Body, size: int) returns (r: Result<()>)
      modifies this`calls, this`state
      ensures calls == old(calls) + [PutCall(key, size)]
      ensures r.Err? <==> PutFails(old(state), key)
      ensures r.Err? ==> state == old(state)
      ensures r.Ok? ==> state == old(state).(objects := old(state).objects[key := Stored(body, size)])
    {
      calls := calls + [PutCall(key, size)];
      if key in state.failPut {
        return Err(Injected);
      }
      state := state.(objects := state.objects[key := Stored(body, size)]);
      r := Ok(());
    }
  }
}
