/**
 * The in-memory subscription store as a value: its three indices, the id
 * counter, and one function per store operation giving the new state and
 * the returned values. The imperative store in module DefaultRecorder is
 * proved to follow these functions.
 */
module StoreSpec {
  import opened Wrappers
  import opened Errors
  import opened Recorder
  import opened LinkedMaps
  import opened Decimal

  /** An event bucket: an insertion-ordered set of ids (the map's values are empty structs). */
  type Bucket = LinkedMap<()>

  /**
   * idMap: id -> record in insertion order; urlMap: url -> id;
   * eventMap: event type -> bucket of ids; lastId: the generator's counter.
   */
  datatype StoreState = StoreState(
    idMap: LinkedMap<Data>,
    urlMap: map<string, string>,
    eventMap: map<string, Bucket>,
    lastId: nat)

  /** The result of `Query`: one page of records, the store's size, and an error. */
  datatype QueryResult = QueryResult(records: seq<Data>, total: int, err: Option<Error>)

  function InitialState(): StoreState
  {
    StoreState(Empty(), map[], map[], 0)
  }

  // ---------------------------------------------------------------- invariant

  ghost predicate BucketsValid(em: map<string, Bucket>)
  {
    forall e :: e in em ==> em[e].Valid()
  }

  /** Every live record's trigger types have a bucket, so deleting from them never meets a nil bucket. */
  ghost predicate BucketsCoverTriggers(st: StoreState)
  {
    forall k, e :: k in st.idMap.values && e in st.idMap.values[k].triggerEventTypes ==> e in st.eventMap
  }

  /** Every id in any index was issued by the generator, so the next id is fresh. */
  ghost predicate IdsIssued(st: StoreState)
  {
    && (forall k :: k in st.idMap.values ==> ParseDecimal(k) <= st.lastId)
    && (forall e, k :: e in st.eventMap && k in st.eventMap[e].keys ==> ParseDecimal(k) <= st.lastId)
  }

  ghost predicate Inv(st: StoreState)
  {
    && st.idMap.Valid()
    && BucketsValid(st.eventMap)
    && (forall k :: k in st.idMap.values ==> st.idMap.values[k].id == k)
    && BucketsCoverTriggers(st)
    && IdsIssued(st)
  }

  // ---------------------------------------------------------------- buckets

  /** Go's `urlMap[u]`: the empty string when `u` is absent. */
  function UrlLookup(urlMap: map<string, string>, u: string): string
  {
    if u in urlMap then urlMap[u] else ""
  }

  /** Puts `id` into the bucket of `e`, creating the bucket when it is missing. */
  function AddToBucket(em: map<string, Bucket>, e: string, id: string): map<string, Bucket>
  {
    if e in em then em[e := em[e].Put(id, ())] else em[e := Empty<()>().Put(id, ())]
  }

  /** Puts `id` into the bucket of every type in `types`, in order. */
  function AddToBuckets(em: map<string, Bucket>, types: seq<string>, id: string): map<string, Bucket>
  {
    if types == [] then em
    else AddToBucket(AddToBuckets(em, types[..|types| - 1], id), types[|types| - 1], id)
  }

  /**
   * Deletes the key `key` from the bucket of every type in `types`. The store
   * only calls it for types that have a bucket (a missing one would be a nil
   * map in Go); DeleteFromBucketsFacts shows the bucket set never changes.
   */
  function DeleteFromBuckets(em: map<string, Bucket>, types: seq<string>, key: string): map<string, Bucket>
  {
    if types == [] then em
    else
      var prev := DeleteFromBuckets(em, types[..|types| - 1], key);
      var e := types[|types| - 1];
      if e in prev then prev[e := prev[e].Delete(key)] else prev
  }

  // ---------------------------------------------------------------- operations

  /** Create: validates the url, then draws the next id and installs the record in all three indices. */
  function CreateSpec(st: StoreState, input: Input): (StoreState, string, Option<Error>)
  {
    if input.url == "" then (st, "", Some(Error("Url cannot be empty ")))
    else if UrlLookup(st.urlMap, input.url) != "" then (st, "", Some(Error("Url have been exists ")))
    else
      var n := st.lastId + 1;
      var id := FormatInt(n);
      var data := ToData(input).(id := id, state := HookStateNormal);
      (StoreState(st.idMap.Put(id, data), st.urlMap[data.url := id],
                  AddToBuckets(st.eventMap, data.triggerEventTypes, id), n),
       id, None)
  }

  /** The record after an update: non-empty fields overwrite, trigger types are always replaced. */
  function Merge(v: Data, input: Input): Data
  {
    v.(url := if input.url != "" then input.url else v.url,
       secret := if input.secret != "" then input.secret else v.secret,
       contentType := if input.contentType != "" then input.contentType else v.contentType,
       state := if input.state != "" then input.state else v.state,
       triggerEventTypes := input.triggerEventTypes)
  }

  /** The url index after an update of the record `v` stored under `id`. */
  function UpdatedUrls(urlMap: map<string, string>, v: Data, id: string, input: Input): map<string, string>
  {
    if input.url != "" && input.url != v.url then (urlMap - {v.url})[input.url := id] else urlMap
  }

  /**
   * Update: for a known id, deletes the key `input.url` (not the id) from the
   * record's old buckets, rewrites the url index without a uniqueness check,
   * merges the fields and puts the id into the buckets of the new types.
   */
  function UpdateSpec(st: StoreState, id: string, input: Input): (StoreState, Option<Error>)
    requires Inv(st)
  {
    if id !in st.idMap.values then (st, Some(Error("ID " + id + " not found ")))
    else
      var v := st.idMap.values[id];
      var em := DeleteFromBuckets(st.eventMap, v.triggerEventTypes, input.url);
      (StoreState(st.idMap.Put(id, Merge(v, input)), UpdatedUrls(st.urlMap, v, id, input),
                  AddToBuckets(em, input.triggerEventTypes, id), st.lastId),
       None)
  }

  /** The record after one delivery outcome: one counter and its time. */
  function Notified(v: Data, t: Timestamp, success: bool): Data
  {
    if success then v.(successCount := v.successCount + 1, lastSuccessTime := t)
    else v.(failureCount := v.failureCount + 1, lastFailureTime := t)
  }

  function UpdateNotifyStatusSpec(st: StoreState, id: string, t: Timestamp, success: bool): (StoreState, Option<Error>)
  {
    if id in st.idMap.values then (st.(idMap := st.idMap.Put(id, Notified(st.idMap.values[id], t, success))), None)
    else (st, Some(Error("ID " + id + " not found ")))
  }

  /** Delete: for a known id, deletes the key `url` (not the id) from its buckets, then the id and the url. */
  function DeleteSpec(st: StoreState, id: string): StoreState
    requires Inv(st)
  {
    if id in st.idMap.values then
      var v := st.idMap.values[id];
      StoreState(st.idMap.Delete(id), st.urlMap - {v.url},
                 DeleteFromBuckets(st.eventMap, v.triggerEventTypes, v.url), st.lastId)
    else st
  }

  // ---------------------------------------------------------------- queries

  predicate Matches(d: Data, state: string)
  {
    state == "" || d.state == state
  }

  function Clamp(x: int, n: nat): nat
  {
    if x < 0 then 0 else if x > n then n else x
  }

  /** The positions `[skip, skip + size)` of `s` that exist, in order. */
  function Window<T>(s: seq<T>, skip: int, size: int): seq<T>
  {
    var lo := Clamp(skip, |s|);
    var hi := Clamp(skip + size, |s|);
    if lo < hi then s[lo..hi] else []
  }

  /** The records of the live keys among `ks` that match the state filter, in the order of `ks`. */
  function Pick(ks: seq<string>, values: map<string, Data>, state: string): seq<Data>
  {
    if ks == [] then []
    else
      var k := ks[|ks| - 1];
      Pick(ks[..|ks| - 1], values, state) + (if k in values && Matches(values[k], state) then [values[k]] else [])
  }

  function EffectivePageSize(pageSize: int): int
  {
    if pageSize == 0 then DefaultPageSize else pageSize
  }

  /** The event-type path: a window of the bucket, filtered inside the window. */
  function EventTypePage(st: StoreState, eventType: string, state: string, offset: int, pageSize: int): seq<Data>
  {
    if eventType in st.eventMap && st.eventMap[eventType].Size() > 0 then
      Pick(Window(st.eventMap[eventType].keys, offset * pageSize, pageSize), st.idMap.values, state)
    else []
  }

  /** The url path: the id the url index names, when that id is live. */
  function UrlPage(st: StoreState, url: string): (seq<Data>, Option<Error>)
  {
    var id := UrlLookup(st.urlMap, url);
    if id == "" || id !in st.idMap.values then ([], Some(Error("Url " + url + " not found ")))
    else ([st.idMap.values[id]], None)
  }

  /** The unfiltered path allocates a slice with the page size as capacity: Go panics on a negative one. */
  predicate QueryAllowed(c: QueryCondition)
  {
    c.id == "" && c.url == "" && c.eventType == "" ==> c.pageSize >= 0
  }

  function QuerySpec(st: StoreState, c: QueryCondition): QueryResult
  {
    var ps := EffectivePageSize(c.pageSize);
    var total := st.idMap.Size();
    if c.id != "" then
      if c.id in st.idMap.values then QueryResult([st.idMap.values[c.id]], total, None)
      else QueryResult([], total, Some(Error("ID " + c.id + " not found ")))
    else if c.url != "" then
      var (recs, err) := UrlPage(st, c.url);
      QueryResult(recs, total, err)
    else if c.eventType != "" then
      QueryResult(EventTypePage(st, c.eventType, c.state, c.offset, ps), total, None)
    else
      QueryResult(Pick(Window(st.idMap.keys, c.offset * ps, ps), st.idMap.values, c.state), total, None)
  }

  /** The keys a paged query walks: the bucket of `eventType`, or the whole id index when it is empty. */
  function PageKeys(st: StoreState, eventType: string): seq<string>
  {
    if eventType == "" then st.idMap.keys
    else if eventType in st.eventMap then st.eventMap[eventType].keys
    else []
  }

  /**
   * Both paged paths (event type and unfiltered) return the live, matching
   * records of one window of PageKeys, never an error, and report the store size.
   */
  lemma QueryPageIsWindow(st: StoreState, c: QueryCondition)
    requires c.id == "" && c.url == ""
    ensures var ps := EffectivePageSize(c.pageSize);
      QuerySpec(st, c) == QueryResult(Pick(Window(PageKeys(st, c.eventType), c.offset * ps, ps), st.idMap.values, c.state),
                                      st.idMap.Size(), None)
  {
  }

  // ---------------------------------------------------------------- window and pick facts

  lemma {:induction false} PickAppend(a: seq<string>, b: seq<string>, values: map<string, Data>, state: string)
    ensures Pick(a + b, values, state) == Pick(a, values, state) + Pick(b, values, state)
    decreases |b|
  {
    if b == [] {
      assert a + b == a;
    } else {
      var b' := b[..|b| - 1];
      PickAppend(a, b', values, state);
      assert (a + b)[..|a + b| - 1] == a + b';
    }
  }

  /** Growing the walked prefix by one position adds that key exactly when it is inside the window. */
  lemma WindowStep(s: seq<string>, i: nat, skip: int, size: int)
    requires i < |s|
    ensures Window(s[..i + 1], skip, size)
         == Window(s[..i], skip, size) + (if skip <= i < skip + size then [s[i]] else [])
  {
    var p, q := s[..i], s[..i + 1];
    var lo, hi := Clamp(skip, i), Clamp(skip + size, i);
    var lo', hi' := Clamp(skip, i + 1), Clamp(skip + size, i + 1);
    assert q == p + [s[i]];
    if skip <= i < skip + size {
      assert lo' == lo && hi' == i + 1 && lo <= i;
      assert q[lo..i] == p[lo..i];
      assert q[lo..i + 1] == q[lo..i] + [q[i]];
      if lo < hi {
        assert hi == i;
      } else {
        assert lo == i;
      }
    } else {
      if lo' < hi' {
        assert lo' == lo && hi' == hi && hi <= i;
        assert q[lo..hi] == p[lo..hi];
      }
    }
  }

  /** Once the walk is past the window's end, the rest of the sequence adds nothing. */
  lemma WindowPrefix<T>(s: seq<T>, i: nat, skip: int, size: int)
    requires i <= |s|
    requires i == |s| || (skip <= i && i - skip >= size)
    ensures Window(s[..i], skip, size) == Window(s, skip, size)
  {
    if i < |s| {
      var lo, hi := Clamp(skip, i), Clamp(skip + size, i);
      var lo', hi' := Clamp(skip, |s|), Clamp(skip + size, |s|);
      if lo' < hi' {
        assert lo == lo' && hi == hi';
        assert s[..i][lo..hi] == s[lo..hi];
      }
    } else {
      assert s[..i] == s;
    }
  }

  // ---------------------------------------------------------------- index maintenance

  /** Every key of every bucket of `r` is `id` or was already in that bucket of `em`. */
  ghost predicate KeysFrom(r: map<string, Bucket>, em: map<string, Bucket>, id: string)
  {
    forall e, k :: e in r && k in r[e].keys ==> k == id || (e in em && k in em[e].keys)
  }

  lemma AddToBucketFacts(em: map<string, Bucket>, e: string, id: string)
    requires BucketsValid(em)
    ensures var r := AddToBucket(em, e, id);
      && BucketsValid(r)
      && KeysFrom(r, em, id)
      && id in r[e].keys
      && (forall x :: x in em && x != e ==> r[x] == em[x])
      && (forall x :: x in em && id in em[x].keys ==> id in r[x].keys)
  {
    if e in em {
      PutValid(em[e], id, ());
    } else {
      PutValid(Empty<()>(), id, ());
    }
  }

  lemma {:induction false} AddToBucketsFacts(em: map<string, Bucket>, types: seq<string>, id: string)
    requires BucketsValid(em)
    ensures var r := AddToBuckets(em, types, id);
      && (forall e :: e in r <==> e in em || e in types)
      && BucketsValid(r)
      && KeysFrom(r, em, id)
      && (forall e :: e in types ==> id in r[e].keys)
      && (forall e :: e in em && e !in types ==> r[e] == em[e])
  {
    if types != [] {
      var init := types[..|types| - 1];
      var e := types[|types| - 1];
      AddToBucketsFacts(em, init, id);
      var prev := AddToBuckets(em, init, id);
      AddToBucketFacts(prev, e, id);
      var r := AddToBucket(prev, e, id);
      assert r == AddToBuckets(em, types, id);
      assert forall x :: x in types <==> x in init || x == e;
      forall x, k | x in r && k in r[x].keys
        ensures k == id || (x in em && k in em[x].keys)
      {
        assert k == id || (x in prev && k in prev[x].keys);
      }
    }
  }

  lemma {:induction false} DeleteFromBucketsKeys(em: map<string, Bucket>, types: seq<string>, key: string)
    ensures DeleteFromBuckets(em, types, key).Keys == em.Keys
  {
    if types != [] {
      DeleteFromBucketsKeys(em, types[..|types| - 1], key);
    }
  }

  lemma {:induction false} DeleteFromBucketsFacts(em: map<string, Bucket>, types: seq<string>, key: string)
    requires BucketsValid(em)
    requires forall e :: e in types ==> e in em
    ensures var r := DeleteFromBuckets(em, types, key);
      && r.Keys == em.Keys
      && BucketsValid(r)
      && (forall e, k :: e in r && k in r[e].keys ==> k in em[e].keys)
      && (forall e :: e in types ==> key !in r[e].keys)
      && (forall e, k :: e in em && k in em[e].keys && k != key ==> k in r[e].keys)
      && (forall e :: e in em && e !in types ==> r[e] == em[e])
  {
    if types != [] {
      var init := types[..|types| - 1];
      var e := types[|types| - 1];
      DeleteFromBucketsFacts(em, init, key);
      var prev := DeleteFromBuckets(em, init, key);
      DeleteValid(prev[e], key);
      assert forall x :: x in types <==> x in init || x == e;
    }
  }

  /** The id a successful Create draws is in no index yet. */
  lemma NextIdFresh(st: StoreState)
    requires IdsIssued(st)
    ensures FormatInt(st.lastId + 1) !in st.idMap.values
    ensures forall e :: e in st.eventMap ==> FormatInt(st.lastId + 1) !in st.eventMap[e].keys
  {
    ParseFormat(st.lastId + 1);
  }

  lemma IssuedAfterCreate(st: StoreState, st': StoreState, id: string)
    requires IdsIssued(st)
    requires st'.lastId == st.lastId + 1 && id == FormatInt(st'.lastId)
    requires st'.idMap.values.Keys == st.idMap.values.Keys + {id}
    requires st'.eventMap.Keys >= st.eventMap.Keys
    requires KeysFrom(st'.eventMap, st.eventMap, id)
    ensures IdsIssued(st')
  {
    ParseFormat(st'.lastId);
    forall k | k in st'.idMap.values
      ensures ParseDecimal(k) <= st'.lastId
    {
      if k != id {
        assert k in st.idMap.values;
      }
    }
    forall e, k | e in st'.eventMap && k in st'.eventMap[e].keys
      ensures ParseDecimal(k) <= st'.lastId
    {
      if k != id {
        assert e in st.eventMap && k in st.eventMap[e].keys;
      }
    }
  }

  lemma CreatePreservesInv(st: StoreState, input: Input)
    requires Inv(st)
    ensures Inv(CreateSpec(st, input).0)
  {
    if input.url != "" && UrlLookup(st.urlMap, input.url) == "" {
      var n := st.lastId + 1;
      var id := FormatInt(n);
      var data := ToData(input).(id := id, state := HookStateNormal);
      var st' := CreateSpec(st, input).0;
      assert st' == StoreState(st.idMap.Put(id, data), st.urlMap[data.url := id],
                               AddToBuckets(st.eventMap, data.triggerEventTypes, id), n);
      ParseFormat(n);
      PutValid(st.idMap, id, data);
      assert st'.idMap.values == st.idMap.values[id := data];
      AddToBucketsFacts(st.eventMap, data.triggerEventTypes, id);
      assert BucketsValid(st'.eventMap);
      assert forall k :: k in st'.idMap.values ==> st'.idMap.values[k].id == k;
      assert BucketsCoverTriggers(st') by {
        forall k, e | k in st'.idMap.values && e in st'.idMap.values[k].triggerEventTypes
          ensures e in st'.eventMap
        {
          if k != id {
            assert e in st.eventMap;
          }
        }
      }
      IssuedAfterCreate(st, st', id);
    }
  }

  lemma UpdatePreservesInv(st: StoreState, id: string, input: Input)
    requires Inv(st)
    ensures Inv(UpdateSpec(st, id, input).0)
  {
    if id in st.idMap.values {
      var v := st.idMap.values[id];
      DeleteFromBucketsFacts(st.eventMap, v.triggerEventTypes, input.url);
      var em := DeleteFromBuckets(st.eventMap, v.triggerEventTypes, input.url);
      AddToBucketsFacts(em, input.triggerEventTypes, id);
      PutValid(st.idMap, id, Merge(v, input));
    }
  }

  lemma UpdateNotifyStatusPreservesInv(st: StoreState, id: string, t: Timestamp, success: bool)
    requires Inv(st)
    ensures Inv(UpdateNotifyStatusSpec(st, id, t, success).0)
  {
    if id in st.idMap.values {
      PutValid(st.idMap, id, Notified(st.idMap.values[id], t, success));
    }
  }

  lemma DeletePreservesInv(st: StoreState, id: string)
    requires Inv(st)
    ensures Inv(DeleteSpec(st, id))
  {
    if id in st.idMap.values {
      var v := st.idMap.values[id];
      DeleteFromBucketsFacts(st.eventMap, v.triggerEventTypes, v.url);
      DeleteValid(st.idMap, id);
    }
  }
}
