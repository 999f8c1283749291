/**
 * The in-memory store `memRecorder` and its delegating wrapper
 * `simpleRecorder`. Each operation runs atomically (the read-write lock only
 * serialises them) and is proved to follow its function in StoreSpec.
 */
module DefaultRecorder {
  import opened Wrappers
  import opened Errors
  import opened Recorder
  import opened LinkedMaps
  import opened Decimal
  import opened IdUtils
  import opened StoreSpec

  /** The loop that files `id` under each trigger event type, creating buckets on demand. */
  method AddToEventBuckets(em: map<string, Bucket>, types: seq<string>, id: string) returns (r: map<string, Bucket>)
    ensures r == AddToBuckets(em, types, id)
  {
    r := em;
    for i := 0 to |types|
      invariant r == AddToBuckets(em, types[..i], id)
    {
      assert types[..i + 1][..i] == types[..i];
      var e := types[i];
      if e in r {
        r := r[e := r[e].Put(id, ())];
      } else {
        var lm := Empty<()>().Put(id, ());
        r := r[e := lm];
      }
    }
    assert types[..|types|] == types;
  }

  /** The loop that deletes `key` from the bucket of each event type; every bucket must exist. */
  method DeleteFromEventBuckets(em: map<string, Bucket>, types: seq<string>, key: string) returns (r: map<string, Bucket>)
    requires forall i :: 0 <= i < |types| ==> types[i] in em
    ensures r == DeleteFromBuckets(em, types, key)
  {
    r := em;
    for i := 0 to |types|
      invariant r == DeleteFromBuckets(em, types[..i], key)
    {
      assert types[..i + 1][..i] == types[..i];
      var e := types[i];
      DeleteFromBucketsKeys(em, types[..i], key);
      r := r[e := r[e].Delete(key)];
    }
    assert types[..|types|] == types;
  }

  /**
   * The `Foreach` walk shared by the unfiltered and event-type queries: positions
   * before `skip` are passed over, the next `pageSize` positions contribute the live
   * records that match `state`, and the walk stops at the first position past them.
   */
  method WalkPage(keys: seq<string>, values: map<string, Data>, skip: int, pageSize: int, state: string)
    returns (ret: seq<Data>)
    ensures ret == Pick(Window(keys, skip, pageSize), values, state)
  {
    ret := [];
    var current := 0;
    while current < |keys|
      invariant 0 <= current <= |keys|
      invariant ret == Pick(Window(keys[..current], skip, pageSize), values, state)
    {
      if skip > current {
        WalkStep(keys, current, skip, pageSize, values, state);
        current := current + 1;
        continue;
      }
      if current - skip < pageSize {
        var k := keys[current];
        WalkStep(keys, current, skip, pageSize, values, state);
        if k in values {
          var hd := values[k];
          if state != "" {
            if hd.state == state {
              ret := ret + [hd];
            }
          } else {
            ret := ret + [hd];
          }
        }
        current := current + 1;
      } else {
        break;
      }
    }
    WindowPrefix(keys, current, skip, pageSize);
  }

  /** One more position of the walk adds the record at that position when it is in the window, live and matching. */
  lemma WalkStep(keys: seq<string>, i: nat, skip: int, pageSize: int, values: map<string, Data>, state: string)
    requires i < |keys|
    ensures var k := keys[i];
      Pick(Window(keys[..i + 1], skip, pageSize), values, state)
      == Pick(Window(keys[..i], skip, pageSize), values, state)
         + (if skip <= i < skip + pageSize && k in values && Matches(values[k], state) then [values[k]] else [])
  {
    var k := keys[i];
    WindowStep(keys, i, skip, pageSize);
    var w := Window(keys[..i], skip, pageSize);
    if skip <= i < skip + pageSize {
      PickAppend(w, [k], values, state);
      assert [k][..0] == [];
    } else {
      assert w + [] == w;
    }
  }

  /** The store after an accepted `Create`, spelled out field by field, and its invariant. */
  lemma CreateAccepts(st: StoreState, input: Input)
    requires Inv(st)
    requires input.url != "" && UrlLookup(st.urlMap, input.url) == ""
    ensures var n := st.lastId + 1;
      var id := FormatInt(n);
      var data := ToData(input).(id := id, state := HookStateNormal);
      && CreateSpec(st, input)
         == (StoreState(st.idMap.Put(id, data), st.urlMap[data.url := id], AddToBuckets(st.eventMap, data.triggerEventTypes, id), n), id, None)
      && Inv(CreateSpec(st, input).0)
  {
    CreatePreservesInv(st, input);
  }

  /** The store after an accepted `Update`, spelled out field by field, and its invariant. */
  lemma UpdateAccepts(st: StoreState, id: string, input: Input)
    requires Inv(st)
    requires id in st.idMap.values
    ensures var v := st.idMap.values[id];
      && UpdateSpec(st, id, input)
         == (StoreState(st.idMap.Put(id, Merge(v, input)), UpdatedUrls(st.urlMap, v, id, input),
                        AddToBuckets(DeleteFromBuckets(st.eventMap, v.triggerEventTypes, input.url), input.triggerEventTypes, id),
                        st.lastId), None)
      && Inv(UpdateSpec(st, id, input).0)
  {
    UpdatePreservesInv(st, id, input);
  }

  class MemRecorder {
    var idMap: LinkedMap<Data>
    var urlMap: map<string, string>
    var eventMap: map<string, Bucket>
    const idGenerator: IdGenerator

    /** The store's abstract value. */
    function State(): StoreState
      reads this, idGenerator
    {
      StoreState(idMap, urlMap, eventMap, idGenerator.id)
    }

    ghost predicate Valid()
      reads this, idGenerator
    {
      Inv(State())
    }

    /** An empty store with a fresh generator. */
    constructor ()
      ensures Valid() && State() == InitialState()
      ensures fresh(idGenerator)
    {
      idMap := Empty();
      urlMap := map[];
      eventMap := map[];
      idGenerator := new IdGenerator();
    }

    method Create(input: Input) returns (id: string, err: Option<Error>)
      requires Valid()
      modifies this, idGenerator
      ensures Valid()
      ensures (State(), id, err) == CreateSpec(old(State()), input)
    {
      if input.url == "" {
        return "", Some(Error("Url cannot be empty "));
      }
      var existing := if input.url in urlMap then urlMap[input.url] else "";
      if existing != "" {
        return "", Some(Error("Url have been exists "));
      }
      ghost var st := State();
      CreateAccepts(st, input);
      var n := idGenerator.Next();
      var idStr := FormatInt(n);
      var data := ToData(input).(id := idStr, state := HookStateNormal);
      idMap := idMap.Put(idStr, data);
      urlMap := urlMap[data.url := idStr];
      eventMap := AddToEventBuckets(eventMap, data.triggerEventTypes, idStr);
      assert idGenerator.id == n == st.lastId + 1;
      assert State() == StoreState(st.idMap.Put(idStr, data), st.urlMap[data.url := idStr],
                                   AddToBuckets(st.eventMap, data.triggerEventTypes, idStr), n);
      return idStr, None;
    }

    method Update(id: string, input: Input) returns (err: Option<Error>)
      requires Valid()
      modifies this
      ensures Valid()
      ensures (State(), err) == UpdateSpec(old(State()), id, input)
    {
      ghost var st := State();
      if id in idMap.values {
        var v := idMap.values[id];
        assert forall i :: 0 <= i < |v.triggerEventTypes| ==> v.triggerEventTypes[i] in eventMap by {
          forall i | 0 <= i < |v.triggerEventTypes|
            ensures v.triggerEventTypes[i] in eventMap
          {
            assert BucketsCoverTriggers(st);
          }
        }
        eventMap := DeleteFromEventBuckets(eventMap, v.triggerEventTypes, input.url);
        if input.url != "" {
          if input.url != v.url {
            urlMap := urlMap - {v.url};
            urlMap := urlMap[input.url := id];
          }
          v := v.(url := input.url);
        }
        if input.secret != "" {
          v := v.(secret := input.secret);
        }
        if input.contentType != "" {
          v := v.(contentType := input.contentType);
        }
        if input.state != "" {
          v := v.(state := input.state);
        }
        v := v.(triggerEventTypes := input.triggerEventTypes);
        assert v == Merge(st.idMap.values[id], input);
        assert urlMap == UpdatedUrls(st.urlMap, st.idMap.values[id], id, input);
        idMap := idMap.Put(id, v);
      } else {
        return Some(Error("ID " + id + " not found "));
      }
      eventMap := AddToEventBuckets(eventMap, input.triggerEventTypes, id);
      UpdateAccepts(st, id, input);
      ghost var v0 := st.idMap.values[id];
      assert State() == StoreState(st.idMap.Put(id, Merge(v0, input)), UpdatedUrls(st.urlMap, v0, id, input),
                                   AddToBuckets(DeleteFromBuckets(st.eventMap, v0.triggerEventTypes, input.url), input.triggerEventTypes, id),
                                   st.lastId);
      return None;
    }

    method UpdateNotifyStatus(id: string, updateTime: Timestamp, success: bool) returns (err: Option<Error>)
      requires Valid()
      modifies this
      ensures Valid()
      ensures (State(), err) == UpdateNotifyStatusSpec(old(State()), id, updateTime, success)
    {
      ghost var st := State();
      UpdateNotifyStatusPreservesInv(st, id, updateTime, success);
      if id in idMap.values {
        var v := idMap.values[id];
        if success {
          v := v.(successCount := v.successCount + 1, lastSuccessTime := updateTime);
        } else {
          v := v.(failureCount := v.failureCount + 1, lastFailureTime := updateTime);
        }
        assert v == Notified(st.idMap.values[id], updateTime, success);
        idMap := idMap.Put(id, v);
        assert State() == UpdateNotifyStatusSpec(st, id, updateTime, success).0;
      } else {
        return Some(Error("ID " + id + " not found "));
      }
      return None;
    }

    method Delete(id: string) returns (err: Option<Error>)
      requires Valid()
      modifies this
      ensures Valid()
      ensures State() == DeleteSpec(old(State()), id)
      ensures err == None
    {
      ghost var st := State();
      DeletePreservesInv(st, id);
      if id in idMap.values {
        var v := idMap.values[id];
        assert forall i :: 0 <= i < |v.triggerEventTypes| ==> v.triggerEventTypes[i] in eventMap by {
          forall i | 0 <= i < |v.triggerEventTypes|
            ensures v.triggerEventTypes[i] in eventMap
          {
            assert BucketsCoverTriggers(st);
          }
        }
        eventMap := DeleteFromEventBuckets(eventMap, v.triggerEventTypes, v.url);
        idMap := idMap.Delete(id);
        urlMap := urlMap - {v.url};
      }
      return None;
    }

    method Query(c: QueryCondition) returns (r: QueryResult)
      requires Valid()
      requires QueryAllowed(c)
      ensures r == QuerySpec(State(), c)
    {
      var pageSize := c.pageSize;
      if pageSize == 0 {
        pageSize := DefaultPageSize;
      }
      var total := idMap.Size();
      if c.id != "" {
        if c.id in idMap.values {
          return QueryResult([idMap.values[c.id]], total, None);
        } else {
          return QueryResult([], total, Some(Error("ID " + c.id + " not found ")));
        }
      }
      if c.url != "" {
        var ret, err := QueryByUrl(c.url);
        return QueryResult(ret, total, err);
      }
      if c.eventType != "" {
        var ret, err := QueryByEventType(c.eventType, c.state, c.offset, pageSize);
        return QueryResult(ret, total, err);
      }
      var ret := WalkPage(idMap.keys, idMap.values, c.offset * pageSize, pageSize, c.state);
      return QueryResult(ret, total, None);
    }

    method QueryByUrl(url: string) returns (ret: seq<Data>, err: Option<Error>)
      requires Valid()
      ensures (ret, err) == UrlPage(State(), url)
    {
      var id := if url in urlMap then urlMap[url] else "";
      if id == "" {
        return [], Some(Error("Url " + url + " not found "));
      }
      if id !in idMap.values {
        return [], Some(Error("Url " + url + " not found "));
      }
      return [idMap.values[id]], None;
    }

    method QueryByEventType(eventType: string, state: string, offset: int, pageSize: int)
      returns (ret: seq<Data>, err: Option<Error>)
      requires Valid()
      ensures ret == EventTypePage(State(), eventType, state, offset, pageSize)
      ensures err == None
    {
      if eventType in eventMap && eventMap[eventType].Size() > 0 {
        ret := WalkPage(eventMap[eventType].keys, idMap.values, offset * pageSize, pageSize, state);
        return ret, None;
      }
      return [], None;
    }
  }

  /** `simpleRecorder`: every call goes to the recorder its single filter always hands back. */
  class SimpleRecorder {
    const inner: MemRecorder

    constructor ()
      ensures fresh(inner) && fresh(inner.idGenerator)
      ensures inner.Valid() && inner.State() == InitialState()
    {
      inner := new MemRecorder();
    }

    method Create(input: Input) returns (id: string, err: Option<Error>)
      requires inner.Valid()
      modifies inner, inner.idGenerator
      ensures inner.Valid()
      ensures (inner.State(), id, err) == CreateSpec(old(inner.State()), input)
    {
      id, err := inner.Create(input);
    }

    method Query(c: QueryCondition) returns (r: QueryResult)
      requires inner.Valid()
      requires QueryAllowed(c)
      ensures r == QuerySpec(inner.State(), c)
    {
      r := inner.Query(c);
    }

    method Update(id: string, input: Input) returns (err: Option<Error>)
      requires inner.Valid()
      modifies inner
      ensures inner.Valid()
      ensures (inner.State(), err) == UpdateSpec(old(inner.State()), id, input)
    {
      err := inner.Update(id, input);
    }

    method UpdateNotifyStatus(id: string, updateTime: Timestamp, success: bool) returns (err: Option<Error>)
      requires inner.Valid()
      modifies inner
      ensures inner.Valid()
      ensures (inner.State(), err) == UpdateNotifyStatusSpec(old(inner.State()), id, updateTime, success)
    {
      err := inner.UpdateNotifyStatus(id, updateTime, success);
    }

    method Delete(id: string) returns (err: Option<Error>)
      requires inner.Valid()
      modifies inner
      ensures inner.Valid()
      ensures inner.State() == DeleteSpec(old(inner.State()), id)
      ensures err == None
    {
      err := inner.Delete(id);
    }
  }
}
