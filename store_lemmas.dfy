/**
 * What the store promises its callers, stated over the functions of module
 * StoreSpec: the outcome of each operation, the effect on the event buckets
 * (including the deletions keyed by url rather than by id), and the paging
 * behaviour of queries.
 */
module StoreLemmas {
  import opened Wrappers
  import opened Errors
  import opened Recorder
  import opened LinkedMaps
  import opened Decimal
  import opened StoreSpec

  /** The keys of the bucket of `e`, or none when there is no bucket. */
  function BucketKeys(em: map<string, Bucket>, e: string): seq<string>
  {
    if e in em then em[e].keys else []
  }

  /** The record a successful Create stores under `id`. */
  function Created(input: Input, id: string): Data
  {
    ToData(input).(id := id, state := HookStateNormal)
  }

  // ---------------------------------------------------------------- buckets

  /** Putting an id that no bucket holds yet appends it, once, to the bucket of every listed type. */
  lemma {:induction false} AddToBucketsAppends(em: map<string, Bucket>, types: seq<string>, id: string)
    requires BucketsValid(em)
    requires forall e :: e in em ==> id !in em[e].keys
    ensures forall e :: e in types ==>
      e in AddToBuckets(em, types, id) && AddToBuckets(em, types, id)[e].keys == BucketKeys(em, e) + [id]
  {
    if types != [] {
      var init := types[..|types| - 1];
      var e := types[|types| - 1];
      AddToBucketsAppends(em, init, id);
      AddToBucketsFacts(em, init, id);
      var prev := AddToBuckets(em, init, id);
      var r := AddToBucket(prev, e, id);
      assert r == AddToBuckets(em, types, id);
      assert forall x :: x in types <==> x in init || x == e;
      if e in init {
        assert prev[e].keys == BucketKeys(em, e) + [id];
        assert id in prev[e].values;
        assert r[e].keys == prev[e].keys;
      } else if e in em {
        assert prev[e] == em[e];
        assert id !in prev[e].values;
      }
    }
  }

  /** Putting into buckets never takes a key out of one. */
  lemma {:induction false} AddToBucketsKeeps(em: map<string, Bucket>, types: seq<string>, id: string)
    ensures forall e, k :: e in em && k in em[e].keys ==>
      e in AddToBuckets(em, types, id) && k in AddToBuckets(em, types, id)[e].keys
  {
    if types != [] {
      var init := types[..|types| - 1];
      AddToBucketsKeeps(em, init, id);
    }
  }

  // ---------------------------------------------------------------- Create

  /** Create fails exactly on an empty or already registered url, and then changes nothing. */
  lemma CreateRejects(st: StoreState, input: Input)
    ensures CreateSpec(st, input).2.None? <==> input.url != "" && UrlLookup(st.urlMap, input.url) == ""
    ensures input.url == "" ==> CreateSpec(st, input) == (st, "", Some(Error("Url cannot be empty ")))
    ensures input.url != "" && UrlLookup(st.urlMap, input.url) != "" ==>
      CreateSpec(st, input) == (st, "", Some(Error("Url have been exists ")))
  {
  }

  /**
   * A successful Create draws the decimal string of the next counter value,
   * which no index holds yet, stores the input under it with state "normal",
   * maps the url to it and appends it to the bucket of every trigger type.
   */
  lemma CreateSucceeds(st: StoreState, input: Input)
    requires Inv(st)
    requires input.url != "" && UrlLookup(st.urlMap, input.url) == ""
    ensures var (st', id, err) := CreateSpec(st, input);
      && err == None
      && id == FormatInt(st.lastId + 1) && st'.lastId == st.lastId + 1
      && id !in st.idMap.values
      && st'.idMap.keys == st.idMap.keys + [id]
      && st'.idMap.values == st.idMap.values[id := Created(input, id)]
      && st'.urlMap == st.urlMap[input.url := id]
      && (forall e :: e in input.triggerEventTypes ==>
            e in st'.eventMap && st'.eventMap[e].keys == BucketKeys(st.eventMap, e) + [id])
      && (forall e :: e in st.eventMap && e !in input.triggerEventTypes ==> e in st'.eventMap && st'.eventMap[e] == st.eventMap[e])
  {
    var id := FormatInt(st.lastId + 1);
    NextIdFresh(st);
    PutValid(st.idMap, id, Created(input, id));
    AddToBucketsAppends(st.eventMap, input.triggerEventTypes, id);
    AddToBucketsFacts(st.eventMap, input.triggerEventTypes, id);
  }

  /** After Create, a query by the new id returns exactly the stored record. */
  lemma CreateThenQueryById(st: StoreState, input: Input)
    requires Inv(st)
    requires input.url != "" && UrlLookup(st.urlMap, input.url) == ""
    ensures var (st', id, _) := CreateSpec(st, input);
      QuerySpec(st', QueryCondition(id, "", "", "", 0, 0))
        == QueryResult([Created(input, id)], st.idMap.Size() + 1, None)
  {
    CreateSucceeds(st, input);
    var id := FormatInt(st.lastId + 1);
    ParseFormat(st.lastId + 1);
    assert id != "";
  }

  /**
   * After Create, for each trigger type, the new record is the last record
   * of the last page of that type's bucket, whatever the page size.
   */
  lemma CreateThenQueryByEventType(st: StoreState, input: Input, e: string, pageSize: int)
    requires Inv(st)
    requires input.url != "" && UrlLookup(st.urlMap, input.url) == ""
    requires e in input.triggerEventTypes && e != "" && pageSize > 0
    ensures var (st', id, _) := CreateSpec(st, input);
      var last := |BucketKeys(st.eventMap, e)| / pageSize;
      var r := QuerySpec(st', QueryCondition("", e, "", "", last, pageSize));
      r.err == None && |r.records| > 0 && r.records[|r.records| - 1] == Created(input, id)
  {
    CreateSucceeds(st, input);
    var (st', id, _) := CreateSpec(st, input);
    var n := |BucketKeys(st.eventMap, e)|;
    QueryPageIsWindow(st', QueryCondition("", e, "", "", n / pageSize, pageSize));
    LastPageEndsWith(BucketKeys(st.eventMap, e), id, st'.idMap.values, pageSize);
  }

  /** The last page of a walk over `ks + [id]` ends with the record of `id` when that one is live. */
  lemma LastPageEndsWith(ks: seq<string>, id: string, values: map<string, Data>, pageSize: int)
    requires pageSize > 0 && id in values
    ensures var p := Pick(Window(ks + [id], |ks| / pageSize * pageSize, pageSize), values, "");
      |p| > 0 && p[|p| - 1] == values[id]
  {
    var n := |ks|;
    var skip := n / pageSize * pageSize;
    FloorPage(n, pageSize);
    var w := Window(ks + [id], skip, pageSize);
    assert w == (ks + [id])[skip..n + 1];
    assert w == w[..|w| - 1] + [id];
  }

  /** The page holding position n starts at or before it and ends after it. */
  lemma FloorPage(n: nat, pageSize: int)
    requires pageSize > 0
    ensures 0 <= n / pageSize * pageSize <= n < n / pageSize * pageSize + pageSize
  {
    var q, r := n / pageSize, n % pageSize;
    assert n == q * pageSize + r;
  }

  // ---------------------------------------------------------------- Update

  /** Update of an unknown id fails and changes nothing. */
  lemma UpdateUnknown(st: StoreState, id: string, input: Input)
    requires Inv(st)
    requires id !in st.idMap.values
    ensures UpdateSpec(st, id, input) == (st, Some(Error("ID " + id + " not found ")))
  {
  }

  /**
   * Update of a known id keeps the key order and every other record. The
   * record gets each non-empty field of the input, keeps its own value for
   * an empty one, always takes the input's trigger types (even when empty),
   * and keeps its id, counters and times.
   */
  lemma UpdateRecord(st: StoreState, id: string, input: Input)
    requires Inv(st)
    requires id in st.idMap.values
    ensures var (st', err) := UpdateSpec(st, id, input);
      var v, v' := st.idMap.values[id], st'.idMap.values[id];
      && err == None
      && st'.idMap.keys == st.idMap.keys && st'.lastId == st.lastId
      && st'.idMap.values.Keys == st.idMap.values.Keys
      && (forall k :: k in st.idMap.values && k != id ==> st'.idMap.values[k] == st.idMap.values[k])
      && (input.url != "" ==> v'.url == input.url) && (input.url == "" ==> v'.url == v.url)
      && (input.secret != "" ==> v'.secret == input.secret) && (input.secret == "" ==> v'.secret == v.secret)
      && (input.contentType != "" ==> v'.contentType == input.contentType)
      && (input.contentType == "" ==> v'.contentType == v.contentType)
      && (input.state != "" ==> v'.state == input.state) && (input.state == "" ==> v'.state == v.state)
      && v'.triggerEventTypes == input.triggerEventTypes
      && v'.id == id
      && v'.failureCount == v.failureCount && v'.successCount == v.successCount
      && v'.lastFailureTime == v.lastFailureTime && v'.lastSuccessTime == v.lastSuccessTime
  {
    PutValid(st.idMap, id, Merge(st.idMap.values[id], input));
  }

  /**
   * The url index after an update: a new non-empty url is mapped to this id
   * and the record's old url is dropped; the url of another record is taken
   * over without any check, so that record keeps a url the index no longer
   * gives it.
   */
  lemma UpdateUrls(st: StoreState, id: string, input: Input)
    requires Inv(st)
    requires id in st.idMap.values
    ensures var st' := UpdateSpec(st, id, input).0;
      var was := st.idMap.values[id].url;
      && (input.url != "" && input.url != was ==> UrlLookup(st'.urlMap, input.url) == id && was !in st'.urlMap)
      && (input.url == "" || input.url == was ==> st'.urlMap == st.urlMap)
      && (forall u :: u in st.urlMap && u != was && u != input.url ==> u in st'.urlMap && st'.urlMap[u] == st.urlMap[u])
  {
  }

  /** Two live records can end up with the same url: Update never checks that the new url is free. */
  lemma UpdateSharesUrl(st: StoreState, id: string, other: string, input: Input)
    requires Inv(st)
    requires id in st.idMap.values && other in st.idMap.values && other != id
    requires input.url != "" && input.url == st.idMap.values[other].url && input.url != st.idMap.values[id].url
    ensures var st' := UpdateSpec(st, id, input).0;
      && st'.idMap.values[id].url == input.url
      && st'.idMap.values[other].url == input.url
      && UrlLookup(st'.urlMap, input.url) == id
  {
    UpdateRecord(st, id, input);
  }

  /**
   * The buckets after an update. The key `input.url`, not the id, is deleted
   * from the buckets of the record's old trigger types; the id is then put
   * into the buckets of the new ones. So:
   * - the id is in the bucket of every new trigger type;
   * - no key except `input.url` leaves any bucket, so the id stays in the
   *   buckets of old types it no longer triggers on (unless the url spells it);
   * - `input.url` leaves every old-type bucket the id is not put back into,
   *   which unsubscribes any live id that the url happens to spell;
   * - the only key a bucket gains is the id.
   */
  lemma UpdateBuckets(st: StoreState, id: string, input: Input)
    requires Inv(st)
    requires id in st.idMap.values
    ensures var em' := UpdateSpec(st, id, input).0.eventMap;
      var oldTypes := st.idMap.values[id].triggerEventTypes;
      && (forall e :: e in input.triggerEventTypes ==> e in em' && id in em'[e].keys)
      && (forall e, k :: e in st.eventMap && k in st.eventMap[e].keys && k != input.url ==> e in em' && k in em'[e].keys)
      && (forall e :: e in oldTypes && (e !in input.triggerEventTypes || input.url != id) ==>
            e in em' && input.url !in em'[e].keys)
      && (forall e, k :: e in em' && k in em'[e].keys ==> k == id || (e in st.eventMap && k in st.eventMap[e].keys))
  {
    var v := st.idMap.values[id];
    var em := DeleteFromBuckets(st.eventMap, v.triggerEventTypes, input.url);
    assert forall e :: e in v.triggerEventTypes ==> e in st.eventMap;
    DeleteFromBucketsFacts(st.eventMap, v.triggerEventTypes, input.url);
    AddToBucketsFacts(em, input.triggerEventTypes, id);
    AddToBucketsKeeps(em, input.triggerEventTypes, id);
    var em' := AddToBuckets(em, input.triggerEventTypes, id);
    assert em' == UpdateSpec(st, id, input).0.eventMap;
    forall e, k | e in em' && k in em'[e].keys
      ensures k == id || (e in st.eventMap && k in st.eventMap[e].keys)
    {
      assert k == id || (e in em && k in em[e].keys);
    }
    forall e | e in v.triggerEventTypes && (e !in input.triggerEventTypes || input.url != id)
      ensures e in em' && input.url !in em'[e].keys
    {
      assert input.url !in em[e].keys;
      if e !in input.triggerEventTypes {
        assert em'[e] == em[e];
      }
    }
  }

  /**
   * An update that drops event type `e` (and sets no new url) leaves the id
   * in `e`'s bucket, so the event-type query for `e` still returns the
   * updated record.
   */
  lemma UpdateKeepsDroppedType(st: StoreState, id: string, input: Input, e: string)
    requires Inv(st)
    requires id in st.idMap.values && id != ""
    requires input.url == "" && e != ""
    requires e in st.eventMap && st.eventMap[e].keys == [id]
    requires e in st.idMap.values[id].triggerEventTypes && e !in input.triggerEventTypes
    ensures var st' := UpdateSpec(st, id, input).0;
      id in st'.idMap.values
      && st'.idMap.values[id] in QuerySpec(st', QueryCondition("", e, "", "", 0, 0)).records
  {
    var st' := UpdateSpec(st, id, input).0;
    UpdatePreservesInv(st, id, input);
    UpdateRecord(st, id, input);
    UpdateBuckets(st, id, input);
    var ks := st'.eventMap[e].keys;
    assert id in ks;
    assert forall k :: k in ks ==> k == id;
    assert ks[0] in ks;
    assert PageKeys(st', e) == ks;
    QueryPage(st', QueryCondition("", e, "", "", 0, 0));
    assert 0 <= 0 < |ks| && 0 * 20 <= 0 < 0 * 20 + 20 && ks[0] in st'.idMap.values && Matches(st'.idMap.values[ks[0]], "");
  }

  // ---------------------------------------------------------------- UpdateNotifyStatus

  /**
   * A delivery outcome for a known id bumps exactly one counter by one and
   * sets its time; every other field, record and index is left as it was.
   * For an unknown id the store is unchanged and the call fails.
   */
  lemma UpdateNotifyStatusOutcome(st: StoreState, id: string, t: Timestamp, success: bool)
    requires Inv(st)
    ensures var (st', err) := UpdateNotifyStatusSpec(st, id, t, success);
      && (err == None <==> id in st.idMap.values)
      && (id !in st.idMap.values ==> st' == st && err == Some(Error("ID " + id + " not found ")))
      && (id in st.idMap.values ==>
            var v, v' := st.idMap.values[id], st'.idMap.values[id];
            && st'.idMap.keys == st.idMap.keys && st'.idMap.values.Keys == st.idMap.values.Keys
            && st'.urlMap == st.urlMap && st'.eventMap == st.eventMap && st'.lastId == st.lastId
            && (forall k :: k in st.idMap.values && k != id ==> st'.idMap.values[k] == st.idMap.values[k])
            && v'.successCount == v.successCount + (if success then 1 else 0)
            && v'.failureCount == v.failureCount + (if success then 0 else 1)
            && v'.lastSuccessTime == (if success then t else v.lastSuccessTime)
            && v'.lastFailureTime == (if success then v.lastFailureTime else t)
            && v'.(successCount := v.successCount, failureCount := v.failureCount,
                   lastSuccessTime := v.lastSuccessTime, lastFailureTime := v.lastFailureTime) == v)
  {
    if id in st.idMap.values {
      PutValid(st.idMap, id, Notified(st.idMap.values[id], t, success));
    }
  }

  // ---------------------------------------------------------------- Delete

  /**
   * Delete of a known id removes it from the id index, keeping the order of
   * the rest, and removes its url from the url index. In the buckets of its
   * trigger types it deletes the key equal to its url, so the id itself stays
   * there unless its url spells it. Delete of an unknown id changes nothing.
   */
  lemma DeleteOutcome(st: StoreState, id: string)
    requires Inv(st)
    ensures id !in st.idMap.values ==> DeleteSpec(st, id) == st
    ensures id in st.idMap.values ==>
      var st', v := DeleteSpec(st, id), st.idMap.values[id];
      && st'.idMap.keys == Remove(st.idMap.keys, id)
      && |st'.idMap.keys| == |st.idMap.keys| - 1
      && (forall k :: k in st'.idMap.values <==> k in st.idMap.values && k != id)
      && (forall k :: k in st'.idMap.values ==> st'.idMap.values[k] == st.idMap.values[k])
      && st'.urlMap == st.urlMap - {v.url}
      && st'.eventMap.Keys == st.eventMap.Keys
      && (forall e, k :: e in st.eventMap ==>
            (k in st'.eventMap[e].keys <==> k in st.eventMap[e].keys && !(k == v.url && e in v.triggerEventTypes)))
      && (v.url != id ==> forall e :: e in st.eventMap && id in st.eventMap[e].keys ==> id in st'.eventMap[e].keys)
  {
    if id in st.idMap.values {
      var v := st.idMap.values[id];
      assert forall e :: e in v.triggerEventTypes ==> e in st.eventMap;
      DeleteFromBucketsFacts(st.eventMap, v.triggerEventTypes, v.url);
      DeleteValid(st.idMap, id);
      RemoveLength(st.idMap.keys, id);
    }
  }

  /** Removing a key that occurs once shortens the sequence by one. */
  lemma {:induction false} RemoveLength(s: seq<string>, k: string)
    requires Distinct(s) && k in s
    ensures |Remove(s, k)| == |s| - 1
  {
    var init := s[..|s| - 1];
    if s[|s| - 1] == k {
      assert k !in init;
      RemoveAbsent(init, k);
    } else {
      assert k in init;
      RemoveLength(init, k);
    }
  }

  /** Deleting twice is deleting once: the second call finds nothing and succeeds. */
  lemma DeleteIdempotent(st: StoreState, id: string)
    requires Inv(st)
    ensures Inv(DeleteSpec(st, id))
    ensures DeleteSpec(DeleteSpec(st, id), id) == DeleteSpec(st, id)
  {
    DeletePreservesInv(st, id);
    DeleteOutcome(st, id);
    DeleteOutcome(DeleteSpec(st, id), id);
  }

  // ---------------------------------------------------------------- Query

  /** `total` is the size of the id index on every path, and a page size of 0 means 20. */
  lemma QueryTotal(st: StoreState, c: QueryCondition)
    ensures QuerySpec(st, c).total == |st.idMap.keys|
    ensures QuerySpec(st, c.(pageSize := 0)) == QuerySpec(st, c.(pageSize := DefaultPageSize))
  {
  }

  /** The id path returns the record or fails; the url path returns the record its url maps to or fails. */
  lemma QueryLookups(st: StoreState, c: QueryCondition)
    requires c.id != "" || c.url != ""
    ensures var r := QuerySpec(st, c);
      && |r.records| <= 1
      && (r.err == None <==> |r.records| == 1)
      && (c.id != "" ==> (r.err == None <==> c.id in st.idMap.values))
      && (c.id != "" && c.id in st.idMap.values ==> r.records == [st.idMap.values[c.id]])
      && (c.id != "" && c.id !in st.idMap.values ==> r.err == Some(Error("ID " + c.id + " not found ")))
      && (c.id == "" ==>
            var k := UrlLookup(st.urlMap, c.url);
            && (r.err == None <==> k != "" && k in st.idMap.values)
            && (r.err == None ==> r.records == [st.idMap.values[k]])
            && (r.err != None ==> r.err == Some(Error("Url " + c.url + " not found "))))
  {
  }

  /** The records Pick keeps are the live records of its keys that match the state filter. */
  lemma {:induction false} PickMembers(ks: seq<string>, values: map<string, Data>, state: string)
    ensures forall d :: d in Pick(ks, values, state) <==>
      exists i :: 0 <= i < |ks| && ks[i] in values && values[ks[i]] == d && Matches(d, state)
    ensures |Pick(ks, values, state)| <= |ks|
  {
    if ks != [] {
      var init := ks[..|ks| - 1];
      PickMembers(init, values, state);
      forall d
        ensures d in Pick(ks, values, state) <==>
          exists i :: 0 <= i < |ks| && ks[i] in values && values[ks[i]] == d && Matches(d, state)
      {
        if d in Pick(ks, values, state) && d !in Pick(init, values, state) {
          var i := |ks| - 1;
          assert ks[i] in values && values[ks[i]] == d && Matches(d, state);
        }
        if exists i :: 0 <= i < |ks| && ks[i] in values && values[ks[i]] == d && Matches(d, state) {
          var i :| 0 <= i < |ks| && ks[i] in values && values[ks[i]] == d && Matches(d, state);
          if i < |ks| - 1 {
            assert init[i] == ks[i];
          }
        }
      }
    }
  }

  /** The window holds the keys at positions `[skip, skip + size)` that exist, and never more than `size`. */
  lemma WindowMembers(s: seq<string>, skip: int, size: int)
    ensures forall k :: k in Window(s, skip, size) <==> exists i :: 0 <= i < |s| && skip <= i < skip + size && s[i] == k
    ensures |Window(s, skip, size)| <= if size > 0 then size else 0
  {
    var lo, hi := Clamp(skip, |s|), Clamp(skip + size, |s|);
    forall k
      ensures k in Window(s, skip, size) <==> exists i :: 0 <= i < |s| && skip <= i < skip + size && s[i] == k
    {
      if k in Window(s, skip, size) {
        var j :| 0 <= j < |s[lo..hi]| && s[lo..hi][j] == k;
        assert s[lo + j] == k;
      }
      if exists i :: 0 <= i < |s| && skip <= i < skip + size && s[i] == k {
        var i :| 0 <= i < |s| && skip <= i < skip + size && s[i] == k;
        assert s[lo..hi][i - lo] == k;
      }
    }
  }

  /**
   * The event-type and unfiltered paths never fail, return at most one page
   * of records, and return a record exactly when a key at a position inside
   * the window `[offset * pageSize, offset * pageSize + pageSize)` is live and
   * its record matches the state filter. Each returned record is stored under
   * its own id.
   */
  lemma QueryPage(st: StoreState, c: QueryCondition)
    requires Inv(st)
    requires c.id == "" && c.url == ""
    ensures var r, ps := QuerySpec(st, c), EffectivePageSize(c.pageSize);
      var ks := PageKeys(st, c.eventType);
      && r.err == None
      && |r.records| <= (if ps > 0 then ps else 0)
      && (forall d :: d in r.records <==>
            exists i :: 0 <= i < |ks| && c.offset * ps <= i < c.offset * ps + ps && ks[i] in st.idMap.values
                        && st.idMap.values[ks[i]] == d && Matches(d, c.state))
      && (forall d :: d in r.records ==> d.id in st.idMap.values && st.idMap.values[d.id] == d)
      && (forall d :: d in r.records ==> c.state == "" || d.state == c.state)
  {
    var ps := EffectivePageSize(c.pageSize);
    var ks := PageKeys(st, c.eventType);
    var w := Window(ks, c.offset * ps, ps);
    QueryPageIsWindow(st, c);
    PickMembers(w, st.idMap.values, c.state);
    WindowMembers(ks, c.offset * ps, ps);
    forall d
      ensures d in Pick(w, st.idMap.values, c.state) <==>
        exists i :: 0 <= i < |ks| && c.offset * ps <= i < c.offset * ps + ps && ks[i] in st.idMap.values
                    && st.idMap.values[ks[i]] == d && Matches(d, c.state)
    {
      if d in Pick(w, st.idMap.values, c.state) {
        var j :| 0 <= j < |w| && w[j] in st.idMap.values && st.idMap.values[w[j]] == d && Matches(d, c.state);
        assert w[j] in w;
      }
      if exists i :: 0 <= i < |ks| && c.offset * ps <= i < c.offset * ps + ps && ks[i] in st.idMap.values
                    && st.idMap.values[ks[i]] == d && Matches(d, c.state) {
        var i :| 0 <= i < |ks| && c.offset * ps <= i < c.offset * ps + ps && ks[i] in st.idMap.values
                 && st.idMap.values[ks[i]] == d && Matches(d, c.state);
        assert ks[i] in w;
        var j :| 0 <= j < |w| && w[j] == ks[i];
      }
    }
  }

  /** Where page `m` starts: `m` pages of `pageSize` positions each. */
  function PageStart(m: nat, pageSize: int): int
  {
    if m == 0 then 0 else PageStart(m - 1, pageSize) + pageSize
  }

  lemma {:induction false} PageStartIsProduct(m: nat, pageSize: int)
    ensures PageStart(m, pageSize) == m * pageSize
  {
    if m > 0 {
      PageStartIsProduct(m - 1, pageSize);
      assert (m - 1) * pageSize + pageSize == m * pageSize;
    }
  }

  /** Pages `0 .. m - 1` of a walk over `ks`, concatenated. */
  function Paged(ks: seq<string>, values: map<string, Data>, state: string, pageSize: int, m: nat): seq<Data>
  {
    if m == 0 then []
    else Paged(ks, values, state, pageSize, m - 1) + Pick(Window(ks, PageStart(m - 1, pageSize), pageSize), values, state)
  }

  /** Two adjacent windows make up the window that spans both. */
  lemma WindowConcat(s: seq<string>, a: int, b: int, c: int)
    requires 0 <= a <= b <= c
    ensures Window(s, a, b - a) + Window(s, b, c - b) == Window(s, a, c - a)
  {
    var la, lb, lc := Clamp(a, |s|), Clamp(b, |s|), Clamp(c, |s|);
    if la < lb && lb < lc {
      assert s[la..lb] + s[lb..lc] == s[la..lc];
    }
  }

  /** Pages `0 .. m - 1` together are the window of the first `m * pageSize` positions, filtered. */
  lemma PagesJoin(ks: seq<string>, values: map<string, Data>, state: string, pageSize: int, m: nat)
    requires pageSize > 0
    ensures Paged(ks, values, state, pageSize, m) == Pick(Window(ks, 0, m * pageSize), values, state)
  {
    PagesJoinFrom(ks, values, state, pageSize, m);
    PageStartIsProduct(m, pageSize);
  }

  lemma {:induction false} PagesJoinFrom(ks: seq<string>, values: map<string, Data>, state: string, pageSize: int, m: nat)
    requires pageSize > 0
    ensures 0 <= PageStart(m, pageSize)
    ensures Paged(ks, values, state, pageSize, m) == Pick(Window(ks, 0, PageStart(m, pageSize)), values, state)
  {
    if m > 0 {
      PagesJoinFrom(ks, values, state, pageSize, m - 1);
      NextPageJoins(ks, values, state, pageSize, PageStart(m - 1, pageSize), PageStart(m, pageSize));
    }
  }

  /** The filtered window of the first `a` positions, followed by the page at `a`, is the filtered window of the first `a + pageSize`. */
  lemma NextPageJoins(ks: seq<string>, values: map<string, Data>, state: string, pageSize: int, a: int, b: int)
    requires 0 <= a && pageSize > 0 && b == a + pageSize
    ensures Pick(Window(ks, 0, a), values, state) + Pick(Window(ks, a, pageSize), values, state)
         == Pick(Window(ks, 0, b), values, state)
  {
    WindowConcat(ks, 0, a, b);
    PickAppend(Window(ks, 0, a), Window(ks, a, pageSize), values, state);
  }

  /**
   * Paging through a walk with a positive page size until past its end
   * visits every live matching record exactly once, in key order: the
   * window-then-filter rule loses nothing when no page is skipped.
   */
  lemma PagesCover(ks: seq<string>, values: map<string, Data>, state: string, pageSize: int, m: nat)
    requires pageSize > 0 && m * pageSize >= |ks|
    ensures Paged(ks, values, state, pageSize, m) == Pick(ks, values, state)
  {
    PagesJoin(ks, values, state, pageSize, m);
    assert Window(ks, 0, m * pageSize) == ks[0..|ks|];
    assert ks[0..|ks|] == ks;
  }
}
