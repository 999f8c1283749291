/**
 * What the two dispatch managers share: events, delivery requests, the
 * signer and sender they call (abstract here), and the paging walk both
 * make through the store, which asks for pages 0, 1, 2, ... of one query
 * and stops at the first empty page.
 */
module DispatchSpec {
  import opened Wrappers
  import opened Errors
  import opened Recorder
  import opened LinkedMaps
  import opened StoreSpec
  import opened StoreLemmas

  /** An event: its type selects the subscriptions, its body is what gets delivered. */
  datatype Event = Event(eventType: string, body: string)

  /** One HTTP delivery: target url, content type, the signature header and the event. */
  datatype Request = Request(url: string, contentType: string, signature: string, event: Event)

  /** `SignatureFunc`: signs a subscription's secret, or fails. */
  type Signer = string -> Result<string, Error>

  /**
   * `Notifier.Send`: the response body of a delivery, or its failure. The
   * network is not deterministic, so the outcome may depend on which attempt
   * (0, 1, ...) of the same delivery this is.
   */
  type Sender = (Request, nat) -> Result<string, Error>

  /** The fields of a subscription a delivery reads. */
  datatype Target = Target(id: string, url: string, contentType: string, secret: string)

  function TargetOf(d: Data): Target
  {
    Target(d.id, d.url, d.contentType, d.secret)
  }

  function TargetsOf(ds: seq<Data>): (ts: seq<Target>)
    ensures |ts| == |ds|
  {
    seq(|ds|, i requires 0 <= i < |ds| => TargetOf(ds[i]))
  }

  lemma TargetsOfAppend(a: seq<Data>, b: seq<Data>)
    ensures TargetsOf(a + b) == TargetsOf(a) + TargetsOf(b)
  {
  }

  /**
   * Page `offset` of the walk for `eventType` and `state`: the live, matching
   * records among the `pageSize` walked keys from where that page starts.
   */
  function Page(st: StoreState, eventType: string, state: string, pageSize: int, offset: nat): seq<Data>
  {
    Pick(Window(PageKeys(st, eventType), PageStart(offset, pageSize), pageSize), st.idMap.values, state)
  }

  /** A page is what the store answers to the query a manager makes for it. */
  lemma PageIsQuery(st: StoreState, eventType: string, state: string, pageSize: int, offset: nat)
    requires pageSize > 0
    ensures QuerySpec(st, QueryCondition("", eventType, "", state, offset, pageSize)).records
         == Page(st, eventType, state, pageSize, offset)
  {
    QueryPageIsWindow(st, QueryCondition("", eventType, "", state, offset, pageSize));
    PageStartIsProduct(offset, pageSize);
  }

  /** Pages start at non-negative positions. */
  lemma PageIsWindow(st: StoreState, eventType: string, state: string, pageSize: int, offset: nat)
    requires pageSize > 0
    ensures 0 <= PageStart(offset, pageSize)
    ensures Page(st, eventType, state, pageSize, offset)
         == Pick(Window(PageKeys(st, eventType), PageStart(offset, pageSize), pageSize), st.idMap.values, state)
  {
    PageStartIsProduct(offset, pageSize);
  }

  /** A non-empty page starts inside the walked keys, which bounds the paging loop. */
  lemma PageInRange(st: StoreState, eventType: string, state: string, pageSize: int, offset: nat)
    requires pageSize > 0
    ensures 0 <= PageStart(offset, pageSize)
    ensures Page(st, eventType, state, pageSize, offset) != [] ==> PageStart(offset, pageSize) < |PageKeys(st, eventType)|
  {
    PageIsWindow(st, eventType, state, pageSize, offset);
  }

  /** Page `offset + 1` starts one page after page `offset`. */
  lemma NextPage(offset: nat, pageSize: int)
    ensures PageStart(offset + 1, pageSize) == PageStart(offset, pageSize) + pageSize
  {
  }

  /** The offset of the first empty page at or after `offset`: the query that ends the loop. */
  function FirstEmptyPage(st: StoreState, eventType: string, state: string, pageSize: int, offset: nat): nat
    requires pageSize > 0
    decreases |PageKeys(st, eventType)| - PageStart(offset, pageSize)
  {
    if Page(st, eventType, state, pageSize, offset) == [] then offset
    else
      PageInRange(st, eventType, state, pageSize, offset);
      NextPage(offset, pageSize);
      FirstEmptyPage(st, eventType, state, pageSize, offset + 1)
  }

  /** The subscriptions the walk from page `offset` hands out, page after page, in order. */
  function Targets(st: StoreState, eventType: string, state: string, pageSize: int, offset: nat): seq<Target>
    requires pageSize > 0
    decreases |PageKeys(st, eventType)| - PageStart(offset, pageSize)
  {
    var p := Page(st, eventType, state, pageSize, offset);
    if p == [] then []
    else
      PageInRange(st, eventType, state, pageSize, offset);
      NextPage(offset, pageSize);
      TargetsOf(p) + Targets(st, eventType, state, pageSize, offset + 1)
  }

  // ---------------------------------------------------------------- what the walk covers

  /**
   * The walk from page `offset` hands out exactly the live, matching
   * subscriptions of the positions from the start of page `offset` up to the
   * start of the first empty page, in key order.
   */
  lemma {:induction false} TargetsWindow(st: StoreState, eventType: string, state: string, pageSize: int, offset: nat)
    requires pageSize > 0
    ensures WalkSpan(st, eventType, state, pageSize, offset)
    decreases |PageKeys(st, eventType)| - PageStart(offset, pageSize)
  {
    if Page(st, eventType, state, pageSize, offset) == [] {
      EmptyPageSpan(st, eventType, state, pageSize, offset);
    } else {
      PageInRange(st, eventType, state, pageSize, offset);
      NextPage(offset, pageSize);
      TargetsWindow(st, eventType, state, pageSize, offset + 1);
      SpanStep(st, eventType, state, pageSize, offset);
    }
  }

  /** What TargetsWindow states for the walk from page `offset`. */
  ghost predicate WalkSpan(st: StoreState, eventType: string, state: string, pageSize: int, offset: nat)
    requires pageSize > 0
  {
    var m := FirstEmptyPage(st, eventType, state, pageSize, offset);
    && m >= offset
    && Spans(Targets(st, eventType, state, pageSize, offset), PageKeys(st, eventType), st.idMap.values, state,
             PageStart(offset, pageSize), PageStart(m, pageSize))
  }

  /** `ts` are the targets of the live, matching records of the positions `[a, c)` of `ks`. */
  ghost predicate Spans(ts: seq<Target>, ks: seq<string>, vs: map<string, Data>, state: string, a: int, c: int)
  {
    a <= c && ts == TargetsOf(Pick(Window(ks, a, c - a), vs, state))
  }

  lemma EmptyPageSpan(st: StoreState, eventType: string, state: string, pageSize: int, offset: nat)
    requires pageSize > 0
    requires Page(st, eventType, state, pageSize, offset) == []
    ensures WalkSpan(st, eventType, state, pageSize, offset)
  {
    assert FirstEmptyPage(st, eventType, state, pageSize, offset) == offset;
    assert Window(PageKeys(st, eventType), PageStart(offset, pageSize), 0) == [];
  }

  lemma SpanStep(st: StoreState, eventType: string, state: string, pageSize: int, offset: nat)
    requires pageSize > 0
    requires Page(st, eventType, state, pageSize, offset) != []
    requires WalkSpan(st, eventType, state, pageSize, offset + 1)
    ensures WalkSpan(st, eventType, state, pageSize, offset)
  {
    var ks, vs := PageKeys(st, eventType), st.idMap.values;
    var a, b := PageStart(offset, pageSize), PageStart(offset + 1, pageSize);
    PageInRange(st, eventType, state, pageSize, offset);
    NextPage(offset, pageSize);
    var m := FirstEmptyPage(st, eventType, state, pageSize, offset + 1);
    WalkOn(st, eventType, state, pageSize, offset);
    var tp, rest := TargetsOf(Page(st, eventType, state, pageSize, offset)), Targets(st, eventType, state, pageSize, offset + 1);
    assert Spans(tp, ks, vs, state, a, b);
    JoinPages(tp, rest, ks, vs, state, a, b, PageStart(m, pageSize));
  }

  /** After a non-empty page the walk goes on from the next page. */
  lemma WalkOn(st: StoreState, eventType: string, state: string, pageSize: int, offset: nat)
    requires pageSize > 0
    requires Page(st, eventType, state, pageSize, offset) != []
    ensures FirstEmptyPage(st, eventType, state, pageSize, offset) == FirstEmptyPage(st, eventType, state, pageSize, offset + 1)
    ensures Targets(st, eventType, state, pageSize, offset)
         == TargetsOf(Page(st, eventType, state, pageSize, offset)) + Targets(st, eventType, state, pageSize, offset + 1)
  {
  }

  /** A page followed by the pages after it is the filtered window spanning them all. */
  lemma JoinPages(tp: seq<Target>, rest: seq<Target>, ks: seq<string>, vs: map<string, Data>, state: string, a: int, b: int, c: int)
    requires 0 <= a && Spans(tp, ks, vs, state, a, b) && Spans(rest, ks, vs, state, b, c)
    ensures Spans(tp + rest, ks, vs, state, a, c)
  {
    WindowConcat(ks, a, b, c);
    PickAppend(Window(ks, a, b - a), Window(ks, b, c - b), vs, state);
    TargetsOfAppend(Pick(Window(ks, a, b - a), vs, state), Pick(Window(ks, b, c - b), vs, state));
  }

  lemma MulMono(a: int, b: int, c: nat)
    requires a <= b
    ensures a * c <= b * c
  {
  }

  lemma CeilBound(x: int, d: int)
    requires d > 0
    ensures x < (x / d + 1) * d
  {
    MulDistrib(x / d + 1, 1, d);
  }

  lemma MulDistrib(a: int, b: int, c: int)
    ensures (a - b) * c == a * c - b * c
  {
  }

  /**
   * The walk needs at most ceil(n / pageSize) non-empty pages for n walked
   * keys, so the loop makes at most ceil(n / pageSize) + 1 queries.
   */
  lemma {:induction false} QueryCountBound(st: StoreState, eventType: string, state: string, pageSize: int, offset: nat)
    requires pageSize > 0
    ensures var ceil := (|PageKeys(st, eventType)| + pageSize - 1) / pageSize;
      FirstEmptyPage(st, eventType, state, pageSize, offset) <= if offset <= ceil then ceil else offset
    decreases |PageKeys(st, eventType)| - PageStart(offset, pageSize)
  {
    var n := |PageKeys(st, eventType)|;
    if Page(st, eventType, state, pageSize, offset) != [] {
      PageInRange(st, eventType, state, pageSize, offset);
      NextPage(offset, pageSize);
      QueryCountBound(st, eventType, state, pageSize, offset + 1);
      CeilAbove(n, pageSize, offset);
    }
  }

  /** A page that starts before position n is among the first ceil(n / pageSize) pages. */
  lemma CeilAbove(n: int, pageSize: int, offset: nat)
    requires pageSize > 0 && PageStart(offset, pageSize) < n
    ensures offset + 1 <= (n + pageSize - 1) / pageSize
  {
    PageStartIsProduct(offset, pageSize);
    var ceil := (n + pageSize - 1) / pageSize;
    if ceil < offset + 1 {
      MulMono(ceil + 1, offset + 1, pageSize);
      CeilBound(n + pageSize - 1, pageSize);
    }
  }

  /**
   * When the walk is not cut short (no empty page before the walked keys
   * run out), every live matching subscription is handed out exactly once,
   * in key order.
   */
  lemma TargetsComplete(st: StoreState, eventType: string, state: string, pageSize: int)
    requires pageSize > 0
    requires FirstEmptyPage(st, eventType, state, pageSize, 0) * pageSize >= |PageKeys(st, eventType)|
    ensures Targets(st, eventType, state, pageSize, 0) == TargetsOf(Pick(PageKeys(st, eventType), st.idMap.values, state))
  {
    var ks := PageKeys(st, eventType);
    TargetsWindow(st, eventType, state, pageSize, 0);
    var m := FirstEmptyPage(st, eventType, state, pageSize, 0);
    PageStartIsProduct(m, pageSize);
    assert Window(ks, 0, PageStart(m, pageSize)) == ks[0..|ks|];
    assert ks[0..|ks|] == ks;
  }

  /**
   * The walk stops at the first empty page even when live, matching
   * subscriptions come later: the window is filtered after it is cut, so a
   * page whose positions hold only stale or non-matching keys ends the loop,
   * and no key at or after that page's start is ever handed out.
   */
  lemma StopsAtFirstEmptyPage(st: StoreState, eventType: string, state: string, pageSize: int, i: int)
    requires Inv(st)
    requires pageSize > 0
    requires 0 <= i < |PageKeys(st, eventType)|
    requires i >= FirstEmptyPage(st, eventType, state, pageSize, 0) * pageSize
    ensures forall t :: t in Targets(st, eventType, state, pageSize, 0) ==> t.id != PageKeys(st, eventType)[i]
  {
    var ks := PageKeys(st, eventType);
    var m := FirstEmptyPage(st, eventType, state, pageSize, 0);
    TargetIdsBeforeFirstEmptyPage(st, eventType, state, pageSize);
    assert Distinct(ks) by {
      if eventType != "" && eventType in st.eventMap {
        assert st.eventMap[eventType].Valid();
      }
    }
  }

  /**
   * Conversely, every live subscription matching the state filter whose key
   * sits before the first empty page is handed out.
   */
  lemma HandsOutBeforeFirstEmptyPage(st: StoreState, eventType: string, state: string, pageSize: int, i: int)
    requires pageSize > 0
    requires 0 <= i < |PageKeys(st, eventType)|
    requires i < FirstEmptyPage(st, eventType, state, pageSize, 0) * pageSize
    requires PageKeys(st, eventType)[i] in st.idMap.values
    requires Matches(st.idMap.values[PageKeys(st, eventType)[i]], state)
    ensures TargetOf(st.idMap.values[PageKeys(st, eventType)[i]]) in Targets(st, eventType, state, pageSize, 0)
  {
    var ks := PageKeys(st, eventType);
    var m := FirstEmptyPage(st, eventType, state, pageSize, 0);
    TargetsWindow(st, eventType, state, pageSize, 0);
    PageStartIsProduct(m, pageSize);
    var w := Window(ks, 0, PageStart(m, pageSize));
    WindowMembers(ks, 0, PageStart(m, pageSize));
    assert ks[i] in w;
    var x :| 0 <= x < |w| && w[x] == ks[i];
    var d := st.idMap.values[ks[i]];
    PickMembers(w, st.idMap.values, state);
    TargetsOfIncludes(Pick(w, st.idMap.values, state), d);
  }

  /** Every handed-out subscription is the record of a live subscription that matches the state filter. */
  lemma TargetsMatch(st: StoreState, eventType: string, state: string, pageSize: int, t: Target)
    requires pageSize > 0
    requires t in Targets(st, eventType, state, pageSize, 0)
    ensures exists k :: k in st.idMap.values && Matches(st.idMap.values[k], state) && TargetOf(st.idMap.values[k]) == t
  {
    var ks := PageKeys(st, eventType);
    var m := FirstEmptyPage(st, eventType, state, pageSize, 0);
    TargetsWindow(st, eventType, state, pageSize, 0);
    var w := Window(ks, 0, PageStart(m, pageSize));
    var P := Pick(w, st.idMap.values, state);
    PickMembers(w, st.idMap.values, state);
    TargetsOfMembers(P, t);
    var d :| d in P && TargetOf(d) == t;
    var x :| 0 <= x < |w| && w[x] in st.idMap.values && st.idMap.values[w[x]] == d && Matches(d, state);
  }

  lemma TargetsOfIncludes(ds: seq<Data>, d: Data)
    requires d in ds
    ensures TargetOf(d) in TargetsOf(ds)
  {
    var j :| 0 <= j < |ds| && ds[j] == d;
    assert TargetsOf(ds)[j] == TargetOf(d);
  }

  /** Every handed-out subscription is stored under a key at a position before the first empty page. */
  lemma TargetIdsBeforeFirstEmptyPage(st: StoreState, eventType: string, state: string, pageSize: int)
    requires Inv(st)
    requires pageSize > 0
    ensures var ks, m := PageKeys(st, eventType), FirstEmptyPage(st, eventType, state, pageSize, 0);
      forall t :: t in Targets(st, eventType, state, pageSize, 0) ==>
        exists y :: 0 <= y < |ks| && y < m * pageSize && ks[y] == t.id
  {
    var ks := PageKeys(st, eventType);
    var m := FirstEmptyPage(st, eventType, state, pageSize, 0);
    TargetsWindow(st, eventType, state, pageSize, 0);
    PageStartIsProduct(m, pageSize);
    var w := Window(ks, 0, PageStart(m, pageSize));
    var P := Pick(w, st.idMap.values, state);
    PickMembers(w, st.idMap.values, state);
    WindowMembers(ks, 0, PageStart(m, pageSize));
    forall t | t in Targets(st, eventType, state, pageSize, 0)
      ensures exists y :: 0 <= y < |ks| && y < m * pageSize && ks[y] == t.id
    {
      TargetsOfMembers(P, t);
      var d :| d in P && TargetOf(d) == t;
      var x :| 0 <= x < |w| && w[x] in st.idMap.values && st.idMap.values[w[x]] == d && Matches(d, state);
      assert w[x] in w;
      assert t.id == w[x];
    }
  }

  lemma TargetsOfMembers(ds: seq<Data>, t: Target)
    requires t in TargetsOf(ds)
    ensures exists d :: d in ds && TargetOf(d) == t
  {
    var j :| 0 <= j < |ds| && TargetsOf(ds)[j] == t;
    assert ds[j] in ds;
  }

  // ---------------------------------------------------------------- walks over a store whose counters change

  /** A record without its delivery statistics. */
  function Profile(d: Data): Data
  {
    d.(failureCount := 0, successCount := 0, lastFailureTime := ZeroTime, lastSuccessTime := ZeroTime)
  }

  /** The store without delivery statistics: what the walk reads. */
  function Shape(st: StoreState): StoreState
  {
    st.(idMap := LinkedMap(st.idMap.keys, map k | k in st.idMap.values :: Profile(st.idMap.values[k])))
  }

  /** Recording a delivery outcome changes no part of the store the walk reads. */
  lemma StatusKeepsShape(st: StoreState, id: string, t: Timestamp, success: bool)
    ensures Shape(UpdateNotifyStatusSpec(st, id, t, success).0) == Shape(st)
  {
    if id in st.idMap.values {
      var st' := UpdateNotifyStatusSpec(st, id, t, success).0;
      assert st'.idMap.keys == st.idMap.keys;
      assert Shape(st').idMap.values == Shape(st).idMap.values;
    }
  }

  /** Stores of the same shape give the same targets from the same keys. */
  lemma {:induction false} ShapePick(a: StoreState, b: StoreState, ks: seq<string>, state: string)
    requires Shape(a) == Shape(b)
    ensures TargetsOf(Pick(ks, a.idMap.values, state)) == TargetsOf(Pick(ks, b.idMap.values, state))
  {
    if ks != [] {
      var init, k := ks[..|ks| - 1], ks[|ks| - 1];
      ShapePick(a, b, init, state);
      assert Shape(a).idMap.values == Shape(b).idMap.values;
      assert k in a.idMap.values <==> k in Shape(a).idMap.values;
      if k in a.idMap.values {
        assert Profile(a.idMap.values[k]) == Shape(a).idMap.values[k];
        assert Profile(a.idMap.values[k]) == Profile(b.idMap.values[k]);
      }
      var pa, pb := Pick(init, a.idMap.values, state), Pick(init, b.idMap.values, state);
      var la := if k in a.idMap.values && Matches(a.idMap.values[k], state) then [a.idMap.values[k]] else [];
      var lb := if k in b.idMap.values && Matches(b.idMap.values[k], state) then [b.idMap.values[k]] else [];
      TargetsOfAppend(pa, la);
      TargetsOfAppend(pb, lb);
    }
  }

  /** Stores of the same shape walk the same keys. */
  lemma ShapePageKeys(a: StoreState, b: StoreState, eventType: string)
    requires Shape(a) == Shape(b)
    ensures PageKeys(a, eventType) == PageKeys(b, eventType)
  {
    assert a.eventMap == Shape(a).eventMap && a.idMap.keys == Shape(a).idMap.keys;
  }

  /** Stores of the same shape give the same targets on every page. */
  lemma ShapePage(a: StoreState, b: StoreState, eventType: string, state: string, pageSize: int, offset: nat)
    requires pageSize > 0
    requires Shape(a) == Shape(b)
    ensures TargetsOf(Page(a, eventType, state, pageSize, offset)) == TargetsOf(Page(b, eventType, state, pageSize, offset))
  {
    ShapePageKeys(a, b, eventType);
    var w := Window(PageKeys(a, eventType), PageStart(offset, pageSize), pageSize);
    PageIsWindow(a, eventType, state, pageSize, offset);
    PageIsWindow(b, eventType, state, pageSize, offset);
    ShapePick(a, b, w, state);
  }

  /** Stores of the same shape walk the same way: same pages, same targets. */
  lemma {:induction false} ShapeTargets(a: StoreState, b: StoreState, eventType: string, state: string, pageSize: int, offset: nat)
    requires pageSize > 0
    requires Shape(a) == Shape(b)
    ensures TargetsOf(Page(a, eventType, state, pageSize, offset)) == TargetsOf(Page(b, eventType, state, pageSize, offset))
    ensures Targets(a, eventType, state, pageSize, offset) == Targets(b, eventType, state, pageSize, offset)
    ensures PageKeys(a, eventType) == PageKeys(b, eventType)
    decreases |PageKeys(a, eventType)| - PageStart(offset, pageSize)
  {
    ShapePageKeys(a, b, eventType);
    ShapePage(a, b, eventType, state, pageSize, offset);
    var pa, pb := Page(a, eventType, state, pageSize, offset), Page(b, eventType, state, pageSize, offset);
    assert |pa| == |TargetsOf(pa)| == |TargetsOf(pb)| == |pb|;
    if pa != [] {
      PageInRange(a, eventType, state, pageSize, offset);
      NextPage(offset, pageSize);
      ShapeTargets(a, b, eventType, state, pageSize, offset + 1);
      assert Targets(a, eventType, state, pageSize, offset) == TargetsOf(pa) + Targets(a, eventType, state, pageSize, offset + 1);
      assert Targets(b, eventType, state, pageSize, offset) == TargetsOf(pb) + Targets(b, eventType, state, pageSize, offset + 1);
    }
  }
}
