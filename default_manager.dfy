/**
 * `defaultManager.doNotify`: pages through the subscriptions of an event's
 * type (no state filter, 1024 per page, stopping at the first empty page),
 * signs and sends to each one once, records every send's outcome in the
 * store, and returns the sign and send errors as one aggregate error.
 */
module DefaultManager {
  import opened Wrappers
  import opened Errors
  import opened Recorder
  import opened LinkedMaps
  import opened StoreSpec
  import opened StoreLemmas
  import opened DispatchSpec
  import opened DefaultRecorder

  /** Page size of the dispatch queries. */
  const NotifySize: int := 1024

  /** Per-delivery timeout in seconds; timeouts are not modelled, a timed-out send is one the sender fails. */
  const NotifyTimeoutSeconds: int := 15

  /** Signing succeeds for `t`. */
  predicate Signed(t: Target, sign: Signer)
  {
    sign(t.secret).Ok?
  }

  /** The one send doNotify makes to `t` succeeds. */
  predicate SendOk(t: Target, ev: Event, sign: Signer, send: Sender)
    requires Signed(t, sign)
  {
    send(Request(t.url, t.contentType, sign(t.secret).value, ev), 0).Ok?
  }

  /** One subscriber: a sign error is collected and ends its turn; otherwise one send, its outcome recorded. */
  function DeliverOne(st: StoreState, errs: seq<Error>, t: Target, ev: Event, sign: Signer, send: Sender, now: Timestamp)
    : (StoreState, seq<Error>)
  {
    match sign(t.secret)
    case Err(e) => (st, errs + [e])
    case Ok(signature) =>
      match send(Request(t.url, t.contentType, signature, ev), 0)
      case Err(e) => (UpdateNotifyStatusSpec(st, t.id, now, false).0, errs + [e])
      case Ok(_) => (UpdateNotifyStatusSpec(st, t.id, now, true).0, errs)
  }

  /** The subscribers of `ts`, one after the other. */
  function Deliver(st: StoreState, errs: seq<Error>, ts: seq<Target>, ev: Event, sign: Signer, send: Sender, now: Timestamp)
    : (StoreState, seq<Error>)
    decreases |ts|
  {
    if ts == [] then (st, errs)
    else
      var (st', errs') := DeliverOne(st, errs, ts[0], ev, sign, send, now);
      Deliver(st', errs', ts[1..], ev, sign, send, now)
  }

  /** The paging loop from page `offset`, each page read from the store as the previous pages left it. */
  function DoNotifySpec(st: StoreState, errs: seq<Error>, ev: Event, sign: Signer, send: Sender, now: Timestamp, offset: nat)
    : (StoreState, seq<Error>)
    decreases |PageKeys(st, ev.eventType)| - PageStart(offset, NotifySize)
  {
    var p := Page(st, ev.eventType, "", NotifySize, offset);
    if p == [] then (st, errs)
    else
      PageInRange(st, ev.eventType, "", NotifySize, offset);
      NextPage(offset, NotifySize);
      var (st', errs') := Deliver(st, errs, TargetsOf(p), ev, sign, send, now);
      DeliverKeepsShape(st, errs, TargetsOf(p), ev, sign, send, now);
      ShapePageKeys(st', st, ev.eventType);
      DoNotifySpec(st', errs', ev, sign, send, now, offset + 1)
  }

  /** How many queries the paging loop makes from page `offset` on: one per page up to and including the first empty one. */
  function DoNotifyQueries(st: StoreState, errs: seq<Error>, ev: Event, sign: Signer, send: Sender, now: Timestamp, offset: nat): nat
    decreases |PageKeys(st, ev.eventType)| - PageStart(offset, NotifySize)
  {
    var p := Page(st, ev.eventType, "", NotifySize, offset);
    if p == [] then 1
    else
      PageInRange(st, ev.eventType, "", NotifySize, offset);
      NextPage(offset, NotifySize);
      var (st', errs') := Deliver(st, errs, TargetsOf(p), ev, sign, send, now);
      DeliverKeepsShape(st, errs, TargetsOf(p), ev, sign, send, now);
      ShapePageKeys(st', st, ev.eventType);
      1 + DoNotifyQueries(st', errs', ev, sign, send, now, offset + 1)
  }

  // ---------------------------------------------------------------- lemmas

  /** Deliveries only record outcomes: the walk reads the same store afterwards. */
  lemma {:induction false} DeliverKeepsShape(st: StoreState, errs: seq<Error>, ts: seq<Target>, ev: Event, sign: Signer, send: Sender, now: Timestamp)
    ensures Shape(Deliver(st, errs, ts, ev, sign, send, now).0) == Shape(st)
    decreases |ts|
  {
    if ts != [] {
      var (st', errs') := DeliverOne(st, errs, ts[0], ev, sign, send, now);
      StatusKeepsShape(st, ts[0].id, now, true);
      StatusKeepsShape(st, ts[0].id, now, false);
      DeliverKeepsShape(st', errs', ts[1..], ev, sign, send, now);
    }
  }

  lemma {:induction false} DeliverAppend(st: StoreState, errs: seq<Error>, a: seq<Target>, b: seq<Target>, ev: Event, sign: Signer, send: Sender, now: Timestamp)
    ensures var (st', errs') := Deliver(st, errs, a, ev, sign, send, now);
      Deliver(st, errs, a + b, ev, sign, send, now) == Deliver(st', errs', b, ev, sign, send, now)
    decreases |a|
  {
    if a == [] {
      assert a + b == b;
    } else {
      var (st1, errs1) := DeliverOne(st, errs, a[0], ev, sign, send, now);
      assert (a + b)[1..] == a[1..] + b;
      DeliverAppend(st1, errs1, a[1..], b, ev, sign, send, now);
    }
  }

  /** One round of the paging loop: deliver page `offset`, which is not empty, then go on from page `offset + 1` of the same walk. */
  lemma DoNotifyStep(st: StoreState, errs: seq<Error>, ev: Event, sign: Signer, send: Sender, now: Timestamp, offset: nat)
    requires Page(st, ev.eventType, "", NotifySize, offset) != []
    ensures var (st', errs') := Deliver(st, errs, TargetsOf(Page(st, ev.eventType, "", NotifySize, offset)), ev, sign, send, now);
      && DoNotifySpec(st, errs, ev, sign, send, now, offset) == DoNotifySpec(st', errs', ev, sign, send, now, offset + 1)
      && Shape(st') == Shape(st)
      && PageKeys(st', ev.eventType) == PageKeys(st, ev.eventType)
      && PageStart(offset, NotifySize) < PageStart(offset + 1, NotifySize) <= |PageKeys(st, ev.eventType)| + NotifySize
  {
    var p := Page(st, ev.eventType, "", NotifySize, offset);
    PageInRange(st, ev.eventType, "", NotifySize, offset);
    NextPage(offset, NotifySize);
    var (st', errs') := Deliver(st, errs, TargetsOf(p), ev, sign, send, now);
    DeliverKeepsShape(st, errs, TargetsOf(p), ev, sign, send, now);
    ShapePageKeys(st', st, ev.eventType);
  }

  /** Stores of the same shape have the same first empty page from any page on. */
  lemma {:induction false} ShapeFirstEmptyPage(a: StoreState, b: StoreState, eventType: string, offset: nat)
    requires Shape(a) == Shape(b)
    ensures FirstEmptyPage(a, eventType, "", NotifySize, offset) == FirstEmptyPage(b, eventType, "", NotifySize, offset)
    decreases |PageKeys(a, eventType)| - PageStart(offset, NotifySize)
  {
    ShapePage(a, b, eventType, "", NotifySize, offset);
    if Page(a, eventType, "", NotifySize, offset) != [] {
      PageInRange(a, eventType, "", NotifySize, offset);
      NextPage(offset, NotifySize);
      ShapeFirstEmptyPage(a, b, eventType, offset + 1);
    }
  }

  /** The paging loop makes one query more than the index of the first empty page of the walk over the store it starts on. */
  lemma {:induction false} DoNotifyQueryCount(st: StoreState, errs: seq<Error>, ev: Event, sign: Signer, send: Sender, now: Timestamp, offset: nat)
    ensures DoNotifyQueries(st, errs, ev, sign, send, now, offset) == FirstEmptyPage(st, ev.eventType, "", NotifySize, offset) + 1 - offset
    decreases |PageKeys(st, ev.eventType)| - PageStart(offset, NotifySize)
  {
    var p := Page(st, ev.eventType, "", NotifySize, offset);
    if p != [] {
      var (st', errs') := Deliver(st, errs, TargetsOf(p), ev, sign, send, now);
      DoNotifyStep(st, errs, ev, sign, send, now, offset);
      DoNotifyQueryCount(st', errs', ev, sign, send, now, offset + 1);
      ShapeFirstEmptyPage(st', st, ev.eventType, offset + 1);
      PageInRange(st, ev.eventType, "", NotifySize, offset);
      NextPage(offset, NotifySize);
    }
  }

  /**
   * One round of the paging loop: the query returns page `offset`; an
   * empty page ends the loop there; otherwise delivering it leads to the
   * next round, with the same first empty page ahead.
   */
  lemma DoNotifyRound(st: StoreState, errs: seq<Error>, ev: Event, sign: Signer, send: Sender, now: Timestamp, offset: nat)
    ensures var p := Page(st, ev.eventType, "", NotifySize, offset);
      && QuerySpec(st, QueryCondition("", ev.eventType, "", "", offset, NotifySize)).records == p
      && (p == [] ==>
            && DoNotifyQueries(st, errs, ev, sign, send, now, offset) == 1
            && DoNotifySpec(st, errs, ev, sign, send, now, offset) == (st, errs))
      && (p != [] ==>
            var (st', errs') := Deliver(st, errs, TargetsOf(p), ev, sign, send, now);
            && DoNotifySpec(st, errs, ev, sign, send, now, offset) == DoNotifySpec(st', errs', ev, sign, send, now, offset + 1)
            && DoNotifyQueries(st, errs, ev, sign, send, now, offset) == 1 + DoNotifyQueries(st', errs', ev, sign, send, now, offset + 1)
            && |PageKeys(st', ev.eventType)| - PageStart(offset + 1, NotifySize) < |PageKeys(st, ev.eventType)| - PageStart(offset, NotifySize))
  {
    PageIsQuery(st, ev.eventType, "", NotifySize, offset);
    if Page(st, ev.eventType, "", NotifySize, offset) != [] {
      DoNotifyStep(st, errs, ev, sign, send, now, offset);
    }
  }

  /**
   * The paging loop delivers to exactly the subscriptions the walk over the
   * initial store hands out, in order: recording outcomes between pages
   * never changes which subscriptions the later pages return.
   */
  lemma {:induction false} DoNotifyDeliversTargets(st: StoreState, errs: seq<Error>, ev: Event, sign: Signer, send: Sender, now: Timestamp, offset: nat)
    ensures DoNotifySpec(st, errs, ev, sign, send, now, offset)
         == Deliver(st, errs, Targets(st, ev.eventType, "", NotifySize, offset), ev, sign, send, now)
    decreases |PageKeys(st, ev.eventType)| - PageStart(offset, NotifySize)
  {
    var p := Page(st, ev.eventType, "", NotifySize, offset);
    if p != [] {
      var (st', errs') := Deliver(st, errs, TargetsOf(p), ev, sign, send, now);
      DoNotifyStep(st, errs, ev, sign, send, now, offset);
      DoNotifyDeliversTargets(st', errs', ev, sign, send, now, offset + 1);
      ShapeTargets(st', st, ev.eventType, "", NotifySize, offset + 1);
      assert Targets(st, ev.eventType, "", NotifySize, offset) == TargetsOf(p) + Targets(st, ev.eventType, "", NotifySize, offset + 1);
      DeliverAppend(st, errs, TargetsOf(p), Targets(st, ev.eventType, "", NotifySize, offset + 1), ev, sign, send, now);
    }
  }

  /** How many of `ts` fail to sign or to send. */
  function Failures(ts: seq<Target>, ev: Event, sign: Signer, send: Sender): nat
  {
    if ts == [] then 0
    else (if Signed(ts[0], sign) && SendOk(ts[0], ev, sign, send) then 0 else 1) + Failures(ts[1..], ev, sign, send)
  }

  /** How many of `ts` are subscription `k` signed and sent with the outcome `ok`. */
  function Sends(ts: seq<Target>, k: string, ok: bool, ev: Event, sign: Signer, send: Sender): nat
  {
    if ts == [] then 0
    else (if ts[0].id == k && Signed(ts[0], sign) && SendOk(ts[0], ev, sign, send) == ok then 1 else 0)
         + Sends(ts[1..], k, ok, ev, sign, send)
  }

  /** The error doNotify collects for `t`: its sign error, or else the error of its one send; none when both succeed. */
  function TargetErrors(t: Target, ev: Event, sign: Signer, send: Sender): seq<Error>
  {
    match sign(t.secret)
    case Err(e) => [e]
    case Ok(signature) =>
      match send(Request(t.url, t.contentType, signature, ev), 0)
      case Err(e) => [e]
      case Ok(_) => []
  }

  /** The errors doNotify collects for `ts`, in order: one per subscriber that fails to sign or to send. */
  function ErrorsOf(ts: seq<Target>, ev: Event, sign: Signer, send: Sender): (es: seq<Error>)
    ensures |es| == Failures(ts, ev, sign, send)
    decreases |ts|
  {
    if ts == [] then []
    else TargetErrors(ts[0], ev, sign, send) + ErrorsOf(ts[1..], ev, sign, send)
  }

  /**
   * The errors collected are exactly those of `ErrorsOf`, in encounter
   * order after the errors already collected; nothing else adds one
   * (status-update failures are only logged).
   */
  lemma {:induction false} DeliverErrors(st: StoreState, errs: seq<Error>, ts: seq<Target>, ev: Event, sign: Signer, send: Sender, now: Timestamp)
    ensures var errs' := Deliver(st, errs, ts, ev, sign, send, now).1;
      && errs' == errs + ErrorsOf(ts, ev, sign, send)
      && |errs'| == |errs| + Failures(ts, ev, sign, send)
    decreases |ts|
  {
    if ts != [] {
      var (st1, errs1) := DeliverOne(st, errs, ts[0], ev, sign, send, now);
      assert errs1 == errs + TargetErrors(ts[0], ev, sign, send);
      DeliverErrors(st1, errs1, ts[1..], ev, sign, send, now);
      AppendAssoc(errs, TargetErrors(ts[0], ev, sign, send), ErrorsOf(ts[1..], ev, sign, send));
    }
  }

  /**
   * Each signed subscriber gets exactly one status update: for every live
   * subscription, its success count grows by its successful sends and its
   * failure count by its failed sends, and a time is set to `now` exactly
   * when the matching count grew. Sign failures record nothing.
   */
  lemma {:induction false} DeliverCounters(st: StoreState, errs: seq<Error>, ts: seq<Target>, ev: Event, sign: Signer, send: Sender, now: Timestamp, k: string)
    requires k in st.idMap.values
    ensures var st' := Deliver(st, errs, ts, ev, sign, send, now).0;
      var v := st.idMap.values[k];
      && k in st'.idMap.values
      && st'.idMap.values[k].successCount == v.successCount + Sends(ts, k, true, ev, sign, send)
      && st'.idMap.values[k].failureCount == v.failureCount + Sends(ts, k, false, ev, sign, send)
      && st'.idMap.values[k].lastSuccessTime == (if Sends(ts, k, true, ev, sign, send) > 0 then now else v.lastSuccessTime)
      && st'.idMap.values[k].lastFailureTime == (if Sends(ts, k, false, ev, sign, send) > 0 then now else v.lastFailureTime)
    decreases |ts|
  {
    if ts != [] {
      var (st1, errs1) := DeliverOne(st, errs, ts[0], ev, sign, send, now);
      assert k in st1.idMap.values && st1.idMap.values[k] == (
        if ts[0].id == k && Signed(ts[0], sign) then Notified(st.idMap.values[k], now, SendOk(ts[0], ev, sign, send))
        else st.idMap.values[k]);
      DeliverCounters(st1, errs1, ts[1..], ev, sign, send, now, k);
    }
  }

  /**
   * The whole of doNotify on a store: the subscriptions of the walk over the
   * initial store are each delivered once; the errors are each failing
   * subscriber's sign or send error, in walk order, so the result is no
   * error exactly when every one of them signed and sent; the statistics of each live subscription grow by its outcomes;
   * nothing the walk reads changes.
   */
  lemma DoNotifyOutcome(st: StoreState, ev: Event, sign: Signer, send: Sender, now: Timestamp, k: string)
    requires k in st.idMap.values
    ensures var ts := Targets(st, ev.eventType, "", NotifySize, 0);
      var (st', errs) := DoNotifySpec(st, [], ev, sign, send, now, 0);
      && Shape(st') == Shape(st)
      && errs == ErrorsOf(ts, ev, sign, send)
      && |errs| == Failures(ts, ev, sign, send)
      && (errs == [] <==> forall t :: t in ts ==> Signed(t, sign) && SendOk(t, ev, sign, send))
      && k in st'.idMap.values
      && st'.idMap.values[k].successCount == st.idMap.values[k].successCount + Sends(ts, k, true, ev, sign, send)
      && st'.idMap.values[k].failureCount == st.idMap.values[k].failureCount + Sends(ts, k, false, ev, sign, send)
  {
    var ts := Targets(st, ev.eventType, "", NotifySize, 0);
    DoNotifyDeliversTargets(st, [], ev, sign, send, now, 0);
    DeliverKeepsShape(st, [], ts, ev, sign, send, now);
    DeliverErrors(st, [], ts, ev, sign, send, now);
    assert [] + ErrorsOf(ts, ev, sign, send) == ErrorsOf(ts, ev, sign, send);
    DeliverCounters(st, [], ts, ev, sign, send, now, k);
    FailuresZero(ts, ev, sign, send);
  }

  /**
   * No state filter: every live subscription whose key sits before the
   * first empty page is delivered to, "abnormal" and "forbidden" ones too.
   */
  lemma DoNotifyIgnoresState(st: StoreState, eventType: string, i: int)
    requires 0 <= i < |PageKeys(st, eventType)|
    requires i < FirstEmptyPage(st, eventType, "", NotifySize, 0) * NotifySize
    requires PageKeys(st, eventType)[i] in st.idMap.values
    ensures TargetOf(st.idMap.values[PageKeys(st, eventType)[i]]) in Targets(st, eventType, "", NotifySize, 0)
  {
    HandsOutBeforeFirstEmptyPage(st, eventType, "", NotifySize, i);
  }

  /**
   * doNotify stops at the first empty page, so it makes at most
   * ceil(n / 1024) + 1 queries for n walked keys.
   */
  lemma DoNotifyQueryBound(st: StoreState, eventType: string)
    ensures FirstEmptyPage(st, eventType, "", NotifySize, 0) + 1 <= (|PageKeys(st, eventType)| + NotifySize - 1) / NotifySize + 1
  {
    QueryCountBound(st, eventType, "", NotifySize, 0);
  }

  lemma {:induction false} FailuresZero(ts: seq<Target>, ev: Event, sign: Signer, send: Sender)
    ensures Failures(ts, ev, sign, send) == 0 <==> forall t :: t in ts ==> Signed(t, sign) && SendOk(t, ev, sign, send)
  {
    if ts != [] {
      FailuresZero(ts[1..], ev, sign, send);
      assert forall t :: t in ts <==> t == ts[0] || t in ts[1..];
    }
  }

  // ---------------------------------------------------------------- the manager

  /** The dispatch manager over the in-memory store, with its signer and sender. */
  class Manager {
    const recorder: MemRecorder
    const sign: Signer
    const send: Sender

    constructor (recorder: MemRecorder, sign: Signer, send: Sender)
      ensures this.recorder == recorder && this.sign == sign && this.send == send
    {
      this.recorder := recorder;
      this.sign := sign;
      this.send := send;
    }

    /** `doNotify`, with `now` the time read once before the loop. */
    method DoNotify(ev: Event, now: Timestamp) returns (err: Option<seq<Error>>, ghost queries: nat)
      requires recorder.Valid()
      modifies recorder
      ensures recorder.Valid()
      ensures var (st, errs) := DoNotifySpec(old(recorder.State()), [], ev, sign, send, now, 0);
        recorder.State() == st && err == (if errs == [] then None else Some(errs))
      ensures queries == FirstEmptyPage(old(recorder.State()), ev.eventType, "", NotifySize, 0) + 1
    {
      ghost var st0 := recorder.State();
      var offset := 0;
      var errList := new ErrorList();
      queries := 0;
      while true
        invariant recorder.Valid() && fresh(errList)
        invariant DoNotifySpec(st0, [], ev, sign, send, now, 0)
               == DoNotifySpec(recorder.State(), errList.errors, ev, sign, send, now, offset)
        invariant DoNotifyQueries(st0, [], ev, sign, send, now, 0)
               == queries + DoNotifyQueries(recorder.State(), errList.errors, ev, sign, send, now, offset)
        decreases |PageKeys(recorder.State(), ev.eventType)| - PageStart(offset, NotifySize)
      {
        var more := DeliverRound(offset, ev, now, errList);
        queries := queries + 1;
        if !more {
          break;
        }
        offset := offset + 1;
      }
      DoNotifyQueryCount(st0, [], ev, sign, send, now, 0);
      err := None;
      if !errList.Empty() {
        err := Some(errList.errors);
      }
    }

    /**
     * One round of the paging loop: query page `offset` and deliver it;
     * `more` is false, and nothing changes, when the page is empty.
     */
    method DeliverRound(offset: nat, ev: Event, now: Timestamp, errs: ErrorList) returns (more: bool)
      requires recorder.Valid()
      modifies recorder, errs
      ensures recorder.Valid()
      ensures var st, es := old(recorder.State()), old(errs.errors);
        && (!more ==>
              && recorder.State() == st && errs.errors == es
              && DoNotifyQueries(st, es, ev, sign, send, now, offset) == 1
              && DoNotifySpec(st, es, ev, sign, send, now, offset) == (st, es))
        && (more ==>
              && DoNotifySpec(st, es, ev, sign, send, now, offset)
                 == DoNotifySpec(recorder.State(), errs.errors, ev, sign, send, now, offset + 1)
              && DoNotifyQueries(st, es, ev, sign, send, now, offset)
                 == 1 + DoNotifyQueries(recorder.State(), errs.errors, ev, sign, send, now, offset + 1)
              && |PageKeys(recorder.State(), ev.eventType)| - PageStart(offset + 1, NotifySize)
                 < |PageKeys(st, ev.eventType)| - PageStart(offset, NotifySize))
    {
      var r := recorder.Query(QueryCondition("", ev.eventType, "", "", offset, NotifySize));
      DoNotifyRound(recorder.State(), errs.errors, ev, sign, send, now, offset);
      var datas := r.records;
      if |datas| == 0 {
        return false;
      }
      DeliverPage(datas, ev, now, errs);
      return true;
    }

    /** One page of `doNotify`: sign and send to each subscriber of `datas` in turn, recording each outcome. */
    method DeliverPage(datas: seq<Data>, ev: Event, now: Timestamp, errs: ErrorList)
      requires recorder.Valid()
      modifies recorder, errs
      ensures recorder.Valid()
      ensures (recorder.State(), errs.errors) == Deliver(old(recorder.State()), old(errs.errors), TargetsOf(datas), ev, sign, send, now)
    {
      ghost var ts := TargetsOf(datas);
      for i := 0 to |datas|
        invariant recorder.Valid()
        invariant Deliver(old(recorder.State()), old(errs.errors), ts, ev, sign, send, now)
               == Deliver(recorder.State(), errs.errors, ts[i..], ev, sign, send, now)
      {
        var d := datas[i];
        assert ts[i..][0] == TargetOf(d) && ts[i..][1..] == ts[i + 1..];
        var signature := sign(d.secret);
        if signature.Err? {
          var _ := errs.Add([signature.error]);
          continue;
        }
        var sent := send(Request(d.url, d.contentType, signature.value, ev), 0);
        if sent.Err? {
          var _ := errs.Add([sent.error]);
          var _ := recorder.UpdateNotifyStatus(d.id, now, false);
        } else {
          var _ := recorder.UpdateNotifyStatus(d.id, now, true);
        }
      }
      assert ts[|datas|..] == [];
    }
  }
}
