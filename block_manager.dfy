/**
 * `blockManager.Notify`: pages through the subscriptions of an event's type
 * that are in state "normal" (256 per page, stopping at the first empty
 * page) and runs `notify` for each one: sign, then up to `retryCount` sends
 * until one succeeds, recording every attempt's outcome in the store and
 * publishing one response per subscriber.
 *
 * Go runs each `notify` in its own goroutine; here they run one after the
 * other, in the order the pages hand the subscriptions out, and the
 * response channel is the sequence of published responses.
 */
module BlockManager {
  import opened Wrappers
  import opened Errors
  import opened Recorder
  import opened StoreSpec
  import opened StoreLemmas
  import opened DispatchSpec
  import opened DefaultRecorder

  /** Capacity of the response channel, also the page size of the dispatch queries. */
  const ResponseChanBufferSize: int := 256
  /** Send attempts per subscriber unless configured otherwise. */
  const DefaultRetryCount: int := 1

  /** What a subscriber's `notify` publishes: its url, the decoded reply, the error of its last attempt or of decoding. */
  datatype Response = Response(url: string, payload: Option<string>, error: Option<Error>)

  /** Decodes a reply body into a payload and an error; both may be present. */
  type Deserializer = string -> (Option<string>, Option<Error>)

  /** The payload and error of a successful reply: nothing to decode without a deserializer. */
  function Decoded(body: string, ds: Option<Deserializer>): (Option<string>, Option<Error>)
  {
    if ds.None? then (None, None) else ds.value(body)
  }

  /**
   * The retry loop from attempt `i` on: a failed send collects its error,
   * becomes the response and is recorded as a failure, and the loop goes
   * on; a successful send is recorded as a success, its reply decoded (a
   * decoding error is collected too) and the loop stops.
   */
  function Attempts(st: StoreState, errs: seq<Error>, resp: Option<Response>, id: string, req: Request,
                    send: Sender, ds: Option<Deserializer>, now: Timestamp, i: nat, retryCount: int)
    : (StoreState, seq<Error>, Option<Response>)
    decreases retryCount - i
  {
    if i >= retryCount then (st, errs, resp)
    else
      match send(req, i)
      case Err(e) =>
        Attempts(UpdateNotifyStatusSpec(st, id, now, false).0, errs + [e], Some(Response(req.url, None, Some(e))),
                 id, req, send, ds, now, i + 1, retryCount)
      case Ok(body) =>
        var (payload, err) := Decoded(body, ds);
        (UpdateNotifyStatusSpec(st, id, now, true).0, errs + (if err.Some? then [err.value] else []),
         Some(Response(req.url, payload, err)))
  }

  /** One subscriber's `notify`: a sign error is only logged and publishes no response. */
  function NotifyOneSpec(st: StoreState, errs: seq<Error>, t: Target, ev: Event, sign: Signer, send: Sender,
                         ds: Option<Deserializer>, now: Timestamp, retryCount: int)
    : (StoreState, seq<Error>, Option<Response>)
  {
    match sign(t.secret)
    case Err(_) => (st, errs, None)
    case Ok(signature) =>
      Attempts(st, errs, None, t.id, Request(t.url, t.contentType, signature, ev), send, ds, now, 0, retryCount)
  }

  /** The subscribers of `ts`, one after the other, each publishing one response. */
  function NotifyAll(st: StoreState, errs: seq<Error>, rs: seq<Option<Response>>, ts: seq<Target>, ev: Event,
                     sign: Signer, send: Sender, ds: Option<Deserializer>, now: Timestamp, retryCount: int)
    : (StoreState, seq<Error>, seq<Option<Response>>)
    decreases |ts|
  {
    if ts == [] then (st, errs, rs)
    else
      var (st', errs', resp) := NotifyOneSpec(st, errs, ts[0], ev, sign, send, ds, now, retryCount);
      NotifyAll(st', errs', rs + [resp], ts[1..], ev, sign, send, ds, now, retryCount)
  }

  /** The paging loop of `Notify` from page `offset`, each page read from the store as the previous pages left it. */
  function NotifySpec(st: StoreState, errs: seq<Error>, rs: seq<Option<Response>>, ev: Event, sign: Signer, send: Sender,
                      ds: Option<Deserializer>, now: Timestamp, retryCount: int, offset: nat)
    : (StoreState, seq<Error>, seq<Option<Response>>)
    decreases |PageKeys(st, ev.eventType)| - PageStart(offset, ResponseChanBufferSize)
  {
    var p := Page(st, ev.eventType, HookStateNormal, ResponseChanBufferSize, offset);
    if p == [] then (st, errs, rs)
    else
      PageInRange(st, ev.eventType, HookStateNormal, ResponseChanBufferSize, offset);
      NextPage(offset, ResponseChanBufferSize);
      var (st', errs', rs') := NotifyAll(st, errs, rs, TargetsOf(p), ev, sign, send, ds, now, retryCount);
      NotifyAllKeepsShape(st, errs, rs, TargetsOf(p), ev, sign, send, ds, now, retryCount);
      assert PageKeys(st', ev.eventType) == PageKeys(st, ev.eventType) by {
        ShapePageKeys(st', st, ev.eventType);
      }
      NotifySpec(st', errs', rs', ev, sign, send, ds, now, retryCount, offset + 1)
  }

  // ---------------------------------------------------------------- shape

  lemma {:induction false} AttemptsKeepShape(st: StoreState, errs: seq<Error>, resp: Option<Response>, id: string, req: Request,
                                             send: Sender, ds: Option<Deserializer>, now: Timestamp, i: nat, retryCount: int)
    ensures Shape(Attempts(st, errs, resp, id, req, send, ds, now, i, retryCount).0) == Shape(st)
    decreases retryCount - i
  {
    if i < retryCount {
      StatusKeepsShape(st, id, now, true);
      StatusKeepsShape(st, id, now, false);
      if send(req, i).Err? {
        var e := send(req, i).error;
        AttemptsKeepShape(UpdateNotifyStatusSpec(st, id, now, false).0, errs + [e], Some(Response(req.url, None, Some(e))),
                          id, req, send, ds, now, i + 1, retryCount);
      }
    }
  }

  /** Notifying only records outcomes: the walk reads the same store afterwards. */
  lemma {:induction false} NotifyAllKeepsShape(st: StoreState, errs: seq<Error>, rs: seq<Option<Response>>, ts: seq<Target>, ev: Event,
                                               sign: Signer, send: Sender, ds: Option<Deserializer>, now: Timestamp, retryCount: int)
    ensures Shape(NotifyAll(st, errs, rs, ts, ev, sign, send, ds, now, retryCount).0) == Shape(st)
    decreases |ts|
  {
    if ts != [] {
      var t := ts[0];
      if sign(t.secret).Ok? {
        AttemptsKeepShape(st, errs, None, t.id, Request(t.url, t.contentType, sign(t.secret).value, ev), send, ds, now, 0, retryCount);
      }
      var (st', errs', resp) := NotifyOneSpec(st, errs, t, ev, sign, send, ds, now, retryCount);
      NotifyAllKeepsShape(st', errs', rs + [resp], ts[1..], ev, sign, send, ds, now, retryCount);
    }
  }

  lemma {:induction false} NotifyAllAppend(st: StoreState, errs: seq<Error>, rs: seq<Option<Response>>, a: seq<Target>, b: seq<Target>, ev: Event,
                                           sign: Signer, send: Sender, ds: Option<Deserializer>, now: Timestamp, retryCount: int)
    ensures var (st', errs', rs') := NotifyAll(st, errs, rs, a, ev, sign, send, ds, now, retryCount);
      NotifyAll(st, errs, rs, a + b, ev, sign, send, ds, now, retryCount) == NotifyAll(st', errs', rs', b, ev, sign, send, ds, now, retryCount)
    decreases |a|
  {
    if a == [] {
      assert a + b == b;
    } else {
      var (st1, errs1, resp) := NotifyOneSpec(st, errs, a[0], ev, sign, send, ds, now, retryCount);
      assert (a + b)[1..] == a[1..] + b;
      NotifyAllAppend(st1, errs1, rs + [resp], a[1..], b, ev, sign, send, ds, now, retryCount);
    }
  }

  /** One round of the paging loop: notify page `offset`, which is not empty, then go on from page `offset + 1` of the same walk. */
  lemma NotifyStep(st: StoreState, errs: seq<Error>, rs: seq<Option<Response>>, ev: Event, sign: Signer, send: Sender,
                   ds: Option<Deserializer>, now: Timestamp, retryCount: int, offset: nat)
    requires Page(st, ev.eventType, HookStateNormal, ResponseChanBufferSize, offset) != []
    ensures var ts := TargetsOf(Page(st, ev.eventType, HookStateNormal, ResponseChanBufferSize, offset));
      var (st', errs', rs') := NotifyAll(st, errs, rs, ts, ev, sign, send, ds, now, retryCount);
      && NotifySpec(st, errs, rs, ev, sign, send, ds, now, retryCount, offset)
         == NotifySpec(st', errs', rs', ev, sign, send, ds, now, retryCount, offset + 1)
      && Shape(st') == Shape(st)
      && PageKeys(st', ev.eventType) == PageKeys(st, ev.eventType)
      && PageStart(offset, ResponseChanBufferSize) < PageStart(offset + 1, ResponseChanBufferSize)
      && PageStart(offset, ResponseChanBufferSize) < |PageKeys(st, ev.eventType)|
  {
    var p := Page(st, ev.eventType, HookStateNormal, ResponseChanBufferSize, offset);
    PageInRange(st, ev.eventType, HookStateNormal, ResponseChanBufferSize, offset);
    NextPage(offset, ResponseChanBufferSize);
    var (st', errs', rs') := NotifyAll(st, errs, rs, TargetsOf(p), ev, sign, send, ds, now, retryCount);
    NotifyAllKeepsShape(st, errs, rs, TargetsOf(p), ev, sign, send, ds, now, retryCount);
    ShapePageKeys(st', st, ev.eventType);
  }

  /**
   * The paging loop notifies exactly the subscriptions the walk over the
   * initial store hands out, in order.
   */
  lemma {:induction false} NotifyNotifiesTargets(st: StoreState, errs: seq<Error>, rs: seq<Option<Response>>, ev: Event, sign: Signer, send: Sender,
                                                 ds: Option<Deserializer>, now: Timestamp, retryCount: int, offset: nat)
    ensures NotifySpec(st, errs, rs, ev, sign, send, ds, now, retryCount, offset)
         == NotifyAll(st, errs, rs, Targets(st, ev.eventType, HookStateNormal, ResponseChanBufferSize, offset), ev, sign, send, ds, now, retryCount)
    decreases |PageKeys(st, ev.eventType)| - PageStart(offset, ResponseChanBufferSize)
  {
    var p := Page(st, ev.eventType, HookStateNormal, ResponseChanBufferSize, offset);
    if p != [] {
      var (st', errs', rs') := NotifyAll(st, errs, rs, TargetsOf(p), ev, sign, send, ds, now, retryCount);
      NotifyStep(st, errs, rs, ev, sign, send, ds, now, retryCount, offset);
      ShapeTargets(st', st, ev.eventType, HookStateNormal, ResponseChanBufferSize, offset + 1);
      NotifyNotifiesTargets(st', errs', rs', ev, sign, send, ds, now, retryCount, offset + 1);
      assert Targets(st, ev.eventType, HookStateNormal, ResponseChanBufferSize, offset)
          == TargetsOf(p) + Targets(st, ev.eventType, HookStateNormal, ResponseChanBufferSize, offset + 1);
      NotifyAllAppend(st, errs, rs, TargetsOf(p), Targets(st, ev.eventType, HookStateNormal, ResponseChanBufferSize, offset + 1),
                      ev, sign, send, ds, now, retryCount);
    }
  }

  // ---------------------------------------------------------------- retries

  /** The first attempt in `[i, retryCount)` whose send succeeds, if any; every attempt before it fails. */
  function FirstOk(req: Request, send: Sender, i: nat, retryCount: int): (j: Option<nat>)
    ensures j.Some? ==> i <= j.value < retryCount && send(req, j.value).Ok?
    ensures j.Some? ==> forall a :: i <= a < j.value ==> send(req, a).Err?
    ensures j.None? ==> forall a :: i <= a < retryCount ==> send(req, a).Err?
    decreases retryCount - i
  {
    if i >= retryCount then None
    else if send(req, i).Ok? then Some(i)
    else FirstOk(req, send, i + 1, retryCount)
  }

  /** The errors of the failing sends among attempts `[i, j)`, in order: one per attempt when they all fail. */
  function SendErrors(req: Request, send: Sender, i: nat, j: int): (es: seq<Error>)
    ensures (forall a :: i <= a < j ==> send(req, a).Err?) ==> |es| == (if i < j then j - i else 0)
    decreases j - i
  {
    if i >= j then []
    else (if send(req, i).Err? then [send(req, i).error] else []) + SendErrors(req, send, i + 1, j)
  }

  /** The decoding error of a successful reply, if any. */
  function DecodeErrors(body: string, ds: Option<Deserializer>): seq<Error>
  {
    var err := Decoded(body, ds).1;
    if err.Some? then [err.value] else []
  }

  /** The errors the retry loop collects from attempt `i` on: the failed sends before the first success, then its decoding error. */
  function AttemptErrors(req: Request, send: Sender, ds: Option<Deserializer>, i: nat, retryCount: int): seq<Error>
  {
    match FirstOk(req, send, i, retryCount)
    case None => SendErrors(req, send, i, retryCount)
    case Some(j) => SendErrors(req, send, i, j) + DecodeErrors(send(req, j).value, ds)
  }

  /** The retry loop appends exactly the errors of `AttemptErrors`, on any store. */
  lemma {:induction false} AttemptsErrors(st: StoreState, errs: seq<Error>, resp: Option<Response>, id: string, req: Request,
                                          send: Sender, ds: Option<Deserializer>, now: Timestamp, i: nat, retryCount: int)
    ensures Attempts(st, errs, resp, id, req, send, ds, now, i, retryCount).1 == errs + AttemptErrors(req, send, ds, i, retryCount)
    decreases retryCount - i
  {
    if i < retryCount && send(req, i).Err? {
      var e := send(req, i).error;
      AttemptsErrors(UpdateNotifyStatusSpec(st, id, now, false).0, errs + [e], Some(Response(req.url, None, Some(e))),
                     id, req, send, ds, now, i + 1, retryCount);
      var rest := AttemptErrors(req, send, ds, i + 1, retryCount);
      assert FirstOk(req, send, i, retryCount) == FirstOk(req, send, i + 1, retryCount);
      match FirstOk(req, send, i, retryCount)
      case None =>
        assert SendErrors(req, send, i, retryCount) == [e] + SendErrors(req, send, i + 1, retryCount);
      case Some(j) =>
        assert SendErrors(req, send, i, j) == [e] + SendErrors(req, send, i + 1, j);
        assert AttemptErrors(req, send, ds, i, retryCount) == [e] + rest;
      AppendAssoc(errs, [e], rest);
    } else if i < retryCount {
      assert SendErrors(req, send, i, i) == [];
    }
  }

  /**
   * The retry loop on a live subscription. Without a successful attempt,
   * every remaining attempt is made, each adding one failure stamped `now`
   * and one error, and the response is the last attempt's failure.
   * Otherwise the attempts before the first success each add one failure
   * stamped `now` and one error, the success adds one success stamped
   * `now`, the response carries the decoded reply, and a decoding error is
   * the one further error. Either way at most the remaining attempts are
   * recorded, and the errors collected are those of `AttemptErrors`, after
   * the earlier ones.
   */
  lemma {:induction false} AttemptsOutcome(st: StoreState, errs: seq<Error>, resp: Option<Response>, id: string, req: Request,
                                           send: Sender, ds: Option<Deserializer>, now: Timestamp, i: nat, retryCount: int)
    requires id in st.idMap.values
    ensures var (st', errs', resp') := Attempts(st, errs, resp, id, req, send, ds, now, i, retryCount);
      var v := st.idMap.values[id];
      var left := if i < retryCount then retryCount - i else 0;
      && id in st'.idMap.values
      && errs' == errs + AttemptErrors(req, send, ds, i, retryCount)
      && |errs'| >= |errs| && errs'[..|errs|] == errs
      && (st'.idMap.values[id].failureCount - v.failureCount) + (st'.idMap.values[id].successCount - v.successCount) <= left
      && (FirstOk(req, send, i, retryCount).None? ==>
            && st'.idMap.values[id].successCount == v.successCount
            && st'.idMap.values[id].lastSuccessTime == v.lastSuccessTime
            && st'.idMap.values[id].failureCount == v.failureCount + left
            && st'.idMap.values[id].lastFailureTime == (if i < retryCount then now else v.lastFailureTime)
            && |errs'| == |errs| + left
            && (i < retryCount ==>
                  send(req, retryCount - 1).Err? && resp' == Some(Response(req.url, None, Some(send(req, retryCount - 1).error))))
            && (i >= retryCount ==> resp' == resp))
      && (FirstOk(req, send, i, retryCount).Some? ==>
            var j := FirstOk(req, send, i, retryCount).value;
            var (payload, err) := Decoded(send(req, j).value, ds);
            && st'.idMap.values[id].successCount == v.successCount + 1
            && st'.idMap.values[id].lastSuccessTime == now
            && st'.idMap.values[id].failureCount == v.failureCount + (j - i)
            && st'.idMap.values[id].lastFailureTime == (if j > i then now else v.lastFailureTime)
            && |errs'| == |errs| + (j - i) + (if err.Some? then 1 else 0)
            && resp' == Some(Response(req.url, payload, err)))
    decreases retryCount - i
  {
    AttemptsErrors(st, errs, resp, id, req, send, ds, now, i, retryCount);
    if i < retryCount && send(req, i).Err? {
      var e := send(req, i).error;
      var st1 := UpdateNotifyStatusSpec(st, id, now, false).0;
      var errs1 := errs + [e];
      AttemptsOutcome(st1, errs1, Some(Response(req.url, None, Some(e))), id, req, send, ds, now, i + 1, retryCount);
      var errs' := Attempts(st1, errs1, Some(Response(req.url, None, Some(e))), id, req, send, ds, now, i + 1, retryCount).1;
      assert errs'[..|errs1|][..|errs|] == errs'[..|errs|];
    }
  }

  /**
   * One subscriber's `notify`: nothing is recorded, collected or carried in
   * its response when signing fails or no attempt is allowed; otherwise it
   * publishes a response for its own url.
   */
  lemma NotifyOneOutcome(st: StoreState, errs: seq<Error>, t: Target, ev: Event, sign: Signer, send: Sender,
                         ds: Option<Deserializer>, now: Timestamp, retryCount: int)
    ensures var (st', errs', resp) := NotifyOneSpec(st, errs, t, ev, sign, send, ds, now, retryCount);
      && (sign(t.secret).Err? || retryCount <= 0 ==> st' == st && errs' == errs && resp == None)
      && (sign(t.secret).Ok? && retryCount > 0 ==> resp.Some? && resp.value.url == t.url)
      && |errs'| >= |errs| && errs'[..|errs|] == errs
  {
    if sign(t.secret).Ok? {
      AttemptsUrl(st, errs, None, t.id, Request(t.url, t.contentType, sign(t.secret).value, ev), send, ds, now, 0, retryCount);
    }
  }

  lemma {:induction false} AttemptsUrl(st: StoreState, errs: seq<Error>, resp: Option<Response>, id: string, req: Request,
                                       send: Sender, ds: Option<Deserializer>, now: Timestamp, i: nat, retryCount: int)
    requires resp.Some? ==> resp.value.url == req.url
    ensures var (st', errs', resp') := Attempts(st, errs, resp, id, req, send, ds, now, i, retryCount);
      && (i < retryCount ==> resp'.Some?)
      && (resp'.Some? ==> resp'.value.url == req.url)
      && (i >= retryCount ==> st' == st && errs' == errs && resp' == resp)
      && |errs'| >= |errs| && errs'[..|errs|] == errs
    decreases retryCount - i
  {
    if i < retryCount && send(req, i).Err? {
      var e := send(req, i).error;
      var errs1 := errs + [e];
      AttemptsUrl(UpdateNotifyStatusSpec(st, id, now, false).0, errs1, Some(Response(req.url, None, Some(e))),
                  id, req, send, ds, now, i + 1, retryCount);
      var errs' := Attempts(UpdateNotifyStatusSpec(st, id, now, false).0, errs1, Some(Response(req.url, None, Some(e))),
                            id, req, send, ds, now, i + 1, retryCount).1;
      assert errs'[..|errs1|][..|errs|] == errs'[..|errs|];
    }
  }

  /** One response is published per notified subscriber, in order, each for that subscriber's url. */
  lemma {:induction false} NotifyAllResponses(st: StoreState, errs: seq<Error>, rs: seq<Option<Response>>, ts: seq<Target>, ev: Event,
                                              sign: Signer, send: Sender, ds: Option<Deserializer>, now: Timestamp, retryCount: int)
    ensures var rs' := NotifyAll(st, errs, rs, ts, ev, sign, send, ds, now, retryCount).2;
      && |rs'| == |rs| + |ts|
      && rs'[..|rs|] == rs
      && forall i :: 0 <= i < |ts| && rs'[|rs| + i].Some? ==> rs'[|rs| + i].value.url == ts[i].url
    decreases |ts|
  {
    if ts != [] {
      var (st1, errs1, resp) := NotifyOneSpec(st, errs, ts[0], ev, sign, send, ds, now, retryCount);
      NotifyOneOutcome(st, errs, ts[0], ev, sign, send, ds, now, retryCount);
      var rs1 := rs + [resp];
      NotifyAllResponses(st1, errs1, rs1, ts[1..], ev, sign, send, ds, now, retryCount);
      var rs' := NotifyAll(st1, errs1, rs1, ts[1..], ev, sign, send, ds, now, retryCount).2;
      assert rs'[..|rs1|][..|rs|] == rs'[..|rs|];
      assert rs'[|rs|] == rs1[|rs|] == resp;
      forall i | 0 <= i < |ts| && rs'[|rs| + i].Some?
        ensures rs'[|rs| + i].value.url == ts[i].url
      {
        if i > 0 {
          assert rs'[|rs1| + (i - 1)] == rs'[|rs| + i];
        }
      }
    }
  }

  // ---------------------------------------------------------------- errors and counters of a run

  /** The errors one subscriber's `notify` collects: none when signing fails, otherwise those of its retry loop. */
  function NotifyErrors(t: Target, ev: Event, sign: Signer, send: Sender, ds: Option<Deserializer>, retryCount: int): seq<Error>
  {
    match sign(t.secret)
    case Err(_) => []
    case Ok(signature) => AttemptErrors(Request(t.url, t.contentType, signature, ev), send, ds, 0, retryCount)
  }

  /** The errors `Notify` collects for `ts`, subscriber after subscriber. */
  function AllNotifyErrors(ts: seq<Target>, ev: Event, sign: Signer, send: Sender, ds: Option<Deserializer>, retryCount: int): seq<Error>
    decreases |ts|
  {
    if ts == [] then []
    else NotifyErrors(ts[0], ev, sign, send, ds, retryCount) + AllNotifyErrors(ts[1..], ev, sign, send, ds, retryCount)
  }

  /** `notify` to `t` collects no error: signing fails, no attempt is allowed, or the first send succeeds and its reply decodes. */
  predicate Clean(t: Target, ev: Event, sign: Signer, send: Sender, ds: Option<Deserializer>, retryCount: int)
  {
    match sign(t.secret)
    case Err(_) => true
    case Ok(signature) =>
      var req := Request(t.url, t.contentType, signature, ev);
      retryCount <= 0 || (send(req, 0).Ok? && Decoded(send(req, 0).value, ds).1.None?)
  }

  /** Some attempt of `notify` to `t` succeeds. */
  predicate Succeeds(t: Target, ev: Event, sign: Signer, send: Sender, retryCount: int)
  {
    sign(t.secret).Ok? && FirstOk(Request(t.url, t.contentType, sign(t.secret).value, ev), send, 0, retryCount).Some?
  }

  /** How many attempts of `notify` to `t` fail: all of them without a success, else those before the first success. */
  function FailedAttempts(t: Target, ev: Event, sign: Signer, send: Sender, retryCount: int): nat
  {
    match sign(t.secret)
    case Err(_) => 0
    case Ok(signature) =>
      match FirstOk(Request(t.url, t.contentType, signature, ev), send, 0, retryCount)
      case None => if retryCount > 0 then retryCount else 0
      case Some(j) => j
  }

  /** How many subscribers of `ts` with id `k` have a successful attempt. */
  function SuccessesFor(ts: seq<Target>, k: string, ev: Event, sign: Signer, send: Sender, retryCount: int): nat
    decreases |ts|
  {
    if ts == [] then 0
    else (if ts[0].id == k && Succeeds(ts[0], ev, sign, send, retryCount) then 1 else 0)
         + SuccessesFor(ts[1..], k, ev, sign, send, retryCount)
  }

  /** How many attempts to the subscribers of `ts` with id `k` fail. */
  function FailuresFor(ts: seq<Target>, k: string, ev: Event, sign: Signer, send: Sender, retryCount: int): nat
    decreases |ts|
  {
    if ts == [] then 0
    else (if ts[0].id == k then FailedAttempts(ts[0], ev, sign, send, retryCount) else 0)
         + FailuresFor(ts[1..], k, ev, sign, send, retryCount)
  }

  /** A subscriber's `notify` collects no error exactly when it is clean. */
  lemma NotifyErrorsEmpty(t: Target, ev: Event, sign: Signer, send: Sender, ds: Option<Deserializer>, retryCount: int)
    ensures NotifyErrors(t, ev, sign, send, ds, retryCount) == [] <==> Clean(t, ev, sign, send, ds, retryCount)
  {
    if sign(t.secret).Ok? {
      var req := Request(t.url, t.contentType, sign(t.secret).value, ev);
      match FirstOk(req, send, 0, retryCount)
      case None =>
        assert |SendErrors(req, send, 0, retryCount)| == (if 0 < retryCount then retryCount else 0);
      case Some(j) =>
        assert |SendErrors(req, send, 0, j)| == j;
        if j > 0 {
          assert send(req, 0).Err?;
        }
    }
  }

  /** A run collects no error exactly when every subscriber it notifies is clean. */
  lemma {:induction false} AllNotifyErrorsEmpty(ts: seq<Target>, ev: Event, sign: Signer, send: Sender, ds: Option<Deserializer>, retryCount: int)
    ensures AllNotifyErrors(ts, ev, sign, send, ds, retryCount) == [] <==> forall t :: t in ts ==> Clean(t, ev, sign, send, ds, retryCount)
    decreases |ts|
  {
    if ts != [] {
      NotifyErrorsEmpty(ts[0], ev, sign, send, ds, retryCount);
      AllNotifyErrorsEmpty(ts[1..], ev, sign, send, ds, retryCount);
      assert forall t :: t in ts <==> t == ts[0] || t in ts[1..];
    }
  }

  /** One subscriber's `notify` appends exactly its `NotifyErrors`. */
  lemma NotifyOneErrors(st: StoreState, errs: seq<Error>, t: Target, ev: Event, sign: Signer, send: Sender,
                        ds: Option<Deserializer>, now: Timestamp, retryCount: int)
    ensures NotifyOneSpec(st, errs, t, ev, sign, send, ds, now, retryCount).1 == errs + NotifyErrors(t, ev, sign, send, ds, retryCount)
  {
    if sign(t.secret).Ok? {
      AttemptsErrors(st, errs, None, t.id, Request(t.url, t.contentType, sign(t.secret).value, ev), send, ds, now, 0, retryCount);
    }
  }

  /** The subscribers of `ts` append exactly the errors of `AllNotifyErrors`, in order. */
  lemma {:induction false} NotifyAllErrors(st: StoreState, errs: seq<Error>, rs: seq<Option<Response>>, ts: seq<Target>, ev: Event,
                                           sign: Signer, send: Sender, ds: Option<Deserializer>, now: Timestamp, retryCount: int)
    ensures NotifyAll(st, errs, rs, ts, ev, sign, send, ds, now, retryCount).1 == errs + AllNotifyErrors(ts, ev, sign, send, ds, retryCount)
    decreases |ts|
  {
    if ts != [] {
      var (st1, errs1, resp) := NotifyOneSpec(st, errs, ts[0], ev, sign, send, ds, now, retryCount);
      var mine := NotifyErrors(ts[0], ev, sign, send, ds, retryCount);
      var rest := AllNotifyErrors(ts[1..], ev, sign, send, ds, retryCount);
      NotifyOneErrors(st, errs, ts[0], ev, sign, send, ds, now, retryCount);
      NotifyAllErrors(st1, errs1, rs + [resp], ts[1..], ev, sign, send, ds, now, retryCount);
      AppendAssoc(errs, mine, rest);
    }
  }

  /** The retry loop for one id leaves every other record as it was. */
  lemma {:induction false} AttemptsOthers(st: StoreState, errs: seq<Error>, resp: Option<Response>, id: string, req: Request,
                                          send: Sender, ds: Option<Deserializer>, now: Timestamp, i: nat, retryCount: int, k: string)
    requires k in st.idMap.values && k != id
    ensures var st' := Attempts(st, errs, resp, id, req, send, ds, now, i, retryCount).0;
      k in st'.idMap.values && st'.idMap.values[k] == st.idMap.values[k]
    decreases retryCount - i
  {
    if i < retryCount {
      if send(req, i).Err? {
        var e := send(req, i).error;
        AttemptsOthers(UpdateNotifyStatusSpec(st, id, now, false).0, errs + [e], Some(Response(req.url, None, Some(e))),
                       id, req, send, ds, now, i + 1, retryCount, k);
      }
    }
  }

  /** One subscriber's `notify` on the record of a live id `k`: its own attempts are counted, anyone else's leave it alone. */
  lemma NotifyOneCounters(st: StoreState, errs: seq<Error>, t: Target, ev: Event, sign: Signer, send: Sender,
                          ds: Option<Deserializer>, now: Timestamp, retryCount: int, k: string)
    requires k in st.idMap.values
    ensures var st' := NotifyOneSpec(st, errs, t, ev, sign, send, ds, now, retryCount).0;
      var v := st.idMap.values[k];
      var ok := if t.id == k && Succeeds(t, ev, sign, send, retryCount) then 1 else 0;
      var failed := if t.id == k then FailedAttempts(t, ev, sign, send, retryCount) else 0;
      && k in st'.idMap.values
      && st'.idMap.values[k].successCount == v.successCount + ok
      && st'.idMap.values[k].failureCount == v.failureCount + failed
      && st'.idMap.values[k].lastSuccessTime == (if ok > 0 then now else v.lastSuccessTime)
      && st'.idMap.values[k].lastFailureTime == (if failed > 0 then now else v.lastFailureTime)
  {
    if sign(t.secret).Ok? {
      var req := Request(t.url, t.contentType, sign(t.secret).value, ev);
      if t.id == k {
        AttemptsOutcome(st, errs, None, k, req, send, ds, now, 0, retryCount);
      } else {
        AttemptsOthers(st, errs, None, t.id, req, send, ds, now, 0, retryCount, k);
      }
    }
  }

  /**
   * For every live subscription, a run over `ts` adds its successful
   * subscribers to its success count and their failed attempts to its
   * failure count, and stamps a time with `now` exactly when the matching
   * count grew.
   */
  lemma {:induction false} NotifyAllCounters(st: StoreState, errs: seq<Error>, rs: seq<Option<Response>>, ts: seq<Target>, ev: Event,
                                             sign: Signer, send: Sender, ds: Option<Deserializer>, now: Timestamp, retryCount: int, k: string)
    requires k in st.idMap.values
    ensures var st' := NotifyAll(st, errs, rs, ts, ev, sign, send, ds, now, retryCount).0;
      var v := st.idMap.values[k];
      var ok := SuccessesFor(ts, k, ev, sign, send, retryCount);
      var failed := FailuresFor(ts, k, ev, sign, send, retryCount);
      && k in st'.idMap.values
      && st'.idMap.values[k].successCount == v.successCount + ok
      && st'.idMap.values[k].failureCount == v.failureCount + failed
      && st'.idMap.values[k].lastSuccessTime == (if ok > 0 then now else v.lastSuccessTime)
      && st'.idMap.values[k].lastFailureTime == (if failed > 0 then now else v.lastFailureTime)
    decreases |ts|
  {
    if ts != [] {
      var (st1, errs1, resp) := NotifyOneSpec(st, errs, ts[0], ev, sign, send, ds, now, retryCount);
      NotifyOneCounters(st, errs, ts[0], ev, sign, send, ds, now, retryCount, k);
      NotifyAllCounters(st1, errs1, rs + [resp], ts[1..], ev, sign, send, ds, now, retryCount, k);
    }
  }

  /**
   * The whole of `Notify` on a store: one response per subscription the
   * walk over the initial store hands out, for that subscription's url, and
   * nothing the walk reads changes; each of those subscriptions is live and
   * in state "normal". The errors are each subscriber's failed sends and
   * decoding error, in walk order, so there are none exactly when every
   * subscriber is clean; the statistics of each live subscription grow by
   * its successful subscribers and their failed attempts.
   */
  lemma NotifyOutcome(st: StoreState, ev: Event, sign: Signer, send: Sender, ds: Option<Deserializer>, now: Timestamp, retryCount: int,
                      k: string)
    ensures var ts := Targets(st, ev.eventType, HookStateNormal, ResponseChanBufferSize, 0);
      var (st', errs, rs) := NotifySpec(st, [], [], ev, sign, send, ds, now, retryCount, 0);
      && Shape(st') == Shape(st)
      && |rs| == |ts|
      && (forall i :: 0 <= i < |ts| && rs[i].Some? ==> rs[i].value.url == ts[i].url)
      && (forall t :: t in ts ==>
            exists k :: k in st.idMap.values && st.idMap.values[k].state == HookStateNormal && TargetOf(st.idMap.values[k]) == t)
      && errs == AllNotifyErrors(ts, ev, sign, send, ds, retryCount)
      && (errs == [] <==> forall t :: t in ts ==> Clean(t, ev, sign, send, ds, retryCount))
      && (k in st.idMap.values ==>
            && k in st'.idMap.values
            && st'.idMap.values[k].successCount == st.idMap.values[k].successCount + SuccessesFor(ts, k, ev, sign, send, retryCount)
            && st'.idMap.values[k].failureCount == st.idMap.values[k].failureCount + FailuresFor(ts, k, ev, sign, send, retryCount))
  {
    var ts := Targets(st, ev.eventType, HookStateNormal, ResponseChanBufferSize, 0);
    NotifyNotifiesTargets(st, [], [], ev, sign, send, ds, now, retryCount, 0);
    NotifyAllKeepsShape(st, [], [], ts, ev, sign, send, ds, now, retryCount);
    NotifyAllResponses(st, [], [], ts, ev, sign, send, ds, now, retryCount);
    NotifyAllErrors(st, [], [], ts, ev, sign, send, ds, now, retryCount);
    assert [] + AllNotifyErrors(ts, ev, sign, send, ds, retryCount) == AllNotifyErrors(ts, ev, sign, send, ds, retryCount);
    AllNotifyErrorsEmpty(ts, ev, sign, send, ds, retryCount);
    if k in st.idMap.values {
      NotifyAllCounters(st, [], [], ts, ev, sign, send, ds, now, retryCount, k);
    }
    forall t | t in ts
      ensures exists k :: k in st.idMap.values && st.idMap.values[k].state == HookStateNormal && TargetOf(st.idMap.values[k]) == t
    {
      TargetsMatch(st, ev.eventType, HookStateNormal, ResponseChanBufferSize, t);
    }
  }

  // ---------------------------------------------------------------- the manager

  /** The blocking manager over the in-memory store, with its signer, sender and retry count. */
  class Manager {
    const recorder: MemRecorder
    const sign: Signer
    const send: Sender
    const retryCount: int

    constructor (recorder: MemRecorder, sign: Signer, send: Sender, retryCount: int)
      ensures this.recorder == recorder && this.sign == sign && this.send == send && this.retryCount == retryCount
    {
      this.recorder := recorder;
      this.sign := sign;
      this.send := send;
      this.retryCount := retryCount;
    }

    /** `Notify`: the responses in publication order, and the collected errors if there are any. */
    method Notify(ev: Event, ds: Option<Deserializer>, now: Timestamp) returns (responses: seq<Option<Response>>, err: Option<seq<Error>>)
      requires recorder.Valid()
      modifies recorder
      ensures recorder.Valid()
      ensures var (st, errs, rs) := NotifySpec(old(recorder.State()), [], [], ev, sign, send, ds, now, retryCount, 0);
        recorder.State() == st && responses == rs && err == (if errs == [] then None else Some(errs))
    {
      ghost var st0 := recorder.State();
      var offset := 0;
      var errList := new ErrorList();
      responses := [];
      while true
        invariant recorder.Valid() && fresh(errList)
        invariant NotifySpec(st0, [], [], ev, sign, send, ds, now, retryCount, 0)
               == NotifySpec(recorder.State(), errList.errors, responses, ev, sign, send, ds, now, retryCount, offset)
        decreases |PageKeys(recorder.State(), ev.eventType)| - PageStart(offset, ResponseChanBufferSize)
      {
        var r := recorder.Query(QueryCondition("", ev.eventType, "", HookStateNormal, offset, ResponseChanBufferSize));
        PageIsQuery(recorder.State(), ev.eventType, HookStateNormal, ResponseChanBufferSize, offset);
        var datas := r.records;
        if |datas| == 0 {
          break;
        }
        ghost var stPage, errsPage, rsPage := recorder.State(), errList.errors, responses;
        offset := offset + 1;
        responses := NotifyPage(datas, ev, ds, now, errList, responses);
        NotifyStep(stPage, errsPage, rsPage, ev, sign, send, ds, now, retryCount, offset - 1);
      }
      if !errList.Empty() {
        return responses, Some(errList.errors);
      }
      return responses, None;
    }

    /** One page of `Notify`: each subscriber of `datas` in turn, its response appended to `rs`. */
    method NotifyPage(datas: seq<Data>, ev: Event, ds: Option<Deserializer>, now: Timestamp, errs: ErrorList, rs: seq<Option<Response>>)
      returns (rs': seq<Option<Response>>)
      requires recorder.Valid()
      modifies recorder, errs
      ensures recorder.Valid()
      ensures (recorder.State(), errs.errors, rs')
           == NotifyAll(old(recorder.State()), old(errs.errors), rs, TargetsOf(datas), ev, sign, send, ds, now, retryCount)
    {
      ghost var ts := TargetsOf(datas);
      rs' := rs;
      for i := 0 to |datas|
        invariant recorder.Valid()
        invariant NotifyAll(old(recorder.State()), old(errs.errors), rs, ts, ev, sign, send, ds, now, retryCount)
               == NotifyAll(recorder.State(), errs.errors, rs', ts[i..], ev, sign, send, ds, now, retryCount)
      {
        assert ts[i..][0] == TargetOf(datas[i]) && ts[i..][1..] == ts[i + 1..];
        var resp := NotifyOne(datas[i], ev, ds, now, errs);
        rs' := rs' + [resp];
      }
      assert ts[|datas|..] == [];
    }

    /** `notify` for one subscriber, collecting its errors into `errs`; returns what it publishes. */
    method NotifyOne(d: Data, ev: Event, ds: Option<Deserializer>, now: Timestamp, errs: ErrorList) returns (resp: Option<Response>)
      requires recorder.Valid()
      modifies recorder, errs
      ensures recorder.Valid()
      ensures (recorder.State(), errs.errors, resp)
           == NotifyOneSpec(old(recorder.State()), old(errs.errors), TargetOf(d), ev, sign, send, ds, now, retryCount)
    {
      resp := None;
      var signature := sign(d.secret);
      if signature.Err? {
        return;
      }
      ghost var st0, errs0 := recorder.State(), errs.errors;
      var req := Request(d.url, d.contentType, signature.value, ev);
      var i := 0;
      while i < retryCount
        invariant recorder.Valid()
        invariant Attempts(st0, errs0, None, d.id, req, send, ds, now, 0, retryCount)
               == Attempts(recorder.State(), errs.errors, resp, d.id, req, send, ds, now, i, retryCount)
        decreases retryCount - i
      {
        ghost var stStep, errsStep, respStep := recorder.State(), errs.errors, resp;
        var sent := send(req, i);
        if sent.Err? {
          var _ := errs.Add([sent.error]);
          resp := Some(Response(d.url, None, Some(sent.error)));
          var _ := recorder.UpdateNotifyStatus(d.id, now, false);
          i := i + 1;
          continue;
        }
        var _ := recorder.UpdateNotifyStatus(d.id, now, true);
        var payload: Option<string> := None;
        var err: Option<Error> := None;
        if ds.Some? {
          payload, err := ds.value(sent.value).0, ds.value(sent.value).1;
          if err.Some? {
            var _ := errs.Add([err.value]);
          }
        }
        resp := Some(Response(d.url, payload, err));
        assert (payload, err) == Decoded(sent.value, ds);
        assert recorder.State() == UpdateNotifyStatusSpec(stStep, d.id, now, true).0;
        assert errs.errors == errsStep + (if err.Some? then [err.value] else []);
        assert send(req, i) == sent && i < retryCount;
        assert Attempts(stStep, errsStep, respStep, d.id, req, send, ds, now, i, retryCount)
            == (recorder.State(), errs.errors, resp);
        break;
      }
    }
  }
}
