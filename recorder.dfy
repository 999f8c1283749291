/**
 * The subscription records, the registration input, the query condition
 * and the subscription states of package `recorder`.
 */
module Recorder {

  /** An opaque `time.Time`; only equality and the zero time matter here. */
  type Timestamp = int

  const ZeroTime: Timestamp := 0

  const HookStateNormal: string := "normal"
  const HookStateAbnormal: string := "abnormal"
  const HookStateForbidden: string := "forbidden"

  /** Page size used when a query leaves it unset (zero). */
  const DefaultPageSize: int := 20

  /** A stored subscription. The Go counters are `int64`; here they are unbounded. */
  datatype Data = Data(
    id: string,
    url: string,
    contentType: string,
    secret: string,
    triggerEventTypes: seq<string>,
    state: string,
    failureCount: int,
    successCount: int,
    lastFailureTime: Timestamp,
    lastSuccessTime: Timestamp)

  /** What a client supplies to create or update a subscription. */
  datatype Input = Input(
    url: string,
    contentType: string,
    secret: string,
    triggerEventTypes: seq<string>,
    state: string)

  /** Filters by id, else url, else event type (with optional state); `offset` is a page index. */
  datatype QueryCondition = QueryCondition(
    id: string,
    eventType: string,
    url: string,
    state: string,
    offset: int,
    pageSize: int)

  /** Copies the input's fields; the id is empty, counters zero and times the zero time. */
  function ToData(i: Input): (d: Data)
    ensures d.url == i.url && d.contentType == i.contentType && d.secret == i.secret
    ensures d.triggerEventTypes == i.triggerEventTypes && d.state == i.state
    ensures d.id == "" && d.failureCount == 0 && d.successCount == 0
    ensures d.lastFailureTime == ZeroTime && d.lastSuccessTime == ZeroTime
  {
    Data("", i.url, i.contentType, i.secret, i.triggerEventTypes, i.state, 0, 0, ZeroTime, ZeroTime)
  }

  /** The three subscription states are pairwise different. */
  lemma StatesDistinct()
    ensures HookStateNormal != HookStateAbnormal
    ensures HookStateNormal != HookStateForbidden
    ensures HookStateAbnormal != HookStateForbidden
  {
  }
}
