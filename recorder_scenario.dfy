/**
 * The life cycle exercised by recorder/recorder_test.go, run against the
 * in-memory store: create a subscription to "push", find it by id and by
 * event type, change its url, delete it, and find nothing. Every error the
 * test fails on is absent.
 */
module RecorderScenario {
  import opened Wrappers
  import opened Errors
  import opened Recorder
  import opened LinkedMaps
  import opened Decimal
  import opened StoreSpec
  import opened StoreLemmas
  import opened DefaultRecorder

  /**
   * The whole test. `checked` holds the errors the test fails on, in order:
   * those of Create, the two queries, Update, Delete and the final query.
   */
  method LifeCycle() returns (id: string, byId: seq<Data>, byEvent: seq<Data>, afterUpdate: seq<Data>, afterDelete: seq<Data>,
                              checked: seq<Option<Error>>)
    ensures checked == [None, None, None, None, None, None]
    ensures id == "1"
    ensures |byId| == 1 && byEvent == byId && byId[0].url == "test" && byId[0].state == HookStateNormal
    ensures |afterUpdate| == 1 && afterUpdate[0].url == "world" && afterUpdate[0].triggerEventTypes == []
    ensures afterDelete == []
  {
    var r := new MemRecorder();
    var found, gone;
    id, byId, byEvent, found := CreateAndFind(r);
    afterUpdate, afterDelete, gone := UpdateAndDelete(r, id);
    checked := found + gone;
  }

  /** The first half: create the subscription in an empty store, then find it by id and by event type. */
  method CreateAndFind(r: MemRecorder) returns (id: string, byId: seq<Data>, byEvent: seq<Data>, checked: seq<Option<Error>>)
    requires r.Valid() && r.State() == InitialState()
    modifies r, r.idGenerator
    ensures r.Valid() && r.State().idMap.keys == [id] && id in r.State().idMap.values
    ensures checked == [None, None, None]
    ensures id == "1"
    ensures byId == [r.State().idMap.values[id]] && byEvent == byId
    ensures byId[0].url == "test" && byId[0].state == HookStateNormal
  {
    var input := Input("test", "", "", ["push"], "");
    var err;
    ghost var st0 := r.State();
    assert FormatInt(1) == "1";
    CreateSucceeds(st0, input);
    id, err := r.Create(input);
    checked := [err];
    ghost var st1 := r.State();
    assert st1.idMap.keys == ["1"];
    assert st1.eventMap["push"].keys == ["1"];
    QueryLookups(st1, QueryCondition(id, "", "", "", 0, 0));
    var q := r.Query(QueryCondition(id, "", "", "", 0, 0));
    byId := q.records;
    checked := checked + [q.err];
    QueryPage(st1, QueryCondition("", "push", "", "", 0, 0));
    q := r.Query(QueryCondition("", "push", "", "", 0, 0));
    byEvent := q.records;
    checked := checked + [q.err];
    assert Window(["1"], 0, 20) == ["1"];
    assert byEvent == Pick(["1"], st1.idMap.values, "");
    assert ["1"][..0] == [];
  }

  /** The second half: give the only subscription the url "world", find it by id, delete it, and list nothing. */
  method UpdateAndDelete(r: MemRecorder, id: string) returns (afterUpdate: seq<Data>, afterDelete: seq<Data>, checked: seq<Option<Error>>)
    requires r.Valid() && r.State().idMap.keys == [id] && id in r.State().idMap.values && id != ""
    modifies r
    ensures checked == [None, None, None]
    ensures |afterUpdate| == 1 && afterUpdate[0].url == "world" && afterUpdate[0].triggerEventTypes == []
    ensures afterDelete == []
  {
    var input := Input("world", "", "", [], "");
    var st1 := r.State();
    UpdateRecord(st1, id, input);
    var err := r.Update(id, input);
    checked := [err];
    ghost var st2 := r.State();
    QueryLookups(st2, QueryCondition(id, "", "", "", 0, 0));
    var q := r.Query(QueryCondition(id, "", "", "", 0, 0));
    afterUpdate := q.records;
    err := r.Delete(id);
    checked := checked + [err];
    DeleteOutcome(st2, id);
    assert r.State().idMap.keys == [];
    QueryPage(r.State(), QueryCondition("", "", "", "", 0, 0));
    q := r.Query(QueryCondition("", "", "", "", 0, 0));
    afterDelete := q.records;
    checked := checked + [q.err];
  }
}
