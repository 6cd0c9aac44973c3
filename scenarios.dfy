/** The cases of the route's test suite, replayed against the handlers'
    contracts on the suite's own sample call. Each method builds the cache
    the test mocks, runs one handler, and states what it answers and what
    the cache then holds. Where the suite expects something other than
    what the route does, the `AsTested` variant states the suite's
    expectation. */
module Scenarios {
  import opened Wrappers
  import opened Lists
  import opened Json
  import opened Lifecycle
  import opened Calls
  import opened Webhook

  /** The suite's sample call, without a type. */
  const Sample: Record := Record(
    None, Some("1463669263.30032"), Some("11999990000"), None,
    map["code" := "123456", "direction" := "inbound", "our_number" := "0800000000",
        "their_number_type" := "mobile", "timestamp" := "2017-01-01T00:00:00Z"])

  function Typed(t: string): Record {
    Sample.(typ := Some(t))
  }

  /** The sample, whatever its type, has every required field. */
  lemma SampleComplete(t: string)
    ensures MissingFields(Typed(t)) == []
  {
    var r := Typed(t);
    assert Fields(r) == {"type", "call_id", "their_number"} + Sample.extra.Keys;
    assert forall i :: 0 <= i < |RequiredFields| ==> RequiredFields[i] in Fields(r);
    NoneMissing(r);
  }

  /** The sample, whatever its type, stands for a JavaScript object. */
  lemma SampleWellFormed(t: string)
    ensures WellFormed(Typed(t))
  {
    assert Sample.extra.Keys == {"code", "direction", "our_number", "their_number_type", "timestamp"};
  }

  /** A new call on an empty cache is routed to `'900'` and stored alone;
      the route answers with a one-element list. */
  method NewCallOnEmptyCache() returns (resp: Response, stored: Option<Snapshot>)
    ensures resp == Response(200, DataList([Typed(New).(destination := Some("900"))]))
    ensures stored == Some([Typed(New).(destination := Some("900"))])
  {
    var b := Typed(New);
    CreatedOnEmpty(b, "900");
    var cache := new Cache(None);
    resp := CallNew(cache, b);
    stored := cache.value;
  }

  /** The same case as the suite expects it: the record itself under `data`. */
  method NewCallOnEmptyCacheAsTested() returns (resp: Response)
    ensures resp == Response(200, DataRecord(Typed(New).(destination := Some("900"))))
  {
    var b := Typed(New);
    SampleComplete(New);
    SampleWellFormed(New);
    CreatedOnEmpty(b, "900");
    var cache := new Cache(None);
    var posted;
    resp, posted := CallStatusAsTested(cache, b, Ok(Null));
  }

  /** Replaying the new call against a cache that already holds it routes
      it to `'901'` and leaves one record of the call. */
  method NewCallReplayed() returns (resp: Response, stored: Option<Snapshot>, writes: nat)
    ensures resp == Response(200, DataRecord(Typed(New).(destination := Some("901"))))
    ensures stored == Some([Typed(New).(destination := Some("901"))])
    ensures writes == 1
  {
    var b := Typed(New);
    SingleRecord(b, b.callId);
    assert Destination(Some([b]), b) == "901";
    assert Created([b], b, "901") == [Incoming(b, "901")];
    var cache := new Cache(Some([b]));
    resp := CallNew(cache, b);
    stored, writes := cache.value, cache.writes;
  }

  /** A standby event without a cache is not found and sends nothing. */
  method StandbyWithoutCache() returns (resp: Response, posted: Option<Action>, writes: nat)
    ensures resp == Response(404, CallNotFound) && posted == None && writes == 0
  {
    var cache := new Cache(None);
    resp, posted := CallStandby(cache, Typed(Standby), Ok(Null));
    writes := cache.writes;
  }

  /** A standby event for a stored new call posts the stored destination,
      commits `call.standby` and answers with the outbound response. */
  method StandbyCommitted(response: Value) returns (resp: Response, posted: Option<Action>, stored: Option<Snapshot>)
    ensures posted == Some(Action("delegate", Sample.callId, Some("900")))
    ensures stored == Some([Typed(Standby).(destination := Some("900"))])
    ensures resp == Response(200, Upstream(response))
  {
    var b := Typed(Standby);
    var before := Typed(New).(destination := Some("900"));
    SingleRecord(before, b.callId);
    assert Validate(Some([before]), b, Predecessor(b.typ));
    assert Advanced([before], b.callId, b.typ) == [Typed(Standby).(destination := Some("900"))];
    var cache := new Cache(Some([before]));
    resp, posted := CallStandby(cache, b, Ok(response));
    stored := cache.value;
  }

  /** On a one-record cache holding the new call, the tests' answer to a
      standby is the re-typed record when the delegate request succeeds,
      and status 500 with the error payload when it fails. */
  lemma StandbyAnswerAsTested(before: Record, b: Record, outcome: Outcome)
    requires before.typ == Some(New) && b.typ == Some(Standby) && before.callId == b.callId
    ensures var st := Handle(Some([before]), b, outcome);
      && st.written == outcome.Ok?
      && AsTested(st.resp, st.next) == match outcome
           case Ok(_) => Response(200, BareRecord(before.(typ := Some(Standby))))
           case Err(data) => Response(500, UpstreamError(data))
  {
    SingleRecord(before, b.callId);
    assert Validate(Some([before]), b, Stage(New));
    AsTestedDiffersOnlyAt(Some([before]), b, outcome);
  }

  /** The suite expects the committed record as the answer instead. */
  method StandbyCommittedAsTested(response: Value) returns (resp: Response)
    ensures resp == Response(200, BareRecord(Typed(Standby).(destination := Some("900"))))
  {
    var b := Typed(Standby);
    var before := Typed(New).(destination := Some("900"));
    SampleComplete(Standby);
    SampleWellFormed(Standby);
    StandbyAnswerAsTested(before, b, Ok(response));
    assert before.(typ := Some(Standby)) == Typed(Standby).(destination := Some("900"));
    var cache := new Cache(Some([before]));
    var posted;
    resp, posted := CallStatusAsTested(cache, b, Ok(response));
  }

  /** A rejected delegate request leaves the cache untouched and surfaces
      the error payload, with status 200 as the route answers. */
  method StandbyRejected(data: Value) returns (resp: Response, stored: Option<Snapshot>, writes: nat)
    ensures resp == Response(200, UpstreamError(data))
    ensures stored == Some([Typed(New).(destination := Some("900"))]) && writes == 0
  {
    var b := Typed(Standby);
    var before := Typed(New).(destination := Some("900"));
    SingleRecord(before, b.callId);
    assert Validate(Some([before]), b, Predecessor(b.typ));
    var cache := new Cache(Some([before]));
    var posted;
    resp, posted := CallStandby(cache, b, Err(data));
    stored, writes := cache.value, cache.writes;
  }

  /** The suite expects status 500 for the rejected request. */
  method StandbyRejectedAsTested(data: Value) returns (resp: Response)
    ensures resp == Response(500, UpstreamError(data))
  {
    var b := Typed(Standby);
    var before := Typed(New).(destination := Some("900"));
    SampleComplete(Standby);
    SampleWellFormed(Standby);
    StandbyAnswerAsTested(before, b, Err(data));
    var cache := new Cache(Some([before]));
    var posted;
    resp, posted := CallStatusAsTested(cache, b, Err(data));
  }

  /** An event of an unknown type is not found. */
  method UnknownEventType() returns (resp: Response, writes: nat)
    ensures resp == Response(404, CallNotFound) && writes == 0
  {
    var cache := new Cache(None);
    var posted;
    SampleWellFormed("test");
    resp, posted := CallStatus(cache, Typed("test"), Ok(Null));
    writes := cache.writes;
  }

  /** An event named after an `Object.prototype` member is not found even
      against a stored record without a type: the inherited member is not
      `undefined`. */
  method PrototypeNameNotFound() returns (resp: Response, writes: nat)
    ensures resp == Response(404, CallNotFound) && writes == 0
  {
    var stored := Record(None, Some("x"), None, None, map[]);
    var b := Record(Some("constructor"), Some("x"), None, None, map[]);
    InheritedTypeRejected(Some([stored]), b);
    var cache := new Cache(Some([stored]));
    var posted;
    resp, posted := CallStatus(cache, b, Ok(Null));
    writes := cache.writes;
  }

  /** `call.waiting` after `call.standby` re-types the stored record. */
  method WaitingAfterStandby() returns (resp: Response, stored: Option<Snapshot>)
    ensures resp == Response(200, DataRecord(Typed("call.waiting")))
    ensures stored == Some([Typed("call.waiting")])
  {
    var b := Typed("call.waiting");
    var before := Typed(Standby);
    SingleRecord(before, b.callId);
    assert Validate(Some([before]), b, Predecessor(b.typ));
    assert Advanced([before], b.callId, b.typ) == [b];
    var cache := new Cache(Some([before]));
    resp := ReplaceType(cache, b);
    stored := cache.value;
  }

  /** The read side: `{}` without a cache (the suite expects `{data: []}`),
      a stored new call shown, a finished call hidden. */
  method ReadSide() returns (absent: Response, absentAsTested: Response, live: Response, finished: Response)
    ensures absent == Response(200, EmptyObject)
    ensures absentAsTested == Response(200, DataList([]))
    ensures live == Response(200, DataList([Record(Some(New), None, None, None, map[])]))
    ensures finished == Response(200, DataList([]))
  {
    var liveRec := Record(Some(New), None, None, None, map[]);
    var doneRec := Record(Some(Finished), None, None, None, map[]);
    SingleRecord(liveRec, None);
    SingleRecord(doneRec, None);
    var empty := new Cache(None);
    absent := GetStatus(empty);
    absentAsTested := GetStatusAsTested(empty);
    var one := new Cache(Some([liveRec]));
    live := GetStatus(one);
    var done := new Cache(Some([doneRec]));
    finished := GetStatus(done);
  }

  /** A body holding only a type misses every other required field, in
      canonical order. */
  lemma TypeOnlyBodyMisses(r: Record)
    requires r == Record(Some(New), None, None, None, map[])
    ensures MissingFields(r) == ["call_id", "code", "direction", "our_number", "their_number", "timestamp"]
  {
    var p := IsMissingFrom(r);
    var R := RequiredFields;
    assert !p(R[0]);
    assert forall i :: 1 <= i < |R| ==> p(R[i]);
    assert R == [R[0]] + R[1..];
    FilterNone([R[0]], p);
    FilterAll(R[1..], p);
    FilterConcat([R[0]], R[1..], p);
  }

  /** A body without a timestamp misses exactly that field. */
  lemma NoTimestampMisses(r: Record)
    requires r == Typed(New).(extra := Sample.extra - {"timestamp"})
    ensures MissingFields(r) == ["timestamp"]
  {
    var p := IsMissingFrom(r);
    var R := RequiredFields;
    assert Fields(r) == {"type", "call_id", "their_number"} + r.extra.Keys;
    assert forall i :: 0 <= i < 6 ==> !p(R[i]);
    assert p(R[6]);
    assert R == R[..6] + [R[6]];
    FilterNone(R[..6], p);
    FilterConcat(R[..6], [R[6]], p);
  }
}
