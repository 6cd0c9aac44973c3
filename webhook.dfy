/** The webhook route: `callStatus` (POST) and `getStatus` (GET) over the
    one cache key that holds the snapshot of active calls. Each handler is
    one get -> compute -> set sequence, modelled as one method on the
    cache object. The outbound `delegate` request of the standby branch is
    a parameter: the outcome the call-control API answers with. */
module Webhook {
  import opened Wrappers
  import opened Json
  import opened Lifecycle
  import opened Calls

  /** The lifetime every write gives the cache key (`setex(..., 3600, ...)`). */
  const Ttl: int := 3600

  /** The payload of `api.post('actions', params, {})`. */
  datatype Action = Action(typ: string, callId: Option<string>, destination: Option<string>)

  /** What the outbound request answers: the resolved response, or the
      `err.response.data` of the rejection. */
  datatype Outcome = Ok(response: Value) | Err(data: Value)

  /** The JSON body of a response. */
  datatype Body =
    | EmptyObject                       // {}
    | DataList(records: seq<Record>)    // {data: [...]}
    | DataRecord(record: Record)        // {data: {...}}
    | CallNotFound                      // {message: 'Call not found'}
    | Upstream(response: Value)         // the outbound response itself
    | UpstreamError(error: Value)       // {error: err.response.data}
    | BareRecord(record: Record)        // the record itself (expected by the tests only)
    | BodyMalformat(missed: seq<string>)  // {message: 'Body malformat', missed_fields} (tests only)

  datatype Response = Response(status: nat, body: Body)

  /** What one POST does: the snapshot afterwards, whether the handler
      wrote it, the response, and the payload it posted to the call-control
      API, if any. */
  datatype Step = Step(next: Option<Snapshot>, written: bool, resp: Response, posted: Option<Action>)

  /** The `delegate` payload for call `id`: built from the first stored
      record of the call. */
  function DelegateFor(s: Snapshot, id: Option<string>): (a: Action)
    requires |SameCall(s, id)| > 0
    ensures a.typ == "delegate" && a.callId == id
  {
    var customer := SameCall(s, id);
    assert customer[0] in customer;
    Action("delegate", customer[0].callId, customer[0].destination)
  }

  /** The `call.new` branch: no validation, always one write. With no
      snapshot the answer is the new one-record list; otherwise it is the
      stored record. */
  function NewCallStep(c: Option<Snapshot>, body: Record): Step {
    var d := Destination(c, body);
    var n := Created(c.GetOr([]), body, d);
    if c.None? then Step(Some(n), true, Response(200, DataList(n)), None)
    else Step(Some(n), true, Response(200, DataRecord(Incoming(body, d))), None)
  }

  /** The `call.standby` branch: validated against the table; the delegate
      request is sent; the new type is committed only on its success. */
  function StandbyStep(c: Option<Snapshot>, body: Record, outcome: Outcome): Step {
    if !Validate(c, body, Predecessor(body.typ)) then Step(c, false, Response(404, CallNotFound), None)
    else
      var posted := Some(DelegateFor(c.value, body.callId));
      match outcome
      case Ok(response) =>
        Step(Some(Advanced(c.value, body.callId, body.typ)), true, Response(200, Upstream(response)), posted)
      case Err(data) =>
        Step(c, false, Response(200, UpstreamError(data)), posted)
  }

  /** The default branch: validated against the table; the stored record
      gets the incoming type. */
  function ReplaceStep(c: Option<Snapshot>, body: Record): Step {
    if !Validate(c, body, Predecessor(body.typ)) then Step(c, false, Response(404, CallNotFound), None)
    else
      var n := Advanced(c.value, body.callId, body.typ);
      Step(Some(n), true, Response(200, DataRecord(n[|n| - 1])), None)
  }

  /** `callStatus`: the `switch` on the body's type. */
  function Handle(c: Option<Snapshot>, body: Record, outcome: Outcome): Step {
    if body.typ == Some(New) then NewCallStep(c, body)
    else if body.typ == Some(Standby) then StandbyStep(c, body, outcome)
    else ReplaceStep(c, body)
  }

  // ---------------------------------------------------------------------
  // Properties of one POST

  /** The delegate payload carries the call id and the destination of the
      stored record, not of the request body; on a unique snapshot that
      record is the one record of the call. */
  lemma DelegateFromStoredRecord(s: Snapshot, id: Option<string>)
    requires |SameCall(s, id)| > 0
    ensures exists i :: (FirstCall(s, id, i)
      && DelegateFor(s, id) == Action("delegate", s[i].callId, s[i].destination))
    ensures DelegateFor(s, id).callId == id
    ensures Unique(s) ==> forall i :: 0 <= i < |s| && s[i].callId == id ==>
      DelegateFor(s, id).destination == s[i].destination
  {
    Lists.FilterHead(s, IsCall(id));
    var i :| 0 <= i < |s| && IsCall(id)(s[i]) && SameCall(s, id)[0] == s[i]
             && forall j :: 0 <= j < i ==> !IsCall(id)(s[j]);
    assert FirstCall(s, id, i);
    if Unique(s) {
      forall k | 0 <= k < |s| && s[k].callId == id ensures DelegateFor(s, id).destination == s[k].destination {
        assert SameCall(s, id)[0] in s;
        Lists.FilterKeeps(s, IsCall(id));
        assert s[k] in SameCall(s, id);
        assert |SameCall(s, id)| == 1 by { assert |SameCall(s, s[k].callId)| == 1; }
      }
    }
  }

  /** An event is answered 404 `Call not found` exactly when it is not a
      `call.new` and fails validation; it then writes nothing, sends
      nothing and leaves the snapshot as it was. */
  lemma NotFoundIff(c: Option<Snapshot>, body: Record, outcome: Outcome)
    ensures var st := Handle(c, body, outcome);
      st.resp.status == 404 <==> body.typ != Some(New) && !Validate(c, body, Predecessor(body.typ))
    ensures var st := Handle(c, body, outcome);
      st.resp.status == 404 ==>
        st.resp.body == CallNotFound && !st.written && st.next == c && st.posted == None
  {
  }

  /** A POST writes exactly when it creates a call, or validates and is
      not a standby whose delegate request failed; without a write the
      snapshot is as it was. */
  lemma WriteIff(c: Option<Snapshot>, body: Record, outcome: Outcome)
    ensures var st := Handle(c, body, outcome);
      st.written <==> (body.typ == Some(New)
        || (Validate(c, body, Predecessor(body.typ)) && (body.typ != Some(Standby) || outcome.Ok?)))
    ensures !Handle(c, body, outcome).written ==> Handle(c, body, outcome).next == c
  {
  }

  /** The standby branch sends the delegate action exactly when the call
      is stored in `call.new`, with the stored record's call id and
      destination; a failed request commits nothing and surfaces the API's
      error payload. */
  lemma StandbyGatedOnDelegate(c: Option<Snapshot>, body: Record, outcome: Outcome)
    requires body.typ == Some(Standby)
    ensures var st := Handle(c, body, outcome);
      && (st.posted.Some? <==> Validate(c, body, Stage(New)))
      && (st.posted.Some? ==> |SameCall(c.value, body.callId)| > 0 && st.posted == Some(DelegateFor(c.value, body.callId)))
    ensures outcome.Err? ==> var st := Handle(c, body, outcome);
      && !st.written && st.next == c
      && (Validate(c, body, Stage(New)) ==> st.resp == Response(200, UpstreamError(outcome.data)))
    ensures outcome.Ok? && Validate(c, body, Stage(New)) ==> var st := Handle(c, body, outcome);
      && st.written
      && st.next == Some(Advanced(c.value, body.callId, Some(Standby)))
      && st.resp == Response(200, Upstream(outcome.response))
  {
  }

  /** Every POST of a well-formed body keeps the snapshot consistent: one
      record per call, every record typed and well formed. */
  lemma HandleKeepsConsistent(c: Option<Snapshot>, body: Record, outcome: Outcome)
    requires Consistent(c) && WellFormed(body)
    ensures Consistent(Handle(c, body, outcome).next)
  {
    var st := Handle(c, body, outcome);
    if body.typ == Some(New) {
      var d := Destination(c, body);
      CreatedUnique(c.GetOr([]), body, d);
      CreatedAllTyped(c.GetOr([]), body, d);
    } else if st.written {
      var s := c.value;
      if !Predecessor(body.typ).Stage? {
        UnknownTypeRejected(s, body);
      }
      AdvancedUnique(s, body.callId, body.typ);
      AdvancedAllTyped(s, body.callId, body.typ);
    }
  }

  /** A committed transition moves the call exactly one lifecycle stage
      forward: if the call's stored record is in stage `i`, the event is
      of stage `i + 1`, and that is the type stored afterwards. */
  lemma CommittedTransitionAdvances(c: Option<Snapshot>, body: Record, outcome: Outcome, k: int, i: nat)
    requires c.Some? && FirstCall(c.value, body.callId, k)
    requires i < |Stages| && c.value[k].typ == Some(Stages[i])
    requires body.typ != Some(New) && Handle(c, body, outcome).written
    ensures i + 1 < |Stages| && body.typ == Some(Stages[i + 1])
    ensures var n := Handle(c, body, outcome).next.value;
      |n| > 0 && n[|n| - 1].typ == Some(Stages[i + 1]) && n[|n| - 1].callId == body.callId
  {
    var s := c.value;
    ValidateIff(c, body, Predecessor(body.typ));
    var j :| FirstCall(s, body.callId, j) && StrictEquals(s[j].typ, Predecessor(body.typ));
    assert j == k by {
      assert !(j < k) && !(k < j);
    }
    assert body.typ.Some?;
    AdvancesOneStage(body.typ.value, i);
    AdvancedShape(s, body.callId, body.typ);
  }

  /** Nothing leaves `call.finished`: once a call's record is finished,
      only a new `call.new` for it can change the snapshot. */
  lemma FinishedIsFinal(c: Option<Snapshot>, body: Record, outcome: Outcome, k: int)
    requires c.Some? && FirstCall(c.value, body.callId, k)
    requires c.value[k].typ == Some(Finished)
    requires Handle(c, body, outcome).written
    ensures body.typ == Some(New)
  {
    if body.typ != Some(New) {
      assert Stages[6] == Finished;
      CommittedTransitionAdvances(c, body, outcome, k, 6);
    }
  }

  // ---------------------------------------------------------------------
  // The cache and the handlers

  /** The cache key holding the snapshot: absent (`None`) or a list of call
      records. `lastTtl` is the lifetime given by the last write and
      `writes` counts the writes, so that "no write" can be stated. */
  class Cache {
    var value: Option<Snapshot>
    var lastTtl: int
    var writes: nat

    ghost predicate Valid()
      reads this
    {
      Consistent(value)
    }

    constructor (initial: Option<Snapshot>)
      ensures value == initial && lastTtl == 0 && writes == 0
    {
      value := initial;
      lastTtl := 0;
      writes := 0;
    }

    /** `redisClient.setex(CACHE_NAME, ttl, JSON.stringify(snapshot))`. */
    method SetEx(ttl: int, snapshot: Snapshot)
      modifies this
      ensures value == Some(snapshot) && lastTtl == ttl && writes == old(writes) + 1
    {
      value := Some(snapshot);
      lastTtl := ttl;
      writes := writes + 1;
    }

    /** The cache afterwards is the one `st` describes: on a write the new
        snapshot with the 3600-second lifetime and one more write counted;
        otherwise nothing changed. */
    twostate predicate Took(st: Step)
      reads this
    {
      if st.written then value == st.next && lastTtl == Ttl && writes == old(writes) + 1
      else value == old(value) && lastTtl == old(lastTtl) && writes == old(writes)
    }
  }

  /** The `call.new` branch of `callStatus`. */
  method CallNew(cache: Cache, body: Record) returns (resp: Response)
    modifies cache
    ensures cache.Took(NewCallStep(old(cache.value), body))
    ensures resp == NewCallStep(old(cache.value), body).resp
  {
    var customers := cache.value;
    if customers.None? {
      var cacheData := [body.(destination := Some("900"))];
      CreatedOnEmpty(body, "900");
      cache.SetEx(Ttl, cacheData);
      resp := Response(200, DataList(cacheData));
      return;
    }
    var cacheData := customers.value;
    var known := KnownNumber(cacheData, body.theirNumber);
    var updated := body.(destination := Some(if known then "901" else "900"));
    var nextCache := OtherCalls(cacheData, body.callId) + [updated];
    cache.SetEx(Ttl, nextCache);
    resp := Response(200, DataRecord(updated));
  }

  /** The `call.standby` branch of `callStatus`; `outcome` is what the
      delegate request answers. */
  method CallStandby(cache: Cache, body: Record, outcome: Outcome) returns (resp: Response, posted: Option<Action>)
    modifies cache
    ensures cache.Took(StandbyStep(old(cache.value), body, outcome))
    ensures resp == StandbyStep(old(cache.value), body, outcome).resp
    ensures posted == StandbyStep(old(cache.value), body, outcome).posted
  {
    var cacheValue := cache.value;
    if !Validate(cacheValue, body, Predecessor(body.typ)) {
      resp, posted := Response(404, CallNotFound), None;
      return;
    }
    var customers := cacheValue.value;
    var customer := SameCall(customers, body.callId);
    var params := Action("delegate", customer[0].callId, customer[0].destination);
    posted := Some(params);
    match outcome
    case Ok(response) =>
      var updated := customer[0].(typ := body.typ);
      var nextCache := OtherCalls(customers, body.callId) + [updated];
      cache.SetEx(Ttl, nextCache);
      resp := Response(200, Upstream(response));
    case Err(data) =>
      resp := Response(200, UpstreamError(data));
  }

  /** The default branch of `callStatus`. */
  method ReplaceType(cache: Cache, body: Record) returns (resp: Response)
    modifies cache
    ensures cache.Took(ReplaceStep(old(cache.value), body))
    ensures resp == ReplaceStep(old(cache.value), body).resp
  {
    var cacheValue := cache.value;
    if !Validate(cacheValue, body, Predecessor(body.typ)) {
      resp := Response(404, CallNotFound);
      return;
    }
    var customers := cacheValue.value;
    var customer := SameCall(customers, body.callId);
    var nextCache := OtherCalls(customers, body.callId);
    var updated := customer[0].(typ := body.typ);
    nextCache := nextCache + [updated];
    cache.SetEx(Ttl, nextCache);
    resp := Response(200, DataRecord(updated));
  }

  /** `callStatus`: the switch on the body's type, keeping the cache
      consistent. */
  method CallStatus(cache: Cache, body: Record, outcome: Outcome) returns (resp: Response, posted: Option<Action>)
    requires WellFormed(body)
    modifies cache
    ensures cache.Took(Handle(old(cache.value), body, outcome))
    ensures resp == Handle(old(cache.value), body, outcome).resp
    ensures posted == Handle(old(cache.value), body, outcome).posted
    ensures old(cache.Valid()) ==> cache.Valid()
  {
    if old(cache.Valid()) {
      HandleKeepsConsistent(cache.value, body, outcome);
    }
    if body.typ == Some(New) {
      resp := CallNew(cache, body);
      posted := None;
    } else if body.typ == Some(Standby) {
      resp, posted := CallStandby(cache, body, outcome);
    } else {
      resp := ReplaceType(cache, body);
      posted := None;
    }
  }

  /** `getStatus`: `{}` without a snapshot, otherwise the records that are
      not finished. */
  method GetStatus(cache: Cache) returns (resp: Response)
    ensures cache.value.None? ==> resp == Response(200, EmptyObject)
    ensures cache.value.Some? ==> resp == Response(200, DataList(Visible(cache.value.value)))
  {
    var customers := cache.value;
    if customers.None? {
      resp := Response(200, EmptyObject);
      return;
    }
    resp := Response(200, DataList(Visible(customers.value)));
  }

  // ---------------------------------------------------------------------
  // The behaviour the route's tests expect, where it differs from the route

  /** `getStatus` as the tests expect it: `{data: []}` without a snapshot. */
  method GetStatusAsTested(cache: Cache) returns (resp: Response)
    ensures cache.value.None? ==> resp == Response(200, DataList([]))
    ensures cache.value.Some? ==> resp == Response(200, DataList(Visible(cache.value.value)))
  {
    resp := GetStatus(cache);
    if resp.body.EmptyObject? {
      resp := Response(200, DataList([]));
    }
  }

  /** The response the tests expect in place of the route's: a single
      record for a new call on an empty cache, the updated record for a
      committed standby, status 500 for a failed standby. */
  function AsTested(resp: Response, after: Option<Snapshot>): Response {
    match resp.body
    case DataList(records) =>
      if |records| == 1 then Response(resp.status, DataRecord(records[0])) else resp
    case UpstreamError(_) => Response(500, resp.body)
    case Upstream(_) =>
      if after.Some? && |after.value| > 0 then Response(resp.status, BareRecord(after.value[|after.value| - 1]))
      else resp
    case _ => resp
  }

  /** The tests and the route disagree on the answer to a POST at exactly
      two points: a new call on an empty cache, and a standby that
      validates. There the tests expect the stored record under `data`, the
      committed record itself, and status 500 for a failed request;
      everywhere else they expect what the route answers. */
  lemma AsTestedDiffersOnlyAt(c: Option<Snapshot>, body: Record, outcome: Outcome)
    ensures var st := Handle(c, body, outcome);
      AsTested(st.resp, st.next) != st.resp <==>
        (body.typ == Some(New) && c.None?)
        || (body.typ == Some(Standby) && Validate(c, body, Stage(New)))
    ensures body.typ == Some(New) && c.None? ==> var st := Handle(c, body, outcome);
      AsTested(st.resp, st.next) == Response(200, DataRecord(Incoming(body, "900")))
    ensures body.typ == Some(Standby) && Validate(c, body, Stage(New)) ==> var st := Handle(c, body, outcome);
      && |SameCall(c.value, body.callId)| > 0
      && AsTested(st.resp, st.next) == (match outcome
           case Ok(_) => Response(200, BareRecord(SameCall(c.value, body.callId)[0].(typ := Some(Standby))))
           case Err(data) => Response(500, UpstreamError(data)))
  {
    if body.typ == Some(New) && c.None? {
      CreatedOnEmpty(body, "900");
    }
  }

  /** `callStatus` as the tests expect it: a body missing a required field
      is refused with the missing names, and nothing is read or written. */
  method CallStatusAsTested(cache: Cache, body: Record, outcome: Outcome) returns (resp: Response, posted: Option<Action>)
    requires WellFormed(body)
    modifies cache
    ensures |MissingFields(body)| > 0 ==>
      resp == Response(500, BodyMalformat(MissingFields(body))) && posted == None && unchanged(cache)
    ensures |MissingFields(body)| == 0 ==>
      && cache.Took(Handle(old(cache.value), body, outcome))
      && resp == AsTested(Handle(old(cache.value), body, outcome).resp, cache.value)
      && posted == Handle(old(cache.value), body, outcome).posted
    ensures old(cache.Valid()) ==> cache.Valid()
  {
    var missed := MissingFields(body);
    if |missed| > 0 {
      resp, posted := Response(500, BodyMalformat(missed)), None;
      return;
    }
    resp, posted := CallStatus(cache, body, outcome);
    resp := AsTested(resp, cache.value);
  }
}
