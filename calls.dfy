/** Call records and the snapshot computations of the webhook route: the
    `filter`/`some`/spread expressions of `callStatus`, `_validate` and the
    read-side filter of `getStatus`, as pure functions over a snapshot (the
    list of call records held under the cache key). */
module Calls {
  import opened Wrappers
  import opened Lists
  import opened Lifecycle

  /** One call record, as posted by the call-control API and stored in the
      snapshot. The four fields the route reads are named; `extra` holds
      every other field (`code`, `direction`, `our_number`, `timestamp`,
      `their_number_type`, ...), carried through verbatim. An absent field is
      `None`. */
  datatype Record = Record(
    typ: Option<string>,
    callId: Option<string>,
    theirNumber: Option<string>,
    destination: Option<string>,
    extra: map<string, string>)

  /** The field names that have their own place in a `Record`. */
  const NamedFields: set<string> := {"type", "call_id", "their_number", "destination"}

  /** A record that stands for a JavaScript object: a field name appears
      once, so none of the named fields is also in `extra`. */
  predicate WellFormed(r: Record) {
    r.extra.Keys !! NamedFields
  }

  type Snapshot = seq<Record>

  /** `item => item.call_id === id` */
  function IsCall(id: Option<string>): Record -> bool {
    (r: Record) => r.callId == id
  }

  /** `item => item.call_id !== id` */
  function IsOtherCall(id: Option<string>): Record -> bool {
    (r: Record) => r.callId != id
  }

  /** `item => item.type !== 'call.finished'` */
  function IsLive(): Record -> bool {
    (r: Record) => r.typ != Some(Finished)
  }

  /** `customers.filter(item => item.call_id === id)` */
  function SameCall(s: Snapshot, id: Option<string>): Snapshot {
    Filter(s, IsCall(id))
  }

  /** `customers.filter(item => item.call_id !== id)` */
  function OtherCalls(s: Snapshot, id: Option<string>): Snapshot {
    Filter(s, IsOtherCall(id))
  }

  /** `cacheData.some(item => item.their_number === n)` */
  predicate KnownNumber(s: Snapshot, n: Option<string>) {
    Any(s, (r: Record) => r.theirNumber == n)
  }

  /** The destination a `call.new` event gets: `'901'` for a number already
      in the snapshot, `'900'` otherwise and when there is no snapshot. */
  function Destination(cache: Option<Snapshot>, body: Record): (d: string)
    ensures d == "900" || d == "901"
    ensures cache.None? ==> d == "900"
  {
    if cache.Some? && KnownNumber(cache.value, body.theirNumber) then "901" else "900"
  }

  /** The record a `call.new` event stores: the whole body, with its
      destination overwritten. */
  function Incoming(body: Record, d: string): Record {
    body.(destination := Some(d))
  }

  /** The snapshot after a `call.new` event: every record of that call
      removed, the incoming record appended. */
  function Created(s: Snapshot, body: Record, d: string): Snapshot {
    OtherCalls(s, body.callId) + [Incoming(body, d)]
  }

  /** `_validate(cache, bodyData, actionBefore)`. */
  predicate Validate(cache: Option<Snapshot>, body: Record, before: Lookup) {
    if cache.None? then false
    else
      var customer := SameCall(cache.value, body.callId);
      if |customer| <= 0 then false
      else StrictEquals(customer[0].typ, before)
  }

  /** The snapshot after a validated transition to type `t`: the stored
      record of call `id` with only its type replaced, moved to the end. */
  function Advanced(s: Snapshot, id: Option<string>, t: Option<string>): Snapshot
    requires |SameCall(s, id)| > 0
  {
    var customer := SameCall(s, id);
    OtherCalls(s, id) + [customer[0].(typ := t)]
  }

  /** What `GET /webhook` shows of a snapshot. */
  function Visible(s: Snapshot): (r: Snapshot)
    ensures |r| <= |s|
    ensures forall i :: 0 <= i < |r| ==> r[i].typ != Some(Finished) && r[i] in s
  {
    var r := Filter(s, IsLive());
    assert forall i :: 0 <= i < |r| ==> r[i] in r;
    r
  }

  /** `i` is the first position of a record of call `id`. */
  predicate FirstCall(s: Snapshot, id: Option<string>, i: int) {
    0 <= i < |s| && s[i].callId == id && forall j :: 0 <= j < i ==> s[j].callId != id
  }

  /** At most one record per call id: each stored record is the only one
      of its call. */
  predicate Unique(s: Snapshot) {
    forall i :: 0 <= i < |s| ==> |SameCall(s, s[i].callId)| == 1
  }

  /** Every stored record has a type. */
  predicate AllTyped(s: Snapshot) {
    forall i :: 0 <= i < |s| ==> s[i].typ.Some?
  }

  /** Every stored record is well formed. */
  predicate AllWellFormed(s: Snapshot) {
    forall i :: 0 <= i < |s| ==> WellFormed(s[i])
  }

  /** The snapshot invariants the handlers keep: one record per call, every
      record typed and well formed. An absent snapshot is consistent. */
  predicate Consistent(c: Option<Snapshot>) {
    c.Some? ==> Unique(c.value) && AllTyped(c.value) && AllWellFormed(c.value)
  }

  // ---------------------------------------------------------------------
  // Validation

  /** `_validate` succeeds exactly when the snapshot is present, holds a
      record of the event's call, and the first such record has the
      expected predecessor type. */
  lemma ValidateIff(cache: Option<Snapshot>, body: Record, before: Lookup)
    ensures Validate(cache, body, before) <==>
      cache.Some? && exists i :: FirstCall(cache.value, body.callId, i) && StrictEquals(cache.value[i].typ, before)
  {
    if cache.Some? {
      var s := cache.value;
      FilterHead(s, IsCall(body.callId));
      if |SameCall(s, body.callId)| > 0 {
        var i :| 0 <= i < |s| && IsCall(body.callId)(s[i]) && SameCall(s, body.callId)[0] == s[i]
                 && forall j :: 0 <= j < i ==> !IsCall(body.callId)(s[j]);
        assert FirstCall(s, body.callId, i);
        forall k | FirstCall(s, body.callId, k) ensures s[k] == s[i] {
          assert !(k < i) && !(i < k);
        }
      } else {
        forall k | 0 <= k < |s| ensures !FirstCall(s, body.callId, k) {
          assert !IsCall(body.callId)(s[k]);
        }
      }
    }
  }

  /** An event for a call the snapshot does not hold, or with no snapshot
      at all, never validates. */
  lemma UnknownCallRejected(cache: Option<Snapshot>, body: Record, before: Lookup)
    requires cache.Some? ==> forall i :: 0 <= i < |cache.value| ==> cache.value[i].callId != body.callId
    ensures !Validate(cache, body, before)
  {
    if cache.Some? {
      FilterNone(cache.value, IsCall(body.callId));
    }
  }

  /** An event whose type has no table entry never validates against a
      snapshot whose records all have a type. (A stored record WITHOUT a
      type would satisfy `undefined === undefined`.) */
  lemma UnknownTypeRejected(s: Snapshot, body: Record)
    requires AllTyped(s)
    requires !Predecessor(body.typ).Stage?
    ensures !Validate(Some(s), body, Predecessor(body.typ))
  {
    FilterHead(s, IsCall(body.callId));
  }

  /** An event named after an `Object.prototype` member never validates,
      whatever the snapshot holds: the inherited member equals no stored
      type, not even an absent one. */
  lemma InheritedTypeRejected(cache: Option<Snapshot>, body: Record)
    requires body.typ.Some? && body.typ.value in ObjectPrototype
    ensures !Validate(cache, body, Predecessor(body.typ))
  {
    assert Predecessor(body.typ) == Inherited by {
      TableIsChain();
    }
  }

  /** An event whose type is absent, or names neither a stage with an
      entry nor an inherited member, validates against a record whose type
      is absent: the case `UnknownTypeRejected` excludes is real. */
  lemma UntypedRecordAcceptsUntypedEvent(rec: Record, body: Record)
    requires rec.typ.None? && rec.callId == body.callId
    requires body.typ.None? || (body.typ.value !in BeforeThan && body.typ.value !in ObjectPrototype)
    ensures Validate(Some([rec]), body, Predecessor(body.typ))
  {
    assert SameCall([rec], body.callId) == [rec];
  }

  // ---------------------------------------------------------------------
  // Creation

  /** The destination is `'901'` exactly when some stored record has the
      event's `their_number`; it is always `'900'` or `'901'`. */
  lemma DestinationIff(cache: Option<Snapshot>, body: Record)
    ensures Destination(cache, body) == "900" || Destination(cache, body) == "901"
    ensures Destination(cache, body) == "901" <==>
      cache.Some? && exists i :: 0 <= i < |cache.value| && cache.value[i].theirNumber == body.theirNumber
  {
    if cache.Some? {
      AnyIff(cache.value, (r: Record) => r.theirNumber == body.theirNumber);
    }
  }

  /** What a `call.new` event does to the snapshot: the incoming record is
      the last one and the only one of its call, the records of other
      calls keep their order, and the records of every other call id are
      exactly those stored before. */
  lemma {:induction false} CreatedShape(s: Snapshot, body: Record, d: string)
    ensures var n := Created(s, body, d);
      && |n| > 0 && n[|n| - 1] == Incoming(body, d)
      && n[|n| - 1].destination == Some(d)
      && SameCall(n, body.callId) == [Incoming(body, d)]
      && OtherCalls(n, body.callId) == OtherCalls(s, body.callId)
    ensures forall id :: id != body.callId ==> SameCall(Created(s, body, d), id) == SameCall(s, id)
  {
    var id := body.callId;
    var rest := OtherCalls(s, id);
    var n := Created(s, body, d);
    FilterConcat(rest, [Incoming(body, d)], IsCall(id));
    FilterDisjoint(s, IsOtherCall(id), IsCall(id));
    FilterConcat(rest, [Incoming(body, d)], IsOtherCall(id));
    FilterFilter(s, IsOtherCall(id), IsOtherCall(id));
    forall id' | id' != id ensures SameCall(n, id') == SameCall(s, id') {
      FilterConcat(rest, [Incoming(body, d)], IsCall(id'));
      FilterFilter(s, IsOtherCall(id), IsCall(id'));
    }
  }

  /** A `call.new` event keeps the snapshot unique by call id. */
  lemma CreatedUnique(s: Snapshot, body: Record, d: string)
    requires Unique(s)
    ensures Unique(Created(s, body, d))
  {
    var n := Created(s, body, d);
    CreatedShape(s, body, d);
    forall i | 0 <= i < |n| ensures |SameCall(n, n[i].callId)| == 1 {
      if i < |n| - 1 {
        assert n[i] in OtherCalls(s, body.callId);
        var k :| 0 <= k < |s| && s[k] == n[i];
      }
    }
  }

  /** A `call.new` event keeps every stored record typed. */
  lemma CreatedAllTyped(s: Snapshot, body: Record, d: string)
    requires AllTyped(s) && body.typ.Some?
    requires AllWellFormed(s) && WellFormed(body)
    ensures AllTyped(Created(s, body, d)) && AllWellFormed(Created(s, body, d))
  {
    var n := Created(s, body, d);
    forall i | 0 <= i < |n| ensures n[i].typ.Some? && WellFormed(n[i]) {
      if i < |n| - 1 {
        assert n[i] in OtherCalls(s, body.callId);
      }
    }
  }

  /** Replaying a `call.new` event routes it to `'901'`: the first event
      stored the caller's number, so the caller is now known. */
  lemma ReplayFlipsDestination(cache: Option<Snapshot>, body: Record)
    ensures var n := Created(cache.GetOr([]), body, Destination(cache, body));
      Destination(Some(n), body) == "901" && Destination(Some(n), body) != Destination(None, body)
  {
    var n := Created(cache.GetOr([]), body, Destination(cache, body));
    CreatedShape(cache.GetOr([]), body, Destination(cache, body));
    DestinationIff(Some(n), body);
    assert n[|n| - 1].theirNumber == body.theirNumber;
  }

  // ---------------------------------------------------------------------
  // Transitions

  /** What a validated transition does to the snapshot: the stored record
      of the call is kept with only its type replaced and put last; the
      records of the other calls keep their order; the records of every
      other call id are those stored before. */
  lemma {:induction false} AdvancedShape(s: Snapshot, id: Option<string>, t: Option<string>)
    requires |SameCall(s, id)| > 0
    ensures var rec := SameCall(s, id)[0]; var n := Advanced(s, id, t);
      && rec in s && rec.callId == id
      && |n| > 0
      && n[|n| - 1].typ == t
      && n[|n| - 1].callId == rec.callId
      && n[|n| - 1].theirNumber == rec.theirNumber
      && n[|n| - 1].destination == rec.destination
      && n[|n| - 1].extra == rec.extra
      && SameCall(n, id) == [n[|n| - 1]]
      && OtherCalls(n, id) == OtherCalls(s, id)
    ensures forall id' :: id' != id ==> SameCall(Advanced(s, id, t), id') == SameCall(s, id')
  {
    var rec := SameCall(s, id)[0];
    assert rec in SameCall(s, id);
    var last := rec.(typ := t);
    var rest := OtherCalls(s, id);
    var n := Advanced(s, id, t);
    FilterConcat(rest, [last], IsCall(id));
    FilterDisjoint(s, IsOtherCall(id), IsCall(id));
    FilterConcat(rest, [last], IsOtherCall(id));
    FilterFilter(s, IsOtherCall(id), IsOtherCall(id));
    forall id' | id' != id ensures SameCall(n, id') == SameCall(s, id') {
      FilterConcat(rest, [last], IsCall(id'));
      FilterFilter(s, IsOtherCall(id), IsCall(id'));
    }
  }

  /** On a unique snapshot a transition replaces one record by its
      re-typed copy: same length, same records otherwise, still unique. */
  lemma AdvancedUnique(s: Snapshot, id: Option<string>, t: Option<string>)
    requires Unique(s)
    requires |SameCall(s, id)| > 0
    ensures var rec := SameCall(s, id)[0]; var n := Advanced(s, id, t);
      && Unique(n)
      && |n| == |s|
      && multiset(n) == multiset(s) - multiset{rec} + multiset{rec.(typ := t)}
  {
    var rec := SameCall(s, id)[0];
    var n := Advanced(s, id, t);
    AdvancedShape(s, id, t);
    FilterComplement(s, IsOtherCall(id), IsCall(id));
    var k :| 0 <= k < |s| && s[k] == rec;
    assert SameCall(s, id) == [rec];
    forall i | 0 <= i < |n| ensures |SameCall(n, n[i].callId)| == 1 {
      if i < |n| - 1 {
        assert n[i] in OtherCalls(s, id);
        var j :| 0 <= j < |s| && s[j] == n[i];
      }
    }
  }

  /** A transition to a present type keeps every stored record typed. */
  lemma AdvancedAllTyped(s: Snapshot, id: Option<string>, t: Option<string>)
    requires AllTyped(s) && AllWellFormed(s) && t.Some?
    requires |SameCall(s, id)| > 0
    ensures AllTyped(Advanced(s, id, t)) && AllWellFormed(Advanced(s, id, t))
  {
    var n := Advanced(s, id, t);
    assert SameCall(s, id)[0] in s;
    forall i | 0 <= i < |n| ensures n[i].typ.Some? && WellFormed(n[i]) {
      if i < |n| - 1 {
        assert n[i] in OtherCalls(s, id);
      }
    }
  }

  /** A `call.new` event on an empty snapshot stores the incoming record alone. */
  lemma CreatedOnEmpty(body: Record, d: string)
    ensures Created([], body, d) == [Incoming(body, d)]
  {
  }

  /** The filters of a one-record snapshot. */
  lemma SingleRecord(rec: Record, id: Option<string>)
    ensures SameCall([rec], id) == if rec.callId == id then [rec] else []
    ensures OtherCalls([rec], id) == if rec.callId == id then [] else [rec]
    ensures Visible([rec]) == if rec.typ == Some(Finished) then [] else [rec]
    ensures KnownNumber([rec], rec.theirNumber)
  {
    assert [rec][1..] == [];
  }

  // ---------------------------------------------------------------------
  // Reading

  /** `GET /webhook` shows every record that is not finished, and only
      those, in stored order. */
  lemma {:induction false} VisibleSpec(s: Snapshot)
    ensures forall r :: r in Visible(s) ==> r in s && r.typ != Some(Finished)
    ensures forall r :: r in s && r.typ != Some(Finished) ==> r in Visible(s)
    ensures (forall i :: 0 <= i < |s| ==> s[i].typ != Some(Finished)) ==> Visible(s) == s
    ensures forall a, b :: s == a + b ==> Visible(s) == Visible(a) + Visible(b)
  {
    FilterKeeps(s, IsLive());
    if forall i :: 0 <= i < |s| ==> s[i].typ != Some(Finished) {
      FilterAll(s, IsLive());
    }
    forall a, b | s == a + b ensures Visible(s) == Visible(a) + Visible(b) {
      FilterConcat(a, b, IsLive());
    }
  }

  // ---------------------------------------------------------------------
  // Required fields (asserted by the route's tests, not checked by the route)

  /** The canonical list of required fields. */
  const RequiredFields: seq<string> :=
    ["type", "call_id", "code", "direction", "our_number", "their_number", "timestamp"]

  /** The field names present in a request body. */
  function Fields(r: Record): set<string> {
    (if r.typ.Some? then {"type"} else {})
    + (if r.callId.Some? then {"call_id"} else {})
    + (if r.theirNumber.Some? then {"their_number"} else {})
    + (if r.destination.Some? then {"destination"} else {})
    + r.extra.Keys
  }

  /** `item => !body.includes(item)` */
  function IsMissingFrom(r: Record): string -> bool {
    (f: string) => f !in Fields(r)
  }

  /** `_fields.filter(item => !body.includes(item))` */
  function MissingFields(r: Record): seq<string> {
    Filter(RequiredFields, IsMissingFrom(r))
  }

  /** A body holding every required field misses none. */
  lemma NoneMissing(r: Record)
    requires forall i :: 0 <= i < |RequiredFields| ==> RequiredFields[i] in Fields(r)
    ensures MissingFields(r) == []
  {
    FilterNone(RequiredFields, IsMissingFrom(r));
  }

  /** A field is reported missing exactly when it is required and absent. */
  lemma MissingFieldsIff(r: Record)
    ensures forall f :: f in MissingFields(r) <==> f in RequiredFields && f !in Fields(r)
  {
    FilterKeeps(RequiredFields, IsMissingFrom(r));
  }
}
