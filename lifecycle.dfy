/** The predecessor table of the webhook route (`_beforeThan`): the one
    lifecycle stage a call must be in before each non-initial stage. */
module Lifecycle {
  import opened Wrappers

  /** The lifecycle stages, in the only order the table admits. */
  const Stages: seq<string> :=
    ["call.new", "call.standby", "call.waiting", "actor.entered",
     "call.ongoing", "actor.left", "call.finished"]

  const New: string := "call.new"
  const Standby: string := "call.standby"
  const Finished: string := "call.finished"

  /** `_beforeThan`: stage -> the stage that must precede it. */
  const BeforeThan: map<string, string> :=
    map["call.standby" := "call.new",
        "call.waiting" := "call.standby",
        "actor.entered" := "call.waiting",
        "call.ongoing" := "actor.entered",
        "actor.left" := "call.ongoing",
        "call.finished" := "actor.left"]

  /** The names every plain object inherits from `Object.prototype`. Looking
      one of them up in `_beforeThan` finds a function (or, for `__proto__`,
      the prototype object), which is strictly equal to no string and not
      to `undefined`. */
  const ObjectPrototype: set<string> :=
    {"constructor", "hasOwnProperty", "isPrototypeOf", "propertyIsEnumerable",
     "toString", "toLocaleString", "valueOf", "__proto__", "__defineGetter__",
     "__defineSetter__", "__lookupGetter__", "__lookupSetter__"}

  /** What `_beforeThan[type]` yields. */
  datatype Lookup = Undefined | Stage(name: string) | Inherited

  /** `_beforeThan[type]`: a stage for a name with an entry, an inherited
      member for a name of `Object.prototype`, `undefined` otherwise (also
      for an absent type). The entries are exactly the non-initial stages. */
  function Predecessor(t: Option<string>): (r: Lookup)
    ensures r.Stage? <==> t.Some? && t.value in Stages[1..]
    ensures r.Inherited? ==> t.Some? && t.value in ObjectPrototype && t.value !in Stages
  {
    TableIsChain();
    if t.Some? && t.value in BeforeThan then Stage(BeforeThan[t.value])
    else if t.Some? && t.value in ObjectPrototype then Inherited
    else Undefined
  }

  /** `v === lookup`, for a stored type `v` (a string or `undefined`). */
  predicate StrictEquals(v: Option<string>, e: Lookup) {
    match e
    case Undefined => v.None?
    case Stage(name) => v == Some(name)
    case Inherited => false
  }

  /** The table is the chain of `Stages`: a stage has a predecessor exactly
      when it is not the first, and that predecessor is the stage just
      before it. */
  lemma TableIsChain()
    ensures forall i, j :: 0 <= i < j < |Stages| ==> Stages[i] != Stages[j]
    ensures BeforeThan.Keys == set i | 1 <= i < |Stages| :: Stages[i]
    ensures forall i :: 1 <= i < |Stages| ==> BeforeThan[Stages[i]] == Stages[i - 1]
  {
    var keys := set i | 1 <= i < |Stages| :: Stages[i];
    assert Stages[1] in keys && Stages[2] in keys && Stages[3] in keys;
    assert Stages[4] in keys && Stages[5] in keys && Stages[6] in keys;
  }

  /** `call.new` is the only initial stage, and nothing follows `call.finished`. */
  lemma InitialAndTerminal()
    ensures New !in BeforeThan
    ensures Finished !in BeforeThan.Values
    ensures forall t :: t in BeforeThan ==> t != New
  {
  }

  /** Distinct stages have distinct predecessors: there is no branching. */
  lemma NoBranching()
    ensures forall s, t :: s in BeforeThan && t in BeforeThan && BeforeThan[s] == BeforeThan[t] ==> s == t
  {
  }

  /** A successful transition moves a call exactly one stage forward: if the
      stored stage is the table's predecessor of the incoming one, the
      incoming one is the next in `Stages`. */
  lemma {:induction false} AdvancesOneStage(t: string, i: nat)
    requires i < |Stages|
    requires Predecessor(Some(t)) == Stage(Stages[i])
    ensures i + 1 < |Stages| && t == Stages[i + 1]
  {
    TableIsChain();
    var j :| 1 <= j < |Stages| && Stages[j] == t;
    assert Stages[j - 1] == Stages[i];
    assert j - 1 == i;
  }
}
