/** `deepMerge(target, source)` of the helpers module: a recursive overlay
    of `source` onto `target`, done in place on both objects. */
module DeepMerge {
  import opened Wrappers
  import opened Json

  /** The value `source[key]` holds once the loop of `deepMerge` has
      passed `key`: a plain object is replaced by its merge with
      `target[key] || {}`; anything else is left as it is. */
  function MergedSource(t: map<string, Value>, s: map<string, Value>): map<string, Value>
    decreases Obj(s), 0
  {
    map k | k in s ::
      if Mergeable(s[k]) then Obj(Merge(FieldsOr(Get(t, k)), s[k].fields)) else s[k]
  }

  /** The properties of `target` after `deepMerge(target, source)`:
      `Object.assign(target, source)` with the source as the loop left it. */
  function Merge(t: map<string, Value>, s: map<string, Value>): map<string, Value>
    decreases Obj(s), 1
  {
    t + MergedSource(t, s)
  }

  /** One level of the overlay: the keys are the union of both key sets; a
      source value that is not a plain object (or that has an own
      `length`) replaces the target's; a plain object is merged
      recursively into `target[key] || {}`; a key only the target has
      keeps its value. */
  lemma MergeOverlay(t: map<string, Value>, s: map<string, Value>)
    ensures Merge(t, s).Keys == t.Keys + s.Keys
    ensures forall k :: k in s && !Mergeable(s[k]) ==> Merge(t, s)[k] == s[k]
    ensures forall k :: k in s && Mergeable(s[k]) ==>
      Merge(t, s)[k] == Obj(Merge(FieldsOr(Get(t, k)), s[k].fields))
    ensures forall k :: k in t && k !in s ==> Merge(t, s)[k] == t[k]
  {
  }

  /** Every prefix of `p`, except the empty one, leads in `s` to a plain
      object: the overlay descends along `p`. */
  predicate MergedAlong(s: map<string, Value>, p: seq<string>) {
    forall i :: 1 <= i <= |p| ==> At(Obj(s), p[..i]).Some? && Mergeable(At(Obj(s), p[..i]).value)
  }

  /** At every nesting level the overlay descends to, the result is the
      merge of what the target has there (nothing, if the target has no
      object there) with what the source has there. With `MergeOverlay`,
      this gives the key union and the survival of target keys at every
      level. */
  lemma {:induction false} MergeAt(t: map<string, Value>, s: map<string, Value>, p: seq<string>)
    requires MergedAlong(s, p)
    ensures At(Obj(Merge(t, s)), p)
      == Some(Obj(Merge(FieldsOr(At(Obj(t), p)), FieldsOr(At(Obj(s), p)))))
    decreases |p|
  {
    if p != [] {
      var k := p[0];
      assert p[..1] == [k];
      assert At(Obj(s), [k]) == At(s[k], []);
      var sk := s[k];
      assert Mergeable(sk);
      MergeOverlay(t, s);
      var tk := FieldsOr(Get(t, k));
      assert Merge(t, s)[k] == Obj(Merge(tk, sk.fields));
      assert MergedAlong(sk.fields, p[1..]) by {
        forall i | 1 <= i <= |p[1..]|
          ensures At(Obj(sk.fields), p[1..][..i]).Some? && Mergeable(At(Obj(sk.fields), p[1..][..i]).value)
        {
          assert p[..i + 1][0] == k && p[..i + 1][1..] == p[1..][..i];
        }
      }
      MergeAt(tk, sk.fields, p[1..]);
      assert At(Obj(s), p) == At(sk, p[1..]);
      assert FieldsOr(At(Obj(tk), p[1..])) == FieldsOr(At(Obj(t), p)) by {
        if k in t && t[k].Obj? {
          assert Obj(tk) == t[k];
        } else if p[1..] != [] {
          assert At(Obj(tk), p[1..]) == None by {
            assert tk == map[];
          }
        }
      }
    }
  }

  /** The overlay at any level it descends to: keys are the union of the
      target's and the source's keys there, a target key the source lacks
      keeps its value, and a source value that is not merged wins. */
  lemma MergeAtEveryLevel(t: map<string, Value>, s: map<string, Value>, p: seq<string>)
    requires MergedAlong(s, p)
    ensures var r := FieldsOr(At(Obj(Merge(t, s)), p));
      var tp := FieldsOr(At(Obj(t), p));
      var sp := FieldsOr(At(Obj(s), p));
      && r.Keys == tp.Keys + sp.Keys
      && (forall k :: k in tp && k !in sp ==> r[k] == tp[k])
      && (forall k :: k in sp && !Mergeable(sp[k]) ==> r[k] == sp[k])
  {
    MergeAt(t, s, p);
    MergeOverlay(FieldsOr(At(Obj(t), p)), FieldsOr(At(Obj(s), p)));
  }

  /** Merging into an empty target copies the source: `deepMerge({}, s)`
      yields a value equal to `s`. */
  lemma {:induction false} MergeIntoEmpty(s: map<string, Value>)
    ensures Merge(map[], s) == s
    decreases Obj(s)
  {
    forall k | k in s && Mergeable(s[k]) ensures Merge(map[], s[k].fields) == s[k].fields {
      MergeIntoEmpty(s[k].fields);
    }
    assert MergedSource(map[], s) == s;
  }

  /** Merging an object into itself changes nothing. */
  lemma {:induction false} MergeSelf(s: map<string, Value>)
    ensures Merge(s, s) == s
    decreases Obj(s)
  {
    forall k | k in s && Mergeable(s[k]) ensures Merge(s[k].fields, s[k].fields) == s[k].fields {
      MergeSelf(s[k].fields);
    }
    assert MergedSource(s, s) == s;
  }

  /** Overlaying the same source twice is overlaying it once. */
  lemma {:induction false} MergeIdempotent(t: map<string, Value>, s: map<string, Value>)
    ensures Merge(Merge(t, s), s) == Merge(t, s)
    decreases Obj(s)
  {
    var m := Merge(t, s);
    forall k | k in s && Mergeable(s[k])
      ensures Merge(FieldsOr(Get(m, k)), s[k].fields) == FieldsOr(Get(m, k))
    {
      var tk := FieldsOr(Get(t, k));
      assert Get(m, k) == Some(Obj(Merge(tk, s[k].fields)));
      MergeIdempotent(tk, s[k].fields);
    }
    assert MergedSource(m, s) == MergedSource(t, s);
  }

  /** A JavaScript object whose own properties `deepMerge` overwrites. Nested
      objects are values: only the two top-level objects are updated in
      place. */
  class JsObject {
    var props: map<string, Value>

    constructor (props: map<string, Value>)
      ensures this.props == props
    {
      this.props := props;
    }
  }

  /** `deepMerge(target, source)`. `target == null` stands for `null` or
      `undefined`: reading `target[key]` then throws, which happens at the
      first plain-object value of the source (`thrown`). Otherwise the
      source's plain-object values are replaced by their merges, the
      target receives every source property, and the target itself is
      returned. `target` and `source` may be the same object. */
  method DeepMergeInPlace(target: JsObject?, source: JsObject) returns (result: JsObject?, thrown: bool)
    modifies target, source
    ensures result == target
    ensures thrown <==> target == null && exists k :: k in old(source.props) && Mergeable(old(source.props)[k])
    ensures thrown ==> source.props == old(source.props)
    ensures !thrown && target == null ==> source.props == old(source.props)
    ensures !thrown && target != null ==>
      && source.props == MergedSource(old(target.props), old(source.props))
      && target.props == Merge(old(target.props), old(source.props))
  {
    ghost var s0 := source.props;
    ghost var t0 := if target == null then map[] else target.props;
    var keys := source.props.Keys;
    thrown := false;
    result := target;
    while keys != {}
      invariant keys <= s0.Keys
      invariant source.props.Keys == s0.Keys
      invariant forall k :: k in keys ==> source.props[k] == s0[k]
      invariant target != null ==> forall k :: k in s0 && k !in keys ==> source.props[k] == MergedSource(t0, s0)[k]
      invariant target == null ==> source.props == s0 && forall k :: k in s0 && k !in keys ==> !Mergeable(s0[k])
      invariant target != null ==> t0 == old(target.props)
      invariant target != null && target != source ==> target.props == t0
      invariant target == source ==> t0 == s0
      decreases keys
    {
      var k :| k in keys;
      var v := source.props[k];
      if Mergeable(v) {
        if target == null {
          thrown := true;
          return;
        }
        var merged := Merge(FieldsOr(Get(target.props, k)), v.fields);
        source.props := source.props[k := Obj(merged)];
      }
      keys := keys - {k};
    }
    if target != null {
      target.props := target.props + source.props;
    }
  }
}
