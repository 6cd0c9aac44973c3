/** JavaScript's `Array.prototype.filter` and `Array.prototype.some`, as pure
    functions over sequences, with the facts the call-snapshot proofs use. */
module Lists {

  /** `s.filter(p)`: the elements satisfying `p`, in their original order. */
  function Filter<T>(s: seq<T>, p: T -> bool): (r: seq<T>)
    ensures |r| <= |s|
    ensures forall x :: x in r ==> x in s && p(x)
  {
    if s == [] then []
    else if p(s[0]) then [s[0]] + Filter(s[1..], p)
    else Filter(s[1..], p)
  }

  /** `s.some(p)`. */
  function Any<T>(s: seq<T>, p: T -> bool): bool
  {
    if s == [] then false else p(s[0]) || Any(s[1..], p)
  }

  /** `some` holds exactly when one of the elements satisfies `p`. */
  lemma {:induction false} AnyIff<T>(s: seq<T>, p: T -> bool)
    ensures Any(s, p) <==> exists i :: 0 <= i < |s| && p(s[i])
  {
    if s != [] {
      AnyIff(s[1..], p);
      if Any(s[1..], p) {
        var i :| 0 <= i < |s[1..]| && p(s[1..][i]);
        assert p(s[i + 1]);
      }
      if exists i :: 0 <= i < |s| && p(s[i]) {
        var i :| 0 <= i < |s| && p(s[i]);
        if i > 0 { assert p(s[1..][i - 1]); }
      }
    }
  }

  /** Every element of `s` that satisfies `p` is kept. */
  lemma {:induction false} FilterKeeps<T>(s: seq<T>, p: T -> bool)
    ensures forall x :: x in s && p(x) ==> x in Filter(s, p)
  {
    if s != [] {
      FilterKeeps(s[1..], p);
      forall x | x in s && p(x) ensures x in Filter(s, p) {
        if x != s[0] { assert x in s[1..]; }
      }
    }
  }

  /** Filtering distributes over concatenation: the relative order of the
      kept elements is the order they had. */
  lemma {:induction false} FilterConcat<T>(a: seq<T>, b: seq<T>, p: T -> bool)
    ensures Filter(a + b, p) == Filter(a, p) + Filter(b, p)
  {
    if a == [] {
      assert a + b == b;
    } else {
      assert (a + b)[0] == a[0];
      assert (a + b)[1..] == a[1..] + b;
      FilterConcat(a[1..], b, p);
    }
  }

  /** A filter that rejects nothing returns the sequence unchanged. */
  lemma {:induction false} FilterAll<T>(s: seq<T>, p: T -> bool)
    requires forall i :: 0 <= i < |s| ==> p(s[i])
    ensures Filter(s, p) == s
  {
    if s != [] {
      FilterAll(s[1..], p);
    }
  }

  /** A filter that keeps nothing returns the empty sequence. */
  lemma {:induction false} FilterNone<T>(s: seq<T>, p: T -> bool)
    requires forall i :: 0 <= i < |s| ==> !p(s[i])
    ensures Filter(s, p) == []
  {
    if s != [] {
      FilterNone(s[1..], p);
    }
  }

  /** Filtering by `p` after a weaker filter `q` is filtering by `p` alone. */
  lemma {:induction false} FilterFilter<T>(s: seq<T>, q: T -> bool, p: T -> bool)
    requires forall x :: p(x) ==> q(x)
    ensures Filter(Filter(s, q), p) == Filter(s, p)
  {
    if s != [] {
      FilterFilter(s[1..], q, p);
    }
  }

  /** Filtering by `p` after a filter `q` that excludes everything `p`
      accepts leaves nothing. */
  lemma {:induction false} FilterDisjoint<T>(s: seq<T>, q: T -> bool, p: T -> bool)
    requires forall x :: p(x) ==> !q(x)
    ensures Filter(Filter(s, q), p) == []
  {
    if s != [] {
      FilterDisjoint(s[1..], q, p);
    }
  }

  /** A filter and its complement split the sequence: their lengths add up
      and, together, they hold every element as often as `s` does. */
  lemma {:induction false} FilterComplement<T>(s: seq<T>, p: T -> bool, q: T -> bool)
    requires forall x :: q(x) <==> !p(x)
    ensures |Filter(s, p)| + |Filter(s, q)| == |s|
    ensures multiset(Filter(s, p)) + multiset(Filter(s, q)) == multiset(s)
  {
    if s != [] {
      FilterComplement(s[1..], p, q);
      assert s == [s[0]] + s[1..];
    }
  }

  /** The head of a non-empty filter result is the first element of `s`
      that satisfies `p`; the result is non-empty exactly when there is one. */
  lemma {:induction false} FilterHead<T>(s: seq<T>, p: T -> bool)
    ensures |Filter(s, p)| > 0 <==> exists i :: 0 <= i < |s| && p(s[i])
    ensures |Filter(s, p)| > 0 ==>
      exists i :: 0 <= i < |s| && p(s[i]) && Filter(s, p)[0] == s[i]
                  && forall j :: 0 <= j < i ==> !p(s[j])
  {
    if s != [] {
      FilterHead(s[1..], p);
      if !p(s[0]) && |Filter(s, p)| > 0 {
        var i :| 0 <= i < |s[1..]| && p(s[1..][i]) && Filter(s[1..], p)[0] == s[1..][i]
                 && forall j :: 0 <= j < i ==> !p(s[1..][j]);
        assert p(s[i + 1]);
        forall j | 0 <= j < i + 1 ensures !p(s[j]) {
          if j > 0 { assert s[j] == s[1..][j - 1]; }
        }
      }
      if exists i :: 0 <= i < |s| && p(s[i]) {
        var i :| 0 <= i < |s| && p(s[i]);
        if i > 0 && !p(s[0]) { assert p(s[1..][i - 1]); }
      }
    }
  }
}
