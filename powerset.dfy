/**
 The subset enumerator (`powerset` in heredity.py): the set is first turned into
 a list, in an order Python leaves unspecified, and the subsets are then built
 from that list. Only which subsets come out matters, not their order.
 */
module SubsetEnumerator {

  function Pow2(n: nat): (r: nat)
    ensures r >= 1
  {
    if n == 0 then 1 else 2 * Pow2(n - 1)
  }

  /** No element occurs twice in `s`. */
  predicate Distinct<T(==)>(s: seq<T>)
  {
    forall i, j :: 0 <= i < j < |s| ==> s[i] != s[j]
  }

  function Elements<T>(xs: seq<T>): set<T>
  {
    set x | x in xs
  }

  /**
   Every subset of the elements of `xs`: those without `xs[0]`, then the same
   ones with `xs[0]` added.
   */
  function Subsets<T>(xs: seq<T>): (r: seq<set<T>>)
    ensures |r| == Pow2(|xs|)
  {
    if xs == [] then [{}]
    else
      var rest := Subsets(xs[1..]);
      rest + seq(|rest|, i requires 0 <= i < |rest| => rest[i] + {xs[0]})
  }

  /** Each enumerated set is a subset of the list's elements. */
  lemma {:induction false} SubsetsSound<T>(xs: seq<T>, t: set<T>)
    requires t in Subsets(xs)
    ensures t <= Elements(xs)
  {
    if xs != [] {
      var rest := Subsets(xs[1..]);
      var k :| 0 <= k < |Subsets(xs)| && Subsets(xs)[k] == t;
      if k < |rest| {
        assert rest[k] == t;
        SubsetsSound(xs[1..], t);
      } else {
        assert rest[k - |rest|] + {xs[0]} == t;
        SubsetsSound(xs[1..], rest[k - |rest|]);
      }
    }
  }

  /** Every subset of the list's elements is enumerated. */
  lemma {:induction false} SubsetsComplete<T>(xs: seq<T>, t: set<T>)
    requires t <= Elements(xs)
    ensures t in Subsets(xs)
  {
    if xs == [] {
      assert t == {};
    } else {
      var rest := Subsets(xs[1..]);
      var r := Subsets(xs);
      var t' := t - {xs[0]};
      assert t' <= Elements(xs[1..]) by {
        forall y | y in t' ensures y in Elements(xs[1..]) {
          assert y in xs;
          var k :| 0 <= k < |xs| && xs[k] == y;
          assert k != 0;
          assert xs[1..][k - 1] == y;
        }
      }
      SubsetsComplete(xs[1..], t');
      var k :| 0 <= k < |rest| && rest[k] == t';
      if xs[0] in t {
        assert r[|rest| + k] == t' + {xs[0]} == t;
      } else {
        assert r[k] == t;
      }
    }
  }

  /** No subset is enumerated twice, provided the list has no repeated element. */
  lemma {:induction false} SubsetsDistinct<T>(xs: seq<T>)
    requires Distinct(xs)
    ensures Distinct(Subsets(xs))
  {
    if xs != [] {
      var rest := Subsets(xs[1..]);
      var r := Subsets(xs);
      var x := xs[0];
      assert Distinct(xs[1..]);
      SubsetsDistinct(xs[1..]);
      assert x !in Elements(xs[1..]);
      forall k | 0 <= k < |rest| ensures x !in rest[k] {
        SubsetsSound(xs[1..], rest[k]);
      }
      forall i, j | 0 <= i < j < |r| ensures r[i] != r[j] {
        if j < |rest| {
          assert r[i] == rest[i] && r[j] == rest[j];
        } else if i < |rest| {
          assert x !in r[i] && x in r[j];
        } else {
          var i', j' := i - |rest|, j - |rest|;
          assert r[i] == rest[i'] + {x} && r[j] == rest[j'] + {x};
          assert r[i] - {x} == rest[i'] && r[j] - {x} == rest[j'];
        }
      }
    }
  }

  /** A list without repetitions has as many elements as its length. */
  lemma {:induction false} ElementsCardinality<T>(xs: seq<T>)
    requires Distinct(xs)
    ensures |Elements(xs)| == |xs|
  {
    if xs != [] {
      var n := |xs| - 1;
      assert Distinct(xs[..n]);
      ElementsCardinality(xs[..n]);
      assert Elements(xs) == Elements(xs[..n]) + {xs[n]};
      assert xs[n] !in Elements(xs[..n]);
    }
  }

  /** `list(s)`: the elements of `s`, each once, in an unspecified order. */
  method ListOf<T>(s: set<T>) returns (xs: seq<T>)
    ensures Distinct(xs)
    ensures Elements(xs) == s
  {
    xs := [];
    var rest := s;
    while rest != {}
      invariant Distinct(xs)
      invariant Elements(xs) + rest == s
      invariant Elements(xs) !! rest
      decreases rest
    {
      var x :| x in rest;
      xs := xs + [x];
      rest := rest - {x};
    }
  }

  /**
   `powerset(s)`: exactly the subsets of `s`, each once, so 2^|s| of them
   (the empty set and `s` itself among them).
   */
  method Powerset<T>(s: set<T>) returns (r: seq<set<T>>)
    ensures forall t :: t in r <==> t <= s
    ensures Distinct(r)
    ensures |r| == Pow2(|s|)
  {
    var xs := ListOf(s);
    r := Subsets(xs);
    forall t ensures t in r <==> t <= s {
      if t in r { SubsetsSound(xs, t); }
      if t <= s { SubsetsComplete(xs, t); }
    }
    SubsetsDistinct(xs);
    ElementsCardinality(xs);
  }
}
