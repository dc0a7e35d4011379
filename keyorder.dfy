/**
 * The order in which the serialiser emits mapping keys: lexicographic on
 * code points, a prefix before its extensions. Keys are sorted by
 * repeatedly taking the least remaining key of a finite set.
 */
module KeyOrder {

  /** `a` sorts no later than `b`. */
  predicate Le(a: string, b: string)
  {
    |a| == 0 || (|b| > 0 && (a[0] < b[0] || (a[0] == b[0] && Le(a[1..], b[1..]))))
  }

  lemma LeReflexive(a: string)
    ensures Le(a, a)
  {
  }

  lemma LeTotal(a: string, b: string)
    ensures Le(a, b) || Le(b, a)
  {
  }

  lemma LeAntisymmetric(a: string, b: string)
    ensures Le(a, b) && Le(b, a) ==> a == b
  {
    if |a| > 0 && |b| > 0 && a[0] == b[0] {
      LeAntisymmetric(a[1..], b[1..]);
      assert a == [a[0]] + a[1..] && b == [b[0]] + b[1..];
    }
  }

  lemma LeAntisymmetricAll()
    ensures forall a, b :: Le(a, b) && Le(b, a) ==> a == b
  {
    forall a, b ensures Le(a, b) && Le(b, a) ==> a == b {
      LeAntisymmetric(a, b);
    }
  }

  lemma LeTransitive(a: string, b: string, c: string)
    requires Le(a, b) && Le(b, c)
    ensures Le(a, c)
  {
    if |a| > 0 && a[0] == b[0] && b[0] == c[0] {
      LeTransitive(a[1..], b[1..], c[1..]);
    }
  }

  /** `k` is a least element of `ks`. */
  predicate IsLeast(k: string, ks: set<string>)
  {
    k in ks && forall j :: j in ks ==> Le(k, j)
  }

  /** Every non-empty finite set of strings has a least element. */
  lemma {:induction false} LeastExists(ks: set<string>)
    requires ks != {}
    ensures exists k :: IsLeast(k, ks)
    decreases ks
  {
    var x :| x in ks;
    if ks == {x} {
      LeReflexive(x);
      assert IsLeast(x, ks);
    } else {
      var rest := ks - {x};
      LeastExists(rest);
      var m :| IsLeast(m, rest);
      LeTotal(x, m);
      if Le(x, m) {
        forall j | j in ks ensures Le(x, j) {
          if j == x { LeReflexive(x); } else { LeTransitive(x, m, j); }
        }
        assert IsLeast(x, ks);
      } else {
        assert IsLeast(m, ks);
      }
    }
  }

  /** The least element of a non-empty set; unique because `Le` is antisymmetric. */
  function Least(ks: set<string>): (k: string)
    requires ks != {}
    ensures IsLeast(k, ks)
  {
    LeastExists(ks);
    LeAntisymmetricAll();
    var k :| IsLeast(k, ks);
    k
  }

  /** `r` lists its elements in strictly increasing key order. */
  predicate StrictlySorted(r: seq<string>)
  {
    forall i, j :: 0 <= i < j < |r| ==> Le(r[i], r[j]) && r[i] != r[j]
  }

  /** The keys of `ks` in the order the serialiser emits them. */
  function SortedKeys(ks: set<string>): (r: seq<string>)
    ensures |r| == |ks|
    ensures forall i :: 0 <= i < |r| ==> r[i] in ks
    ensures forall k :: k in ks ==> k in r
    ensures StrictlySorted(r)
    decreases ks
  {
    if ks == {} then []
    else
      var k := Least(ks);
      var rest := SortedKeys(ks - {k});
      PrependLeast(k, ks, rest);
      [k] + rest
  }

  /** Putting the least key in front of a sorted listing of the others lists the whole set, sorted. */
  lemma PrependLeast(k: string, ks: set<string>, rest: seq<string>)
    requires IsLeast(k, ks)
    requires |rest| == |ks - {k}| && StrictlySorted(rest)
    requires forall i :: 0 <= i < |rest| ==> rest[i] in ks - {k}
    requires forall j :: j in ks - {k} ==> j in rest
    ensures var r := [k] + rest;
      && |r| == |ks| && StrictlySorted(r)
      && (forall i :: 0 <= i < |r| ==> r[i] in ks)
      && (forall j :: j in ks ==> j in r)
  {
    var r := [k] + rest;
    forall i, j | 0 <= i < j < |r| ensures Le(r[i], r[j]) && r[i] != r[j] {
      if i > 0 { assert r[i] == rest[i - 1] && r[j] == rest[j - 1]; }
      else { assert r[j] == rest[j - 1]; }
    }
  }

  /** A strictly sorted listing of a set is unique: it is the one `SortedKeys` gives. */
  lemma {:induction false} SortedKeysUnique(ks: set<string>, r: seq<string>)
    requires StrictlySorted(r)
    requires forall i :: 0 <= i < |r| ==> r[i] in ks
    requires forall k :: k in ks ==> k in r
    ensures SortedKeys(ks) == r
    decreases |r|
  {
    if r == [] {
      assert ks == {};
    } else {
      assert r[0] in ks;
      forall j | j in ks ensures Le(r[0], j) {
        var i :| 0 <= i < |r| && r[i] == j;
        if i == 0 { LeReflexive(j); }
      }
      LeAntisymmetricAll();
      assert Least(ks) == r[0];
      var rest := ks - {r[0]};
      forall k | k in rest ensures k in r[1..] {
        var i :| 0 <= i < |r| && r[i] == k;
        assert i != 0;
        assert r[1..][i - 1] == k;
      }
      forall i | 0 <= i < |r[1..]| ensures r[1..][i] in rest {
        assert r[1..][i] == r[i + 1];
        assert r[0] != r[i + 1];
      }
      SortedKeysUnique(rest, r[1..]);
    }
  }
}
