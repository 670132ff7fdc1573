/**
 * The order in which `json.dumps(..., sort_keys=True)` writes dict keys:
 * Python's `<=` on str, code point by code point, a prefix first.
 */
module KeyOrder {

  predicate Below(a: string, b: string)
  {
    if a == [] then true
    else if b == [] then false
    else if a[0] != b[0] then a[0] < b[0]
    else Below(a[1..], b[1..])
  }

  lemma {:induction false} BelowTotal(a: string, b: string)
    ensures Below(a, b) || Below(b, a)
    decreases |a|
  {
    if a != [] && b != [] && a[0] == b[0] {
      BelowTotal(a[1..], b[1..]);
    }
  }

  lemma {:induction false} BelowAntisymmetric(a: string, b: string)
    requires Below(a, b) && Below(b, a)
    ensures a == b
    decreases |a|
  {
    if a != [] {
      BelowAntisymmetric(a[1..], b[1..]);
      assert a == [a[0]] + a[1..] && b == [b[0]] + b[1..];
    }
  }

  lemma {:induction false} BelowTransitive(a: string, b: string, c: string)
    requires Below(a, b) && Below(b, c)
    ensures Below(a, c)
    decreases |a|
  {
    if a != [] && b != [] && c != [] && a[0] == b[0] && b[0] == c[0] {
      BelowTransitive(a[1..], b[1..], c[1..]);
    }
  }

  predicate IsLeast(k: string, ks: set<string>)
  {
    k in ks && forall j :: j in ks ==> Below(k, j)
  }

  lemma {:induction false} LeastExists(ks: set<string>)
    requires ks != {}
    ensures exists k :: IsLeast(k, ks)
    decreases ks
  {
    var x :| x in ks;
    var others := ks - {x};
    if others == {} {
      assert ks == {x};
      BelowTotal(x, x);
      assert IsLeast(x, ks);
    } else {
      LeastExists(others);
      var m :| IsLeast(m, others);
      BelowTotal(x, m);
      if Below(x, m) {
        forall j | j in ks ensures Below(x, j) {
          if j != x { BelowTransitive(x, m, j); } else { BelowTotal(x, x); }
        }
        assert IsLeast(x, ks);
      } else {
        assert IsLeast(m, ks);
      }
    }
  }

  lemma {:induction false} LeastUnique(ks: set<string>)
    ensures forall a, b :: IsLeast(a, ks) && IsLeast(b, ks) ==> a == b
  {
    forall a, b | IsLeast(a, ks) && IsLeast(b, ks) ensures a == b {
      BelowAntisymmetric(a, b);
    }
  }

  /** The smallest key of a non-empty set. */
  function Least(ks: set<string>): (k: string)
    requires ks != {}
    ensures IsLeast(k, ks)
  {
    LeastExists(ks);
    LeastUnique(ks);
    var k :| IsLeast(k, ks); k
  }

  predicate StrictlySorted(keys: seq<string>)
  {
    forall i, j :: 0 <= i < j < |keys| ==> Below(keys[i], keys[j]) && keys[i] != keys[j]
  }

  /** The keys of a set in ascending order. */
  function SortedKeys(ks: set<string>): (keys: seq<string>)
    ensures forall k :: k in keys <==> k in ks
    ensures |keys| == |ks|
    decreases ks
  {
    if ks == {} then []
    else
      var k := Least(ks);
      [k] + SortedKeys(ks - {k})
  }

  /** Each key comes once, and before every larger one. */
  lemma {:induction false} SortedKeysSorted(ks: set<string>)
    ensures StrictlySorted(SortedKeys(ks))
    decreases ks
  {
    if ks != {} {
      var k := Least(ks);
      var rest := SortedKeys(ks - {k});
      SortedKeysSorted(ks - {k});
      var keys := SortedKeys(ks);
      assert keys == [k] + rest;
      forall i, j | 0 <= i < j < |keys| ensures Below(keys[i], keys[j]) && keys[i] != keys[j] {
        if i == 0 {
          assert keys[j] == rest[j - 1] && rest[j - 1] in ks - {k};
        } else {
          assert keys[i] == rest[i - 1] && keys[j] == rest[j - 1];
        }
      }
    }
  }
}
