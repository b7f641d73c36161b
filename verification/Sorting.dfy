/** `sorted` of a set of strings. */
module Sorting {
  import opened Text

  predicate IsLeast(k: string, keys: set<string>) {
    k in keys && forall x :: x in keys ==> x == k || Below(k, x)
  }

  lemma {:induction false} LeastExists(keys: set<string>)
    requires keys != {}
    ensures exists k :: IsLeast(k, keys)
  {
    var x :| x in keys;
    if keys == {x} {
      assert IsLeast(x, keys);
    } else {
      LeastExists(keys - {x});
      var y :| IsLeast(y, keys - {x});
      BelowTotal(x, y);
      if Below(x, y) {
        forall z | z in keys && z != x ensures Below(x, z) {
          if z != y { BelowTransitive(x, y, z); }
        }
        assert IsLeast(x, keys);
      } else {
        assert IsLeast(y, keys);
      }
    }
  }

  lemma LeastUnique(a: string, b: string, keys: set<string>)
    requires IsLeast(a, keys) && IsLeast(b, keys)
    ensures a == b
  {
    if a != b {
      BelowTransitive(a, b, a);
      BelowIrreflexive(a);
    }
  }

  function SortedKeys(keys: set<string>): (sorted: seq<string>)
    ensures forall k :: k in sorted <==> k in keys
    ensures forall i, j :: 0 <= i < j < |sorted| ==> Below(sorted[i], sorted[j])
    ensures |sorted| == |keys|
  {
    if keys == {} then []
    else
      LeastExists(keys);
      assert forall a, b :: IsLeast(a, keys) && IsLeast(b, keys) ==> a == b by {
        forall a, b | IsLeast(a, keys) && IsLeast(b, keys) ensures a == b { LeastUnique(a, b, keys); }
      }
      var least :| least in keys && IsLeast(least, keys);
      [least] + SortedKeys(keys - {least})
  }
}
