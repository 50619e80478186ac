/**
 * Iteration over the key set of a Java HashMap: every key once, in an order
 * the map does not promise. The model lets that order be any permutation.
 */
module HashOrder {

  /** `order` lists every key of `keys` exactly once. */
  ghost predicate IsKeyOrder(order: seq<string>, keys: set<string>)
  {
    multiset(order) == multiset(keys)
  }

  /** Some iteration order of `keys`; which one is left open. */
  method KeyOrder(keys: set<string>) returns (order: seq<string>)
    ensures IsKeyOrder(order, keys)
  {
    var left := keys;
    order := [];
    while left != {}
      invariant left <= keys
      invariant multiset(order) + multiset(left) == multiset(keys)
      decreases left
    {
      var k :| k in left;
      assert multiset(left) == multiset(left - {k}) + multiset{k};
      order := order + [k];
      left := left - {k};
    }
  }

  /** A key order holds exactly the keys. */
  lemma KeyOrderMembers(order: seq<string>, keys: set<string>)
    requires IsKeyOrder(order, keys)
    ensures forall k :: k in order <==> k in keys
  {
    forall k ensures k in order <==> k in keys {
      assert k in order <==> k in multiset(order);
    }
  }

  /** A key order lists no key twice. */
  lemma {:induction false} KeyOrderDistinct(order: seq<string>, keys: set<string>)
    requires IsKeyOrder(order, keys)
    ensures forall i, j :: 0 <= i < j < |order| ==> order[i] != order[j]
  {
    forall i, j | 0 <= i < j < |order| ensures order[i] != order[j] {
      if order[i] == order[j] {
        TwiceCounted(order, i, j);
        assert false;
      }
    }
  }

  /** Two positions holding one key count it at least twice. */
  lemma {:induction false} TwiceCounted(s: seq<string>, i: nat, j: nat)
    requires i < j < |s| && s[i] == s[j]
    ensures multiset(s)[s[i]] >= 2
  {
    assert s == s[..i] + [s[i]] + s[i + 1..j] + [s[j]] + s[j + 1..];
  }
}
