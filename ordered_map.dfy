/**
 * The lockup store's ordered view: a map keyed by account id, iterated in ascending key
 * order, and the skip/take paging applied to that iteration.
 */
module OrderedMap {
  import opened AccountIds

  predicate IsLeast(k: AccountId, keys: set<AccountId>)
  {
    k in keys && forall y :: y in keys && y != k ==> Below(k, y)
  }

  lemma {:induction false} LeastExists(keys: set<AccountId>)
    requires keys != {}
    ensures exists k :: IsLeast(k, keys)
    decreases keys
  {
    var x :| x in keys;
    var rest := keys - {x};
    if rest == {} {
      assert keys == {x};
      assert IsLeast(x, keys);
    } else {
      LeastExists(rest);
      var m :| IsLeast(m, rest);
      BelowTotal(x, m);
      if Below(x, m) {
        forall y | y in keys && y != x
          ensures Below(x, y)
        {
          if y != m {
            BelowTransitive(x, m, y);
          }
        }
        assert IsLeast(x, keys);
      } else {
        assert IsLeast(m, keys);
      }
    }
  }

  lemma LeastUnique(keys: set<AccountId>)
    ensures forall a, b :: IsLeast(a, keys) && IsLeast(b, keys) ==> a == b
  {
    forall a, b | IsLeast(a, keys) && IsLeast(b, keys)
      ensures a == b
    {
      BelowAsymmetric(a, b);
    }
  }

  /** The first key in iteration order. */
  function Least(keys: set<AccountId>): (k: AccountId)
    requires keys != {}
    ensures IsLeast(k, keys)
  {
    LeastExists(keys);
    LeastUnique(keys);
    var k :| IsLeast(k, keys);
    k
  }

  /** The keys of the map in the order the ordered map iterates them. */
  function SortedKeys(keys: set<AccountId>): (r: seq<AccountId>)
    ensures |r| == |keys|
    ensures forall k :: k in r <==> k in keys
    ensures StrictlySorted(r)
    decreases keys
  {
    if keys == {} then []
    else
      var k := Least(keys);
      var rest := SortedKeys(keys - {k});
      assert forall j :: 0 <= j < |rest| ==> Below(k, rest[j]);
      [k] + rest
  }

  /**
   * There is only one ascending enumeration of a key set, so SortedKeys is the iteration
   * order whatever way it is computed.
   */
  lemma {:induction false} SortedUnique(a: seq<AccountId>, b: seq<AccountId>)
    requires StrictlySorted(a) && StrictlySorted(b)
    requires forall k :: k in a <==> k in b
    ensures a == b
    decreases |a|
  {
    assert b != [] ==> b[0] in a;
    assert a != [] ==> a[0] in b;
    if a == [] || b == [] {
    } else {
      if a[0] != b[0] {
        assert a[0] in b;
        assert b[0] in a;
        var i :| 0 <= i < |a| && a[i] == b[0];
        var j :| 0 <= j < |b| && b[j] == a[0];
        BelowAsymmetric(a[0], b[0]);
        assert false;
      }
      forall k
        ensures k in a[1..] <==> k in b[1..]
      {
        if k in a[1..] {
          var i :| 1 <= i < |a| && a[i] == k;
          BelowIrreflexive(a[0]);
          assert k in b;
          assert k != b[0];
        }
        if k in b[1..] {
          var j :| 1 <= j < |b| && b[j] == k;
          BelowIrreflexive(b[0]);
          assert k in a;
          assert k != a[0];
        }
      }
      SortedUnique(a[1..], b[1..]);
      assert a == [a[0]] + a[1..];
      assert b == [b[0]] + b[1..];
    }
  }

  /** The (key, value) pairs of `m` in ascending key order, as the map's iterator yields them. */
  function Entries<V>(m: map<AccountId, V>): (r: seq<(AccountId, V)>)
    ensures |r| == |m|
    ensures forall i :: 0 <= i < |r| ==> r[i].0 in m && r[i].1 == m[r[i].0]
    ensures forall i, j :: 0 <= i < j < |r| ==> Below(r[i].0, r[j].0)
    ensures forall k :: k in m ==> exists i :: 0 <= i < |r| && r[i].0 == k
  {
    var keys := SortedKeys(m.Keys);
    var r := seq(|keys|, i requires 0 <= i < |keys| => (keys[i], m[keys[i]]));
    assert forall i :: 0 <= i < |r| ==> r[i].0 == keys[i];
    r
  }

  /**
   * `iter().skip(skip).take(take)`: drop the first `skip` elements, then keep at most `take`.
   */
  function Page<T>(xs: seq<T>, skip: nat, take: nat): (r: seq<T>)
    ensures |r| == if skip >= |xs| then 0 else if take < |xs| - skip then take else |xs| - skip
    ensures forall i :: 0 <= i < |r| ==> r[i] == xs[skip + i]
  {
    if skip >= |xs| then []
    else if take < |xs| - skip then xs[skip..skip + take]
    else xs[skip..]
  }

  /**
   * Consecutive pages fit together: reading `n` entries and then `t` more from where the first
   * page stopped gives the same entries as one page of `n + t`.
   */
  lemma PagesConcatenate<T>(xs: seq<T>, skip: nat, n: nat, t: nat)
    ensures Page(xs, skip, n) + Page(xs, skip + n, t) == Page(xs, skip, n + t)
  {
  }

  /** Paging from the start with no limit gives back the whole sequence. */
  lemma PageAll<T>(xs: seq<T>)
    ensures Page(xs, 0, |xs|) == xs
  {
  }
}
