/** The order `sort.Strings` puts identity keys in, and the sorted, duplicate-free
    key list an incremental push locks (pkg/worker/fanout.go, identityKeys). */
module KeyOrder {
  import opened Instances

  /** Lexicographic order on code points. */
  predicate Less(a: Key, b: Key) {
    b != [] && (a == [] || a[0] < b[0] || (a[0] == b[0] && Less(a[1..], b[1..])))
  }

  lemma {:induction false} LessIrreflexive(a: Key)
    ensures !Less(a, a)
  {
    if a != [] {
      LessIrreflexive(a[1..]);
    }
  }

  lemma {:induction false} LessTransitive(a: Key, b: Key, c: Key)
    requires Less(a, b) && Less(b, c)
    ensures Less(a, c)
  {
    if a != [] && a[0] == b[0] && b[0] == c[0] {
      LessTransitive(a[1..], b[1..], c[1..]);
    }
  }

  lemma {:induction false} LessTotal(a: Key, b: Key)
    ensures Less(a, b) || a == b || Less(b, a)
  {
    if a != [] && b != [] && a[0] == b[0] {
      LessTotal(a[1..], b[1..]);
      assert a == [a[0]] + a[1..] && b == [b[0]] + b[1..];
    }
  }

  predicate Sorted(keys: seq<Key>) {
    forall i, j :: 0 <= i < j < |keys| ==> Less(keys[i], keys[j])
  }

  lemma SortedIsDistinct(keys: seq<Key>, i: nat, j: nat)
    requires Sorted(keys) && i < |keys| && j < |keys| && keys[i] == keys[j]
    ensures i == j
  {
    LessIrreflexive(keys[i]);
  }

  function SetOf(keys: seq<Key>): set<Key> {
    set k | k in keys
  }

  lemma SplicedSorted(keys: seq<Key>, i: nat, key: Key)
    requires Sorted(keys) && i <= |keys|
    requires forall j :: 0 <= j < i ==> Less(keys[j], key)
    requires forall j :: i <= j < |keys| ==> Less(key, keys[j])
    ensures Sorted(keys[..i] + [key] + keys[i..])
    ensures SetOf(keys[..i] + [key] + keys[i..]) == SetOf(keys) + {key}
  {
    var r := keys[..i] + [key] + keys[i..];
    forall a, b | 0 <= a < b < |r|
      ensures Less(r[a], r[b])
    {
      assert r[a] == if a < i then keys[a] else if a == i then key else keys[a - 1];
      assert r[b] == if b < i then keys[b] else if b == i then key else keys[b - 1];
    }
    assert keys == keys[..i] + keys[i..];
  }

  /** From position i on, a sorted list stays above a key that position i is above. */
  lemma AboveFrom(keys: seq<Key>, i: nat, key: Key)
    requires Sorted(keys) && i <= |keys| && key !in keys
    requires i < |keys| ==> !Less(keys[i], key)
    ensures forall j :: i <= j < |keys| ==> Less(key, keys[j])
  {
    forall j | i <= j < |keys|
      ensures Less(key, keys[j])
    {
      LessTotal(key, keys[i]);
      if i < j {
        LessTransitive(key, keys[i], keys[j]);
      }
    }
  }

  lemma {:induction false} Position(keys: seq<Key>, key: Key) returns (i: nat)
    ensures i <= |keys| && (i < |keys| ==> !Less(keys[i], key)) && forall j :: 0 <= j < i ==> Less(keys[j], key)
    decreases |keys|
  {
    if keys != [] && Less(keys[0], key) {
      i := Position(keys[1..], key);
      i := i + 1;
      assert forall j :: 1 <= j < |keys| ==> keys[j] == keys[1..][j - 1];
    } else {
      i := 0;
    }
  }

  lemma {:induction false} SortedExists(keys: set<Key>)
    ensures exists s :: Sorted(s) && SetOf(s) == keys
    decreases keys
  {
    if keys == {} {
      assert Sorted([]) && SetOf([]) == keys;
    } else {
      var key :| key in keys;
      SortedExists(keys - {key});
      var s :| Sorted(s) && SetOf(s) == keys - {key};
      assert key !in SetOf(s);
      var i := Position(s, key);
      AboveFrom(s, i, key);
      SplicedSorted(s, i, key);
    }
  }

  lemma SameLast(a: seq<Key>, b: seq<Key>)
    requires Sorted(a) && Sorted(b) && SetOf(a) == SetOf(b) && a != [] && b != []
    ensures a[|a| - 1] == b[|b| - 1]
  {
    var m, n := |a| - 1, |b| - 1;
    assert a[m] in SetOf(b) && b[n] in SetOf(a);
    var j :| 0 <= j < |b| && b[j] == a[m];
    var i :| 0 <= i < |a| && a[i] == b[n];
    if j < n && i < m {
      LessTransitive(a[m], b[n], a[m]);
      LessIrreflexive(a[m]);
    }
  }

  lemma WithoutLast(a: seq<Key>)
    requires Sorted(a) && a != []
    ensures Sorted(a[..|a| - 1]) && SetOf(a[..|a| - 1]) == SetOf(a) - {a[|a| - 1]}
  {
    var n := |a| - 1;
    assert a == a[..n] + [a[n]];
    forall i | 0 <= i < n
      ensures a[i] != a[n]
    {
      LessIrreflexive(a[n]);
    }
  }

  lemma Rejoin<T>(a: seq<T>, b: seq<T>)
    requires a != [] && b != [] && a[|a| - 1] == b[|b| - 1] && a[..|a| - 1] == b[..|b| - 1]
    ensures a == b
  {
    assert a == a[..|a| - 1] + [a[|a| - 1]] && b == b[..|b| - 1] + [b[|b| - 1]];
  }

  lemma EmptyTogether(a: seq<Key>, b: seq<Key>)
    requires SetOf(a) == SetOf(b)
    ensures a == [] <==> b == []
  {
    assert a != [] ==> a[0] in SetOf(a);
    assert b != [] ==> b[0] in SetOf(b);
  }

  /** A set of keys has one sorted list only. */
  lemma {:induction false} SortedIsUnique(a: seq<Key>, b: seq<Key>)
    requires Sorted(a) && Sorted(b) && SetOf(a) == SetOf(b)
    ensures a == b
    decreases |a|
  {
    EmptyTogether(a, b);
    if a != [] {
      SameLast(a, b);
      WithoutLast(a);
      WithoutLast(b);
      SortedIsUnique(a[..|a| - 1], b[..|b| - 1]);
      Rejoin(a, b);
    }
  }

  /** The keys of a set in ascending order. */
  ghost function Ascending(keys: set<Key>): (s: seq<Key>)
    ensures Sorted(s) && SetOf(s) == keys
  {
    SortedExists(keys);
    var s :| Sorted(s) && SetOf(s) == keys;
    s
  }

  /** Inserts a key that is not there yet. */
  method Insert(keys: seq<Key>, key: Key) returns (r: seq<Key>)
    requires Sorted(keys) && key !in keys
    ensures Sorted(r) && SetOf(r) == SetOf(keys) + {key}
  {
    var i := 0;
    while i < |keys| && Less(keys[i], key)
      invariant 0 <= i <= |keys|
      invariant forall j :: 0 <= j < i ==> Less(keys[j], key)
    {
      i := i + 1;
    }
    AboveFrom(keys, i, key);
    SplicedSorted(keys, i, key);
    r := keys[..i] + [key] + keys[i..];
  }

  /** The identities of a batch: each once, sorted. */
  method IdentityKeys(items: Items) returns (keys: seq<Key>)
    ensures Sorted(keys) && SetOf(keys) == KeysOf(Present(items))
  {
    keys := [];
    for i := 0 to |items|
      invariant Sorted(keys) && SetOf(keys) == KeysOf(Present(items[..i]))
    {
      assert items[..i + 1][..i] == items[..i];
      if items[i].Some? {
        var key := IdentityKey(items[i].value);
        assert KeysOf(Present(items[..i + 1])) == KeysOf(Present(items[..i])) + {key};
        if key !in keys {
          keys := Insert(keys, key);
        }
      }
    }
    assert items[..|items|] == items;
  }
}
