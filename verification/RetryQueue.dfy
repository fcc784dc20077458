/** The per-sink retry queue of pkg/worker/unsynced_service.go. A cycle takes a
    value snapshot, pushes outside the lock, then deletes by comparison, while
    Add and AddFullWithMeta run in between. */
module RetryQueue {
  import opened Instances
  import opened Errors

  datatype Operation = Push | PushAll

  datatype RetryKey = RetryKey(instanceId: string, sink: string, operation: Operation, scope: string)

  /** A reference to an instance: two handles are the same object iff their addresses agree. */
  datatype Handle = Handle(address: nat, instance: Instance)

  datatype Pending =
    | Single(trigger: int, item: Handle)
    | Whole(trigger: int, batch: Items, scope: string, batchID: string, sequence: nat,
            revalidates: bool, emptyConfirmed: bool)

  type Store = map<RetryKey, Pending>

  function PushKey(item: Handle, sink: string): RetryKey {
    RetryKey(IdentityKey(item.instance), sink, Push, "")
  }

  function FullKey(sink: string, scope: string): RetryKey {
    RetryKey("__full__", sink, PushAll, scope)
  }

  /** Incremental keys hold single pushes of that identity, full keys hold snapshots of that scope. */
  predicate StoreOk(store: Store) {
    forall k :: k in store ==>
      if k.operation.Push? then
        store[k].Single? && k.instanceId == IdentityKey(store[k].item.instance) && k.scope == ""
      else store[k].Whole? && k.instanceId == "__full__" && k.scope == store[k].scope
  }

  /** What orders successive entries of one key. */
  function Rank(p: Pending): int {
    if p.Single? then p.item.instance.reversion else p.sequence
  }

  // ---------------------------------------------------------------- adding

  function AddOne(store: Store, trigger: int, item: Handle, sink: string): Store
    requires StoreOk(store)
  {
    var key := PushKey(item, sink);
    if key !in store then store[key := Single(trigger, item)]
    else if item.instance.reversion > store[key].item.instance.reversion then store[key := store[key].(item := item)]
    else store
  }

  /** Every item for every target, items first. */
  function Pairs(items: seq<Option<Handle>>, targets: seq<string>): seq<(Handle, string)> {
    if items == [] then []
    else
      var last := items[|items| - 1];
      Pairs(items[..|items| - 1], targets) + (if last.Some? then PairsOf(last.value, targets) else [])
  }

  function PairsOf(item: Handle, targets: seq<string>): seq<(Handle, string)> {
    seq(|targets|, j requires 0 <= j < |targets| => (item, targets[j]))
  }

  function AddPairs(store: Store, trigger: int, pairs: seq<(Handle, string)>): (r: Store)
    requires StoreOk(store)
    ensures StoreOk(r)
  {
    if pairs == [] then store
    else
      var last := pairs[|pairs| - 1];
      AddOne(AddPairs(store, trigger, pairs[..|pairs| - 1]), trigger, last.0, last.1)
  }

  function AddWhole(store: Store, sink: string, whole: Pending): Store
    requires StoreOk(store) && whole.Whole?
  {
    var key := FullKey(sink, whole.scope);
    if key in store && store[key].sequence > whole.sequence then store else store[key := whole]
  }

  /** The sequence a full operation is ordered by: the trigger stands in for a missing one. */
  function SequenceOf(sequence: nat, trigger: int): nat {
    if sequence == 0 && trigger > 0 then trigger else sequence
  }

  // ---------------------------------------------------------------- deciding and deleting

  /** One item as a batch identity sees it: its identity key, and its serialised form, which leaves out
      the source key and the source cluster. */
  function Serialised(ins: Instance): (Key, Instance) {
    (IdentityKey(ins), ins.(sourceKey := "", sourceCluster := ""))
  }

  function AllSerialised(items: seq<Instance>): seq<(Key, Instance)> {
    seq(|items|, i requires 0 <= i < |items| => Serialised(items[i]))
  }

  /** What a batch identity is computed from: the scope and the serialised items, in any order. */
  function Digest(scope: string, batch: Items): (string, multiset<(Key, Instance)>) {
    (scope, multiset(AllSerialised(Present(batch))))
  }

  predicate SamePending(current: Pending, attempted: Pending) {
    if current.Whole? && attempted.Whole? then
      && current.scope == attempted.scope && current.batchID == attempted.batchID
      && current.sequence == attempted.sequence
      && Digest(current.scope, current.batch) == Digest(attempted.scope, attempted.batch)
    else current.Single? && attempted.Single? && current.item.address == attempted.item.address
  }

  /** Two instances of one identity that agree in everything but their source key and source cluster. */
  predicate Alike(x: Instance, y: Instance) {
    IdentityKey(x) == IdentityKey(y) && x.(sourceKey := y.sourceKey, sourceCluster := y.sourceCluster) == y
  }

  ghost predicate IsPermutation(pi: seq<nat>, n: nat) {
    && |pi| == n
    && (forall i :: 0 <= i < n ==> pi[i] < n)
    && (forall i, j :: 0 <= i < j < n ==> pi[i] != pi[j])
  }

  /** The second list holds the first one, rearranged. */
  ghost predicate Rearranges<T>(pi: seq<nat>, a: seq<T>, b: seq<T>) {
    IsPermutation(pi, |a|) && |b| == |a| && forall i :: 0 <= i < |a| ==> a[i] == b[pi[i]]
  }

  function Without<T>(b: seq<T>, m: nat): seq<T>
    requires m < |b|
  {
    b[..m] + b[m + 1..]
  }

  lemma WithoutBag<T>(b: seq<T>, m: nat)
    requires m < |b|
    ensures multiset(b) == multiset(Without(b, m)) + multiset{b[m]}
  {
    assert b == b[..m] + [b[m]] + b[m + 1..];
  }

  lemma {:induction false} BagRearranges<T>(a: seq<T>, b: seq<T>) returns (pi: seq<nat>)
    requires multiset(a) == multiset(b)
    ensures Rearranges(pi, a, b)
    decreases |a|
  {
    assert |a| == |multiset(a)| && |b| == |multiset(b)|;
    if a == [] {
      pi := [];
    } else {
      var n := |a| - 1;
      assert a == a[..n] + [a[n]];
      assert a[n] in multiset(b);
      var m :| 0 <= m < |b| && b[m] == a[n];
      WithoutBag(b, m);
      assert multiset(a) == multiset(a[..n]) + multiset{a[n]};
      assert multiset(a[..n]) == multiset(a) - multiset{a[n]};
      assert multiset(Without(b, m)) == multiset(b) - multiset{b[m]};
      var rest := BagRearranges(a[..n], Without(b, m));
      pi := Inserted(rest, m);
      InsertedRearranges(rest, a, b, m);
    }
  }

  /** The positions of a list without position `m`, as positions of the whole list, and `m` itself last. */
  function Inserted(rest: seq<nat>, m: nat): seq<nat> {
    seq(|rest|, i requires 0 <= i < |rest| => if rest[i] < m then rest[i] else rest[i] + 1) + [m]
  }

  lemma InsertedRearranges<T>(rest: seq<nat>, a: seq<T>, b: seq<T>, m: nat)
    requires a != [] && |a| == |b| && m < |b| && a[|a| - 1] == b[m]
    requires Rearranges(rest, a[..|a| - 1], Without(b, m))
    ensures Rearranges(Inserted(rest, m), a, b)
  {
    var pi, n := Inserted(rest, m), |a| - 1;
    forall i | 0 <= i < n
      ensures pi[i] < |a| && pi[i] != m && a[i] == b[pi[i]]
    {
      assert a[i] == a[..n][i] == Without(b, m)[rest[i]];
    }
  }

  lemma {:induction false} RearrangedBag<T>(pi: seq<nat>, a: seq<T>, b: seq<T>)
    requires Rearranges(pi, a, b)
    ensures multiset(a) == multiset(b)
    decreases |a|
  {
    if a != [] {
      var n := |a| - 1;
      var m := pi[n];
      var rest := seq(n, i requires 0 <= i < n => if pi[i] < m then pi[i] else pi[i] - 1);
      forall i | 0 <= i < n
        ensures rest[i] < n && a[..n][i] == Without(b, m)[rest[i]]
      {
        assert pi[i] != m;
      }
      assert IsPermutation(rest, n);
      RearrangedBag(rest, a[..n], Without(b, m));
      WithoutBag(b, m);
      assert a == a[..n] + [a[n]];
    }
  }

  lemma SerialisedIsAlike(x: Instance, y: Instance)
    ensures Serialised(x) == Serialised(y) <==> Alike(x, y)
  {
    if Serialised(x) == Serialised(y) {
      var u, v := Serialised(x).1, Serialised(y).1;
      assert x == u.(sourceKey := x.sourceKey, sourceCluster := x.sourceCluster);
      assert y == v.(sourceKey := y.sourceKey, sourceCluster := y.sourceCluster);
    }
  }

  /** The batches hold alike instances, one to one, in whatever order. */
  ghost predicate SameBatch(a: seq<Instance>, b: seq<Instance>) {
    exists pi :: IsPermutation(pi, |a|) && |b| == |a| && forall i :: 0 <= i < |a| ==> Alike(a[i], b[pi[i]])
  }

  lemma SameBagIsBatch(a: seq<Instance>, b: seq<Instance>)
    requires multiset(AllSerialised(a)) == multiset(AllSerialised(b))
    ensures SameBatch(a, b)
  {
    var pi := BagRearranges(AllSerialised(a), AllSerialised(b));
    forall i | 0 <= i < |a|
      ensures Alike(a[i], b[pi[i]])
    {
      assert AllSerialised(a)[i] == AllSerialised(b)[pi[i]];
      SerialisedIsAlike(a[i], b[pi[i]]);
    }
  }

  lemma BatchIsSameBag(a: seq<Instance>, b: seq<Instance>)
    requires SameBatch(a, b)
    ensures multiset(AllSerialised(a)) == multiset(AllSerialised(b))
  {
    var pi :| IsPermutation(pi, |a|) && |b| == |a| && forall i :: 0 <= i < |a| ==> Alike(a[i], b[pi[i]]);
    forall i | 0 <= i < |a|
      ensures AllSerialised(a)[i] == AllSerialised(b)[pi[i]]
    {
      SerialisedIsAlike(a[i], b[pi[i]]);
    }
    RearrangedBag(pi, AllSerialised(a), AllSerialised(b));
  }

  lemma DigestIsBatch(scope: string, p: Items, q: Items)
    ensures Digest(scope, p) == Digest(scope, q) <==> SameBatch(Present(p), Present(q))
  {
    if Digest(scope, p) == Digest(scope, q) {
      SameBagIsBatch(Present(p), Present(q));
    }
    if SameBatch(Present(p), Present(q)) {
      BatchIsSameBag(Present(p), Present(q));
    }
  }

  /** What the comparison before a delete takes for the same: the very same instance object, or full
      operations of one scope, batch id and sequence whose batches hold alike instances. */
  lemma SameMeans(current: Pending, attempted: Pending)
    ensures SamePending(current, attempted) <==>
      || (current.Single? && attempted.Single? && current.item.address == attempted.item.address)
      || (&& current.Whole? && attempted.Whole? && current.scope == attempted.scope
          && current.batchID == attempted.batchID && current.sequence == attempted.sequence
          && SameBatch(Present(current.batch), Present(attempted.batch)))
  {
    if current.Whole? && attempted.Whole? {
      DigestIsBatch(current.scope, current.batch, attempted.batch);
    }
  }

  /** Snapshots of one sequence that differ only in a source cluster are taken for the same. */
  lemma SourceClusterIsNotCompared(x: Instance, cluster: string, p: Pending)
    requires p.Whole? && p.batch == [Some(x)]
    ensures SamePending(p.(batch := [Some(x.(sourceCluster := cluster))]), p)
  {
    var y := x.(sourceCluster := cluster);
    assert [Some(x)][..0] == [] && [Some(y)][..0] == [];
    assert Present([Some(x)]) == [x] && Present([Some(y)]) == [y];
    assert AllSerialised([x]) == AllSerialised([y]);
  }

  /** Whether an attempt is over: it succeeded, found its snapshot stale, or can never succeed. */
  predicate Concludes(p: Pending, err: Option<Err>) {
    || err.None?
    || (p.Whole? && IsStale(err.value))
    || IsPermanent(err.value)
  }

  function Removed(store: Store, key: RetryKey, attempted: Pending): Store {
    if key in store && SamePending(store[key], attempted) then store - {key} else store
  }

  // ---------------------------------------------------------------- the queue object

  /** The key of the full operation of a scope, for one of the targets. */
  predicate Named(k: RetryKey, targets: seq<string>, scope: string) {
    k.operation.PushAll? && k.instanceId == "__full__" && k.sink in targets && k.scope == scope
  }

  /** One entry per target: the new snapshot, unless a later one of the same scope is queued already.
      Everything else stays. */
  ghost predicate FullAdded(before: Store, after: Store, targets: seq<string>, whole: Pending)
    requires whole.Whole? && StoreOk(before)
  {
    && (forall k :: k in after <==> k in before || Named(k, targets, whole.scope))
    && (forall k :: k in after ==>
          after[k] == if Named(k, targets, whole.scope) && !(k in before && before[k].sequence > whole.sequence)
                      then whole else before[k])
  }

  class UnsyncedService {
    var store: Store
    const sinkNames: seq<string>

    constructor (sinkNames: seq<string>)
      ensures store == map[] && this.sinkNames == sinkNames
    {
      store := map[];
      this.sinkNames := sinkNames;
    }

    ghost predicate Valid()
      reads this
    {
      StoreOk(store)
    }

    /** Queues each item for each target; an empty target list means every known sink. */
    method Add(trigger: int, items: seq<Option<Handle>>, sinks: seq<string>)
      requires Valid()
      modifies `store
      ensures Valid()
      ensures store == AddPairs(old(store), trigger, Pairs(items, if sinks == [] then sinkNames else sinks))
    {
      var targets := if sinks == [] then sinkNames else sinks;
      for i := 0 to |items|
        invariant Valid() && store == AddPairs(old(store), trigger, Pairs(items[..i], targets))
      {
        assert items[..i + 1][..i] == items[..i];
        if items[i].None? {
          assert Pairs(items[..i + 1], targets) == Pairs(items[..i], targets);
        } else {
          AddToSinks(trigger, items[i].value, targets, old(store), Pairs(items[..i], targets));
        }
      }
      assert items[..|items|] == items;
    }

    method AddToSinks(trigger: int, item: Handle, targets: seq<string>, ghost before: Store,
                      ghost done: seq<(Handle, string)>)
      requires Valid() && StoreOk(before) && store == AddPairs(before, trigger, done)
      modifies `store
      ensures Valid()
      ensures store == AddPairs(before, trigger, done + PairsOf(item, targets))
    {
      ghost var pairs := PairsOf(item, targets);
      assert done + pairs[..0] == done;
      for j := 0 to |targets|
        invariant Valid() && store == AddPairs(before, trigger, done + pairs[..j])
      {
        OneMore(done, pairs, j);
        AddPairsLast(before, trigger, done + pairs[..j], pairs[j]);
        store := AddOne(store, trigger, item, targets[j]);
      }
      assert pairs[..|targets|] == pairs;
    }

    /** Queues a failed full operation per sink; a newer or equal sequence replaces the queued one. */
    method AddFullWithMeta(trigger: int, instances: Items, sinks: seq<string>, scope: string, batchID: string,
                           sequence: nat, revalidates: bool, emptyConfirmed: bool)
      requires Valid()
      modifies `store
      ensures Valid()
      ensures scope == "" || batchID == "" ==> store == old(store)
      ensures scope != "" && batchID != "" ==>
        var targets := if sinks == [] then sinkNames else sinks;
        var whole := Whole(trigger, instances, scope, batchID, SequenceOf(sequence, trigger), revalidates,
          emptyConfirmed);
        FullAdded(old(store), store, targets, whole)
    {
      if scope == "" || batchID == "" {
        return;
      }
      var targets := if sinks == [] then sinkNames else sinks;
      var ordered := sequence;
      if ordered == 0 {
        if trigger > 0 {
          ordered := trigger;
        }
      }
      var whole := Whole(trigger, instances, scope, batchID, ordered, revalidates, emptyConfirmed);
      for j := 0 to |targets|
        invariant Valid() && FullAdded(old(store), store, targets[..j], whole)
      {
        assert targets[..j + 1] == targets[..j] + [targets[j]];
        FullAddedMore(old(store), store, targets[..j], targets[j], whole);
        store := AddWhole(store, targets[j], whole);
      }
      assert targets[..|targets|] == targets;
    }

    /** Drops the snapshotted keys whose sink is not registered, unless re-added meanwhile. */
    method DropGhostSinkKeys(batch: Store)
      modifies `store
      ensures forall k :: k in store <==>
        k in old(store) && !(k in batch && k.sink !in sinkNames && SamePending(old(store)[k], batch[k]))
      ensures forall k :: k in store ==> store[k] == old(store)[k]
    {
      var rest := batch.Keys;
      while rest != {}
        invariant rest <= batch.Keys
        invariant forall k :: k in store <==>
          k in old(store) &&
          !(k in batch && k !in rest && k.sink !in sinkNames && SamePending(old(store)[k], batch[k]))
        invariant forall k :: k in store ==> store[k] == old(store)[k]
        decreases rest
      {
        var key :| key in rest;
        rest := rest - {key};
        if key.sink !in sinkNames {
          store := Removed(store, key, batch[key]);
        }
      }
    }

    /** Applies the outcome of one attempt. */
    method RetryKeyed(key: RetryKey, attempted: Pending, err: Option<Err>)
      modifies `store
      ensures key !in store <==>
        key !in old(store) || (Concludes(attempted, err) && SamePending(old(store)[key], attempted))
      ensures forall k :: k != key ==> (k in store <==> k in old(store))
      ensures forall k :: k in store ==> store[k] == old(store)[k]
    {
      if attempted.Whole? && err.Some? && IsStale(err.value) {
        store := Removed(store, key, attempted);
        return;
      }
      if err.Some? {
        if IsPermanent(err.value) {
          store := Removed(store, key, attempted);
        }
        return;
      }
      store := Removed(store, key, attempted);
    }
  }

  // ---------------------------------------------------------------- what adding means

  lemma OneMore<T>(a: seq<T>, b: seq<T>, j: nat)
    requires j < |b|
    ensures a + b[..j + 1] == (a + b[..j]) + [b[j]]
  {
  }

  lemma AddPairsLast(store: Store, trigger: int, pairs: seq<(Handle, string)>, last: (Handle, string))
    requires StoreOk(store)
    ensures AddPairs(store, trigger, pairs + [last]) == AddOne(AddPairs(store, trigger, pairs), trigger, last.0, last.1)
  {
    assert (pairs + [last])[..|pairs|] == pairs;
  }

  lemma FullAddedMore(before: Store, after: Store, targets: seq<string>, name: string, whole: Pending)
    requires whole.Whole? && StoreOk(before) && StoreOk(after) && FullAdded(before, after, targets, whole)
    ensures FullAdded(before, AddWhole(after, name, whole), targets + [name], whole)
  {
    var after' := AddWhole(after, name, whole);
    forall k
      ensures Named(k, targets + [name], whole.scope) <==>
        Named(k, targets, whole.scope) || k == FullKey(name, whole.scope)
    {
    }
  }

  /** The key of an incremental push: one per identity and sink. */
  predicate IsFor(k: RetryKey, p: (Handle, string)) {
    k.operation.Push? && k.instanceId == IdentityKey(p.0.instance) && k.sink == p.1 && k.scope == ""
  }

  /** The entry of `k` came from one of the pairs. */
  ghost predicate CameFrom(after: Store, k: RetryKey, pairs: seq<(Handle, string)>)
    requires k in after
  {
    exists p :: p in pairs && IsFor(k, p) && after[k].Single? && after[k].item == p.0
  }

  /** Adding never lowers an entry, every pair's entry is at least as new as the
      pair, and an entry is either untouched or one of the pairs. */
  lemma {:induction false} AddKeepsHighest(store: Store, trigger: int, pairs: seq<(Handle, string)>)
    requires StoreOk(store)
    ensures var after := AddPairs(store, trigger, pairs);
      && (forall k :: k in store ==>
        k in after && Rank(after[k]) >= Rank(store[k]) && after[k].trigger == store[k].trigger)
      && (forall p, k :: p in pairs && IsFor(k, p) ==> k in after && Rank(after[k]) >= p.0.instance.reversion)
      && (forall k :: k in after ==> (k in store && after[k] == store[k]) || CameFrom(after, k, pairs))
  {
    if pairs != [] {
      var prefix, last := pairs[..|pairs| - 1], pairs[|pairs| - 1];
      AddKeepsHighest(store, trigger, prefix);
      assert pairs == prefix + [last];
      AddOneEntry(store, AddPairs(store, trigger, prefix), trigger, prefix, last);
      AddOneRanks(AddPairs(store, trigger, prefix), trigger, last.0, last.1);
    }
  }

  lemma AddOneRanks(store: Store, trigger: int, item: Handle, sink: string)
    requires StoreOk(store)
    ensures var after := AddOne(store, trigger, item, sink);
      && (forall k :: k in store ==>
        k in after && Rank(after[k]) >= Rank(store[k]) && after[k].trigger == store[k].trigger)
      && (forall k :: IsFor(k, (item, sink)) ==> k in after && Rank(after[k]) >= item.instance.reversion)
  {
  }

  lemma AddOneEntry(store: Store, before: Store, trigger: int, prefix: seq<(Handle, string)>, last: (Handle, string))
    requires StoreOk(before)
    requires forall k :: k in before ==> (k in store && before[k] == store[k]) || CameFrom(before, k, prefix)
    ensures var after := AddOne(before, trigger, last.0, last.1);
      forall k :: k in after ==> (k in store && after[k] == store[k]) || CameFrom(after, k, prefix + [last])
  {
    var after := AddOne(before, trigger, last.0, last.1);
    forall k | k in after
      ensures (k in store && after[k] == store[k]) || CameFrom(after, k, prefix + [last])
    {
      if k in before && after[k] == before[k] {
        if CameFrom(before, k, prefix) {
          var p :| p in prefix && IsFor(k, p) && before[k].Single? && before[k].item == p.0;
          assert p in prefix + [last];
        }
      } else {
        assert last in prefix + [last];
      }
    }
  }
}
