/** The Consul provider's snapshot state (pkg/providers/consul/consul.go): a cache that only a
    healthy read replaces, never downgrades, and empties only after three confirmations. */
module Consul {
  import opened Instances
  import opened KeyOrder
  import opened Wire

  type Cache = map<Key, Instance>

  /** A catalog read: rejected (error, partial, malformed endpoint) or complete. */
  datatype Read = Rejected | Healthy(instances: seq<Instance>)

  datatype Source = Source(cache: Cache, confirmations: nat, pending: bool, generation: nat, stopped: bool)

  const REQUIRED := 3

  ghost predicate CacheOk(c: Cache) { forall k :: k in c ==> IdentityKey(c[k]) == k }

  // ---------------------------------------------------------------- cache lookups

  /** Only identifiers of the bare wire form fall back to a search by wire id. */
  predicate Plain(id: Key) { ':' !in id && '/' !in id }

  function Matches(c: Cache, id: Key): set<Key> { set k | k in c && c[k].instanceId == id }

  ghost function Get(c: Cache, id: Key): Option<Instance> {
    if id in c then Some(c[id])
    else if Plain(id) && |Matches(c, id)| == 1 then
      var k :| k in Matches(c, id);
      Some(c[k])
    else None
  }

  lemma OnlyMatch(s: set<Key>, k: Key)
    requires k in s && |s| == 1
    ensures s == {k}
  {
    assert |s - {k}| == 0;
  }

  method Search(c: Cache, id: Key) returns (candidate: Option<Key>, matches: nat)
    ensures matches == |Matches(c, id)|
    ensures matches > 0 ==> candidate.Some? && candidate.value in Matches(c, id)
  {
    candidate, matches := None, 0;
    var rest := c.Keys;
    ghost var hits: set<Key> := {};
    while rest != {}
      invariant rest <= c.Keys && hits <= c.Keys && hits !! rest
      invariant forall k :: k in c ==> (k in hits <==> k !in rest && c[k].instanceId == id)
      invariant matches == |hits|
      invariant matches > 0 ==> candidate.Some? && candidate.value in hits
      decreases rest
    {
      var k :| k in rest;
      rest := rest - {k};
      if c[k].instanceId == id {
        candidate, matches := Some(k), matches + 1;
        hits := hits + {k};
      }
    }
    assert hits == Matches(c, id);
  }

  method Fetch(c: Cache, id: Key) returns (found: Option<Instance>)
    ensures found == Get(c, id)
  {
    if id in c {
      return Some(c[id]);
    }
    if !Plain(id) {
      return None;
    }
    var candidate, matches := Search(c, id);
    if matches == 1 {
      OnlyMatch(Matches(c, id), candidate.value);
      return Some(c[candidate.value]);
    }
    return None;
  }

  /** The cache in ascending key order. */
  method Ascend(c: Cache) returns (keys: seq<Key>)
    ensures keys == Ascending(c.Keys)
  {
    keys := [];
    var rest := c.Keys;
    while rest != {}
      invariant Sorted(keys) && SetOf(keys) + rest == c.Keys && SetOf(keys) !! rest
      decreases rest
    {
      var k :| k in rest;
      assert k !in SetOf(keys);
      keys := Insert(keys, k);
      rest := rest - {k};
    }
    SortedIsUnique(keys, Ascending(c.Keys));
  }

  // ---------------------------------------------------------------- monotonic merge

  ghost function Kept(was: Cache, ins: Instance): Instance {
    var previous := Get(was, IdentityKey(ins));
    if previous.Some? && ins.reversion < previous.value.reversion then previous.value else ins
  }

  ghost function Merged(was: Cache, current: seq<Instance>): seq<Instance> {
    if current == [] then []
    else Merged(was, current[..|current| - 1]) + [Kept(was, current[|current| - 1])]
  }

  method MergeMonotonicInstances(was: Cache, current: seq<Instance>) returns (merged: seq<Instance>)
    ensures merged == Merged(was, current)
  {
    if |current| == 0 {
      return current;
    }
    merged := [];
    for i := 0 to |current|
      invariant merged == Merged(was, current[..i])
    {
      assert current[..i + 1][..i] == current[..i];
      var previous := Fetch(was, IdentityKey(current[i]));
      if previous.Some? && current[i].reversion < previous.value.reversion {
        merged := merged + [previous.value];
        continue;
      }
      merged := merged + [current[i]];
    }
    assert current[..|current|] == current;
  }

  function Loaded(items: seq<Instance>): Cache {
    if items == [] then map[]
    else
      var last := items[|items| - 1];
      Loaded(items[..|items| - 1])[IdentityKey(last) := last]
  }

  method Load(items: seq<Instance>) returns (c: Cache)
    ensures c == Loaded(items)
  {
    c := map[];
    for i := 0 to |items|
      invariant c == Loaded(items[..i])
    {
      assert items[..i + 1][..i] == items[..i];
      c := c[IdentityKey(items[i]) := items[i]];
    }
    assert items[..|items|] == items;
  }

  // ---------------------------------------------------------------- events

  predicate Accepted(ins: Instance) {
    && ins.appCode != "" && ins.envType != ""
    && !(ins.status == ONLINE && ins.ip == "")
    && ins.state != "pending" && ins.reversion != 0 && ins.status != UNKNOWN
  }

  /** The default filter, rule by rule. */
  function Verify(ins: Instance): bool {
    if ins.appCode == "" then false
    else if ins.envType == "" then false
    else if ins.status == ONLINE && ins.ip == "" then false
    else if ins.state == "pending" then false
    else if ins.reversion == 0 then false
    else ins.status != UNKNOWN
  }

  function Started(ins: Instance): Instance { ins.(status := ONLINE, enabled := true, state := "running") }

  function Terminated(ins: Instance): Instance { ins.(status := OFFLINE, enabled := false, state := "terminated") }

  /** A larger revision, or another payload at the same one. */
  predicate Differs(before: Instance, after: Instance) {
    || after.reversion > before.reversion
    || (after.reversion == before.reversion && CanonicalPayload(after) != CanonicalPayload(before))
  }

  ghost predicate IsAdd(was: Cache, now: Cache, k: Key)
    requires k in now
  {
    Get(was, k).None? && Accepted(now[k])
  }

  ghost predicate IsUpdate(was: Cache, now: Cache, k: Key)
    requires k in now
  {
    Get(was, k).Some? && Differs(Get(was, k).value, now[k]) && Accepted(now[k])
  }

  ghost predicate IsDelete(was: Cache, now: Cache, k: Key) { Get(now, k).None? }

  ghost function Adds(keys: seq<Key>, was: Cache, now: Cache): seq<Instance>
    requires SetOf(keys) <= now.Keys
  {
    if keys == [] then []
    else
      var k, rest := keys[|keys| - 1], keys[..|keys| - 1];
      assert k in SetOf(keys) && SetOf(rest) <= SetOf(keys);
      Adds(rest, was, now) +
      if IsAdd(was, now, k) then [now[k].(status := ONLINE, enabled := true, state := "running")] else []
  }

  ghost function Updates(keys: seq<Key>, was: Cache, now: Cache): seq<Instance>
    requires SetOf(keys) <= now.Keys
  {
    if keys == [] then []
    else
      var k, rest := keys[|keys| - 1], keys[..|keys| - 1];
      assert k in SetOf(keys) && SetOf(rest) <= SetOf(keys);
      Updates(rest, was, now) + if IsUpdate(was, now, k) then [now[k]] else []
  }

  ghost function Deletes(keys: seq<Key>, was: Cache, now: Cache): seq<Instance>
    requires SetOf(keys) <= was.Keys
  {
    if keys == [] then []
    else
      var k, rest := keys[|keys| - 1], keys[..|keys| - 1];
      assert k in SetOf(keys) && SetOf(rest) <= SetOf(keys);
      Deletes(rest, was, now) +
      if IsDelete(was, now, k) then [was[k].(status := OFFLINE, enabled := false, state := "terminated")] else []
  }

  /** The three event lists, each in ascending key order. */
  method ExtractDiff(was: Cache, now: Cache) returns (add: seq<Instance>, update: seq<Instance>, del: seq<Instance>)
    ensures add == Adds(Ascending(now.Keys), was, now)
    ensures update == Updates(Ascending(now.Keys), was, now)
    ensures del == Deletes(Ascending(was.Keys), was, now)
  {
    var keys := Ascend(now);
    add, update := Arrivals(keys, was, now);
    keys := Ascend(was);
    del := Departures(keys, was, now);
  }

  lemma PrefixKeys(keys: seq<Key>, i: nat)
    requires i < |keys|
    ensures keys[..i + 1][..i] == keys[..i] && keys[i] in SetOf(keys) && SetOf(keys[..i + 1]) <= SetOf(keys)
    ensures SetOf(keys[..i]) <= SetOf(keys)
  {
  }

  method Arrivals(keys: seq<Key>, was: Cache, now: Cache) returns (add: seq<Instance>, update: seq<Instance>)
    requires SetOf(keys) <= now.Keys
    ensures add == Adds(keys, was, now) && update == Updates(keys, was, now)
  {
    add, update := [], [];
    for i := 0 to |keys|
      invariant SetOf(keys[..i]) <= SetOf(keys)
      invariant add == Adds(keys[..i], was, now) && update == Updates(keys[..i], was, now)
    {
      PrefixKeys(keys, i);
      var ins := now[keys[i]];
      var before := Fetch(was, keys[i]);
      if before.Some? {
        if ins.reversion > before.value.reversion ||
           (ins.reversion == before.value.reversion && CanonicalPayload(ins) != CanonicalPayload(before.value)) {
          if Verify(ins) {
            update := update + [ins];
          }
        }
      } else if Verify(ins) {
        add := add + [Started(ins)];
      }
    }
    assert keys[..|keys|] == keys;
  }

  method Departures(keys: seq<Key>, was: Cache, now: Cache) returns (del: seq<Instance>)
    requires SetOf(keys) <= was.Keys
    ensures del == Deletes(keys, was, now)
  {
    del := [];
    for i := 0 to |keys|
      invariant SetOf(keys[..i]) <= SetOf(keys)
      invariant del == Deletes(keys[..i], was, now)
    {
      PrefixKeys(keys, i);
      var after := Fetch(now, keys[i]);
      if after.None? {
        del := del + [Terminated(was[keys[i]])];
      }
    }
    assert keys[..|keys|] == keys;
  }

  // ---------------------------------------------------------------- the provider's operations

  function Reset(s: Source): Source { s.(confirmations := 0, pending := false) }

  ghost function Replaced(s: Source, instances: seq<Instance>): Source {
    s.(cache := Loaded(Merged(s.cache, instances)), generation := s.generation + 1)
  }

  /** The watch path. Every empty read counts and leaves a mark for the next full push. */
  ghost function Synced(s: Source, read: Read): Source {
    if s.stopped then s
    else if read.Rejected? then Reset(s)
    else if read.instances != [] then Replaced(Reset(s), read.instances)
    else if s.confirmations + 1 < REQUIRED then s.(confirmations := s.confirmations + 1, pending := true)
    else Replaced(s.(confirmations := s.confirmations + 1, pending := false), [])
  }

  /** The one-shot comparison at start. An empty read that is marked already is not counted again. */
  ghost function Compared(s: Source, read: Read): Source {
    if read.Rejected? then Reset(s)
    else if read.instances != [] then Replaced(Reset(s), read.instances)
    else
      var counted := if s.pending then s else s.(confirmations := s.confirmations + 1, pending := true);
      if counted.confirmations < REQUIRED then counted else Replaced(counted, [])
  }

  /** A full push, or its read-only revalidation: the cache stays. */
  function Pushed(s: Source, read: Read, advance: bool): Source {
    if read.Rejected? then Reset(s)
    else if read.instances != [] then Reset(s)
    else if !advance then s
    else if s.pending then s.(pending := false)
    else s.(confirmations := s.confirmations + 1)
  }

  /** Asking for the list resets on a rejected read, and does nothing else. */
  function Asked(s: Source, read: Read): Source { if read.Rejected? then Reset(s) else s }

  datatype Snapshot = Invalid | Snapshot(instances: seq<Instance>, sequence: nat, emptyConfirmed: bool)

  class Provider {
    var cache: Cache
    var generation: nat
    var emptyConfirmations: nat
    var emptyConfirmationPending: bool
    var stopped: bool

    constructor ()
      ensures Value() == Source(map[], 0, false, 0, false)
    {
      cache, generation, emptyConfirmations, emptyConfirmationPending, stopped := map[], 0, 0, false, false;
    }

    function Value(): Source
      reads this
    {
      Source(cache, emptyConfirmations, emptyConfirmationPending, generation, stopped)
    }

    method GetAll(read: Read) returns (instances: Option<seq<Instance>>)
      modifies this
      ensures Value() == Asked(old(Value()), read)
      ensures instances == if read.Rejected? then None else Some(read.instances)
    {
      if read.Rejected? {
        emptyConfirmations, emptyConfirmationPending := 0, false;
        return None;
      }
      return Some(read.instances);
    }

    /** `recovered` asks for a full push: the first instances after an empty read. */
    method SyncInstance(read: Read) returns (failed: bool, recovered: bool,
        add: seq<Instance>, update: seq<Instance>, del: seq<Instance>)
      modifies this
      ensures Value() == Synced(old(Value()), read)
      ensures failed <==> old(stopped) || read.Rejected? || read.instances == []
      ensures recovered <==> !failed && old(emptyConfirmations) > 0
      ensures Value().generation == old(generation) ==> add == update == del == []
      ensures Value().generation != old(generation) ==>
        && add == Adds(Ascending(cache.Keys), old(cache), cache)
        && update == Updates(Ascending(cache.Keys), old(cache), cache)
        && del == Deletes(Ascending(old(cache).Keys), old(cache), cache)
    {
      failed, recovered, add, update, del := true, false, [], [], [];
      if stopped {
        return;
      }
      var was := cache;
      var current := GetAll(read);
      if current.None? {
        emptyConfirmations, emptyConfirmationPending := 0, false;
        return;
      }
      var instances := current.value;
      if |instances| == 0 {
        emptyConfirmations := emptyConfirmations + 1;
        emptyConfirmationPending := true;
        if emptyConfirmations < REQUIRED {
          return;
        }
        emptyConfirmationPending := false;
      } else {
        failed := false;
        recovered := emptyConfirmations > 0;
        emptyConfirmations, emptyConfirmationPending := 0, false;
        instances := MergeMonotonicInstances(was, instances);
      }
      var now := Load(instances);
      add, update, del := ExtractDiff(was, now);
      cache := now;
      generation := generation + 1;
    }

    method CompareAndFlush(read: Read) returns (all: Option<seq<Instance>>)
      modifies this
      ensures Value() == Compared(old(Value()), read)
      ensures all.Some? <==> generation != old(generation)
      ensures all.Some? ==> all.value == Merged(old(cache), read.instances)
    {
      var current := GetAll(read);
      if current.None? {
        return None;
      }
      var instances := current.value;
      if |instances| == 0 {
        if !emptyConfirmationPending {
          emptyConfirmations := emptyConfirmations + 1;
          emptyConfirmationPending := true;
        }
        if emptyConfirmations < REQUIRED {
          return None;
        }
      } else {
        instances := MergeMonotonicInstances(cache, instances);
        emptyConfirmations, emptyConfirmationPending := 0, false;
      }
      cache := Load(instances);
      generation := generation + 1;
      return Some(instances);
    }

    method SnapshotForFullPush(read: Read, advance: bool) returns (snapshot: Snapshot)
      modifies this
      ensures Value() == Pushed(old(Value()), read, advance)
      ensures snapshot == if read.Rejected? then Invalid
        else Snapshot(Merged(cache, read.instances), generation, emptyConfirmations >= REQUIRED)
    {
      var current := GetAll(read);
      if current.None? {
        return Invalid;
      }
      var all := MergeMonotonicInstances(cache, current.value);
      MergedLength(cache, current.value);
      if |all| == 0 && advance {
        if emptyConfirmationPending {
          emptyConfirmationPending := false;
        } else {
          emptyConfirmations := emptyConfirmations + 1;
        }
      } else if |all| > 0 {
        emptyConfirmations, emptyConfirmationPending := 0, false;
      }
      return Snapshot(all, generation, emptyConfirmations >= REQUIRED);
    }
  }

  lemma {:induction false} MergedLength(was: Cache, current: seq<Instance>)
    ensures |Merged(was, current)| == |current|
    ensures forall i :: 0 <= i < |current| ==> Merged(was, current)[i] == Kept(was, current[i])
    decreases |current|
  {
    if current != [] {
      MergedLength(was, current[..|current| - 1]);
    }
  }
}

/** What the provider's operations guarantee over every run. */
module ConsulTheorems {
  import opened Instances
  import opened KeyOrder
  import opened Wire
  import opened Consul

  // ---------------------------------------------------------------- the cache never goes back

  lemma {:induction false} LoadedElements(items: seq<Instance>)
    ensures CacheOk(Loaded(items)) && Loaded(items).Keys == KeysOf(items)
    ensures forall k :: k in Loaded(items) ==> Loaded(items)[k] in items
  {
    if items != [] {
      var prefix, last := items[..|items| - 1], items[|items| - 1];
      LoadedElements(prefix);
      assert items == prefix + [last];
      assert KeysOf(items) == KeysOf(prefix) + {IdentityKey(last)};
    }
  }

  lemma Member(s: set<Key>)
    requires |s| == 1
    ensures exists k :: k in s
  {
    assert s != {};
  }

  lemma GetIsCached(was: Cache, id: Key)
    requires CacheOk(was) && Get(was, id).Some?
    ensures var x := Get(was, id).value; IdentityKey(x) in was && was[IdentityKey(x)] == x
  {
    if id !in was {
      Member(Matches(was, id));
    }
  }

  lemma KeptIsNewer(was: Cache, ins: Instance)
    requires CacheOk(was)
    ensures var x := Kept(was, ins); IdentityKey(x) in was ==> was[IdentityKey(x)].reversion <= x.reversion
  {
    if Get(was, IdentityKey(ins)).Some? {
      GetIsCached(was, IdentityKey(ins));
    }
  }

  /** An identity that survives a read keeps at least its revision. */
  lemma MergeIsMonotone(was: Cache, current: seq<Instance>, k: Key)
    requires CacheOk(was)
    requires k in was && k in Loaded(Merged(was, current))
    ensures was[k].reversion <= Loaded(Merged(was, current))[k].reversion
  {
    var merged := Merged(was, current);
    LoadedElements(merged);
    MergedLength(was, current);
    var i :| 0 <= i < |merged| && merged[i] == Loaded(merged)[k];
    KeptIsNewer(was, current[i]);
  }

  /** The merge swaps one identity for another exactly when a bare wire id finds a newer entry. */
  lemma KeptIdentity(was: Cache, ins: Instance)
    requires CacheOk(was)
    ensures var id := IdentityKey(ins);
      IdentityKey(Kept(was, ins)) == id <==>
      !(id !in was && Get(was, id).Some? && ins.reversion < Get(was, id).value.reversion)
  {
    var id := IdentityKey(ins);
    if id !in was && Get(was, id).Some? {
      Member(Matches(was, id));
    }
  }

  /** Source-aware keys: those with a provider prefix or a source path, which the wire-id search leaves alone. */
  ghost predicate Aware(items: seq<Instance>) {
    forall x :: x in items ==> ':' in IdentityKey(x) || '/' in IdentityKey(x)
  }

  lemma MergedIdentities(was: Cache, current: seq<Instance>)
    requires CacheOk(was) && Aware(current)
    ensures Loaded(Merged(was, current)).Keys == KeysOf(current)
    ensures Aware(Merged(was, current))
  {
    var merged := Merged(was, current);
    MergedLength(was, current);
    LoadedElements(merged);
    forall i | 0 <= i < |current|
      ensures IdentityKey(merged[i]) == IdentityKey(current[i]) && current[i] in current
    {
      KeptIdentity(was, current[i]);
    }
    SameKeys(merged, current);
  }

  lemma SameKeys(a: seq<Instance>, b: seq<Instance>)
    requires |a| == |b| && forall i :: 0 <= i < |a| ==> IdentityKey(a[i]) == IdentityKey(b[i])
    ensures KeysOf(a) == KeysOf(b)
    ensures Aware(b) ==> Aware(a)
  {
    forall i | 0 <= i < |a|
      ensures IdentityKey(a[i]) in KeysOf(b) && IdentityKey(b[i]) in KeysOf(a)
    {
      assert a[i] in a && b[i] in b;
    }
  }

  // ---------------------------------------------------------------- the events replay the change

  /** The event of a newcomer: online, enabled and running, and otherwise as it was read. */
  predicate IsStarted(event: Instance, read: Instance) {
    && event.status == ONLINE && event.enabled && event.state == "running"
    && event.(status := read.status, enabled := read.enabled, state := read.state) == read
  }

  /** The event of a vanished instance: offline, disabled and terminated, and otherwise as it was cached. */
  predicate IsTerminated(event: Instance, cached: Instance) {
    && event.status == OFFLINE && !event.enabled && event.state == "terminated"
    && event.(status := cached.status, enabled := cached.enabled, state := cached.state) == cached
  }

  lemma {:induction false} AddsElements(keys: seq<Key>, was: Cache, now: Cache, x: Instance)
    requires SetOf(keys) <= now.Keys
    ensures x in Adds(keys, was, now) <==> exists k :: k in keys && IsAdd(was, now, k) && IsStarted(x, now[k])
    decreases |keys|
  {
    if keys != [] {
      var n := |keys| - 1;
      assert SetOf(keys[..n]) <= SetOf(keys);
      AddsElements(keys[..n], was, now, x);
      assert keys == keys[..n] + [keys[n]];
      assert keys[n] in SetOf(keys);
    }
  }

  lemma {:induction false} UpdatesElements(keys: seq<Key>, was: Cache, now: Cache, x: Instance)
    requires SetOf(keys) <= now.Keys
    ensures x in Updates(keys, was, now) <==> exists k :: k in keys && IsUpdate(was, now, k) && x == now[k]
    decreases |keys|
  {
    if keys != [] {
      var n := |keys| - 1;
      assert SetOf(keys[..n]) <= SetOf(keys);
      UpdatesElements(keys[..n], was, now, x);
      assert keys == keys[..n] + [keys[n]];
      assert keys[n] in SetOf(keys);
    }
  }

  lemma {:induction false} DeletesElements(keys: seq<Key>, was: Cache, now: Cache, x: Instance)
    requires SetOf(keys) <= was.Keys
    ensures x in Deletes(keys, was, now) <==> exists k :: k in keys && IsDelete(was, now, k) && IsTerminated(x, was[k])
    decreases |keys|
  {
    if keys != [] {
      var n := |keys| - 1;
      assert SetOf(keys[..n]) <= SetOf(keys);
      DeletesElements(keys[..n], was, now, x);
      assert keys == keys[..n] + [keys[n]];
      assert keys[n] in SetOf(keys);
    }
  }

  predicate Live(x: Instance) { x.status == ONLINE || x.status == UNHEALTHY }

  /** What an event leaves of its identity in the registry: nothing of an offline instance, an online or
      unhealthy one itself; any other status is ignored. */
  function Effect(x: Instance, before: Option<Instance>): Option<Instance> {
    if x.status == OFFLINE then None else if Live(x) then Some(x) else before
  }

  function Applied(remote: Cache, x: Instance): Cache {
    if x.status == OFFLINE then remote - {IdentityKey(x)}
    else if Live(x) then remote[IdentityKey(x) := x]
    else remote
  }

  /** A registry that takes events one by one, each by its own status. */
  function AppliedAll(remote: Cache, events: seq<Instance>): Cache {
    if events == [] then remote
    else Applied(AppliedAll(remote, events[..|events| - 1]), events[|events| - 1])
  }

  /** The lists go out in this order. */
  function Replay(remote: Cache, add: seq<Instance>, update: seq<Instance>, del: seq<Instance>): Cache {
    AppliedAll(AppliedAll(AppliedAll(remote, add), update), del)
  }

  /** No event of the list is about `k`. */
  predicate Silent(events: seq<Instance>, k: Key) { forall x :: x in events ==> IdentityKey(x) != k }

  /** The list holds `x`, and no other event of its identity. */
  predicate Speaks(events: seq<Instance>, x: Instance) {
    x in events && forall y :: y in events && IdentityKey(y) == IdentityKey(x) ==> y == x
  }

  lemma AppliedElsewhere(remote: Cache, x: Instance, k: Key)
    requires IdentityKey(x) != k
    ensures At(Applied(remote, x), k) == At(remote, k)
  {
  }

  lemma AppliedLast(remote: Cache, events: seq<Instance>, x: Instance)
    ensures AppliedAll(remote, events + [x]) == Applied(AppliedAll(remote, events), x)
  {
    assert (events + [x])[..|events|] == events;
  }

  lemma {:induction false} SilentLeaves(remote: Cache, events: seq<Instance>, k: Key)
    requires Silent(events, k)
    ensures At(AppliedAll(remote, events), k) == At(remote, k)
  {
    if events != [] {
      var n := |events| - 1;
      assert events == events[..n] + [events[n]];
      assert events[n] in events && Silent(events[..n], k);
      SilentLeaves(remote, events[..n], k);
      AppliedLast(remote, events[..n], events[n]);
      AppliedElsewhere(AppliedAll(remote, events[..n]), events[n], k);
    }
  }

  lemma {:induction false} SpeakerDecides(remote: Cache, events: seq<Instance>, x: Instance)
    requires Speaks(events, x)
    ensures At(AppliedAll(remote, events), IdentityKey(x)) == Effect(x, At(remote, IdentityKey(x)))
    decreases |events|
  {
    var n := |events| - 1;
    var prefix, last := events[..n], events[n];
    assert events == prefix + [last] && last in events;
    if x in prefix {
      assert Speaks(prefix, x);
      SpeakerDecides(remote, prefix, x);
    } else {
      assert last == x;
      assert Silent(prefix, IdentityKey(x));
      SilentLeaves(remote, prefix, IdentityKey(x));
    }
  }

  lemma StartedIs(event: Instance, read: Instance)
    ensures IsStarted(event, read) <==> event == read.(status := ONLINE, enabled := true, state := "running")
    ensures IsStarted(event, read) ==> IdentityKey(event) == IdentityKey(read)
  {
  }

  lemma TerminatedIs(event: Instance, cached: Instance)
    ensures IsTerminated(event, cached) <==>
      event == cached.(status := OFFLINE, enabled := false, state := "terminated")
    ensures IsTerminated(event, cached) ==> IdentityKey(event) == IdentityKey(cached)
  {
  }

  lemma AddedAt(keys: seq<Key>, was: Cache, now: Cache, k: Key)
    requires SetOf(keys) == now.Keys && CacheOk(now)
    ensures if k in now && IsAdd(was, now, k)
      then exists x :: IsStarted(x, now[k]) && Speaks(Adds(keys, was, now), x)
      else Silent(Adds(keys, was, now), k)
  {
    var add := Adds(keys, was, now);
    forall x | x in add
      ensures IdentityKey(x) in now && IsAdd(was, now, IdentityKey(x)) && IsStarted(x, now[IdentityKey(x)])
    {
      AddsElements(keys, was, now, x);
      var j :| j in keys && IsAdd(was, now, j) && IsStarted(x, now[j]);
      assert j in SetOf(keys);
      StartedIs(x, now[j]);
    }
    if k in now && IsAdd(was, now, k) {
      var x := now[k].(status := ONLINE, enabled := true, state := "running");
      assert k in SetOf(keys);
      StartedIs(x, now[k]);
      AddsElements(keys, was, now, x);
      forall y | y in add && IdentityKey(y) == k
        ensures y == x
      {
        StartedIs(y, now[k]);
      }
      assert Speaks(add, x);
    }
  }

  lemma UpdatedAt(keys: seq<Key>, was: Cache, now: Cache, k: Key)
    requires SetOf(keys) == now.Keys && CacheOk(now)
    ensures if k in now && IsUpdate(was, now, k) then Speaks(Updates(keys, was, now), now[k])
      else Silent(Updates(keys, was, now), k)
  {
    var update := Updates(keys, was, now);
    forall x | x in update
      ensures IdentityKey(x) in now && IsUpdate(was, now, IdentityKey(x)) && x == now[IdentityKey(x)]
    {
      UpdatesElements(keys, was, now, x);
      var j :| j in keys && IsUpdate(was, now, j) && x == now[j];
      assert j in SetOf(keys);
    }
    if k in now && IsUpdate(was, now, k) {
      assert k in SetOf(keys);
      UpdatesElements(keys, was, now, now[k]);
    }
  }

  lemma DeletedAt(keys: seq<Key>, was: Cache, now: Cache, k: Key)
    requires SetOf(keys) == was.Keys && CacheOk(was)
    ensures if k in was && IsDelete(was, now, k)
      then exists x :: IsTerminated(x, was[k]) && Speaks(Deletes(keys, was, now), x)
      else Silent(Deletes(keys, was, now), k)
  {
    var del := Deletes(keys, was, now);
    forall x | x in del
      ensures IdentityKey(x) in was && IsDelete(was, now, IdentityKey(x)) && IsTerminated(x, was[IdentityKey(x)])
    {
      DeletesElements(keys, was, now, x);
      var j :| j in keys && IsDelete(was, now, j) && IsTerminated(x, was[j]);
      assert j in SetOf(keys);
      TerminatedIs(x, was[j]);
    }
    if k in was && IsDelete(was, now, k) {
      var x := was[k].(status := OFFLINE, enabled := false, state := "terminated");
      assert k in SetOf(keys);
      TerminatedIs(x, was[k]);
      DeletesElements(keys, was, now, x);
      forall y | y in del && IdentityKey(y) == k
        ensures y == x
      {
        TerminatedIs(y, was[k]);
      }
      assert Speaks(del, x);
    }
  }

  /** The registry after the events that lead from one cache to the other. */
  ghost function Replayed(was: Cache, now: Cache, remote: Cache): Cache {
    Replay(remote, Adds(Ascending(now.Keys), was, now), Updates(Ascending(now.Keys), was, now),
      Deletes(Ascending(was.Keys), was, now))
  }

  function At(c: Cache, k: Key): Option<Instance> { if k in c then Some(c[k]) else None }

  /** What any registry holds for `k` after the events, whatever it held before: an update by its status,
      a newcomer started, and nothing of a deleted one. */
  lemma ReplayAt(was: Cache, now: Cache, remote: Cache, k: Key)
    requires CacheOk(was) && CacheOk(now)
    ensures At(Replayed(was, now, remote), k) ==
      if k in now && IsUpdate(was, now, k) then Effect(now[k], At(remote, k))
      else if k in now && IsAdd(was, now, k)
      then Some(now[k].(status := ONLINE, enabled := true, state := "running"))
      else if k in was && IsDelete(was, now, k) then None
      else At(remote, k)
  {
    var add, update, del := Adds(Ascending(now.Keys), was, now), Updates(Ascending(now.Keys), was, now),
      Deletes(Ascending(was.Keys), was, now);
    var r1 := AppliedAll(remote, add);
    var r2 := AppliedAll(r1, update);
    AddedAt(Ascending(now.Keys), was, now, k);
    UpdatedAt(Ascending(now.Keys), was, now, k);
    DeletedAt(Ascending(was.Keys), was, now, k);
    if k in now && IsAdd(was, now, k) {
      var x :| IsStarted(x, now[k]) && Speaks(add, x);
      StartedIs(x, now[k]);
      SpeakerDecides(remote, add, x);
    } else {
      SilentLeaves(remote, add, k);
    }
    if k in now && IsUpdate(was, now, k) {
      SpeakerDecides(r1, update, now[k]);
    } else {
      SilentLeaves(r1, update, k);
    }
    if k in was && IsDelete(was, now, k) {
      var x :| IsTerminated(x, was[k]) && Speaks(del, x);
      TerminatedIs(x, was[k]);
      SpeakerDecides(r2, del, x);
    } else {
      SilentLeaves(r2, del, k);
    }
  }

  /** A lookup of an identity that is not cached finds another one: the key has no provider prefix or
      source path, and exactly one cached instance carries it as its wire id. */
  ghost predicate Found(c: Cache, k: Key) {
    k !in c && ':' !in k && '/' !in k &&
    exists j :: j in c && c[j].instanceId == k && forall i :: i in c && c[i].instanceId == k ==> i == j
  }

  ghost predicate Single(s: set<Key>, j: Key) { j in s && forall i :: i in s ==> i == j }

  lemma SingleCounts(s: set<Key>, j: Key)
    requires Single(s, j)
    ensures |s| == 1
  {
    assert s == {j};
  }

  lemma OneElement(s: set<Key>)
    requires |s| == 1
    ensures exists j :: Single(s, j)
  {
    Member(s);
    var j :| j in s;
    OnlyMatch(s, j);
    assert Single(s, j);
  }

  lemma FoundMatches(c: Cache, k: Key)
    ensures Found(c, k) <==> k !in c && Plain(k) && |Matches(c, k)| == 1
  {
    assert forall i :: i in Matches(c, k) <==> i in c && c[i].instanceId == k;
    if |Matches(c, k)| == 1 {
      OneElement(Matches(c, k));
    }
    if Found(c, k) {
      var j :| j in c && c[j].instanceId == k && forall i :: i in c && c[i].instanceId == k ==> i == j;
      SingleCounts(Matches(c, k), j);
    }
  }

  /** What a lookup finds: the identity itself, or the one cached instance that carries it as its wire id. */
  lemma GetFinds(c: Cache, k: Key)
    ensures Get(c, k).Some? <==> k in c || Found(c, k)
    ensures k in c ==> Get(c, k) == Some(c[k])
    ensures Found(c, k) ==> exists j :: j in c && c[j].instanceId == k && Get(c, k) == Some(c[j])
  {
    FoundMatches(c, k);
    if Found(c, k) {
      Member(Matches(c, k));
    }
  }

  lemma PayloadHasIdentity(x: Instance, y: Instance)
    requires CanonicalPayload(x) == CanonicalPayload(y)
    ensures IdentityKey(x) == IdentityKey(y) && x.reversion == y.reversion && (Accepted(x) <==> Accepted(y))
  {
    assert Lookup(x.labels, "sourceKey") == Lookup(Some(CopyMap(x.labels)), "sourceKey");
    assert Lookup(y.labels, "sourceKey") == Lookup(Some(CopyMap(y.labels)), "sourceKey");
    assert CanonicalPayload(x).reversion == CanonicalPayload(y).reversion;
  }

  /** A newcomer that the wire-id search takes for somebody else is not older than that one. */
  lemma FoundIsNotNewer(was: Cache, current: seq<Instance>, k: Key)
    requires CacheOk(was) && k !in was && Get(was, k).Some?
    requires k in Loaded(Merged(was, current))
    ensures Differs(Get(was, k).value, Loaded(Merged(was, current))[k])
  {
    var merged := Merged(was, current);
    LoadedElements(merged);
    MergedLength(was, current);
    var i :| 0 <= i < |merged| && merged[i] == Loaded(merged)[k];
    GetIsCached(was, k);
    if Get(was, IdentityKey(current[i])).Some? {
      GetIsCached(was, IdentityKey(current[i]));
    }
    assert merged[i] == current[i] && IdentityKey(current[i]) == k;
    if CanonicalPayload(merged[i]) == CanonicalPayload(Get(was, k).value) {
      PayloadHasIdentity(merged[i], Get(was, k).value);
    }
  }

  lemma UpdateIsChange(was: Cache, current: seq<Instance>, k: Key)
    requires CacheOk(was) && k in was && k in Loaded(Merged(was, current))
    ensures Differs(was[k], Loaded(Merged(was, current))[k]) <==>
      CanonicalPayload(Loaded(Merged(was, current))[k]) != CanonicalPayload(was[k])
  {
    MergeIsMonotone(was, current, k);
    var x := Loaded(Merged(was, current))[k];
    if CanonicalPayload(x) == CanonicalPayload(was[k]) {
      PayloadHasIdentity(x, was[k]);
    }
  }

  /** The three event lists after the merge, for every identity: an accepted newcomer is added unless
      the wire-id search finds another entry for it, and is then updated; a common one is updated when
      its payload changed; a vanished one is deleted unless the search finds another entry for it. */
  lemma EventsAreExact(was: Cache, current: seq<Instance>, k: Key)
    requires CacheOk(was)
    ensures var now := Loaded(Merged(was, current));
      && (k in now ==> (IsAdd(was, now, k) <==> k !in was && Accepted(now[k]) && !Found(was, k)))
      && (k in now ==> (IsUpdate(was, now, k) <==>
            Accepted(now[k]) &&
            (if k in was then CanonicalPayload(now[k]) != CanonicalPayload(was[k])
             else Found(was, k))))
      && (k in was ==> (IsDelete(was, now, k) <==> k !in now && !Found(now, k)))
  {
    var now := Loaded(Merged(was, current));
    GetFinds(was, k);
    GetFinds(now, k);
    if k in now && k in was {
      UpdateIsChange(was, current, k);
    } else if k in now && Get(was, k).Some? {
      FoundIsNotNewer(was, current, k);
    }
  }

  // ---------------------------------------------------------------- mirroring

  /** The registry holds `k` as the cache does: an accepted instance with the same canonical payload if
      it is online or unhealthy, nothing for an offline one or for an identity that is not cached. */
  predicate Mirrors(remote: Cache, c: Cache, k: Key) {
    if k !in c then k !in remote
    else Accepted(c[k]) ==>
      && (Live(c[k]) ==> k in remote && CanonicalPayload(remote[k]) == CanonicalPayload(c[k]))
      && (c[k].status == OFFLINE ==> k !in remote)
  }

  /** An accepted newcomer goes out as online, enabled and running although it was not read as that. */
  ghost predicate Forced(was: Cache, now: Cache, k: Key) {
    && k in now && k !in was && !Found(was, k) && Accepted(now[k]) && (Live(now[k]) || now[k].status == OFFLINE)
    && !(now[k].status == ONLINE && now[k].enabled && now[k].state == "running")
  }

  /** A registered identity vanishes while another entry carries it as its wire id. */
  ghost predicate Lingers(was: Cache, now: Cache, remote: Cache, k: Key) {
    k in was && k in remote && Found(now, k)
  }

  lemma MirrorsAtKey(remote: Cache, c: Cache, k: Key)
    ensures Mirrors(remote, c, k) <==>
      if k !in c then At(remote, k).None?
      else Accepted(c[k]) ==>
        && (Live(c[k]) ==>
              At(remote, k).Some? && CanonicalPayload(At(remote, k).value) == CanonicalPayload(c[k]))
        && (c[k].status == OFFLINE ==> At(remote, k).None?)
  {
  }

  lemma StartedPayload(x: Instance)
    ensures CanonicalPayload(x.(status := ONLINE, enabled := true, state := "running")) == CanonicalPayload(x) <==>
      x.status == ONLINE && x.enabled && x.state == "running"
  {
    var p := CanonicalPayload(x.(status := ONLINE, enabled := true, state := "running"));
    assert p.status == ONLINE && p.enabled && p.state == "running";
    assert CanonicalPayload(x).status == x.status && CanonicalPayload(x).enabled == x.enabled &&
      CanonicalPayload(x).state == x.state;
  }

  /** The events of a read carry a registry that mirrors the old cache to one that mirrors the new
      cache exactly when the identity is neither forced nor lingering. */
  lemma ReplayMirrors(was: Cache, current: seq<Instance>, remote: Cache, k: Key)
    requires CacheOk(was) && Mirrors(remote, was, k)
    ensures var now := Loaded(Merged(was, current));
      Mirrors(Replayed(was, now, remote), now, k) <==> !Forced(was, now, k) && !Lingers(was, now, remote, k)
  {
    var now := Loaded(Merged(was, current));
    LoadedElements(Merged(was, current));
    EventsAreExact(was, current, k);
    ReplayAt(was, now, remote, k);
    var after := At(Replayed(was, now, remote), k);
    MirrorsAtKey(Replayed(was, now, remote), now, k);
    if k in now {
      StartedPayload(now[k]);
    }
    if k in now && k in was && CanonicalPayload(now[k]) == CanonicalPayload(was[k]) {
      PayloadHasIdentity(now[k], was[k]);
    }
  }

  /** A changed payload heals: the registry takes the new instance by its status, whatever it held before. */
  lemma ChangeHeals(was: Cache, current: seq<Instance>, remote: Cache, k: Key)
    requires CacheOk(was) && k in was && k in Loaded(Merged(was, current))
    requires Accepted(Loaded(Merged(was, current))[k])
    ensures var now := Loaded(Merged(was, current));
      At(Replayed(was, now, remote), k) ==
      if CanonicalPayload(now[k]) != CanonicalPayload(was[k]) then Effect(now[k], At(remote, k)) else At(remote, k)
  {
    var now := Loaded(Merged(was, current));
    LoadedElements(Merged(was, current));
    EventsAreExact(was, current, k);
    ReplayAt(was, now, remote, k);
    assert !IsAdd(was, now, k) && !IsDelete(was, now, k);
  }

  lemma OneLoaded(was: Cache, x: Instance)
    requires Get(was, IdentityKey(x)).None? || Get(was, IdentityKey(x)).value.reversion <= x.reversion
    ensures Loaded(Merged(was, [x])) == map[IdentityKey(x) := x]
  {
    var merged := Merged(was, [x]);
    MergedLength(was, [x]);
    assert merged[0] == x;
    LoadedElements(merged);
    assert KeysOf(merged) == {IdentityKey(x)};
  }

  lemma LoneFound(y: Instance, k: Key)
    requires IdentityKey(y) != k
    ensures Found(map[IdentityKey(y) := y], k) <==> ':' !in k && '/' !in k && y.instanceId == k
  {
    var c := map[IdentityKey(y) := y];
    if ':' !in k && '/' !in k && y.instanceId == k {
      assert IdentityKey(y) in c && c[IdentityKey(y)].instanceId == k;
    }
  }

  /** A newcomer whose bare identity is the wire id of a cached entry is not added. It goes out as an
      update, and so as it was read. */
  lemma AddGoesOutAsUpdate(y: Instance, x: Instance, remote: Cache)
    requires ':' !in IdentityKey(x) && '/' !in IdentityKey(x)
    requires y.instanceId == IdentityKey(x) && IdentityKey(y) != IdentityKey(x)
    requires Accepted(x) && y.reversion <= x.reversion
    ensures var k, was := IdentityKey(x), map[IdentityKey(y) := y];
      var now := Loaded(Merged(was, [x]));
      k !in was && k in now && !IsAdd(was, now, k) && IsUpdate(was, now, k) &&
        At(Replayed(was, now, remote), k) == Effect(x, At(remote, k))
  {
    var k, was := IdentityKey(x), map[IdentityKey(y) := y];
    LoneFound(y, k);
    GetFinds(was, k);
    OneLoaded(was, x);
    EventsAreExact(was, [x], k);
    ReplayAt(was, map[k := x], remote, k);
  }

  /** A vanished identity that a remaining entry carries as its wire id is not deleted. */
  lemma MissedDelete(x: Instance, y: Instance)
    requires ':' !in IdentityKey(x) && '/' !in IdentityKey(x)
    requires y.instanceId == IdentityKey(x) && IdentityKey(y) != IdentityKey(x)
    requires ':' in IdentityKey(y) || '/' in IdentityKey(y)
    ensures var k, was := IdentityKey(x), map[IdentityKey(x) := x];
      var now := Loaded(Merged(was, [y]));
      k !in now && !IsDelete(was, now, k) && At(Replayed(was, now, was), k) == Some(x) &&
        !Mirrors(Replayed(was, now, was), now, k)
  {
    var k, was := IdentityKey(x), map[IdentityKey(x) := x];
    LoneFound(x, IdentityKey(y));
    GetFinds(was, IdentityKey(y));
    OneLoaded(was, y);
    LoneFound(y, k);
    EventsAreExact(was, [y], k);
    ReplayAt(was, map[IdentityKey(y) := y], was, k);
  }

  // ---------------------------------------------------------------- runs

  datatype Action =
    | Sync(read: Read)
    | Compare(read: Read)
    | FullPush(read: Read)
    | Revalidate(read: Read)
    | Ask(read: Read)
    | Stop

  ghost function Do(s: Source, a: Action): Source {
    match a
    case Sync(read) => Synced(s, read)
    case Compare(read) => Compared(s, read)
    case FullPush(read) => Pushed(s, read, true)
    case Revalidate(read) => Pushed(s, read, false)
    case Ask(read) => Asked(s, read)
    case Stop => s.(stopped := true)
  }

  datatype Trace = Trace(states: seq<Source>, actions: seq<Action>)

  ghost predicate IsTrace(tr: Trace) {
    && |tr.states| == |tr.actions| + 1
    && tr.states[0] == Source(map[], 0, false, 0, false)
    && forall i :: 0 <= i < |tr.actions| ==> tr.states[i + 1] == Do(tr.states[i], tr.actions[i])
  }

  /** Whether the operation reads the source at all: a stopped watch does not. */
  predicate Reads(s: Source, a: Action) { !a.Stop? && !(a.Sync? && s.stopped) }

  /** A rejected read on any path, or instances on any path but a plain question. */
  predicate Interrupts(s: Source, a: Action) {
    Reads(s, a) && (a.read.Rejected? || (!a.Ask? && a.read.instances != []))
  }

  predicate ObservesEmpty(s: Source, a: Action) {
    Reads(s, a) && (a.Sync? || a.Compare? || a.FullPush?) && a.read == Healthy([])
  }

  /** How many healthy-empty reads there were since the last interruption. */
  function EmptyReads(tr: Trace, i: nat): nat
    requires i <= |tr.actions| && |tr.states| == |tr.actions| + 1
  {
    if i == 0 then 0
    else if Interrupts(tr.states[i - 1], tr.actions[i - 1]) then 0
    else EmptyReads(tr, i - 1) + if ObservesEmpty(tr.states[i - 1], tr.actions[i - 1]) then 1 else 0
  }

  /** No read is counted twice, on whatever paths the reads come. */
  lemma {:induction false} ConfirmationsAreReads(tr: Trace, i: nat)
    requires IsTrace(tr) && i <= |tr.actions|
    ensures tr.states[i].confirmations <= EmptyReads(tr, i)
    ensures CacheOk(tr.states[i].cache)
    decreases i
  {
    if i > 0 {
      ConfirmationsAreReads(tr, i - 1);
      var s, a := tr.states[i - 1], tr.actions[i - 1];
      assert tr.states[i] == Do(s, a);
      if a.Sync? || a.Compare? {
        if a.read.Healthy? {
          LoadedElements(Merged(s.cache, a.read.instances));
        }
        LoadedElements([]);
      }
    }
  }

  /** `EmptyReads` is what it says: the last of them happened, and nothing interrupted since. */
  lemma {:induction false} LastEmptyRead(tr: Trace, i: nat) returns (j: nat)
    requires |tr.states| == |tr.actions| + 1 && i <= |tr.actions| && EmptyReads(tr, i) > 0
    ensures j < i && ObservesEmpty(tr.states[j], tr.actions[j])
    ensures forall m :: j <= m < i ==> !Interrupts(tr.states[m], tr.actions[m])
    ensures EmptyReads(tr, j) == EmptyReads(tr, i) - 1
    decreases i
  {
    if ObservesEmpty(tr.states[i - 1], tr.actions[i - 1]) {
      j := i - 1;
    } else {
      j := LastEmptyRead(tr, i - 1);
    }
  }

  /** Three healthy-empty reads, uninterrupted, all before state `i`. */
  ghost predicate ThreeEmptyReads(tr: Trace, i: nat)
    requires |tr.states| == |tr.actions| + 1 && i <= |tr.actions|
  {
    exists a, b, c ::
      && 0 <= a < b < c < i
      && ObservesEmpty(tr.states[a], tr.actions[a]) && ObservesEmpty(tr.states[b], tr.actions[b])
      && ObservesEmpty(tr.states[c], tr.actions[c])
      && forall m :: a <= m < i ==> !Interrupts(tr.states[m], tr.actions[m])
  }

  lemma ThreeReads(tr: Trace, i: nat)
    requires |tr.states| == |tr.actions| + 1 && i <= |tr.actions| && EmptyReads(tr, i) >= 3
    ensures ThreeEmptyReads(tr, i)
  {
    var c := LastEmptyRead(tr, i);
    var b := LastEmptyRead(tr, c);
    var a := LastEmptyRead(tr, b);
  }

  lemma InstancesStay(was: Cache, current: seq<Instance>)
    requires current != []
    ensures Loaded(Merged(was, current)) != map[]
  {
    var merged := Merged(was, current);
    MergedLength(was, current);
    assert IdentityKey(merged[|merged| - 1]) in Loaded(merged);
  }

  lemma EmptyingStep(s: Source, a: Action)
    requires s.cache != map[] && Do(s, a).cache == map[]
    ensures Do(s, a).confirmations >= REQUIRED
  {
    if (a.Sync? || a.Compare?) && a.read.Healthy? && a.read.instances != [] {
      InstancesStay(s.cache, a.read.instances);
    }
  }

  /** The cache loses its last instance only after three uninterrupted healthy-empty reads. */
  lemma EmptyingIsConfirmed(tr: Trace, i: nat)
    requires IsTrace(tr) && i < |tr.actions|
    requires tr.states[i].cache != map[] && tr.states[i + 1].cache == map[]
    ensures ThreeEmptyReads(tr, i + 1)
  {
    ConfirmationsAreReads(tr, i + 1);
    EmptyingStep(tr.states[i], tr.actions[i]);
    ThreeReads(tr, i + 1);
  }

  /** A full push is marked as a confirmed empty one only after three such reads. */
  lemma MarkIsConfirmed(tr: Trace, i: nat)
    requires IsTrace(tr) && i < |tr.actions| && tr.actions[i].FullPush?
    requires tr.states[i + 1].confirmations >= REQUIRED
    ensures ThreeEmptyReads(tr, i + 1)
  {
    ConfirmationsAreReads(tr, i + 1);
    ThreeReads(tr, i + 1);
  }

  /** One empty state of the source that a watch read and then a comparison or a full push observe
      counts once, and the full push after a counted one counts again. */
  lemma MarkedReadCountsOnce(tr: Trace, i: nat)
    requires IsTrace(tr) && i + 2 <= |tr.actions| && !tr.states[i].stopped
    requires tr.actions[i] == Sync(Healthy([])) && tr.states[i + 1].confirmations < REQUIRED
    ensures tr.actions[i + 1] in {Compare(Healthy([])), FullPush(Healthy([]))} ==>
      tr.states[i + 2].confirmations == tr.states[i + 1].confirmations == tr.states[i].confirmations + 1
    ensures i + 3 <= |tr.actions| && tr.actions[i + 1] == tr.actions[i + 2] == FullPush(Healthy([])) ==>
      tr.states[i + 3].confirmations == tr.states[i].confirmations + 2
  {
    assert tr.states[i + 1] == Do(tr.states[i], tr.actions[i]);
    assert tr.states[i + 2] == Do(tr.states[i + 1], tr.actions[i + 1]);
    if i + 3 <= |tr.actions| {
      assert tr.states[i + 3] == Do(tr.states[i + 2], tr.actions[i + 2]);
    }
  }

  /** And three watch reads are enough: the cache is then empty. */
  lemma ThreeWatchReadsEmpty(tr: Trace, i: nat)
    requires IsTrace(tr) && i + 3 <= |tr.actions| && !tr.states[i].stopped
    requires forall j :: i <= j < i + 3 ==> tr.actions[j] == Sync(Healthy([]))
    ensures tr.states[i + 3].cache == map[] && tr.states[i + 3].confirmations >= REQUIRED
  {
    assert tr.states[i + 1] == Do(tr.states[i], tr.actions[i]);
    assert tr.states[i + 2] == Do(tr.states[i + 1], tr.actions[i + 1]);
    assert tr.states[i + 3] == Do(tr.states[i + 2], tr.actions[i + 2]);
  }

  /** Position `j` holds the last instance of its identity. */
  predicate LastRead(items: seq<Instance>, j: nat) {
    j < |items| && forall m :: j < m < |items| ==> IdentityKey(items[m]) != IdentityKey(items[j])
  }

  lemma {:induction false} LoadedLast(items: seq<Instance>, j: nat)
    requires LastRead(items, j)
    ensures IdentityKey(items[j]) in Loaded(items) && Loaded(items)[IdentityKey(items[j])] == items[j]
    decreases |items|
  {
    var n := |items| - 1;
    if j < n {
      assert forall m :: j < m < n ==> items[..n][m] == items[m];
      LoadedLast(items[..n], j);
    }
  }

  /** Of a source-aware identity the merge keeps the cached instance iff that is newer. */
  lemma KeptAware(was: Cache, x: Instance)
    requires ':' in IdentityKey(x) || '/' in IdentityKey(x)
    ensures var k := IdentityKey(x);
      Kept(was, x) == if k in was && was[k].reversion > x.reversion then was[k] else x
  {
    GetFinds(was, IdentityKey(x));
  }

  lemma MergedLast(was: Cache, items: seq<Instance>, j: nat)
    requires CacheOk(was) && Aware(items) && LastRead(items, j)
    ensures var k, merged := IdentityKey(items[j]), Merged(was, items);
      && k in Loaded(merged)
      && Loaded(merged)[k] == if k in was && was[k].reversion > items[j].reversion then was[k] else items[j]
  {
    var merged := Merged(was, items);
    MergedLength(was, items);
    forall m | 0 <= m < |items|
      ensures IdentityKey(merged[m]) == IdentityKey(items[m])
    {
      assert items[m] in items;
      KeptAware(was, items[m]);
    }
    assert items[j] in items;
    KeptAware(was, items[j]);
    LoadedLast(merged, j);
  }

  /** A watch read or a comparison that finds instances stores them: exactly the identities it read, each as
      the last instance read of it, or as it was cached if that is newer; and it forgets all empty reads. */
  lemma ReadIsStored(s: Source, a: Action, j: nat)
    requires CacheOk(s.cache) && ((a.Sync? && !s.stopped) || a.Compare?) && a.read.Healthy?
    requires Aware(a.read.instances) && LastRead(a.read.instances, j)
    ensures var x, cache := a.read.instances[j], Do(s, a).cache;
      && cache.Keys == KeysOf(a.read.instances)
      && cache[IdentityKey(x)] ==
           (if IdentityKey(x) in s.cache && s.cache[IdentityKey(x)].reversion > x.reversion
            then s.cache[IdentityKey(x)] else x)
    ensures Do(s, a).confirmations == 0 && !Do(s, a).pending && Do(s, a).generation == s.generation + 1
  {
    MergedIdentities(s.cache, a.read.instances);
    MergedLast(s.cache, a.read.instances, j);
  }

  /** While an identity stays cached its revision never decreases, over any run. */
  lemma {:induction false} RevisionsNeverGoBack(tr: Trace, i: nat, j: nat, k: Key)
    requires IsTrace(tr) && i <= j <= |tr.actions|
    requires forall m :: i <= m <= j ==> k in tr.states[m].cache
    ensures tr.states[i].cache[k].reversion <= tr.states[j].cache[k].reversion
    decreases j
  {
    if i < j {
      RevisionsNeverGoBack(tr, i, j - 1, k);
      ConfirmationsAreReads(tr, j - 1);
      var s, a := tr.states[j - 1], tr.actions[j - 1];
      assert tr.states[j] == Do(s, a) && k in s.cache;
      if (a.Sync? || a.Compare?) && a.read.Healthy? && tr.states[j].generation != s.generation {
        MergeIsMonotone(s.cache, a.read.instances, k);
      }
    }
  }

  // ---------------------------------------------------------------- mirroring over a run

  /** A healthy full push reaches the registry, unless its snapshot is empty and not confirmed to be. */
  ghost predicate Delivers(s: Source, a: Action) {
    a.FullPush? && a.read.Healthy? && (a.read.instances != [] || Do(s, a).confirmations >= REQUIRED)
  }

  /** What a snapshot asks to be registered: its online and unhealthy instances. */
  function Standing(c: Cache): Cache { map k | k in c && Live(c[k]) :: c[k] }

  /** The registry follows the events of the watch reads, and after a full push holds what its snapshot
      asks to be registered, and nothing else. */
  ghost function Registry(s: Source, a: Action, remote: Cache): Cache {
    if a.Sync? && Do(s, a).generation != s.generation then Replayed(s.cache, Do(s, a).cache, remote)
    else if Delivers(s, a) then Standing(Loaded(Merged(s.cache, a.read.instances)))
    else remote
  }

  ghost predicate Follows(tr: Trace, registries: seq<Cache>) {
    && |registries| == |tr.states| && |tr.states| == |tr.actions| + 1 && registries[0] == map[]
    && forall i :: 0 <= i < |tr.actions| ==>
         !tr.actions[i].Compare? && registries[i + 1] == Registry(tr.states[i], tr.actions[i], registries[i])
  }

  /** The step publishes what the cache does not hold: a newcomer in another state than it was read in,
      a registered identity whose delete is suppressed, or a full push of a read that differs from the cache. */
  ghost predicate Breaks(s: Source, a: Action, remote: Cache, k: Key) {
    if Delivers(s, a) then !Mirrors(Standing(Loaded(Merged(s.cache, a.read.instances))), s.cache, k)
    else Forced(s.cache, Do(s, a).cache, k) || Lingers(s.cache, Do(s, a).cache, remote, k)
  }

  lemma SyncMirrors(s: Source, read: Read, remote: Cache, k: Key)
    requires CacheOk(s.cache) && Mirrors(remote, s.cache, k)
    ensures Mirrors(Registry(s, Sync(read), remote), Synced(s, read).cache, k) <==> !Breaks(s, Sync(read), remote, k)
  {
    if Synced(s, read).generation != s.generation {
      ReplayMirrors(s.cache, read.instances, remote, k);
    }
  }

  lemma MirrorStep(s: Source, a: Action, remote: Cache, k: Key)
    requires CacheOk(s.cache) && Mirrors(remote, s.cache, k) && !a.Compare?
    ensures Mirrors(Registry(s, a, remote), Do(s, a).cache, k) <==> !Breaks(s, a, remote, k)
  {
    if a.Sync? {
      SyncMirrors(s, a.read, remote, k);
    }
  }

  ghost predicate MirrorsAt(tr: Trace, registries: seq<Cache>, i: nat, k: Key)
    requires i < |tr.states| == |registries|
  {
    Mirrors(registries[i], tr.states[i].cache, k)
  }

  ghost predicate BreaksAt(tr: Trace, registries: seq<Cache>, i: nat, k: Key)
    requires i < |tr.actions| && |registries| == |tr.states| == |tr.actions| + 1
  {
    Breaks(tr.states[i], tr.actions[i], registries[i], k)
  }

  lemma MirrorStepAt(tr: Trace, registries: seq<Cache>, i: nat, k: Key)
    requires IsTrace(tr) && Follows(tr, registries) && i < |tr.actions| && MirrorsAt(tr, registries, i, k)
    ensures MirrorsAt(tr, registries, i + 1, k) <==> !BreaksAt(tr, registries, i, k)
  {
    ConfirmationsAreReads(tr, i);
    MirrorStep(tr.states[i], tr.actions[i], registries[i], k);
  }

  /** A chain that holds at first, and holds on exactly at the steps that do not break it. */
  lemma {:induction false} HoldsAlong(holds: seq<bool>, breaks: seq<bool>)
    requires |holds| == |breaks| + 1 && holds[0]
    requires forall i :: 0 <= i < |breaks| && holds[i] ==> (holds[i + 1] <==> !breaks[i])
    ensures (forall i :: 0 <= i < |holds| ==> holds[i]) <==> (forall i :: 0 <= i < |breaks| ==> !breaks[i])
    decreases |breaks|
  {
    if breaks != [] {
      var n := |breaks| - 1;
      HoldsAlong(holds[..n + 1], breaks[..n]);
      if forall i :: 0 <= i < |breaks| ==> !breaks[i] {
        assert forall i :: 0 <= i < n ==> !breaks[..n][i];
        assert holds[..n + 1][n];
      }
      if forall i :: 0 <= i < |holds| ==> holds[i] {
        forall i | 0 <= i < |breaks|
          ensures !breaks[i]
        {
          assert holds[i] && holds[i + 1];
        }
      }
    }
  }

  /** From an empty registry on, the registry mirrors the cache at `k` all along a run of watch reads
      and full pushes exactly when no step breaks it. */
  lemma SyncsMirror(tr: Trace, registries: seq<Cache>, k: Key)
    requires IsTrace(tr) && Follows(tr, registries)
    ensures (forall i: nat :: i < |tr.states| ==> MirrorsAt(tr, registries, i, k)) <==>
      (forall i: nat :: i < |tr.actions| ==> !BreaksAt(tr, registries, i, k))
  {
    var holds := seq(|tr.states|, i requires 0 <= i < |tr.states| => MirrorsAt(tr, registries, i, k));
    var breaks := seq(|tr.actions|, i requires 0 <= i < |tr.actions| => BreaksAt(tr, registries, i, k));
    forall i | 0 <= i < |breaks| && holds[i]
      ensures holds[i + 1] <==> !breaks[i]
    {
      MirrorStepAt(tr, registries, i, k);
    }
    HoldsAlong(holds, breaks);
    if forall i: nat :: i < |tr.states| ==> MirrorsAt(tr, registries, i, k) {
      assert forall i :: 0 <= i < |holds| ==> holds[i];
      forall i: nat | i < |tr.actions|
        ensures !BreaksAt(tr, registries, i, k)
      {
        assert !breaks[i];
      }
    }
    if forall i: nat :: i < |tr.actions| ==> !BreaksAt(tr, registries, i, k) {
      assert forall i :: 0 <= i < |breaks| ==> !breaks[i];
      forall i: nat | i < |tr.states|
        ensures MirrorsAt(tr, registries, i, k)
      {
        assert holds[i];
      }
    }
  }

  /** A full push heals: whatever the registry held, it holds every online or unhealthy identity as read,
      or as cached when that is newer, and nothing else; so it mirrors the cache wherever the read agrees with it. */
  lemma FullPushHeals(s: Source, a: Action, remote: Cache, k: Key)
    requires CacheOk(s.cache) && Delivers(s, a)
    ensures var now := Loaded(Merged(s.cache, a.read.instances));
      && At(Registry(s, a, remote), k) ==
           (if k in now && (now[k].status == ONLINE || now[k].status == UNHEALTHY) then Some(now[k]) else None)
      && (k in now && k in s.cache ==> s.cache[k].reversion <= now[k].reversion)
      && (At(now, k) == At(s.cache, k) ==> Mirrors(Registry(s, a, remote), Do(s, a).cache, k))
  {
    var now := Loaded(Merged(s.cache, a.read.instances));
    StandingAt(now, k);
    MirrorsAtKey(Standing(now), s.cache, k);
    if k in now && k in s.cache {
      MergeIsMonotone(s.cache, a.read.instances, k);
    }
  }

  lemma StandingAt(c: Cache, k: Key)
    ensures At(Standing(c), k) == if k in c && Live(c[k]) then Some(c[k]) else None
  {
  }

  /** An empty full push clears the registry iff three empty reads in a row are counted with it. */
  lemma EmptyPushClears(s: Source, remote: Cache)
    ensures Registry(s, FullPush(Healthy([])), remote) ==
      if s.confirmations + (if s.pending then 0 else 1) >= 3 then map[] else remote
  {
    assert Merged(s.cache, []) == [];
  }

  /** The run reads one and the same catalog over and over, and that holds one instance. */
  ghost predicate Rereads(tr: Trace, x: Instance) {
    forall i :: 0 <= i < |tr.actions| ==> tr.actions[i] == Sync(Healthy([x]))
  }

  /** The cache holds the instance as read and the registry holds it as started. */
  predicate Stuck(s: Source, remote: Cache, x: Instance) {
    !s.stopped && s.cache == map[IdentityKey(x) := x] && At(remote, IdentityKey(x)) == Some(Started(x))
  }

  lemma FirstRead(s: Source, x: Instance)
    requires !s.stopped && s.cache == map[]
    ensures Synced(s, Healthy([x])).cache == map[IdentityKey(x) := x]
  {
    assert Matches(s.cache, IdentityKey(x)) == {};
    OneLoaded(s.cache, x);
  }

  lemma FirstReadSticks(s: Source, remote: Cache, x: Instance)
    requires !s.stopped && s.cache == map[] && Accepted(x)
    ensures Stuck(Do(s, Sync(Healthy([x]))), Registry(s, Sync(Healthy([x])), remote), x)
  {
    FirstRead(s, x);
    assert Matches(s.cache, IdentityKey(x)) == {};
    ReplayAt(s.cache, Synced(s, Healthy([x])).cache, remote, IdentityKey(x));
  }

  /** Without a change nothing goes out for a cached identity. */
  lemma SameReplay(c: Cache, remote: Cache, k: Key)
    requires CacheOk(c) && k in c
    ensures At(Replayed(c, c, remote), k) == At(remote, k)
  {
    GetFinds(c, k);
    ReplayAt(c, c, remote, k);
  }

  lemma RereadSticks(s: Source, remote: Cache, x: Instance)
    requires Accepted(x) && Stuck(s, remote, x)
    ensures Stuck(Do(s, Sync(Healthy([x]))), Registry(s, Sync(Healthy([x])), remote), x)
  {
    OneLoaded(s.cache, x);
    SameReplay(s.cache, remote, IdentityKey(x));
  }

  lemma {:induction false} StuckAlong(tr: Trace, registries: seq<Cache>, x: Instance, i: nat)
    requires IsTrace(tr) && Follows(tr, registries) && Rereads(tr, x) && Accepted(x) && 0 < i < |tr.states|
    ensures Stuck(tr.states[i], registries[i], x)
  {
    if i == 1 {
      FirstReadSticks(tr.states[0], registries[0], x);
    } else {
      StuckAlong(tr, registries, x, i - 1);
      RereadSticks(tr.states[i - 1], registries[i - 1], x);
    }
    assert tr.actions[i - 1] == Sync(Healthy([x]));
  }

  lemma StuckIsNoMirror(s: Source, remote: Cache, x: Instance)
    requires Stuck(s, remote, x) && Accepted(x) && x.status == UNHEALTHY
    ensures !Mirrors(remote, s.cache, IdentityKey(x))
  {
    assert CanonicalPayload(Started(x)).status != CanonicalPayload(x).status;
  }

  /** A newcomer read as unhealthy is registered as online and running, and stays so however often
      the same catalog is read again. */
  lemma UnhealthyNewcomer(tr: Trace, registries: seq<Cache>, x: Instance, i: nat)
    requires IsTrace(tr) && Follows(tr, registries) && Rereads(tr, x) && 0 < i < |tr.states|
    requires Accepted(x) && x.status == UNHEALTHY
    ensures Stuck(tr.states[i], registries[i], x) && !MirrorsAt(tr, registries, i, IdentityKey(x))
  {
    StuckAlong(tr, registries, x, i);
    StuckIsNoMirror(tr.states[i], registries[i], x);
  }

  /** A full push that reads the one instance the cache holds publishes exactly that instance, if it is
      online or unhealthy, and nothing otherwise. */
  lemma LonePush(s: Source, x: Instance, remote: Cache)
    requires s.cache == map[IdentityKey(x) := x]
    ensures Registry(s, FullPush(Healthy([x])), remote) ==
      if x.status == ONLINE || x.status == UNHEALTHY then s.cache else map[]
    ensures Do(s, FullPush(Healthy([x]))).cache == s.cache
  {
    OneLoaded(s.cache, x);
  }

  /** The unhealthy newcomer to an empty cache is corrected by the next full push of the same catalog,
      whatever the registry made of it. */
  lemma NewcomerIsHealed(s: Source, x: Instance, remote: Cache)
    requires !s.stopped && s.cache == map[] && Accepted(x) && x.status == UNHEALTHY
    ensures var k, t, a := IdentityKey(x), Synced(s, Healthy([x])), FullPush(Healthy([x]));
      At(Registry(t, a, remote), k) == Some(x) && Mirrors(Registry(t, a, remote), Do(t, a).cache, k)
  {
    FirstRead(s, x);
    LonePush(Synced(s, Healthy([x])), x, remote);
  }
}
