/** Three-way comparison of a provider's list with a registry's (internal/domain/instance/rules.go).
    A reference into a slice is its index. */
module ThreeWay {
  import opened Instances

  type Policy = (Instance, Instance) -> bool

  predicate At(items: Items, i: int) { 0 <= i < |items| && items[i].Some? }

  function KeyAt(items: Items, i: nat): Key
    requires At(items, i)
  {
    IdentityKey(items[i].value)
  }

  function WireAt(items: Items, i: nat): string
    requires At(items, i)
  {
    items[i].value.instanceId
  }

  predicate Legacy(ins: Instance) {
    ins.sourceKey == "" && ins.sourceCluster == "" && Lookup(ins.labels, "sourceKey") == "" &&
      Lookup(ins.labels, "sourceCluster") == ""
  }

  /** The instance does not know its source: neither field is set, and no label names one. */
  predicate Sourceless(ins: Instance) {
    && ins.sourceKey == "" && ins.sourceCluster == ""
    && forall name :: name in ["sourceKey", "sourceCluster"] ==>
         !(ins.labels.Some? && name in ins.labels.value && ins.labels.value[name] != "")
  }

  lemma LegacyIsSourceless(ins: Instance)
    ensures Legacy(ins) <==> Sourceless(ins)
  {
    assert "sourceKey" in ["sourceKey", "sourceCluster"] && "sourceCluster" in ["sourceKey", "sourceCluster"];
  }

  // ---------------------------------------------------------------- the two indexes

  /** Every identity leads to its last occurrence. */
  ghost predicate IndexesKeys(m: map<Key, nat>, items: Items) {
    && (forall i: nat :: At(items, i) ==> KeyAt(items, i) in m)
    && (forall k :: k in m ==> At(items, m[k]) && KeyAt(items, m[k]) == k)
    && (forall i: nat :: At(items, i) ==> i <= m[KeyAt(items, i)])
  }

  method ListToMap(items: Items) returns (m: map<Key, nat>)
    ensures IndexesKeys(m, items)
  {
    m := map[];
    for i := 0 to |items|
      invariant forall k :: k in m ==> m[k] < i && At(items, m[k]) && KeyAt(items, m[k]) == k
      invariant forall j: nat :: j < i && At(items, j) ==> KeyAt(items, j) in m && j <= m[KeyAt(items, j)]
    {
      if items[i].Some? {
        m := m[IdentityKey(items[i].value) := i];
      }
    }
  }

  /** A wire id that is not empty and occurs once. */
  ghost predicate OnlyWire(items: Items, i: nat) {
    && At(items, i) && WireAt(items, i) != ""
    && forall j: nat :: At(items, j) && j != i ==> WireAt(items, j) != WireAt(items, i)
  }

  ghost predicate IndexesWires(m: map<string, nat>, items: Items) {
    && (forall i: nat :: OnlyWire(items, i) ==> WireAt(items, i) in m)
    && (forall w :: w in m ==> OnlyWire(items, m[w]) && WireAt(items, m[w]) == w)
  }

  ghost predicate Twice(items: Items, n: nat, w: string) {
    exists i: nat, j: nat :: i < j < n && At(items, i) && At(items, j) && WireAt(items, i) == w && WireAt(items, j) == w
  }

  ghost predicate Once(items: Items, n: nat, w: string, i: nat) {
    && i < n && At(items, i) && WireAt(items, i) == w && w != ""
    && forall j: nat :: j < n && At(items, j) && j != i ==> WireAt(items, j) != w
  }

  /** What the scan knows after `n` elements. */
  ghost predicate Scanned(items: Items, n: nat, result: map<string, nat>, duplicates: set<string>) {
    && (forall w :: w in result ==> Once(items, n, w, result[w]))
    && (forall w :: w in duplicates ==> Twice(items, n, w))
    && (forall i: nat :: i < n && At(items, i) && WireAt(items, i) != "" ==>
      WireAt(items, i) in result || WireAt(items, i) in duplicates)
  }

  lemma ScanSkips(items: Items, n: nat, result: map<string, nat>, duplicates: set<string>)
    requires n < |items| && Scanned(items, n, result, duplicates)
    requires items[n].None? || WireAt(items, n) == "" || WireAt(items, n) in duplicates
    ensures Scanned(items, n + 1, result, duplicates)
  {
    forall w | w in duplicates
      ensures Twice(items, n + 1, w)
    {
      assert Twice(items, n, w);
    }
  }

  lemma ScanRepeats(items: Items, n: nat, result: map<string, nat>, duplicates: set<string>)
    requires n < |items| && Scanned(items, n, result, duplicates)
    requires At(items, n) && WireAt(items, n) != "" && WireAt(items, n) in result
    ensures Scanned(items, n + 1, result - {WireAt(items, n)}, duplicates + {WireAt(items, n)})
  {
    var v := WireAt(items, n);
    assert Once(items, n, v, result[v]);
    assert Twice(items, n + 1, v);
    forall w | w in duplicates
      ensures Twice(items, n + 1, w)
    {
      assert Twice(items, n, w);
    }
  }

  lemma ScanFinds(items: Items, n: nat, result: map<string, nat>, duplicates: set<string>)
    requires n < |items| && Scanned(items, n, result, duplicates)
    requires At(items, n) && WireAt(items, n) != "" && WireAt(items, n) !in result && WireAt(items, n) !in duplicates
    ensures Scanned(items, n + 1, result[WireAt(items, n) := n], duplicates)
  {
    forall w | w in duplicates
      ensures Twice(items, n + 1, w)
    {
      assert Twice(items, n, w);
    }
  }

  method UniqueWireIds(items: Items) returns (result: map<string, nat>)
    ensures IndexesWires(result, items)
  {
    result := map[];
    var duplicates: set<string> := {};
    for i := 0 to |items|
      invariant Scanned(items, i, result, duplicates)
    {
      if items[i].None? || items[i].value.instanceId == "" || items[i].value.instanceId in duplicates {
        ScanSkips(items, i, result, duplicates);
        continue;
      }
      var wire := items[i].value.instanceId;
      if wire in result {
        ScanRepeats(items, i, result, duplicates);
        result, duplicates := result - {wire}, duplicates + {wire};
        continue;
      }
      ScanFinds(items, i, result, duplicates);
      result := result[wire := i];
    }
    ScanIsExact(items, result, duplicates);
  }

  lemma ScanIsExact(items: Items, result: map<string, nat>, duplicates: set<string>)
    requires Scanned(items, |items|, result, duplicates)
    ensures IndexesWires(result, items)
  {
    forall i: nat | OnlyWire(items, i)
      ensures WireAt(items, i) in result
    {
      assert WireAt(items, i) in duplicates ==> Twice(items, |items|, WireAt(items, i));
    }
    forall w | w in result
      ensures OnlyWire(items, result[w]) && WireAt(items, result[w]) == w
    {
      assert Once(items, |items|, w, result[w]);
    }
  }

  // ---------------------------------------------------------------- matching

  datatype Indexes = Indexes(
    provider: map<Key, nat>, remote: map<Key, nat>, providerWires: map<string, nat>, remoteWires: map<string, nat>)

  ghost predicate Of(x: Indexes, p: Items, r: Items) {
    IndexesKeys(x.provider, p) && IndexesKeys(x.remote, r) && IndexesWires(x.providerWires, p) &&
      IndexesWires(x.remoteWires, r)
  }

  /** The wire id of both sides is unique, and one of the two does not know its source. */
  predicate Falls(x: Indexes, p: Items, r: Items, w: string) {
    && w in x.providerWires && w in x.remoteWires
    && At(p, x.providerWires[w]) && At(r, x.remoteWires[w])
    && (Sourceless(p[x.providerWires[w]].value) || Sourceless(r[x.remoteWires[w]].value))
  }

  function Match(x: Indexes, p: Items, r: Items, i: nat): Option<nat>
    requires At(p, i)
  {
    var w := WireAt(p, i);
    if KeyAt(p, i) in x.remote then Some(x.remote[KeyAt(p, i)])
    else if Falls(x, p, r, w) && x.providerWires[w] == i then Some(x.remoteWires[w])
    else None
  }

  predicate Excluded(x: Indexes, p: Items, r: Items, j: nat)
    requires At(r, j)
  {
    var w := WireAt(r, j);
    KeyAt(r, j) in x.provider || (Falls(x, p, r, w) && x.remoteWires[w] == j)
  }

  predicate IsOnly(x: Indexes, p: Items, r: Items, i: nat)
    requires At(p, i)
  {
    Match(x, p, r, i).None?
  }

  predicate IsChanged(x: Indexes, p: Items, r: Items, diff: Option<Policy>, i: nat)
    requires At(p, i)
  {
    && Match(x, p, r, i).Some? && At(r, Match(x, p, r, i).value)
    && diff.Some? && diff.value(r[Match(x, p, r, i).value].value, p[i].value)
  }

  function ProviderOnly(x: Indexes, p: Items, r: Items, n: nat): seq<Instance>
    requires n <= |p|
  {
    if n == 0 then []
    else ProviderOnly(x, p, r, n - 1) + if At(p, n - 1) && IsOnly(x, p, r, n - 1) then [p[n - 1].value] else []
  }

  function Changed(x: Indexes, p: Items, r: Items, diff: Option<Policy>, n: nat): seq<Instance>
    requires n <= |p|
  {
    if n == 0 then []
    else
      Changed(x, p, r, diff, n - 1) +
      if At(p, n - 1) && IsChanged(x, p, r, diff, n - 1) then [p[n - 1].value] else []
  }

  function RemoteOnly(x: Indexes, p: Items, r: Items, n: nat): seq<Instance>
    requires n <= |r|
  {
    if n == 0 then []
    else RemoteOnly(x, p, r, n - 1) + if At(r, n - 1) && !Excluded(x, p, r, n - 1) then [r[n - 1].value] else []
  }

  /** Both outputs of a side keep that side's order. */
  method CompareThreeWay(provider: Items, remote: Items, diff: Option<Policy>)
    returns (providerOnly: seq<Instance>, remoteOnly: seq<Instance>, changed: seq<Instance>, x: Indexes)
    ensures Of(x, provider, remote)
    ensures providerOnly == ProviderOnly(x, provider, remote, |provider|)
    ensures changed == Changed(x, provider, remote, diff, |provider|)
    ensures remoteOnly == RemoteOnly(x, provider, remote, |remote|)
  {
    var remoteById := ListToMap(remote);
    var providerById := ListToMap(provider);
    var legacyRemote := UniqueWireIds(remote);
    var legacyProvider := UniqueWireIds(provider);
    x := Indexes(providerById, remoteById, legacyProvider, legacyRemote);
    providerOnly, changed := CompareProvider(x, provider, remote, diff);
    remoteOnly := CompareRemote(x, provider, remote);
  }

  /** Every index entry leads to an instance. */
  ghost predicate Inside(x: Indexes, p: Items, r: Items) {
    && (forall k :: k in x.remote ==> At(r, x.remote[k]))
    && (forall w :: w in x.providerWires ==> At(p, x.providerWires[w]))
    && (forall w :: w in x.remoteWires ==> At(r, x.remoteWires[w]))
  }

  method CompareProvider(x: Indexes, provider: Items, remote: Items, diff: Option<Policy>)
    returns (providerOnly: seq<Instance>, changed: seq<Instance>)
    requires Inside(x, provider, remote)
    ensures providerOnly == ProviderOnly(x, provider, remote, |provider|)
    ensures changed == Changed(x, provider, remote, diff, |provider|)
  {
    providerOnly, changed := [], [];
    for i := 0 to |provider|
      invariant providerOnly == ProviderOnly(x, provider, remote, i)
      invariant changed == Changed(x, provider, remote, diff, i)
    {
      if provider[i].None? {
        continue;
      }
      var current := provider[i].value;
      var key, w := IdentityKey(current), current.instanceId;
      var other := if key in x.remote then Some(x.remote[key]) else None;
      if other.None? && w in x.providerWires && x.providerWires[w] == i && w in x.remoteWires {
        var candidate := remote[x.remoteWires[w]].value;
        LegacyIsSourceless(current);
        LegacyIsSourceless(candidate);
        if Legacy(current) || Legacy(candidate) {
          other := Some(x.remoteWires[w]);
        }
      }
      if other.None? {
        providerOnly := providerOnly + [current];
        continue;
      }
      if diff.Some? && diff.value(remote[other.value].value, current) {
        changed := changed + [current];
      }
    }
  }

  method CompareRemote(x: Indexes, provider: Items, remote: Items) returns (remoteOnly: seq<Instance>)
    requires Inside(x, provider, remote)
    ensures remoteOnly == RemoteOnly(x, provider, remote, |remote|)
  {
    remoteOnly := [];
    for j := 0 to |remote|
      invariant remoteOnly == RemoteOnly(x, provider, remote, j)
    {
      if remote[j].None? {
        continue;
      }
      var current := remote[j].value;
      var w := current.instanceId;
      LegacyIsSourceless(current);
      if w in x.providerWires {
        LegacyIsSourceless(provider[x.providerWires[w]].value);
      }
      if IdentityKey(current) !in x.provider &&
         !(w in x.remoteWires && x.remoteWires[w] == j && w in x.providerWires &&
           (Legacy(current) || Legacy(provider[x.providerWires[w]].value))) {
        remoteOnly := remoteOnly + [current];
      }
    }
  }

  // ---------------------------------------------------------------- what the matching is

  ghost predicate DistinctAt(items: Items) {
    forall i: nat, j: nat :: At(items, i) && At(items, j) && i != j ==> KeyAt(items, i) != KeyAt(items, j)
  }

  /** Equal identities carry equal wire ids. */
  ghost predicate SameWires(p: Items, r: Items) {
    forall i: nat, j: nat :: At(p, i) && At(r, j) && KeyAt(p, i) == KeyAt(r, j) ==> WireAt(p, i) == WireAt(r, j)
  }

  lemma MatchIsReal(x: Indexes, p: Items, r: Items, i: nat)
    requires Of(x, p, r) && At(p, i) && Match(x, p, r, i).Some?
    ensures var j := Match(x, p, r, i).value;
      At(r, j) && (KeyAt(r, j) == KeyAt(p, i) || WireAt(r, j) == WireAt(p, i))
  {
  }

  lemma MatchKeepsWire(x: Indexes, p: Items, r: Items, i: nat)
    requires Of(x, p, r) && SameWires(p, r) && At(p, i) && Match(x, p, r, i).Some?
    ensures At(r, Match(x, p, r, i).value) && WireAt(r, Match(x, p, r, i).value) == WireAt(p, i)
    ensures KeyAt(p, i) in x.remote || OnlyWire(p, i)
  {
    MatchIsReal(x, p, r, i);
    if KeyAt(p, i) in x.remote {
      assert KeyAt(r, Match(x, p, r, i).value) == KeyAt(p, i);
    }
  }

  /** No remote instance is matched twice. */
  lemma MatchIsInjective(x: Indexes, p: Items, r: Items, i: nat, i': nat)
    requires Of(x, p, r) && DistinctAt(p) && SameWires(p, r)
    requires At(p, i) && At(p, i') && Match(x, p, r, i).Some? && Match(x, p, r, i) == Match(x, p, r, i')
    ensures i == i'
  {
    MatchKeepsWire(x, p, r, i);
    MatchKeepsWire(x, p, r, i');
    if !OnlyWire(p, i) && !OnlyWire(p, i') {
      SharedKey(x.remote, r, KeyAt(p, i), KeyAt(p, i'));
    }
  }

  lemma SharedKey(m: map<Key, nat>, items: Items, k: Key, k': Key)
    requires IndexesKeys(m, items) && k in m && k' in m && m[k] == m[k']
    ensures k == k'
  {
  }

  /** Two provider instances reach `j`: one by identity, one by a unique wire id of its own. */
  predicate Shared(x: Indexes, p: Items, r: Items, j: nat)
    requires At(r, j)
  {
    var k, w := KeyAt(r, j), WireAt(r, j);
    && k in x.provider && k in x.remote && x.remote[k] == j
    && Falls(x, p, r, w) && x.remoteWires[w] == j && KeyAt(p, x.providerWires[w]) !in x.remote
  }

  lemma PartnersAreMixed(x: Indexes, p: Items, r: Items, j: nat, i: nat, i': nat)
    requires Of(x, p, r) && DistinctAt(p) && At(r, j) && At(p, i) && At(p, i') && i != i'
    requires Match(x, p, r, i) == Some(j) && Match(x, p, r, i') == Some(j)
    ensures Shared(x, p, r, j)
  {
    if KeyAt(p, i) in x.remote && KeyAt(p, i') in x.remote {
      SharedKey(x.remote, r, KeyAt(p, i), KeyAt(p, i'));
    }
  }

  /** With distinct provider identities, a remote instance has two partners exactly when it is shared. */
  lemma SharedPartner(x: Indexes, p: Items, r: Items, j: nat)
    requires Of(x, p, r) && DistinctAt(p) && At(r, j)
    ensures Shared(x, p, r, j) <==>
      exists i: nat, i': nat ::
        i != i' && At(p, i) && At(p, i') && Match(x, p, r, i) == Some(j) && Match(x, p, r, i') == Some(j)
  {
    if Shared(x, p, r, j) {
      var i, i' := x.provider[KeyAt(r, j)], x.providerWires[WireAt(r, j)];
      assert KeyAt(p, i) == KeyAt(r, j);
      assert Match(x, p, r, i) == Some(j) && Match(x, p, r, i') == Some(j);
    } else if i: nat, i': nat :|
        i != i' && At(p, i) && At(p, i') && Match(x, p, r, i) == Some(j) && Match(x, p, r, i') == Some(j) {
      PartnersAreMixed(x, p, r, j, i, i');
    }
  }

  /** Such an input: `a` matches `b` by identity, and the legacy `c` matches `b` by its wire id. */
  lemma SharedInstance(a: Instance, b: Instance, c: Instance, x: Indexes)
    requires IdentityKey(a) == IdentityKey(b) != IdentityKey(c)
    requires b.instanceId == c.instanceId && b.instanceId != "" && a.instanceId != b.instanceId && Sourceless(c)
    requires Of(x, [Some(a), Some(c)], [Some(b)])
    ensures Match(x, [Some(a), Some(c)], [Some(b)], 0) == Match(x, [Some(a), Some(c)], [Some(b)], 1) == Some(0)
  {
    var p: Items, r: Items := [Some(a), Some(c)], [Some(b)];
    assert KeyAt(p, 0) == KeyAt(r, 0);
    assert OnlyWire(p, 1) && OnlyWire(r, 0);
  }

  /** The pair that the fallback would join although the provider item has its own identity match. */
  predicate Swallows(x: Indexes, p: Items, r: Items, j: nat)
    requires At(r, j)
  {
    var w := WireAt(r, j);
    && KeyAt(r, j) !in x.provider && Falls(x, p, r, w) && x.remoteWires[w] == j
    && KeyAt(p, x.providerWires[w]) in x.remote
  }

  ghost predicate Matched(x: Indexes, p: Items, r: Items, j: nat) {
    exists i: nat :: At(p, i) && Match(x, p, r, i) == Some(j)
  }

  lemma MatchedIsExcluded(x: Indexes, p: Items, r: Items, i: nat, j: nat)
    requires Of(x, p, r) && At(p, i) && At(r, j) && Match(x, p, r, i) == Some(j)
    ensures Excluded(x, p, r, j)
  {
    if KeyAt(p, i) in x.remote {
      assert KeyAt(r, j) == KeyAt(p, i);
    }
  }

  lemma ExcludedIsMatched(x: Indexes, p: Items, r: Items, j: nat)
    requires Of(x, p, r) && DistinctAt(r) && At(r, j)
    requires Excluded(x, p, r, j) && !Swallows(x, p, r, j)
    ensures Matched(x, p, r, j)
  {
    if KeyAt(r, j) in x.provider {
      var i := x.provider[KeyAt(r, j)];
      assert Match(x, p, r, i) == Some(j);
    } else {
      var i := x.providerWires[WireAt(r, j)];
      assert Match(x, p, r, i) == Some(j);
    }
  }

  lemma SwallowedIsUnmatched(x: Indexes, p: Items, r: Items, j: nat, i: nat)
    requires Of(x, p, r) && At(r, j) && At(p, i) && Swallows(x, p, r, j)
    ensures Match(x, p, r, i) != Some(j)
  {
  }

  /** With distinct identities, a remote instance is kept out of `remoteOnly` exactly when some
      provider instance matched it, or when it is swallowed: its unique wire id belongs to a provider
      instance that matched another remote instance by identity. */
  lemma RemoteOnlyIsUnmatched(x: Indexes, p: Items, r: Items, j: nat)
    requires Of(x, p, r) && DistinctAt(r) && At(r, j)
    ensures Excluded(x, p, r, j) <==> Matched(x, p, r, j) || Swallows(x, p, r, j)
    ensures !(Matched(x, p, r, j) && Swallows(x, p, r, j))
  {
    if Matched(x, p, r, j) {
      var i: nat :| At(p, i) && Match(x, p, r, i) == Some(j);
      MatchedIsExcluded(x, p, r, i, j);
      if Swallows(x, p, r, j) {
        SwallowedIsUnmatched(x, p, r, j, i);
      }
    } else if Excluded(x, p, r, j) && !Swallows(x, p, r, j) {
      ExcludedIsMatched(x, p, r, j);
    }
  }

  /** Equal identities with equal wire ids shut that out. */
  lemma NothingIsSwallowed(x: Indexes, p: Items, r: Items, j: nat)
    requires Of(x, p, r) && SameWires(p, r) && At(r, j)
    ensures !Swallows(x, p, r, j)
  {
  }

  /** A partial bijection: every provider instance is alone or has one partner, partners are never
      shared, and the remote instances without a partner are exactly the remote-only ones. */
  lemma PartialBijection(x: Indexes, p: Items, r: Items)
    requires Of(x, p, r) && DistinctAt(p) && DistinctAt(r) && SameWires(p, r)
    ensures forall i: nat, i': nat ::
      At(p, i) && At(p, i') && !IsOnly(x, p, r, i) && Match(x, p, r, i) == Match(x, p, r, i') ==> i == i'
    ensures forall i: nat :: At(p, i) && !IsOnly(x, p, r, i) ==> At(r, Match(x, p, r, i).value)
    ensures forall j: nat :: At(r, j) ==> (!Excluded(x, p, r, j) <==> !Matched(x, p, r, j))
  {
    forall i: nat, i': nat | At(p, i) && At(p, i') && !IsOnly(x, p, r, i) && Match(x, p, r, i) == Match(x, p, r, i')
      ensures i == i'
    {
      MatchIsInjective(x, p, r, i, i');
    }
    forall i: nat | At(p, i) && !IsOnly(x, p, r, i)
      ensures At(r, Match(x, p, r, i).value)
    {
      MatchIsReal(x, p, r, i);
    }
    forall j: nat | At(r, j)
      ensures !Excluded(x, p, r, j) <==> !Matched(x, p, r, j)
    {
      RemoteOnlyIsUnmatched(x, p, r, j);
      NothingIsSwallowed(x, p, r, j);
    }
  }

  /** Without that agreement a stray remote instance is reported nowhere: `a` matches `b` by identity
      while the unmatched `c` shares the wire id of `a`. */
  lemma SwallowedInstance(a: Instance, b: Instance, c: Instance, x: Indexes)
    requires IdentityKey(a) == IdentityKey(b) != IdentityKey(c)
    requires a.instanceId == c.instanceId && a.instanceId != "" && b.instanceId != a.instanceId && Sourceless(c)
    requires Of(x, [Some(a)], [Some(b), Some(c)])
    ensures Match(x, [Some(a)], [Some(b), Some(c)], 0) == Some(0)
    ensures RemoteOnly(x, [Some(a)], [Some(b), Some(c)], 2) == []
    ensures !Matched(x, [Some(a)], [Some(b), Some(c)], 1)
  {
    var p: Items, r: Items := [Some(a)], [Some(b), Some(c)];
    assert KeyAt(p, 0) == KeyAt(r, 0);
    assert OnlyWire(p, 0) && OnlyWire(r, 1);
    assert Excluded(x, p, r, 0) && Excluded(x, p, r, 1);
    assert RemoteOnly(x, p, r, 1) == [];
  }
}
