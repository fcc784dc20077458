/** The provider-independent instance model (internal/domain/instance) and the
    identity key every ledger, queue and cache below is indexed by. */
module Instances {

  datatype Option<+T> = None | Some(value: T)

  type Key = string

  // Status values. Any other number is treated like UNKNOWN by every consumer.
  const UNKNOWN := 0
  const ONLINE := 1
  const UNHEALTHY := 2
  const OFFLINE := 3

  type int32 = n: int | -0x8000_0000 <= n < 0x8000_0000 witness 0

  datatype PortInfo = PortInfo(name: string, protocol: string, port: int32, servicePort: int)

  /** One instance. A Go nil slice is the empty sequence; nil maps are kept apart
      (`None`) because the canonical payload has to normalise them. */
  datatype Instance = Instance(
    sourceKey: string,
    sourceCluster: string,
    instanceId: string,
    level: string,
    ports: seq<Option<PortInfo>>,
    ip: string,
    envCode: string,
    envType: string,
    envGroup: string,
    cluster: string,
    version: string,
    enabled: bool,
    state: string,
    healthState: string,
    appCode: string,
    provider: string,
    labels: Option<map<string, string>>,
    hostname: string,
    cpu: real,
    memory: int,
    disk: int,
    os: string,
    images: Option<map<string, string>>,
    idc: string,
    reversion: int,
    status: int)

  /** A slice of instance references: `None` is a nil element. */
  type Items = seq<Option<Instance>>

  /** Go map lookup: a nil map and a missing key both read as "". */
  function Lookup(m: Option<map<string, string>>, name: string): string {
    if m.Some? && name in m.value then m.value[name] else ""
  }

  function IdentityKey(ins: Instance): Key {
    if ins.sourceKey != "" then ins.sourceKey
    else if Lookup(ins.labels, "sourceKey") != "" then Lookup(ins.labels, "sourceKey")
    else if ins.provider == "" then ins.instanceId
    else ins.provider + ":" + ins.instanceId
  }

  /** The non-nil elements, in order. */
  function Present(items: Items): seq<Instance> {
    if items == [] then []
    else
      var rest := Present(items[..|items| - 1]);
      var last := items[|items| - 1];
      if last.Some? then rest + [last.value] else rest
  }

  function KeysOf(items: seq<Instance>): set<Key> {
    set x | x in items :: IdentityKey(x)
  }

  predicate DistinctKeys(items: seq<Instance>) {
    forall i, j :: 0 <= i < j < |items| ==> IdentityKey(items[i]) != IdentityKey(items[j])
  }

  /** Exactly the non-nil elements are present. */
  lemma {:induction false} PresentElements(items: Items)
    ensures forall x :: x in Present(items) <==> Some(x) in items
  {
    if items != [] {
      var prefix, last := items[..|items| - 1], items[|items| - 1];
      PresentElements(prefix);
      assert items == prefix + [last];
    }
  }

  predicate Increasing(at: seq<nat>) { forall m, n :: 0 <= m < n < |at| ==> at[m] < at[n] }

  /** `kept` is what `items` holds at the given positions, in order. */
  ghost predicate Picked<T>(items: seq<T>, at: seq<nat>, kept: seq<T>) {
    && Increasing(at) && |at| == |kept|
    && forall n :: 0 <= n < |at| ==> at[n] < |items| && items[at[n]] == kept[n]
  }

  lemma PickMore<T>(items: seq<T>, at: seq<nat>, kept: seq<T>, x: T)
    requires Picked(items, at, kept)
    ensures Picked(items + [x], at, kept)
    ensures Picked(items + [x], at + [|items|], kept + [x])
  {
  }

  /** The non-nil elements keep their order: they stand at increasing positions, and none is left out. */
  lemma {:induction false} PresentPositions(items: Items) returns (at: seq<nat>)
    ensures Picked(items, at, Somes(Present(items)))
    ensures forall i :: 0 <= i < |items| && items[i].Some? ==> i in at
  {
    if items == [] {
      at := [];
    } else {
      var n := |items| - 1;
      at := PresentPositions(items[..n]);
      assert items == items[..n] + [items[n]];
      PickMore(items[..n], at, Somes(Present(items[..n])), items[n]);
      forall i | 0 <= i < n && items[i].Some?
        ensures i in at
      {
        assert items[..n][i] == items[i];
      }
      if items[n].Some? {
        assert Somes(Present(items)) == Somes(Present(items[..n])) + [items[n]];
        at := at + [n];
      }
    }
  }

  function Somes(items: seq<Instance>): Items { seq(|items|, i requires 0 <= i < |items| => Some(items[i])) }

  // ---------------------------------------------------------------- identities

  /** The instance names its source, in a field or in a label. */
  predicate NamesSource(x: Instance, key: string) {
    key != "" &&
    (x.sourceKey == key ||
      (x.sourceKey == "" && x.labels.Some? && "sourceKey" in x.labels.value && x.labels.value["sourceKey"] == key))
  }

  lemma SourceIsIdentity(x: Instance, key: string)
    requires NamesSource(x, key)
    ensures IdentityKey(x) == key
  {
  }

  lemma ColonSplits(a: string, x: string, b: string, y: string)
    requires ':' !in a && ':' !in b && a + ":" + x == b + ":" + y
    ensures a == b && x == y
  {
    var s := a + ":" + x;
    assert s[|a|] == ':' && s[|b|] == ':';
    assert |a| == |b|;
    assert a == s[..|a|] && b == s[..|b|] && x == s[|a| + 1..] && y == s[|b| + 1..];
  }

  /** Without a source the identity is the provider and the wire id: instances of two providers never
      share one, and a bare wire id is taken for a qualified one only if it spells it out. */
  lemma BareIdentities(x: Instance, y: Instance)
    requires forall key :: !NamesSource(x, key) && !NamesSource(y, key)
    requires ':' !in x.provider && ':' !in y.provider
    ensures IdentityKey(x) == IdentityKey(y) <==>
      || (x.provider == y.provider && x.instanceId == y.instanceId)
      || (x.provider == "" && y.provider != "" && x.instanceId == y.provider + ":" + y.instanceId)
      || (y.provider == "" && x.provider != "" && y.instanceId == x.provider + ":" + x.instanceId)
  {
    assert !NamesSource(x, x.sourceKey) && !NamesSource(y, y.sourceKey);
    assert !NamesSource(x, Lookup(x.labels, "sourceKey")) && !NamesSource(y, Lookup(y.labels, "sourceKey"));
    if IdentityKey(x) == IdentityKey(y) && x.provider != "" && y.provider != "" {
      ColonSplits(x.provider, x.instanceId, y.provider, y.instanceId);
    }
  }
}
