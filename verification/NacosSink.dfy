/** Full pushes to Nacos (pkg/nacos/nacos.go): apply a snapshot, then prune what
    it no longer wants. The remote catalog is a map; every remote call is answered
    from outside, so all failure patterns, lost acknowledgements and stale reads
    are covered. SDK transport. */
module NacosSink {
  import opened Instances
  import opened Errors
  import opened Wire
  import opened Batches

  /** The unit of listing and pruning. */
  datatype Pair = Pair(service: string, cluster: string)

  type Catalog = map<Loc, Host>

  /** The answer to one mutating call. `Lost` took effect, but reported an error. */
  datatype Answer = Done | Rejected(err: Err) | Lost(err: Err)

  /** A host as the registry lists it, under an id of the registry's making. */
  datatype Listed = Listed(id: string, host: Host)

  datatype Listing = Hosts(hosts: seq<Listed>) | NotFound | ListFailed(err: Err)

  /** What the calls of one prune answer: the owned instances of a cluster, whether a read session
      opens, the hosts of a pair, and the deregistrations. Reads may lag behind the catalog. */
  datatype View = View(
    discover: string -> Option<seq<Instance>>,
    session: bool,
    list: Pair -> Listing,
    deregister: Loc -> Answer)

  function PairOf(ins: Instance): Pair { Pair(ins.appCode, ClusterOf(ins)) }

  function LocAt(service: string, host: Host): Loc { Loc(service, host.cluster, host.ip, host.port) }

  /** The group the sink works in: one, whichever it is. */
  const GROUP: string

  /** The composite id of a location, and of the location of an instance. */
  function IdAt(loc: Loc): string { CompositeId(loc, GROUP) }

  function WireId(ins: Instance): string { IdAt(LocOf(ins)) }

  /** The snapshot wants this instance registered: it is online or unhealthy. */
  predicate Wants(x: Instance) { x.status == ONLINE || x.status == UNHEALTHY }

  /** Instances of any other status than these take no part in a push. */
  predicate Participates(x: Instance) { x.status == ONLINE || x.status == UNHEALTHY || x.status == OFFLINE }

  // ---------------------------------------------------------------- validation

  function OwnerScope(ins: Instance): string {
    if ins.sourceCluster != "" then "source-cluster:" + ins.sourceCluster
    else "source-identity:" + IdentityKey(ins)
  }

  /** Both come from one source cluster, or neither knows its cluster and they are the same identity. */
  predicate SameSource(x: Instance, y: Instance) {
    if x.sourceCluster != "" || y.sourceCluster != "" then x.sourceCluster == y.sourceCluster
    else IdentityKey(x) == IdentityKey(y)
  }

  /** A recorded owner is the instance's source cluster, or its identity when it has none. */
  predicate OwnedBy(owner: string, x: Instance) {
    if x.sourceCluster != "" then owner == "source-cluster:" + x.sourceCluster
    else owner == "source-identity:" + IdentityKey(x)
  }

  lemma SamePrefix(prefix: string, a: string, b: string)
    ensures prefix + a == prefix + b <==> a == b
  {
    if prefix + a == prefix + b {
      assert a == (prefix + a)[|prefix|..] && b == (prefix + b)[|prefix|..];
    }
  }

  lemma FormsDiffer(a: string, b: string)
    ensures "source-cluster:" + a != "source-identity:" + b
  {
    assert ("source-cluster:" + a)[7] == 'c' && ("source-identity:" + b)[7] == 'i';
  }

  /** The two forms of an owner never coincide, so owners tell sources apart. */
  lemma OwnerIsSource(x: Instance, y: Instance)
    ensures OwnerScope(x) == OwnerScope(y) <==> SameSource(x, y)
    ensures OwnedBy(OwnerScope(y), x) <==> SameSource(x, y)
  {
    SamePrefix("source-cluster:", x.sourceCluster, y.sourceCluster);
    SamePrefix("source-identity:", IdentityKey(x), IdentityKey(y));
    FormsDiffer(x.sourceCluster, IdentityKey(y));
    FormsDiffer(y.sourceCluster, IdentityKey(x));
  }

  lemma OwnedByScope(owner: string, x: Instance)
    ensures OwnedBy(owner, x) <==> owner == OwnerScope(x)
  {
  }

  /** Any two participants that share a composite id come from the same source, and each is of the
      source that is recorded as the owner of its composite id, if one is. */
  ghost predicate NoCollision(items: seq<Instance>, owners: map<string, string>) {
    && (forall x, y :: x in items && y in items && Participates(x) && Participates(y) && WireId(x) == WireId(y) ==>
          SameSource(x, y))
    && (forall x :: x in items && Participates(x) && WireId(x) in owners && owners[WireId(x)] != "" ==>
          OwnedBy(owners[WireId(x)], x))
  }

  /** `seen` holds the source of every composite id met so far. */
  ghost predicate SeenIs(items: seq<Instance>, seen: map<string, string>) {
    && (forall x :: x in items && Participates(x) ==> WireId(x) in seen && seen[WireId(x)] == OwnerScope(x))
    && (forall id :: id in seen ==>
          exists x :: x in items && Participates(x) && WireId(x) == id && OwnerScope(x) == seen[id])
  }

  lemma SeenExtends(items: seq<Instance>, more: seq<Instance>, seen: map<string, string>, ins: Instance)
    requires SeenIs(items, seen) && Participates(ins)
    requires forall x :: x in more <==> x in items || x == ins
    requires WireId(ins) in seen ==> seen[WireId(ins)] == OwnerScope(ins)
    ensures SeenIs(more, seen[WireId(ins) := OwnerScope(ins)])
  {
    var seen' := seen[WireId(ins) := OwnerScope(ins)];
    forall x | x in more && Participates(x)
      ensures WireId(x) in seen' && seen'[WireId(x)] == OwnerScope(x)
    {
      assert x in items || x == ins;
    }
    forall id | id in seen'
      ensures exists x :: x in more && Participates(x) && WireId(x) == id && OwnerScope(x) == seen'[id]
    {
      if id == WireId(ins) {
        assert ins in more;
      } else {
        var x :| x in items && Participates(x) && WireId(x) == id && OwnerScope(x) == seen[id];
        assert x in more;
      }
    }
  }

  lemma CollisionFound(items: seq<Instance>, all: seq<Instance>, seen: map<string, string>, ins: Instance,
                       owners: map<string, string>)
    requires SeenIs(items, seen) && Participates(ins) && ins in all && forall x :: x in items ==> x in all
    requires WireId(ins) in seen && seen[WireId(ins)] != OwnerScope(ins)
    ensures !NoCollision(all, owners)
  {
    var x :| x in items && Participates(x) && WireId(x) == WireId(ins) && OwnerScope(x) == seen[WireId(ins)];
    assert x in all;
    OwnerIsSource(x, ins);
  }

  lemma NoCollisionExtends(items: seq<Instance>, more: seq<Instance>, seen: map<string, string>,
                           owners: map<string, string>)
    requires NoCollision(items, owners) && SeenIs(more, seen)
    requires forall x ::
      x in more && x !in items && Participates(x) && WireId(x) in owners && owners[WireId(x)] != "" ==>
      OwnedBy(owners[WireId(x)], x)
    ensures NoCollision(more, owners)
  {
    forall x, y | x in more && y in more && Participates(x) && Participates(y) && WireId(x) == WireId(y)
      ensures SameSource(x, y)
    {
      OwnerIsSource(x, y);
    }
  }

  /** The state of the validation loop after `i` slots. */
  ghost predicate ValidSoFar(instances: Items, i: nat, owners: map<string, string>, seen: map<string, string>)
    requires i <= |instances|
  {
    NoCollision(Present(instances[..i]), owners) && SeenIs(Present(instances[..i]), seen)
  }

  lemma ValidIgnores(instances: Items, i: nat, owners: map<string, string>, seen: map<string, string>)
    requires i < |instances| && ValidSoFar(instances, i, owners, seen)
    requires instances[i].None? || !Participates(instances[i].value)
    ensures ValidSoFar(instances, i + 1, owners, seen)
  {
    PresentGrows(instances, i);
    NoCollisionExtends(Present(instances[..i]), Present(instances[..i + 1]), seen, owners);
  }

  lemma ValidTakes(instances: Items, i: nat, owners: map<string, string>, seen: map<string, string>)
    requires i < |instances| && ValidSoFar(instances, i, owners, seen)
    requires instances[i].Some? && Participates(instances[i].value)
    requires var ins := instances[i].value;
      && (WireId(ins) in seen ==> seen[WireId(ins)] == OwnerScope(ins))
      && (WireId(ins) in owners && owners[WireId(ins)] != "" ==> owners[WireId(ins)] == OwnerScope(ins))
    ensures var ins := instances[i].value;
      ValidSoFar(instances, i + 1, owners, seen[WireId(ins) := OwnerScope(ins)])
  {
    var ins, items, more := instances[i].value, Present(instances[..i]), Present(instances[..i + 1]);
    PresentGrows(instances, i);
    SeenExtends(items, more, seen, ins);
    if WireId(ins) in owners {
      OwnedByScope(owners[WireId(ins)], ins);
    }
    NoCollisionExtends(items, more, seen[WireId(ins) := OwnerScope(ins)], owners);
  }

  lemma ValidRejects(instances: Items, i: nat, owners: map<string, string>, seen: map<string, string>)
    requires i < |instances| && ValidSoFar(instances, i, owners, seen)
    requires instances[i].Some? && Participates(instances[i].value)
    requires var ins := instances[i].value;
      || (WireId(ins) in seen && seen[WireId(ins)] != OwnerScope(ins))
      || (WireId(ins) in owners && owners[WireId(ins)] != "" && owners[WireId(ins)] != OwnerScope(ins))
    ensures !NoCollision(Present(instances), owners)
  {
    var ins := instances[i].value;
    PresentGrows(instances, i);
    if WireId(ins) in seen && seen[WireId(ins)] != OwnerScope(ins) {
      CollisionFound(Present(instances[..i]), Present(instances), seen, ins, owners);
    } else {
      OwnedByScope(owners[WireId(ins)], ins);
    }
  }

  method ValidateWireIdentitySet(instances: Items, owners: map<string, string>) returns (ok: bool)
    ensures ok <==> NoCollision(Present(instances), owners)
  {
    var seen: map<string, string> := map[];
    for i := 0 to |instances|
      invariant ValidSoFar(instances, i, owners, seen)
    {
      if instances[i].None? || OperationOf(instances[i].value.status).None? {
        ValidIgnores(instances, i, owners, seen);
        continue;
      }
      var ins := instances[i].value;
      var id, scope := WireId(ins), OwnerScope(ins);
      if id in seen && seen[id] != scope {
        ValidRejects(instances, i, owners, seen);
        return false;
      }
      if id in owners && owners[id] != "" && owners[id] != scope {
        ValidRejects(instances, i, owners, seen);
        return false;
      }
      ValidTakes(instances, i, owners, seen);
      seen := seen[id := scope];
    }
    assert instances[..|instances|] == instances;
    return true;
  }

  /** What is present in a prefix is present in the whole. */
  lemma PresentGrows(instances: Items, i: nat)
    requires i < |instances|
    ensures forall x :: x in Present(instances[..i]) ==> x in Present(instances)
    ensures forall x :: x in Present(instances[..i + 1]) <==> x in Present(instances[..i]) || Some(x) == instances[i]
    ensures forall x :: Some(x) == instances[i] ==> x in Present(instances)
  {
    PresentElements(instances);
    PresentElements(instances[..i]);
    PresentElements(instances[..i + 1]);
    assert instances[..i + 1] == instances[..i] + [instances[i]];
  }

  // ---------------------------------------------------------------- applying a snapshot

  /** The effect of one item's call on the catalog. Items without an address make no call. */
  function Applied(cat: Catalog, ins: Instance, answer: Answer): Catalog {
    if ins.ip == "" || answer.Rejected? then cat
    else
      match OperationOf(ins.status)
      case Some(Register) => cat[LocOf(ins) := RegisteredHost(ins, true)]
      case Some(Deregister) => cat - {LocOf(ins)}
      case None => cat
  }

  predicate InRange(instances: Items, order: seq<nat>) {
    forall p :: 0 <= p < |order| ==> order[p] < |instances| && Admitted(instances[order[p]])
  }

  /** The calls in the order in which they took effect. Scopes and items overlap,
      so any order is possible. */
  function AppliedAll(cat: Catalog, instances: Items, answers: seq<Answer>, order: seq<nat>): Catalog
    requires |answers| == |instances| && InRange(instances, order)
  {
    if order == [] then cat
    else
      var last := order[|order| - 1];
      Applied(AppliedAll(cat, instances, answers, order[..|order| - 1]), instances[last].value, answers[last])
  }

  /** Each admitted item is called once. */
  ghost predicate Schedule(instances: Items, order: seq<nat>) {
    && InRange(instances, order)
    && (forall i :: 0 <= i < |instances| && Admitted(instances[i]) ==> i in order)
    && (forall p, q :: 0 <= p < q < |order| ==> order[p] != order[q])
  }

  function ErrOf(answer: Answer): Option<Err> {
    match answer
    case Done => None
    case Rejected(err) => Some(err)
    case Lost(err) => Some(err)
  }

  /** The call of a participant with an address did not simply succeed. */
  predicate FailedAt(instances: Items, answers: seq<Answer>, i: nat)
    requires |answers| == |instances| && i < |instances|
  {
    instances[i].Some? && Participates(instances[i].value) && instances[i].value.ip != "" && !answers[i].Done?
  }

  /** The pairs with a failed item: their snapshot is not complete remotely. */
  function FailedScopes(instances: Items, answers: seq<Answer>): set<Pair>
    requires |answers| == |instances|
  {
    set i | 0 <= i < |instances| && FailedAt(instances, answers, i) :: PairOf(instances[i].value)
  }

  /** The scopes of the items an error was recorded for. */
  method CollectFailedScopes(instances: Items, answers: seq<Answer>) returns (failed: set<Pair>)
    requires |answers| == |instances|
    ensures failed == FailedScopes(instances, answers)
  {
    failed := {};
    for i := 0 to |instances|
      invariant failed == set j | 0 <= j < i && FailedAt(instances, answers, j) :: PairOf(instances[j].value)
    {
      if Admitted(instances[i]) && ItemError(instances[i].value, ErrOf(answers[i])).Some? {
        failed := failed + {PairOf(instances[i].value)};
      }
    }
  }

  // ---------------------------------------------------------------- what a prune may touch

  /** The clusters a prune works on: explicit scopes, and those of the items that count. */
  function PushedClusters(items: seq<Instance>, scopes: seq<string>, skipped: set<Pair>): set<string> {
    (set s | s in scopes && s != "") +
    (set x | x in items && Participates(x) && PairOf(x) !in skipped :: ClusterOf(x))
  }

  function DesiredPairs(items: seq<Instance>, skipped: set<Pair>): set<Pair> {
    set x | x in items && Participates(x) && PairOf(x) !in skipped :: PairOf(x)
  }

  /** The composite ids the snapshot wants within one pair. */
  function Wanted(items: seq<Instance>, pair: Pair): set<string> {
    set x | x in items && Wants(x) && PairOf(x) == pair :: WireId(x)
  }

  /** The pairs of the owned instances a read of one cluster returned; others are ignored. */
  function PairsIn(found: seq<Instance>, cluster: string): set<Pair> {
    set x | x in found && ClusterOf(x) == cluster :: PairOf(x)
  }

  function DiscoveredPairs(view: View, clusters: set<string>): set<Pair> {
    set c, p | c in clusters && view.discover(c).Some? && p in PairsIn(view.discover(c).value, c) :: p
  }

  /** The pairs a prune lists. */
  function Swept(items: seq<Instance>, scopes: seq<string>, skipped: set<Pair>, remembered: set<Pair>,
                 view: View): set<Pair> {
    var clusters := PushedClusters(items, scopes, skipped);
    (DesiredPairs(items, skipped) + (set p | p in remembered && p.cluster in clusters) +
      DiscoveredPairs(view, clusters)) - skipped
  }

  /** The host carries the owner mark of this program. */
  predicate Marked(host: Host) { "spotterOwner" in host.metadata && host.metadata["spotterOwner"] == Text("spotter") }

  /** A listed host goes: marked as owned, in the pair's cluster, and listed under an id that is not wanted. */
  predicate Doomed(items: seq<Instance>, pair: Pair, listed: Listed) {
    listed.host.cluster == pair.cluster && Marked(listed.host) && listed.id !in Wanted(items, pair)
  }

  /** Everything a prune deregisters. */
  function Targets(items: seq<Instance>, pairs: set<Pair>, view: View): set<Loc> {
    set p, h | p in pairs && view.list(p).Hosts? && h in view.list(p).hosts && Doomed(items, p, h) ::
      LocAt(p.service, h.host)
  }

  // ---------------------------------------------------------------- the sink

  class Sink {
    var catalog: Catalog
    var remembered: set<Pair>

    constructor (catalog: Catalog)
      ensures this.catalog == catalog && remembered == {}
    {
      this.catalog, remembered := catalog, {};
    }

    /** Applies the snapshot, one call at a time in the given order. */
    method ApplyAll(instances: Items, answers: seq<Answer>, order: seq<nat>)
      requires |answers| == |instances| && InRange(instances, order)
      modifies `catalog
      ensures catalog == AppliedAll(old(catalog), instances, answers, order)
    {
      for p := 0 to |order|
        invariant catalog == AppliedAll(old(catalog), instances, answers, order[..p])
      {
        assert order[..p + 1][..p] == order[..p];
        catalog := Applied(catalog, instances[order[p]].value, answers[order[p]]);
      }
      assert order[..|order|] == order;
    }

    /** The wanted ids per pair, and the clusters the push speaks for. */
    static method Survey(instances: Items, scopes: seq<string>, skipped: set<Pair>)
      returns (desired: map<Pair, set<string>>, clusters: set<string>)
      ensures desired.Keys == DesiredPairs(Present(instances), skipped)
      ensures forall p :: p in desired ==> desired[p] == Wanted(Present(instances), p)
      ensures clusters == PushedClusters(Present(instances), scopes, skipped)
    {
      desired := map[];
      clusters := set s | s in scopes && s != "";
      for i := 0 to |instances|
        invariant SurveyIs(Present(instances[..i]), scopes, skipped, desired, clusters)
      {
        if instances[i].None? || OperationOf(instances[i].value.status).None? {
          SurveyIgnores(instances, i, scopes, skipped, desired, clusters);
          continue;
        }
        var ins := instances[i].value;
        var key := PairOf(ins);
        SurveyAdds(instances, i, scopes, skipped, desired, clusters);
        if key in skipped {
          continue;
        }
        if key !in desired {
          desired := desired[key := {}];
        }
        clusters := clusters + {key.cluster};
        if ins.status != OFFLINE {
          desired := desired[key := desired[key] + {WireId(ins)}];
        }
      }
      assert instances[..|instances|] == instances;
    }

    /** Adds the remembered pairs of the push's clusters, with nothing wanted in them. */
    method Recall(desired: map<Pair, set<string>>, clusters: set<string>) returns (union: map<Pair, set<string>>)
      ensures union.Keys == desired.Keys + set p | p in remembered && p.cluster in clusters
      ensures forall p :: p in union ==> union[p] == if p in desired then desired[p] else {}
    {
      union := desired;
      var rest := remembered;
      while rest != {}
        invariant rest <= remembered
        invariant union.Keys == desired.Keys + set p | p in remembered && p !in rest && p.cluster in clusters
        invariant forall p :: p in union ==> union[p] == if p in desired then desired[p] else {}
        decreases rest
      {
        var key :| key in rest;
        rest := rest - {key};
        if key.cluster in clusters && key !in union {
          union := union[key := {}];
        }
      }
    }

    static method AddFound(union: map<Pair, set<string>>, found: seq<Instance>, cluster: string, skipped: set<Pair>)
      returns (more: map<Pair, set<string>>)
      ensures more.Keys == union.Keys + (PairsIn(found, cluster) - skipped)
      ensures forall p :: p in more ==> more[p] == if p in union then union[p] else {}
    {
      more := union;
      for i := 0 to |found|
        invariant more.Keys == union.Keys + (PairsIn(found[..i], cluster) - skipped)
        invariant forall p :: p in more ==> more[p] == if p in union then union[p] else {}
      {
        PairsInOne(found, i, cluster);
        var item := found[i];
        if ClusterOf(item) != cluster {
          continue;
        }
        if PairOf(item) !in skipped && PairOf(item) !in more {
          more := more[PairOf(item) := {}];
        }
      }
      assert found[..|found|] == found;
    }

    /** Adds the pairs found remotely; a failed read ends the prune. */
    static method Discover(union: map<Pair, set<string>>, clusters: set<string>, skipped: set<Pair>, view: View)
      returns (ok: bool, more: map<Pair, set<string>>)
      ensures ok <==> forall c :: c in clusters ==> view.discover(c).Some?
      ensures ok ==> more.Keys == union.Keys + (DiscoveredPairs(view, clusters) - skipped)
      ensures ok ==> forall p :: p in more ==> more[p] == if p in union then union[p] else {}
    {
      more := union;
      var rest := clusters;
      ghost var done: set<string> := {};
      while rest != {}
        invariant done + rest == clusters && forall c :: c in done ==> view.discover(c).Some?
        invariant more.Keys == union.Keys + (DiscoveredPairs(view, done) - skipped)
        invariant forall p :: p in more ==> more[p] == if p in union then union[p] else {}
        decreases rest
      {
        var cluster :| cluster in rest;
        rest := rest - {cluster};
        var remote := view.discover(cluster);
        if remote.None? {
          return false, more;
        }
        DiscoverOne(view, done, cluster);
        done := done + {cluster};
        more := AddFound(more, remote.value, cluster, skipped);
      }
      return true, more;
    }

    /** The hosts to deregister, over all pairs that can be listed. */
    static method Collect(union: map<Pair, set<string>>, skipped: set<Pair>, view: View, ghost items: seq<Instance>)
      returns (tasks: set<Loc>, failed: bool)
      requires forall p :: p in union && p !in skipped ==> union[p] == Wanted(items, p)
      ensures tasks == Targets(items, union.Keys - skipped, view)
      ensures failed <==> exists p :: p in union && p !in skipped && view.list(p).ListFailed?
    {
      tasks, failed := {}, false;
      var rest := union.Keys;
      ghost var done: set<Pair> := {};
      while rest != {}
        invariant done + rest == union.Keys
        invariant tasks == Targets(items, done - skipped, view)
        invariant failed <==> exists p :: p in done && p !in skipped && view.list(p).ListFailed?
        decreases rest
      {
        var key :| key in rest;
        rest := rest - {key};
        ghost var before := done - skipped;
        done := done + {key};
        if key in skipped {
          assert done - skipped == before;
          continue;
        }
        assert done - skipped == before + {key};
        TargetsOne(items, before, key, view);
        var listing := view.list(key);
        if listing.NotFound? {
          continue;
        }
        if listing.ListFailed? {
          failed := true;
          continue;
        }
        var doomed := DoomedHosts(union[key], key, listing.hosts, items);
        tasks := tasks + doomed;
      }
    }

    static method DoomedHosts(wanted: set<string>, pair: Pair, hosts: seq<Listed>, ghost items: seq<Instance>)
      returns (doomed: set<Loc>)
      requires wanted == Wanted(items, pair)
      ensures doomed == set h | h in hosts && Doomed(items, pair, h) :: LocAt(pair.service, h.host)
    {
      doomed := {};
      for i := 0 to |hosts|
        invariant doomed == set h | h in hosts[..i] && Doomed(items, pair, h) :: LocAt(pair.service, h.host)
      {
        assert hosts[..i + 1] == hosts[..i] + [hosts[i]];
        var listed := hosts[i];
        if listed.host.cluster != pair.cluster {
          continue;
        }
        if listed.id in wanted {
          continue;
        }
        if !Owned(listed.host) {
          continue;
        }
        doomed := doomed + {LocAt(pair.service, listed.host)};
      }
      assert hosts[..|hosts|] == hosts;
    }

    method Sweep(tasks: set<Loc>, view: View) returns (failed: bool)
      modifies `catalog
      ensures catalog == old(catalog) - set loc | loc in tasks && !view.deregister(loc).Rejected?
      ensures failed <==> exists loc :: loc in tasks && !view.deregister(loc).Done?
    {
      failed := false;
      var rest := tasks;
      while rest != {}
        invariant rest <= tasks
        invariant catalog == old(catalog) - set loc | loc in tasks && loc !in rest && !view.deregister(loc).Rejected?
        invariant failed <==> exists loc :: loc in tasks && loc !in rest && !view.deregister(loc).Done?
        decreases rest
      {
        var loc :| loc in rest;
        rest := rest - {loc};
        var answer := view.deregister(loc);
        if !answer.Rejected? {
          catalog := catalog - {loc};
        }
        if !answer.Done? {
          failed := true;
        }
      }
    }

    /** Removes what the clusters of the push hold remotely but the snapshot does
        not want. A failed discovery or session ends it before anything is removed. */
    method Prune(instances: Items, scopes: seq<string>, skipped: set<Pair>, view: View)
      returns (failed: bool, ghost targets: set<Loc>)
      modifies this
      ensures remembered == old(remembered) + DesiredPairs(Present(instances), skipped)
      ensures targets == Pruned(Present(instances), scopes, skipped, old(remembered), view)
      ensures catalog == old(catalog) - set loc | loc in targets && !view.deregister(loc).Rejected?
      ensures !failed <==> PruneOk(Present(instances), scopes, skipped, old(remembered), view)
    {
      ghost var items := Present(instances);
      targets := {};
      var desired, clusters := Survey(instances, scopes, skipped);
      remembered := remembered + desired.Keys;
      var union := Recall(desired, clusters);
      var ok, all := Discover(union, clusters, skipped, view);
      if !ok || !view.session {
        return true, {};
      }
      UnionIsSwept(items, scopes, skipped, old(remembered), view, all.Keys);
      WantedElsewhere(items, skipped, all);
      var tasks, listFailed := Collect(all, skipped, view, items);
      targets := tasks;
      var sweepFailed := Sweep(tasks, view);
      failed := listFailed || sweepFailed;
    }

    /** A full push: validate, apply every item, prune all but the failed scopes. */
    method PushAll(instances: Items, owners: map<string, string>, answers: seq<Answer>, order: seq<nat>, view: View)
      returns (failed: bool, ghost targets: set<Loc>)
      requires |answers| == |instances| && Schedule(instances, order)
      modifies this
      ensures !NoCollision(Present(instances), owners) ==>
        failed && catalog == old(catalog) && remembered == old(remembered) && targets == {}
      ensures NoCollision(Present(instances), owners) ==>
        && targets == Pruned(Present(instances), [], FailedScopes(instances, answers), old(remembered), view)
        && catalog == AppliedAll(old(catalog), instances, answers, order) -
             (set loc | loc in targets && !view.deregister(loc).Rejected?)
        && remembered == old(remembered) + DesiredPairs(Present(instances), FailedScopes(instances, answers))
      ensures !failed <==>
        && NoCollision(Present(instances), owners) && FailedScopes(instances, answers) == {}
        && PruneOk(Present(instances), [], FailedScopes(instances, answers), old(remembered), view)
    {
      targets := {};
      var valid := ValidateWireIdentitySet(instances, owners);
      if !valid {
        return true, {};
      }
      ApplyAll(instances, answers, order);
      var skipped := CollectFailedScopes(instances, answers);
      failed, targets := Prune(instances, [], skipped, view);
      failed := failed || skipped != {};
    }

    /** The typed full operation: an empty snapshot prunes only when its scope is
        explicit and its emptiness was confirmed. */
    method PushAllOperation(instances: Items, scope: string, emptyConfirmed: bool,
                            owners: map<string, string>, answers: seq<Answer>, order: seq<nat>, view: View)
      returns (failed: bool, ghost targets: set<Loc>)
      requires |answers| == |instances| && Schedule(instances, order)
      modifies this
      ensures instances == [] && (!emptyConfirmed || scope == "") ==>
        !failed && targets == {} && catalog == old(catalog) && remembered == old(remembered)
      ensures instances == [] && emptyConfirmed && scope != "" ==>
        && targets == Pruned([], [scope], {}, old(remembered), view)
        && catalog == old(catalog) - (set loc | loc in targets && !view.deregister(loc).Rejected?)
        && (!failed <==> PruneOk([], [scope], {}, old(remembered), view))
      ensures instances != [] && NoCollision(Present(instances), owners) ==>
        && targets == Pruned(Present(instances), [], FailedScopes(instances, answers), old(remembered), view)
        && catalog == AppliedAll(old(catalog), instances, answers, order) -
             (set loc | loc in targets && !view.deregister(loc).Rejected?)
      ensures instances != [] ==> (!failed <==>
        && NoCollision(Present(instances), owners) && FailedScopes(instances, answers) == {}
        && PruneOk(Present(instances), [], FailedScopes(instances, answers), old(remembered), view))
    {
      if |instances| > 0 {
        failed, targets := PushAll(instances, owners, answers, order, view);
        return;
      }
      if !emptyConfirmed || scope == "" {
        return false, {};
      }
      failed, targets := Prune([], [scope], {}, view);
    }
  }

  ghost predicate DiscoveryOk(items: seq<Instance>, scopes: seq<string>, skipped: set<Pair>, view: View) {
    forall c :: c in PushedClusters(items, scopes, skipped) ==> view.discover(c).Some?
  }

  /** What one prune deregisters, given the pairs remembered before it. */
  ghost function Pruned(items: seq<Instance>, scopes: seq<string>, skipped: set<Pair>, remembered: set<Pair>,
                        view: View): set<Loc> {
    if !DiscoveryOk(items, scopes, skipped, view) || !view.session then {}
    else Targets(items, Swept(items, scopes, skipped, remembered, view), view)
  }

  /** Every call a prune needs succeeds: discovery, the session, the listings of the swept pairs, the
      deregistrations. */
  ghost predicate PruneOk(items: seq<Instance>, scopes: seq<string>, skipped: set<Pair>, remembered: set<Pair>,
                          view: View) {
    && DiscoveryOk(items, scopes, skipped, view) && view.session
    && (forall p :: p in Swept(items, scopes, skipped, remembered, view) ==> !view.list(p).ListFailed?)
    && (forall loc :: loc in Pruned(items, scopes, skipped, remembered, view) ==> view.deregister(loc).Done?)
  }

  // ---------------------------------------------------------------- lemmas for the loops

  lemma DiscoverOne(view: View, done: set<string>, cluster: string)
    requires view.discover(cluster).Some?
    ensures DiscoveredPairs(view, done + {cluster}) ==
      DiscoveredPairs(view, done) + PairsIn(view.discover(cluster).value, cluster)
  {
  }

  lemma TargetsOne(items: seq<Instance>, pairs: set<Pair>, pair: Pair, view: View)
    ensures Targets(items, pairs + {pair}, view) == Targets(items, pairs, view) +
      (if !view.list(pair).Hosts? then {}
       else set h | h in view.list(pair).hosts && Doomed(items, pair, h) :: LocAt(pair.service, h.host))
  {
  }

  lemma UnionIsSwept(items: seq<Instance>, scopes: seq<string>, skipped: set<Pair>, remembered: set<Pair>, view: View,
                     keys: set<Pair>)
    requires var clusters := PushedClusters(items, scopes, skipped);
      keys == DesiredPairs(items, skipped) +
        (set p | p in remembered + DesiredPairs(items, skipped) && p.cluster in clusters) +
        (DiscoveredPairs(view, clusters) - skipped)
    ensures keys - skipped == Swept(items, scopes, skipped, remembered, view)
  {
  }

  /** A pair without participants in the snapshot has nothing wanted in it. */
  lemma WantedElsewhere(items: seq<Instance>, skipped: set<Pair>, all: map<Pair, set<string>>)
    requires forall p :: p in all ==> all[p] == if p in DesiredPairs(items, skipped) then Wanted(items, p) else {}
    ensures forall p :: p in all && p !in skipped ==> all[p] == Wanted(items, p)
  {
    forall p | p in all && p !in skipped && p !in DesiredPairs(items, skipped)
      ensures Wanted(items, p) == {}
    {
    }
  }

  lemma PairsInOne(found: seq<Instance>, i: nat, cluster: string)
    requires i < |found|
    ensures PairsIn(found[..i + 1], cluster) ==
      PairsIn(found[..i], cluster) + (if ClusterOf(found[i]) == cluster then {PairOf(found[i])} else {})
  {
    assert found[..i + 1] == found[..i] + [found[i]];
    assert forall x :: x in found[..i + 1] <==> x in found[..i] || x == found[i];
  }

  /** What the survey of some items amounts to. */
  ghost predicate SurveyIs(items: seq<Instance>, scopes: seq<string>, skipped: set<Pair>,
      desired: map<Pair, set<string>>, clusters: set<string>) {
    && desired.Keys == DesiredPairs(items, skipped)
    && (forall p :: p in desired ==> desired[p] == Wanted(items, p))
    && clusters == PushedClusters(items, scopes, skipped)
  }

  /** One more item, as the loop treats it. */
  function Surveyed(desired: map<Pair, set<string>>, skipped: set<Pair>, ins: Instance): map<Pair, set<string>> {
    var key := PairOf(ins);
    if key in skipped then desired
    else
      var known := if key in desired then desired[key] else {};
      desired[key := if ins.status != OFFLINE then known + {WireId(ins)} else known]
  }

  lemma SurveyIgnores(instances: Items, i: nat, scopes: seq<string>, skipped: set<Pair>,
      desired: map<Pair, set<string>>, clusters: set<string>)
    requires i < |instances| && (instances[i].None? || !Participates(instances[i].value))
    requires SurveyIs(Present(instances[..i]), scopes, skipped, desired, clusters)
    ensures SurveyIs(Present(instances[..i + 1]), scopes, skipped, desired, clusters)
  {
    PresentGrows(instances, i);
    var items, more := Present(instances[..i]), Present(instances[..i + 1]);
    assert DesiredPairs(more, skipped) == DesiredPairs(items, skipped);
    assert forall p :: Wanted(more, p) == Wanted(items, p);
    assert PushedClusters(more, scopes, skipped) == PushedClusters(items, scopes, skipped);
  }

  lemma WantedGrows(items: seq<Instance>, more: seq<Instance>, ins: Instance, skipped: set<Pair>, p: Pair)
    requires Participates(ins) && forall x :: x in more <==> x in items || x == ins
    ensures Wanted(more, p) == Wanted(items, p) + (if p == PairOf(ins) && Wants(ins) then {WireId(ins)} else {})
    ensures p !in DesiredPairs(items, skipped) && p !in skipped ==> Wanted(items, p) == {}
  {
  }

  lemma PairsGrow(items: seq<Instance>, more: seq<Instance>, ins: Instance, scopes: seq<string>, skipped: set<Pair>)
    requires Participates(ins) && forall x :: x in more <==> x in items || x == ins
    ensures DesiredPairs(more, skipped) ==
      DesiredPairs(items, skipped) + (if PairOf(ins) in skipped then {} else {PairOf(ins)})
    ensures PushedClusters(more, scopes, skipped) ==
      PushedClusters(items, scopes, skipped) + (if PairOf(ins) in skipped then {} else {ClusterOf(ins)})
  {
  }

  lemma SurveyAdds(instances: Items, i: nat, scopes: seq<string>, skipped: set<Pair>,
      desired: map<Pair, set<string>>, clusters: set<string>)
    requires i < |instances| && instances[i].Some? && Participates(instances[i].value)
    requires SurveyIs(Present(instances[..i]), scopes, skipped, desired, clusters)
    ensures var ins := instances[i].value;
      SurveyIs(Present(instances[..i + 1]), scopes, skipped, Surveyed(desired, skipped, ins),
        if PairOf(ins) in skipped then clusters else clusters + {PairOf(ins).cluster})
  {
    PresentGrows(instances, i);
    var ins, items, more := instances[i].value, Present(instances[..i]), Present(instances[..i + 1]);
    PairsGrow(items, more, ins, scopes, skipped);
    var desired' := Surveyed(desired, skipped, ins);
    forall p | p in desired'
      ensures desired'[p] == Wanted(more, p)
    {
      WantedGrows(items, more, ins, skipped, p);
    }
  }
}
