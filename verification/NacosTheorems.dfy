/** What a full push to Nacos guarantees: nothing the snapshot wants is ever
    deleted, whatever fails, and when nothing fails the catalog converges. */
module NacosTheorems {
  import opened Instances
  import opened Errors
  import opened Wire
  import opened Batches
  import opened NacosSink

  // ---------------------------------------------------------------- prune safety

  /** The registry lists a host at `loc` as owned, under an id the snapshot does not want. */
  ghost predicate ListedUnwanted(items: seq<Instance>, view: View, loc: Loc) {
    var pair := Pair(loc.service, loc.cluster);
    view.list(pair).Hosts? &&
    exists h :: h in view.list(pair).hosts && Marked(h.host) && LocAt(loc.service, h.host) == loc &&
      h.id !in Wanted(items, pair)
  }

  /** Every host listed at `loc` carries the composite id of `loc`. */
  ghost predicate HonestAt(view: View, loc: Loc) {
    var pair := Pair(loc.service, loc.cluster);
    view.list(pair).Hosts? ==>
      forall h :: h in view.list(pair).hosts && LocAt(loc.service, h.host) == loc ==> h.id == IdAt(loc)
  }

  /** A prune deregisters only what a listing reported as owned under an id that no item wants, in a
      cluster that the push or its explicit scope names, and in no pair whose batch failed. */
  lemma PruneSafety(items: seq<Instance>, scopes: seq<string>, skipped: set<Pair>, remembered: set<Pair>, view: View,
                    loc: Loc)
    requires loc in Pruned(items, scopes, skipped, remembered, view)
    ensures Pair(loc.service, loc.cluster) !in skipped
    ensures ListedUnwanted(items, view, loc)
    ensures
      || (loc.cluster in scopes && loc.cluster != "")
      || exists x :: x in items && Participates(x) && PairOf(x) !in skipped && ClusterOf(x) == loc.cluster
    ensures HonestAt(view, loc) ==> forall x :: x in items && Wants(x) ==> LocOf(x) != loc
  {
    var swept := Swept(items, scopes, skipped, remembered, view);
    var p, h :| p in swept && view.list(p).Hosts? && h in view.list(p).hosts && Doomed(items, p, h) &&
      LocAt(p.service, h.host) == loc;
    assert p == Pair(loc.service, loc.cluster);
    assert p.cluster in PushedClusters(items, scopes, skipped);
    assert forall x :: x in items && Wants(x) && PairOf(x) == p ==> WireId(x) in Wanted(items, p);
  }

  /** A wanted location outside the failed scopes is pruned exactly when the registry lists an owned
      host there under an id the snapshot does not want, which is then not the location's own id. */
  lemma WantedIsPruned(items: seq<Instance>, scopes: seq<string>, skipped: set<Pair>, remembered: set<Pair>, view: View,
                       x: Instance)
    requires x in items && Wants(x) && PairOf(x) !in skipped
    requires DiscoveryOk(items, scopes, skipped, view) && view.session
    ensures LocOf(x) in Pruned(items, scopes, skipped, remembered, view) <==> ListedUnwanted(items, view, LocOf(x))
    ensures LocOf(x) in Pruned(items, scopes, skipped, remembered, view) ==> !HonestAt(view, LocOf(x))
  {
    var p, loc := PairOf(x), LocOf(x);
    assert p in DesiredPairs(items, skipped);
    assert p in Swept(items, scopes, skipped, remembered, view);
    if ListedUnwanted(items, view, loc) {
      var h :| h in view.list(p).hosts && Marked(h.host) && LocAt(loc.service, h.host) == loc &&
        h.id !in Wanted(items, p);
      assert Doomed(items, p, h);
    }
    if loc in Pruned(items, scopes, skipped, remembered, view) {
      PruneSafety(items, scopes, skipped, remembered, view, loc);
    }
  }

  /** A registry that lists its hosts without ids makes the prune remove what the snapshot wants. */
  lemma MissingIdPrunesWanted(x: Instance, view: View)
    requires Wants(x) && view.discover(ClusterOf(x)).Some? && view.session
    requires view.list(PairOf(x)) == Hosts([Listed("", RegisteredHost(x, true))])
    ensures LocOf(x) in Pruned([x], [], {}, {}, view)
  {
    var h := Listed("", RegisteredHost(x, true));
    assert PushedClusters([x], [], {}) <= {ClusterOf(x)};
    forall y | y in [x]
      ensures WireId(y) != ""
    {
      assert |WireId(y)| > 0;
    }
    assert h in view.list(PairOf(x)).hosts && Marked(h.host) && LocAt(x.appCode, h.host) == LocOf(x) &&
      h.id !in Wanted([x], PairOf(x));
    WantedIsPruned([x], [], {}, {}, view, x);
  }

  // ---------------------------------------------------------------- the apply phase

  predicate TookEffect(ins: Instance, answer: Answer) { ins.ip != "" && !answer.Rejected? }

  /** The call at position p of the order names the location and took effect. */
  predicate Hits(instances: Items, answers: seq<Answer>, order: seq<nat>, p: nat, loc: Loc)
    requires |answers| == |instances| && InRange(instances, order) && p < |order|
  {
    LocOf(instances[order[p]].value) == loc && TookEffect(instances[order[p]].value, answers[order[p]])
  }

  ghost predicate Unaffected(cat: Catalog, after: Catalog, loc: Loc) {
    (loc in after <==> loc in cat) && (loc in cat ==> after[loc] == cat[loc])
  }

  /** What an effective call leaves at its location. */
  ghost predicate LeftBy(after: Catalog, loc: Loc, ins: Instance) {
    if Wants(ins) then loc in after && after[loc] == RegisteredHost(ins, true) else loc !in after
  }

  /** From position `from` on, no effective call names the location. */
  ghost predicate NoHits(instances: Items, answers: seq<Answer>, order: seq<nat>, from: int, loc: Loc)
    requires |answers| == |instances| && InRange(instances, order) && -1 <= from
  {
    forall q :: from < q < |order| ==> !Hits(instances, answers, order, q, loc)
  }

  lemma OneMoreMiss(instances: Items, answers: seq<Answer>, order: seq<nat>, from: int, loc: Loc)
    requires |answers| == |instances| && InRange(instances, order) && order != [] && -1 <= from < |order| - 1
    requires NoHits(instances, answers, order[..|order| - 1], from, loc) &&
      !Hits(instances, answers, order, |order| - 1, loc)
    ensures NoHits(instances, answers, order, from, loc)
  {
    forall q | from < q < |order|
      ensures !Hits(instances, answers, order, q, loc)
    {
      assert q < |order| - 1 ==> !Hits(instances, answers, order[..|order| - 1], q, loc);
    }
  }

  /** The last effective call naming a location decides what is there; without
      one (-1) it holds what it held. */
  lemma {:induction false} LastHit(cat: Catalog, instances: Items, answers: seq<Answer>, order: seq<nat>, loc: Loc)
    returns (p: int)
    requires |answers| == |instances| && InRange(instances, order)
    ensures -1 <= p < |order| && NoHits(instances, answers, order, p, loc)
    ensures p == -1 ==> Unaffected(cat, AppliedAll(cat, instances, answers, order), loc)
    ensures p >= 0 ==>
      && Hits(instances, answers, order, p, loc)
      && LeftBy(AppliedAll(cat, instances, answers, order), loc, instances[order[p]].value)
  {
    if order == [] {
      return -1;
    }
    var n := |order| - 1;
    if Hits(instances, answers, order, n, loc) {
      return n;
    }
    p := LastHit(cat, instances, answers, order[..n], loc);
    OneMoreMiss(instances, answers, order, p, loc);
    var before := AppliedAll(cat, instances, answers, order[..n]);
    assert Unaffected(before, AppliedAll(cat, instances, answers, order), loc);
    if p >= 0 {
      assert Hits(instances, answers, order[..n], p, loc);
    }
  }

  /** No item of the snapshot removes this location. */
  ghost predicate NotRemoved(items: seq<Instance>, loc: Loc) {
    forall y :: y in items && Participates(y) && LocOf(y) == loc ==> Wants(y)
  }

  lemma ItemIsPresent(instances: Items, i: nat)
    requires i < |instances| && instances[i].Some?
    ensures instances[i].value in Present(instances)
  {
    PresentElements(instances);
    assert instances[i] == Some(instances[i].value);
  }

  lemma PresentHasIndex(instances: Items, x: Instance) returns (i: nat)
    requires x in Present(instances)
    ensures i < |instances| && instances[i] == Some(x)
  {
    PresentElements(instances);
    i :| 0 <= i < |instances| && instances[i] == Some(x);
  }

  /** After the apply phase a location that no item removes is there, if it was
      there before or one of its registrations took effect. */
  lemma WantedApplied(cat: Catalog, instances: Items, answers: seq<Answer>, order: seq<nat>, loc: Loc)
    requires |answers| == |instances| && InRange(instances, order) && NotRemoved(Present(instances), loc)
    requires loc in cat || exists q :: 0 <= q < |order| && Hits(instances, answers, order, q, loc)
    ensures loc in AppliedAll(cat, instances, answers, order)
  {
    var p := LastHit(cat, instances, answers, order, loc);
    if p >= 0 {
      ItemIsPresent(instances, order[p]);
    }
  }

  // ---------------------------------------------------------------- whole pushes under any failures

  ghost function Final(cat: Catalog, instances: Items, answers: seq<Answer>, order: seq<nat>, remembered: set<Pair>,
                       view: View): Catalog
    requires |answers| == |instances| && InRange(instances, order)
  {
    AppliedAll(cat, instances, answers, order) -
    (set loc | loc in Pruned(Present(instances), [], FailedScopes(instances, answers), remembered, view) &&
      !view.deregister(loc).Rejected?)
  }

  /** Whatever fails and however stale the reads are, as long as the registry does not list the location
      under a foreign id, a full push never deletes a location its snapshot wants: one that was
      registered before, or whose registration took effect, is there afterwards. */
  lemma DesiredSurvives(cat: Catalog, instances: Items, answers: seq<Answer>, order: seq<nat>, remembered: set<Pair>,
                        view: View, x: Instance)
    requires |answers| == |instances| && Schedule(instances, order)
    requires x in Present(instances) && Wants(x) && NotRemoved(Present(instances), LocOf(x))
    requires LocOf(x) in cat || exists i :: 0 <= i < |instances| && instances[i] == Some(x) && TookEffect(x, answers[i])
    ensures HonestAt(view, LocOf(x)) ==> LocOf(x) in Final(cat, instances, answers, order, remembered, view)
    ensures LocOf(x) !in Final(cat, instances, answers, order, remembered, view) ==>
      ListedUnwanted(Present(instances), view, LocOf(x)) && PairOf(x) !in FailedScopes(instances, answers)
  {
    if LocOf(x) !in cat {
      var i :| 0 <= i < |instances| && instances[i] == Some(x) && TookEffect(x, answers[i]);
      var p :| 0 <= p < |order| && order[p] == i;
      assert Hits(instances, answers, order, p, LocOf(x));
    }
    WantedApplied(cat, instances, answers, order, LocOf(x));
    if LocOf(x) in Pruned(Present(instances), [], FailedScopes(instances, answers), remembered, view) {
      PruneSafety(Present(instances), [], FailedScopes(instances, answers), remembered, view, LocOf(x));
    }
  }

  /** Whatever disappears was removed by an offline item naming it, or by the
      prune within its bounds: owned, unwanted, in a cluster of the snapshot, in a
      pair without a failed item. */
  lemma RemovedOnly(cat: Catalog, instances: Items, answers: seq<Answer>, order: seq<nat>, remembered: set<Pair>,
                    view: View, loc: Loc)
    requires |answers| == |instances| && Schedule(instances, order)
    requires loc in cat && loc !in Final(cat, instances, answers, order, remembered, view)
    ensures
      || (exists y :: y in Present(instances) && y.status == OFFLINE && LocOf(y) == loc)
      || (&& ListedUnwanted(Present(instances), view, loc)
          && (HonestAt(view, loc) ==> forall x :: x in Present(instances) && Wants(x) ==> LocOf(x) != loc)
          && Pair(loc.service, loc.cluster) !in FailedScopes(instances, answers)
          && exists x :: x in Present(instances) && Participates(x) && ClusterOf(x) == loc.cluster)
  {
    if loc in AppliedAll(cat, instances, answers, order) {
      PruneSafety(Present(instances), [], FailedScopes(instances, answers), remembered, view, loc);
    } else {
      var p := LastHit(cat, instances, answers, order, loc);
      ItemIsPresent(instances, order[p]);
    }
  }

  // ---------------------------------------------------------------- batches give schedules

  /** All positions of the batches, one batch after the other. */
  function Flattened(batches: seq<Batch>): seq<nat> {
    if batches == [] then [] else Flattened(batches[..|batches| - 1]) + batches[|batches| - 1].indexes
  }

  function Bag(s: seq<nat>): multiset<nat> { multiset(s) }

  predicate Distinct(s: seq<nat>) { forall p, q :: 0 <= p < q < |s| ==> s[p] != s[q] }

  lemma {:induction false} FlattenedElements(batches: seq<Batch>, i: nat)
    ensures i in Flattened(batches) <==> exists b :: 0 <= b < |batches| && i in batches[b].indexes
  {
    if batches != [] {
      var n := |batches| - 1;
      FlattenedElements(batches[..n], i);
      assert forall b :: 0 <= b < n ==> batches[..n][b] == batches[b];
      if i in batches[n].indexes {
        assert 0 <= n < |batches| && i in batches[n].indexes;
      }
    }
  }

  lemma JoinedDistinct(s: seq<nat>, t: seq<nat>)
    requires Distinct(s) && Distinct(t) && forall x :: x in s ==> x !in t
    ensures Distinct(s + t)
  {
    forall p, q | 0 <= p < q < |s + t|
      ensures (s + t)[p] != (s + t)[q]
    {
      if p < |s| <= q {
        assert s[p] in s && t[q - |s|] in t;
      }
    }
  }

  lemma {:induction false} FlattenedDistinct(instances: Items, batches: seq<Batch>, max: nat, n: nat)
    requires Partition(instances, batches, max) && n <= |batches|
    ensures Distinct(Flattened(batches[..n]))
    decreases n
  {
    if n > 0 {
      var prefix, last := batches[..n - 1], batches[n - 1].indexes;
      assert batches[..n][..n - 1] == prefix;
      FlattenedDistinct(instances, batches, max, n - 1);
      forall p, q | 0 <= p < q < |last|
        ensures last[p] != last[q]
      {
        if last[p] == last[q] {
          PartitionIsInjective(instances, batches, max, n - 1, p, n - 1, q);
        }
      }
      forall x | x in Flattened(prefix)
        ensures x !in last
      {
        FlattenedElements(prefix, x);
        var b :| 0 <= b < |prefix| && x in prefix[b].indexes;
        var p :| 0 <= p < |batches[b].indexes| && batches[b].indexes[p] == x;
        if x in last {
          var q :| 0 <= q < |last| && last[q] == x;
          PartitionIsInjective(instances, batches, max, b, p, n - 1, q);
        }
      }
      JoinedDistinct(Flattened(prefix), last);
    }
  }

  lemma {:induction false} DistinctCounts(s: seq<nat>, x: nat)
    requires Distinct(s)
    ensures Bag(s)[x] == if x in s then 1 else 0
  {
    if s != [] {
      var n := |s| - 1;
      assert s == s[..n] + [s[n]];
      DistinctCounts(s[..n], x);
    }
  }

  lemma CountedDistinct(s: seq<nat>, p: nat, q: nat)
    requires p < q < |s| && s[p] == s[q]
    ensures Bag(s)[s[p]] >= 2
  {
    assert s == s[..q] + s[q..];
    assert s[..q][p] in Bag(s[..q]) && s[q..][0] in Bag(s[q..]);
  }

  lemma FlattenedIsAdmitted(instances: Items, batches: seq<Batch>, max: nat, i: nat)
    requires Partition(instances, batches, max)
    ensures i in Flattened(batches) <==> i < |instances| && Admitted(instances[i])
  {
    PartitionPlacesOnce(instances, batches, max);
    FlattenedElements(batches, i);
    if i in Flattened(batches) {
      var b :| 0 <= b < |batches| && i in batches[b].indexes;
      var p :| 0 <= p < |batches[b].indexes| && batches[b].indexes[p] == i;
      assert HasKey(instances[batches[b].indexes[p]], batches[b].key);
    }
  }

  /** The schedules of a push are exactly the rearrangements of the batches it was split into; the
      orders its calls really take are among them. */
  lemma BatchesGiveSchedules(instances: Items, batches: seq<Batch>, max: nat, order: seq<nat>)
    requires Partition(instances, batches, max)
    ensures Schedule(instances, order) <==> Bag(order) == Bag(Flattened(batches))
  {
    var all := Flattened(batches);
    assert batches[..|batches|] == batches;
    FlattenedDistinct(instances, batches, max, |batches|);
    forall i: nat
      ensures (i in all <==> i < |instances| && Admitted(instances[i])) && Bag(all)[i] == if i in all then 1 else 0
    {
      FlattenedIsAdmitted(instances, batches, max, i);
      DistinctCounts(all, i);
    }
    if Schedule(instances, order) {
      forall i: nat
        ensures Bag(order)[i] == Bag(all)[i]
      {
        DistinctCounts(order, i);
      }
    } else if Bag(order) == Bag(all) {
      InterleavingIsSchedule(instances, order, all);
    }
  }

  lemma InterleavingIsSchedule(instances: Items, order: seq<nat>, all: seq<nat>)
    requires Bag(order) == Bag(all)
    requires forall i: nat ::
      (i in all <==> i < |instances| && Admitted(instances[i])) && Bag(all)[i] == if i in all then 1 else 0
    ensures Schedule(instances, order)
  {
    assert forall i: nat :: i in order <==> i in Bag(order);
    assert forall i: nat :: i in all <==> i in Bag(all);
    forall p, q | 0 <= p < q < |order|
      ensures order[p] != order[q]
    {
      if order[p] == order[q] {
        CountedDistinct(order, p, q);
      }
    }
    forall p | 0 <= p < |order|
      ensures order[p] < |instances| && Admitted(instances[order[p]])
    {
      assert order[p] in order;
    }
  }

  // ---------------------------------------------------------------- convergence

  /** A host a reader finds again under its own cluster. */
  predicate Legible(loc: Loc, host: Host) {
    var read := ReconstructForTransport(loc.service, host, true);
    loc.ip != "" && ClusterOf(read) == loc.cluster && read.status in {ONLINE, UNHEALTHY, OFFLINE}
  }

  /** The cluster of an instance does not hinge on a provider it lacks. */
  predicate KeepsCluster(ins: Instance) {
    || ins.provider != "" || ins.cluster == "" || ins.sourceCluster == ""
    || ins.cluster != Sanitized(ins.cluster) || Sanitized(ins.sourceCluster) == ins.cluster
  }

  /** What a registration writes is found again, except for an instance without a
      provider whose wire-safe cluster and source cluster differ: the reader takes
      the cluster for the provider and files it under the source cluster. */
  lemma RegisteredIsLegible(ins: Instance)
    requires Registerable(ins) && ins.ip != ""
    ensures Legible(LocOf(ins), RegisteredHost(ins, true)) <==> KeepsCluster(ins)
  {
    ReconstructRegistered(ins, RegisteredHost(ins, true), true);
    var read := ReconstructForTransport(ins.appCode, RegisteredHost(ins, true), true);
    assert read.provider == CanonicalPayload(read).provider;
    assert read.cluster == CanonicalPayload(read).cluster == ins.cluster;
    assert read.sourceCluster == CanonicalPayload(read).sourceCluster == ins.sourceCluster;
  }

  /** Entries sit where they say, and the owned ones are legible. */
  ghost predicate CatalogOk(cat: Catalog) {
    && (forall loc :: loc in cat ==> LocAt(loc.service, cat[loc]) == loc)
    && (forall loc :: loc in cat && Marked(cat[loc]) ==> Legible(loc, cat[loc]))
  }

  /** The reads of a prune see the catalog as it is, each host under its composite id. */
  ghost predicate Accurate(view: View, cat: Catalog) {
    && view.session
    && (forall c :: view.discover(c).Some? &&
          forall loc :: loc in cat && Marked(cat[loc]) && Legible(loc, cat[loc]) && loc.cluster == c ==>
            ReconstructForTransport(loc.service, cat[loc], true) in view.discover(c).value)
    && (forall p :: !view.list(p).ListFailed?)
    && (forall p, loc :: loc in cat && p == Pair(loc.service, loc.cluster) ==>
          view.list(p).Hosts? && Listed(IdAt(loc), cat[loc]) in view.list(p).hosts)
    && (forall p, h :: view.list(p).Hosts? && h in view.list(p).hosts && h.host.cluster == p.cluster ==>
          var loc := LocAt(p.service, h.host);
          loc in cat && cat[loc] == h.host && h.id == IdAt(loc))
    && (forall loc :: view.deregister(loc).Done?)
  }

  /** No location is both wanted and removed by the snapshot. */
  ghost predicate Consistent(items: seq<Instance>) {
    forall x, y :: x in items && y in items && Wants(x) && y.status == OFFLINE ==> LocOf(x) != LocOf(y)
  }

  /** Composite ids tell the wanted locations from the entries of a catalog. */
  ghost predicate TellsApart(items: seq<Instance>, cat: Catalog) {
    forall x, loc :: x in items && Wants(x) && loc in cat && IdAt(loc) == WireId(x) ==> loc == LocOf(x)
  }

  /** They do when addresses and clusters are free of '#'. */
  lemma HashFreeTellsApart(items: seq<Instance>, cat: Catalog)
    requires forall x :: x in items && Wants(x) ==> '#' !in x.ip && '#' !in ClusterOf(x)
    requires forall loc :: loc in cat ==> '#' !in loc.ip && '#' !in loc.cluster
    ensures TellsApart(items, cat)
  {
    forall x, loc | x in items && Wants(x) && loc in cat && IdAt(loc) == WireId(x)
      ensures loc == LocOf(x)
    {
      CompositeIdInjective(loc, LocOf(x), GROUP);
    }
  }

  lemma AccurateIsHonest(view: View, cat: Catalog, loc: Loc)
    requires Accurate(view, cat)
    ensures HonestAt(view, loc)
  {
  }

  ghost predicate AllDone(instances: Items, answers: seq<Answer>)
    requires |answers| == |instances|
  {
    forall i :: 0 <= i < |instances| && Admitted(instances[i]) ==> answers[i].Done?
  }

  lemma NothingSkipped(instances: Items, answers: seq<Answer>)
    requires |answers| == |instances| && AllDone(instances, answers)
    ensures FailedScopes(instances, answers) == {}
  {
  }

  /** After a successful apply phase: wanted addresses are registered, everything
      else at a location no item names is untouched. */
  lemma AppliedClean(cat: Catalog, instances: Items, answers: seq<Answer>, order: seq<nat>, loc: Loc)
    requires |answers| == |instances| && Schedule(instances, order) && AllDone(instances, answers) &&
      Consistent(Present(instances))
    ensures var after := AppliedAll(cat, instances, answers, order);
      && ((exists x :: x in Present(instances) && Wants(x) && x.ip != "" && LocOf(x) == loc) ==>
            loc in after && Marked(after[loc]) && LocAt(loc.service, after[loc]) == loc)
      && ((forall x :: x in Present(instances) && Participates(x) ==> LocOf(x) != loc || x.ip == "") ==>
            (loc in after <==> loc in cat) && (loc in cat ==> after[loc] == cat[loc]))
      && ((forall x :: x in Present(instances) && Wants(x) ==> LocOf(x) != loc || x.ip == "") && loc in after ==>
            loc in cat && after[loc] == cat[loc])
  {
    var p := LastHit(cat, instances, answers, order, loc);
    if p >= 0 {
      ItemIsPresent(instances, order[p]);
    }
    if x :| x in Present(instances) && Wants(x) && x.ip != "" && LocOf(x) == loc {
      var i := PresentHasIndex(instances, x);
      var q :| 0 <= q < |order| && order[q] == i;
      assert Hits(instances, answers, order, q, loc);
      assert Wants(instances[order[p]].value);
    }
  }

  /** An owned, unwanted entry in a cluster of the push is listed and goes. */
  lemma UnwantedGoes(items: seq<Instance>, remembered: set<Pair>, view: View, cat: Catalog, loc: Loc)
    requires Accurate(view, cat) && loc in cat && Marked(cat[loc]) && Legible(loc, cat[loc]) &&
      LocAt(loc.service, cat[loc]) == loc
    requires loc.cluster in PushedClusters(items, [], {}) && IdAt(loc) !in Wanted(items, Pair(loc.service, loc.cluster))
    ensures loc in Pruned(items, [], {}, remembered, view)
  {
    var p, c := Pair(loc.service, loc.cluster), loc.cluster;
    var read := ReconstructForTransport(loc.service, cat[loc], true);
    assert read in view.discover(c).value;
    assert read.appCode == loc.service;
    assert PairOf(read) == p;
    assert p in PairsIn(view.discover(c).value, c);
    assert p in DiscoveredPairs(view, PushedClusters(items, [], {}));
    assert p in Swept(items, [], {}, remembered, view);
    assert Doomed(items, p, Listed(IdAt(loc), cat[loc]));
  }

  /** The location of a wanted instance with an address. */
  ghost predicate WantedAt(items: seq<Instance>, loc: Loc) {
    exists x :: x in items && (x.status == ONLINE || x.status == UNHEALTHY) && x.ip != "" && LocOf(x) == loc
  }

  /** An owned entry whose composite id is that of a wanted instance of its pair. */
  predicate Covered(items: seq<Instance>, cat: Catalog, loc: Loc) {
    loc in cat && Marked(cat[loc]) && IdAt(loc) in Wanted(items, Pair(loc.service, loc.cluster))
  }

  /** An entry after the apply phase is a registration of a wanted instance, or was there before. */
  lemma LeftOrRegistered(cat: Catalog, instances: Items, answers: seq<Answer>, order: seq<nat>, loc: Loc)
    requires |answers| == |instances| && InRange(instances, order) && loc in AppliedAll(cat, instances, answers, order)
    ensures var after := AppliedAll(cat, instances, answers, order);
      || (loc in cat && after[loc] == cat[loc])
      || (exists x :: x in Present(instances) && Wants(x) && x.ip != "" && LocOf(x) == loc &&
            after[loc] == RegisteredHost(x, true))
  {
    var p := LastHit(cat, instances, answers, order, loc);
    if p >= 0 {
      ItemIsPresent(instances, order[p]);
    }
  }

  /** An owned entry that no id wants is an old one, and so legible. */
  lemma UnwantedIsOld(cat: Catalog, instances: Items, answers: seq<Answer>, order: seq<nat>, loc: Loc)
    requires |answers| == |instances| && InRange(instances, order) && CatalogOk(cat)
    requires var mid := AppliedAll(cat, instances, answers, order);
      loc in mid && Marked(mid[loc]) && !Covered(Present(instances), mid, loc)
    ensures var mid := AppliedAll(cat, instances, answers, order);
      Legible(loc, mid[loc]) && LocAt(loc.service, mid[loc]) == loc
  {
    LeftOrRegistered(cat, instances, answers, order, loc);
    var items, p := Present(instances), Pair(loc.service, loc.cluster);
    assert forall x :: x in items && Wants(x) && LocOf(x) == loc ==> PairOf(x) == p && WireId(x) in Wanted(items, p);
  }

  /** When every call succeeds, the owned entries of every cluster the snapshot speaks for are those
      left by the apply phase whose composite id it wants; other clusters, and foreign entries it does
      not name, are untouched. When no location is both wanted and removed, and ids tell locations
      apart, they are exactly its online and unhealthy instances that have an address. */
  lemma Converges(cat: Catalog, instances: Items, answers: seq<Answer>, order: seq<nat>, remembered: set<Pair>,
                  view: View, loc: Loc)
    requires |answers| == |instances| && Schedule(instances, order) && AllDone(instances, answers) && CatalogOk(cat)
    requires Accurate(view, AppliedAll(cat, instances, answers, order))
    ensures var final, items, mid :=
        Final(cat, instances, answers, order, remembered, view), Present(instances),
          AppliedAll(cat, instances, answers, order);
      && (loc.cluster in PushedClusters(items, [], {}) ==>
            ((loc in final && Marked(final[loc])) <==> Covered(items, mid, loc)))
      && (loc.cluster in PushedClusters(items, [], {}) && Consistent(items) && TellsApart(items, mid) ==>
            ((loc in final && Marked(final[loc])) <==> WantedAt(items, loc)))
      && (loc.cluster !in PushedClusters(items, [], {}) ==>
            (loc in final <==> loc in cat) && (loc in cat ==> final[loc] == cat[loc]))
      && (loc in cat && !Marked(cat[loc]) && (forall x :: x in items && Participates(x) ==> LocOf(x) != loc) ==>
            loc in final && final[loc] == cat[loc])
  {
    var items, mid := Present(instances), AppliedAll(cat, instances, answers, order);
    NothingSkipped(instances, answers);
    var pruned := Pruned(items, [], {}, remembered, view);
    assert Final(cat, instances, answers, order, remembered, view) == mid - pruned;
    if loc in pruned {
      PrunedIsUncovered(items, remembered, view, mid, loc);
    }
    if loc.cluster in PushedClusters(items, [], {}) {
      if loc in mid && Marked(mid[loc]) && !Covered(items, mid, loc) {
        UnwantedIsOld(cat, instances, answers, order, loc);
        UnwantedGoes(items, remembered, view, mid, loc);
      }
      if Consistent(items) && TellsApart(items, mid) {
        CoveredIsWanted(cat, instances, answers, order, loc);
      }
    } else {
      OtherClustersStay(cat, instances, answers, order, loc);
    }
    if loc in cat && !Marked(cat[loc]) && forall x :: x in items && Participates(x) ==> LocOf(x) != loc {
      ForeignStays(cat, instances, answers, order, loc);
    }
  }

  lemma PrunedIsUncovered(items: seq<Instance>, remembered: set<Pair>, view: View, mid: Catalog, loc: Loc)
    requires Accurate(view, mid) && loc in Pruned(items, [], {}, remembered, view)
    ensures loc in mid && Marked(mid[loc]) && !Covered(items, mid, loc) && loc.cluster in PushedClusters(items, [], {})
  {
    PruneSafety(items, [], {}, remembered, view, loc);
  }

  lemma OtherClustersStay(cat: Catalog, instances: Items, answers: seq<Answer>, order: seq<nat>, loc: Loc)
    requires |answers| == |instances| && InRange(instances, order) &&
      loc.cluster !in PushedClusters(Present(instances), [], {})
    ensures Unaffected(cat, AppliedAll(cat, instances, answers, order), loc)
  {
    var p := LastHit(cat, instances, answers, order, loc);
    if p >= 0 {
      ItemIsPresent(instances, order[p]);
    }
  }

  lemma ForeignStays(cat: Catalog, instances: Items, answers: seq<Answer>, order: seq<nat>, loc: Loc)
    requires |answers| == |instances| && InRange(instances, order)
    requires forall x :: x in Present(instances) && Participates(x) ==> LocOf(x) != loc
    ensures Unaffected(cat, AppliedAll(cat, instances, answers, order), loc)
  {
    var p := LastHit(cat, instances, answers, order, loc);
    if p >= 0 {
      ItemIsPresent(instances, order[p]);
    }
  }

  lemma CoveredIsWanted(cat: Catalog, instances: Items, answers: seq<Answer>, order: seq<nat>, loc: Loc)
    requires |answers| == |instances| && Schedule(instances, order) && AllDone(instances, answers) && CatalogOk(cat)
    requires Consistent(Present(instances)) &&
      TellsApart(Present(instances), AppliedAll(cat, instances, answers, order))
    ensures Covered(Present(instances), AppliedAll(cat, instances, answers, order), loc) <==>
      WantedAt(Present(instances), loc)
  {
    var items, mid, p := Present(instances), AppliedAll(cat, instances, answers, order), Pair(loc.service, loc.cluster);
    AppliedClean(cat, instances, answers, order, loc);
    if WantedAt(items, loc) {
      var x :| x in items && Wants(x) && x.ip != "" && LocOf(x) == loc;
      assert PairOf(x) == p && WireId(x) in Wanted(items, p);
    }
  }

  // ---------------------------------------------------------------- serialised scopes

  /** The batches of one service and cluster run one after the other; the items of a batch overlap. */
  ghost predicate Serial(batches: seq<Batch>, order: seq<nat>) {
    forall b, c, p, q ::
      && 0 <= b < c < |batches|
      && batches[b].key.service == batches[c].key.service && batches[b].key.cluster == batches[c].key.cluster
      && 0 <= p < |order| && 0 <= q < |order| && order[p] in batches[b].indexes && order[q] in batches[c].indexes ==>
        p < q
  }

  /** The batch carries an item with an address at the location. */
  predicate Names(batch: Batch, loc: Loc) {
    exists t :: 0 <= t < |batch.items| && batch.items[t].ip != "" && LocOf(batch.items[t]) == loc
  }

  /** The last batch that names the location, or -1. */
  function LastNaming(batches: seq<Batch>, loc: Loc): (c: int)
    ensures -1 <= c < |batches|
    ensures c >= 0 ==> Names(batches[c], loc)
    ensures forall b :: c < b < |batches| ==> !Names(batches[b], loc)
  {
    if batches == [] then -1
    else if Names(batches[|batches| - 1], loc) then |batches| - 1
    else LastNaming(batches[..|batches| - 1], loc)
  }

  /** A naming batch has an effective call at the location, and belongs to its service and cluster. */
  lemma NamingHits(instances: Items, answers: seq<Answer>, batches: seq<Batch>, max: nat, order: seq<nat>, c: nat,
                   loc: Loc)
    returns (q: nat)
    requires |answers| == |instances| && Schedule(instances, order) && AllDone(instances, answers)
    requires Partition(instances, batches, max) && c < |batches| && Names(batches[c], loc)
    ensures q < |order| && order[q] in batches[c].indexes && Hits(instances, answers, order, q, loc)
    ensures batches[c].key.service == loc.service && batches[c].key.cluster == loc.cluster
  {
    PartitionPlacesOnce(instances, batches, max);
    var t :| 0 <= t < |batches[c].items| && batches[c].items[t].ip != "" && LocOf(batches[c].items[t]) == loc;
    assert BatchOk(instances, batches[c], max);
    var i := batches[c].indexes[t];
    assert HasKey(instances[i], batches[c].key);
    assert i in order;
    q :| 0 <= q < |order| && order[q] == i;
  }

  /** Every scheduled position sits in a batch of its own operation. */
  lemma BatchOfCall(instances: Items, batches: seq<Batch>, max: nat, i: nat) returns (b: nat)
    requires Partition(instances, batches, max) && i < |instances| && Admitted(instances[i])
    ensures b < |batches| && i in batches[b].indexes && HasKey(instances[i], batches[b].key)
    ensures instances[i].value.ip != "" ==> Names(batches[b], LocOf(instances[i].value))
  {
    PartitionPlacesOnce(instances, batches, max);
    var c, t :| 0 <= c < |batches| && 0 <= t < |batches[c].indexes| && batches[c].indexes[t] == i;
    assert BatchOk(instances, batches[c], max);
    assert batches[c].items[t] == instances[i].value;
    b := c;
  }

  /** What serialised batches leave at a location: the last one that names it decides, by its operation. */
  lemma SerialDecides(cat: Catalog, instances: Items, answers: seq<Answer>, batches: seq<Batch>, max: nat,
                      order: seq<nat>, loc: Loc)
    requires |answers| == |instances| && Schedule(instances, order) && AllDone(instances, answers)
    requires Partition(instances, batches, max) && Serial(batches, order)
    ensures var c, mid := LastNaming(batches, loc), AppliedAll(cat, instances, answers, order);
      if c == -1 then Unaffected(cat, mid, loc)
      else if batches[c].key.op.Deregister? then loc !in mid
      else loc in mid && exists x ::
        x in Present(instances) && Wants(x) && LocOf(x) == loc && mid[loc] == RegisteredHost(x, true)
  {
    var p := LastHit(cat, instances, answers, order, loc);
    var c := LastNaming(batches, loc);
    if c >= 0 {
      var q := NamingHits(instances, answers, batches, max, order, c, loc);
      assert q <= p;
    }
    if p >= 0 {
      var b := BatchOfCall(instances, batches, max, order[p]);
      ItemIsPresent(instances, order[p]);
      assert b <= c && LocOf(instances[order[p]].value) == loc;
      assert b == c;
    }
  }

  lemma RegisteredIsCovered(items: seq<Instance>, cat: Catalog, loc: Loc, x: Instance)
    requires x in items && Wants(x) && LocOf(x) == loc && loc in cat && cat[loc] == RegisteredHost(x, true)
    ensures Covered(items, cat, loc)
  {
    assert PairOf(x) == Pair(loc.service, loc.cluster) && WireId(x) == IdAt(loc);
  }

  lemma SerialCovers(cat: Catalog, instances: Items, answers: seq<Answer>, batches: seq<Batch>, max: nat,
                     order: seq<nat>, loc: Loc)
    requires |answers| == |instances| && Schedule(instances, order) && AllDone(instances, answers)
    requires Partition(instances, batches, max) && Serial(batches, order)
    ensures var c, items := LastNaming(batches, loc), Present(instances);
      Covered(items, AppliedAll(cat, instances, answers, order), loc) <==>
        if c == -1 then Covered(items, cat, loc) else batches[c].key.op.Register?
  {
    var mid, c := AppliedAll(cat, instances, answers, order), LastNaming(batches, loc);
    SerialDecides(cat, instances, answers, batches, max, order, loc);
    if c >= 0 && batches[c].key.op.Register? {
      var x :| x in Present(instances) && Wants(x) && LocOf(x) == loc && mid[loc] == RegisteredHost(x, true);
      RegisteredIsCovered(Present(instances), mid, loc, x);
    }
  }

  /** With serialised scopes a location may be both wanted and removed: when every call succeeds, an
      owned entry stays in a cluster of the snapshot iff the last batch that names it registers, or
      none names it and the snapshot wants its id. */
  lemma ConvergesSerially(cat: Catalog, instances: Items, answers: seq<Answer>, batches: seq<Batch>, max: nat,
                          order: seq<nat>, remembered: set<Pair>, view: View, loc: Loc)
    requires |answers| == |instances| && Schedule(instances, order) && AllDone(instances, answers) && CatalogOk(cat)
    requires Partition(instances, batches, max) && Serial(batches, order)
    requires Accurate(view, AppliedAll(cat, instances, answers, order))
    requires loc.cluster in PushedClusters(Present(instances), [], {})
    ensures var final, c := Final(cat, instances, answers, order, remembered, view), LastNaming(batches, loc);
      (loc in final && Marked(final[loc])) <==>
        if c == -1 then Covered(Present(instances), cat, loc) else batches[c].key.op.Register?
  {
    SerialCovers(cat, instances, answers, batches, max, order, loc);
    Converges(cat, instances, answers, order, remembered, view, loc);
  }

  /** Batches run in the order in which they were opened, not in the order of their items: a removal
      that joins a batch opened before the registration is overtaken by it, and the location stays. */
  lemma LaterRemovalIsOvertaken(other: Instance, x: Instance, y: Instance, batches: seq<Batch>, max: nat)
    requires other.status == OFFLINE && x.status == ONLINE && y.status == OFFLINE
    requires PairOf(other) == PairOf(x) && LocOf(other) != LocOf(x) && LocOf(y) == LocOf(x) && x.ip != ""
    requires max >= 2 && Partition([Some(other), Some(x), Some(y)], batches, max) && FirstSeen(batches)
    ensures var c := LastNaming(batches, LocOf(x)); c >= 0 && batches[c].key.op.Register?
  {
    var items: Items := [Some(other), Some(x), Some(y)];
    var r := BatchOfCall(items, batches, max, 1);
    var c := LastNaming(batches, LocOf(x));
    if batches[c].key.op.Deregister? {
      RemovalOpensFirst(items, batches, max, c, r);
    }
  }

  lemma BatchIndex(instances: Items, batches: seq<Batch>, max: nat, b: nat, t: nat)
    requires Partition(instances, batches, max) && b < |batches| && t < |batches[b].indexes|
    ensures batches[b].indexes[t] < |instances| && HasKey(instances[batches[b].indexes[t]], batches[b].key)
    ensures t < |batches[b].items| && instances[batches[b].indexes[t]] == Some(batches[b].items[t])
  {
    PartitionPlacesOnce(instances, batches, max);
    assert BatchOk(instances, batches[b], max);
  }

  /** A removal, a registration and a removal of the same key as the first. */
  predicate TwoRemovals(items: Items) {
    && |items| == 3 && Admitted(items[0]) && Admitted(items[1]) && Admitted(items[2])
    && KeyOf(items[0].value) == KeyOf(items[2].value) && KeyOf(items[0].value).op.Deregister?
    && KeyOf(items[1].value).op.Register?
  }

  lemma IndexByOperation(items: Items, batches: seq<Batch>, max: nat, b: nat, t: nat)
    requires TwoRemovals(items) && Partition(items, batches, max) && b < |batches| && t < |batches[b].indexes|
    ensures batches[b].key.op.Register? <==> batches[b].indexes[t] == 1
    ensures batches[b].key.op.Deregister? ==> batches[b].indexes[t] in {0, 2} && batches[b].key == KeyOf(items[0].value)
  {
    BatchIndex(items, batches, max, b, t);
  }

  /** In such a snapshot the batch of removals is opened before the batch of the registration. */
  lemma RemovalOpensFirst(items: Items, batches: seq<Batch>, max: nat, c: nat, r: nat)
    requires TwoRemovals(items) && max >= 2 && Partition(items, batches, max) && FirstSeen(batches)
    requires c < |batches| && r < |batches| && batches[c].key.op.Deregister? && 1 in batches[r].indexes
    ensures c < r
  {
    var t :| 0 <= t < |batches[r].indexes| && batches[r].indexes[t] == 1;
    IndexByOperation(items, batches, max, r, t);
    IndexByOperation(items, batches, max, r, 0);
    IndexByOperation(items, batches, max, c, 0);
    RemovalsTogether(items, batches, max, c);
  }

  lemma AllRemovals(items: Items, batches: seq<Batch>, max: nat, b: nat)
    requires TwoRemovals(items) && Partition(items, batches, max) && b < |batches| && batches[b].key.op.Deregister?
    ensures forall v :: 0 <= v < |batches[b].indexes| ==> batches[b].indexes[v] != 1
  {
    forall v | 0 <= v < |batches[b].indexes|
      ensures batches[b].indexes[v] != 1
    {
      IndexByOperation(items, batches, max, b, v);
    }
  }

  lemma RemovalsTogether(items: Items, batches: seq<Batch>, max: nat, c: nat)
    requires TwoRemovals(items) && max >= 2 && Partition(items, batches, max) && FirstSeen(batches)
    requires c < |batches| && batches[c].key.op.Deregister?
    ensures batches[c].indexes[0] == 0
  {
    IndexByOperation(items, batches, max, c, 0);
    var b := BatchOfCall(items, batches, max, 0);
    var u :| 0 <= u < |batches[b].indexes| && batches[b].indexes[u] == 0;
    IndexByOperation(items, batches, max, b, u);
    AllRemovals(items, batches, max, b);
    if b != c {
      OnlyOne(items, batches, max, b, c, u);
    } else if batches[c].indexes[0] == 2 {
      InSnapshotOrder(items, batches, max, c, 0, u);
    }
  }

  /** The positions of a batch are in snapshot order. */
  lemma InSnapshotOrder(items: Items, batches: seq<Batch>, max: nat, b: nat, t: nat, u: nat)
    requires Partition(items, batches, max) && b < |batches| && t < u < |batches[b].indexes|
    ensures batches[b].indexes[t] < batches[b].indexes[u]
  {
    var m := PlaceOf(batches, b, t);
    var n := PlaceOf(batches, b, u);
    IndexesElements(items, batches[b].key);
  }

  /** Two removal batches cannot share the two removals: the first would have to be full. */
  lemma OnlyOne(items: Items, batches: seq<Batch>, max: nat, b: nat, c: nat, u: nat)
    requires |items| == 3 && max >= 2 && Partition(items, batches, max) && FirstSeen(batches)
    requires b < |batches| && c < |batches| && b != c && batches[b].key == batches[c].key
    requires u < |batches[b].indexes| && batches[b].indexes[u] == 0
    requires forall v :: 0 <= v < |batches[b].indexes| ==> batches[b].indexes[v] != 1
    ensures batches[c].indexes[0] != 2
  {
    if batches[c].indexes[0] == 2 {
      BatchIndex(items, batches, max, b, 0);
      assert b < c && |batches[b].indexes| == max;
      BatchIndex(items, batches, max, b, 1);
      if batches[b].indexes[1] == 0 {
        PartitionIsInjective(items, batches, max, b, 0, b, 1);
      } else {
        PartitionIsInjective(items, batches, max, b, 1, c, 0);
      }
    }
  }

  // ---------------------------------------------------------------- push after push

  /** The catalog holds the registration of a wanted instance. */
  predicate Holds(cat: Catalog, x: Instance) {
    Wants(x) && x.ip != "" && LocOf(x) in cat && cat[LocOf(x)] == RegisteredHost(x, true)
  }

  /** The catalog a push leaves is again one a push may start from exactly when every instance whose
      registration it holds keeps its cluster on the way back. */
  lemma FinalCatalogOk(cat: Catalog, instances: Items, answers: seq<Answer>, order: seq<nat>, remembered: set<Pair>,
                       view: View)
    requires |answers| == |instances| && Schedule(instances, order) && CatalogOk(cat)
    ensures var final := Final(cat, instances, answers, order, remembered, view);
      CatalogOk(final) <==> forall x :: x in Present(instances) && Holds(final, x) ==> KeepsCluster(x)
  {
    var final, items := Final(cat, instances, answers, order, remembered, view), Present(instances);
    forall loc | loc in final
      ensures LeftOrHeld(cat, final, items, loc)
    {
      FinalEntry(cat, instances, answers, order, remembered, view, loc);
    }
    if forall x :: x in items && Holds(final, x) ==> KeepsCluster(x) {
      HeldIsLegible(cat, final, items);
    }
    if CatalogOk(final) {
      forall x | x in items && Holds(final, x)
        ensures KeepsCluster(x)
      {
        HeldKeepsCluster(final, x);
      }
    }
  }

  lemma HeldKeepsCluster(cat: Catalog, x: Instance)
    requires CatalogOk(cat) && Holds(cat, x)
    ensures KeepsCluster(x)
  {
    var loc := LocOf(x);
    assert Marked(cat[loc]) && Legible(loc, cat[loc]);
    RegisteredIsLegible(x);
  }

  ghost predicate LeftOrHeld(cat: Catalog, final: Catalog, items: seq<Instance>, loc: Loc)
    requires loc in final
  {
    (loc in cat && final[loc] == cat[loc]) || exists x :: x in items && LocOf(x) == loc && Holds(final, x)
  }

  lemma FinalEntry(cat: Catalog, instances: Items, answers: seq<Answer>, order: seq<nat>, remembered: set<Pair>,
                   view: View, loc: Loc)
    requires |answers| == |instances| && InRange(instances, order)
    requires loc in Final(cat, instances, answers, order, remembered, view)
    ensures LeftOrHeld(cat, Final(cat, instances, answers, order, remembered, view), Present(instances), loc)
  {
    var final, mid := Final(cat, instances, answers, order, remembered, view),
      AppliedAll(cat, instances, answers, order);
    assert loc in mid && final[loc] == mid[loc];
    LeftOrRegistered(cat, instances, answers, order, loc);
    if !(loc in cat && final[loc] == cat[loc]) {
      var x :| x in Present(instances) && Wants(x) && x.ip != "" && LocOf(x) == loc &&
        mid[loc] == RegisteredHost(x, true);
      assert Holds(final, x);
    }
  }

  lemma HeldIsLegible(cat: Catalog, final: Catalog, items: seq<Instance>)
    requires CatalogOk(cat) && forall x :: x in items && Holds(final, x) ==> KeepsCluster(x)
    requires forall loc :: loc in final ==> LeftOrHeld(cat, final, items, loc)
    ensures CatalogOk(final)
  {
    forall loc | loc in final
      ensures LocAt(loc.service, final[loc]) == loc && (Marked(final[loc]) ==> Legible(loc, final[loc]))
    {
      if !(loc in cat && final[loc] == cat[loc]) {
        var x :| x in items && LocOf(x) == loc && Holds(final, x);
        RegisteredIsLegible(x);
      }
    }
  }

  /** Pushing the same snapshot again deregisters nothing. */
  lemma SecondPushPrunesNothing(cat: Catalog, instances: Items, answers: seq<Answer>, order: seq<nat>,
                                remembered: set<Pair>, view: View,
                                answers': seq<Answer>, order': seq<nat>, remembered': set<Pair>, view': View)
    requires |answers| == |instances| && Schedule(instances, order) && AllDone(instances, answers)
    requires Consistent(Present(instances)) && CatalogOk(cat)
    requires Accurate(view, AppliedAll(cat, instances, answers, order))
    requires |answers'| == |instances| && Schedule(instances, order') && AllDone(instances, answers')
    requires var final := Final(cat, instances, answers, order, remembered, view);
             Accurate(view', AppliedAll(final, instances, answers', order'))
    ensures Pruned(Present(instances), [], {}, remembered', view') == {}
  {
    var items := Present(instances);
    var final := Final(cat, instances, answers, order, remembered, view);
    var mid := AppliedAll(final, instances, answers', order');
    if loc :| loc in Pruned(items, [], {}, remembered', view') {
      AccurateIsHonest(view', mid, loc);
      PruneSafety(items, [], {}, remembered', view', loc);
      var h :| h in view'.list(Pair(loc.service, loc.cluster)).hosts && Marked(h.host) &&
        LocAt(loc.service, h.host) == loc;
      assert loc in mid && mid[loc] == h.host;
      assert h.id == IdAt(loc);
      AppliedClean(final, instances, answers', order', loc);
      Converges(cat, instances, answers, order, remembered, view, loc);
    }
  }
}
