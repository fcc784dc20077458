/** The write gate in front of the Nacos sink. */
module EndToEnd {
  import opened Instances
  import opened OrderedGate
  import opened GateMachine
  import GateTheorems
  import opened NacosSink
  import NacosTheorems
  import opened Wire

  /** In any interleaving, while a plain PushAll is at the sink, the prune it runs
      cannot remove an identity the gate knows to be live: the snapshot carries the
      identity, and if it carries it as online or unhealthy its location is not pruned,
      whatever the sink remembers, whichever scopes failed and however stale its reads
      are, unless the registry lists the location under a foreign id. An identity that
      it carries as offline or with an unknown status may be pruned. */
  lemma PlainPushAllPrunesNoLiveIdentity(tr: GateTheorems.Trace, i: nat, t: Tid, k: Key,
                                         skipped: set<Pair>, remembered: set<Pair>, view: View)
    requires GateTheorems.IsTrace(tr) && i < |tr.states|
    requires At(tr.states[i], t) && Pushing(tr.states[i].threads[t]) && tr.states[i].threads[t].call.PushAll?
    requires k in tr.states[i].ledger && !tr.states[i].ledger[k].tombstone
    ensures var payload := tr.states[i].threads[t].pc.payload;
      exists x :: x in payload && IdentityKey(x) == k &&
        (Wants(x) && NacosTheorems.HonestAt(view, LocOf(x)) ==>
          LocOf(x) !in Pruned(payload, [], skipped, remembered, view))
  {
    GateTheorems.FullPushIsComplete(tr, i, t);
    var payload := tr.states[i].threads[t].pc.payload;
    assert k in KeysOf(payload);
    var x :| x in payload && IdentityKey(x) == k;
    if Wants(x) && LocOf(x) in Pruned(payload, [], skipped, remembered, view) {
      NacosTheorems.PruneSafety(payload, [], skipped, remembered, view, LocOf(x));
    }
  }

  /** The registry lists an owned host at `loc` that reads back as identity `k`. */
  ghost predicate ListedAs(view: View, loc: Loc, k: Key) {
    var listing := view.list(Pair(loc.service, loc.cluster));
    listing.Hosts? &&
    exists h :: h in listing.hosts && Marked(h.host) && LocAt(loc.service, h.host) == loc &&
      IdentityKey(ReconstructForTransport(loc.service, h.host, true)) == k
  }

  /** The snapshot carries the identity as not offline. */
  ghost predicate CarriesLive(payload: seq<Instance>, k: Key) {
    exists x :: x in payload && IdentityKey(x) == k && x.status != OFFLINE
  }

  lemma MarkOfCarried(items: seq<Instance>, trigger: int, k: Key)
    requires DistinctKeys(items) && k in KeysOf(items)
    ensures k in MarksOf(items, trigger) && (MarksOf(items, trigger)[k].tombstone <==> !CarriesLive(items, k))
  {
    MarksElements(items, trigger);
    var x :| x in items && IdentityKey(x) == k && MarksOf(items, trigger)[k] == MarkOf(x, trigger);
    forall y | y in items && IdentityKey(y) == k
      ensures y == x
    {
      SameKeySame(items, x, y);
    }
  }

  lemma CarriedMark(tr: GateTheorems.Trace, i: nat, k: Key)
    requires GateTheorems.IsTrace(tr) && i < |tr.actions| && tr.actions[i].CommitPush?
    requires !Shared(tr.states[i].threads[tr.actions[i].t])
    requires k in KeysOf(tr.states[i].threads[tr.actions[i].t].pc.payload)
    ensures k in tr.states[i + 1].ledger
    ensures tr.states[i + 1].ledger[k].tombstone <==> !CarriesLive(tr.states[i].threads[tr.actions[i].t].pc.payload, k)
  {
    var s, t := tr.states[i], tr.actions[i].t;
    GateTheorems.FullPushIsComplete(tr, i, t);
    GateTheorems.Reachable(tr, i);
    var pc := s.threads[t].pc;
    assert FlightOk(s, s.threads[t]);
    MarkOfCarried(pc.payload, pc.req.trigger, k);
  }

  lemma SameKeySame(items: seq<Instance>, x: Instance, y: Instance)
    requires DistinctKeys(items) && x in items && y in items && IdentityKey(x) == IdentityKey(y)
    ensures x == y
  {
    var a :| 0 <= a < |items| && items[a] == x;
    var b :| 0 <= b < |items| && items[b] == y;
    assert a == b;
  }

  /** Retired by the commit: not carried as live, and carried as offline or last recorded under the scope. */
  ghost predicate RetiredByScope(tr: GateTheorems.Trace, i: nat, k: Key, payload: seq<Instance>, scope: string)
    requires GateTheorems.IsTrace(tr) && i < |tr.states|
  {
    !CarriesLive(payload, k) && (k in KeysOf(payload) || exists j :: GateTheorems.LastRecorded(tr, i, j, k, scope))
  }

  /** Step `i` commits a scoped operation that delivered `payload`. */
  ghost predicate CommitsScoped(tr: GateTheorems.Trace, i: nat, payload: seq<Instance>, scope: string) {
    && GateTheorems.IsTrace(tr) && i < |tr.actions| && tr.actions[i].CommitPush?
    && At(tr.states[i], tr.actions[i].t)
    && var th := tr.states[i].threads[tr.actions[i].t];
    th.pc.Acked? && th.pc.payload == payload && th.call.PushAllOperation? && th.call.scope == scope && scope != ""
  }

  /** What the commit of a scoped operation makes of a live identity. */
  lemma ScopedOutcome(tr: GateTheorems.Trace, i: nat, payload: seq<Instance>, scope: string, k: Key)
    requires CommitsScoped(tr, i, payload, scope)
    requires k in tr.states[i].ledger && !tr.states[i].ledger[k].tombstone
    ensures k in tr.states[i + 1].ledger
    ensures tr.states[i + 1].ledger[k].tombstone <==> RetiredByScope(tr, i, k, payload, scope)
  {
    var s, t := tr.states[i], tr.actions[i].t;
    GateTheorems.FullPushIsComplete(tr, i, t);
    var pc := s.threads[t].pc;
    var answer :| Asks(s.threads[t].call, answer, pc.req);
    assert pc.req.full && pc.req.trusted && pc.req.scope == scope;
    if k in KeysOf(payload) {
      CarriedMark(tr, i, k);
    } else {
      GateTheorems.RetiredExactly(tr, i, k);
      assert !CarriesLive(payload, k);
    }
  }

  /** The scopes a scoped operation prunes explicitly: its own when it is empty, and so confirmed. */
  function SinkScopes(payload: seq<Instance>, scope: string): seq<string> {
    if payload == [] then [scope] else []
  }

  lemma EmptyIsConfirmed(tr: GateTheorems.Trace, i: nat, scope: string)
    requires CommitsScoped(tr, i, [], scope)
    ensures tr.states[i].threads[tr.actions[i].t].call.emptyConfirmed
  {
    var s, t := tr.states[i], tr.actions[i].t;
    GateTheorems.Reachable(tr, i);
    assert FlightOk(s, s.threads[t]);
    if !s.threads[t].call.emptyConfirmed {
      GateTheorems.UnconfirmedNeverPushesEmpty(tr, i, t);
    }
  }

  /** Everything the prune of a scoped operation removes lies in a cluster that the snapshot names, or
      in the scope itself when the snapshot is empty; and no item of the snapshot wants it there, as
      long as the registry lists the location under its own id. */
  lemma PrunedByScope(payload: seq<Instance>, scope: string, remembered: set<Pair>, view: View, loc: Loc)
    requires loc in Pruned(payload, SinkScopes(payload, scope), {}, remembered, view)
    ensures if payload == [] then loc.cluster == scope else exists x :: x in payload && ClusterOf(x) == loc.cluster
    ensures NacosTheorems.HonestAt(view, loc) ==> forall x :: x in payload && Wants(x) ==> LocOf(x) != loc
  {
    NacosTheorems.PruneSafety(payload, SinkScopes(payload, scope), {}, remembered, view, loc);
  }

  /** The snapshot carries the identity as not offline, and does not want it at the location. */
  ghost predicate CarriesElsewhere(payload: seq<Instance>, k: Key, loc: Loc) {
    exists x :: x in payload && IdentityKey(x) == k && x.status != OFFLINE && !(Wants(x) && LocOf(x) == loc)
  }

  /** Neither carried nor last recorded under the scope. */
  ghost predicate OutOfScope(tr: GateTheorems.Trace, i: nat, k: Key, payload: seq<Instance>, scope: string)
    requires GateTheorems.IsTrace(tr) && i < |tr.states|
  {
    k !in KeysOf(payload) && !exists j :: GateTheorems.LastRecorded(tr, i, j, k, scope)
  }

  /** A scoped operation prunes by wire cluster, while the gate retires by scope. Of the live identities
      whose hosts its prune removes, exactly two kinds stay live when it commits: those it carries as
      not offline, which are then not wanted at the pruned location unless the registry lists that one
      under a foreign id, and those it does not carry and that no scoped push, or one of another scope,
      recorded last. */
  lemma PrunedStaysLiveExactly(tr: GateTheorems.Trace, i: nat, payload: seq<Instance>, scope: string, k: Key, loc: Loc,
                               remembered: set<Pair>, view: View)
    requires CommitsScoped(tr, i, payload, scope)
    requires k in tr.states[i].ledger && !tr.states[i].ledger[k].tombstone
    requires loc in Pruned(payload, SinkScopes(payload, scope), {}, remembered, view) && ListedAs(view, loc, k)
    ensures k in tr.states[i + 1].ledger
    ensures !tr.states[i + 1].ledger[k].tombstone <==> CarriesLive(payload, k) || OutOfScope(tr, i, k, payload, scope)
    ensures NacosTheorems.HonestAt(view, loc) ==>
      (!tr.states[i + 1].ledger[k].tombstone <==>
        CarriesElsewhere(payload, k, loc) || OutOfScope(tr, i, k, payload, scope))
  {
    ScopedOutcome(tr, i, payload, scope, k);
    CarriedOrNot(tr, i, payload, scope, k);
    if NacosTheorems.HonestAt(view, loc) {
      PrunedByScope(payload, scope, remembered, view, loc);
      LiveIsElsewhere(payload, k, loc);
    }
  }

  lemma CarriedOrNot(tr: GateTheorems.Trace, i: nat, payload: seq<Instance>, scope: string, k: Key)
    requires GateTheorems.IsTrace(tr) && i < |tr.states|
    ensures !RetiredByScope(tr, i, k, payload, scope) <==>
      CarriesLive(payload, k) || OutOfScope(tr, i, k, payload, scope)
  {
    if CarriesLive(payload, k) {
      assert k in KeysOf(payload);
    }
  }

  lemma LiveIsElsewhere(payload: seq<Instance>, k: Key, loc: Loc)
    requires forall x :: x in payload && Wants(x) ==> LocOf(x) != loc
    ensures CarriesLive(payload, k) <==> CarriesElsewhere(payload, k, loc)
  {
  }
}

/** A run in which a scoped operation prunes an identity that stays live in the ledger: an incremental
    push records it without a scope, and a confirmed empty operation then prunes the cluster it is in. */
module PruneWitness {
  import opened Instances
  import opened KeyOrder
  import opened OrderedGate
  import opened GateMachine
  import GateTheorems
  import opened NacosSink
  import NacosTheorems
  import opened Wire
  import opened EndToEnd

  datatype Setting = Setting(x: Instance, trigger: int, scope: string)

  function PushCall(w: Setting): Call { Call.Push(w.trigger, [Some(w.x)]) }

  function EmptyCall(w: Setting): Call { PushAllOperation(w.trigger, [], false, w.scope, true) }

  function Recorded(w: Setting): Ledger { map[IdentityKey(w.x) := MarkOf(w.x, w.trigger)] }

  function PushRequest(w: Setting): Request { Request(w.trigger, [Some(w.x)], false, false, false, "") }

  function EmptyRequest(w: Setting): Request { Request(w.trigger, [], true, true, false, w.scope) }

  /** The incremental push after `n` steps of the run. */
  function PusherAt(w: Setting, n: nat): Pc {
    if n <= 1 then Called
    else if n == 2 then Reading
    else if n <= 4 then Acquiring(n - 3)
    else if n == 5 then InFlight(PushRequest(w), [w.x], Recorded(w), {})
    else if n == 6 then Acked(PushRequest(w), [w.x], Recorded(w), {})
    else if n <= 8 then Releasing(8 - n)
    else if n == 9 then Unregistered
    else Returned
  }

  /** The empty operation after `n` steps of the run. */
  function EmptierAt(w: Setting, n: nat): Pc {
    if n <= 11 then Called
    else if n == 12 then Writing
    else if n == 13 then InFlight(EmptyRequest(w), [], map[], {})
    else if n == 14 then Acked(EmptyRequest(w), [], map[], {})
    else Releasing(0)
  }

  function StateAt(w: Setting, n: nat): State {
    var k := IdentityKey(w.x);
    State(
      if n >= 7 then Recorded(w) else map[],
      map[], false,
      if n == 3 || n == 8 then map[k := LockEntry(1, None)]
      else if 4 <= n <= 7 then map[k := LockEntry(1, Some(0))]
      else map[],
      if 2 <= n <= 9 then {0} else {},
      if n >= 12 then Some(1) else None,
      if n == 0 then map[]
      else if n <= 10 then map[0 := Thread(PushCall(w), [k], PusherAt(w, n))]
      else map[0 := Thread(PushCall(w), [k], Returned), 1 := Thread(EmptyCall(w), [], EmptierAt(w, n))])
  }

  function ActionAt(w: Setting, n: nat): Action {
    if n == 0 then Arrive(0, PushCall(w), [IdentityKey(w.x)])
    else if n == 1 then EnterShared(0)
    else if n == 2 then RegisterKeys(0)
    else if n == 3 then AcquireKey(0)
    else if n == 4 then CheckShared(0)
    else if n == 5 then Acknowledge(0)
    else if n == 6 then CommitPush(0)
    else if n == 7 then ReleaseKey(0)
    else if n == 8 then UnregisterKeys(0)
    else if n == 9 then LeaveShared(0)
    else if n == 10 then Arrive(1, EmptyCall(w), [])
    else if n == 11 then EnterExclusive(1)
    else if n == 12 then CheckExclusive(1, None)
    else if n == 13 then Acknowledge(1)
    else CommitPush(1)
  }

  predicate Steps(w: Setting, n: nat) {
    Enabled(StateAt(w, n), ActionAt(w, n)) && Do(StateAt(w, n), ActionAt(w, n)) == StateAt(w, n + 1)
  }

  lemma OnePresent(x: Instance)
    ensures Present([Some(x)]) == [x] && KeysOf([x]) == {IdentityKey(x)}
  {
    assert [Some(x)][..0] == [];
  }

  lemma PushIsForwarded(w: Setting)
    ensures Check(map[], PushRequest(w)) == Forward([w.x], Recorded(w), {})
  {
    OnePresent(w.x);
    FreshElements(map[], PushRequest(w), [w.x]);
    assert [w.x][..0] == [];
    assert MarksOf([w.x], w.trigger) == Recorded(w);
    assert Fresh(map[], PushRequest(w), [w.x]) == [w.x];
  }

  lemma EmptyIsForwarded(w: Setting)
    ensures Check(Recorded(w), EmptyRequest(w)) == Forward([], map[], {})
  {
  }

  lemma ArrivesAndRegisters(w: Setting, n: nat)
    requires n <= 2
    ensures Steps(w, n)
  {
    OnePresent(w.x);
    assert SetOf([IdentityKey(w.x)]) == {IdentityKey(w.x)};
  }

  lemma AcquiresAndChecks(w: Setting, n: nat)
    requires 3 <= n <= 5
    ensures Steps(w, n)
  {
    PushIsForwarded(w);
  }

  lemma Commits(w: Setting)
    ensures Steps(w, 6)
  {
    var s := StateAt(w, 6);
    assert Committed(map[], map[], PushRequest(w), Recorded(w), {}) == Recorded(w);
    assert s.threads[0 := Thread(PushCall(w), [IdentityKey(w.x)], Releasing(1))] == StateAt(w, 7).threads;
  }

  lemma Releases(w: Setting, n: nat)
    requires 7 <= n <= 9
    ensures Steps(w, n)
  {
    assert SetOf([IdentityKey(w.x)]) == {IdentityKey(w.x)};
  }

  lemma Empties(w: Setting, n: nat)
    requires 10 <= n <= 13 && w.scope != ""
    ensures Steps(w, n)
  {
    EmptyIsForwarded(w);
  }

  lemma CommitsEmpty(w: Setting)
    requires w.scope != ""
    ensures Steps(w, 14)
  {
    assert Committed(Recorded(w), map[], EmptyRequest(w), map[], {}) == Recorded(w);
    assert OrderedGate.Recorded(map[], EmptyRequest(w), map[]) == map[];
  }

  lemma EveryStep(w: Setting, n: nat)
    requires n < 15 && w.scope != ""
    ensures Steps(w, n)
  {
    if n <= 2 {
      ArrivesAndRegisters(w, n);
    } else if n <= 5 {
      AcquiresAndChecks(w, n);
    } else if n == 6 {
      Commits(w);
    } else if n <= 9 {
      Releases(w, n);
    } else if n <= 13 {
      Empties(w, n);
    } else {
      CommitsEmpty(w);
    }
  }

  /** The whole run. */
  lemma Run(w: Setting) returns (tr: GateTheorems.Trace)
    requires w.scope != ""
    ensures GateTheorems.IsTrace(tr) && |tr.actions| == 15
    ensures tr.actions[14] == CommitPush(1) && tr.states[14] == StateAt(w, 14) && tr.states[15] == StateAt(w, 15)
  {
    tr := GateTheorems.Trace(seq(16, n requires n >= 0 => StateAt(w, n)), seq(15, n requires n >= 0 => ActionAt(w, n)));
    forall n | 0 <= n < |tr.actions|
      ensures Enabled(tr.states[n], tr.actions[n]) && tr.states[n + 1] == Do(tr.states[n], tr.actions[n])
    {
      EveryStep(w, n);
    }
  }

  /** The registry holds the instance where its registration put it. */
  predicate HoldsRegistration(view: View, x: Instance) {
    view.session && view.discover(ClusterOf(x)) == Some([]) &&
    view.list(PairOf(x)) == Hosts([Listed(WireId(x), RegisteredHost(x, true))])
  }

  lemma RegistrationIsPruned(x: Instance, view: View)
    requires HoldsRegistration(view, x) && ClusterOf(x) != "" && x.sourceKey != ""
    ensures LocOf(x) in Pruned([], [ClusterOf(x)], {}, {PairOf(x)}, view)
    ensures ListedAs(view, LocOf(x), IdentityKey(x))
  {
    var h, p := Listed(WireId(x), RegisteredHost(x, true)), PairOf(x);
    assert PushedClusters([], [ClusterOf(x)], {}) == {ClusterOf(x)};
    assert p in Swept([], [ClusterOf(x)], {}, {p}, view);
    assert Doomed([], p, h) && h in view.list(p).hosts && LocAt(p.service, h.host) == LocOf(x);
    ReconstructRegistered(x, RegisteredHost(x, true), true);
    assert CanonicalPayload(ReconstructForTransport(x.appCode, RegisteredHost(x, true), true)).sourceKey == x.sourceKey;
  }

  /** An identity that only an incremental push recorded is pruned by a scoped operation that empties
      its cluster, and stays live in the ledger. */
  lemma PrunedButLive(w: Setting, view: View) returns (tr: GateTheorems.Trace)
    requires w.x.status == ONLINE && w.x.sourceKey != "" && ClusterOf(w.x) == w.scope && w.scope != ""
    requires HoldsRegistration(view, w.x)
    ensures CommitsScoped(tr, 14, [], w.scope)
    ensures LocOf(w.x) in Pruned([], SinkScopes([], w.scope), {}, {PairOf(w.x)}, view)
    ensures ListedAs(view, LocOf(w.x), IdentityKey(w.x))
    ensures var k := IdentityKey(w.x);
      && k in tr.states[14].ledger && !tr.states[14].ledger[k].tombstone
      && k in tr.states[15].ledger && !tr.states[15].ledger[k].tombstone
  {
    tr := Run(w);
    RegistrationIsPruned(w.x, view);
  }
}
