/** What holds in every run of the gate machine: the promises of the ordered
    write gate (pkg/worker/fanout.go), over all interleavings. */
module GateTheorems {
  import opened Instances
  import opened KeyOrder
  import opened OrderedGate
  import opened GateMachine

  datatype Trace = Trace(states: seq<State>, actions: seq<Action>)

  ghost predicate IsTrace(tr: Trace) {
    && |tr.states| == |tr.actions| + 1
    && Init(tr.states[0])
    && forall i :: 0 <= i < |tr.actions| ==>
         Enabled(tr.states[i], tr.actions[i]) && tr.states[i + 1] == Do(tr.states[i], tr.actions[i])
  }

  lemma {:induction false} Reachable(tr: Trace, i: nat)
    requires IsTrace(tr) && i < |tr.states|
    ensures Inv(tr.states[i])
  {
    if i == 0 {
      forall k ensures EntryOk(tr.states[0], k) {
        assert Users(tr.states[0], k) == {};
      }
    } else {
      Reachable(tr, i - 1);
      KeepsInv(tr.states[i - 1], tr.actions[i - 1]);
    }
  }

  // ---------------------------------------------------------------- the ledger only moves forward

  /** Step `a` brings `k` back at the revision of its tombstone: a trusted,
      revalidated full push acknowledged by the sink. */
  ghost predicate HealedBy(s: State, a: Action, k: Key) {
    && a.CommitPush? && At(s, a.t) && s.threads[a.t].pc.Acked?
    && var pc := s.threads[a.t].pc;
    && pc.req.full && pc.req.trusted && pc.req.revalidated
    && k in s.ledger && s.ledger[k].tombstone
    && k in pc.marks && pc.marks[k] == Mark(s.ledger[k].revision, false)
  }

  lemma StepAdvances(s: State, a: Action, k: Key)
    requires Inv(s) && Enabled(s, a) && k in s.ledger && !Do(s, a).closed
    ensures k in Do(s, a).ledger
    ensures Do(s, a).ledger[k].revision >= s.ledger[k].revision
    ensures s.ledger[k].tombstone && !Do(s, a).ledger[k].tombstone ==>
      Do(s, a).ledger[k].revision > s.ledger[k].revision || HealedBy(s, a, k)
  {
    if a.CommitPush? {
      assert ThreadOk(s.threads[a.t]) && FlightOk(s, s.threads[a.t]);
      ForwardAdvances(s.ledger, s.threads[a.t].pc.req);
    }
  }

  lemma {:induction false} OpenBefore(tr: Trace, i: nat, j: nat)
    requires IsTrace(tr) && i <= j < |tr.states| && !tr.states[j].closed
    ensures !tr.states[i].closed
    decreases j - i
  {
    if i < j {
      OpenBefore(tr, i + 1, j);
    }
  }

  /** Before Close an identity's recorded revision never decreases and is never forgotten. */
  lemma {:induction false} RevisionNeverDecreases(tr: Trace, i: nat, j: nat, k: Key)
    requires IsTrace(tr) && i <= j < |tr.states| && !tr.states[j].closed
    requires k in tr.states[i].ledger
    ensures k in tr.states[j].ledger
    ensures tr.states[j].ledger[k].revision >= tr.states[i].ledger[k].revision
    decreases j - i
  {
    if i < j {
      OpenBefore(tr, i + 1, j);
      Reachable(tr, i);
      StepAdvances(tr.states[i], tr.actions[i], k);
      RevisionNeverDecreases(tr, i + 1, j, k);
    }
  }

  /** A removed identity is live again later only at a strictly larger revision,
      or because a trusted, revalidated full push healed it in between. */
  lemma {:induction false} NoResurrection(tr: Trace, i: nat, j: nat, k: Key)
    requires IsTrace(tr) && i <= j < |tr.states| && !tr.states[j].closed
    requires k in tr.states[i].ledger && tr.states[i].ledger[k].tombstone
    requires k in tr.states[j].ledger && !tr.states[j].ledger[k].tombstone
    ensures
      || tr.states[j].ledger[k].revision > tr.states[i].ledger[k].revision
      || exists l :: i <= l < j && HealedBy(tr.states[l], tr.actions[l], k) &&
           tr.states[l].ledger[k].revision == tr.states[i].ledger[k].revision
    decreases j - i
  {
    if i < j {
      OpenBefore(tr, i + 1, j);
      Reachable(tr, i);
      StepAdvances(tr.states[i], tr.actions[i], k);
      RevisionNeverDecreases(tr, i + 1, j, k);
      if tr.states[i + 1].ledger[k].tombstone {
        NoResurrection(tr, i + 1, j, k);
      }
    }
  }

  /** Only an acknowledged push or Close changes what the gate has recorded; in
      particular a push the inner sink rejected leaves the ledger as it was. */
  lemma LedgerChangesOnlyByCommit(s: State, a: Action)
    requires Enabled(s, a) && !a.CommitPush? && !a.Shut?
    ensures Do(s, a).ledger == s.ledger && Do(s, a).scopes == s.scopes
  {
  }

  // ---------------------------------------------------------------- linearizability

  function GateOf(s: State): Gate {
    Gate(s.ledger, s.scopes, s.closed)
  }

  lemma FlightAsks(s: State, t: Tid)
    requires At(s, t) && Pushing(s.threads[t]) && FlightOk(s, s.threads[t])
    ensures exists answer :: Asks(s.threads[t].call, answer, s.threads[t].pc.req)
  {
    var answer :| Resolve(s.threads[t].call, answer) == Some(s.threads[t].pc.req);
    ResolveIsExact(s.threads[t].call, answer, s.threads[t].pc.req);
  }

  /** Although other callers run between its check, its push and its commit, an
      acknowledged push takes effect exactly as if check, push and commit were one
      step at the commit; every other step but Close leaves the gate alone. */
  lemma Linearizable(tr: Trace, i: nat)
    requires IsTrace(tr) && i < |tr.actions|
    ensures var s, a, s' := tr.states[i], tr.actions[i], tr.states[i + 1];
      if a.CommitPush? then
        && (exists answer :: Asks(s.threads[a.t].call, answer, s.threads[a.t].pc.req))
        && Run(GateOf(s), s.threads[a.t].pc.req, true) == (GateOf(s'), Delivered(s.threads[a.t].pc.payload))
      else if a.Shut? then GateOf(s') == if s.closed then GateOf(s) else Gate(map[], map[], true)
      else GateOf(s') == GateOf(s)
  {
    Reachable(tr, i);
    var s, a := tr.states[i], tr.actions[i];
    if a.CommitPush? {
      assert ThreadOk(s.threads[a.t]) && FlightOk(s, s.threads[a.t]);
      FlightAsks(s, a.t);
    }
  }

  // ---------------------------------------------------------------- what a call pushes

  /** The check of a full call lets it push exactly when the gate is open, its request stands (a
      revalidation answered, and an empty snapshot of an explicit scope is confirmed) and the ledger
      forwards that request. */
  lemma CheckDecides(s: State, t: Tid, answer: Option<Items>)
    requires Enabled(s, CheckExclusive(t, answer))
    ensures var th := Do(s, CheckExclusive(t, answer)).threads[t];
      && (Pushing(th) <==>
            !s.closed && exists req :: Asks(s.threads[t].call, answer, req) && Check(s.ledger, req).Forward?)
      && (Pushing(th) ==>
            && Asks(s.threads[t].call, answer, th.pc.req)
            && Check(s.ledger, th.pc.req) == Forward(th.pc.payload, th.pc.marks, th.pc.seen))
  {
    var call := s.threads[t].call;
    forall req
      ensures Resolve(call, answer) == Some(req) <==> Asks(call, answer, req)
    {
      ResolveIsExact(call, answer, req);
    }
  }

  /** A caller that pushes after a step pushed the same before it, unless the step was its check. */
  predicate PushesOn(s: State, a: Action, s': State, t: Tid) {
    At(s', t) && Pushing(s'.threads[t]) ==>
      || (At(s, t) && Pushing(s.threads[t]) && s.threads[t].call == s'.threads[t].call &&
            s.threads[t].pc.req == s'.threads[t].pc.req)
      || (At(s, t) && a.t == t && (a.CheckShared? || a.CheckExclusive?))
  }

  /** A call on its way out of the gate. */
  predicate Leaves(th: Thread) { th.pc.Releasing? || th.pc.Unregistered? || th.pc.Returned? }

  /** A caller past its check does not come back before it. */
  predicate Checked(th: Thread) { Pushing(th) || Leaves(th) }

  predicate StaysChecked(s: State, a: Action, s': State, t: Tid) {
    && (At(s, t) && Checked(s.threads[t]) ==>
          && At(s', t) && Checked(s'.threads[t]) && !(a.t == t && (a.CheckShared? || a.CheckExclusive?)))
    && (a.t == t && (a.CheckShared? || a.CheckExclusive?) ==> At(s', t) && Checked(s'.threads[t]))
  }

  lemma CheckStep(s: State, a: Action, t: Tid)
    requires Enabled(s, a)
    ensures PushesOn(s, a, Do(s, a), t) && StaysChecked(s, a, Do(s, a), t)
  {
    OthersStay(s, a, t);
  }

  /** The request of a caller in flight is the one of the check at step `j`. */
  lemma {:induction false} PushesThrough(tr: Trace, j: nat, i: nat, t: Tid)
    requires |tr.states| == |tr.actions| + 1 && j < i < |tr.states|
    requires tr.actions[j].t == t && (tr.actions[j].CheckShared? || tr.actions[j].CheckExclusive?)
    requires forall m :: 0 <= m < |tr.actions| ==>
      && PushesOn(tr.states[m], tr.actions[m], tr.states[m + 1], t)
      && StaysChecked(tr.states[m], tr.actions[m], tr.states[m + 1], t)
    ensures At(tr.states[i], t) && Checked(tr.states[i].threads[t])
    ensures Pushing(tr.states[i].threads[t]) ==>
      && At(tr.states[j + 1], t) && Pushing(tr.states[j + 1].threads[t])
      && tr.states[j + 1].threads[t].call == tr.states[i].threads[t].call
      && tr.states[j + 1].threads[t].pc.req == tr.states[i].threads[t].pc.req
    decreases i
  {
    assert StaysChecked(tr.states[i - 1], tr.actions[i - 1], tr.states[i], t);
    assert PushesOn(tr.states[i - 1], tr.actions[i - 1], tr.states[i], t);
    if j + 1 < i {
      PushesThrough(tr, j, i - 1, t);
    }
  }

  lemma {:induction false} CheckBefore(tr: Trace, i: nat, t: Tid) returns (j: nat)
    requires |tr.states| == |tr.actions| + 1 && i < |tr.states| && t !in tr.states[0].threads
    requires At(tr.states[i], t) && Pushing(tr.states[i].threads[t])
    requires forall m :: 0 <= m < |tr.actions| ==> PushesOn(tr.states[m], tr.actions[m], tr.states[m + 1], t)
    ensures j < i && tr.actions[j].t == t && (tr.actions[j].CheckShared? || tr.actions[j].CheckExclusive?)
    decreases i
  {
    assert PushesOn(tr.states[i - 1], tr.actions[i - 1], tr.states[i], t);
    if tr.actions[i - 1].t == t && (tr.actions[i - 1].CheckShared? || tr.actions[i - 1].CheckExclusive?) {
      j := i - 1;
    } else {
      j := CheckBefore(tr, i - 1, t);
    }
  }

  lemma ChecksAlong(tr: Trace, t: Tid)
    requires IsTrace(tr)
    ensures forall m :: 0 <= m < |tr.actions| ==>
      && PushesOn(tr.states[m], tr.actions[m], tr.states[m + 1], t)
      && StaysChecked(tr.states[m], tr.actions[m], tr.states[m + 1], t)
  {
    forall m | 0 <= m < |tr.actions|
      ensures PushesOn(tr.states[m], tr.actions[m], tr.states[m + 1], t)
      ensures StaysChecked(tr.states[m], tr.actions[m], tr.states[m + 1], t)
    {
      CheckStep(tr.states[m], tr.actions[m], t);
    }
  }

  predicate KeepsCall(s: State, s': State, t: Tid) {
    At(s, t) ==> At(s', t) && s'.threads[t].call == s.threads[t].call
  }

  lemma {:induction false} CallThrough(states: seq<State>, j: nat, i: nat, t: Tid)
    requires j <= i < |states| && At(states[j], t)
    requires forall m :: j <= m < i ==> KeepsCall(states[m], states[m + 1], t)
    ensures At(states[i], t) && states[i].threads[t].call == states[j].threads[t].call
    decreases i
  {
    if j < i {
      CallThrough(states, j, i - 1, t);
      assert KeepsCall(states[i - 1], states[i], t);
    }
  }

  lemma SameCall(tr: Trace, j: nat, i: nat, t: Tid)
    requires IsTrace(tr) && j <= i < |tr.states| && At(tr.states[j], t)
    ensures At(tr.states[i], t) && tr.states[i].threads[t].call == tr.states[j].threads[t].call
  {
    forall m | j <= m < i
      ensures KeepsCall(tr.states[m], tr.states[m + 1], t)
    {
      OthersStay(tr.states[m], tr.actions[m], t);
    }
    CallThrough(tr.states, j, i, t);
  }

  /** What a caller pushes is what it asked for: its own snapshot, or the answer its revalidation gave in
      the step of its check, with trigger, trust and scope of the call. In particular a revalidation that
      declared the snapshot invalid never leads to a push. */
  lemma PushesWhatItAsked(tr: Trace, j: nat, i: nat, t: Tid, answer: Option<Items>)
    requires IsTrace(tr) && j < i < |tr.states| && tr.actions[j] == CheckExclusive(t, answer)
    ensures At(tr.states[i], t) && (tr.states[i].threads[t].call == tr.states[j].threads[t].call)
    ensures Pushing(tr.states[i].threads[t]) ==>
      Asks(tr.states[i].threads[t].call, answer, tr.states[i].threads[t].pc.req)
    ensures Revalidates(tr.states[i].threads[t].call) && answer.None? ==> !Pushing(tr.states[i].threads[t])
  {
    ChecksAlong(tr, t);
    PushesThrough(tr, j, i, t);
    SameCall(tr, j, i, t);
    assert tr.states[j + 1] == Do(tr.states[j], tr.actions[j]);
    CheckDecides(tr.states[j], t, answer);
  }

  /** Every outstanding push was checked before, a full one with some answer of its producer and an
      incremental one with none; its request is what it asked for then. */
  lemma EveryPushWasAsked(tr: Trace, i: nat, t: Tid) returns (j: nat, answer: Option<Items>)
    requires IsTrace(tr) && i < |tr.states| && At(tr.states[i], t) && Pushing(tr.states[i].threads[t])
    ensures j < i
    ensures tr.actions[j] == (if tr.states[i].threads[t].call.Push? then CheckShared(t) else CheckExclusive(t, answer))
    ensures Asks(tr.states[i].threads[t].call, answer, tr.states[i].threads[t].pc.req)
  {
    ChecksAlong(tr, t);
    j := CheckBefore(tr, i, t);
    SameCall(tr, j, i, t);
    if tr.actions[j].CheckExclusive? {
      answer := tr.actions[j].answer;
      PushesWhatItAsked(tr, j, i, t, answer);
    } else {
      answer := None;
      PushesThrough(tr, j, i, t);
      assert tr.states[j + 1] == Do(tr.states[j], tr.actions[j]);
      ResolveIsExact(tr.states[j].threads[t].call, None, tr.states[j + 1].threads[t].pc.req);
    }
  }

  // ---------------------------------------------------------------- what reaches the inner sink

  /** A full push outstanding at the inner sink carries exactly the non-nil items
      of its snapshot, with distinct identities and nothing stale against the
      ledger as it is now; an untrusted one also names every live identity. */
  lemma FullPushIsComplete(tr: Trace, i: nat, t: Tid)
    requires IsTrace(tr) && i < |tr.states|
    requires At(tr.states[i], t) && Pushing(tr.states[i].threads[t]) && !Shared(tr.states[i].threads[t])
    ensures var s, pc := tr.states[i], tr.states[i].threads[t].pc;
      && pc.payload == Present(pc.req.items)
      && DistinctKeys(pc.payload)
      && (forall x :: x in pc.payload ==> !Stale(s.ledger, pc.req, x))
      && (!pc.req.trusted ==> CoversLive(s.ledger, KeysOf(pc.payload)))
    ensures var call, pc := tr.states[i].threads[t].call, tr.states[i].threads[t].pc;
      exists answer :: Asks(call, answer, pc.req)
  {
    Reachable(tr, i);
    var s := tr.states[i];
    assert ThreadOk(s.threads[t]) && FlightOk(s, s.threads[t]);
    FlightAsks(s, t);
    FullForwardIsExact(s.ledger, s.threads[t].pc.req);
  }

  /** A plain PushAll never hands the sink a snapshot that omits a live identity. */
  lemma PlainPushAllNamesEveryLiveIdentity(tr: Trace, i: nat, t: Tid, k: Key)
    requires IsTrace(tr) && i < |tr.states|
    requires At(tr.states[i], t) && Pushing(tr.states[i].threads[t]) && tr.states[i].threads[t].call.PushAll?
    requires k in tr.states[i].ledger && !tr.states[i].ledger[k].tombstone
    ensures exists x :: Some(x) in tr.states[i].threads[t].call.items && IdentityKey(x) == k
  {
    FullPushIsComplete(tr, i, t);
    var th := tr.states[i].threads[t];
    PresentElements(th.call.items);
    assert k in KeysOf(th.pc.payload);
    var x :| x in th.pc.payload && IdentityKey(x) == k;
    assert Some(x) in th.call.items;
  }

  // ---------------------------------------------------------------- locks

  /** No two outstanding pushes touch the same identity. */
  lemma OneWriterPerIdentity(tr: Trace, i: nat, t: Tid, u: Tid)
    requires IsTrace(tr) && i < |tr.states| && t != u
    requires At(tr.states[i], t) && Pushing(tr.states[i].threads[t])
    requires At(tr.states[i], u) && Pushing(tr.states[i].threads[u])
    ensures KeysOf(tr.states[i].threads[t].pc.payload) !! KeysOf(tr.states[i].threads[u].pc.payload)
  {
    Reachable(tr, i);
    var s := tr.states[i];
    PushesAreDisjoint(s, t, u);
    assert ThreadOk(s.threads[t]) && FlightOk(s, s.threads[t]) && ThreadOk(s.threads[u]) && FlightOk(s, s.threads[u]);
    FlightKeys(s, t);
    FlightKeys(s, u);
  }

  ghost function Holders(s: State, k: Key): set<Tid> {
    set t | t in s.threads && Holds(s.threads[t], k)
  }

  /** Registered, but the key's turn has not come yet. */
  ghost function Waiters(s: State, k: Key): set<Tid> {
    set t | t in s.threads && Registered(s.threads[t]) && k in s.threads[t].keys &&
            s.threads[t].pc.Acquiring? && !Holds(s.threads[t], k)
  }

  /** Already unlocked the key, but still registered for the rest of its keys. */
  ghost function Finishing(s: State, k: Key): set<Tid> {
    set t | t in s.threads && Registered(s.threads[t]) && k in s.threads[t].keys &&
            s.threads[t].pc.Releasing? && !Holds(s.threads[t], k)
  }

  lemma UsersSplit(s: State, k: Key)
    ensures Users(s, k) == Holders(s, k) + Waiters(s, k) + Finishing(s, k)
    ensures Holders(s, k) !! Waiters(s, k) !! Finishing(s, k)
  {
    forall t | t in Users(s, k) && Pushing(s.threads[t])
      ensures Holds(s.threads[t], k)
    {
    }
    forall t | t in s.threads && Holds(s.threads[t], k)
      ensures t in Users(s, k)
    {
      HoldersAreUsers(s, k, t);
    }
  }

  lemma AtMostOneHolder(s: State, k: Key)
    requires EntryOk(s, k)
    ensures |Holders(s, k)| <= 1
  {
    if t :| t in Holders(s, k) {
      HoldersAreUsers(s, k, t);
      assert s.table[k].owner == Some(t);
      assert Holders(s, k) == {t};
    }
  }

  /** An entry's count is its holder plus its waiters plus the callers on their
      way out, at most one of them holds it, and no entry outlives them. */
  lemma ReferenceCounts(tr: Trace, i: nat, k: Key)
    requires IsTrace(tr) && i < |tr.states|
    ensures var s := tr.states[i];
      && |Holders(s, k)| <= 1
      && (k in s.table <==> Holders(s, k) + Waiters(s, k) + Finishing(s, k) != {})
      && (k in s.table ==> s.table[k].refs == |Holders(s, k)| + |Waiters(s, k)| + |Finishing(s, k)|)
  {
    Reachable(tr, i);
    var s := tr.states[i];
    assert EntryOk(s, k);
    AtMostOneHolder(s, k);
    UsersSplit(s, k);
    assert |Users(s, k)| == |Holders(s, k)| + |Waiters(s, k)| + |Finishing(s, k)|;
  }

  predicate AtKey(s: State, t: Tid) {
    At(s, t) && Shared(s.threads[t]) && s.threads[t].pc.Acquiring? && s.threads[t].pc.held < |s.threads[t].keys|
  }

  /** The key a caller locks next. */
  function Awaited(s: State, t: Tid): Key
    requires AtKey(s, t)
  {
    s.threads[t].keys[s.threads[t].pc.held]
  }

  /** The key a caller locks next is held. */
  predicate Waiting(s: State, t: Tid) {
    AtKey(s, t) && Awaited(s, t) in s.table && s.table[Awaited(s, t)].owner.Some?
  }

  predicate WaitsFor(s: State, t: Tid, u: Tid) {
    Waiting(s, t) && s.table[Awaited(s, t)].owner.value == u
  }

  /** A holder that itself waits, waits for a larger key. */
  lemma WaitingClimbs(s: State, t: Tid, u: Tid, v: Tid)
    requires Inv(s) && WaitsFor(s, t, u) && WaitsFor(s, u, v)
    ensures Less(Awaited(s, t), Awaited(s, u))
  {
    assert EntryOk(s, Awaited(s, t));
    assert ThreadOk(s.threads[u]);
    assert Holds(s.threads[u], Awaited(s, t));
  }

  lemma {:induction false} WaitPathClimbs(s: State, path: seq<Tid>, next: Tid)
    requires Inv(s) && |path| >= 2
    requires forall i :: 0 <= i < |path| - 1 ==> WaitsFor(s, path[i], path[i + 1])
    requires WaitsFor(s, path[|path| - 1], next)
    ensures WaitsFor(s, path[0], path[1]) && Less(Awaited(s, path[0]), Awaited(s, path[|path| - 1]))
  {
    WaitingClimbs(s, path[0], path[1], if |path| > 2 then path[2] else next);
    if |path| > 2 {
      WaitPathClimbs(s, path[1..], next);
      LessTransitive(Awaited(s, path[0]), Awaited(s, path[1]), Awaited(s, path[|path| - 1]));
    }
  }

  /** Sorted acquisition: the waits-for relation has no cycle. */
  lemma NoWaitCycle(tr: Trace, i: nat, path: seq<Tid>)
    requires IsTrace(tr) && i < |tr.states| && |path| >= 2
    requires forall j :: 0 <= j < |path| - 1 ==> WaitsFor(tr.states[i], path[j], path[j + 1])
    ensures path[0] != path[|path| - 1]
  {
    Reachable(tr, i);
    if path[0] == path[|path| - 1] {
      WaitPathClimbs(tr.states[i], path, path[1]);
      LessIrreflexive(Awaited(tr.states[i], path[0]));
    }
  }

  /** Among callers that all wait, one waits for a key no other waits above. */
  lemma {:induction false} HighestWaiter(s: State, ts: set<Tid>) returns (top: Tid)
    requires ts != {} && forall t :: t in ts ==> Waiting(s, t)
    ensures top in ts && Waiting(s, top)
    ensures forall t :: t in ts ==> Waiting(s, t) && !Less(Awaited(s, top), Awaited(s, t))
  {
    var t :| t in ts;
    assert Waiting(s, t);
    var rest := ts - {t};
    if rest == {} {
      LessIrreflexive(Awaited(s, t));
      assert ts == {t};
      top := t;
    } else {
      var best := HighestWaiter(s, rest);
      assert Waiting(s, best);
      top := if Less(Awaited(s, best), Awaited(s, t)) then t else best;
      forall u | u in ts
        ensures Waiting(s, u) && !Less(Awaited(s, top), Awaited(s, u))
      {
        assert Waiting(s, u);
        if u == t {
          LessIrreflexive(Awaited(s, t));
        } else if top == t && Less(Awaited(s, t), Awaited(s, u)) {
          LessTransitive(Awaited(s, best), Awaited(s, t), Awaited(s, u));
        }
      }
    }
  }

  /** The next step of a caller past the gate, unless it waits for a key. */
  lemma InsiderStep(s: State, t: Tid) returns (a: Action)
    requires Inv(s) && At(s, t) && Inside(s.threads[t]) && !Waiting(s, t)
    ensures Enabled(s, a) && !a.Arrive?
  {
    var th := s.threads[t];
    assert ThreadOk(th);
    match th.pc
    case Reading => a := RegisterKeys(t);
    case Acquiring(held) =>
      if held == |th.keys| {
        a := CheckShared(t);
      } else {
        var k := th.keys[held];
        assert t in Users(s, k);
        assert EntryOk(s, k);
        a := AcquireKey(t);
      }
    case Writing => a := if th.call.Close? then Shut(t) else CheckExclusive(t, None);
    case InFlight(_, _, _, _) => a := Reject(t);
    case Acked(_, _, _, _) => a := CommitPush(t);
    case Releasing(held) =>
      if !Shared(th) {
        a := LeaveExclusive(t);
      } else if held == 0 {
        a := UnregisterKeys(t);
      } else {
        var k := th.keys[held - 1];
        assert t in Users(s, k);
        assert EntryOk(s, k);
        a := ReleaseKey(t);
      }
    case Unregistered => a := LeaveShared(t);
  }

  /** Some reader is not stuck behind another: the one waiting highest is waited
      for by nobody who could still climb. */
  lemma SomeReaderMoves(s: State) returns (t: Tid)
    requires Inv(s) && s.readers != {}
    ensures t in s.readers && At(s, t) && Inside(s.threads[t]) && !Waiting(s, t)
  {
    if forall u :: u in s.readers ==> Waiting(s, u) {
      var top := HighestWaiter(s, s.readers);
      var u := s.table[Awaited(s, top)].owner.value;
      assert EntryOk(s, Awaited(s, top));
      HoldersAreUsers(s, Awaited(s, top), u);
      assert false;
    }
    t :| t in s.readers && !Waiting(s, t);
  }

  /** No deadlock: while some caller has not returned, some caller that has
      already arrived can take a step. */
  lemma Progress(tr: Trace, i: nat, t: Tid)
    requires IsTrace(tr) && i < |tr.states|
    requires At(tr.states[i], t) && !tr.states[i].threads[t].pc.Returned?
    ensures exists a :: Enabled(tr.states[i], a) && !a.Arrive?
  {
    Reachable(tr, i);
    var s := tr.states[i];
    var a: Action;
    if s.writer.Some? {
      var w := s.writer.value;
      assert ThreadOk(s.threads[w]);
      a := InsiderStep(s, w);
    } else if s.readers != {} {
      var r := SomeReaderMoves(s);
      a := InsiderStep(s, r);
    } else {
      a := if Shared(s.threads[t]) then EnterShared(t) else EnterExclusive(t);
    }
    assert Enabled(s, a) && !a.Arrive?;
  }

  // ---------------------------------------------------------------- scopes

  /** Step `a` records `k` under an explicit scope. */
  ghost predicate RecordsUnder(s: State, a: Action, k: Key, scope: string) {
    && a.CommitPush? && At(s, a.t) && s.threads[a.t].pc.Acked?
    && scope != "" && s.threads[a.t].pc.req.scope == scope && k in s.threads[a.t].pc.marks
  }

  /** Step `j` is the last before state `i` that records `k` under an explicit scope, and the scope is `scope`. */
  ghost predicate LastRecorded(tr: Trace, i: nat, j: nat, k: Key, scope: string)
    requires |tr.states| == |tr.actions| + 1 && i < |tr.states|
  {
    && j < i && RecordsUnder(tr.states[j], tr.actions[j], k, scope)
    && forall l, other :: j < l < i ==> !RecordsUnder(tr.states[l], tr.actions[l], k, other)
  }

  /** A recorded scope was recorded in the step, or was there before and the step records nothing. */
  ghost predicate ScopeLinked(s: State, a: Action, s': State, k: Key) {
    k in s'.scopes ==>
      || RecordsUnder(s, a, k, s'.scopes[k])
      || (k in s.scopes && s.scopes[k] == s'.scopes[k] && forall other :: !RecordsUnder(s, a, k, other))
  }

  lemma ScopeStep(s: State, a: Action, k: Key)
    requires Enabled(s, a)
    ensures ScopeLinked(s, a, Do(s, a), k)
  {
  }

  lemma {:induction false} ScopeThrough(tr: Trace, i: nat, k: Key) returns (j: nat)
    requires |tr.states| == |tr.actions| + 1 && i < |tr.states| && k in tr.states[i].scopes && k !in tr.states[0].scopes
    requires forall m :: 0 <= m < |tr.actions| ==> ScopeLinked(tr.states[m], tr.actions[m], tr.states[m + 1], k)
    ensures LastRecorded(tr, i, j, k, tr.states[i].scopes[k])
    decreases i
  {
    assert ScopeLinked(tr.states[i - 1], tr.actions[i - 1], tr.states[i], k);
    if RecordsUnder(tr.states[i - 1], tr.actions[i - 1], k, tr.states[i].scopes[k]) {
      j := i - 1;
    } else {
      j := ScopeThrough(tr, i - 1, k);
    }
  }

  /** The recorded scope is that of the last scoped push that carried the identity. */
  lemma ScopeProvenance(tr: Trace, i: nat, k: Key) returns (j: nat)
    requires IsTrace(tr) && i < |tr.states| && k in tr.states[i].scopes
    ensures LastRecorded(tr, i, j, k, tr.states[i].scopes[k])
  {
    forall m | 0 <= m < |tr.actions|
      ensures ScopeLinked(tr.states[m], tr.actions[m], tr.states[m + 1], k)
    {
      ScopeStep(tr.states[m], tr.actions[m], k);
    }
    j := ScopeThrough(tr, i, k);
  }

  /** A live identity becomes a tombstone in a step of a scoped operation only if
      the operation carried it as offline, or its snapshot omits it and the last
      scoped push that carried it had the same scope. */
  lemma ScopedRetirement(tr: Trace, i: nat, k: Key)
    requires IsTrace(tr) && i < |tr.actions| && tr.actions[i].CommitPush?
    requires tr.states[i].threads[tr.actions[i].t].pc.Acked?
    requires tr.states[i].threads[tr.actions[i].t].pc.req.scope != ""
    requires k in tr.states[i].ledger && !tr.states[i].ledger[k].tombstone
    requires k in tr.states[i + 1].ledger && tr.states[i + 1].ledger[k].tombstone
    ensures var req := tr.states[i].threads[tr.actions[i].t].pc.req;
      || (exists x :: x in Present(req.items) && IdentityKey(x) == k && x.status == OFFLINE)
      || (k !in KeysOf(Present(req.items)) && exists j :: LastRecorded(tr, i, j, k, req.scope))
  {
    Reachable(tr, i);
    var s, t := tr.states[i], tr.actions[i].t;
    var pc := s.threads[t].pc;
    assert ThreadOk(s.threads[t]) && FlightOk(s, s.threads[t]);
    FullForwardIsExact(s.ledger, pc.req);
    if k in pc.marks {
      MarksElements(pc.payload, pc.req.trigger);
    } else {
      assert Retires(s.ledger, s.scopes, pc.req, pc.seen, k);
      var j := ScopeProvenance(tr, i, k);
    }
  }

  lemma ScopeStays(s: State, a: Action, k: Key)
    requires Enabled(s, a) && !Do(s, a).closed && k in s.scopes && forall other :: !RecordsUnder(s, a, k, other)
    ensures k in Do(s, a).scopes && Do(s, a).scopes[k] == s.scopes[k]
  {
    if a.CommitPush? {
      assert !RecordsUnder(s, a, k, s.threads[a.t].pc.req.scope);
    }
  }

  lemma RecordSticks(s: State, a: Action, k: Key, scope: string)
    requires Enabled(s, a) && RecordsUnder(s, a, k, scope)
    ensures k in Do(s, a).scopes && Do(s, a).scopes[k] == scope
  {
  }

  /** A recorded scope survives the step. */
  predicate ScopeKept(s: State, s': State, k: Key) {
    k in s.scopes ==> k in s'.scopes && s'.scopes[k] == s.scopes[k]
  }

  lemma {:induction false} ScopeKeptThrough(states: seq<State>, j: nat, i: nat, k: Key)
    requires j <= i < |states| && k in states[j].scopes
    requires forall m :: j <= m < i ==> ScopeKept(states[m], states[m + 1], k)
    ensures k in states[i].scopes && states[i].scopes[k] == states[j].scopes[k]
    decreases i
  {
    if j < i {
      ScopeKeptThrough(states, j, i - 1, k);
      assert ScopeKept(states[i - 1], states[i], k);
    }
  }

  lemma RecordedScope(tr: Trace, i: nat, j: nat, k: Key, scope: string)
    requires IsTrace(tr) && i < |tr.states| && !tr.states[i].closed && LastRecorded(tr, i, j, k, scope)
    ensures k in tr.states[i].scopes && tr.states[i].scopes[k] == scope
  {
    RecordSticks(tr.states[j], tr.actions[j], k, scope);
    forall m | j + 1 <= m < i
      ensures ScopeKept(tr.states[m], tr.states[m + 1], k)
    {
      OpenBefore(tr, m + 1, i);
      if k in tr.states[m].scopes {
        ScopeStays(tr.states[m], tr.actions[m], k);
      }
    }
    ScopeKeptThrough(tr.states, j + 1, i, k);
  }

  /** A trusted snapshot retires a live identity it omits exactly when it carries no scope, or the
      last scoped push that carried the identity had the same scope. */
  lemma RetiredExactly(tr: Trace, i: nat, k: Key)
    requires IsTrace(tr) && i < |tr.actions| && tr.actions[i].CommitPush?
    requires var pc := tr.states[i].threads[tr.actions[i].t].pc;
      pc.Acked? && pc.req.full && pc.req.trusted && k !in KeysOf(Present(pc.req.items))
    requires k in tr.states[i].ledger && !tr.states[i].ledger[k].tombstone
    ensures var scope := tr.states[i].threads[tr.actions[i].t].pc.req.scope;
      && k in tr.states[i + 1].ledger
      && (tr.states[i + 1].ledger[k].tombstone <==> scope == "" || exists j :: LastRecorded(tr, i, j, k, scope))
  {
    Reachable(tr, i);
    var s, t := tr.states[i], tr.actions[i].t;
    var pc := s.threads[t].pc;
    assert ThreadOk(s.threads[t]) && FlightOk(s, s.threads[t]);
    FullForwardIsExact(s.ledger, pc.req);
    assert tr.states[i + 1].ledger[k].tombstone <==> Retires(s.ledger, s.scopes, pc.req, pc.seen, k);
    if k in s.scopes && s.scopes[k] == pc.req.scope {
      var j := ScopeProvenance(tr, i, k);
    }
    if j :| LastRecorded(tr, i, j, k, pc.req.scope) {
      RecordedScope(tr, i, j, k, pc.req.scope);
    }
  }

  /** A scoped operation that nobody confirmed to be empty is never outstanding at the sink with an
      empty snapshot, its own or a revalidated one. */
  lemma UnconfirmedNeverPushesEmpty(tr: Trace, i: nat, t: Tid)
    requires IsTrace(tr) && i < |tr.states| && At(tr.states[i], t) && Pushing(tr.states[i].threads[t])
    requires var call := tr.states[i].threads[t].call;
      call.PushAllOperation? && call.scope != "" && !call.emptyConfirmed
    ensures tr.states[i].threads[t].pc.req.items != []
    ensures tr.states[i].threads[t].call.revalidates || tr.states[i].threads[t].call.items != []
  {
    FullPushIsComplete(tr, i, t);
    var th := tr.states[i].threads[t];
    var answer :| Asks(th.call, answer, th.pc.req);
  }

  predicate StaysOut(s: State, s': State, t: Tid) {
    At(s, t) && Leaves(s.threads[t]) ==> At(s', t) && Leaves(s'.threads[t])
  }

  lemma LeavingStep(s: State, a: Action, t: Tid)
    requires Enabled(s, a)
    ensures StaysOut(s, Do(s, a), t)
  {
    OthersStay(s, a, t);
  }

  lemma {:induction false} LeavesThrough(states: seq<State>, i: nat, j: nat, t: Tid)
    requires i <= j < |states| && At(states[i], t) && Leaves(states[i].threads[t])
    requires forall m :: i <= m < j ==> StaysOut(states[m], states[m + 1], t)
    ensures At(states[j], t) && Leaves(states[j].threads[t])
    decreases j
  {
    if i < j {
      LeavesThrough(states, i, j - 1, t);
      assert StaysOut(states[j - 1], states[j], t);
    }
  }

  /** The check of a scoped operation whose snapshot is empty, or that revalidation emptied, and that
      nobody confirmed: from it on the call is never outstanding at the sink and changes no record. */
  lemma UnconfirmedEmptyIsNoOp(tr: Trace, i: nat, j: nat, t: Tid, answer: Option<Items>)
    requires IsTrace(tr) && i < j < |tr.states| && tr.actions[i] == CheckExclusive(t, answer)
    requires var call := tr.states[i].threads[t].call;
      && call.PushAllOperation? && call.scope != "" && !call.emptyConfirmed
      && (if call.revalidates then answer == Some([]) else call.items == [])
    ensures tr.states[i + 1].ledger == tr.states[i].ledger && tr.states[i + 1].scopes == tr.states[i].scopes
    ensures At(tr.states[j], t) && !Pushing(tr.states[j].threads[t])
    ensures j < |tr.actions| && tr.actions[j].t == t ==>
      tr.states[j + 1].ledger == tr.states[j].ledger && tr.states[j + 1].scopes == tr.states[j].scopes
  {
    assert tr.states[i + 1] == Do(tr.states[i], tr.actions[i]);
    forall m | i + 1 <= m < j
      ensures StaysOut(tr.states[m], tr.states[m + 1], t)
    {
      LeavingStep(tr.states[m], tr.actions[m], t);
    }
    LeavesThrough(tr.states, i + 1, j, t);
    if j < |tr.actions| && tr.actions[j].t == t {
      assert Enabled(tr.states[j], tr.actions[j]);
      LedgerChangesOnlyByCommit(tr.states[j], tr.actions[j]);
    }
  }

  // ---------------------------------------------------------------- repeated identities

  /** No item is newer than the last item of its identity. */
  ghost predicate LastIsNewest(items: seq<Instance>, trigger: int) {
    forall i: nat, j: nat :: i < j && LastAt(items, j) && IdentityKey(items[i]) == IdentityKey(items[j]) ==>
      Revision(items[i], trigger) <= Revision(items[j], trigger)
  }

  predicate RecordCovers(items: seq<Instance>, trigger: int) {
    forall i: nat :: i < |items| ==>
      var k := IdentityKey(items[i]);
      k in MarksOf(items, trigger) && Revision(items[i], trigger) <= MarksOf(items, trigger)[k].revision
  }

  lemma {:induction false} SomeLast(items: seq<Instance>, i: nat) returns (j: nat)
    requires i < |items|
    ensures i <= j && LastAt(items, j) && IdentityKey(items[j]) == IdentityKey(items[i])
    decreases |items| - i
  {
    if LastAt(items, i) {
      j := i;
    } else {
      var m :| i < m < |items| && IdentityKey(items[m]) == IdentityKey(items[i]);
      j := SomeLast(items, m);
    }
  }

  lemma LastDecides(items: seq<Instance>, trigger: int)
    ensures RecordCovers(items, trigger) <==> LastIsNewest(items, trigger)
  {
    if RecordCovers(items, trigger) {
      forall i: nat, j: nat | i < j && LastAt(items, j) && IdentityKey(items[i]) == IdentityKey(items[j])
        ensures Revision(items[i], trigger) <= Revision(items[j], trigger)
      {
        LastIsRecorded(items, trigger, j);
      }
    }
    if LastIsNewest(items, trigger) {
      forall i: nat | i < |items|
        ensures var k := IdentityKey(items[i]);
          k in MarksOf(items, trigger) && Revision(items[i], trigger) <= MarksOf(items, trigger)[k].revision
      {
        var j := SomeLast(items, i);
        LastIsRecorded(items, trigger, j);
      }
    }
  }

  /** The last item of an identity, when it is fresh, is what the filtered batch records. */
  lemma {:induction false} FreshLastIsRecorded(ledger: Ledger, req: Request, items: seq<Instance>, j: nat)
    requires LastAt(items, j) && !Stale(ledger, req, items[j])
    ensures var marks := MarksOf(Fresh(ledger, req, items), req.trigger);
      IdentityKey(items[j]) in marks && marks[IdentityKey(items[j])] == MarkOf(items[j], req.trigger)
    decreases |items|
  {
    var n := |items| - 1;
    var rest := Fresh(ledger, req, items[..n]);
    assert (rest + [items[n]])[..|rest|] == rest;
    if j < n {
      assert forall m :: j < m < n ==> items[..n][m] == items[m];
      FreshLastIsRecorded(ledger, req, items[..n], j);
    }
  }

  /** A newest last item makes every filtered batch covered, since it is fresh when any of its identity is. */
  lemma NewestCoversFresh(ledger: Ledger, req: Request, items: seq<Instance>)
    requires !req.full && LastIsNewest(items, req.trigger)
    ensures RecordCovers(Fresh(ledger, req, items), req.trigger)
  {
    var kept := Fresh(ledger, req, items);
    FreshElements(ledger, req, items);
    forall i: nat | i < |kept|
      ensures var k := IdentityKey(kept[i]);
        k in MarksOf(kept, req.trigger) && Revision(kept[i], req.trigger) <= MarksOf(kept, req.trigger)[k].revision
    {
      assert kept[i] in kept;
      var m :| 0 <= m < |items| && items[m] == kept[i];
      var j := SomeLast(items, m);
      assert Revision(items[m], req.trigger) <= Revision(items[j], req.trigger);
      FreshLastIsRecorded(ledger, req, items, j);
    }
  }

  /** Whatever the ledger, what is recorded of an admitted incremental batch covers all it delivers,
      exactly when per identity the last item of the request is its newest: items are checked against
      the ledger, not against each other. */
  lemma BatchIsCovered(req: Request)
    requires !req.full
    ensures
      (forall ledger :: Check(ledger, req).Forward? ==> RecordCovers(Check(ledger, req).payload, req.trigger)) <==>
      LastIsNewest(Present(req.items), req.trigger)
  {
    var present := Present(req.items);
    if LastIsNewest(present, req.trigger) {
      forall ledger | Check(ledger, req).Forward?
        ensures RecordCovers(Check(ledger, req).payload, req.trigger)
      {
        NewestCoversFresh(ledger, req, present);
      }
    } else {
      FreshElements(map[], req, present);
      assert Check(map[], req).Forward? && Check(map[], req).payload == present;
      LastDecides(present, req.trigger);
    }
  }

  lemma TwoPresent(a: Instance, b: Instance)
    ensures Present([Some(a), Some(b)]) == [a, b]
  {
    var items: Items := [Some(a), Some(b)];
    assert items[..1] == [Some(a)] && items[..1][..0] == [];
    assert Present(items[..1]) == [a];
  }

  lemma OlderIsRecorded(newer: Instance, older: Instance, trigger: int)
    requires IdentityKey(newer) == IdentityKey(older) && 0 < older.reversion < newer.reversion
    ensures !RecordCovers([newer, older], trigger)
    ensures IdentityKey(older) in MarksOf([newer, older], trigger)
    ensures MarksOf([newer, older], trigger)[IdentityKey(older)].revision == older.reversion
  {
    var batch := [newer, older];
    assert LastAt(batch, 1);
    LastIsRecorded(batch, trigger, 1);
    assert IdentityKey(batch[0]) == IdentityKey(batch[1]);
  }

  /** An incremental batch that carries a newer item before an older one of the same identity is
      delivered whole, and the ledger then stands at the older revision. */
  lemma RepeatedIdentityGoesBack(newer: Instance, older: Instance, trigger: int)
    requires IdentityKey(newer) == IdentityKey(older) && 0 < older.reversion < newer.reversion
    ensures var req := Request(trigger, [Some(newer), Some(older)], false, false, false, "");
      var verdict := Check(map[], req);
      && verdict.Forward? && verdict.payload == [newer, older]
      && IdentityKey(older) in verdict.marks && verdict.marks[IdentityKey(older)].revision == older.reversion
      && !RecordCovers(verdict.payload, trigger)
  {
    TwoPresent(newer, older);
    FreshElements(map[], Request(trigger, [Some(newer), Some(older)], false, false, false, ""), [newer, older]);
    OlderIsRecorded(newer, older, trigger);
  }
}
