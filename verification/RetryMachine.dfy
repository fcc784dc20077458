/** Retry cycles interleaved with additions (pkg/worker/unsynced_service.go:278-531).
    The queue lock makes each addition and each delete-by-comparison one step; the
    pushes themselves happen between steps, so any number of additions can fall
    between a cycle's snapshot and the outcome of one of its attempts. */
module RetryMachine {
  import opened Instances
  import opened Errors
  import opened RetryQueue

  datatype Cycle = Cycle(batch: Store, todo: set<RetryKey>, ghostsDropped: bool)

  /** The queue and its running cycle. `memory` holds the instances that handles refer to; `since` is
      history: the ranks asked for since each entry was created. */
  datatype State = State(
    sinkNames: set<string>,
    store: Store,
    cycle: Option<Cycle>,
    memory: map<nat, Instance>,
    since: map<RetryKey, set<int>>)

  datatype Action =
    | AddPush(trigger: int, item: Handle, sink: string)
    | AddFull(sink: string, whole: Pending)
    | Begin
    | DropGhosts
    | Attempt(key: RetryKey, err: Option<Err>)
    | Finish

  predicate Init(s: State) {
    s.store == map[] && s.cycle.None? && s.memory == map[] && s.since == map[]
  }

  predicate Enabled(s: State, a: Action) {
    match a
    case AddPush(_, item, _) =>
      StoreOk(s.store) && (item.address in s.memory ==> s.memory[item.address] == item.instance)
    case AddFull(_, whole) => StoreOk(s.store) && whole.Whole?
    case Begin => s.cycle.None?
    case DropGhosts => s.cycle.Some? && !s.cycle.value.ghostsDropped
    case Attempt(key, _) =>
      s.cycle.Some? && s.cycle.value.ghostsDropped && key in s.cycle.value.todo && key in s.cycle.value.batch
    case Finish => s.cycle.Some? && s.cycle.value.ghostsDropped && s.cycle.value.todo == {}
  }

  /** One more request of rank `rank` for `key`. */
  function Remember(s: State, key: RetryKey, rank: int): State {
    s.(since := s.since[key := (if key in s.since then s.since[key] else {}) + {rank}])
  }

  function Ghosts(s: State, batch: Store): set<RetryKey> {
    set k | k in batch && k.sink !in s.sinkNames
  }

  /** The keys of the store a cycle may delete: unchanged since its snapshot. */
  function Unchanged(store: Store, batch: Store, keys: set<RetryKey>): set<RetryKey> {
    set k | k in keys && k in store && k in batch && SamePending(store[k], batch[k])
  }

  function Do(s: State, a: Action): State
    requires Enabled(s, a)
  {
    match a
    case AddPush(trigger, item, sink) =>
      Remember(s, PushKey(item, sink), item.instance.reversion).(
        store := AddOne(s.store, trigger, item, sink),
        memory := s.memory[item.address := item.instance])
    case AddFull(sink, whole) =>
      Remember(s, FullKey(sink, whole.scope), whole.sequence).(store := AddWhole(s.store, sink, whole))
    case Begin => s.(cycle := Some(Cycle(s.store, s.store.Keys, false)))
    case DropGhosts =>
      var c := s.cycle.value;
      var gone := Unchanged(s.store, c.batch, Ghosts(s, c.batch));
      s.(store := s.store - gone,
         since := s.since - gone,
         cycle := Some(Cycle(c.batch, c.todo - Ghosts(s, c.batch), true)))
    case Attempt(key, err) =>
      var c := s.cycle.value;
      var s' := s.(cycle := Some(Cycle(c.batch, c.todo - {key}, true)));
      if Concludes(c.batch[key], err) then
        s'.(store := Removed(s.store, key, c.batch[key]),
            since := s.since - Unchanged(s.store, c.batch, {key}))
      else s'
    case Finish => s.(cycle := None)
  }

  // ---------------------------------------------------------------- invariant

  /** Each entry carries the highest rank asked for since the entry was created. */
  ghost predicate HoldsHighest(s: State) {
    && s.since.Keys == s.store.Keys
    && forall k :: k in s.store ==>
         Rank(s.store[k]) in s.since[k] && forall r :: r in s.since[k] ==> r <= Rank(s.store[k])
  }

  ghost predicate InMemory(s: State, p: Pending) {
    p.Single? ==> p.item.address in s.memory && s.memory[p.item.address] == p.item.instance
  }

  /** An entry still to be attempted is the snapshot's own or newer. */
  ghost predicate NotOlder(current: Pending, snapshot: Pending) {
    && Rank(current) >= Rank(snapshot)
    && (current.Single? && snapshot.Single? && Rank(current) == Rank(snapshot) ==> current.item == snapshot.item)
  }

  ghost predicate CycleOk(s: State) {
    s.cycle.Some? ==>
      var c := s.cycle.value;
      && StoreOk(c.batch)
      && c.todo <= c.batch.Keys
      && (forall k :: k in c.batch ==> InMemory(s, c.batch[k]))
      && (forall k :: k in c.todo ==> k in s.store && NotOlder(s.store[k], c.batch[k]))
      && (c.ghostsDropped ==> forall k :: k in c.todo ==> k.sink in s.sinkNames)
  }

  ghost predicate Inv(s: State) {
    && StoreOk(s.store)
    && (forall k :: k in s.store ==> InMemory(s, s.store[k]))
    && HoldsHighest(s)
    && CycleOk(s)
  }

  /** Entries that compare equal have the same rank. */
  lemma OverWhenSame(current: Pending, snapshot: Pending, s: State)
    requires InMemory(s, current) && InMemory(s, snapshot) && SamePending(current, snapshot)
    ensures Rank(current) == Rank(snapshot)
  {
  }

  /** A request of rank `r` raises one entry, or creates it. */
  ghost predicate Raises(s: State, s': State, key: RetryKey, p: Pending, r: int) {
    && s'.store == s.store[key := p]
    && s'.since == s.since[key := (if key in s.since then s.since[key] else {}) + {r}]
    && s'.cycle == s.cycle && s'.sinkNames == s.sinkNames
    && Rank(p) >= r
    && if key in s.store then NotOlder(p, s.store[key]) && (Rank(p) == r || p == s.store[key]) else Rank(p) == r
  }

  lemma RaiseKeepsHistory(s: State, s': State, key: RetryKey, p: Pending, r: int)
    requires HoldsHighest(s) && Raises(s, s', key, p, r)
    ensures HoldsHighest(s')
  {
  }

  lemma AddPushRaises(s: State, a: Action)
    requires StoreOk(s.store) && Enabled(s, a) && a.AddPush?
    ensures var key := PushKey(a.item, a.sink);
      && key in Do(s, a).store
      && StoreOk(Do(s, a).store)
      && Raises(s, Do(s, a), key, Do(s, a).store[key], a.item.instance.reversion)
      && (Do(s, a).store[key].item == a.item || (key in s.store && Do(s, a).store[key] == s.store[key]))
  {
    var key := PushKey(a.item, a.sink);
    assert Do(s, a).store == s.store[key := Do(s, a).store[key]];
  }

  lemma AddFullRaises(s: State, a: Action)
    requires StoreOk(s.store) && Enabled(s, a) && a.AddFull?
    ensures var key := FullKey(a.sink, a.whole.scope);
      && key in Do(s, a).store
      && StoreOk(Do(s, a).store)
      && Raises(s, Do(s, a), key, Do(s, a).store[key], a.whole.sequence)
      && Do(s, a).memory == s.memory
  {
    var key := FullKey(a.sink, a.whole.scope);
    assert Do(s, a).store == s.store[key := Do(s, a).store[key]];
  }

  lemma RaiseKeepsCycle(s: State, s': State, key: RetryKey, p: Pending, r: int)
    requires StoreOk(s.store) && StoreOk(s'.store) && CycleOk(s) && Raises(s, s', key, p, r)
    requires forall address :: address in s.memory ==> address in s'.memory && s'.memory[address] == s.memory[address]
    ensures CycleOk(s')
  {
  }

  lemma KeepsAddPush(s: State, a: Action)
    requires Inv(s) && Enabled(s, a) && a.AddPush?
    ensures Inv(Do(s, a))
  {
    var s', key := Do(s, a), PushKey(a.item, a.sink);
    AddPushRaises(s, a);
    RaiseKeepsHistory(s, s', key, s'.store[key], a.item.instance.reversion);
    RaiseKeepsCycle(s, s', key, s'.store[key], a.item.instance.reversion);
  }

  lemma KeepsAddFull(s: State, a: Action)
    requires Inv(s) && Enabled(s, a) && a.AddFull?
    ensures Inv(Do(s, a))
  {
    var s', key := Do(s, a), FullKey(a.sink, a.whole.scope);
    AddFullRaises(s, a);
    RaiseKeepsHistory(s, s', key, s'.store[key], a.whole.sequence);
    RaiseKeepsCycle(s, s', key, s'.store[key], a.whole.sequence);
  }

  lemma KeepsDropGhosts(s: State)
    requires Inv(s) && Enabled(s, DropGhosts)
    ensures Inv(Do(s, DropGhosts))
  {
  }

  lemma AttemptKeepsEntries(s: State, key: RetryKey, err: Option<Err>)
    requires StoreOk(s.store) && HoldsHighest(s) && Enabled(s, Attempt(key, err))
    requires forall k :: k in s.store ==> InMemory(s, s.store[k])
    ensures var s' := Do(s, Attempt(key, err));
      StoreOk(s'.store) && HoldsHighest(s') && forall k :: k in s'.store ==> InMemory(s', s'.store[k])
  {
  }

  lemma AttemptKeepsCycle(s: State, key: RetryKey, err: Option<Err>)
    requires CycleOk(s) && Enabled(s, Attempt(key, err))
    ensures CycleOk(Do(s, Attempt(key, err)))
  {
    var s' := Do(s, Attempt(key, err));
    assert s'.memory == s.memory;
    assert forall k :: k != key && k in s.store ==> k in s'.store && s'.store[k] == s.store[k];
  }

  lemma KeepsAttempt(s: State, key: RetryKey, err: Option<Err>)
    requires Inv(s) && Enabled(s, Attempt(key, err))
    ensures Inv(Do(s, Attempt(key, err)))
  {
    AttemptKeepsEntries(s, key, err);
    AttemptKeepsCycle(s, key, err);
  }

  lemma KeepsInv(s: State, a: Action)
    requires Inv(s) && Enabled(s, a)
    ensures Inv(Do(s, a))
  {
    match a
    case AddPush(_, _, _) => KeepsAddPush(s, a);
    case AddFull(_, _) => KeepsAddFull(s, a);
    case DropGhosts => KeepsDropGhosts(s);
    case Attempt(key, err) => KeepsAttempt(s, key, err);
    case Begin =>
    case Finish =>
  }

  // ---------------------------------------------------------------- runs

  datatype Trace = Trace(states: seq<State>, actions: seq<Action>)

  ghost predicate IsTrace(tr: Trace) {
    && |tr.states| == |tr.actions| + 1
    && Init(tr.states[0])
    && forall i :: 0 <= i < |tr.actions| ==>
         Enabled(tr.states[i], tr.actions[i]) && tr.states[i + 1] == Do(tr.states[i], tr.actions[i])
  }

  lemma {:induction false} Reachable(tr: Trace, i: nat)
    requires IsTrace(tr) && i < |tr.states|
    ensures Inv(tr.states[i])
  {
    if i > 0 {
      Reachable(tr, i - 1);
      KeepsInv(tr.states[i - 1], tr.actions[i - 1]);
    }
  }

  /** A queued entry carries the highest rank asked for since it was created. */
  lemma EntryHoldsHighest(tr: Trace, i: nat, k: RetryKey)
    requires IsTrace(tr) && i < |tr.states| && k in tr.states[i].store
    ensures var s := tr.states[i];
      k in s.since && Rank(s.store[k]) in s.since[k] && forall r :: r in s.since[k] ==> r <= Rank(s.store[k])
  {
    Reachable(tr, i);
  }

  // ---------------------------------------------------------------- what happens to an entry of a snapshot

  /** The action queues a snapshot for the full key `k`. */
  predicate AddsFull(a: Action, k: RetryKey) {
    a.AddFull? && a.whole.Whole? && Named(k, [a.sink], a.whole.scope)
  }

  predicate AddsPush(a: Action, k: RetryKey) { a.AddPush? && IsFor(k, (a.item, a.sink)) }

  /** An entry after one action: a newer revision or a snapshot that is not older replaces it. */
  function Raised(a: Action, k: RetryKey, p: Pending): Pending {
    if AddsPush(a, k) && p.Single? && a.item.instance.reversion > Rank(p) then p.(item := a.item)
    else if AddsFull(a, k) && p.Whole? && a.whole.sequence >= p.sequence then a.whole
    else p
  }

  /** The entry after the actions between steps `b` and `c`. */
  function Queued(actions: seq<Action>, b: nat, c: nat, k: RetryKey, p: Pending): Pending
    requires c <= |actions|
    decreases c
  {
    if c <= b + 1 then p else Raised(actions[c - 1], k, Queued(actions, b, c - 1, k, p))
  }

  /** A revision or snapshot of `k` newer than `r` is added between `b` and `c`. */
  predicate NewerAdded(actions: seq<Action>, b: nat, c: nat, k: RetryKey, r: int)
    requires c <= |actions|
  {
    exists i :: b < i < c && AddsNewer(actions[i], k, r)
  }

  predicate AddsNewer(a: Action, k: RetryKey, r: int) {
    (AddsPush(a, k) && a.item.instance.reversion > r) || (AddsFull(a, k) && a.whole.sequence > r)
  }

  /** The last snapshot of the sequence of `p` that was added between `b` and `c`, or `p` itself. */
  function LastEqual(actions: seq<Action>, b: nat, c: nat, k: RetryKey, p: Pending): Pending
    requires c <= |actions| && p.Whole?
    decreases c
  {
    if c <= b + 1 then p
    else if AddsFull(actions[c - 1], k) && actions[c - 1].whole.sequence == p.sequence then actions[c - 1].whole
    else LastEqual(actions, b, c - 1, k, p)
  }

  /** The entry of the snapshot was not replaced: nothing newer was added, and for a full operation
      the last snapshot of the same sequence, if any, is the same batch with the same content. */
  predicate NotReplaced(actions: seq<Action>, b: nat, c: nat, k: RetryKey, p: Pending)
    requires c <= |actions|
  {
    !NewerAdded(actions, b, c, k, Rank(p)) && (p.Whole? ==> SamePending(LastEqual(actions, b, c, k, p), p))
  }

  lemma {:induction false} QueuedSingle(actions: seq<Action>, b: nat, c: nat, k: RetryKey, p: Pending)
    requires c <= |actions| && p.Single? && k.operation.Push?
    ensures Queued(actions, b, c, k, p).Single?
    ensures if NewerAdded(actions, b, c, k, Rank(p)) then Rank(Queued(actions, b, c, k, p)) > Rank(p)
      else Queued(actions, b, c, k, p) == p
    decreases c
  {
    if b + 1 < c {
      QueuedSingle(actions, b, c - 1, k, p);
      NewerSplits(actions, b, c, k, Rank(p));
    }
  }

  lemma {:induction false} QueuedWhole(actions: seq<Action>, b: nat, c: nat, k: RetryKey, p: Pending)
    requires c <= |actions| && p.Whole? && k.operation.PushAll?
    ensures Queued(actions, b, c, k, p).Whole?
    ensures if NewerAdded(actions, b, c, k, Rank(p)) then Rank(Queued(actions, b, c, k, p)) > Rank(p)
      else Queued(actions, b, c, k, p) == LastEqual(actions, b, c, k, p) && Rank(Queued(actions, b, c, k, p)) == Rank(p)
    decreases c
  {
    if b + 1 < c {
      QueuedWhole(actions, b, c - 1, k, p);
      NewerSplits(actions, b, c, k, Rank(p));
    }
  }

  lemma NewerSplits(actions: seq<Action>, b: nat, c: nat, k: RetryKey, r: int)
    requires b + 1 < c <= |actions|
    ensures NewerAdded(actions, b, c, k, r) <==> NewerAdded(actions, b, c - 1, k, r) || AddsNewer(actions[c - 1], k, r)
  {
    if NewerAdded(actions, b, c - 1, k, r) {
      var i :| b < i < c - 1 && AddsNewer(actions[i], k, r);
      assert b < i < c;
    }
  }

  /** The comparison before a delete finds out exactly whether the entry was replaced. */
  lemma SameIsNotReplaced(actions: seq<Action>, b: nat, c: nat, k: RetryKey, p: Pending, s: State)
    requires c <= |actions| && (if k.operation.Push? then p.Single? else p.Whole?)
    requires InMemory(s, p) && InMemory(s, Queued(actions, b, c, k, p))
    ensures SamePending(Queued(actions, b, c, k, p), p) <==> NotReplaced(actions, b, c, k, p)
  {
    var current := Queued(actions, b, c, k, p);
    if p.Single? {
      QueuedSingle(actions, b, c, k, p);
    } else {
      QueuedWhole(actions, b, c, k, p);
    }
    if SamePending(current, p) {
      OverWhenSame(current, p, s);
    }
  }

  // ---------------------------------------------------------------- from snapshot to delete

  /** A key of the running cycle's snapshot that is still to be dealt with. */
  predicate Awaits(s: State, k: RetryKey) { s.cycle.Some? && k in s.cycle.value.todo && k in s.store }

  /** Neither a cycle boundary nor the step that deals with `k`. */
  predicate Untouched(s: State, a: Action, k: RetryKey) {
    !a.Begin? && !a.Finish? && !(a.Attempt? && a.key == k) && !(a.DropGhosts? && k.sink !in s.sinkNames)
  }

  /** One step, seen from such a key: it stays, raised by the action. */
  predicate StaysAs(s: State, a: Action, s': State, k: RetryKey) {
    Awaits(s, k) && Untouched(s, a, k) ==>
      && Awaits(s', k) && s'.cycle.value.batch == s.cycle.value.batch && s'.store[k] == Raised(a, k, s.store[k])
  }

  lemma SnapshotStepPush(s: State, a: Action, k: RetryKey)
    requires StoreOk(s.store) && Enabled(s, a) && a.AddPush?
    ensures StaysAs(s, a, Do(s, a), k)
  {
  }

  lemma SnapshotStepFull(s: State, a: Action, k: RetryKey)
    requires StoreOk(s.store) && Enabled(s, a) && a.AddFull?
    ensures StaysAs(s, a, Do(s, a), k)
  {
  }

  lemma SnapshotStepOther(s: State, a: Action, k: RetryKey)
    requires Enabled(s, a) && !a.AddPush? && !a.AddFull?
    ensures StaysAs(s, a, Do(s, a), k)
  {
  }

  lemma SnapshotStep(s: State, a: Action, k: RetryKey)
    requires StoreOk(s.store) && Enabled(s, a)
    ensures StaysAs(s, a, Do(s, a), k)
  {
    if a.AddPush? {
      SnapshotStepPush(s, a, k);
    } else if a.AddFull? {
      SnapshotStepFull(s, a, k);
    } else {
      SnapshotStepOther(s, a, k);
    }
  }

  lemma {:induction false} StaysThrough(states: seq<State>, actions: seq<Action>, b: nat, c: nat, k: RetryKey)
    requires b < c < |states| == |actions| + 1 && Awaits(states[b + 1], k)
    requires forall i :: b < i < c ==>
      Untouched(states[i], actions[i], k) && StaysAs(states[i], actions[i], states[i + 1], k)
    ensures Awaits(states[c], k) && states[c].cycle.value.batch == states[b + 1].cycle.value.batch
    ensures states[c].store[k] == Queued(actions, b, c, k, states[b + 1].store[k])
    decreases c
  {
    if b + 1 < c {
      StaysThrough(states, actions, b, c - 1, k);
      assert StaysAs(states[c - 1], actions[c - 1], states[c], k);
    }
  }

  /** From a cycle's snapshot until the cycle deals with one of its keys, the entry is the snapshot's
      own, raised by whatever is added for the key meanwhile. */
  lemma SnapshotStays(tr: Trace, b: nat, c: nat, k: RetryKey)
    requires IsTrace(tr) && b < c < |tr.states| && tr.actions[b].Begin? && k in tr.states[b].store
    requires forall i :: b < i < c ==> Untouched(tr.states[i], tr.actions[i], k)
    ensures var s := tr.states[c];
      && Awaits(s, k) && s.cycle.value.batch == tr.states[b].store
      && s.store[k] == Queued(tr.actions, b, c, k, tr.states[b].store[k])
  {
    forall i | b < i < c
      ensures StaysAs(tr.states[i], tr.actions[i], tr.states[i + 1], k)
    {
      Reachable(tr, i);
      SnapshotStep(tr.states[i], tr.actions[i], k);
    }
    assert tr.states[b + 1] == Do(tr.states[b], tr.actions[b]);
    StaysThrough(tr.states, tr.actions, b, c, k);
  }

  /** The cycle that runs in state `c` took its snapshot in step `b`. */
  ghost predicate RunsSince(tr: Trace, b: nat, c: nat)
    requires |tr.states| == |tr.actions| + 1 && c < |tr.states|
  {
    && b < c && tr.actions[b].Begin?
    && tr.states[c].cycle.Some? && tr.states[c].sinkNames == tr.states[b].sinkNames
    && tr.states[c].cycle.value.batch == tr.states[b].store
    && (forall i :: b < i < c ==>
      !tr.actions[i].Begin? && !tr.actions[i].Finish? && tr.states[i].sinkNames == tr.states[b].sinkNames)
    && (forall i :: b < i < c && tr.actions[i].Attempt? ==> tr.actions[i].key !in tr.states[c].cycle.value.todo)
    && (!tr.states[c].cycle.value.ghostsDropped ==>
          tr.states[c].cycle.value.todo == tr.states[b].store.Keys &&
          forall i :: b < i < c ==> !tr.actions[i].DropGhosts? && !tr.actions[i].Attempt?)
  }

  /** One step of a running cycle, seen from its snapshot and its open keys. */
  predicate CycleRuns(s: State, a: Action, s': State) {
    && s'.sinkNames == s.sinkNames
    && (s'.cycle.Some? && !a.Begin? ==>
          && s.cycle.Some? && !a.Finish?
          && s'.cycle.value.batch == s.cycle.value.batch && s'.cycle.value.todo <= s.cycle.value.todo
          && (a.Attempt? ==> a.key !in s'.cycle.value.todo)
          && (!s'.cycle.value.ghostsDropped ==>
                !s.cycle.value.ghostsDropped && s'.cycle.value.todo == s.cycle.value.todo && !a.DropGhosts? &&
                  !a.Attempt?))
    && (a.Begin? ==> s'.cycle == Some(Cycle(s.store, s.store.Keys, false)))
  }

  lemma CycleStep(s: State, a: Action)
    requires Enabled(s, a)
    ensures CycleRuns(s, a, Do(s, a))
  {
  }

  lemma {:induction false} CycleThrough(tr: Trace, c: nat) returns (b: nat)
    requires |tr.states| == |tr.actions| + 1 && c < |tr.states|
    requires tr.states[0].cycle.None? && tr.states[c].cycle.Some?
    requires forall i :: 0 <= i < |tr.actions| ==> CycleRuns(tr.states[i], tr.actions[i], tr.states[i + 1])
    ensures RunsSince(tr, b, c)
    decreases c
  {
    assert CycleRuns(tr.states[c - 1], tr.actions[c - 1], tr.states[c]);
    if tr.actions[c - 1].Begin? {
      b := c - 1;
    } else {
      b := CycleThrough(tr, c - 1);
    }
  }

  lemma CycleOf(tr: Trace, c: nat) returns (b: nat)
    requires IsTrace(tr) && c < |tr.states| && tr.states[c].cycle.Some?
    ensures RunsSince(tr, b, c)
  {
    forall i | 0 <= i < |tr.actions|
      ensures CycleRuns(tr.states[i], tr.actions[i], tr.states[i + 1])
    {
      CycleStep(tr.states[i], tr.actions[i]);
    }
    b := CycleThrough(tr, c);
  }

  /** An open key's entry compares equal to the snapshot's exactly when it was not replaced. */
  lemma OpenEntry(tr: Trace, b: nat, c: nat, k: RetryKey)
    requires IsTrace(tr) && c < |tr.states| && RunsSince(tr, b, c) && k in tr.states[b].store
    requires forall i :: b < i < c ==> Untouched(tr.states[i], tr.actions[i], k)
    ensures k in tr.states[c].store
    ensures SamePending(tr.states[c].store[k], tr.states[b].store[k]) <==>
      NotReplaced(tr.actions, b, c, k, tr.states[b].store[k])
  {
    SnapshotStays(tr, b, c, k);
    Reachable(tr, b);
    Reachable(tr, c);
    SameIsNotReplaced(tr.actions, b, c, k, tr.states[b].store[k], tr.states[c]);
  }

  /** An attempted key of either operation is gone right after its attempt iff the attempt is over and
      nothing replaced the entry since the cycle's snapshot. No other key moves. */
  lemma CycleRemovesExactly(tr: Trace, c: nat) returns (b: nat)
    requires IsTrace(tr) && c < |tr.actions| && tr.actions[c].Attempt?
    ensures RunsSince(tr, b, c) && tr.actions[c].key in tr.states[b].store
    ensures var k, p := tr.actions[c].key, tr.states[b].store[tr.actions[c].key];
      k !in tr.states[c + 1].store <==> Concludes(p, tr.actions[c].err) && NotReplaced(tr.actions, b, c, k, p)
    ensures forall k :: k != tr.actions[c].key ==> (k in tr.states[c + 1].store <==> k in tr.states[c].store)
    ensures forall k :: k in tr.states[c + 1].store ==> tr.states[c + 1].store[k] == tr.states[c].store[k]
  {
    b := CycleOf(tr, c);
    Reachable(tr, c);
    var k := tr.actions[c].key;
    forall i | b < i < c
      ensures Untouched(tr.states[i], tr.actions[i], k)
    {
    }
    OpenEntry(tr, b, c, k);
  }

  /** Dropping the ghosts removes exactly the keys of the snapshot whose sink is not registered and
      that nothing replaced since. */
  lemma GhostsRemovedExactly(tr: Trace, c: nat) returns (b: nat)
    requires IsTrace(tr) && c < |tr.actions| && tr.actions[c].DropGhosts?
    ensures RunsSince(tr, b, c)
    ensures forall k :: k in tr.states[c].store ==>
      (k !in tr.states[c + 1].store <==>
        k in tr.states[b].store && k.sink !in tr.states[c].sinkNames &&
          NotReplaced(tr.actions, b, c, k, tr.states[b].store[k]))
    ensures forall k :: k in tr.states[c + 1].store ==>
      k in tr.states[c].store && tr.states[c + 1].store[k] == tr.states[c].store[k]
  {
    b := CycleOf(tr, c);
    forall k | k in tr.states[b].store
      ensures k in tr.states[c].store
      ensures SamePending(tr.states[c].store[k], tr.states[b].store[k]) <==>
        NotReplaced(tr.actions, b, c, k, tr.states[b].store[k])
    {
      OpenEntry(tr, b, c, k);
    }
  }

  // ---------------------------------------------------------------- no request is lost

  /** The action asks for a retry of `k` at rank `r`. */
  predicate Requests(a: Action, k: RetryKey, r: int) {
    (AddsPush(a, k) && a.item.instance.reversion == r) || (AddsFull(a, k) && a.whole.sequence == r)
  }

  predicate HoldsAt(s: State, k: RetryKey, r: int) { k in s.store && Rank(s.store[k]) >= r }

  /** The step ends a retry of `k` at rank `r` or higher: an attempt with a snapshot at least that new
      is over, or the sink of the key is not registered. */
  predicate Settles(s: State, a: Action, k: RetryKey, r: int) {
    && s.cycle.Some? && k in s.cycle.value.batch && Rank(s.cycle.value.batch[k]) >= r
    && (|| (a.Attempt? && a.key == k && Concludes(s.cycle.value.batch[k], a.err))
        || (a.DropGhosts? && k.sink !in s.sinkNames))
  }

  predicate HoldsOn(s: State, a: Action, s': State, k: RetryKey, r: int) {
    && (HoldsAt(s, k, r) ==> HoldsAt(s', k, r) || Settles(s, a, k, r))
    && (Requests(a, k, r) ==> HoldsAt(s', k, r))
  }

  lemma HoldingStepAdd(s: State, a: Action, k: RetryKey, r: int)
    requires StoreOk(s.store) && Enabled(s, a) && (a.AddPush? || a.AddFull?)
    ensures HoldsOn(s, a, Do(s, a), k, r)
  {
  }

  lemma HoldingStepDrop(s: State, k: RetryKey, r: int)
    requires Inv(s) && Enabled(s, DropGhosts)
    ensures HoldsOn(s, DropGhosts, Do(s, DropGhosts), k, r)
  {
    var c := s.cycle.value;
    if HoldsAt(s, k, r) && k in Unchanged(s.store, c.batch, Ghosts(s, c.batch)) {
      OverWhenSame(s.store[k], c.batch[k], s);
    }
  }

  lemma HoldingStepAttempt(s: State, a: Action, k: RetryKey, r: int)
    requires Inv(s) && Enabled(s, a) && a.Attempt?
    ensures HoldsOn(s, a, Do(s, a), k, r)
  {
    if HoldsAt(s, k, r) && k !in Do(s, a).store {
      OverWhenSame(s.store[k], s.cycle.value.batch[k], s);
    }
  }

  lemma HoldingStep(s: State, a: Action, k: RetryKey, r: int)
    requires Inv(s) && Enabled(s, a)
    ensures HoldsOn(s, a, Do(s, a), k, r)
  {
    match a
    case AddPush(_, _, _) => HoldingStepAdd(s, a, k, r);
    case AddFull(_, _) => HoldingStepAdd(s, a, k, r);
    case DropGhosts => HoldingStepDrop(s, k, r);
    case Attempt(_, _) => HoldingStepAttempt(s, a, k, r);
    case Begin =>
    case Finish =>
  }

  ghost predicate SettledBetween(tr: Trace, i: nat, j: nat, k: RetryKey, r: int)
    requires |tr.states| == |tr.actions| + 1 && j < |tr.states|
  {
    exists c :: i < c < j && Settles(tr.states[c], tr.actions[c], k, r)
  }

  lemma {:induction false} HoldsThrough(tr: Trace, i: nat, j: nat, k: RetryKey, r: int)
    requires |tr.states| == |tr.actions| + 1 && i < j < |tr.states| && Requests(tr.actions[i], k, r)
    requires forall m :: i <= m < j ==> HoldsOn(tr.states[m], tr.actions[m], tr.states[m + 1], k, r)
    ensures HoldsAt(tr.states[j], k, r) || SettledBetween(tr, i, j, k, r)
    decreases j
  {
    assert HoldsOn(tr.states[j - 1], tr.actions[j - 1], tr.states[j], k, r);
    if i + 1 < j {
      HoldsThrough(tr, i, j - 1, k, r);
      if SettledBetween(tr, i, j - 1, k, r) {
        var c :| i < c < j - 1 && Settles(tr.states[c], tr.actions[c], k, r);
        assert i < c < j;
      }
    }
  }

  /** A retry that is asked for in step `i` is queued at that rank or higher in every later state `j`,
      unless between the two an attempt with a snapshot at least that new was over, or the key's sink
      is not registered and its ghost was dropped. What was settled before `i` does not count. */
  lemma NoLostRetry(tr: Trace, i: nat, j: nat, k: RetryKey, r: int)
    requires IsTrace(tr) && i < j < |tr.states| && Requests(tr.actions[i], k, r)
    ensures HoldsAt(tr.states[j], k, r) || SettledBetween(tr, i, j, k, r)
  {
    forall m | i <= m < j
      ensures HoldsOn(tr.states[m], tr.actions[m], tr.states[m + 1], k, r)
    {
      Reachable(tr, m);
      HoldingStep(tr.states[m], tr.actions[m], k, r);
    }
    HoldsThrough(tr, i, j, k, r);
  }

  // ---------------------------------------------------------------- a cycle can always go on

  /** In every state the cycle has a next step: it may begin when none runs, then drops the ghosts, then
      attempts any open key with any outcome, and finishes when none is left. */
  lemma CycleMoves(tr: Trace, i: nat, k: RetryKey, err: Option<Err>)
    requires IsTrace(tr) && i < |tr.states|
    ensures var s := tr.states[i];
      if s.cycle.None? then Enabled(s, Begin) && Do(s, Begin).cycle == Some(Cycle(s.store, s.store.Keys, false))
      else if !s.cycle.value.ghostsDropped then Enabled(s, DropGhosts) && Do(s, DropGhosts).cycle.Some?
      else if k in s.cycle.value.todo then
        Enabled(s, Attempt(k, err)) && Do(s, Attempt(k, err)).cycle.Some? &&
        Do(s, Attempt(k, err)).cycle.value.todo == s.cycle.value.todo - {k}
      else s.cycle.value.todo == {} ==> Enabled(s, Finish) && Do(s, Finish).cycle.None?
  {
    Reachable(tr, i);
  }
}
