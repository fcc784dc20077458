/** The bounded, identity-keyed requeue of pkg/providers/overflow.go: at most one
    retained task per key, a newer task replaces an older one, and a dispatcher
    submits them with one-token wakeups. */
module OverflowQueue {
  import opened Instances

  /** A task, numbered in the order in which tasks are offered. */
  type Task = nat

  datatype Entry = Entry(task: Task, generation: nat, inflight: bool)

  datatype Queue = Queue(entries: map<Key, Entry>, order: seq<Key>, max: nat, closed: bool)

  const DEFAULT_MAX: nat := 100 * 4

  const EMPTY_IDENTITY := "<empty-identity>"

  function KeyFor(key: Key): Key { if key == "" then EMPTY_IDENTITY else key }

  predicate Accepts(q: Queue, key: Key) {
    !q.closed && (key in q.entries || |q.entries| < q.max)
  }

  function Offered(q: Queue, key: Key, task: Task): Queue {
    if !Accepts(q, key) then q
    else if key in q.entries then
      q.(entries := q.entries[key := Entry(task, q.entries[key].generation + 1, q.entries[key].inflight)])
    else q.(entries := q.entries[key := Entry(task, 1, false)], order := q.order + [key])
  }

  predicate Eligible(q: Queue, key: Key) { key in q.entries && !q.entries[key].inflight }

  /** The first eligible key leaves the order and is in flight; `None` empties the order. */
  function Taken(q: Queue): (Queue, Option<Key>)
    decreases |q.order|
  {
    if q.order == [] then (q, None)
    else
      var key := q.order[0];
      var rest := q.(order := q.order[1..]);
      if Eligible(q, key) then (rest.(entries := q.entries[key := q.entries[key].(inflight := true)]), Some(key))
      else Taken(rest)
  }

  /** A submission is over. Only the very task that was submitted leaves the queue. */
  function Finished(q: Queue, key: Key, generation: nat, submitted: bool): Queue {
    if key !in q.entries then q
    else if q.entries[key].generation == generation && submitted then q.(entries := q.entries - {key})
    else q.(entries := q.entries[key := q.entries[key].(inflight := false)], order := q.order + [key])
  }

  predicate NeedsSignal(q: Queue, key: Key, generation: nat, submitted: bool) {
    key in q.entries && (!submitted || q.entries[key].generation != generation)
  }

  class Overflow {
    var entries: map<Key, Entry>
    var order: seq<Key>
    var closed: bool
    var wake: bool
    const max: nat

    /** A non-positive bound becomes the default one: the queue is never unbounded. */
    constructor (max: int)
      ensures Value() == Queue(map[], [], if max <= 0 then 400 else max, false) && !wake
    {
      entries, order, closed, wake := map[], [], false, false;
      this.max := if max <= 0 then DEFAULT_MAX else max;
    }

    function Value(): Queue
      reads this
    {
      Queue(entries, order, max, closed)
    }

    /** False only for a nil task, a closed queue, or a new key when the queue is full. */
    method Offer(name: Key, task: Option<Task>) returns (accepted: bool)
      modifies this
      ensures accepted <==> task.Some? && Accepts(old(Value()), KeyFor(name))
      ensures Value() == if task.Some? then Offered(old(Value()), KeyFor(name), task.value) else old(Value())
      ensures wake == (old(wake) || accepted)
    {
      if task.None? {
        return false;
      }
      var key := name;
      if key == "" {
        key := EMPTY_IDENTITY;
      }
      if closed {
        return false;
      }
      if key in entries {
        entries := entries[key := Entry(task.value, entries[key].generation + 1, entries[key].inflight)];
        wake := true;
        return true;
      }
      if |entries| >= max {
        return false;
      }
      entries := entries[key := Entry(task.value, 1, false)];
      order := order + [key];
      wake := true;
      return true;
    }

    method Next() returns (key: Option<Key>)
      modifies this
      ensures (Value(), key) == Taken(old(Value()))
      ensures wake == old(wake)
    {
      while |order| > 0
        invariant Taken(Value()) == Taken(old(Value())) && wake == old(wake) && entries == old(entries) &&
          closed == old(closed)
        decreases |order|
      {
        var first := order[0];
        order := order[1..];
        if first !in entries || entries[first].inflight {
          continue;
        }
        entries := entries[first := entries[first].(inflight := true)];
        return Some(first);
      }
      return None;
    }

    method Finish(key: Key, generation: nat, submitted: bool)
      modifies this
      ensures Value() == Finished(old(Value()), key, generation, submitted)
      ensures wake == (old(wake) || NeedsSignal(old(Value()), key, generation, submitted))
    {
      if key in entries && entries[key].generation == generation {
        if submitted {
          entries := entries - {key};
        } else {
          entries := entries[key := entries[key].(inflight := false)];
          order := order + [key];
          wake := true;
        }
      } else if key in entries {
        entries := entries[key := entries[key].(inflight := false)];
        order := order + [key];
        wake := true;
      }
    }
  }
}

/** Every interleaving of producers with the dispatcher. An Offer updates the queue
    and signals in two steps; so does the dispatcher when a submission is over. */
module OverflowMachine {
  import opened Instances
  import opened OverflowQueue

  datatype Pc =
    | Blocked                                                    // waiting for a token
    | Draining
    | Submitting(key: Key, entry: Entry)
    | Answered(key: Key, entry: Entry, submitted: bool)          // submit returned, queue not updated yet
    | Signalling(submitted: bool)                                // queue updated, token not sent yet
    | Retrying                                                   // the retry timer runs
    | Stopped

  /** `signals` counts Offers that updated the queue and have not signalled yet.
      `newest` and `log` are history: the last accepted offer of each key, and the
      submissions in the order the pool accepted them. */
  datatype State = State(
    q: Queue, wake: bool, signals: nat, pc: Pc, offered: nat, newest: map<Key, Task>, log: seq<(Key, Task)>)

  datatype Action =
    | OfferUpdate(key: Key)
    | OfferSignal
    | Wake
    | TakeNext
    | Submit(accepted: bool)
    | Finish
    | Signal
    | RetryElapsed
    | Close
    | Stop

  predicate Init(s: State) {
    && s.q.entries == map[] && s.q.order == [] && s.q.max > 0 && !s.q.closed
    && !s.wake && s.signals == 0 && s.pc.Blocked? && s.newest == map[] && s.log == []
  }

  predicate Enabled(s: State, a: Action) {
    match a
    case OfferUpdate(_) => true
    case OfferSignal => s.signals > 0
    case Wake => s.pc.Blocked? && s.wake
    case TakeNext => s.pc.Draining?
    case Submit(_) => s.pc.Submitting?
    case Finish => s.pc.Answered?
    case Signal => s.pc.Signalling?
    case RetryElapsed => s.pc.Retrying?
    case Close => true
    case Stop => s.pc.Blocked? || s.pc.Retrying?
  }

  function After(submitted: bool): Pc { if submitted then Draining else Retrying }

  function Do(s: State, a: Action): State
    requires Enabled(s, a)
  {
    match a
    case OfferUpdate(name) =>
      var key := KeyFor(name);
      var s' := s.(offered := s.offered + 1);
      if Accepts(s.q, key) then
        s'.(q := Offered(s.q, key, s.offered), signals := s.signals + 1, newest := s.newest[key := s.offered])
      else s'
    case OfferSignal => s.(signals := s.signals - 1, wake := true)
    case Wake => s.(wake := false, pc := Draining)
    case TakeNext =>
      var (q, key) := Taken(s.q);
      s.(q := q,
         pc := if key.Some? && key.value in q.entries then Submitting(key.value, q.entries[key.value])
               else Blocked)
    case Submit(accepted) =>
      var s' := s.(pc := Answered(s.pc.key, s.pc.entry, accepted));
      if accepted then s'.(log := s.log + [(s.pc.key, s.pc.entry.task)]) else s'
    case Finish =>
      var pc := s.pc;
      s.(q := Finished(s.q, pc.key, pc.entry.generation, pc.submitted),
         pc := if NeedsSignal(s.q, pc.key, pc.entry.generation, pc.submitted) then Signalling(pc.submitted)
               else After(pc.submitted))
    case Signal => s.(wake := true, pc := After(s.pc.submitted))
    case RetryElapsed => s.(pc := Blocked)
    case Close => s.(q := s.q.(closed := true))
    case Stop => s.(pc := Stopped)
  }

  // ---------------------------------------------------------------- invariant

  predicate Busy(s: State, k: Key) {
    (s.pc.Submitting? || s.pc.Answered?) && s.pc.key == k
  }

  /** The order lists the retained keys that are not in flight, each once. */
  ghost predicate OrderOk(q: Queue) {
    && (forall k :: k in q.order <==> Eligible(q, k))
    && (forall i, j :: 0 <= i < j < |q.order| ==> q.order[i] != q.order[j])
  }

  ghost predicate EntryOk(s: State, k: Key) {
    k in s.q.entries ==>
      && (s.q.entries[k].inflight <==> Busy(s, k))
      && k in s.newest && s.q.entries[k].task == s.newest[k] && s.newest[k] < s.offered
  }

  /** What is in flight is the retained task or an older one of the same key. */
  ghost predicate FlightOk(s: State) {
    s.pc.Submitting? || s.pc.Answered? ==>
      && s.pc.key in s.q.entries
      && var entry := s.q.entries[s.pc.key];
         if s.pc.entry.generation == entry.generation then s.pc.entry.task == entry.task
         else s.pc.entry.generation < entry.generation && s.pc.entry.task < entry.task
  }

  ghost predicate EntriesOk(s: State) {
    (forall k :: EntryOk(s, k)) && FlightOk(s) && |s.q.entries| <= s.q.max
  }

  /** The newest accepted task of a key is retained, or the pool accepted it. */
  ghost predicate NewestKept(s: State) {
    forall k :: k in s.newest ==> (k in s.q.entries && s.q.entries[k].task == s.newest[k]) || (k, s.newest[k]) in s.log
  }

  ghost predicate Below(log: seq<(Key, Task)>, k: Key, t: nat) {
    forall i :: 0 <= i < |log| && log[i].0 == k ==> log[i].1 < t
  }

  predicate Done(s: State, k: Key, t: Task) {
    s.pc.Answered? && s.pc.submitted && s.pc.key == k && s.pc.entry.task == t
  }

  ghost predicate NewerThanLog(s: State, k: Key) {
    k in s.q.entries ==>
      var t := s.q.entries[k].task;
      Below(s.log, k, if Done(s, k, t) then t + 1 else t)
  }

  /** Submissions of one key follow the order of its offers, and what is retained is newer
      still, except for a task whose submission is about to be recorded. */
  ghost predicate LogOk(s: State) {
    && (forall i, j :: 0 <= i < j < |s.log| && s.log[i].0 == s.log[j].0 ==> s.log[i].1 < s.log[j].1)
    && (forall i :: 0 <= i < |s.log| ==> s.log[i].1 < s.offered)
    && (forall k :: NewerThanLog(s, k))
    && (s.pc.Submitting? ==> Below(s.log, s.pc.key, s.pc.entry.task))
    && (s.pc.Answered? && s.pc.submitted ==> (s.pc.key, s.pc.entry.task) in s.log)
  }

  /** Whoever sleeps with work waiting has a token coming. */
  ghost predicate WakeOk(s: State) {
    && (s.pc.Blocked? && s.q.order != [] ==> s.wake || s.signals > 0)
    && (s.pc.Retrying? && s.q.order != [] ==> s.wake || s.signals > 0)
  }

  ghost predicate Inv(s: State) {
    OrderOk(s.q) && EntriesOk(s) && NewestKept(s) && LogOk(s) && WakeOk(s)
  }

  /** With an exact order the head is always eligible. */
  lemma TakesHead(q: Queue)
    requires OrderOk(q)
    ensures q.order == [] ==> Taken(q) == (q, None)
    ensures q.order != [] ==>
      var key := q.order[0];
      Taken(q) == (q.(order := q.order[1..], entries := q.entries[key := q.entries[key].(inflight := true)]), Some(key))
  {
    if q.order != [] {
      assert q.order[0] in q.order;
    }
  }

  lemma OfferKeepsOrder(q: Queue, key: Key, task: Task)
    requires OrderOk(q)
    ensures OrderOk(Offered(q, key, task))
  {
    var q' := Offered(q, key, task);
    if Accepts(q, key) && key !in q.entries {
      assert key !in q.order;
      assert forall i :: 0 <= i < |q.order| ==> q'.order[i] == q.order[i] && q.order[i] in q.order;
    }
  }

  lemma TakeKeepsOrder(q: Queue)
    requires OrderOk(q)
    ensures OrderOk(Taken(q).0)
  {
    TakesHead(q);
    if q.order != [] {
      var q' := Taken(q).0;
      assert q.order == [q.order[0]] + q.order[1..];
      forall k
        ensures k in q'.order <==> Eligible(q', k)
      {
        assert k in q.order <==> Eligible(q, k);
      }
    }
  }

  lemma FinishKeepsOrder(q: Queue, key: Key, generation: nat, submitted: bool)
    requires OrderOk(q) && key in q.entries && q.entries[key].inflight
    ensures OrderOk(Finished(q, key, generation, submitted))
  {
    assert key !in q.order;
  }

  lemma KeepsOrder(s: State, a: Action)
    requires OrderOk(s.q) && EntriesOk(s) && Enabled(s, a)
    ensures OrderOk(Do(s, a).q)
  {
    match a
    case OfferUpdate(name) => OfferKeepsOrder(s.q, KeyFor(name), s.offered);
    case TakeNext => TakeKeepsOrder(s.q);
    case Finish =>
      assert EntryOk(s, s.pc.key);
      FinishKeepsOrder(s.q, s.pc.key, s.pc.entry.generation, s.pc.submitted);
    case _ =>
  }

  lemma KeepsEntryOffer(s: State, a: Action, k: Key)
    requires FlightOk(s) && EntryOk(s, k) && Enabled(s, a) && a.OfferUpdate?
    ensures EntryOk(Do(s, a), k)
  {
  }

  lemma KeepsEntryDispatch(s: State, a: Action, k: Key)
    requires OrderOk(s.q) && FlightOk(s) && EntryOk(s, k) && Enabled(s, a) && !a.OfferUpdate?
    ensures EntryOk(Do(s, a), k)
  {
    TakesHead(s.q);
    assert s.q.order != [] ==> s.q.order[0] in s.q.order;
  }

  lemma KeepsFlight(s: State, a: Action)
    requires OrderOk(s.q) && FlightOk(s) && Enabled(s, a)
    requires forall k :: EntryOk(s, k)
    ensures FlightOk(Do(s, a))
  {
    TakesHead(s.q);
    if s.pc.Submitting? || s.pc.Answered? {
      assert EntryOk(s, s.pc.key);
    }
  }

  lemma OfferSize(q: Queue, key: Key, task: Task)
    requires |q.entries| <= q.max
    ensures |Offered(q, key, task).entries| <= q.max
  {
    var q' := Offered(q, key, task);
    assert q'.entries.Keys == q.entries.Keys || q'.entries.Keys == q.entries.Keys + {key};
  }

  lemma TakeSize(q: Queue)
    requires OrderOk(q) && |q.entries| <= q.max
    ensures |Taken(q).0.entries| <= q.max
  {
    TakesHead(q);
    if q.order != [] {
      assert q.order[0] in q.order;
      assert Taken(q).0.entries.Keys == q.entries.Keys;
    }
  }

  lemma FinishSize(q: Queue, key: Key, generation: nat, submitted: bool)
    requires |q.entries| <= q.max
    ensures |Finished(q, key, generation, submitted).entries| <= q.max
  {
    var q' := Finished(q, key, generation, submitted);
    assert q'.entries.Keys == q.entries.Keys || q'.entries.Keys == q.entries.Keys - {key};
  }

  lemma KeepsSize(s: State, a: Action)
    requires OrderOk(s.q) && Enabled(s, a) && |s.q.entries| <= s.q.max
    ensures |Do(s, a).q.entries| <= Do(s, a).q.max
  {
    match a
    case OfferUpdate(name) => OfferSize(s.q, KeyFor(name), s.offered);
    case TakeNext =>
      TakesHead(s.q);
      TakeSize(s.q);
    case Finish => FinishSize(s.q, s.pc.key, s.pc.entry.generation, s.pc.submitted);
    case _ =>
  }

  lemma KeepsEntries(s: State, a: Action)
    requires OrderOk(s.q) && EntriesOk(s) && Enabled(s, a)
    ensures EntriesOk(Do(s, a))
  {
    forall k
      ensures EntryOk(Do(s, a), k)
    {
      if a.OfferUpdate? {
        KeepsEntryOffer(s, a, k);
      } else {
        KeepsEntryDispatch(s, a, k);
      }
    }
    KeepsFlight(s, a);
    KeepsSize(s, a);
  }

  lemma KeepsNewest(s: State, a: Action)
    requires OrderOk(s.q) && EntriesOk(s) && NewestKept(s) && LogOk(s) && Enabled(s, a)
    ensures NewestKept(Do(s, a))
  {
    TakesHead(s.q);
    assert s.q.order != [] ==> s.q.order[0] in s.q.order;
    var s' := Do(s, a);
    forall k | k in s'.newest
      ensures (k in s'.q.entries && s'.q.entries[k].task == s'.newest[k]) || (k, s'.newest[k]) in s'.log
    {
      assert k in s.newest || a.OfferUpdate?;
    }
  }

  lemma KeepsNewer(s: State, a: Action, k: Key)
    requires OrderOk(s.q) && FlightOk(s) && EntryOk(s, k) && Enabled(s, a)
    requires s.pc.Submitting? || s.pc.Answered? ==> EntryOk(s, s.pc.key)
    requires NewerThanLog(s, k)
    requires forall i :: 0 <= i < |s.log| ==> s.log[i].1 < s.offered
    ensures NewerThanLog(Do(s, a), k)
  {
    TakesHead(s.q);
    assert s.q.order != [] ==> s.q.order[0] in s.q.order;
  }

  /** The log grows by an accepted submission only, and the submitted task is newer than its key's log. */
  lemma KeepsLogOrder(s: State, a: Action)
    requires LogOk(s) && Enabled(s, a)
    requires s.pc.Submitting? ==> s.pc.entry.task < s.offered
    ensures var s' := Do(s, a);
      && (forall i, j :: 0 <= i < j < |s'.log| && s'.log[i].0 == s'.log[j].0 ==> s'.log[i].1 < s'.log[j].1)
      && (forall i :: 0 <= i < |s'.log| ==> s'.log[i].1 < s'.offered)
      && (s'.pc.Answered? && s'.pc.submitted ==> (s'.pc.key, s'.pc.entry.task) in s'.log)
  {
  }

  lemma KeepsLogFlight(s: State, a: Action)
    requires OrderOk(s.q) && EntriesOk(s) && LogOk(s) && Enabled(s, a)
    ensures var s' := Do(s, a); s'.pc.Submitting? ==> Below(s'.log, s'.pc.key, s'.pc.entry.task)
  {
    TakesHead(s.q);
    if a.TakeNext? && s.q.order != [] {
      assert s.q.order[0] in s.q.order;
      assert NewerThanLog(s, s.q.order[0]);
    }
  }

  lemma KeepsLog(s: State, a: Action)
    requires OrderOk(s.q) && EntriesOk(s) && LogOk(s) && Enabled(s, a)
    ensures LogOk(Do(s, a))
  {
    assert s.pc.Submitting? || s.pc.Answered? ==> EntryOk(s, s.pc.key);
    forall k
      ensures NewerThanLog(Do(s, a), k)
    {
      assert NewerThanLog(s, k) && EntryOk(s, k);
      KeepsNewer(s, a, k);
    }
    KeepsLogOrder(s, a);
    KeepsLogFlight(s, a);
  }

  lemma KeepsWake(s: State, a: Action)
    requires OrderOk(s.q) && EntriesOk(s) && WakeOk(s) && Enabled(s, a)
    ensures WakeOk(Do(s, a))
  {
    TakesHead(s.q);
    assert s.q.order != [] ==> s.q.order[0] in s.q.order;
  }

  lemma KeepsInv(s: State, a: Action)
    requires Inv(s) && Enabled(s, a)
    ensures Inv(Do(s, a))
  {
    KeepsOrder(s, a);
    KeepsEntries(s, a);
    KeepsNewest(s, a);
    KeepsLog(s, a);
    KeepsWake(s, a);
  }

  // ---------------------------------------------------------------- whole runs

  datatype Trace = Trace(states: seq<State>, actions: seq<Action>)

  ghost predicate IsTrace(tr: Trace) {
    && |tr.states| == |tr.actions| + 1
    && Init(tr.states[0])
    && (forall i :: 0 <= i < |tr.actions| ==>
          Enabled(tr.states[i], tr.actions[i]) && tr.states[i + 1] == Do(tr.states[i], tr.actions[i]))
  }

  lemma {:induction false} Reachable(tr: Trace, i: nat)
    requires IsTrace(tr) && i < |tr.states|
    ensures Inv(tr.states[i])
    decreases i
  {
    if i > 0 {
      Reachable(tr, i - 1);
      KeepsInv(tr.states[i - 1], tr.actions[i - 1]);
    }
  }

  /** In every reachable state the order is the retained keys that are not in flight,
      each exactly once, and at most `max` keys are retained. */
  lemma OrderIsExact(tr: Trace, i: nat)
    requires IsTrace(tr) && i < |tr.states|
    ensures var q := tr.states[i].q;
      && (set k | k in q.order) == (set k | k in q.entries && !q.entries[k].inflight)
      && (forall a, b :: 0 <= a < b < |q.order| ==> q.order[a] != q.order[b])
      && |q.entries| <= q.max
  {
    Reachable(tr, i);
    var q := tr.states[i].q;
    assert forall k :: k in q.order <==> Eligible(q, k);
  }

  /** An accepted task is superseded by a later accepted task of its key, or retained,
      or accepted by the pool. */
  lemma AcceptedIsKept(tr: Trace, i: nat, j: nat)
    requires IsTrace(tr) && i < j < |tr.states|
    requires tr.actions[i].OfferUpdate? && Accepts(tr.states[i].q, KeyFor(tr.actions[i].key))
    ensures var k, t, s := KeyFor(tr.actions[i].key), tr.states[i].offered, tr.states[j];
      && k in s.newest && t <= s.newest[k]
      && ((k in s.q.entries && s.q.entries[k].task == s.newest[k]) || (k, s.newest[k]) in s.log)
  {
    Reachable(tr, j);
    NewestGrows(tr, i, j);
  }

  lemma {:induction false} NewestGrows(tr: Trace, i: nat, j: nat)
    requires IsTrace(tr) && i < j < |tr.states|
    requires tr.actions[i].OfferUpdate? && Accepts(tr.states[i].q, KeyFor(tr.actions[i].key))
    ensures KeyFor(tr.actions[i].key) in tr.states[j].newest
    ensures tr.states[i].offered <= tr.states[j].newest[KeyFor(tr.actions[i].key)]
    decreases j
  {
    assert tr.states[j] == Do(tr.states[j - 1], tr.actions[j - 1]);
    if j > i + 1 {
      NewestGrows(tr, i, j - 1);
      OfferedGrows(tr, i, j - 1);
    }
  }

  lemma {:induction false} OfferedGrows(tr: Trace, i: nat, j: nat)
    requires IsTrace(tr) && i <= j < |tr.states|
    ensures tr.states[i].offered <= tr.states[j].offered
    decreases j
  {
    if i < j {
      OfferedGrows(tr, i, j - 1);
      assert tr.states[j] == Do(tr.states[j - 1], tr.actions[j - 1]);
    }
  }

  /** Submissions of one key never go back in time, and no task is submitted twice. */
  lemma SubmissionsFollowOffers(tr: Trace, i: nat, a: nat, b: nat)
    requires IsTrace(tr) && i < |tr.states|
    requires a < b < |tr.states[i].log| && tr.states[i].log[a].0 == tr.states[i].log[b].0
    ensures tr.states[i].log[a].1 < tr.states[i].log[b].1
  {
    Reachable(tr, i);
  }

  /** A dispatcher asleep while keys are eligible has a token, or an Offer about to send one. */
  lemma NoLostWakeup(tr: Trace, i: nat)
    requires IsTrace(tr) && i < |tr.states|
    requires tr.states[i].pc.Blocked? && tr.states[i].q.order != []
    ensures Enabled(tr.states[i], Wake) || Enabled(tr.states[i], OfferSignal)
  {
    Reachable(tr, i);
  }

  function Turns(tr: Trace, i: nat, j: nat): nat
    requires i <= j <= |tr.actions|
    decreases j - i
  {
    if i == j then 0 else (if tr.actions[i].TakeNext? then 1 else 0) + Turns(tr, i + 1, j)
  }

  /** No step but the dispatcher's own moves an eligible key, and that step moves it forward. */
  lemma QueuedStep(s: State, a: Action, p: nat)
    requires Inv(s) && Enabled(s, a) && p < |s.q.order|
    ensures !a.TakeNext? ==> p < |Do(s, a).q.order| && Do(s, a).q.order[p] == s.q.order[p]
    ensures a.TakeNext? && p > 0 ==> p - 1 < |Do(s, a).q.order| && Do(s, a).q.order[p - 1] == s.q.order[p]
    ensures a.TakeNext? && p == 0 ==> Do(s, a).pc.Submitting? && Do(s, a).pc.key == s.q.order[0]
  {
    TakesHead(s.q);
    assert s.q.order[0] in s.q.order;
  }

  /** First come, first submitted: the key at position `p` is submitted by the dispatcher's
      turn number `p + 1` at the latest, whatever is offered or refused meanwhile. */
  lemma {:induction false} TurnComes(tr: Trace, i: nat, j: nat, p: nat) returns (m: nat)
    requires IsTrace(tr) && i <= j <= |tr.actions|
    requires p < |tr.states[i].q.order| && Turns(tr, i, j) > p
    ensures i <= m < j && tr.actions[m].TakeNext?
    ensures tr.states[m + 1].pc.Submitting? && tr.states[m + 1].pc.key == tr.states[i].q.order[p]
    decreases j - i
  {
    Reachable(tr, i);
    QueuedStep(tr.states[i], tr.actions[i], p);
    if !tr.actions[i].TakeNext? {
      m := TurnComes(tr, i + 1, j, p);
    } else if p > 0 {
      m := TurnComes(tr, i + 1, j, p - 1);
    } else {
      m := i;
    }
  }

  // ---------------------------------------------------------------- tokens, pauses and the end

  /** The step is an offer the queue takes: it is open, and it holds the key or has room for one more. */
  predicate TakesOffer(s: State, a: Action) {
    a.OfferUpdate? && !s.q.closed &&
    ((if a.key == "" then "<empty-identity>" else a.key) in s.q.entries || |s.q.entries| < s.q.max)
  }

  function OffersTaken(tr: Trace, i: nat): nat
    requires i < |tr.states| == |tr.actions| + 1
  {
    if i == 0 then 0 else OffersTaken(tr, i - 1) + if TakesOffer(tr.states[i - 1], tr.actions[i - 1]) then 1 else 0
  }

  function Signalled(actions: seq<Action>, i: nat): nat
    requires i <= |actions|
  {
    if i == 0 then 0 else Signalled(actions, i - 1) + if actions[i - 1].OfferSignal? then 1 else 0
  }

  lemma SignalStep(s: State, a: Action)
    requires Enabled(s, a)
    ensures Do(s, a).signals + (if a.OfferSignal? then 1 else 0) == s.signals + (if TakesOffer(s, a) then 1 else 0)
  {
  }

  /** Every offer that is taken sends one token, and no other does. */
  lemma {:induction false} OneTokenPerOffer(tr: Trace, i: nat)
    requires IsTrace(tr) && i < |tr.states|
    ensures tr.states[i].signals + Signalled(tr.actions, i) == OffersTaken(tr, i)
  {
    if i > 0 {
      OneTokenPerOffer(tr, i - 1);
      SignalStep(tr.states[i - 1], tr.actions[i - 1]);
    }
  }

  predicate SignalsWork(s: State) { s.pc.Signalling? ==> s.q.order != [] }

  lemma KeepsSignalsWork(s: State, a: Action)
    requires SignalsWork(s) && Enabled(s, a)
    ensures SignalsWork(Do(s, a))
  {
  }

  /** The dispatcher wakes itself only when a key waits in the order. */
  lemma SignalMeansWork(tr: Trace, i: nat)
    requires IsTrace(tr) && i < |tr.states| && tr.states[i].pc.Signalling?
    ensures tr.states[i].q.order != []
  {
    SignalsWorkAlong(tr, i);
  }

  lemma {:induction false} SignalsWorkAlong(tr: Trace, i: nat)
    requires IsTrace(tr) && i < |tr.states|
    ensures SignalsWork(tr.states[i])
  {
    if i > 0 {
      SignalsWorkAlong(tr, i - 1);
      KeepsSignalsWork(tr.states[i - 1], tr.actions[i - 1]);
    }
  }

  /** The pool refused, and the retry timer has not elapsed yet. */
  predicate Pauses(s: State) {
    (s.pc.Answered? && !s.pc.submitted) || (s.pc.Signalling? && !s.pc.submitted) || s.pc.Retrying? || s.pc.Stopped?
  }

  predicate PausesOn(s: State, a: Action, s': State) {
    && (a.Submit? && !a.accepted ==> Pauses(s'))
    && (Pauses(s) && !a.RetryElapsed? ==> Pauses(s') && !a.TakeNext? && !a.Submit?)
  }

  lemma PauseStep(s: State, a: Action)
    requires Enabled(s, a)
    ensures PausesOn(s, a, Do(s, a))
  {
  }

  lemma {:induction false} PausesThrough(states: seq<State>, actions: seq<Action>, i: nat, j: nat)
    requires i < j < |actions| < |states| && actions[i].Submit? && !actions[i].accepted
    requires forall m :: 0 <= m < |actions| ==> PausesOn(states[m], actions[m], states[m + 1])
    requires forall m :: i < m < j ==> !actions[m].RetryElapsed?
    ensures Pauses(states[j])
    decreases j
  {
    if i + 1 < j {
      PausesThrough(states, actions, i, j - 1);
    }
    assert PausesOn(states[j - 1], actions[j - 1], states[j]);
  }

  /** After the pool refused a task, nothing is taken or submitted before the retry timer elapses. */
  lemma RefusalPauses(tr: Trace, i: nat, j: nat)
    requires IsTrace(tr) && i < j < |tr.actions| && tr.actions[i] == Submit(false)
    requires tr.actions[j].TakeNext? || tr.actions[j].Submit?
    ensures exists m :: i < m < j && tr.actions[m].RetryElapsed?
  {
    forall m | 0 <= m < |tr.actions|
      ensures PausesOn(tr.states[m], tr.actions[m], tr.states[m + 1])
    {
      PauseStep(tr.states[m], tr.actions[m]);
    }
    assert PausesOn(tr.states[j], tr.actions[j], tr.states[j + 1]);
    if forall m :: i < m < j ==> !tr.actions[m].RetryElapsed? {
      PausesThrough(tr.states, tr.actions, i, j);
    }
  }

  /** After the pool took a task, the dispatcher goes on without a pause. */
  lemma AcceptanceGoesOn(s: State)
    requires s.pc.Answered? && s.pc.submitted
    ensures var s' := Do(s, Finish);
      s'.pc.Draining? || (s'.pc.Signalling? && Do(s', Signal).pc.Draining?)
  {
  }

  predicate ByDispatcher(a: Action) { !a.OfferUpdate? && !a.OfferSignal? && !a.Close? }

  /** The dispatcher is never stuck, and while it waits, for a token or for the timer, it can be stopped. */
  lemma DispatcherMoves(s: State)
    requires !s.pc.Stopped?
    ensures exists a :: ByDispatcher(a) && Enabled(s, a)
    ensures s.pc.Blocked? || s.pc.Retrying? ==> Enabled(s, Stop) && Do(s, Stop).pc.Stopped?
    ensures s.pc.Blocked? && s.wake ==> Enabled(s, Wake) && Do(s, Wake).pc.Draining?
  {
    match s.pc
    case Blocked => assert Enabled(s, Stop);
    case Draining => assert Enabled(s, TakeNext);
    case Submitting(_, _) => assert Enabled(s, Submit(true));
    case Answered(_, _, _) => assert Enabled(s, Finish);
    case Signalling(_) => assert Enabled(s, Signal);
    case Retrying => assert Enabled(s, Stop);
  }
}
