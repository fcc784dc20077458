/** The coalescing event queue of pkg/k8srobot/k8srobot.go: one entry per key, shared by a
    key index and an arrival-order list, with a bounded buffer of dropped items that are
    re-admitted when room frees. */
module CoalescingQueue {
  import opened Instances

  datatype QueueObject = QueueObject(
    rtype: string, key: string, clusterId: string, uid: string, event: string, createAt: int)

  const NUL: string := ['\0']

  function Id(o: QueueObject): Key {
    if o.clusterId == "" && o.uid == "" then o.key
    else o.clusterId + NUL + o.key + NUL + o.uid
  }

  lemma NulSplits(a: string, x: string, b: string, y: string)
    requires '\0' !in a && '\0' !in b && a + NUL + x == b + NUL + y
    ensures a == b && x == y
  {
    var s := a + NUL + x;
    assert s[|a|] == '\0' && s[|b|] == '\0';
    assert |a| == |b|;
    assert a == s[..|a|] && b == s[..|b|] && x == s[|a| + 1..] && y == s[|b| + 1..];
  }

  /** Objects of the same name in two clusters, or recreated under another uid, have keys of their own. */
  lemma IdsTellApart(o: QueueObject, p: QueueObject)
    requires '\0' !in o.clusterId && '\0' !in o.key && '\0' !in p.clusterId && '\0' !in p.key
    ensures Id(o) == Id(p) <==> o.clusterId == p.clusterId && o.key == p.key && o.uid == p.uid
  {
    if Id(o) == Id(p) {
      var bare, bare' := o.clusterId == "" && o.uid == "", p.clusterId == "" && p.uid == "";
      assert !bare ==> Id(o)[|o.clusterId|] == '\0';
      assert !bare' ==> Id(p)[|p.clusterId|] == '\0';
      if !bare && !bare' {
        assert Id(o) == o.clusterId + NUL + (o.key + NUL + o.uid) && Id(p) == p.clusterId + NUL + (p.key + NUL + p.uid);
        NulSplits(o.clusterId, o.key + NUL + o.uid, p.clusterId, p.key + NUL + p.uid);
        NulSplits(o.key, o.uid, p.key, p.uid);
      }
    }
  }

  /** The abstract queue: events in arrival order of their keys, and the dropped ones. */
  datatype Queue = Queue(queue: seq<QueueObject>, recovering: seq<QueueObject>, capacity: nat)

  /** Position of a key, or the length when it is absent. */
  function IndexOf(s: seq<QueueObject>, k: Key): (i: nat)
    ensures i <= |s|
    ensures i < |s| ==> Id(s[i]) == k
    ensures forall j :: 0 <= j < i ==> Id(s[j]) != k
  {
    if s == [] || Id(s[0]) == k then 0 else 1 + IndexOf(s[1..], k)
  }

  predicate Has(s: seq<QueueObject>, k: Key) { exists i :: 0 <= i < |s| && Id(s[i]) == k }

  predicate Distinct(s: seq<QueueObject>) { forall i, j :: 0 <= i < j < |s| ==> Id(s[i]) != Id(s[j]) }

  /** The newest event of a key with the earliest creation time of its coalesced set. */
  function Coalesced(existing: QueueObject, item: QueueObject): QueueObject {
    if existing.createAt < item.createAt then item.(createAt := existing.createAt) else item
  }

  predicate Drops(q: Queue, item: QueueObject) { !Has(q.queue, Id(item)) && |q.queue| >= q.capacity }

  predicate Records(q: Queue, item: QueueObject) { Drops(q, item) && |q.recovering| < q.capacity }

  function Offered(q: Queue, item: QueueObject): Queue {
    var i := IndexOf(q.queue, Id(item));
    if i < |q.queue| then q.(queue := q.queue[i := Coalesced(q.queue[i], item)])
    else if Records(q, item) then q.(recovering := q.recovering + [item])
    else if Drops(q, item) then q
    else q.(queue := q.queue + [item])
  }

  /** Re-admission: from the oldest record on, while there is room; a queued key is skipped. */
  function Refilled(q: Queue): Queue
    decreases |q.recovering|
  {
    if q.recovering == [] || |q.queue| >= q.capacity then q
    else if Has(q.queue, Id(q.recovering[0])) then Refilled(q.(recovering := q.recovering[1..]))
    else Refilled(q.(queue := q.queue + [q.recovering[0]], recovering := q.recovering[1..]))
  }

  function Popped(q: Queue): (Queue, Option<QueueObject>) {
    if q.queue == [] then (q, None)
    else (Refilled(q.(queue := q.queue[1..])), Some(q.queue[0]))
  }

  lemma IndexIsUnique(s: seq<QueueObject>, i: nat)
    requires Distinct(s) && i < |s|
    ensures IndexOf(s, Id(s[i])) == i
  {
  }

  // ---------------------------------------------------------------- the object

  class QueuedItem {
    const key: Key
    var event: QueueObject

    constructor (item: QueueObject)
      ensures key == Id(item) && event == item
    {
      key, event := Id(item), item;
    }
  }

  /** Index and list hold the same entries, each entry under its own key. */
  ghost predicate Linked(items: map<Key, QueuedItem>, order: seq<QueuedItem>) {
    && |items| == |order|
    && (forall i :: 0 <= i < |order| ==> order[i].key in items && items[order[i].key] == order[i])
    && (forall i, j :: 0 <= i < j < |order| ==> order[i] != order[j])
  }

  /** Equal sizes make the index hold nothing else. */
  lemma {:induction false} LinkedIndex(items: map<Key, QueuedItem>, order: seq<QueuedItem>, k: Key) returns (i: nat)
    requires Linked(items, order) && k in items
    ensures i < |order| && order[i].key == k && items[k] == order[i]
    decreases |order|
  {
    assert items.Keys != {};
    var n := |order| - 1;
    if order[n].key == k {
      i := n;
    } else {
      LinkedLess(items, order, n);
      i := LinkedIndex(items - {order[n].key}, order[..n], k);
    }
  }

  lemma LinkedLess(items: map<Key, QueuedItem>, order: seq<QueuedItem>, n: nat)
    requires Linked(items, order) && n < |order|
    ensures Linked(items - {order[n].key}, order[..n] + order[n + 1..])
  {
    var rest := order[..n] + order[n + 1..];
    var items' := items - {order[n].key};
    assert items'.Keys == items.Keys - {order[n].key};
    forall i | 0 <= i < |rest|
      ensures rest[i].key in items' && items'[rest[i].key] == rest[i]
    {
      assert rest[i] == order[if i < n then i else i + 1];
    }
    forall i, j | 0 <= i < j < |rest|
      ensures rest[i] != rest[j]
    {
      assert rest[i] == order[if i < n then i else i + 1] && rest[j] == order[if j < n then j else j + 1];
    }
  }

  lemma LinkedMore(items: map<Key, QueuedItem>, order: seq<QueuedItem>, entry: QueuedItem)
    requires Linked(items, order) && entry.key !in items
    ensures Linked(items[entry.key := entry], order + [entry])
  {
  }

  class EventQueue {
    var items: map<Key, QueuedItem>
    var order: seq<QueuedItem>
    var recovering: seq<QueueObject>
    const capacity: nat

    constructor (capacity: nat)
      ensures Valid() && Value() == Queue([], [], capacity)
    {
      items, order, recovering := map[], [], [];
      this.capacity := capacity;
    }

    ghost predicate Valid()
      reads this, order
    {
      Linked(items, order) && forall i :: 0 <= i < |order| ==> Id(order[i].event) == order[i].key
    }

    function Events(): (r: seq<QueueObject>)
      reads this, order
      ensures |r| == |order|
      ensures forall i :: 0 <= i < |order| ==> r[i] == order[i].event
    {
      seq(|order|, i requires 0 <= i < |order| reads this, order => order[i].event)
    }

    function Value(): Queue
      reads this, order
    {
      Queue(Events(), recovering, capacity)
    }

    lemma Indexed(k: Key)
      requires Valid()
      ensures k in items <==> Has(Events(), k)
      ensures k in items ==> IndexOf(Events(), k) < |order| && order[IndexOf(Events(), k)] == items[k]
      ensures k !in items ==> IndexOf(Events(), k) == |order|
    {
      if k in items {
        var i := LinkedIndex(items, order, k);
        assert Id(Events()[i]) == k;
        DistinctEvents();
        IndexIsUnique(Events(), i);
      } else {
        assert forall i :: 0 <= i < |order| ==> Id(Events()[i]) == order[i].key;
      }
    }

    lemma DistinctEvents()
      requires Valid()
      ensures Distinct(Events())
    {
    }

    method Offer(arrival: QueueObject) returns (dropped: bool)
      requires Valid()
      modifies this, order
      ensures Valid() && forall x :: x in order ==> x in old(order) || fresh(x)
      ensures Value() == Offered(old(Value()), arrival)
      ensures dropped == Drops(old(Value()), arrival)
    {
      Indexed(Id(arrival));
      if Id(arrival) in items {
        Supersede(arrival);
        return false;
      }
      if |items| >= capacity {
        if |recovering| < capacity {
          recovering := recovering + [arrival];
        }
        return true;
      }
      Insert(arrival);
      return false;
    }

    /** In place: the entry that index and list share gets the newer event. */
    method Supersede(arrival: QueueObject)
      requires Valid() && Id(arrival) in items && IndexOf(Events(), Id(arrival)) < |order|
      requires order[IndexOf(Events(), Id(arrival))] == items[Id(arrival)]
      modifies order
      ensures Valid()
      ensures var i := old(IndexOf(Events(), Id(arrival)));
        Events() == old(Events())[i := Coalesced(old(Events())[i], arrival)]
    {
      ghost var i := IndexOf(Events(), Id(arrival));
      var existing := items[Id(arrival)];
      var item := arrival;
      if existing.event.createAt < item.createAt {
        item := item.(createAt := existing.event.createAt);
      }
      existing.event := item;
    }

    method Insert(item: QueueObject)
      requires Valid() && Id(item) !in items
      modifies this
      ensures Valid() && forall x :: x in order ==> x in old(order) || fresh(x)
      ensures Events() == old(Events()) + [item] && recovering == old(recovering)
    {
      var entry := new QueuedItem(item);
      LinkedMore(items, order, entry);
      order := order + [entry];
      items := items[Id(item) := entry];
    }

    method Pop() returns (event: Option<QueueObject>)
      requires Valid()
      modifies this
      ensures Valid() && forall x :: x in order ==> x in old(order) || fresh(x)
      ensures (Value(), event) == Popped(old(Value()))
    {
      if |order| == 0 {
        return None;
      }
      var entry := order[0];
      event := Some(entry.event);
      RemoveFront();
      Readmit();
    }

    method Readmit()
      requires Valid()
      modifies this
      ensures Valid() && forall x :: x in order ==> x in old(order) || fresh(x)
      ensures Value() == Refilled(old(Value()))
    {
      while |recovering| > 0 && |items| < capacity
        invariant Valid() && forall x :: x in order ==> x in old(order) || fresh(x)
        invariant Refilled(Value()) == Refilled(old(Value()))
        decreases |recovering|
      {
        ReadmitOne();
      }
    }

    /** The oldest record leaves the buffer; its key is queued unless it is queued already. */
    method ReadmitOne()
      requires Valid() && |recovering| > 0
      modifies this
      ensures Valid() && forall x :: x in order ==> x in old(order) || fresh(x)
      ensures recovering == old(recovering)[1..]
      ensures Events() == old(if Has(Events(), Id(recovering[0])) then Events() else Events() + [recovering[0]])
    {
      var item := recovering[0];
      Indexed(Id(item));
      recovering := recovering[1..];
      if Id(item) !in items {
        Insert(item);
      }
    }

    method RemoveFront()
      requires Valid() && |order| > 0
      modifies this
      ensures Valid() && order == old(order[1..]) && recovering == old(recovering)
      ensures Events() == old(Events()[1..])
    {
      LinkedLess(items, order, 0);
      assert order[..0] + order[1..] == order[1..];
      items := items - {order[0].key};
      order := order[1..];
    }

    method Depth() returns (n: nat)
      requires Valid()
      ensures n == |Value().queue|
    {
      return |items|;
    }
  }
}

/** Whole runs of the coalescing queue. */
module CoalescingTheorems {
  import opened Instances
  import opened CoalescingQueue

  datatype Op = Offer(item: QueueObject) | Pop

  /** History: `runs[i]` is every event merged into queue entry `i` since its key was admitted,
      and `newest` the last event of each key that was queued, merged or recorded. */
  datatype State = State(q: Queue, runs: seq<seq<QueueObject>>, newest: map<Key, QueueObject>)

  function Flat(q: Queue): seq<QueueObject> { q.queue + q.recovering }

  function Tail<T>(s: seq<T>, n: int): seq<T> { if 0 <= n <= |s| then s[n..] else [] }

  function Singles(s: seq<QueueObject>): (r: seq<seq<QueueObject>>)
    ensures |r| == |s| && forall i :: 0 <= i < |s| ==> r[i] == [s[i]]
  {
    seq(|s|, i requires 0 <= i < |s| => [s[i]])
  }

  function Do(s: State, op: Op): State {
    match op
    case Offer(item) =>
      var i := IndexOf(s.q.queue, Id(item));
      var q' := Offered(s.q, item);
      State(q',
            if i < |s.q.queue| && i < |s.runs| then s.runs[i := s.runs[i] + [item]]
            else s.runs + Singles(Tail(q'.queue, |s.q.queue|)),
            if Loses(s.q, item) then s.newest else s.newest[Id(item) := item])
    case Pop =>
      var q' := Popped(s.q).0;
      s.(q := q', runs := Tail(s.runs, 1) + Singles(Tail(q'.queue, |s.q.queue| - 1)))
  }

  /** Distinct keys within the bounds, and a record waits only while the queue is full. */
  predicate QueueOk(q: Queue) {
    && Distinct(q.queue)
    && |q.queue| <= q.capacity && |q.recovering| <= q.capacity
    && (q.recovering != [] ==> |q.queue| == q.capacity)
  }

  function Earliest(run: seq<QueueObject>): int
    requires run != []
  {
    var last := run[|run| - 1].createAt;
    if |run| == 1 || last < Earliest(run[..|run| - 1]) then last else Earliest(run[..|run| - 1])
  }

  /** The entry carries the last event of its run with the earliest creation time of the run. */
  predicate Sums(e: QueueObject, run: seq<QueueObject>) {
    && run != [] && e == run[|run| - 1].(createAt := Earliest(run))
    && forall i :: 0 <= i < |run| ==> Id(run[i]) == Id(e)
  }

  predicate AllSum(queue: seq<QueueObject>, runs: seq<seq<QueueObject>>) {
    |runs| == |queue| && forall i :: 0 <= i < |runs| ==> Sums(queue[i], runs[i])
  }

  predicate RunsOk(s: State) { AllSum(s.q.queue, s.runs) }

  predicate Init(s: State) { s.q.queue == [] && s.q.recovering == [] && s.runs == [] && s.newest == map[] }

  lemma {:induction false} RefillShape(q: Queue)
    requires Distinct(q.queue) && |q.queue| <= q.capacity
    ensures var q' := Refilled(q);
      && q'.capacity == q.capacity && Distinct(q'.queue) && |q'.queue| <= q.capacity
      && q.queue <= q'.queue && |q'.recovering| <= |q.recovering|
      && q'.recovering == q.recovering[|q.recovering| - |q'.recovering|..]
      && (q'.recovering != [] ==> |q'.queue| == q.capacity)
    decreases |q.recovering|
  {
    if q.recovering != [] && |q.queue| < q.capacity {
      if Has(q.queue, Id(q.recovering[0])) {
        RefillShape(q.(recovering := q.recovering[1..]));
      } else {
        RefillShape(q.(queue := q.queue + [q.recovering[0]], recovering := q.recovering[1..]));
      }
    }
  }

  lemma KeepsQueue(s: State, op: Op)
    requires QueueOk(s.q)
    ensures QueueOk(Do(s, op).q)
  {
    if op.Pop? && s.q.queue != [] {
      RefillShape(s.q.(queue := s.q.queue[1..]));
    }
  }

  lemma SumsMore(e: QueueObject, run: seq<QueueObject>, item: QueueObject)
    requires Sums(e, run) && Id(item) == Id(e)
    ensures Sums(Coalesced(e, item), run + [item])
  {
    assert (run + [item])[..|run|] == run;
  }

  lemma AddedRuns(queue: seq<QueueObject>, runs: seq<seq<QueueObject>>, more: seq<QueueObject>)
    requires AllSum(queue, runs)
    ensures AllSum(queue + more, runs + Singles(more))
  {
    forall i | 0 <= i < |more|
      ensures Sums(more[i], Singles(more)[i])
    {
      assert Singles(more)[i] == [more[i]];
    }
  }

  lemma PopKeepsRuns(s: State)
    requires QueueOk(s.q) && RunsOk(s)
    ensures RunsOk(Do(s, Pop))
  {
    if s.q.queue != [] {
      var queue, runs := s.q.queue[1..], s.runs[1..];
      RefillShape(s.q.(queue := queue));
      var queue' := Popped(s.q).0.queue;
      assert AllSum(queue, runs);
      AddedRuns(queue, runs, queue'[|queue|..]);
      assert queue + queue'[|queue|..] == queue';
    }
  }

  lemma MergedRun(queue: seq<QueueObject>, runs: seq<seq<QueueObject>>, n: nat, item: QueueObject)
    requires AllSum(queue, runs) && n < |queue| && Id(queue[n]) == Id(item)
    ensures AllSum(queue[n := Coalesced(queue[n], item)], runs[n := runs[n] + [item]])
  {
    SumsMore(queue[n], runs[n], item);
  }

  lemma OfferKeepsRuns(s: State, item: QueueObject)
    requires RunsOk(s)
    ensures RunsOk(Do(s, Offer(item)))
  {
    var s', n := Do(s, Offer(item)), IndexOf(s.q.queue, Id(item));
    if n < |s.q.queue| {
      MergedRun(s.q.queue, s.runs, n, item);
    } else if s'.q.queue == s.q.queue {
      assert Singles(Tail(s'.q.queue, |s.q.queue|)) == [];
      assert s'.runs == s.runs;
    } else {
      assert Tail(s'.q.queue, |s.q.queue|) == [item];
      AddedRuns(s.q.queue, s.runs, [item]);
    }
  }

  lemma KeepsRuns(s: State, op: Op)
    requires QueueOk(s.q) && RunsOk(s)
    ensures RunsOk(Do(s, op))
  {
    match op
    case Offer(item) => OfferKeepsRuns(s, item);
    case Pop => PopKeepsRuns(s);
  }

  // ---------------------------------------------------------------- runs

  datatype Trace = Trace(states: seq<State>, ops: seq<Op>)

  ghost predicate IsTrace(tr: Trace) {
    && |tr.states| == |tr.ops| + 1
    && Init(tr.states[0])
    && forall i :: 0 <= i < |tr.ops| ==> tr.states[i + 1] == Do(tr.states[i], tr.ops[i])
  }

  lemma {:induction false} Reachable(tr: Trace, i: nat)
    requires IsTrace(tr) && i < |tr.states|
    ensures QueueOk(tr.states[i].q) && RunsOk(tr.states[i])
    decreases i
  {
    if i > 0 {
      Reachable(tr, i - 1);
      KeepsQueue(tr.states[i - 1], tr.ops[i - 1]);
      KeepsRuns(tr.states[i - 1], tr.ops[i - 1]);
    }
  }

  /** What is handed out is the newest event of its run with the run's earliest creation time. */
  lemma HandsOutNewestWithEarliest(tr: Trace, i: nat)
    requires IsTrace(tr) && i < |tr.ops| && tr.ops[i].Pop? && tr.states[i].q.queue != []
    ensures tr.states[i].runs != []
    ensures Popped(tr.states[i].q).1.Some? && Sums(Popped(tr.states[i].q).1.value, tr.states[i].runs[0])
  {
    Reachable(tr, i);
  }

  /** Keys leave in admission order: an offer moves none, and a pop takes the first and moves the
      others up by one. */
  lemma KeysKeepOrder(tr: Trace, i: nat)
    requires IsTrace(tr) && i < |tr.ops|
    ensures var s, s' := tr.states[i], tr.states[i + 1];
      if tr.ops[i].Offer? then
        |s.q.queue| <= |s'.q.queue| && forall n :: 0 <= n < |s.q.queue| ==> Id(s'.q.queue[n]) == Id(s.q.queue[n])
      else
        |s.q.queue| - 1 <= |s'.q.queue| && forall n :: 0 < n < |s.q.queue| ==> s'.q.queue[n - 1] == s.q.queue[n]
  {
    Reachable(tr, i);
    var q := tr.states[i].q;
    if tr.ops[i].Pop? && q.queue != [] {
      RefillShape(q.(queue := q.queue[1..]));
    }
  }

  // ---------------------------------------------------------------- a dropped key comes back

  predicate HandsOut(q: Queue, op: Op, k: Key) { op.Pop? && q.queue != [] && Id(q.queue[0]) == k }

  predicate Waits(q: Queue, k: Key) { Has(q.queue, k) || Has(q.recovering, k) }

  /** How many pops a waiting key may still have to see before its own. */
  function Distance(q: Queue, k: Key): nat {
    if Has(q.queue, k) then IndexOf(q.queue, k) else q.capacity + IndexOf(q.recovering, k)
  }

  lemma PrefixIndex(s: seq<QueueObject>, s': seq<QueueObject>, k: Key)
    requires s <= s' && Has(s, k)
    ensures Has(s', k) && IndexOf(s', k) == IndexOf(s, k)
  {
    var i := IndexOf(s, k);
    assert i < |s|;
    assert s'[i] == s[i];
  }

  lemma SuffixIndex(s: seq<QueueObject>, n: nat, k: Key)
    requires n <= IndexOf(s, k) < |s|
    ensures IndexOf(s[n..], k) == IndexOf(s, k) - n && Has(s[n..], k)
  {
    var i := IndexOf(s, k);
    assert s[n..][i - n] == s[i];
    var j := IndexOf(s[n..], k);
    assert s[n..][j] == s[n + j];
  }

  /** A record that re-admission uses up is queued afterwards: admitted, or its key was queued. */
  lemma {:induction false} RefillAdmits(q: Queue, k: Key)
    requires Distinct(q.queue) && |q.queue| <= q.capacity
    requires Has(q.recovering, k)
    requires IndexOf(q.recovering, k) < |q.recovering| - |Refilled(q).recovering|
    ensures Has(Refilled(q).queue, k)
    decreases |q.recovering|
  {
    if q.recovering != [] && |q.queue| < q.capacity {
      var skipped := Has(q.queue, Id(q.recovering[0]));
      var q' := if skipped then q.(recovering := q.recovering[1..])
                else q.(queue := q.queue + [q.recovering[0]], recovering := q.recovering[1..]);
      RefillShape(q');
      if Id(q.recovering[0]) == k {
        if !skipped {
          assert Id(q'.queue[|q.queue|]) == k;
        }
        PrefixIndex(q'.queue, Refilled(q').queue, k);
      } else {
        SuffixIndex(q.recovering, 1, k);
        RefillAdmits(q', k);
      }
    }
  }

  lemma RefillProgress(q: Queue)
    requires q.recovering != [] && |q.queue| < q.capacity && Distinct(q.queue)
    ensures |Refilled(q).recovering| < |q.recovering|
  {
    if Has(q.queue, Id(q.recovering[0])) {
      RefillShape(q.(recovering := q.recovering[1..]));
    } else {
      RefillShape(q.(queue := q.queue + [q.recovering[0]], recovering := q.recovering[1..]));
    }
  }

  /** A pop hands the key out or brings it nearer. */
  lemma PopApproaches(q: Queue, k: Key)
    requires QueueOk(q) && Waits(q, k) && !HandsOut(q, Pop, k)
    ensures Waits(Popped(q).0, k) && Distance(Popped(q).0, k) < Distance(q, k)
  {
    var front := q.(queue := Tail(q.queue, 1));
    assert q.queue != [];
    RefillShape(front);
    var q' := Refilled(front);
    if Has(q.queue, k) {
      SuffixIndex(q.queue, 1, k);
      PrefixIndex(front.queue, q'.queue, k);
    } else {
      RefillProgress(front);
      var n := |q.recovering| - |q'.recovering|;
      if IndexOf(q.recovering, k) < n {
        RefillAdmits(front, k);
        assert IndexOf(q'.queue, k) < |q'.queue|;
      } else {
        SuffixIndex(q.recovering, n, k);
      }
    }
  }

  /** An offer never pushes a waiting key back. */
  lemma OfferKeepsPlace(q: Queue, item: QueueObject, k: Key)
    requires QueueOk(q) && Waits(q, k)
    ensures Waits(Offered(q, item), k) && Distance(Offered(q, item), k) <= Distance(q, k)
  {
    var q' := Offered(q, item);
    var i := IndexOf(q.queue, Id(item));
    if i < |q.queue| {
      assert forall j :: 0 <= j < |q.queue| ==> Id(q'.queue[j]) == Id(q.queue[j]);
      SameIds(q.queue, q'.queue, k);
    } else if Has(q.queue, k) {
      PrefixIndex(q.queue, q'.queue, k);
    } else {
      PrefixIndex(q.recovering, q'.recovering, k);
    }
  }

  lemma SameIds(s: seq<QueueObject>, s': seq<QueueObject>, k: Key)
    requires |s| == |s'| && forall j :: 0 <= j < |s| ==> Id(s'[j]) == Id(s[j])
    ensures IndexOf(s, k) == IndexOf(s', k) && (Has(s, k) <==> Has(s', k))
  {
  }

  function Pops(tr: Trace, i: nat, j: nat): nat
    requires i <= j <= |tr.ops|
    decreases j - i
  {
    if i == j then 0 else (if tr.ops[i].Pop? then 1 else 0) + Pops(tr, i + 1, j)
  }

  /** A waiting key is handed out by pop number `Distance + 1` at the latest, whatever is offered
      meanwhile: a key recorded at position `p` within `p + 1 + capacity` pops. */
  lemma {:induction false} WaitingIsHandedOut(tr: Trace, i: nat, j: nat, k: Key) returns (m: nat)
    requires IsTrace(tr) && i <= j <= |tr.ops|
    requires Waits(tr.states[i].q, k) && Pops(tr, i, j) > Distance(tr.states[i].q, k)
    ensures i <= m < j && HandsOut(tr.states[m].q, tr.ops[m], k)
    decreases j - i
  {
    Reachable(tr, i);
    var q, op := tr.states[i].q, tr.ops[i];
    if HandsOut(q, op, k) {
      m := i;
    } else {
      if op.Pop? {
        PopApproaches(q, k);
      } else {
        OfferKeepsPlace(q, op.item, k);
      }
      m := WaitingIsHandedOut(tr, i + 1, j, k);
    }
  }

  // ---------------------------------------------------------------- when nothing is skipped

  lemma {:induction false} RefillSkipsNothing(q: Queue)
    requires Distinct(Flat(q))
    ensures Flat(Refilled(q)) == Flat(q)
    decreases |q.recovering|
  {
    if q.recovering != [] && |q.queue| < q.capacity {
      var q' := q.(queue := q.queue + [q.recovering[0]], recovering := q.recovering[1..]);
      assert Flat(q') == Flat(q);
      assert !Has(q.queue, Id(q.recovering[0])) by {
        assert Flat(q)[|q.queue|] == q.recovering[0];
        assert forall i :: 0 <= i < |q.queue| ==> Flat(q)[i] == q.queue[i];
      }
      RefillSkipsNothing(q');
    }
  }

  /** While no key is recorded twice the queue and its buffer are one plain FIFO. */
  lemma PopIsFifo(q: Queue)
    requires QueueOk(q) && Distinct(Flat(q)) && q.queue != []
    ensures Flat(Popped(q).0) == Flat(q)[1..] && Popped(q).1 == Some(Flat(q)[0])
    ensures Distinct(Flat(Popped(q).0))
  {
    var front := q.(queue := q.queue[1..]);
    assert Flat(front) == Flat(q)[1..];
    RefillSkipsNothing(front);
  }

  /** An offer keeps it so exactly when it does not record a key that is recorded already. */
  lemma OfferKeepsDistinct(q: Queue, item: QueueObject)
    requires QueueOk(q) && Distinct(Flat(q))
    ensures Distinct(Flat(Offered(q, item))) <==> !(Records(q, item) && Has(q.recovering, Id(item)))
  {
    var q' := Offered(q, item);
    var f, f' := Flat(q), Flat(q');
    if IndexOf(q.queue, Id(item)) < |q.queue| {
      assert forall i :: 0 <= i < |f| ==> Id(f'[i]) == Id(f[i]);
    } else if Records(q, item) {
      assert f' == f + [item];
      if Has(q.recovering, Id(item)) {
        var i := IndexOf(q.recovering, Id(item));
        assert f'[|q.queue| + i] == q.recovering[i] && f'[|f|] == item;
      } else {
        assert forall i :: 0 <= i < |f| ==> f[i] == if i < |q.queue| then q.queue[i] else q.recovering[i - |q.queue|];
      }
    }
  }

  function Untimed(o: QueueObject): QueueObject { o.(createAt := 0) }

  predicate RecordsTwice(q: Queue, op: Op) { op.Offer? && Records(q, op.item) && Has(q.recovering, Id(op.item)) }

  predicate Loses(q: Queue, item: QueueObject) { Drops(q, item) && !Records(q, item) }

  lemma OfferedAt(q: Queue, item: QueueObject, i: nat)
    requires QueueOk(q) && Distinct(Flat(q)) && i < |Flat(Offered(q, item))|
    requires !RecordsTwice(q, Offer(item))
    ensures var e := Flat(Offered(q, item))[i];
      if Id(e) == Id(item) && !Loses(q, item) then Untimed(e) == Untimed(item)
      else i < |Flat(q)| && e == Flat(q)[i]
  {
    var n := IndexOf(q.queue, Id(item));
    var f, f' := Flat(q), Flat(Offered(q, item));
    if n < |q.queue| {
      assert f[n] == q.queue[n];
      assert f'[i] == if i == n then Coalesced(q.queue[n], item) else f[i];
    } else if !Loses(q, item) {
      assert f' == f + [item];
      if i < |f| && Id(f[i]) == Id(item) {
        RecordedIsFull(q, item, i);
      }
    }
  }

  /** A key that waits unqueued is recorded, and then the queue is full: an offer of it is dropped. */
  lemma RecordedIsFull(q: Queue, item: QueueObject, i: nat)
    requires QueueOk(q) && i < |Flat(q)| && Id(Flat(q)[i]) == Id(item) && !Has(q.queue, Id(item))
    ensures Has(q.recovering, Id(item)) && Drops(q, item)
  {
    assert i >= |q.queue|;
    assert q.recovering[i - |q.queue|] == Flat(q)[i];
  }

  predicate NewestAt(s: State, e: QueueObject) { Id(e) in s.newest && Untimed(s.newest[Id(e)]) == Untimed(e) }

  /** Everything that waits is the newest event of its key, up to the creation time. */
  predicate Newest(s: State) {
    Distinct(Flat(s.q)) && forall i :: 0 <= i < |Flat(s.q)| ==> NewestAt(s, Flat(s.q)[i])
  }

  lemma OfferKeepsNewest(s: State, item: QueueObject)
    requires QueueOk(s.q) && Newest(s) && !RecordsTwice(s.q, Offer(item))
    ensures Newest(Do(s, Offer(item)))
  {
    OfferKeepsDistinct(s.q, item);
    var s' := Do(s, Offer(item));
    forall i | 0 <= i < |Flat(s'.q)|
      ensures NewestAt(s', Flat(s'.q)[i])
    {
      OfferedAt(s.q, item, i);
      assert i < |Flat(s.q)| ==> NewestAt(s, Flat(s.q)[i]);
    }
  }

  lemma PopKeepsNewest(s: State)
    requires QueueOk(s.q) && Newest(s)
    ensures Newest(Do(s, Pop))
  {
    if s.q.queue != [] {
      PopIsFifo(s.q);
      var s' := Do(s, Pop);
      forall i | 0 <= i < |Flat(s'.q)|
        ensures NewestAt(s', Flat(s'.q)[i])
      {
        assert Flat(s'.q)[i] == Flat(s.q)[i + 1];
        assert NewestAt(s, Flat(s.q)[i + 1]);
      }
    }
  }

  /** In a run where no offer records a key twice, every pop hands out the newest event of the key
      that was ever queued, merged or recorded. */
  lemma {:induction false} NewestIsHandedOut(tr: Trace, i: nat)
    requires IsTrace(tr) && i < |tr.states|
    requires forall j :: 0 <= j < i ==> !RecordsTwice(tr.states[j].q, tr.ops[j])
    ensures Newest(tr.states[i])
    ensures tr.states[i].q.queue != [] ==>
      var e := Popped(tr.states[i].q).1.value;
      Id(e) in tr.states[i].newest && Untimed(e) == Untimed(tr.states[i].newest[Id(e)])
    decreases i
  {
    if i > 0 {
      NewestIsHandedOut(tr, i - 1);
      Reachable(tr, i - 1);
      if tr.ops[i - 1].Pop? {
        PopKeepsNewest(tr.states[i - 1]);
      } else {
        OfferKeepsNewest(tr.states[i - 1], tr.ops[i - 1].item);
      }
    }
    if tr.states[i].q.queue != [] {
      assert Flat(tr.states[i].q)[0] == tr.states[i].q.queue[0];
    }
  }

  // ---------------------------------------------------------------- when a key is recorded twice

  /** The event of a waiting key that is first in line: the queued one, or else the oldest record. */
  function FirstWaiting(q: Queue, k: Key): QueueObject
    requires Waits(q, k)
  {
    if Has(q.queue, k) then q.queue[IndexOf(q.queue, k)] else q.recovering[IndexOf(q.recovering, k)]
  }

  lemma {:induction false} RefillKeepsFirst(q: Queue, k: Key)
    requires Distinct(q.queue) && |q.queue| <= q.capacity && Waits(q, k)
    ensures Waits(Refilled(q), k) && FirstWaiting(Refilled(q), k) == FirstWaiting(q, k)
    decreases |q.recovering|
  {
    if q.recovering != [] && |q.queue| < q.capacity {
      var first, rest := q.recovering[0], q.recovering[1..];
      var skipped := Has(q.queue, Id(first));
      var q' := if skipped then q.(recovering := rest) else q.(queue := q.queue + [first], recovering := rest);
      if Has(q.queue, k) {
        PrefixIndex(q.queue, q'.queue, k);
      } else if Id(first) == k {
        assert Id(q'.queue[|q.queue|]) == k;
        IndexIsUnique(q'.queue, |q.queue|);
      } else {
        SuffixIndex(q.recovering, 1, k);
        assert !Has(q'.queue, k);
      }
      RefillKeepsFirst(q', k);
    }
  }

  lemma PopKeepsFirst(q: Queue, k: Key)
    requires QueueOk(q) && Waits(q, k) && !HandsOut(q, Pop, k)
    ensures Waits(Popped(q).0, k) && FirstWaiting(Popped(q).0, k) == FirstWaiting(q, k)
  {
    if q.queue != [] {
      var front := q.(queue := q.queue[1..]);
      if Has(q.queue, k) {
        SuffixIndex(q.queue, 1, k);
      } else {
        assert !Has(front.queue, k);
      }
      RefillKeepsFirst(front, k);
    }
  }

  lemma OfferKeepsFirst(q: Queue, item: QueueObject, k: Key)
    requires QueueOk(q) && Waits(q, k) && Id(item) != k
    ensures Waits(Offered(q, item), k) && FirstWaiting(Offered(q, item), k) == FirstWaiting(q, k)
  {
    var q' := Offered(q, item);
    if IndexOf(q.queue, Id(item)) < |q.queue| {
      SameIds(q.queue, q'.queue, k);
    } else if Has(q.queue, k) {
      PrefixIndex(q.queue, q'.queue, k);
    } else {
      PrefixIndex(q.recovering, q'.recovering, k);
    }
  }

  /** Neither an offer of the key nor its hand-out. */
  predicate LeavesAlone(q: Queue, op: Op, k: Key) { !(op.Offer? && Id(op.item) == k) && !HandsOut(q, op, k) }

  /** The step keeps the key's place in line and the newest event known of it. */
  predicate FirstKept(s: State, s': State, k: Key) {
    Waits(s.q, k) ==>
      && Waits(s'.q, k) && FirstWaiting(s'.q, k) == FirstWaiting(s.q, k)
      && (k in s'.newest <==> k in s.newest) && (k in s.newest ==> s'.newest[k] == s.newest[k])
  }

  lemma FirstStep(s: State, op: Op, k: Key)
    requires QueueOk(s.q) && LeavesAlone(s.q, op, k)
    ensures FirstKept(s, Do(s, op), k)
  {
    if Waits(s.q, k) {
      match op
      case Offer(item) => OfferKeepsFirst(s.q, item, k);
      case Pop => PopKeepsFirst(s.q, k);
    }
  }

  lemma {:induction false} FirstThrough(states: seq<State>, i: nat, j: nat, k: Key)
    requires i <= j < |states| && forall m :: i <= m < j ==> FirstKept(states[m], states[m + 1], k)
    ensures FirstKept(states[i], states[j], k)
    decreases j
  {
    if i < j {
      FirstThrough(states, i, j - 1, k);
      assert FirstKept(states[j - 1], states[j], k);
    }
  }

  lemma FrontIsFirst(q: Queue, k: Key)
    requires QueueOk(q) && HandsOut(q, Pop, k)
    ensures Waits(q, k) && Popped(q).1 == Some(FirstWaiting(q, k))
  {
    IndexIsUnique(q.queue, 0);
  }

  /** What is handed out next of a key that is not offered again is the event that is first in line. */
  lemma FirstIsHandedOut(tr: Trace, i: nat, j: nat, k: Key)
    requires IsTrace(tr) && i <= j < |tr.ops| && Waits(tr.states[i].q, k)
    requires forall m :: i <= m < j ==> LeavesAlone(tr.states[m].q, tr.ops[m], k)
    requires HandsOut(tr.states[j].q, tr.ops[j], k)
    ensures Popped(tr.states[j].q).1 == Some(FirstWaiting(tr.states[i].q, k))
    ensures FirstKept(tr.states[i], tr.states[j], k)
  {
    forall m | i <= m < j
      ensures FirstKept(tr.states[m], tr.states[m + 1], k)
    {
      Reachable(tr, m);
      FirstStep(tr.states[m], tr.ops[m], k);
    }
    FirstThrough(tr.states, i, j, k);
    Reachable(tr, j);
    FrontIsFirst(tr.states[j].q, k);
  }

  /** The converse: after an offer that records a key twice, the next hand-out of the key, if it is not
      offered again before, is the older record, and so the newest event only if the two are the same. */
  lemma RecordedTwiceIsLost(tr: Trace, i: nat, j: nat)
    requires IsTrace(tr) && i < j < |tr.ops| && RecordsTwice(tr.states[i].q, tr.ops[i])
    requires var k := Id(tr.ops[i].item);
      HandsOut(tr.states[j].q, tr.ops[j], k) && forall m :: i < m < j ==> LeavesAlone(tr.states[m].q, tr.ops[m], k)
    ensures var k, q := Id(tr.ops[i].item), tr.states[i].q;
      && IndexOf(q.recovering, k) < |q.recovering|
      && Popped(tr.states[j].q).1 == Some(q.recovering[IndexOf(q.recovering, k)])
      && k in tr.states[j].newest && tr.states[j].newest[k] == tr.ops[i].item
  {
    var s, k := tr.states[i], Id(tr.ops[i].item);
    var q' := tr.states[i + 1].q;
    assert tr.states[i + 1] == Do(s, tr.ops[i]);
    assert q' == s.q.(recovering := s.q.recovering + [tr.ops[i].item]);
    PrefixIndex(s.q.recovering, q'.recovering, k);
    FirstIsHandedOut(tr, i + 1, j, k);
  }

  lemma TwoRecords(a: QueueObject, c: QueueObject, older: QueueObject, newer: QueueObject)
    requires Id(a) != Id(c) && Id(older) != Id(a) && Id(older) != Id(c) && Id(newer) == Id(older)
    ensures Offered(Offered(Offered(Offered(Queue([], [], 2), a), c), older), newer) == Queue([a, c], [older, newer], 2)
  {
    assert Offered(Queue([], [], 2), a) == Queue([a], [], 2);
    assert Offered(Queue([a], [], 2), c) == Queue([a, c], [], 2);
    assert Offered(Queue([a, c], [], 2), older) == Queue([a, c], [older], 2);
    assert Offered(Queue([a, c], [older], 2), newer) == Queue([a, c], [older, newer], 2);
  }

  lemma FirstAdmitted(a: QueueObject, c: QueueObject, older: QueueObject, newer: QueueObject)
    requires Id(older) != Id(c)
    ensures Popped(Queue([a, c], [older, newer], 2)) == (Queue([c, older], [newer], 2), Some(a))
  {
    var p := Queue([a, c], [older, newer], 2);
    var q := Queue([c], [older, newer], 2);
    assert p.(queue := p.queue[1..]) == q;
    assert !Has(q.queue, Id(older));
    assert q.(queue := q.queue + [older], recovering := q.recovering[1..]) == Queue([c, older], [newer], 2);
    assert Refilled(q) == Queue([c, older], [newer], 2);
  }

  lemma SecondSkipped(c: QueueObject, older: QueueObject, newer: QueueObject)
    requires Id(newer) == Id(older)
    ensures Popped(Queue([c, older], [newer], 2)) == (Queue([older], [], 2), Some(c))
  {
    var p := Queue([c, older], [newer], 2);
    var q := Queue([older], [newer], 2);
    assert p.(queue := p.queue[1..]) == q;
    assert Id(q.queue[0]) == Id(newer);
    assert q.(recovering := q.recovering[1..]) == Queue([older], [], 2);
    assert Refilled(q) == Queue([older], [], 2);
  }

  /** With two records of one key the older is handed out, and the newer is skipped for good. */
  lemma RecordedTwiceHandsOutOlder(a: QueueObject, c: QueueObject, older: QueueObject, newer: QueueObject)
    requires Id(a) != Id(c) && Id(older) != Id(a) && Id(older) != Id(c) && Id(newer) == Id(older)
    ensures var q := Offered(Offered(Offered(Offered(Queue([], [], 2), a), c), older), newer);
      var q1 := Popped(q).0;
      var q2 := Popped(q1).0;
      && Popped(q).1 == Some(a) && Popped(q1).1 == Some(c) && Popped(q2) == (Queue([], [], 2), Some(older))
  {
    TwoRecords(a, c, older, newer);
    FirstAdmitted(a, c, older, newer);
    SecondSkipped(c, older, newer);
    assert [older][1..] == [];
  }
}
