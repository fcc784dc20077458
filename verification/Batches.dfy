/** Partitioning a full snapshot into bounded, application-scoped batches and
    accounting for their outcomes (pkg/nacos/batch.go). Namespace and group are
    fixed for one sink and therefore not part of the key here. */
module Batches {
  import opened Instances
  import opened Errors
  import opened Wire

  const MAX_BATCH := 100

  datatype BatchOp = Register | Deregister

  datatype BatchKey = BatchKey(service: string, cluster: string, op: BatchOp)

  datatype Batch = Batch(key: BatchKey, items: seq<Instance>, indexes: seq<nat>)

  function OperationOf(status: int): Option<BatchOp> {
    if status == ONLINE || status == UNHEALTHY then Some(Register)
    else if status == OFFLINE then Some(Deregister)
    else None
  }

  /** Nil slots and unknown statuses take no part. */
  predicate Admitted(item: Option<Instance>) {
    item.Some? && OperationOf(item.value.status).Some?
  }

  function KeyOf(ins: Instance): BatchKey
    requires OperationOf(ins.status).Some?
  {
    BatchKey(ins.appCode, ClusterOf(ins), OperationOf(ins.status).value)
  }

  function Clamp(maxItems: int): nat {
    if maxItems < 1 then 1 else if maxItems > MAX_BATCH then MAX_BATCH else maxItems
  }

  predicate HasKey(item: Option<Instance>, key: BatchKey) {
    Admitted(item) && KeyOf(item.value) == key
  }

  /** The positions of one key, in snapshot order. */
  function IndexesOf(instances: Items, key: BatchKey): seq<nat> {
    if instances == [] then []
    else
      var n := |instances| - 1;
      IndexesOf(instances[..n], key) + (if HasKey(instances[n], key) then [n] else [])
  }

  /** The positions the batches of one key carry, in batch order. */
  function Merged(batches: seq<Batch>, key: BatchKey): seq<nat> {
    if batches == [] then []
    else
      var n := |batches| - 1;
      Merged(batches[..n], key) + (if batches[n].key == key then batches[n].indexes else [])
  }

  function TotalItems(batches: seq<Batch>): nat {
    if batches == [] then 0 else TotalItems(batches[..|batches| - 1]) + |batches[|batches| - 1].items|
  }

  /** Items without an address among those of a register batch. */
  function SkippedIn(op: BatchOp, items: seq<Instance>): nat {
    if items == [] || op.Deregister? then 0
    else SkippedIn(op, items[..|items| - 1]) + (if items[|items| - 1].ip == "" then 1 else 0)
  }

  function TotalSkipped(batches: seq<Batch>): nat {
    if batches == [] then 0
    else
      var batch := batches[|batches| - 1];
      TotalSkipped(batches[..|batches| - 1]) + SkippedIn(batch.key.op, batch.items)
  }

  predicate Skipped(item: Option<Instance>) {
    Admitted(item) && OperationOf(item.value.status) == Some(Register) && item.value.ip == ""
  }

  function CountSkipped(instances: Items): nat {
    if instances == [] then 0
    else CountSkipped(instances[..|instances| - 1]) + (if Skipped(instances[|instances| - 1]) then 1 else 0)
  }

  function CountAdmitted(instances: Items): nat {
    if instances == [] then 0
    else CountAdmitted(instances[..|instances| - 1]) + (if Admitted(instances[|instances| - 1]) then 1 else 0)
  }

  ghost predicate BatchOk(instances: Items, batch: Batch, max: nat) {
    && 1 <= |batch.indexes| <= max && |batch.items| == |batch.indexes|
    && forall p :: 0 <= p < |batch.indexes| ==>
         batch.indexes[p] < |instances| && instances[batch.indexes[p]] == Some(batch.items[p])
  }

  /** Every admitted position is carried once, by a batch of its own key and in
      snapshot order; batches hold 1..max items and only a key's last one may be short. */
  ghost predicate Partition(instances: Items, batches: seq<Batch>, max: nat) {
    && (forall key :: Merged(batches, key) == IndexesOf(instances, key))
    && (forall b :: 0 <= b < |batches| ==> BatchOk(instances, batches[b], max))
    && (forall b, c :: 0 <= b < c < |batches| && batches[b].key == batches[c].key ==> |batches[b].indexes| == max)
    && TotalItems(batches) == CountAdmitted(instances)
    && TotalSkipped(batches) == CountSkipped(instances)
  }

  /** Batches stand in the order in which they were opened. */
  ghost predicate FirstSeen(batches: seq<Batch>) {
    && (forall b :: 0 <= b < |batches| ==> batches[b].indexes != [])
    && (forall b, c :: 0 <= b < c < |batches| && batches[b].indexes != [] && batches[c].indexes != [] ==>
          batches[b].indexes[0] < batches[c].indexes[0])
  }

  ghost predicate Below(batches: seq<Batch>, n: nat) {
    forall b :: 0 <= b < |batches| && batches[b].indexes != [] ==> batches[b].indexes[0] < n
  }

  // ---------------------------------------------------------------- by status

  /** Online and unhealthy instances are registered, offline ones removed; nothing else takes part. */
  predicate Registers(item: Option<Instance>) {
    item.Some? && (item.value.status == ONLINE || item.value.status == UNHEALTHY)
  }

  predicate Removes(item: Option<Instance>) { item.Some? && item.value.status == OFFLINE }

  // ---------------------------------------------------------------- splitting

  /** `last` finds the latest batch of each key. */
  ghost predicate LastOk(batches: seq<Batch>, last: map<BatchKey, nat>) {
    && (forall key :: key in last ==> last[key] < |batches| && batches[last[key]].key == key)
    && (forall b :: 0 <= b < |batches| ==> batches[b].key in last && b <= last[batches[b].key])
  }

  lemma {:induction false} ExtendLast(batches: seq<Batch>, b: nat, item: Instance, i: nat, key: BatchKey)
    requires b < |batches| && forall c :: b < c < |batches| ==> batches[c].key != batches[b].key
    ensures var longer := batches[b := Batch(batches[b].key, batches[b].items + [item], batches[b].indexes + [i])];
      && Merged(longer, key) == Merged(batches, key) + (if key == batches[b].key then [i] else [])
      && TotalItems(longer) == TotalItems(batches) + 1
      && TotalSkipped(longer) == TotalSkipped(batches) + (if batches[b].key.op.Register? && item.ip == "" then 1 else 0)
  {
    var n := |batches| - 1;
    assert (batches[b].items + [item])[..|batches[b].items|] == batches[b].items;
    var longer := batches[b := Batch(batches[b].key, batches[b].items + [item], batches[b].indexes + [i])];
    if b == n {
      assert longer[..n] == batches[..n];
    } else {
      ExtendLast(batches[..n], b, item, i, key);
      assert longer[..n] == batches[..n][b := longer[b]];
    }
  }

  lemma OneMoreBatch(batches: seq<Batch>, batch: Batch, key: BatchKey)
    ensures Merged(batches + [batch], key) == Merged(batches, key) + (if key == batch.key then batch.indexes else [])
    ensures TotalItems(batches + [batch]) == TotalItems(batches) + |batch.items|
    ensures TotalSkipped(batches + [batch]) == TotalSkipped(batches) + SkippedIn(batch.key.op, batch.items)
  {
    assert (batches + [batch])[..|batches|] == batches;
  }

  /** A partition of a prefix is one of the prefix extended by a slot that takes no part. */
  lemma PartitionSkips(instances: Items, i: nat, batches: seq<Batch>, max: nat)
    requires i < |instances| && !Admitted(instances[i]) && Partition(instances[..i], batches, max)
    ensures Partition(instances[..i + 1], batches, max)
  {
    var shorter, longer := instances[..i], instances[..i + 1];
    assert longer[..i] == shorter;
    forall key
      ensures Merged(batches, key) == IndexesOf(longer, key)
    {
      assert IndexesOf(longer, key) == IndexesOf(shorter, key);
    }
  }

  function Joined(batch: Batch, item: Instance, i: nat): Batch {
    Batch(batch.key, batch.items + [item], batch.indexes + [i])
  }

  lemma ExtendsMerged(instances: Items, i: nat, batches: seq<Batch>, b: nat, key: BatchKey)
    requires i < |instances| && Admitted(instances[i]) && b < |batches| && batches[b].key == KeyOf(instances[i].value)
    requires forall c :: b < c < |batches| ==> batches[c].key != batches[b].key
    requires Merged(batches, key) == IndexesOf(instances[..i], key)
    ensures Merged(batches[b := Joined(batches[b], instances[i].value, i)], key) == IndexesOf(instances[..i + 1], key)
  {
    ExtendLast(batches, b, instances[i].value, i, key);
    assert instances[..i + 1][..i] == instances[..i];
  }

  lemma ExtendsOk(shorter: Items, longer: Items, i: nat, batches: seq<Batch>, b: nat, max: nat)
    requires shorter <= longer && |shorter| == i < |longer| && longer[i].Some? && b < |batches|
    requires |batches[b].indexes| < max && forall c :: 0 <= c < |batches| ==> BatchOk(shorter, batches[c], max)
    ensures var batches' := batches[b := Joined(batches[b], longer[i].value, i)];
      forall c :: 0 <= c < |batches'| ==> BatchOk(longer, batches'[c], max)
  {
    var batches' := batches[b := Joined(batches[b], longer[i].value, i)];
    forall c | 0 <= c < |batches'|
      ensures BatchOk(longer, batches'[c], max)
    {
      assert BatchOk(shorter, batches[c], max);
    }
  }

  /** The item at position i joins the latest batch of its key. */
  lemma PartitionExtends(instances: Items, i: nat, batches: seq<Batch>, b: nat, max: nat)
    requires i < |instances| && Admitted(instances[i]) && Partition(instances[..i], batches, max)
    requires b < |batches| && batches[b].key == KeyOf(instances[i].value) && |batches[b].indexes| < max
    requires forall c :: b < c < |batches| ==> batches[c].key != batches[b].key
    ensures Partition(instances[..i + 1], batches[b := Joined(batches[b], instances[i].value, i)], max)
  {
    var shorter, longer := instances[..i], instances[..i + 1];
    var batches' := batches[b := Joined(batches[b], instances[i].value, i)];
    assert longer[..i] == shorter;
    forall key
      ensures Merged(batches', key) == IndexesOf(longer, key)
    {
      ExtendsMerged(instances, i, batches, b, key);
    }
    ExtendLast(batches, b, instances[i].value, i, batches[b].key);
    ExtendsOk(shorter, longer, i, batches, b, max);
  }

  lemma StartsMerged(instances: Items, i: nat, batches: seq<Batch>, key: BatchKey)
    requires i < |instances| && Admitted(instances[i])
    requires Merged(batches, key) == IndexesOf(instances[..i], key)
    ensures Merged(batches + [Batch(KeyOf(instances[i].value), [instances[i].value], [i])], key) ==
      IndexesOf(instances[..i + 1], key)
  {
    OneMoreBatch(batches, Batch(KeyOf(instances[i].value), [instances[i].value], [i]), key);
    assert instances[..i + 1][..i] == instances[..i];
  }

  lemma StartsCounted(instances: Items, i: nat, batches: seq<Batch>)
    requires i < |instances| && Admitted(instances[i])
    ensures var longer := batches + [Batch(KeyOf(instances[i].value), [instances[i].value], [i])];
      && TotalItems(longer) == TotalItems(batches) + 1
      && TotalSkipped(longer) == TotalSkipped(batches) + (if Skipped(instances[i]) then 1 else 0)
      && CountAdmitted(instances[..i + 1]) == CountAdmitted(instances[..i]) + 1
      && CountSkipped(instances[..i + 1]) == CountSkipped(instances[..i]) + (if Skipped(instances[i]) then 1 else 0)
  {
    OneMoreBatch(batches, Batch(KeyOf(instances[i].value), [instances[i].value], [i]), KeyOf(instances[i].value));
    assert instances[..i + 1][..i] == instances[..i];
    assert [instances[i].value][..0] == [];
  }

  /** The item at position i starts a new batch, its key's earlier ones being full. */
  lemma PartitionStarts(instances: Items, i: nat, batches: seq<Batch>, max: nat)
    requires i < |instances| && Admitted(instances[i]) && Partition(instances[..i], batches, max) && max >= 1
    requires forall c :: 0 <= c < |batches| && batches[c].key == KeyOf(instances[i].value) ==>
      |batches[c].indexes| == max
    ensures Partition(instances[..i + 1], batches + [Batch(KeyOf(instances[i].value), [instances[i].value], [i])], max)
  {
    var batch := Batch(KeyOf(instances[i].value), [instances[i].value], [i]);
    forall key
      ensures Merged(batches + [batch], key) == IndexesOf(instances[..i + 1], key)
    {
      StartsMerged(instances, i, batches, key);
    }
    StartsCounted(instances, i, batches);
    BatchesStayOk(instances[..i], instances[..i + 1], batches, batch, max);
  }

  lemma BatchesStayOk(shorter: Items, longer: Items, batches: seq<Batch>, batch: Batch, max: nat)
    requires shorter <= longer && forall c :: 0 <= c < |batches| ==> BatchOk(shorter, batches[c], max)
    requires BatchOk(longer, batch, max)
    ensures forall c :: 0 <= c < |batches + [batch]| ==> BatchOk(longer, (batches + [batch])[c], max)
  {
  }

  /** The state of the loop after `i` slots. */
  ghost predicate Splits(instances: Items, i: nat, batches: seq<Batch>, last: map<BatchKey, nat>, max: nat)
    requires i <= |instances|
  {
    Partition(instances[..i], batches, max) && LastOk(batches, last) && FirstSeen(batches) && Below(batches, i)
  }

  lemma SplitSkips(instances: Items, i: nat, batches: seq<Batch>, last: map<BatchKey, nat>, max: nat)
    requires i < |instances| && !Admitted(instances[i]) && Splits(instances, i, batches, last, max)
    ensures Splits(instances, i + 1, batches, last, max)
  {
    PartitionSkips(instances, i, batches, max);
  }

  lemma SplitStarts(instances: Items, i: nat, batches: seq<Batch>, last: map<BatchKey, nat>, max: nat)
    requires i < |instances| && Admitted(instances[i]) && Splits(instances, i, batches, last, max) && max >= 1
    requires var key := KeyOf(instances[i].value); key !in last || |batches[last[key]].items| >= max
    ensures var key := KeyOf(instances[i].value);
      Splits(instances, i + 1, batches + [Batch(key, [instances[i].value], [i])], last[key := |batches|], max)
  {
    var key := KeyOf(instances[i].value);
    var batch := Batch(key, [instances[i].value], [i]);
    StartsAfresh(instances[..i], batches, last, key, max);
    PartitionStarts(instances, i, batches, max);
    LastStarts(batches, last, batch);
    OpensInOrder(batches, batch, i);
  }

  lemma LastStarts(batches: seq<Batch>, last: map<BatchKey, nat>, batch: Batch)
    requires LastOk(batches, last)
    ensures LastOk(batches + [batch], last[batch.key := |batches|])
  {
  }

  lemma LastExtends(batches: seq<Batch>, last: map<BatchKey, nat>, b: nat, batch: Batch)
    requires LastOk(batches, last) && b < |batches| && batch.key == batches[b].key
    ensures LastOk(batches[b := batch], last)
  {
  }

  lemma SplitExtends(instances: Items, i: nat, batches: seq<Batch>, last: map<BatchKey, nat>, max: nat)
    requires i < |instances| && Admitted(instances[i]) && Splits(instances, i, batches, last, max)
    requires var key := KeyOf(instances[i].value); key in last && |batches[last[key]].items| < max
    ensures var key := KeyOf(instances[i].value);
      var b := last[key];
      var batch := Batch(key, batches[b].items + [instances[i].value], batches[b].indexes + [i]);
      Splits(instances, i + 1, batches[b := batch], last, max)
  {
    var key := KeyOf(instances[i].value);
    var b := last[key];
    var batch := Batch(key, batches[b].items + [instances[i].value], batches[b].indexes + [i]);
    assert BatchOk(instances[..i], batches[b], max);
    PartitionExtends(instances, i, batches, b, max);
    LastExtends(batches, last, b, batch);
    GrowsInOrder(batches, b, batch, i);
  }

  lemma OpensInOrder(batches: seq<Batch>, batch: Batch, i: nat)
    requires FirstSeen(batches) && Below(batches, i) && batch.indexes == [i]
    ensures FirstSeen(batches + [batch]) && Below(batches + [batch], i + 1)
  {
  }

  lemma GrowsInOrder(batches: seq<Batch>, b: nat, batch: Batch, i: nat)
    requires FirstSeen(batches) && Below(batches, i) && b < |batches| && batch.indexes == batches[b].indexes + [i]
    ensures FirstSeen(batches[b := batch]) && Below(batches[b := batch], i + 1)
  {
  }

  /** An admitted item joins the latest batch of its key, or opens one. */
  method Place(instances: Items, i: nat, batches: seq<Batch>, last: map<BatchKey, nat>, max: nat)
    returns (batches': seq<Batch>, last': map<BatchKey, nat>)
    requires i < |instances| && Admitted(instances[i]) && Splits(instances, i, batches, last, max) && max >= 1
    ensures Splits(instances, i + 1, batches', last', max)
  {
    var ins := instances[i].value;
    var key := KeyOf(ins);
    if key !in last || |batches[last[key]].items| >= max {
      SplitStarts(instances, i, batches, last, max);
      return batches + [Batch(key, [ins], [i])], last[key := |batches|];
    }
    SplitExtends(instances, i, batches, last, max);
    var b := last[key];
    return batches[b := Batch(key, batches[b].items + [ins], batches[b].indexes + [i])], last;
  }

  method SplitPersistentBatches(instances: Items, maxItems: int) returns (batches: seq<Batch>)
    ensures Partition(instances, batches, Clamp(maxItems)) && FirstSeen(batches)
    ensures forall b :: 0 <= b < |batches| ==> SizeOk(|batches[b].items|, maxItems)
    ensures forall b, c :: 0 <= b < c < |batches| && batches[b].key == batches[c].key ==>
      IsFull(|batches[b].items|, maxItems)
  {
    var max := Clamp(maxItems);
    batches := [];
    var last: map<BatchKey, nat> := map[];
    for i := 0 to |instances|
      invariant Splits(instances, i, batches, last, max)
    {
      if !Admitted(instances[i]) {
        SplitSkips(instances, i, batches, last, max);
        continue;
      }
      batches, last := Place(instances, i, batches, last, max);
    }
    assert instances[..|instances|] == instances;
    forall b | 0 <= b < |batches|
      ensures SizeOk(|batches[b].items|, maxItems) && |batches[b].items| == |batches[b].indexes|
    {
      assert BatchOk(instances, batches[b], max);
    }
  }

  /** A batch holds at least one item, never more than a hundred, and not more than asked for. */
  predicate SizeOk(n: nat, maxItems: int) { 1 <= n <= 100 && (n <= maxItems || n == 1) }

  predicate IsFull(n: nat, maxItems: int) { n == 100 || n == maxItems || (n == 1 && maxItems < 1) }

  lemma StartsAfresh(instances: Items, batches: seq<Batch>, last: map<BatchKey, nat>, key: BatchKey, max: nat)
    requires Partition(instances, batches, max) && LastOk(batches, last)
    requires key !in last || |batches[last[key]].items| >= max
    ensures forall c :: 0 <= c < |batches| && batches[c].key == key ==> |batches[c].indexes| == max
  {
    forall c | 0 <= c < |batches| && batches[c].key == key
      ensures |batches[c].indexes| == max
    {
      assert BatchOk(instances, batches[c], max) && BatchOk(instances, batches[last[key]], max);
    }
  }

  // ---------------------------------------------------------------- what a partition gives

  lemma {:induction false} IndexesElements(instances: Items, key: BatchKey)
    ensures forall i :: i in IndexesOf(instances, key) <==> 0 <= i < |instances| && HasKey(instances[i], key)
    ensures forall p, q :: 0 <= p < q < |IndexesOf(instances, key)| ==>
      IndexesOf(instances, key)[p] < IndexesOf(instances, key)[q]
  {
    if instances != [] {
      var n := |instances| - 1;
      IndexesElements(instances[..n], key);
      var before := IndexesOf(instances[..n], key);
      assert forall p :: 0 <= p < |before| ==> before[p] in before;
      forall i
        ensures i in IndexesOf(instances, key) <==> 0 <= i < |instances| && HasKey(instances[i], key)
      {
        if 0 <= i < n {
          assert instances[..n][i] == instances[i];
        }
      }
    }
  }

  lemma {:induction false} MergedElements(batches: seq<Batch>, key: BatchKey)
    ensures forall i :: i in Merged(batches, key) <==>
      exists b :: 0 <= b < |batches| && batches[b].key == key && i in batches[b].indexes
  {
    if batches != [] {
      var n := |batches| - 1;
      MergedElements(batches[..n], key);
      forall i
        ensures i in Merged(batches, key) <==>
          exists b :: 0 <= b < |batches| && batches[b].key == key && i in batches[b].indexes
      {
        if i in Merged(batches[..n], key) {
          var b :| 0 <= b < n && batches[..n][b].key == key && i in batches[..n][b].indexes;
          assert batches[b] == batches[..n][b];
        }
        if b :| 0 <= b < n && batches[b].key == key && i in batches[b].indexes {
          assert batches[..n][b] == batches[b];
        }
      }
    }
  }

  /** Where a batch's positions sit in its key's merged sequence. */
  lemma {:induction false} MergedSlice(batches: seq<Batch>, b: nat) returns (from: nat)
    requires b < |batches|
    ensures from + |batches[b].indexes| <= |Merged(batches, batches[b].key)|
    ensures Merged(batches, batches[b].key)[from..from + |batches[b].indexes|] == batches[b].indexes
    ensures from == |Merged(batches[..b], batches[b].key)|
  {
    var n := |batches| - 1;
    from := |Merged(batches[..b], batches[b].key)|;
    if b < n {
      var from' := MergedSlice(batches[..n], b);
      assert batches[..n][..b] == batches[..b];
      assert Merged(batches[..n], batches[b].key) <= Merged(batches, batches[b].key);
    } else {
      assert batches[..n] == batches[..b];
    }
  }

  lemma {:induction false} MergedGrows(batches: seq<Batch>, b: nat, c: nat, key: BatchKey)
    requires b <= c <= |batches|
    ensures |Merged(batches[..b], key)| <= |Merged(batches[..c], key)|
    ensures b < c && batches[b].key == key ==>
      |Merged(batches[..b], key)| + |batches[b].indexes| <= |Merged(batches[..c], key)|
    decreases c - b
  {
    if b < c {
      MergedGrows(batches, b + 1, c, key);
      assert batches[..b + 1][..b] == batches[..b];
    }
  }

  /** Each admitted position is in exactly one place, each batch has one key and
      increasing positions. */
  lemma PartitionPlacesOnce(instances: Items, batches: seq<Batch>, max: nat)
    requires Partition(instances, batches, max)
    ensures forall i :: 0 <= i < |instances| && Admitted(instances[i]) ==>
      exists b, p :: 0 <= b < |batches| && 0 <= p < |batches[b].indexes| && batches[b].indexes[p] == i
    ensures forall b, p :: 0 <= b < |batches| && 0 <= p < |batches[b].indexes| ==>
      batches[b].indexes[p] < |instances| && HasKey(instances[batches[b].indexes[p]], batches[b].key)
  {
    forall i | 0 <= i < |instances| && Admitted(instances[i])
      ensures exists b, p :: 0 <= b < |batches| && 0 <= p < |batches[b].indexes| && batches[b].indexes[p] == i
    {
      var key := KeyOf(instances[i].value);
      IndexesElements(instances, key);
      MergedElements(batches, key);
      assert i in Merged(batches, key);
    }
    forall b, p | 0 <= b < |batches| && 0 <= p < |batches[b].indexes|
      ensures batches[b].indexes[p] < |instances| && HasKey(instances[batches[b].indexes[p]], batches[b].key)
    {
      var key := batches[b].key;
      IndexesElements(instances, key);
      MergedElements(batches, key);
      assert batches[b].indexes[p] in Merged(batches, key);
    }
  }

  /** Where a position of a batch stands among all positions of its key. */
  lemma PlaceOf(batches: seq<Batch>, b: nat, p: nat) returns (n: nat)
    requires b < |batches| && p < |batches[b].indexes|
    ensures n < |Merged(batches, batches[b].key)| && Merged(batches, batches[b].key)[n] == batches[b].indexes[p]
    ensures n == |Merged(batches[..b], batches[b].key)| + p
  {
    var from := MergedSlice(batches, b);
    n := from + p;
    assert Merged(batches, batches[b].key)[n] == Merged(batches, batches[b].key)[from..from + |batches[b].indexes|][p];
  }

  lemma PlaceIsInjective(batches: seq<Batch>, b: nat, p: nat, c: nat, q: nat)
    requires b <= c < |batches| && p < |batches[b].indexes| && q < |batches[c].indexes| &&
      batches[b].key == batches[c].key
    requires |Merged(batches[..b], batches[b].key)| + p == |Merged(batches[..c], batches[c].key)| + q
    ensures b == c && p == q
  {
    MergedGrows(batches, b, c, batches[b].key);
  }

  /** No position is in two places. */
  lemma PartitionIsInjective(instances: Items, batches: seq<Batch>, max: nat, b: nat, p: nat, c: nat, q: nat)
    requires Partition(instances, batches, max)
    requires b < |batches| && p < |batches[b].indexes| && c < |batches| && q < |batches[c].indexes|
    requires batches[b].indexes[p] == batches[c].indexes[q]
    ensures b == c && p == q
  {
    PartitionPlacesOnce(instances, batches, max);
    var key := batches[b].key;
    assert batches[c].key == key;
    IndexesElements(instances, key);
    var m := PlaceOf(batches, b, p);
    var n := PlaceOf(batches, c, q);
    assert m == n;
    if b <= c {
      PlaceIsInjective(batches, b, p, c, q);
    } else {
      PlaceIsInjective(batches, c, q, b, p);
    }
  }

  predicate Carries(batches: seq<Batch>, b: nat, i: nat) { b < |batches| && i in batches[b].indexes }

  /** A position is in a register batch iff its instance is online or unhealthy, in a deregister batch iff
      it is offline, and in none otherwise; the batch is of the instance's own service and cluster. */
  lemma PartitionByStatus(instances: Items, batches: seq<Batch>, max: nat, i: nat)
    requires Partition(instances, batches, max) && i < |instances|
    ensures (exists b: nat :: Carries(batches, b, i) && batches[b].key.op.Register?) <==> Registers(instances[i])
    ensures (exists b: nat :: Carries(batches, b, i) && batches[b].key.op.Deregister?) <==> Removes(instances[i])
    ensures forall b: nat :: Carries(batches, b, i) ==>
      instances[i].Some? && batches[b].key.service == instances[i].value.appCode &&
      batches[b].key.cluster == ClusterOf(instances[i].value)
  {
    PartitionPlacesOnce(instances, batches, max);
    forall b: nat | Carries(batches, b, i)
      ensures HasKey(instances[i], batches[b].key)
    {
      var p :| 0 <= p < |batches[b].indexes| && batches[b].indexes[p] == i;
      assert HasKey(instances[batches[b].indexes[p]], batches[b].key);
    }
    if Admitted(instances[i]) {
      var b, p :| 0 <= b < |batches| && 0 <= p < |batches[b].indexes| && batches[b].indexes[p] == i;
      assert Carries(batches, b, i);
    }
  }

  // ---------------------------------------------------------------- accounting

  /** The error recorded for an item, given what its call answered: an item
      without an address is skipped before any call. */
  function ItemError(ins: Instance, answer: Option<Err>): Option<Err> {
    if ins.ip == "" then None else answer
  }

  datatype Counts = Counts(attempted: nat, succeeded: nat, skipped: nat, transient: nat, permanent: nat)

  /** The call of position `i` was made and answered an error. */
  predicate Fails(instances: Items, answers: seq<Option<Err>>, i: nat)
    requires i < |instances| == |answers|
  {
    (Registers(instances[i]) || Removes(instances[i])) && instances[i].value.ip != "" && answers[i].Some?
  }

  ghost function SkippedAt(instances: Items, n: nat): set<nat>
    requires n <= |instances|
  {
    set i | 0 <= i < n && Registers(instances[i]) && instances[i].value.ip == ""
  }

  ghost function FailedFor(instances: Items, answers: seq<Option<Err>>, n: nat, permanent: bool): set<nat>
    requires n <= |instances| == |answers|
  {
    set i | 0 <= i < n && Fails(instances, answers, i) && IsPermanent(answers[i].value) == permanent
  }

  ghost function SucceededAt(instances: Items, answers: seq<Option<Err>>, n: nat): set<nat>
    requires n <= |instances| == |answers|
  {
    set i | 0 <= i < n && Succeeds(instances, answers, i)
  }

  lemma SkippedMore(instances: Items, n: nat)
    requires n < |instances|
    ensures |SkippedAt(instances, n + 1)| == |SkippedAt(instances, n)| +
      (if Registers(instances[n]) && instances[n].value.ip == "" then 1 else 0)
  {
    assert SkippedAt(instances, n + 1) == SkippedAt(instances, n) +
      (if Registers(instances[n]) && instances[n].value.ip == "" then {n} else {});
  }

  lemma FailedMore(instances: Items, answers: seq<Option<Err>>, n: nat, permanent: bool)
    requires n < |instances| == |answers|
    ensures |FailedFor(instances, answers, n + 1, permanent)| == |FailedFor(instances, answers, n, permanent)| +
      (if Fails(instances, answers, n) && IsPermanent(answers[n].value) == permanent then 1 else 0)
  {
    assert FailedFor(instances, answers, n + 1, permanent) == FailedFor(instances, answers, n, permanent) +
      (if Fails(instances, answers, n) && IsPermanent(answers[n].value) == permanent then {n} else {});
  }

  /** The call was made, or there was nothing to remove, and no error came back. */
  predicate Succeeds(instances: Items, answers: seq<Option<Err>>, i: nat)
    requires i < |instances| == |answers|
  {
    || (Registers(instances[i]) && instances[i].value.ip != "" && answers[i].None?)
    || (Removes(instances[i]) && (instances[i].value.ip == "" || answers[i].None?))
  }

  lemma SucceededMore(instances: Items, answers: seq<Option<Err>>, n: nat)
    requires n < |instances| == |answers|
    ensures |SucceededAt(instances, answers, n + 1)| ==
      |SucceededAt(instances, answers, n)| + (if Succeeds(instances, answers, n) then 1 else 0)
  {
    assert SucceededAt(instances, answers, n + 1) ==
      SucceededAt(instances, answers, n) + (if Succeeds(instances, answers, n) then {n} else {});
  }

  /** What the loop has counted after `n` positions; the skipped ones are still among the successes. */
  ghost predicate Counted(instances: Items, answers: seq<Option<Err>>, n: nat, succeeded: nat, transient: nat,
                          permanent: nat)
    requires n <= |instances| == |answers|
  {
    && succeeded + transient + permanent == CountAdmitted(instances[..n])
    && succeeded == |SucceededAt(instances, answers, n)| + |SkippedAt(instances, n)|
    && transient == |FailedFor(instances, answers, n, false)|
    && permanent == |FailedFor(instances, answers, n, true)|
  }

  lemma CountedMore(instances: Items, answers: seq<Option<Err>>, n: nat, succeeded: nat, transient: nat, permanent: nat)
    requires n < |instances| == |answers| && Counted(instances, answers, n, succeeded, transient, permanent)
    ensures !Admitted(instances[n]) ==> Counted(instances, answers, n + 1, succeeded, transient, permanent)
    ensures Admitted(instances[n]) ==>
      var err := ItemError(instances[n].value, answers[n]);
      if err.None? then Counted(instances, answers, n + 1, succeeded + 1, transient, permanent)
      else if IsPermanent(err.value) then Counted(instances, answers, n + 1, succeeded, transient, permanent + 1)
      else Counted(instances, answers, n + 1, succeeded, transient + 1, permanent)
  {
    SkippedMore(instances, n);
    SucceededMore(instances, answers, n);
    FailedMore(instances, answers, n, false);
    FailedMore(instances, answers, n, true);
    assert instances[..n + 1][..n] == instances[..n];
  }

  lemma {:induction false} SkippedCounted(instances: Items, n: nat)
    requires n <= |instances|
    ensures CountSkipped(instances[..n]) == |SkippedAt(instances, n)|
  {
    if n > 0 {
      SkippedCounted(instances, n - 1);
      SkippedMore(instances, n - 1);
      assert instances[..n][..n - 1] == instances[..n - 1];
    }
  }

  /** The counters of one execution. They are unsigned: the subtraction that takes
      the skipped items out of the successes cannot wrap, whatever the calls answered. */
  method Account(instances: Items, batches: seq<Batch>, answers: seq<Option<Err>>) returns (counts: Counts)
    requires |answers| == |instances| && Partition(instances, batches, MAX_BATCH)
    ensures counts.attempted == counts.succeeded + counts.transient + counts.permanent
    ensures counts.attempted + counts.skipped == CountAdmitted(instances)
    ensures counts.succeeded == |SucceededAt(instances, answers, |instances|)|
    ensures counts.skipped == |SkippedAt(instances, |instances|)|
    ensures counts.transient == |FailedFor(instances, answers, |instances|, false)|
    ensures counts.permanent == |FailedFor(instances, answers, |instances|, true)|
  {
    var admitted, skipped := Tally(batches);
    var succeeded: nat, transient: nat, permanent: nat := 0, 0, 0;
    for i := 0 to |instances|
      invariant Counted(instances, answers, i, succeeded, transient, permanent)
    {
      CountedMore(instances, answers, i, succeeded, transient, permanent);
      if !Admitted(instances[i]) {
        continue;
      }
      var err := ItemError(instances[i].value, answers[i]);
      if err.None? {
        succeeded := succeeded + 1;
      } else if IsPermanent(err.value) {
        permanent := permanent + 1;
      } else {
        transient := transient + 1;
      }
    }
    SkippedCounted(instances, |instances|);
    assert instances[..|instances|] == instances;
    counts := Counts(admitted - skipped, succeeded - skipped, skipped, transient, permanent);
  }

  method Tally(batches: seq<Batch>) returns (admitted: nat, skipped: nat)
    ensures admitted == TotalItems(batches) && skipped == TotalSkipped(batches)
  {
    admitted, skipped := 0, 0;
    for b := 0 to |batches|
      invariant admitted == TotalItems(batches[..b]) && skipped == TotalSkipped(batches[..b])
    {
      assert batches[..b + 1][..b] == batches[..b];
      admitted := admitted + |batches[b].items|;
      if batches[b].key.op.Register? {
        var items := batches[b].items;
        for p := 0 to |items|
          invariant skipped == TotalSkipped(batches[..b]) + SkippedIn(Register, items[..p])
        {
          assert items[..p + 1][..p] == items[..p];
          if items[p].ip == "" {
            skipped := skipped + 1;
          }
        }
        assert items[..|items|] == items;
      }
    }
    assert batches[..|batches|] == batches;
  }
}
