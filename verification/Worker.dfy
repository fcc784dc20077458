/** The SyncAll handler of pkg/worker/worker.go over a fan-out of sinks: push the
    snapshot to every sink, revalidate once when it was merely stale, and queue a
    retry for the sinks that failed. */
module Worker {
  import opened Instances
  import opened Errors
  import opened RetryQueue

  /** One answer per sink, in declaration order. */
  type Results = seq<Option<Err>>

  /** The failed sinks of a fan-out push, in declaration order. */
  function Failures(names: seq<string>, results: Results): seq<SinkFailure>
    requires |names| == |results|
  {
    if results == [] then []
    else
      var n := |results| - 1;
      Failures(names[..n], results[..n]) + (if results[n].Some? then [SinkFailure(names[n], results[n].value)] else [])
  }

  function Collected(names: seq<string>, results: Results): Option<Err>
    requires |names| == |results|
  {
    var failures := Failures(names, results);
    if failures == [] then None else Some(Fanout(failures))
  }

  method CollectFailures(names: seq<string>, results: Results) returns (err: Option<Err>)
    requires |names| == |results|
    ensures err == Collected(names, results)
  {
    var failures := [];
    for i := 0 to |results|
      invariant failures == Failures(names[..i], results[..i])
    {
      assert names[..i + 1][..i] == names[..i] && results[..i + 1][..i] == results[..i];
      if results[i].Some? {
        failures := failures + [SinkFailure(names[i], results[i].value)];
      }
    }
    assert names[..|results|] == names && results[..|results|] == results;
    return if failures == [] then None else Some(Fanout(failures));
  }

  datatype Event = Event(
    trigger: int, data: Items, scope: string, batchID: string, sequence: nat, revalidates: bool, emptyConfirmed: bool)

  datatype Decision = Finished | Dropped | Retry(err: Err)

  /** `first` is the error of the push, `second` that of the revalidated attempt if one is made. */
  function Decide(first: Option<Err>, revalidates: bool, second: Option<Err>): Decision {
    if first.None? then Finished
    else if IsStale(first.value) && !HasNonStaleFanoutFailure(first.value) then
      if !revalidates then Dropped
      else if second.None? then Finished
      else if IsStale(second.value) then Dropped
      else Retry(second.value)
    else Retry(first.value)
  }

  class DefaultWorker {
    const unsynced: UnsyncedService

    constructor (unsynced: UnsyncedService)
      ensures this.unsynced == unsynced
    {
      this.unsynced := unsynced;
    }

    /** A failed incremental push is queued for the sinks that failed; nothing else is. */
    method Sync(trigger: int, data: seq<Option<Handle>>, pushed: Option<Err>) returns (err: Option<Err>)
      requires unsynced.Valid()
      modifies unsynced`store
      ensures unsynced.Valid() && err == pushed
      ensures pushed.None? ==> unsynced.store == old(unsynced.store)
      ensures pushed.Some? ==>
        var sinks := FailedSinkNames(pushed, unsynced.sinkNames);
        unsynced.store == AddPairs(old(unsynced.store), trigger,
          Pairs(data, if sinks == [] then unsynced.sinkNames else sinks))
    {
      if pushed.Some? && |data| > 0 {
        unsynced.Add(trigger, data, FailedSinkNames(pushed, unsynced.sinkNames));
      }
      return pushed;
    }

    /** What the handler decides and, when it retries, exactly what it queues. */
    method SyncAll(e: Event, first: Option<Err>, second: Option<Err>) returns (decision: Decision)
      requires unsynced.Valid()
      modifies unsynced`store
      ensures unsynced.Valid()
      ensures e.scope != "" && e.data == [] && !e.emptyConfirmed ==> decision == Dropped
      ensures !(e.scope != "" && e.data == [] && !e.emptyConfirmed) ==> decision == Decide(first, e.revalidates, second)
      ensures !decision.Retry? ==> unsynced.store == old(unsynced.store)
      ensures decision.Retry? && e.scope != "" && e.batchID != "" ==>
        var sinks := FailedSinkNames(Some(decision.err), unsynced.sinkNames);
        FullAdded(old(unsynced.store), unsynced.store, if sinks == [] then unsynced.sinkNames else sinks,
          Whole(e.trigger, e.data, e.scope, e.batchID, SequenceOf(e.sequence, e.trigger), e.revalidates,
            e.emptyConfirmed))
      ensures decision.Retry? && (e.scope == "" || e.batchID == "") ==> unsynced.store == old(unsynced.store)
    {
      if e.scope != "" && |e.data| == 0 && !e.emptyConfirmed {
        return Dropped;
      }
      var err := first;
      if err.Some? && IsStale(err.value) && e.revalidates && !HasNonStaleFanoutFailure(err.value) {
        err := second;
        if err.None? {
          return Finished;
        }
        if IsStale(err.value) {
          return Dropped;
        }
      }
      if err.Some? && IsStale(err.value) && !HasNonStaleFanoutFailure(err.value) {
        return Dropped;
      }
      if err.Some? {
        unsynced.AddFullWithMeta(e.trigger, e.data, FailedSinkNames(err, unsynced.sinkNames), e.scope, e.batchID,
                                 e.sequence, e.revalidates, e.emptyConfirmed);
        return Retry(err.value);
      }
      return Finished;
    }
  }

  // ---------------------------------------------------------------- which sinks get a retry

  predicate StaleAt(results: Results, i: nat)
    requires i < |results|
  {
    results[i].Some? && IsStale(results[i].value)
  }

  predicate FailedAt(results: Results, i: nat)
    requires i < |results|
  {
    results[i].Some? && !IsStale(results[i].value)
  }

  lemma {:induction false} FailuresElements(names: seq<string>, results: Results)
    requires |names| == |results|
    ensures forall i :: 0 <= i < |results| && results[i].Some? ==>
      SinkFailure(names[i], results[i].value) in Failures(names, results)
    ensures forall f :: f in Failures(names, results) ==>
      exists i :: 0 <= i < |results| && results[i].Some? && f == SinkFailure(names[i], results[i].value)
  {
    if results != [] {
      var n := |results| - 1;
      FailuresElements(names[..n], results[..n]);
      forall f | f in Failures(names, results)
        ensures exists i :: 0 <= i < |results| && results[i].Some? && f == SinkFailure(names[i], results[i].value)
      {
        if f in Failures(names[..n], results[..n]) {
          var i :| 0 <= i < n && results[..n][i].Some? && f == SinkFailure(names[..n][i], results[..n][i].value);
          assert results[i] == results[..n][i] && names[i] == names[..n][i];
        }
      }
      forall i | 0 <= i < |results| && results[i].Some?
        ensures SinkFailure(names[i], results[i].value) in Failures(names, results)
      {
        if i < n {
          assert results[..n][i] == results[i] && names[..n][i] == names[i];
        }
      }
    }
  }

  /** The result a collected failure comes from. */
  lemma SourceOf(names: seq<string>, results: Results, j: nat) returns (i: nat)
    requires |names| == |results| && j < |Failures(names, results)|
    ensures i < |results| && results[i] == Some(Failures(names, results)[j].err) &&
      names[i] == Failures(names, results)[j].sink
  {
    FailuresElements(names, results);
    assert Failures(names, results)[j] in Failures(names, results);
    i :| 0 <= i < |results| && results[i].Some? &&
      Failures(names, results)[j] == SinkFailure(names[i], results[i].value);
  }

  /** The collected failure of a failing result. */
  lemma PositionOf(names: seq<string>, results: Results, i: nat) returns (j: nat)
    requires |names| == |results| && i < |results| && results[i].Some?
    ensures j < |Failures(names, results)| && Failures(names, results)[j] == SinkFailure(names[i], results[i].value)
  {
    FailuresElements(names, results);
    j :| 0 <= j < |Failures(names, results)| && Failures(names, results)[j] == SinkFailure(names[i], results[i].value);
  }

  lemma CollectedNone(names: seq<string>, results: Results)
    requires |names| == |results|
    ensures Collected(names, results).None? <==> forall i :: 0 <= i < |results| ==> results[i].None?
  {
    if Failures(names, results) != [] {
      var i := SourceOf(names, results, 0);
    }
    if i :| 0 <= i < |results| && results[i].Some? {
      var j := PositionOf(names, results, i);
    }
  }

  lemma CollectedStale(names: seq<string>, results: Results)
    requires |names| == |results| && Collected(names, results).Some?
    ensures IsStale(Collected(names, results).value) <==> exists i :: 0 <= i < |results| && StaleAt(results, i)
  {
    var failures := Failures(names, results);
    if j :| 0 <= j < |failures| && IsStale(failures[j].err) {
      var i := SourceOf(names, results, j);
      assert StaleAt(results, i);
    }
    if i :| 0 <= i < |results| && StaleAt(results, i) {
      var j := PositionOf(names, results, i);
      assert IsStale(failures[j].err);
    }
  }

  lemma CollectedNonStale(names: seq<string>, results: Results)
    requires |names| == |results| && Collected(names, results).Some?
    ensures HasNonStaleFanoutFailure(Collected(names, results).value) <==>
      exists i :: 0 <= i < |results| && FailedAt(results, i)
  {
    var failures := Failures(names, results);
    assert Collected(names, results).value == Fanout(failures);
    assert FindFanout(Fanout(failures)) == Some(failures);
    if j :| 0 <= j < |failures| && !IsStale(failures[j].err) {
      var i := SourceOf(names, results, j);
      assert FailedAt(results, i);
    }
    if i :| 0 <= i < |results| && FailedAt(results, i) {
      var j := PositionOf(names, results, i);
      assert results[i].value == failures[j].err;
      assert !IsStale(failures[j].err);
    }
  }

  lemma CollectedClasses(names: seq<string>, results: Results)
    requires |names| == |results|
    ensures Collected(names, results).None? <==>
      !(exists i :: 0 <= i < |results| && StaleAt(results, i)) &&
        !(exists i :: 0 <= i < |results| && FailedAt(results, i))
    ensures Collected(names, results).Some? ==>
      && (IsStale(Collected(names, results).value) <==> exists i :: 0 <= i < |results| && StaleAt(results, i))
      && (HasNonStaleFanoutFailure(Collected(names, results).value) <==>
        exists i :: 0 <= i < |results| && FailedAt(results, i))
  {
    CollectedNone(names, results);
    if Collected(names, results).Some? {
      CollectedStale(names, results);
      CollectedNonStale(names, results);
      var i :| 0 <= i < |results| && results[i].Some?;
      assert StaleAt(results, i) || FailedAt(results, i);
    }
  }

  /** The sinks a decision queues a retry for. */
  predicate QueuedFor(decision: Decision, names: seq<string>, name: string) {
    decision.Retry? && name in FailedSinkNames(Some(decision.err), names)
  }

  lemma NamedAsFailed(names: seq<string>, results: Results, i: nat)
    requires |names| == |results| && i < |results| && FailedAt(results, i)
    ensures names[i] in NonStaleSinks(Failures(names, results))
  {
    var failures := Failures(names, results);
    var f := PositionOf(names, results, i);
    NonStaleSinksElements(failures);
    assert failures[f].sink == names[i] && !IsStale(failures[f].err);
  }

  lemma NamedBecauseFailed(names: seq<string>, results: Results, i: nat)
    requires |names| == |results| && i < |results|
    requires forall a, b :: 0 <= a < b < |names| ==> names[a] != names[b]
    requires names[i] in NonStaleSinks(Failures(names, results))
    ensures FailedAt(results, i)
  {
    var failures := Failures(names, results);
    NonStaleSinksElements(failures);
    var f :| 0 <= f < |failures| && failures[f].sink == names[i] && !IsStale(failures[f].err);
    var source := SourceOf(names, results, f);
    assert source == i;
  }

  lemma NamesOfFanout(failures: seq<SinkFailure>, names: seq<string>)
    requires failures != [] && names != []
    ensures FailedSinkNames(Some(Fanout(failures)), names) == NonStaleSinks(failures)
  {
    assert FindFanout(Fanout(failures)) == Some(failures);
  }

  lemma RetriesFailedSinks(names: seq<string>, results: Results, i: nat)
    requires |names| == |results| && i < |results|
    requires forall a, b :: 0 <= a < b < |names| ==> names[a] != names[b]
    requires exists j :: 0 <= j < |results| && FailedAt(results, j)
    ensures Collected(names, results).Some?
    ensures QueuedFor(Retry(Collected(names, results).value), names, names[i]) <==> FailedAt(results, i)
  {
    var failures := Failures(names, results);
    var j :| 0 <= j < |results| && FailedAt(results, j);
    var _ := PositionOf(names, results, j);
    NamesOfFanout(failures, names);
    if FailedAt(results, i) {
      NamedAsFailed(names, results, i);
    } else if names[i] in NonStaleSinks(failures) {
      NamedBecauseFailed(names, results, i);
    }
  }

  /** A snapshot is revalidated once, when every failing sink found it stale. */
  predicate SecondAttempt(results: Results, revalidates: bool) {
    && revalidates
    && (exists i :: 0 <= i < |results| && StaleAt(results, i))
    && !(exists i :: 0 <= i < |results| && FailedAt(results, i))
  }

  /** Exactly which sinks are queued: those that failed for another reason than
      staleness in the last attempt, unless that attempt was the revalidated one
      and some sink found even the fresh snapshot stale. Then the whole operation
      is dropped, the failed sinks with it. */
  lemma QueuedExactly(names: seq<string>, first: Results, revalidates: bool, second: Results, i: nat)
    requires |names| == |first| == |second| && i < |names|
    requires forall a, b :: 0 <= a < b < |names| ==> names[a] != names[b]
    ensures var decision := Decide(Collected(names, first), revalidates, Collected(names, second));
      QueuedFor(decision, names, names[i]) <==>
        if SecondAttempt(first, revalidates)
        then FailedAt(second, i) && !(exists j :: 0 <= j < |second| && StaleAt(second, j))
        else FailedAt(first, i)
  {
    CollectedClasses(names, first);
    CollectedClasses(names, second);
    if exists j :: 0 <= j < |first| && FailedAt(first, j) {
      RetriesFailedSinks(names, first, i);
    } else if exists j :: 0 <= j < |second| && FailedAt(second, j) {
      RetriesFailedSinks(names, second, i);
    }
  }

  /** The case above does happen: after revalidation one sink still finds the
      snapshot stale while the other times out, and neither is retried. */
  lemma MixedSecondAttemptIsLost()
    ensures var names := ["atlas", "nacos"];
      var first := [Some(StaleFullPush), Some(StaleFullPush)];
      var second := [Some(StaleFullPush), Some(Plain("timeout"))];
      FailedAt(second, 1) && Decide(Collected(names, first), true, Collected(names, second)) == Dropped
  {
    var names := ["atlas", "nacos"];
    var first := [Some(StaleFullPush), Some(StaleFullPush)];
    var second := [Some(StaleFullPush), Some(Plain("timeout"))];
    assert StaleAt(first, 0) && StaleAt(second, 0);
    CollectedClasses(names, first);
    CollectedClasses(names, second);
  }
}
