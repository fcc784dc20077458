/** Error trees and their classification: internal/ports/errors.go and the
    fan-out error of pkg/worker/fanout.go. */
module Errors {
  import opened Instances

  datatype SinkFailure = SinkFailure(sink: string, err: Err)

  /** An error by what it offers: its own retry policy, children, one cause, or
      nothing. `StaleFullPush` is the sentinel of a rejected full snapshot. */
  datatype Err =
    | Plain(message: string)
    | StaleFullPush
    | Classified(permanent: bool, causes: seq<Err>)
    | Joined(children: seq<Option<Err>>)
    | Fanout(failures: seq<SinkFailure>)
    | Wrapped(cause: Option<Err>)

  /** The classification, as the source computes it. */
  predicate IsPermanent(e: Err) {
    match e
    case Plain(_) => false
    case StaleFullPush => false
    case Classified(permanent, _) => permanent
    case Joined(children) =>
      && (exists i :: 0 <= i < |children| && children[i].Some?)
      && (forall i :: 0 <= i < |children| && children[i].Some? ==> IsPermanent(children[i].value))
    case Fanout(failures) => failures != [] && forall i :: 0 <= i < |failures| ==> IsPermanent(failures[i].err)
    case Wrapped(cause) => cause.Some? && IsPermanent(cause.value)
  }

  /** The leaves that decide: an explicit policy hides everything below it, nil
      children count for nothing, and whatever has no policy is not permanent. */
  function Leaves(e: Err): seq<bool>
    decreases e, 0
  {
    match e
    case Plain(_) => [false]
    case StaleFullPush => [false]
    case Classified(permanent, _) => [permanent]
    case Joined(children) =>
      var below := ChildLeaves(children);
      if below == [] then [false] else below
    case Fanout(failures) =>
      var below := FailureLeaves(failures);
      if below == [] then [false] else below
    case Wrapped(cause) => if cause.None? then [false] else Leaves(cause.value)
  }

  function ChildLeaves(children: seq<Option<Err>>): seq<bool>
    decreases children, 1
  {
    if children == [] then []
    else
      var first := children[0];
      assert first.Some? ==> first.value < first;
      (if first.Some? then Leaves(first.value) else []) + ChildLeaves(children[1..])
  }

  function FailureLeaves(failures: seq<SinkFailure>): seq<bool>
    decreases failures, 1
  {
    if failures == [] then [] else Leaves(failures[0].err) + FailureLeaves(failures[1..])
  }

  lemma {:induction false} LeavesDecide(e: Err)
    ensures Leaves(e) != []
    ensures IsPermanent(e) <==> false !in Leaves(e)
    decreases e, 0
  {
    match e
    case Joined(children) => ChildLeavesDecide(children);
    case Fanout(failures) => FailureLeavesDecide(failures);
    case Wrapped(cause) =>
      if cause.Some? {
        LeavesDecide(cause.value);
      }
    case _ =>
  }

  lemma {:induction false} ChildLeavesDecide(children: seq<Option<Err>>)
    ensures ChildLeaves(children) != [] <==> exists i :: 0 <= i < |children| && children[i].Some?
    ensures false !in ChildLeaves(children) <==>
      forall i :: 0 <= i < |children| && children[i].Some? ==> IsPermanent(children[i].value)
    decreases children, 1
  {
    if children != [] {
      var first := children[0];
      if first.Some? {
        assert first.value < first;
        LeavesDecide(first.value);
      }
      ChildLeavesDecide(children[1..]);
      assert forall i :: 1 <= i < |children| ==> children[i] == children[1..][i - 1];
    }
  }

  lemma {:induction false} FailureLeavesDecide(failures: seq<SinkFailure>)
    ensures FailureLeaves(failures) != [] <==> failures != []
    ensures false !in FailureLeaves(failures) <==>
      forall i :: 0 <= i < |failures| ==> IsPermanent(failures[i].err)
    decreases failures, 1
  {
    if failures != [] {
      LeavesDecide(failures[0].err);
      FailureLeavesDecide(failures[1..]);
      assert forall i :: 1 <= i < |failures| ==> failures[i] == failures[1..][i - 1];
    }
  }

  /** `errors.Is(err, errStaleFullPush)`: the sentinel occurs anywhere in the tree. */
  predicate IsStale(e: Err) {
    match e
    case Plain(_) => false
    case StaleFullPush => true
    case Classified(_, causes) => exists i :: 0 <= i < |causes| && IsStale(causes[i])
    case Joined(children) => exists i :: 0 <= i < |children| && children[i].Some? && IsStale(children[i].value)
    case Fanout(failures) => exists i :: 0 <= i < |failures| && IsStale(failures[i].err)
    case Wrapped(cause) => cause.Some? && IsStale(cause.value)
  }

  /** `errors.As(err, &fanoutErr)`: the first fan-out error, outermost first. */
  function FindFanout(e: Err): Option<seq<SinkFailure>>
    decreases e, 0
  {
    match e
    case Plain(_) => None
    case StaleFullPush => None
    case Classified(_, causes) => FindInCauses(causes)
    case Joined(children) => FindInChildren(children)
    case Fanout(failures) => Some(failures)
    case Wrapped(cause) => if cause.None? then None else FindFanout(cause.value)
  }

  function FindInCauses(causes: seq<Err>): Option<seq<SinkFailure>>
    decreases causes, 1
  {
    if causes == [] then None
    else
      var first := FindFanout(causes[0]);
      if first.Some? then first else FindInCauses(causes[1..])
  }

  function FindInChildren(children: seq<Option<Err>>): Option<seq<SinkFailure>>
    decreases children, 1
  {
    if children == [] then None
    else
      var first := children[0];
      assert first.Some? ==> first.value < first;
      var found := if first.Some? then FindFanout(first.value) else None;
      if found.Some? then found else FindInChildren(children[1..])
  }

  // ---------------------------------------------------------------- the walk both searches take

  /** An error and everything below it, depth first, in the order of the children. */
  function Walk(e: Err): seq<Err>
    decreases e, 0
  {
    [e] + match e
      case Plain(_) => []
      case StaleFullPush => []
      case Classified(_, causes) => WalkCauses(causes)
      case Joined(children) => WalkChildren(children)
      case Fanout(failures) => WalkFailures(failures)
      case Wrapped(cause) => if cause.None? then [] else Walk(cause.value)
  }

  function WalkCauses(causes: seq<Err>): seq<Err>
    decreases causes, 1
  {
    if causes == [] then [] else Walk(causes[0]) + WalkCauses(causes[1..])
  }

  function WalkChildren(children: seq<Option<Err>>): seq<Err>
    decreases children, 1
  {
    if children == [] then []
    else
      var first := children[0];
      assert first.Some? ==> first.value < first;
      (if first.Some? then Walk(first.value) else []) + WalkChildren(children[1..])
  }

  function WalkFailures(failures: seq<SinkFailure>): seq<Err>
    decreases failures, 1
  {
    if failures == [] then [] else Walk(failures[0].err) + WalkFailures(failures[1..])
  }

  /** An error is stale iff the sentinel occurs anywhere in it. */
  lemma {:induction false} StaleIsMet(e: Err)
    ensures IsStale(e) <==> StaleFullPush in Walk(e)
    decreases e, 0
  {
    match e
    case Classified(_, causes) => StaleInCauses(causes);
    case Joined(children) => StaleInChildren(children);
    case Fanout(failures) => StaleInFailures(failures);
    case Wrapped(cause) =>
      if cause.Some? {
        StaleIsMet(cause.value);
      }
    case _ =>
  }

  lemma {:induction false} StaleInCauses(causes: seq<Err>)
    ensures StaleFullPush in WalkCauses(causes) <==> exists i :: 0 <= i < |causes| && IsStale(causes[i])
    decreases causes, 1
  {
    if causes != [] {
      StaleIsMet(causes[0]);
      StaleInCauses(causes[1..]);
      assert forall i :: 1 <= i < |causes| ==> causes[i] == causes[1..][i - 1];
    }
  }

  lemma {:induction false} StaleInChildren(children: seq<Option<Err>>)
    ensures StaleFullPush in WalkChildren(children) <==>
      exists i :: 0 <= i < |children| && children[i].Some? && IsStale(children[i].value)
    decreases children, 1
  {
    if children != [] {
      var first := children[0];
      if first.Some? {
        assert first.value < first;
        StaleIsMet(first.value);
      }
      StaleInChildren(children[1..]);
      assert forall i :: 1 <= i < |children| ==> children[i] == children[1..][i - 1];
    }
  }

  lemma {:induction false} StaleInFailures(failures: seq<SinkFailure>)
    ensures StaleFullPush in WalkFailures(failures) <==> exists i :: 0 <= i < |failures| && IsStale(failures[i].err)
    decreases failures, 1
  {
    if failures != [] {
      StaleIsMet(failures[0].err);
      StaleInFailures(failures[1..]);
      assert forall i :: 1 <= i < |failures| ==> failures[i] == failures[1..][i - 1];
    }
  }

  /** The failures of the first fan-out error among some nodes. */
  function FirstFanout(nodes: seq<Err>): (r: Option<seq<SinkFailure>>)
    ensures r.None? ==> forall i :: 0 <= i < |nodes| ==> !nodes[i].Fanout?
    ensures r.Some? ==>
      exists i :: 0 <= i < |nodes| && nodes[i] == Fanout(r.value) && forall j :: 0 <= j < i ==> !nodes[j].Fanout?
  {
    if nodes == [] then None
    else if nodes[0].Fanout? then Some(nodes[0].failures)
    else
      var r := FirstFanout(nodes[1..]);
      assert forall i :: 1 <= i < |nodes| ==> nodes[i] == nodes[1..][i - 1];
      r
  }

  lemma {:induction false} FirstOfTwo(a: seq<Err>, b: seq<Err>)
    ensures FirstFanout(a + b) == if FirstFanout(a).Some? then FirstFanout(a) else FirstFanout(b)
  {
    if a == [] {
      assert a + b == b;
    } else {
      assert (a + b)[1..] == a[1..] + b;
      FirstOfTwo(a[1..], b);
    }
  }

  /** The search for a fan-out error finds the first one of the walk. */
  lemma {:induction false} FindsFirst(e: Err)
    ensures FindFanout(e) == FirstFanout(Walk(e))
    decreases e, 0
  {
    match e
    case Classified(_, causes) => FindsInCauses(causes); FirstOfTwo([e], WalkCauses(causes));
    case Joined(children) => FindsInChildren(children); FirstOfTwo([e], WalkChildren(children));
    case Fanout(failures) => FirstOfTwo([e], WalkFailures(failures));
    case Wrapped(cause) =>
      if cause.Some? {
        FindsFirst(cause.value);
        FirstOfTwo([e], Walk(cause.value));
      }
    case _ =>
  }

  lemma {:induction false} FindsInCauses(causes: seq<Err>)
    ensures FindInCauses(causes) == FirstFanout(WalkCauses(causes))
    decreases causes, 1
  {
    if causes != [] {
      FindsFirst(causes[0]);
      FindsInCauses(causes[1..]);
      FirstOfTwo(Walk(causes[0]), WalkCauses(causes[1..]));
    }
  }

  lemma {:induction false} FindsInChildren(children: seq<Option<Err>>)
    ensures FindInChildren(children) == FirstFanout(WalkChildren(children))
    decreases children, 1
  {
    if children != [] {
      var first := children[0];
      FindsInChildren(children[1..]);
      if first.Some? {
        assert first.value < first;
        FindsFirst(first.value);
        FirstOfTwo(Walk(first.value), WalkChildren(children[1..]));
      } else {
        assert WalkChildren(children) == WalkChildren(children[1..]);
      }
    }
  }

  /** The sinks of a fan-out error that did not merely find the snapshot stale. */
  function NonStaleSinks(failures: seq<SinkFailure>): seq<string> {
    if failures == [] then []
    else (if IsStale(failures[0].err) then [] else [failures[0].sink]) + NonStaleSinks(failures[1..])
  }

  /** Which sinks a push error queues retries for. */
  function FailedSinkNames(err: Option<Err>, known: seq<string>): seq<string> {
    if err.None? || known == [] then []
    else
      var fanout := FindFanout(err.value);
      if fanout.Some? && fanout.value != [] then NonStaleSinks(fanout.value) else known
  }

  predicate HasNonStaleFanoutFailure(e: Err) {
    var fanout := FindFanout(e);
    fanout.Some? && exists i :: 0 <= i < |fanout.value| && !IsStale(fanout.value[i].err)
  }

  lemma {:induction false} NonStaleSinksElements(failures: seq<SinkFailure>)
    ensures forall name :: name in NonStaleSinks(failures) <==>
      exists i :: 0 <= i < |failures| && failures[i].sink == name && !IsStale(failures[i].err)
  {
    if failures != [] {
      NonStaleSinksElements(failures[1..]);
      assert forall i :: 1 <= i < |failures| ==> failures[i] == failures[1..][i - 1];
      forall name
        ensures name in NonStaleSinks(failures) <==>
          exists i :: 0 <= i < |failures| && failures[i].sink == name && !IsStale(failures[i].err)
      {
        if i :| 0 <= i < |failures| && failures[i].sink == name && !IsStale(failures[i].err) {
          if i > 0 {
            assert failures[1..][i - 1] == failures[i];
          }
        }
        if name in NonStaleSinks(failures[1..]) {
          var j :| 0 <= j < |failures[1..]| && failures[1..][j].sink == name && !IsStale(failures[1..][j].err);
          assert failures[j + 1] == failures[1..][j];
        }
      }
    }
  }

  /** Which sinks are retried after an error: those the first fan-out error inside it names with another
      failure than staleness, and every known sink when there is no fan-out error with failures in it. */
  lemma RetriedSinks(err: Err, known: seq<string>, name: string)
    ensures var fanout := FirstFanout(Walk(err));
      name in FailedSinkNames(Some(err), known) <==>
        known != [] &&
        if fanout.Some? && fanout.value != []
        then (exists i :: 0 <= i < |fanout.value| && fanout.value[i].sink == name &&
                StaleFullPush !in Walk(fanout.value[i].err))
        else name in known
  {
    FindsFirst(err);
    var fanout := FirstFanout(Walk(err));
    if fanout.Some? {
      NonStaleSinksElements(fanout.value);
      forall i | 0 <= i < |fanout.value|
        ensures IsStale(fanout.value[i].err) <==> StaleFullPush in Walk(fanout.value[i].err)
      {
        StaleIsMet(fanout.value[i].err);
      }
    }
  }
}
