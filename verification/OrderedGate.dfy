/** The per-sink write gate of pkg/worker/fanout.go: the revision and tombstone
    ledger, the admission check of one push, and the commit that follows a
    successful inner push. `Check` and `Committed` are the reference definitions;
    `OrderedSink` is the gate itself, whose single-pass loops refine them. */
module OrderedGate {
  import opened Instances

  /** The last accepted revision of an identity, and whether it was a removal. */
  datatype Mark = Mark(revision: int, tombstone: bool)
  type Ledger = map<Key, Mark>
  type Scopes = map<Key, string>

  /** One push as it reaches the gate. `scope` is "" when no explicit scope came with it. */
  datatype Request = Request(trigger: int, items: Items, full: bool, trusted: bool, revalidated: bool, scope: string)

  datatype Reason = Closed | DuplicateIdentity | StaleFullPush

  /** What the check decides. `Forward` carries what goes to the inner sink and
      what is recorded if that succeeds. */
  datatype Verdict =
    | Refuse(reason: Reason)
    | Skip
    | Forward(payload: seq<Instance>, marks: Ledger, seen: set<Key>)

  /** What a caller of the gate observes; `payload` is what the inner sink was given. */
  datatype Outcome =
    | Refused(reason: Reason)
    | Nothing
    | Delivered(payload: seq<Instance>)
    | Failed(payload: seq<Instance>)

  function Revision(x: Instance, trigger: int): int {
    if x.reversion == 0 then trigger else x.reversion
  }

  function MarkOf(x: Instance, trigger: int): Mark {
    Mark(Revision(x, trigger), x.status == OFFLINE)
  }

  predicate Superseded(previous: Mark, revision: int) {
    (previous.tombstone && revision <= previous.revision) || (!previous.tombstone && revision < previous.revision)
  }

  /** A revalidated trusted snapshot may bring a tombstoned identity back at its own revision. */
  predicate Heals(req: Request, previous: Mark, x: Instance) {
    req.full && req.trusted && req.revalidated && previous.tombstone &&
    Revision(x, req.trigger) == previous.revision && x.status != OFFLINE
  }

  predicate Stale(ledger: Ledger, req: Request, x: Instance) {
    var k := IdentityKey(x);
    k in ledger && Superseded(ledger[k], Revision(x, req.trigger)) && !Heals(req, ledger[k], x)
  }

  /** The items that are not stale, in order. */
  function Fresh(ledger: Ledger, req: Request, items: seq<Instance>): seq<Instance> {
    if items == [] then []
    else
      var rest := Fresh(ledger, req, items[..|items| - 1]);
      var last := items[|items| - 1];
      if Stale(ledger, req, last) then rest else rest + [last]
  }

  /** One mark per identity; a later item of the same identity replaces an earlier one. */
  function MarksOf(items: seq<Instance>, trigger: int): Ledger {
    if items == [] then map[]
    else
      var last := items[|items| - 1];
      MarksOf(items[..|items| - 1], trigger)[IdentityKey(last) := MarkOf(last, trigger)]
  }

  predicate CoversLive(ledger: Ledger, keys: set<Key>) {
    forall k :: k in ledger && !ledger[k].tombstone ==> k in keys
  }

  /** The admission rule, stated over the whole request at once. */
  function Check(ledger: Ledger, req: Request): Verdict {
    var present := Present(req.items);
    if req.full && !DistinctKeys(present) then Refuse(DuplicateIdentity)
    else if req.full && !req.trusted && !CoversLive(ledger, KeysOf(present)) then Refuse(StaleFullPush)
    else if req.full && exists x :: x in present && Stale(ledger, req, x) then Refuse(StaleFullPush)
    else
      var kept := Fresh(ledger, req, present);
      if kept == [] && req.items != [] then Skip
      else Forward(kept, MarksOf(kept, req.trigger), if req.full then KeysOf(present) else {})
  }

  /** A live identity that a trusted snapshot omits is retired, but under an
      explicit scope only if it was last recorded under that scope. */
  predicate Retires(ledger: Ledger, scopes: Scopes, req: Request, seen: set<Key>, k: Key)
    requires k in ledger
  {
    req.full && req.trusted && !ledger[k].tombstone && k !in seen &&
    (req.scope == "" || (k in scopes && scopes[k] == req.scope))
  }

  function Committed(ledger: Ledger, scopes: Scopes, req: Request, marks: Ledger, seen: set<Key>): Ledger {
    map k | k in ledger.Keys + marks.Keys ::
      if k in marks then marks[k]
      else if Retires(ledger, scopes, req, seen, k) then Mark(ledger[k].revision, true)
      else ledger[k]
  }

  function Recorded(scopes: Scopes, req: Request, marks: Ledger): Scopes {
    if req.scope == "" then scopes
    else map k | k in scopes.Keys + marks.Keys :: if k in marks then req.scope else scopes[k]
  }

  /** The state the gate protects. Closing it drops the ledger. */
  datatype Gate = Gate(latest: Ledger, scopes: Scopes, closed: bool)

  /** One push with the gate held throughout; `innerOk` is the inner sink's answer. */
  function Run(g: Gate, req: Request, innerOk: bool): (Gate, Outcome) {
    if g.closed then (g, Refused(Closed))
    else
      match Check(g.latest, req)
      case Refuse(reason) => (g, Refused(reason))
      case Skip => (g, Nothing)
      case Forward(payload, marks, seen) =>
        if innerOk then
          (Gate(Committed(g.latest, g.scopes, req, marks, seen), Recorded(g.scopes, req, marks), false),
            Delivered(payload))
        else (g, Failed(payload))
  }

  // ---------------------------------------------------------------- entry points

  datatype Call =
    | Push(trigger: int, items: Items)
    | PushAll(trigger: int, items: Items)
    | PushAllWithRevalidate(trigger: int, items: Items, revalidates: bool)
    | PushAllOperation(trigger: int, items: Items, revalidates: bool, scope: string, emptyConfirmed: bool)
    | Close

  /** The request a call makes once its revalidation has answered (`None`: the
      snapshot is no longer valid). `None` means the call ends without a push. */
  function Resolve(call: Call, answer: Option<Items>): Option<Request> {
    match call
    case Close => None
    case Push(trigger, items) => Some(Request(trigger, items, false, false, false, ""))
    case PushAll(trigger, items) => Some(Request(trigger, items, true, false, false, ""))
    case PushAllWithRevalidate(trigger, items, revalidates) =>
      if !revalidates then Some(Request(trigger, items, true, true, false, ""))
      else if answer.None? then None
      else Some(Request(trigger, answer.value, true, true, true, ""))
    case PushAllOperation(trigger, items, revalidates, scope, emptyConfirmed) =>
      if revalidates && answer.None? then None
      else
        var snapshot := if revalidates then answer.value else items;
        if scope != "" && snapshot == [] && !emptyConfirmed then None
        else Some(Request(trigger, snapshot, true, scope != "", revalidates, scope))
  }

  /** The call asks the producer for a fresh snapshot before it pushes. */
  predicate Revalidates(call: Call) {
    (call.PushAllWithRevalidate? || call.PushAllOperation?) && call.revalidates
  }

  /** What a call that goes on to push asks for, field by field. A revalidated call pushes the answer and
      ends without one; an explicit scope makes a typed operation a trusted one, and an empty snapshot of
      such an operation needs a confirmation. */
  predicate Asks(call: Call, answer: Option<Items>, req: Request) {
    && !call.Close?
    && req.trigger == call.trigger
    && (if Revalidates(call) then answer == Some(req.items) else req.items == call.items)
    && (req.full <==> !call.Push?)
    && (req.trusted <==> call.PushAllWithRevalidate? || (call.PushAllOperation? && call.scope != ""))
    && (req.revalidated <==> Revalidates(call))
    && req.scope == (if call.PushAllOperation? then call.scope else "")
    && !(call.PushAllOperation? && call.scope != "" && req.items == [] && !call.emptyConfirmed)
  }

  lemma ResolveIsExact(call: Call, answer: Option<Items>, req: Request)
    ensures Resolve(call, answer) == Some(req) <==> Asks(call, answer, req)
  {
  }

  // ---------------------------------------------------------------- the single pass

  /** What the pass has gathered after `items`. */
  ghost predicate ScanIs(ledger: Ledger, req: Request, items: seq<Instance>,
                         filtered: seq<Instance>, accepted: Ledger, seen: set<Key>, stale: bool)
  {
    && filtered == Fresh(ledger, req, items)
    && accepted == MarksOf(filtered, req.trigger)
    && seen == (if req.full then KeysOf(items) else {})
    && (req.full ==> DistinctKeys(items))
    && (stale <==> AnyStale(ledger, req, items))
  }

  ghost predicate AnyStale(ledger: Ledger, req: Request, items: seq<Instance>) {
    exists x :: x in items && Stale(ledger, req, x)
  }

  lemma StaleExtends(ledger: Ledger, req: Request, items: seq<Instance>, x: Instance)
    ensures AnyStale(ledger, req, items + [x]) <==> AnyStale(ledger, req, items) || Stale(ledger, req, x)
  {
    if AnyStale(ledger, req, items) {
      var y :| y in items && Stale(ledger, req, y);
      assert y in items + [x];
    }
    assert x in items + [x];
  }

  function Noticed(req: Request, seen: set<Key>, x: Instance): set<Key> {
    if req.full then seen + {IdentityKey(x)} else seen
  }

  /** The pass drops a stale item and remembers that there was one. */
  lemma ScanDrops(ledger: Ledger, req: Request, items: seq<Instance>, x: Instance,
                  filtered: seq<Instance>, accepted: Ledger, seen: set<Key>, stale: bool)
    requires ScanIs(ledger, req, items, filtered, accepted, seen, stale)
    requires (req.full ==> IdentityKey(x) !in seen) && Stale(ledger, req, x)
    ensures ScanIs(ledger, req, items + [x], filtered, accepted, Noticed(req, seen, x), true)
  {
    ScanSees(items, x);
    StaleExtends(ledger, req, items, x);
    if req.full {
      DistinctExtends(items, x);
    }
  }

  lemma ScanKeeps(ledger: Ledger, req: Request, items: seq<Instance>, x: Instance,
                  filtered: seq<Instance>, accepted: Ledger, seen: set<Key>, stale: bool)
    requires ScanIs(ledger, req, items, filtered, accepted, seen, stale)
    requires (req.full ==> IdentityKey(x) !in seen) && !Stale(ledger, req, x)
    ensures ScanIs(ledger, req, items + [x], filtered + [x],
                   accepted[IdentityKey(x) := MarkOf(x, req.trigger)], Noticed(req, seen, x), stale)
  {
    ScanSees(items, x);
    StaleExtends(ledger, req, items, x);
    assert (filtered + [x])[..|filtered|] == filtered;
    if req.full {
      DistinctExtends(items, x);
    }
  }

  lemma ScanSees(items: seq<Instance>, x: Instance)
    ensures (items + [x])[..|items|] == items
    ensures KeysOf(items + [x]) == KeysOf(items) + {IdentityKey(x)}
  {
  }

  lemma DistinctExtends(items: seq<Instance>, x: Instance)
    requires DistinctKeys(items) && IdentityKey(x) !in KeysOf(items)
    ensures DistinctKeys(items + [x])
  {
    forall i | 0 <= i < |items|
      ensures IdentityKey(items[i]) != IdentityKey(x)
    {
      assert items[i] in items;
    }
  }

  /** Recording one more accepted identity, in the ledger and in the scope table. */
  lemma OneMoreMark(ledger: Ledger, scopes: Scopes, req: Request, marks: Ledger, rest: set<Key>, key: Key)
    requires key in rest && rest <= marks.Keys
    ensures (ledger + (marks - rest))[key := marks[key]] == ledger + (marks - (rest - {key}))
    ensures Recorded(scopes, req, marks - (rest - {key})) ==
            if req.scope == "" then scopes else Recorded(scopes, req, marks - rest)[key := req.scope]
  {
    var more := marks - (rest - {key});
    assert more == (marks - rest)[key := marks[key]];
    if req.scope != "" {
      assert Recorded(scopes, req, more).Keys == Recorded(scopes, req, marks - rest)[key := req.scope].Keys;
    }
  }

  // ---------------------------------------------------------------- the gate object

  class OrderedSink {
    var latest: Ledger
    var identityScope: Scopes
    var closed: bool

    constructor ()
      ensures latest == map[] && identityScope == map[] && !closed
    {
      latest, identityScope, closed := map[], map[], false;
    }

    function State(): Gate
      reads this
    {
      Gate(latest, identityScope, closed)
    }

    /** The single pass over the snapshot. */
    method Scan(req: Request)
      returns (duplicate: bool, filtered: seq<Instance>, accepted: Ledger, seen: set<Key>, stale: bool)
      ensures duplicate ==> req.full && !DistinctKeys(Present(req.items))
      ensures !duplicate ==> ScanIs(latest, req, Present(req.items), filtered, accepted, seen, stale)
    {
      duplicate, filtered, accepted, seen, stale := false, [], map[], {}, false;
      for i := 0 to |req.items|
        invariant !duplicate && ScanIs(latest, req, Present(req.items[..i]), filtered, accepted, seen, stale)
      {
        assert req.items[..i + 1][..i] == req.items[..i];
        if req.items[i].None? {
          continue;
        }
        var item := req.items[i].value;
        var key := IdentityKey(item);
        if req.full && key in seen {
          RepeatedKey(req.items, i);
          return true, [], map[], {}, false;
        }
        ghost var before := seen;
        if req.full {
          seen := seen + {key};
        }
        if key in latest && Superseded(latest[key], Revision(item, req.trigger)) && !Heals(req, latest[key], item) {
          ScanDrops(latest, req, Present(req.items[..i]), item, filtered, accepted, before, stale);
          stale := true;
          continue;
        }
        ScanKeeps(latest, req, Present(req.items[..i]), item, filtered, accepted, before, stale);
        accepted := accepted[key := MarkOf(item, req.trigger)];
        filtered := filtered + [item];
      }
      assert req.items[..|req.items|] == req.items;
    }

    /** Whether the snapshot names every live identity of the ledger. */
    method CoversLedger(seen: set<Key>) returns (covers: bool)
      ensures covers == CoversLive(latest, seen)
    {
      var rest := latest.Keys;
      while rest != {}
        invariant rest <= latest.Keys
        invariant forall k :: k in latest && k !in rest && !latest[k].tombstone ==> k in seen
        decreases rest
      {
        var key :| key in rest;
        rest := rest - {key};
        if !latest[key].tombstone && key !in seen {
          return false;
        }
      }
      return true;
    }

    method Admit(req: Request) returns (verdict: Verdict)
      ensures verdict == Check(latest, req)
    {
      var duplicate, filtered, accepted, seen, stale := Scan(req);
      if duplicate {
        return Refuse(DuplicateIdentity);
      }
      if req.full && !req.trusted {
        var covers := CoversLedger(seen);
        if !covers {
          return Refuse(StaleFullPush);
        }
      }
      if req.full && stale {
        return Refuse(StaleFullPush);
      }
      if |filtered| == 0 && |req.items| != 0 {
        return Skip;
      }
      return Forward(filtered, accepted, seen);
    }

    /** Tombstones the live identities a trusted snapshot omits. */
    method RetireAbsent(req: Request, seen: set<Key>)
      requires req.full && req.trusted
      modifies `latest
      ensures latest == Committed(old(latest), identityScope, req, map[], seen)
    {
      var rest := latest.Keys;
      while rest != {}
        invariant rest <= latest.Keys == old(latest).Keys
        invariant forall k :: k in latest ==>
          latest[k] == if k !in rest && Retires(old(latest), identityScope, req, seen, k)
                       then Mark(old(latest)[k].revision, true) else old(latest)[k]
        decreases rest
      {
        var key :| key in rest;
        rest := rest - {key};
        var state := latest[key];
        if state.tombstone {
          continue;
        }
        if req.scope != "" && !(key in identityScope && identityScope[key] == req.scope) {
          continue;
        }
        if key !in seen {
          latest := latest[key := Mark(state.revision, true)];
        }
      }
    }

    /** Records the carried identities, and their scope when one is explicit. */
    method RecordAccepted(req: Request, accepted: Ledger)
      modifies `latest, `identityScope
      ensures latest == old(latest) + accepted
      ensures identityScope == Recorded(old(identityScope), req, accepted)
    {
      var rest := accepted.Keys;
      while rest != {}
        invariant rest <= accepted.Keys
        invariant latest == old(latest) + (accepted - rest)
        invariant identityScope == Recorded(old(identityScope), req, accepted - rest)
        decreases rest
      {
        var key :| key in rest;
        OneMoreMark(old(latest), old(identityScope), req, accepted, rest, key);
        rest := rest - {key};
        latest := latest[key := accepted[key]];
        if req.scope != "" {
          identityScope := identityScope[key := req.scope];
        }
      }
      assert accepted - {} == accepted;
    }

    /** Records a push the inner sink acknowledged. */
    method Commit(req: Request, accepted: Ledger, seen: set<Key>)
      modifies this
      ensures latest == Committed(old(latest), old(identityScope), req, accepted, seen)
      ensures identityScope == Recorded(old(identityScope), req, accepted)
      ensures closed == old(closed)
    {
      if req.full && req.trusted {
        RetireAbsent(req, seen);
      }
      RecordAccepted(req, accepted);
    }

    method RunLocked(req: Request, innerOk: bool) returns (out: Outcome)
      modifies this
      ensures (State(), out) == Run(old(State()), req, innerOk)
    {
      if closed {
        return Refused(Closed);
      }
      var verdict := Admit(req);
      match verdict {
        case Refuse(reason) => return Refused(reason);
        case Skip => return Nothing;
        case Forward(payload, marks, seen) =>
          if innerOk {
            Commit(req, marks, seen);
            return Delivered(payload);
          }
          return Failed(payload);
      }
    }

    /** Push, PushAll, PushAllWithRevalidate and PushAllOperation. A closed gate
        refuses before it asks the producer to revalidate. */
    method Invoke(call: Call, answer: Option<Items>, innerOk: bool) returns (out: Outcome)
      requires !call.Close?
      modifies this
      ensures old(closed) ==> out == Refused(Closed) && State() == old(State())
      ensures !old(closed) ==> forall req :: Asks(call, answer, req) ==>
        (State(), out) == Run(old(State()), req, innerOk)
      ensures !old(closed) && (forall req :: !Asks(call, answer, req)) ==> out == Nothing && State() == old(State())
    {
      if closed {
        return Refused(Closed);
      }
      var req := Resolve(call, answer);
      forall r
        ensures Resolve(call, answer) == Some(r) <==> Asks(call, answer, r)
      {
        ResolveIsExact(call, answer, r);
      }
      if req.None? {
        return Nothing;
      }
      assert Asks(call, answer, req.value);
      out := RunLocked(req.value, innerOk);
    }

    method Shut()
      modifies this
      ensures closed
      ensures old(closed) ==> State() == old(State())
      ensures !old(closed) ==> latest == map[] && identityScope == map[]
    {
      if !closed {
        closed, latest, identityScope := true, map[], map[];
      }
    }
  }

  // ---------------------------------------------------------------- what the check means

  lemma {:induction false} PresentPrefix(items: Items, i: nat)
    requires i <= |items|
    ensures Present(items[..i]) <= Present(items)
    decreases |items| - i
  {
    if i == |items| {
      assert items[..i] == items;
    } else {
      PresentPrefix(items, i + 1);
      assert items[..i + 1][..i] == items[..i];
    }
  }

  /** A key met twice while scanning is repeated in the whole snapshot. */
  lemma RepeatedKey(items: Items, i: nat)
    requires i < |items| && items[i].Some?
    requires IdentityKey(items[i].value) in KeysOf(Present(items[..i]))
    ensures !DistinctKeys(Present(items))
  {
    var before := Present(items[..i]);
    var j :| 0 <= j < |before| && IdentityKey(before[j]) == IdentityKey(items[i].value);
    assert items[..i + 1][..i] == items[..i];
    PresentPrefix(items, i + 1);
    var all := Present(items);
    assert all[|before|] == items[i].value && all[j] == before[j];
  }

  lemma {:induction false} FreshElements(ledger: Ledger, req: Request, items: seq<Instance>)
    ensures forall x :: x in Fresh(ledger, req, items) <==> x in items && !Stale(ledger, req, x)
    ensures (forall x :: x in items ==> !Stale(ledger, req, x)) ==> Fresh(ledger, req, items) == items
  {
    if items != [] {
      var prefix, last := items[..|items| - 1], items[|items| - 1];
      FreshElements(ledger, req, prefix);
      assert items == prefix + [last];
    }
  }

  /** Every recorded mark is the mark of some carried item, and every carried identity is recorded. */
  lemma {:induction false} MarksElements(items: seq<Instance>, trigger: int)
    ensures MarksOf(items, trigger).Keys == KeysOf(items)
    ensures forall k :: k in MarksOf(items, trigger) ==>
      exists x :: x in items && IdentityKey(x) == k && MarksOf(items, trigger)[k] == MarkOf(x, trigger)
  {
    if items != [] {
      var prefix, last := items[..|items| - 1], items[|items| - 1];
      MarksElements(prefix, trigger);
      assert items == prefix + [last];
      forall k | k in MarksOf(items, trigger)
        ensures exists x :: x in items && IdentityKey(x) == k && MarksOf(items, trigger)[k] == MarkOf(x, trigger)
      {
        if k == IdentityKey(last) {
          assert last in items;
        } else {
          var x :| x in prefix && IdentityKey(x) == k && MarksOf(prefix, trigger)[k] == MarkOf(x, trigger);
          assert x in items;
        }
      }
    }
  }

  /** A full push that gets through carries its whole snapshot, with distinct
      identities and nothing stale, and an untrusted one names every live identity. */
  lemma FullForwardIsExact(ledger: Ledger, req: Request)
    requires req.full && Check(ledger, req).Forward?
    ensures Check(ledger, req).payload == Present(req.items)
    ensures DistinctKeys(Present(req.items))
    ensures forall x :: x in Present(req.items) ==> !Stale(ledger, req, x)
    ensures Check(ledger, req).seen == Check(ledger, req).marks.Keys == KeysOf(Present(req.items))
    ensures !req.trusted ==> CoversLive(ledger, KeysOf(Present(req.items)))
  {
    FreshElements(ledger, req, Present(req.items));
    MarksElements(Present(req.items), req.trigger);
  }

  /** The marks a push would record never fall below the ledger, and leave a
      tombstone only by a larger revision or by healing. */
  ghost predicate Advances(ledger: Ledger, marks: Ledger, mayHeal: bool) {
    forall k :: k in marks && k in ledger ==>
      && marks[k].revision >= ledger[k].revision
      && (ledger[k].tombstone ==>
            marks[k].revision > ledger[k].revision || (mayHeal && !marks[k].tombstone))
  }

  lemma ForwardAdvances(ledger: Ledger, req: Request)
    requires Check(ledger, req).Forward?
    ensures Advances(ledger, Check(ledger, req).marks, req.full && req.trusted && req.revalidated)
    ensures Check(ledger, req).marks.Keys <= KeysOf(Present(req.items))
  {
    var present := Present(req.items);
    var kept := Fresh(ledger, req, present);
    FreshElements(ledger, req, present);
    MarksElements(kept, req.trigger);
    forall k | k in MarksOf(kept, req.trigger) && k in ledger
      ensures MarksOf(kept, req.trigger)[k].revision >= ledger[k].revision
      ensures ledger[k].tombstone ==>
        MarksOf(kept, req.trigger)[k].revision > ledger[k].revision ||
        (req.full && req.trusted && req.revalidated && !MarksOf(kept, req.trigger)[k].tombstone)
    {
      var x :| x in kept && IdentityKey(x) == k && MarksOf(kept, req.trigger)[k] == MarkOf(x, req.trigger);
      assert !Stale(ledger, req, x);
    }
  }

  /** Position `j` holds the last item of its identity. */
  predicate LastAt(items: seq<Instance>, j: nat) {
    j < |items| && forall m :: j < m < |items| ==> IdentityKey(items[m]) != IdentityKey(items[j])
  }

  /** That item is what is recorded: its revision, or the trigger's if it has none, as a removal iff it is offline. */
  lemma {:induction false} LastIsRecorded(items: seq<Instance>, trigger: int, j: nat)
    requires LastAt(items, j)
    ensures var x := items[j];
      && IdentityKey(x) in MarksOf(items, trigger)
      && MarksOf(items, trigger)[IdentityKey(x)] ==
           Mark(if x.reversion == 0 then trigger else x.reversion, x.status == OFFLINE)
    decreases |items|
  {
    var n := |items| - 1;
    if j < n {
      assert forall m :: j < m < n ==> items[..n][m] == items[m];
      LastIsRecorded(items[..n], trigger, j);
    }
  }

  // ---------------------------------------------------------------- when a push gets through

  /** The identity of the item is new to the ledger, or the item's revision (the trigger's if it has none)
      is larger than the recorded one, or it is the recorded one and the identity is live. */
  predicate InTime(ledger: Ledger, trigger: int, x: Instance) {
    var k, rev := IdentityKey(x), if x.reversion == 0 then trigger else x.reversion;
    k !in ledger || rev > ledger[k].revision || (rev == ledger[k].revision && !ledger[k].tombstone)
  }

  /** The item is not offline and brings a removed identity back at exactly the revision of its removal. */
  predicate Returns(ledger: Ledger, trigger: int, x: Instance) {
    var k, rev := IdentityKey(x), if x.reversion == 0 then trigger else x.reversion;
    k in ledger && ledger[k].tombstone && rev == ledger[k].revision && x.status != OFFLINE
  }

  lemma StaleMeans(ledger: Ledger, req: Request, x: Instance)
    ensures !Stale(ledger, req, x) <==>
      InTime(ledger, req.trigger, x) ||
      (req.full && req.trusted && req.revalidated && Returns(ledger, req.trigger, x))
  {
  }

  /** The fresh items keep their order, and exactly the stale ones are left out. */
  lemma {:induction false} FreshPositions(ledger: Ledger, req: Request, items: seq<Instance>) returns (at: seq<nat>)
    ensures Picked(items, at, Fresh(ledger, req, items))
    ensures forall i :: 0 <= i < |items| ==> (i in at <==> !Stale(ledger, req, items[i]))
  {
    if items == [] {
      at := [];
    } else {
      var n := |items| - 1;
      at := FreshPositions(ledger, req, items[..n]);
      assert items == items[..n] + [items[n]];
      PickMore(items[..n], at, Fresh(ledger, req, items[..n]), items[n]);
      forall i | 0 <= i < n
        ensures i in at <==> !Stale(ledger, req, items[i])
      {
        assert items[..n][i] == items[i];
      }
      if !Stale(ledger, req, items[n]) {
        at := at + [n];
      }
    }
  }

  /** An incremental push is never refused. It ends without a push when it has items, none of them in
      time, and is forwarded otherwise. */
  lemma PushAdmits(ledger: Ledger, req: Request)
    requires !req.full
    ensures Check(ledger, req) == Skip <==>
      req.items != [] && forall x :: x in Present(req.items) ==> !InTime(ledger, req.trigger, x)
    ensures Check(ledger, req) != Skip ==> Check(ledger, req).Forward?
  {
    var present := Present(req.items);
    FreshElements(ledger, req, present);
    forall x | x in present
      ensures x in Fresh(ledger, req, present) <==> InTime(ledger, req.trigger, x)
    {
      StaleMeans(ledger, req, x);
    }
    if Fresh(ledger, req, present) != [] {
      assert Fresh(ledger, req, present)[0] in present;
    }
  }

  /** It delivers exactly the items that are in time, in their order. */
  lemma PushDelivers(ledger: Ledger, req: Request) returns (at: seq<nat>)
    requires !req.full && Check(ledger, req).Forward?
    ensures Picked(Present(req.items), at, Check(ledger, req).payload)
    ensures forall i :: 0 <= i < |Present(req.items)| ==>
      (i in at <==> InTime(ledger, req.trigger, Present(req.items)[i]))
  {
    var present := Present(req.items);
    at := FreshPositions(ledger, req, present);
    forall i | 0 <= i < |present|
      ensures i in at <==> InTime(ledger, req.trigger, present[i])
    {
      StaleMeans(ledger, req, present[i]);
    }
  }

  /** The item may be part of a full push: it is in time, or a revalidated complete snapshot returns it. */
  predicate Fits(ledger: Ledger, req: Request, x: Instance) {
    InTime(ledger, req.trigger, x) || (req.trusted && req.revalidated && Returns(ledger, req.trigger, x))
  }

  predicate NamesEveryLive(ledger: Ledger, items: seq<Instance>) {
    forall k :: k in ledger && !ledger[k].tombstone ==> exists x :: x in items && IdentityKey(x) == k
  }

  /** A full push with two items of one identity is refused as such. Otherwise it is refused as stale
      when an untrusted snapshot leaves out a live identity or an item does not fit, and ends without a
      push when it consists of nil slots. In every other case it is forwarded. */
  lemma FullAdmits(ledger: Ledger, req: Request)
    requires req.full
    ensures var present := Present(req.items);
      var complete := req.trusted || NamesEveryLive(ledger, present);
      var fit := forall x :: x in present ==> Fits(ledger, req, x);
      && (Check(ledger, req) == Refuse(DuplicateIdentity) <==> !DistinctKeys(present))
      && (Check(ledger, req) == Refuse(StaleFullPush) <==> DistinctKeys(present) && !(complete && fit))
      && (Check(ledger, req) == Skip <==> complete && req.items != [] && present == [])
      && (Check(ledger, req).Forward? <==>
            DistinctKeys(present) && complete && fit && (req.items == [] || present != []))
  {
    var present := Present(req.items);
    FreshElements(ledger, req, present);
    forall x
      ensures !Stale(ledger, req, x) <==> Fits(ledger, req, x)
    {
      StaleMeans(ledger, req, x);
    }
    assert CoversLive(ledger, KeysOf(present)) <==> NamesEveryLive(ledger, present);
  }

  // ---------------------------------------------------------------- a repeated push

  lemma DistinctIsRecorded(items: seq<Instance>, trigger: int, x: Instance)
    requires DistinctKeys(items) && x in items
    ensures IdentityKey(x) in MarksOf(items, trigger)
    ensures MarksOf(items, trigger)[IdentityKey(x)] ==
      Mark(if x.reversion == 0 then trigger else x.reversion, x.status == OFFLINE)
  {
    var j :| 0 <= j < |items| && items[j] == x;
    LastIsRecorded(items, trigger, j);
  }

  /** What a forwarded full push records: its own items, live ones and all. */
  lemma FullPushSettles(g: Gate, req: Request)
    requires req.full && !g.closed && Check(g.latest, req).Forward?
    requires forall x :: x in Present(req.items) ==> x.status != OFFLINE
    ensures var g' := Run(g, req, true).0;
      && (forall x :: x in Present(req.items) ==> Fits(g'.latest, req, x))
      && (!req.trusted ==> NamesEveryLive(g'.latest, Present(req.items)))
  {
    var present, g' := Present(req.items), Run(g, req, true).0;
    FullForwardIsExact(g.latest, req);
    forall x | x in present
      ensures Fits(g'.latest, req, x)
    {
      DistinctIsRecorded(present, req.trigger, x);
    }
    if !req.trusted {
      forall k | k in g'.latest && !g'.latest[k].tombstone
        ensures exists x :: x in present && IdentityKey(x) == k
      {
        assert k in KeysOf(present);
      }
    }
  }

  lemma SecondCommit(g: Gate, req: Request, marks: Ledger, seen: set<Key>)
    requires req.full ==> seen == marks.Keys
    ensures var latest := Committed(g.latest, g.scopes, req, marks, seen);
      var scopes := Recorded(g.scopes, req, marks);
      && Committed(latest, scopes, req, marks, seen) == latest
      && Recorded(scopes, req, marks) == scopes
  {
    var latest := Committed(g.latest, g.scopes, req, marks, seen);
    var scopes := Recorded(g.scopes, req, marks);
    assert Committed(latest, scopes, req, marks, seen).Keys == latest.Keys;
    assert req.scope != "" ==> Recorded(scopes, req, marks).Keys == scopes.Keys;
  }

  /** An acknowledged full push without offline items is delivered again, whole, when it is repeated,
      and the repetition leaves the gate as it is. */
  lemma FullIsRedelivered(g: Gate, req: Request)
    requires req.full && Run(g, req, true).1.Delivered?
    requires forall x :: x in Present(req.items) ==> x.status != OFFLINE
    ensures var (g', out) := Run(g, req, true); Run(g', req, true) == (g', out)
  {
    var (g', out) := Run(g, req, true);
    FullPushSettles(g, req);
    FullAdmits(g.latest, req);
    FullAdmits(g'.latest, req);
    FullForwardIsExact(g.latest, req);
    FullForwardIsExact(g'.latest, req);
    assert Check(g'.latest, req) == Check(g.latest, req);
    SecondCommit(g, req, Check(g.latest, req).marks, Check(g.latest, req).seen);
  }

  /** What stays in time after the batch was recorded: of its own items those that are not older than the
      last of their identity, and nothing that was late before. */
  lemma PushSettles(g: Gate, req: Request, x: Instance)
    requires !req.full && !g.closed && Check(g.latest, req).Forward? && x in Present(req.items)
    requires forall y :: y in Present(req.items) ==> y.status != OFFLINE
    ensures var g' := Run(g, req, true).0;
      InTime(g'.latest, req.trigger, x) <==>
        && x in Check(g.latest, req).payload && IdentityKey(x) in g'.latest
        && (if x.reversion == 0 then req.trigger else x.reversion) >= g'.latest[IdentityKey(x)].revision
  {
    var g', payload, marks := Run(g, req, true).0, Check(g.latest, req).payload, Check(g.latest, req).marks;
    FreshElements(g.latest, req, Present(req.items));
    MarksElements(payload, req.trigger);
    ForwardAdvances(g.latest, req);
    StaleMeans(g.latest, req, x);
    if IdentityKey(x) in marks {
      var y :| y in payload && IdentityKey(y) == IdentityKey(x) && marks[IdentityKey(x)] == MarkOf(y, req.trigger);
    }
  }

  /** An acknowledged incremental push without offline items is delivered again when it is repeated: its items
      that are not older than the last of their identity, and all of them when the identities are distinct. */
  lemma PushIsRedelivered(g: Gate, req: Request)
    requires !req.full && Run(g, req, true).1.Delivered?
    requires forall x :: x in Present(req.items) ==> x.status != OFFLINE
    ensures var (g', out) := Run(g, req, true);
      && Run(g', req, true).1.Delivered?
      && (forall x :: x in Run(g', req, true).1.payload <==>
            && x in out.payload && IdentityKey(x) in g'.latest
            && (if x.reversion == 0 then req.trigger else x.reversion) >= g'.latest[IdentityKey(x)].revision)
      && (DistinctKeys(out.payload) ==> Run(g', req, true) == (g', out))
  {
    var (g', out) := Run(g, req, true);
    var present := Present(req.items);
    forall x | x in present
      ensures InTime(g'.latest, req.trigger, x) <==> StillNewest(g', req, out.payload, x)
    {
      PushSettles(g, req, x);
    }
    FreshElements(g.latest, req, present);
    if out.payload != [] {
      LastStaysInTime(g, req);
    }
    PushAdmits(g'.latest, req);
    RepeatedPayload(g', req, out.payload);
    if DistinctKeys(out.payload) {
      DistinctAgain(g, req);
    }
  }

  predicate StillNewest(g: Gate, req: Request, payload: seq<Instance>, x: Instance) {
    && x in payload && IdentityKey(x) in g.latest
    && (if x.reversion == 0 then req.trigger else x.reversion) >= g.latest[IdentityKey(x)].revision
  }

  lemma RepeatedPayload(g: Gate, req: Request, payload: seq<Instance>)
    requires !req.full && Check(g.latest, req).Forward? && forall x :: x in payload ==> x in Present(req.items)
    requires forall x :: x in Present(req.items) ==>
      (InTime(g.latest, req.trigger, x) <==> StillNewest(g, req, payload, x))
    ensures forall x :: x in Check(g.latest, req).payload <==> StillNewest(g, req, payload, x)
  {
    FreshElements(g.latest, req, Present(req.items));
    forall x
      ensures x in Check(g.latest, req).payload <==> StillNewest(g, req, payload, x)
    {
      StaleMeans(g.latest, req, x);
    }
  }

  lemma LastStaysInTime(g: Gate, req: Request)
    requires !req.full && Run(g, req, true).1.Delivered? && Run(g, req, true).1.payload != []
    requires forall x :: x in Present(req.items) ==> x.status != OFFLINE
    ensures exists x :: x in Present(req.items) && InTime(Run(g, req, true).0.latest, req.trigger, x)
  {
    var payload := Run(g, req, true).1.payload;
    var j := |payload| - 1;
    FreshElements(g.latest, req, Present(req.items));
    assert payload[j] in payload;
    LastIsRecorded(payload, req.trigger, j);
    assert InTime(Run(g, req, true).0.latest, req.trigger, payload[j]);
  }

  lemma {:induction false} SameFresh(a: Ledger, b: Ledger, req: Request, items: seq<Instance>)
    requires forall x :: x in items ==> (Stale(a, req, x) <==> Stale(b, req, x))
    ensures Fresh(a, req, items) == Fresh(b, req, items)
  {
    if items != [] {
      var n := |items| - 1;
      assert items[n] in items && forall x :: x in items[..n] ==> x in items;
      SameFresh(a, b, req, items[..n]);
    }
  }

  lemma DistinctAgain(g: Gate, req: Request)
    requires !req.full && Run(g, req, true).1.Delivered? && DistinctKeys(Run(g, req, true).1.payload)
    requires forall x :: x in Present(req.items) ==> x.status != OFFLINE
    ensures var (g', out) := Run(g, req, true); Run(g', req, true) == (g', out)
  {
    var (g', out) := Run(g, req, true);
    var present := Present(req.items);
    FreshElements(g.latest, req, present);
    forall x | x in present
      ensures Stale(g.latest, req, x) <==> Stale(g'.latest, req, x)
    {
      PushSettles(g, req, x);
      StaleMeans(g'.latest, req, x);
      if x in out.payload {
        DistinctIsRecorded(out.payload, req.trigger, x);
      }
    }
    SameFresh(g.latest, g'.latest, req, present);
    SecondCommit(g, req, Check(g.latest, req).marks, Check(g.latest, req).seen);
  }
}
