/** Every interleaving of callers on one gate (pkg/worker/fanout.go:265-528). The
    full gate is a readers-writer lock, incremental pushes additionally take one
    lock per identity in sorted order, and the check, the inner push and the
    commit are separate steps, so other callers run between them. */
module GateMachine {
  import opened Instances
  import opened KeyOrder
  import opened OrderedGate

  type Tid = nat

  /** Where a caller is. The shared states belong to incremental pushes, `Writing`
      to full pushes and Close; the rest to both. */
  datatype Pc =
    | Called
    | Reading                    // shared gate held, no key registered yet
    | Acquiring(held: nat)       // keys registered, the first `held` locked
    | Writing                    // exclusive gate held, snapshot not checked yet
    | InFlight(req: Request, payload: seq<Instance>, marks: Ledger, seen: set<Key>)
    | Acked(req: Request, payload: seq<Instance>, marks: Ledger, seen: set<Key>)
    | Releasing(held: nat)       // unlocking from the last key down
    | Unregistered               // lock table left, shared gate still held
    | Returned

  datatype Thread = Thread(call: Call, keys: seq<Key>, pc: Pc)

  datatype LockEntry = LockEntry(refs: nat, owner: Option<Tid>)

  datatype State = State(
    ledger: Ledger,
    scopes: Scopes,
    closed: bool,
    table: LockTable,
    readers: set<Tid>,
    writer: Option<Tid>,
    threads: map<Tid, Thread>)

  datatype Action =
    | Arrive(t: Tid, call: Call, keys: seq<Key>)
    | EnterShared(t: Tid)
    | RegisterKeys(t: Tid)
    | AcquireKey(t: Tid)
    | CheckShared(t: Tid)
    | EnterExclusive(t: Tid)
    | CheckExclusive(t: Tid, answer: Option<Items>)
    | Shut(t: Tid)
    | Acknowledge(t: Tid)
    | Reject(t: Tid)
    | CommitPush(t: Tid)
    | ReleaseKey(t: Tid)
    | UnregisterKeys(t: Tid)
    | LeaveShared(t: Tid)
    | LeaveExclusive(t: Tid)

  predicate Init(s: State) {
    s == State(map[], map[], false, map[], {}, None, map[])
  }

  // ---------------------------------------------------------------- steps

  predicate At(s: State, t: Tid) { t in s.threads }

  function PcOf(s: State, t: Tid): Pc
    requires At(s, t)
  { s.threads[t].pc }

  predicate Shared(th: Thread) { th.call.Push? }

  predicate Enabled(s: State, a: Action) {
    if a.Arrive? then
      a.t !in s.threads &&
      (if a.call.Push? then Sorted(a.keys) && SetOf(a.keys) == KeysOf(Present(a.call.items)) else a.keys == [])
    else
      && At(s, a.t)
      && var th := s.threads[a.t];
      match a
      case Arrive(_, _, _) => false
      case EnterShared(_) => Shared(th) && th.pc.Called? && s.writer.None?
      case RegisterKeys(_) => Shared(th) && th.pc.Reading?
      case AcquireKey(_) =>
        Shared(th) && th.pc.Acquiring? && th.pc.held < |th.keys| &&
        th.keys[th.pc.held] in s.table && s.table[th.keys[th.pc.held]].owner.None?
      case CheckShared(_) => Shared(th) && th.pc.Acquiring? && th.pc.held == |th.keys|
      case EnterExclusive(_) => !Shared(th) && th.pc.Called? && s.writer.None? && s.readers == {}
      case CheckExclusive(_, _) => !Shared(th) && !th.call.Close? && th.pc.Writing?
      case Shut(_) => th.call.Close? && th.pc.Writing?
      case Acknowledge(_) => th.pc.InFlight?
      case Reject(_) => th.pc.InFlight?
      case CommitPush(_) => th.pc.Acked?
      case ReleaseKey(_) =>
        Shared(th) && th.pc.Releasing? && 0 < th.pc.held <= |th.keys| && th.keys[th.pc.held - 1] in s.table
      case UnregisterKeys(_) => Shared(th) && th.pc.Releasing? && th.pc.held == 0
      case LeaveShared(_) => th.pc.Unregistered?
      case LeaveExclusive(_) => !Shared(th) && th.pc.Releasing?
  }

  function Goto(s: State, t: Tid, pc: Pc): State
    requires At(s, t)
  {
    s.(threads := s.threads[t := s.threads[t].(pc := pc)])
  }

  /** The verdict's next state: only a forwarded push leaves the gate. */
  function Decided(s: State, req: Request, held: nat): Pc {
    if s.closed then Releasing(held)
    else
      match Check(s.ledger, req)
      case Forward(payload, marks, seen) => InFlight(req, payload, marks, seen)
      case _ => Releasing(held)
  }

  type LockTable = map<Key, LockEntry>

  /** One more reference to each key, with entries made for keys nobody used. */
  function Referenced(table: LockTable, keys: seq<Key>): LockTable {
    map k | k in table.Keys + SetOf(keys) ::
      if k !in table then LockEntry(1, None)
      else if k in keys then table[k].(refs := table[k].refs + 1)
      else table[k]
  }

  /** One reference less to each key; an entry nobody refers to is deleted. */
  function Dereferenced(table: LockTable, keys: seq<Key>): LockTable {
    map k | k in table && !(k in keys && table[k].refs <= 1) ::
      if k in keys then table[k].(refs := table[k].refs - 1) else table[k]
  }

  function Do(s: State, a: Action): State
    requires Enabled(s, a)
  {
    match a
    case Arrive(t, call, keys) => s.(threads := s.threads[t := Thread(call, keys, Called)])
    case EnterShared(t) => Goto(s, t, Reading).(readers := s.readers + {t})
    case RegisterKeys(t) => Goto(s, t, Acquiring(0)).(table := Referenced(s.table, s.threads[t].keys))
    case AcquireKey(t) =>
      var k := s.threads[t].keys[s.threads[t].pc.held];
      Goto(s, t, Acquiring(s.threads[t].pc.held + 1)).(table := s.table[k := s.table[k].(owner := Some(t))])
    case CheckShared(t) =>
      Goto(s, t, Decided(s, Resolve(s.threads[t].call, None).value, |s.threads[t].keys|))
    case EnterExclusive(t) => Goto(s, t, Writing).(writer := Some(t))
    case CheckExclusive(t, answer) =>
      var resolved := Resolve(s.threads[t].call, answer);
      Goto(s, t, if resolved.None? then Releasing(0) else Decided(s, resolved.value, 0))
    case Shut(t) =>
      if s.closed then Goto(s, t, Releasing(0))
      else Goto(s, t, Releasing(0)).(closed := true, ledger := map[], scopes := map[], table := map[])
    case Acknowledge(t) =>
      var pc := PcOf(s, t);
      Goto(s, t, Acked(pc.req, pc.payload, pc.marks, pc.seen))
    case Reject(t) => Goto(s, t, Releasing(|s.threads[t].keys|))
    case CommitPush(t) =>
      var pc := PcOf(s, t);
      Goto(s, t, Releasing(|s.threads[t].keys|)).(
        ledger := Committed(s.ledger, s.scopes, pc.req, pc.marks, pc.seen),
        scopes := Recorded(s.scopes, pc.req, pc.marks))
    case ReleaseKey(t) =>
      var k := s.threads[t].keys[s.threads[t].pc.held - 1];
      Goto(s, t, Releasing(s.threads[t].pc.held - 1)).(table := s.table[k := s.table[k].(owner := None)])
    case UnregisterKeys(t) => Goto(s, t, Unregistered).(table := Dereferenced(s.table, s.threads[t].keys))
    case LeaveShared(t) => Goto(s, t, Returned).(readers := s.readers - {t})
    case LeaveExclusive(t) => Goto(s, t, Returned).(writer := None)
  }

  // ---------------------------------------------------------------- invariant

  predicate Pushing(th: Thread) { th.pc.InFlight? || th.pc.Acked? }

  /** The caller counts in the reference counts of its keys. */
  predicate Registered(th: Thread) {
    Shared(th) && (th.pc.Acquiring? || Pushing(th) || th.pc.Releasing?)
  }

  function HeldCount(th: Thread): nat {
    if !Shared(th) then 0
    else if th.pc.Acquiring? || th.pc.Releasing? then th.pc.held
    else if Pushing(th) then |th.keys|
    else 0
  }

  predicate Holds(th: Thread, k: Key) {
    exists i :: 0 <= i < HeldCount(th) && i < |th.keys| && th.keys[i] == k
  }

  predicate Inside(th: Thread) { !th.pc.Called? && !th.pc.Returned? }

  ghost predicate ThreadOk(th: Thread) {
    if Shared(th) then
      && Sorted(th.keys)
      && SetOf(th.keys) == KeysOf(Present(th.call.items))
      && !th.pc.Writing?
      && HeldCount(th) <= |th.keys|
    else
      && th.keys == []
      && !th.pc.Reading? && !th.pc.Acquiring? && !th.pc.Unregistered?
      && (th.pc.Releasing? ==> th.pc.held == 0)
      && (th.call.Close? ==> !Pushing(th))
  }

  ghost predicate GateOk(s: State) {
    && (forall t :: t in s.readers <==> At(s, t) && Shared(s.threads[t]) && Inside(s.threads[t]))
    && (forall t :: At(s, t) && !Shared(s.threads[t]) && Inside(s.threads[t]) <==> s.writer == Some(t))
    && (s.writer.Some? ==> s.readers == {})
  }

  /** The callers whose reference an entry counts: its holder and its waiters. */
  ghost function Users(s: State, k: Key): set<Tid> {
    set t | t in s.threads && Registered(s.threads[t]) && k in s.threads[t].keys
  }

  ghost predicate EntryOk(s: State, k: Key) {
    && (k in s.table <==> Users(s, k) != {})
    && (k in s.table ==>
          && s.table[k].refs == |Users(s, k)|
          && (forall t :: s.table[k].owner == Some(t) <==> At(s, t) && Holds(s.threads[t], k)))
  }

  ghost predicate TableOk(s: State) {
    forall k :: EntryOk(s, k)
  }

  /** What a push in flight may rely on: the check would still decide the same. */
  ghost predicate FlightOk(s: State, th: Thread) {
    Pushing(th) ==>
      && !s.closed
      && (exists answer :: Resolve(th.call, answer) == Some(th.pc.req))
      && Check(s.ledger, th.pc.req) == Forward(th.pc.payload, th.pc.marks, th.pc.seen)
  }

  // ---------------------------------------------------------------- every step keeps the invariant

  ghost predicate ThreadsOk(s: State) {
    forall t :: At(s, t) ==> ThreadOk(s.threads[t])
  }

  ghost predicate FlightsOk(s: State) {
    forall t :: At(s, t) ==> FlightOk(s, s.threads[t])
  }

  ghost predicate Inv(s: State) {
    ThreadsOk(s) && FlightsOk(s) && GateOk(s) && TableOk(s) && (s.closed ==> s.ledger == map[])
  }

  /** A step moves its own caller only. */
  lemma OthersStay(s: State, a: Action, u: Tid)
    requires Enabled(s, a)
    ensures At(Do(s, a), u) <==> At(s, u) || u == a.t
    ensures u != a.t && At(s, u) ==> Do(s, a).threads[u] == s.threads[u]
    ensures At(s, a.t) ==> Do(s, a).threads[a.t].keys == s.threads[a.t].keys
    ensures At(s, a.t) ==> Do(s, a).threads[a.t].call == s.threads[a.t].call
  {
  }

  lemma KeepsThreads(s: State, a: Action)
    requires ThreadsOk(s) && Enabled(s, a)
    ensures ThreadsOk(Do(s, a))
  {
    var s' := Do(s, a);
    forall u | At(s', u)
      ensures ThreadOk(s'.threads[u])
    {
      OthersStay(s, a, u);
      if At(s, u) {
        assert ThreadOk(s.threads[u]);
      }
    }
  }

  lemma KeepsGate(s: State, a: Action)
    requires ThreadsOk(s) && GateOk(s) && Enabled(s, a)
    ensures GateOk(Do(s, a))
  {
    var s' := Do(s, a);
    assert At(s, a.t) ==> ThreadOk(s.threads[a.t]);
    forall u
      ensures u in s'.readers <==> At(s', u) && Shared(s'.threads[u]) && Inside(s'.threads[u])
      ensures At(s', u) && !Shared(s'.threads[u]) && Inside(s'.threads[u]) <==> s'.writer == Some(u)
    {
      OthersStay(s, a, u);
    }
  }

  /** What the lock table sees of a caller. */
  ghost predicate SameInTable(th: Thread, th': Thread) {
    th'.keys == th.keys && Registered(th') == Registered(th) && HeldCount(th') == HeldCount(th)
  }

  /** A step the lock table does not notice. */
  lemma TableUntouched(s: State, s': State)
    requires TableOk(s) && s'.table == s.table
    requires forall u :: At(s, u) ==> At(s', u) && SameInTable(s.threads[u], s'.threads[u])
    requires forall u :: At(s', u) && !At(s, u) ==> !Registered(s'.threads[u]) && HeldCount(s'.threads[u]) == 0
    ensures TableOk(s')
  {
    forall k
      ensures EntryOk(s', k)
    {
      assert EntryOk(s, k);
      assert Users(s', k) == Users(s, k);
      assert forall u :: At(s', u) && Holds(s'.threads[u], k) <==> At(s, u) && Holds(s.threads[u], k);
    }
  }

  lemma HoldersAreUsers(s: State, k: Key, u: Tid)
    requires At(s, u) && Holds(s.threads[u], k)
    ensures u in Users(s, k)
  {
  }

  /** A caller that keeps its keys and locks leaves every key's holder as it was. */
  lemma SameHolders(s: State, s': State, t: Tid, k: Key)
    requires At(s, t) && At(s', t) && s'.threads == s.threads[t := s'.threads[t]]
    requires s'.threads[t].keys == s.threads[t].keys && HeldCount(s'.threads[t]) == HeldCount(s.threads[t])
    ensures forall u :: At(s', u) && Holds(s'.threads[u], k) <==> At(s, u) && Holds(s.threads[u], k)
  {
  }

  lemma RegisterUsers(s: State, s': State, t: Tid, k: Key)
    requires At(s, t) && At(s', t) && s'.threads == s.threads[t := s'.threads[t]]
    requires s'.threads[t].keys == s.threads[t].keys
    requires !Registered(s.threads[t]) && Registered(s'.threads[t])
    ensures t !in Users(s, k)
    ensures Users(s', k) == if k in s.threads[t].keys then Users(s, k) + {t} else Users(s, k)
  {
  }

  lemma RegisterEntry(s: State, s': State, t: Tid, k: Key)
    requires EntryOk(s, k)
    requires At(s, t) && Shared(s.threads[t]) && s.threads[t].pc.Reading?
    requires s'.table == Referenced(s.table, s.threads[t].keys)
    requires s'.threads == s.threads[t := s.threads[t].(pc := Acquiring(0))]
    ensures EntryOk(s', k)
  {
    forall u | At(s, u) && Holds(s.threads[u], k)
      ensures k in s.table
    {
      HoldersAreUsers(s, k, u);
    }
    RegisterUsers(s, s', t, k);
    SameHolders(s, s', t, k);
  }

  lemma UnregisterEntry(s: State, s': State, t: Tid, k: Key)
    requires EntryOk(s, k)
    requires At(s, t) && Shared(s.threads[t]) && s.threads[t].pc == Releasing(0)
    requires s'.table == Dereferenced(s.table, s.threads[t].keys)
    requires s'.threads == s.threads[t := s.threads[t].(pc := Unregistered)]
    ensures EntryOk(s', k)
  {
    assert s.threads == s'.threads[t := s.threads[t]];
    RegisterUsers(s', s, t, k);
    if k in s.threads[t].keys {
      assert |Users(s, k)| == |Users(s', k)| + 1;
    }
    SameHolders(s, s', t, k);
  }

  lemma AcquireKeepsTable(s: State, t: Tid)
    requires TableOk(s) && Enabled(s, AcquireKey(t))
    ensures TableOk(Do(s, AcquireKey(t)))
  {
    var s' := Do(s, AcquireKey(t));
    var key := s.threads[t].keys[s.threads[t].pc.held];
    forall k
      ensures EntryOk(s', k)
    {
      assert EntryOk(s, k);
      assert Users(s', k) == Users(s, k);
      forall u
        ensures At(s', u) && Holds(s'.threads[u], k) <==>
                (At(s, u) && Holds(s.threads[u], k)) || (u == t && k == key)
      {
        if u == t && k == key {
          assert s'.threads[t].keys[s.threads[t].pc.held] == key;
        }
      }
    }
  }

  lemma ReleaseHolders(s: State, s': State, t: Tid, k: Key)
    requires At(s, t) && Shared(s.threads[t]) && Sorted(s.threads[t].keys)
    requires s.threads[t].pc.Releasing? && 0 < s.threads[t].pc.held <= |s.threads[t].keys|
    requires s'.threads == s.threads[t := s.threads[t].(pc := Releasing(s.threads[t].pc.held - 1))]
    ensures forall u :: At(s', u) && Holds(s'.threads[u], k) <==>
      At(s, u) && Holds(s.threads[u], k) && !(u == t && k == s.threads[t].keys[s.threads[t].pc.held - 1])
  {
    var th := s.threads[t];
    var last := th.pc.held - 1;
    if k == th.keys[last] && Holds(s'.threads[t], k) {
      var i :| 0 <= i < last && th.keys[i] == k;
      SortedIsDistinct(th.keys, i, last);
    }
  }

  lemma ReleaseEntry(s: State, s': State, t: Tid, k: Key)
    requires EntryOk(s, k)
    requires At(s, t) && Shared(s.threads[t]) && Sorted(s.threads[t].keys)
    requires s.threads[t].pc.Releasing? && 0 < s.threads[t].pc.held <= |s.threads[t].keys|
    requires var key := s.threads[t].keys[s.threads[t].pc.held - 1];
             key in s.table && s'.table == s.table[key := s.table[key].(owner := None)]
    requires s'.threads == s.threads[t := s.threads[t].(pc := Releasing(s.threads[t].pc.held - 1))]
    ensures EntryOk(s', k)
  {
    var th := s.threads[t];
    if k == th.keys[th.pc.held - 1] {
      assert Holds(th, k);
    }
    assert Users(s', k) == Users(s, k);
    ReleaseHolders(s, s', t, k);
  }

  /** With the exclusive gate held nobody is registered, so the table dropped by Close was empty. */
  lemma ShutKeepsTable(s: State, t: Tid)
    requires GateOk(s) && TableOk(s) && Enabled(s, Shut(t))
    ensures TableOk(Do(s, Shut(t)))
  {
    var s' := Do(s, Shut(t));
    assert s.writer == Some(t);
    assert forall u :: At(s, u) && Shared(s.threads[u]) ==> u !in s.readers;
    forall k
      ensures EntryOk(s', k)
    {
      assert EntryOk(s, k);
      assert Users(s', k) == Users(s, k) == {};
    }
  }

  predicate TouchesTable(a: Action) {
    a.RegisterKeys? || a.UnregisterKeys? || a.AcquireKey? || a.ReleaseKey? || a.Shut?
  }

  lemma QuietStep(s: State, a: Action, u: Tid)
    requires ThreadsOk(s) && Enabled(s, a) && !TouchesTable(a)
    ensures Do(s, a).table == s.table
    ensures At(s, u) ==> At(Do(s, a), u) && SameInTable(s.threads[u], Do(s, a).threads[u])
    ensures At(Do(s, a), u) && !At(s, u) ==>
      !Registered(Do(s, a).threads[u]) && HeldCount(Do(s, a).threads[u]) == 0
  {
    OthersStay(s, a, u);
    assert At(s, u) ==> ThreadOk(s.threads[u]);
  }

  lemma KeepsTable(s: State, a: Action)
    requires ThreadsOk(s) && GateOk(s) && TableOk(s) && Enabled(s, a)
    ensures TableOk(Do(s, a))
  {
    var s' := Do(s, a);
    if TouchesTable(a) {
      match a
      case RegisterKeys(t) =>
        forall k ensures EntryOk(s', k) {
          RegisterEntry(s, s', t, k);
        }
      case UnregisterKeys(t) =>
        forall k ensures EntryOk(s', k) {
          UnregisterEntry(s, s', t, k);
        }
      case AcquireKey(t) => AcquireKeepsTable(s, t);
      case ReleaseKey(t) =>
        assert ThreadOk(s.threads[t]);
        forall k ensures EntryOk(s', k) {
          ReleaseEntry(s, s', t, k);
        }
      case Shut(t) => ShutKeepsTable(s, t);
    } else {
      forall u
        ensures At(s, u) ==> At(s', u) && SameInTable(s.threads[u], s'.threads[u])
        ensures At(s', u) && !At(s, u) ==> !Registered(s'.threads[u]) && HeldCount(s'.threads[u]) == 0
      {
        QuietStep(s, a, u);
      }
      QuietStep(s, a, a.t);
      TableUntouched(s, s');
    }
  }

  /** Two callers with a push outstanding are both incremental, and share no identity. */
  lemma PushesAreDisjoint(s: State, t: Tid, u: Tid)
    requires GateOk(s) && TableOk(s) && t != u
    requires At(s, t) && Pushing(s.threads[t]) && At(s, u) && Pushing(s.threads[u])
    ensures Shared(s.threads[t]) && Shared(s.threads[u])
    ensures forall k :: k in s.threads[t].keys ==> k !in s.threads[u].keys
  {
    assert Inside(s.threads[t]) && Inside(s.threads[u]);
    forall k | k in s.threads[t].keys
      ensures k !in s.threads[u].keys
    {
      if k in s.threads[u].keys {
        assert EntryOk(s, k);
        assert Holds(s.threads[t], k) && Holds(s.threads[u], k);
        HoldersAreUsers(s, k, t);
      }
    }
  }

  lemma CheckedFlight(ledger: Ledger, req: Request)
    requires Check(ledger, req).Forward?
    ensures Check(ledger, req).marks == MarksOf(Check(ledger, req).payload, req.trigger)
    ensures forall x :: x in Check(ledger, req).payload ==> x in Present(req.items) && !Stale(ledger, req, x)
  {
    FreshElements(ledger, req, Present(req.items));
  }

  /** A push in flight carries only identities its caller has locked. */
  lemma FlightKeys(s: State, t: Tid)
    requires At(s, t) && ThreadOk(s.threads[t]) && FlightOk(s, s.threads[t])
    requires Pushing(s.threads[t]) && Shared(s.threads[t])
    ensures KeysOf(s.threads[t].pc.payload) == s.threads[t].pc.marks.Keys <= SetOf(s.threads[t].keys)
    ensures KeysOf(Present(s.threads[t].pc.req.items)) == SetOf(s.threads[t].keys)
    ensures !s.threads[t].pc.req.full
  {
    var th := s.threads[t];
    CheckedFlight(s.ledger, th.pc.req);
    MarksElements(th.pc.payload, th.pc.req.trigger);
    assert KeysOf(th.pc.payload) <= KeysOf(Present(th.pc.req.items));
  }

  lemma {:induction false} FreshLocal(ledger: Ledger, after: Ledger, req: Request, items: seq<Instance>)
    requires forall x :: x in items ==> Stale(after, req, x) == Stale(ledger, req, x)
    ensures Fresh(after, req, items) == Fresh(ledger, req, items)
  {
    if items != [] {
      FreshLocal(ledger, after, req, items[..|items| - 1]);
    }
  }

  /** The check of an incremental push looks only at the identities it carries. */
  lemma CheckLocal(ledger: Ledger, after: Ledger, req: Request)
    requires !req.full
    requires forall k :: k in KeysOf(Present(req.items)) ==>
      (k in after <==> k in ledger) && (k in ledger ==> after[k] == ledger[k])
    ensures Check(after, req) == Check(ledger, req)
  {
    forall x | x in Present(req.items)
      ensures Stale(after, req, x) == Stale(ledger, req, x)
    {
      assert IdentityKey(x) in KeysOf(Present(req.items));
    }
    FreshLocal(ledger, after, req, Present(req.items));
  }

  lemma CommitKeepsOther(s: State, t: Tid, u: Tid)
    requires ThreadsOk(s) && FlightsOk(s) && GateOk(s) && TableOk(s) && t != u
    requires At(s, t) && s.threads[t].pc.Acked? && At(s, u) && Pushing(s.threads[u])
    ensures var pc := s.threads[t].pc;
      FlightOk(s.(ledger := Committed(s.ledger, s.scopes, pc.req, pc.marks, pc.seen)), s.threads[u])
  {
    PushesAreDisjoint(s, t, u);
    FlightKeys(s, t);
    FlightKeys(s, u);
    var pc := s.threads[t].pc;
    CheckLocal(s.ledger, Committed(s.ledger, s.scopes, pc.req, pc.marks, pc.seen), s.threads[u].pc.req);
  }

  lemma KeepsOwnFlight(s: State, a: Action)
    requires ThreadsOk(s) && FlightsOk(s) && Enabled(s, a)
    ensures FlightOk(Do(s, a), Do(s, a).threads[a.t])
  {
    if At(s, a.t) {
      assert ThreadOk(s.threads[a.t]) && FlightOk(s, s.threads[a.t]);
    }
  }

  lemma KeepsFlights(s: State, a: Action)
    requires Inv(s) && Enabled(s, a)
    ensures FlightsOk(Do(s, a))
  {
    var s' := Do(s, a);
    forall u | At(s', u)
      ensures FlightOk(s', s'.threads[u])
    {
      OthersStay(s, a, u);
      if u == a.t {
        KeepsOwnFlight(s, a);
      } else if Pushing(s.threads[u]) {
        assert FlightOk(s, s.threads[u]) && ThreadOk(s.threads[u]);
        if a.CommitPush? {
          CommitKeepsOther(s, a.t, u);
        } else if a.Shut? {
          assert s.writer == Some(a.t) && Inside(s.threads[u]);
          assert false;
        }
      }
    }
  }

  lemma KeepsInv(s: State, a: Action)
    requires Inv(s) && Enabled(s, a)
    ensures Inv(Do(s, a))
  {
    KeepsThreads(s, a);
    KeepsGate(s, a);
    KeepsTable(s, a);
    KeepsFlights(s, a);
    if a.CommitPush? {
      assert FlightOk(s, s.threads[a.t]) && ThreadOk(s.threads[a.t]);
    }
  }
}
