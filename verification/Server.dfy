/** Leadership and provider start-up (internal/server.go) as a state machine: the main loop, the
    caller of Stop, and the start goroutines, which the lifecycle mutex admits one at a time.
    Every step is one critical section of the server's own mutex or one call outside it. */
module Server {
  import opened Instances

  /** A stored stop function: the attempt's bare context cancel, or its whole cleanup. */
  datatype Handle = Handle(attempt: nat, cleanup: bool)

  datatype Starter =
    | Idle                        // nobody holds the lifecycle mutex
    | StopFirst
    | StopCalling(handle: Option<Handle>)
    | Begin
    | Dialling(g: nat)
    | ClearFirst(g: nat)          // failed before anything had to be closed: clear, then cancel
    | CancelOnly(g: nat)
    | Building(g: nat)
    | Cleaning(g: nat)            // failed later: cleanup, then clear
    | Clearing(g: nat)
    | Installing(g: nat)
    | Losing(g: nat)              // the installation check failed: cleanup, clear nothing
    | Running(g: nat)
    | Finishing(g: nat)           // every provider returned: cleanup, then clear

  datatype Loop = Waiting | Stopping(final: bool) | Calling(handle: Option<Handle>, final: bool) | Ended

  datatype Stopper = Unused | Cancelling(handle: Option<Handle>) | Closing | Closed

  /** `begun`, `built`, `cancelled` and `closes` are history: attempts that got a generation, that
      acquired resources, whose context is cancelled, and the order in which resources were closed. */
  datatype State = State(
    leader: bool, stopped: bool, generation: nat, handle: Option<Handle>, providers: Option<nat>,
    queued: nat, starter: Starter, loop: Loop, stopper: Stopper,
    begun: set<nat>, built: set<nat>, cancelled: set<nat>, closes: seq<nat>)

  datatype Action =
    | LeaderChange(isLeader: bool)
    | LoopStop | LoopCall | SeeStop
    | StopCall | StopCancel | StopClose
    | Acquire | StarterStop | StarterCall
    | BeginStart
    | DialFails | RegistryFails | DialWorks
    | ClearStartup | CancelContext
    | BuildFails | BuildWorks
    | Install | ProviderReturns | RunEnds | Cleanup

  predicate Init(s: State) {
    && !s.leader && !s.stopped && s.generation == 0 && s.handle.None? && s.providers.None?
    && s.queued == 0 && s.starter.Idle? && s.loop.Waiting? && s.stopper.Unused?
    && s.begun == {} && s.built == {} && s.cancelled == {} && s.closes == []
  }

  predicate Enabled(s: State, a: Action) {
    match a
    case LeaderChange(_) => s.loop.Waiting?
    case LoopStop => s.loop.Stopping?
    case LoopCall => s.loop.Calling?
    case SeeStop => s.loop.Waiting? && s.stopper.Closed?
    case StopCall => s.stopper.Unused?
    case StopCancel => s.stopper.Cancelling?
    case StopClose => s.stopper.Closing?
    case Acquire => s.starter.Idle? && s.queued > 0
    case StarterStop => s.starter.StopFirst?
    case StarterCall => s.starter.StopCalling?
    case BeginStart => s.starter.Begin?
    case DialFails => s.starter.Dialling?
    case RegistryFails => s.starter.Dialling?
    case DialWorks => s.starter.Dialling?
    case ClearStartup => s.starter.ClearFirst? || s.starter.Clearing?
    case CancelContext => s.starter.CancelOnly?
    case BuildFails => s.starter.Building?
    case BuildWorks => s.starter.Building?
    case Install => s.starter.Installing?
    case ProviderReturns => s.starter.Running?
    case RunEnds => s.starter.Running?
    case Cleanup => s.starter.Cleaning? || s.starter.Losing? || s.starter.Finishing?
  }

  /** The critical section of stopProviders: every earlier attempt is outdated from here on. */
  function Outdate(s: State): State {
    s.(generation := s.generation + 1, handle := None, providers := None)
  }

  function CleanedUp(s: State, g: nat): State {
    if g in s.closes then s else s.(cancelled := s.cancelled + {g}, closes := s.closes + [g])
  }

  function Called(s: State, handle: Option<Handle>): State {
    if handle.None? then s
    else if handle.value.cleanup then CleanedUp(s, handle.value.attempt)
    else s.(cancelled := s.cancelled + {handle.value.attempt})
  }

  predicate MayInstall(s: State, g: nat) {
    s.generation == g && s.leader && !s.stopped && g !in s.cancelled
  }

  function Do(s: State, a: Action): State
    requires Enabled(s, a)
  {
    match a
    case LeaderChange(isLeader) =>
      if s.leader == isLeader || s.stopped then s
      else if isLeader then s.(leader := true, queued := s.queued + 1)
      else s.(leader := false, loop := Stopping(false))
    case LoopStop => Outdate(s).(loop := Calling(s.handle, s.loop.final))
    case LoopCall => Called(s, s.loop.handle).(loop := if s.loop.final then Ended else Waiting)
    case SeeStop => s.(stopped := true, leader := false, loop := Stopping(true))
    case StopCall => s.(stopped := true, leader := false, stopper := Cancelling(s.handle))
    case StopCancel => Called(s, s.stopper.handle).(stopper := Closing)
    case StopClose => s.(stopper := Closed)
    case Acquire => s.(queued := s.queued - 1, starter := StopFirst)
    case StarterStop => Outdate(s).(starter := StopCalling(s.handle))
    case StarterCall => Called(s, s.starter.handle).(starter := Begin)
    case BeginStart =>
      if !s.leader || s.stopped then s.(starter := Idle)
      else
        var g := s.generation + 1;
        s.(generation := g, handle := Some(Handle(g, false)), starter := Dialling(g), begun := s.begun + {g})
    case DialFails => s.(starter := ClearFirst(s.starter.g))
    case RegistryFails => s.(cancelled := s.cancelled + {s.starter.g}, starter := Clearing(s.starter.g))
    case DialWorks => s.(starter := Building(s.starter.g), built := s.built + {s.starter.g})
    case ClearStartup =>
      var s' := if s.generation == s.starter.g then s.(handle := None, providers := None) else s;
      s'.(starter := if s.starter.ClearFirst? then CancelOnly(s.starter.g) else Idle)
    case CancelContext => s.(cancelled := s.cancelled + {s.starter.g}, starter := Idle)
    case BuildFails => s.(starter := Cleaning(s.starter.g))
    case BuildWorks => s.(starter := Installing(s.starter.g))
    case Install =>
      var g := s.starter.g;
      if MayInstall(s, g) then s.(handle := Some(Handle(g, true)), providers := Some(g), starter := Running(g))
      else s.(starter := Losing(g))
    case ProviderReturns => CleanedUp(s, s.starter.g)
    case RunEnds => s.(starter := Finishing(s.starter.g))
    case Cleanup =>
      CleanedUp(s, s.starter.g).(starter := if s.starter.Losing? then Idle else Clearing(s.starter.g))
  }

  // ---------------------------------------------------------------- invariant

  /** No attempt of the starter's own yet. */
  predicate Starts(s: State) { s.starter.Idle? || s.starter.StopFirst? || s.starter.StopCalling? || s.starter.Begin? }

  predicate Active(s: State, g: nat) { !Starts(s) && s.starter.g == g }

  predicate Holds(h: Option<Handle>, g: nat) { h.Some? && h.value.attempt == g }

  /** The starter cancels its own attempt without asking anybody. */
  predicate GivesUp(s: State, g: nat) {
    Active(s, g) && (s.starter.ClearFirst? || s.starter.CancelOnly? || s.starter.Cleaning? || s.starter.Losing? ||
      s.starter.Finishing?)
  }

  predicate HandleOk(s: State) {
    && (s.handle.Some? ==> s.handle.value.attempt == s.generation && s.generation in s.begun)
    && (s.handle.Some? && s.handle.value.cleanup ==> s.generation in s.built)
    && (s.providers.Some? ==> s.handle == Some(Handle(s.generation, true)) && s.providers.value == s.generation)
    && (s.providers.Some? ==>
      Active(s, s.generation) && (s.starter.Running? || s.starter.Finishing? || s.starter.Clearing?))
  }

  predicate TakenOk(s: State, h: Option<Handle>) {
    h.Some? ==> h.value.attempt in s.begun && (h.value.cleanup ==> h.value.attempt in s.built)
  }

  predicate TakenAllOk(s: State) {
    && (s.loop.Calling? ==> TakenOk(s, s.loop.handle))
    && (s.stopper.Cancelling? ==> TakenOk(s, s.stopper.handle))
    && (s.starter.StopCalling? ==> TakenOk(s, s.starter.handle))
  }

  /** An attempt is cancelled or active, and one that holds resources closes them before it ends. */
  predicate AttemptOk(s: State, g: nat) {
    && (g in s.begun ==> g <= s.generation && (g in s.cancelled || Active(s, g)))
    && (Active(s, g) ==> g in s.begun)
    && (g in s.built ==> g in s.begun && (g in s.closes || Active(s, g)))
    && (g in s.closes ==> g in s.cancelled && g in s.built)
  }

  predicate Distinct(log: seq<nat>) { forall i, j :: 0 <= i < j < |log| ==> log[i] != log[j] }

  ghost predicate AttemptsOk(s: State) { (forall g :: AttemptOk(s, g)) && Distinct(s.closes) }

  /** Past the point where resources were acquired, and before they were closed. */
  predicate Built(st: Starter) {
    || st.Building? || st.Cleaning? || st.Installing? || st.Losing? || st.Running? || st.Finishing?
  }

  predicate PhaseOk(s: State) {
    && (Built(s.starter) ==> s.starter.g in s.built)
    && (s.starter.Dialling? || s.starter.ClearFirst? || s.starter.CancelOnly? ==> s.starter.g !in s.built)
    && (s.starter.Clearing? ==> s.starter.g in s.cancelled && (s.starter.g in s.built ==> s.starter.g in s.closes))
  }

  /** An attempt that still runs can be reached: by the stored handle, by the main loop's pending
      call, or by itself. */
  predicate ReachedAt(s: State, g: nat) {
    g in s.begun && g !in s.cancelled ==>
      Holds(s.handle, g) || (s.loop.Calling? && Holds(s.loop.handle, g)) || GivesUp(s, g)
  }

  ghost predicate Reached(s: State) { forall g :: ReachedAt(s, g) }

  predicate StopComes(s: State) {
    s.loop.Stopping? || (s.stopped && !s.loop.Ended? && !(s.loop.Calling? && s.loop.final))
  }

  predicate LeaderOk(s: State) {
    && (s.providers.Some? ==> (s.leader && !s.stopped) || StopComes(s))
    && (s.loop.Ended? || ((s.loop.Calling? || s.loop.Stopping?) && s.loop.final) ==> s.stopped)
    && (s.stopped ==> !s.leader)
    && (!s.stopper.Unused? ==> s.stopped)
    && (s.loop.Calling? || s.loop.Stopping? ==> !s.leader)
  }

  ghost predicate Inv(s: State) {
    HandleOk(s) && TakenAllOk(s) && AttemptsOk(s) && PhaseOk(s) && Reached(s) && LeaderOk(s)
  }

  predicate ByStarter(a: Action) {
    || a.Acquire? || a.StarterStop? || a.StarterCall? || a.BeginStart?
    || a.DialFails? || a.RegistryFails? || a.DialWorks? || Later(a)
  }

  predicate Later(a: Action) {
    || a.ClearStartup? || a.CancelContext? || a.BuildFails? || a.BuildWorks?
    || a.Install? || a.ProviderReturns? || a.RunEnds? || a.Cleanup?
  }

  lemma KeepsHandleStarter(s: State, a: Action)
    requires HandleOk(s) && PhaseOk(s) && (Starts(s) || AttemptOk(s, s.starter.g)) && Enabled(s, a) && ByStarter(a)
    ensures HandleOk(Do(s, a))
  {
  }

  lemma KeepsHandleOther(s: State, a: Action)
    requires HandleOk(s) && Enabled(s, a) && !ByStarter(a)
    ensures HandleOk(Do(s, a))
  {
  }

  lemma KeepsHandle(s: State, a: Action)
    requires Inv(s) && Enabled(s, a)
    ensures HandleOk(Do(s, a))
  {
    assert Starts(s) || AttemptOk(s, s.starter.g);
    if ByStarter(a) {
      KeepsHandleStarter(s, a);
    } else {
      KeepsHandleOther(s, a);
    }
  }

  lemma KeepsTakenStarter(s: State, a: Action)
    requires HandleOk(s) && TakenAllOk(s) && Enabled(s, a) && ByStarter(a)
    ensures TakenAllOk(Do(s, a))
  {
  }

  lemma KeepsTakenOther(s: State, a: Action)
    requires HandleOk(s) && TakenAllOk(s) && Enabled(s, a) && !ByStarter(a)
    ensures TakenAllOk(Do(s, a))
  {
  }

  lemma KeepsTaken(s: State, a: Action)
    requires Inv(s) && Enabled(s, a)
    ensures TakenAllOk(Do(s, a))
  {
    if ByStarter(a) {
      KeepsTakenStarter(s, a);
    } else {
      KeepsTakenOther(s, a);
    }
  }

  lemma KeepsAttemptOther(s: State, a: Action, g: nat)
    requires TakenAllOk(s) && Enabled(s, a) && !ByStarter(a) && AttemptOk(s, g)
    ensures AttemptOk(Do(s, a), g)
  {
  }

  lemma KeepsAttemptEarly(s: State, a: Action, g: nat)
    requires TakenAllOk(s) && PhaseOk(s) && Enabled(s, a) && ByStarter(a) && !Later(a) && AttemptOk(s, g)
    ensures AttemptOk(Do(s, a), g)
  {
  }

  lemma KeepsAttemptLater(s: State, a: Action, g: nat)
    requires PhaseOk(s) && Enabled(s, a) && Later(a) && AttemptOk(s, g)
    ensures AttemptOk(Do(s, a), g)
  {
  }

  lemma KeepsAttempt(s: State, a: Action, g: nat)
    requires TakenAllOk(s) && PhaseOk(s) && Enabled(s, a) && AttemptOk(s, g)
    ensures AttemptOk(Do(s, a), g)
  {
    if Later(a) {
      KeepsAttemptLater(s, a, g);
    } else if ByStarter(a) {
      KeepsAttemptEarly(s, a, g);
    } else {
      KeepsAttemptOther(s, a, g);
    }
  }

  lemma KeepsDistinct(s: State, a: Action)
    requires Distinct(s.closes) && Enabled(s, a)
    ensures Distinct(Do(s, a).closes)
  {
  }

  lemma KeepsAttempts(s: State, a: Action)
    requires Inv(s) && Enabled(s, a)
    ensures AttemptsOk(Do(s, a))
  {
    forall g
      ensures AttemptOk(Do(s, a), g)
    {
      KeepsAttempt(s, a, g);
    }
    KeepsDistinct(s, a);
  }

  lemma KeepsPhase(s: State, a: Action)
    requires Inv(s) && Enabled(s, a)
    ensures PhaseOk(Do(s, a))
  {
    assert Starts(s) || AttemptOk(s, s.starter.g);
    assert AttemptOk(s, s.generation + 1);
  }

  lemma KeepsReachedStarter(s: State, a: Action, g: nat)
    requires HandleOk(s) && PhaseOk(s) && Enabled(s, a) && ByStarter(a) && AttemptOk(s, g) && ReachedAt(s, g)
    ensures ReachedAt(Do(s, a), g)
  {
  }

  lemma KeepsReachedOther(s: State, a: Action, g: nat)
    requires HandleOk(s) && Enabled(s, a) && !ByStarter(a) && AttemptOk(s, g) && ReachedAt(s, g)
    ensures ReachedAt(Do(s, a), g)
  {
  }

  lemma KeepsReached(s: State, a: Action)
    requires Inv(s) && Enabled(s, a)
    ensures Reached(Do(s, a))
  {
    forall g
      ensures ReachedAt(Do(s, a), g)
    {
      assert AttemptOk(s, g) && ReachedAt(s, g);
      if ByStarter(a) {
        KeepsReachedStarter(s, a, g);
      } else {
        KeepsReachedOther(s, a, g);
      }
    }
  }

  lemma KeepsLeaderStarter(s: State, a: Action)
    requires HandleOk(s) && LeaderOk(s) && Enabled(s, a) && ByStarter(a)
    ensures LeaderOk(Do(s, a))
  {
  }

  lemma KeepsLeaderOther(s: State, a: Action)
    requires HandleOk(s) && LeaderOk(s) && Enabled(s, a) && !ByStarter(a)
    ensures LeaderOk(Do(s, a))
  {
  }

  lemma KeepsLeader(s: State, a: Action)
    requires Inv(s) && Enabled(s, a)
    ensures LeaderOk(Do(s, a))
  {
    if ByStarter(a) {
      KeepsLeaderStarter(s, a);
    } else {
      KeepsLeaderOther(s, a);
    }
  }

  lemma KeepsInv(s: State, a: Action)
    requires Inv(s) && Enabled(s, a)
    ensures Inv(Do(s, a))
  {
    KeepsHandle(s, a);
    KeepsTaken(s, a);
    KeepsAttempts(s, a);
    KeepsPhase(s, a);
    KeepsReached(s, a);
    KeepsLeader(s, a);
  }

  // ---------------------------------------------------------------- whole runs

  datatype Trace = Trace(states: seq<State>, actions: seq<Action>)

  ghost predicate IsTrace(tr: Trace) {
    && |tr.states| == |tr.actions| + 1
    && Init(tr.states[0])
    && (forall i :: 0 <= i < |tr.actions| ==>
          Enabled(tr.states[i], tr.actions[i]) && tr.states[i + 1] == Do(tr.states[i], tr.actions[i]))
  }

  lemma {:induction false} Reachable(tr: Trace, i: nat)
    requires IsTrace(tr) && i < |tr.states|
    ensures Inv(tr.states[i])
    decreases i
  {
    if i > 0 {
      Reachable(tr, i - 1);
      KeepsInv(tr.states[i - 1], tr.actions[i - 1]);
    }
  }

  /** Two start-up attempts never run at the same time. */
  lemma OneLiveAttempt(tr: Trace, i: nat, g: nat, h: nat)
    requires IsTrace(tr) && i < |tr.states|
    requires g in tr.states[i].begun - tr.states[i].cancelled && h in tr.states[i].begun - tr.states[i].cancelled
    ensures g == h
  {
    Reachable(tr, i);
    assert AttemptOk(tr.states[i], g) && AttemptOk(tr.states[i], h);
  }

  /** Installed providers mean leadership, or a stop that is still to come. */
  lemma ProvidersMeanLeadership(tr: Trace, i: nat)
    requires IsTrace(tr) && i < |tr.states| && tr.states[i].providers.Some?
    ensures (tr.states[i].leader && !tr.states[i].stopped) || StopComes(tr.states[i])
    ensures tr.states[i].handle == Some(Handle(tr.states[i].providers.value, true))
    ensures !tr.states[i].loop.Ended?
  {
    Reachable(tr, i);
  }

  lemma StepGrows(s: State, a: Action)
    requires Enabled(s, a)
    ensures s.generation <= Do(s, a).generation && s.begun <= Do(s, a).begun
  {
  }

  ghost predicate Grows(states: seq<State>) {
    forall m :: 0 <= m < |states| - 1 ==>
      states[m].generation <= states[m + 1].generation && states[m].begun <= states[m + 1].begun
  }

  lemma TraceGrows(tr: Trace)
    requires IsTrace(tr)
    ensures Grows(tr.states)
  {
    forall m | 0 <= m < |tr.actions|
      ensures tr.states[m].generation <= tr.states[m + 1].generation && tr.states[m].begun <= tr.states[m + 1].begun
    {
      StepGrows(tr.states[m], tr.actions[m]);
    }
  }

  lemma {:induction false} GrowsThrough(states: seq<State>, i: nat, j: nat)
    requires Grows(states) && i <= j < |states|
    ensures states[i].generation <= states[j].generation && states[i].begun <= states[j].begun
    decreases j
  {
    if i < j {
      GrowsThrough(states, i, j - 1);
    }
  }

  predicate Installs(s: State, a: Action) { a.Install? && s.starter.Installing? && MayInstall(s, s.starter.g) }

  predicate Outdates(a: Action) { a.LoopStop? || a.StarterStop? }

  lemma BecomesActive(s: State, a: Action, g: nat)
    requires Enabled(s, a) && Active(Do(s, a), g) && !Active(s, g)
    ensures a.BeginStart? && Do(s, a).starter == Dialling(g)
  {
  }

  lemma ActiveIsBegun(tr: Trace, j: nat, g: nat)
    requires IsTrace(tr) && j < |tr.states| && Active(tr.states[j], g)
    ensures g <= tr.states[j].generation
  {
    Reachable(tr, j);
    assert AttemptOk(tr.states[j], g);
  }

  /** One step, seen from an attempt: it becomes active only by beginning. */
  predicate ActiveOn(s: State, a: Action, s': State, g: nat) {
    Active(s', g) && !Active(s, g) ==> a.BeginStart? && s'.starter == Dialling(g)
  }

  lemma {:induction false} BeganThrough(states: seq<State>, actions: seq<Action>, i: nat, j: nat, g: nat)
    returns (m: nat)
    requires |states| == |actions| + 1 && i <= j < |states| && !Active(states[i], g) && Active(states[j], g)
    requires forall m :: i <= m < j ==> ActiveOn(states[m], actions[m], states[m + 1], g)
    ensures i <= m < j && actions[m].BeginStart? && states[m + 1].starter == Dialling(g)
    decreases j
  {
    assert i < j && ActiveOn(states[j - 1], actions[j - 1], states[j], g);
    if Active(states[j - 1], g) {
      m := BeganThrough(states, actions, i, j - 1, g);
    } else {
      m := j - 1;
    }
  }

  /** When an attempt is active at `j` and newer than the generation of `i`, it began in between. */
  lemma BeganBetween(tr: Trace, i: nat, j: nat, g: nat) returns (m: nat)
    requires IsTrace(tr) && i <= j < |tr.states|
    requires tr.states[i].generation < g && Active(tr.states[j], g)
    ensures i <= m < j && tr.actions[m].BeginStart? && tr.states[m + 1].starter == Dialling(g)
  {
    if Active(tr.states[i], g) {
      ActiveIsBegun(tr, i, g);
    }
    forall m | i <= m < j
      ensures ActiveOn(tr.states[m], tr.actions[m], tr.states[m + 1], g)
    {
      if Active(tr.states[m + 1], g) && !Active(tr.states[m], g) {
        BecomesActive(tr.states[m], tr.actions[m], g);
      }
    }
    m := BeganThrough(tr.states, tr.actions, i, j, g);
  }

  lemma BeginsAsLeader(s: State, g: nat)
    requires Enabled(s, BeginStart) && Do(s, BeginStart).starter == Dialling(g)
    ensures s.leader && !s.stopped && g == s.generation + 1
  {
  }

  /** An attempt outdated by a stop never installs: whatever installs later also began later, and
      it begins and installs as leader of a server that is not stopped, and is not cancelled. */
  lemma NoStaleInstall(tr: Trace, i: nat, j: nat) returns (m: nat)
    requires IsTrace(tr) && i < j < |tr.actions|
    requires Outdates(tr.actions[i]) && Installs(tr.states[j], tr.actions[j])
    ensures i < m < j && tr.actions[m].BeginStart? && tr.states[m + 1].starter == Dialling(tr.states[j].starter.g)
    ensures tr.states[m].leader && !tr.states[m].stopped
    ensures tr.states[j].leader && !tr.states[j].stopped && tr.states[j].starter.g !in tr.states[j].cancelled
    ensures tr.states[j + 1].providers == Some(tr.states[j].starter.g)
  {
    TraceGrows(tr);
    GrowsThrough(tr.states, i + 1, j);
    m := BeganBetween(tr, i, j, tr.states[j].starter.g);
    BeginsAsLeader(tr.states[m], tr.states[j].starter.g);
  }

  /** Installed providers go away only through a stop or through their own attempt's end. */
  lemma ProvidersGoOnlyByTheirOwn(tr: Trace, i: nat)
    requires IsTrace(tr) && i < |tr.actions|
    requires tr.states[i].providers.Some? && tr.states[i + 1].providers != tr.states[i].providers
    ensures tr.states[i + 1].providers.None?
    ensures Outdates(tr.actions[i]) ||
      (tr.actions[i].ClearStartup? && tr.states[i].starter == Clearing(tr.states[i].providers.value))
  {
    Reachable(tr, i);
  }

  /** Resources are closed at most once, and nothing is left open when no start is under way. */
  lemma ResourcesAreClosedOnce(tr: Trace, i: nat)
    requires IsTrace(tr) && i < |tr.states|
    ensures Distinct(tr.states[i].closes)
    ensures tr.states[i].starter.Idle? ==>
      (forall g :: g in tr.states[i].built ==> g in tr.states[i].closes) && tr.states[i].begun <= tr.states[i].cancelled
  {
    Reachable(tr, i);
    var s := tr.states[i];
    assert forall g :: g in s.begun ==> AttemptOk(s, g);
    assert forall g :: g in s.built ==> AttemptOk(s, g);
  }

  /** The main loop's stop reaches every attempt: from its call on, an attempt that began before the
      stop is cancelled or is giving up by itself. */
  lemma {:induction false} StopReachesAll(tr: Trace, i: nat, j: nat, g: nat)
    requires IsTrace(tr) && i < j < |tr.actions|
    requires tr.actions[i].LoopStop? && tr.actions[j].LoopCall?
    requires forall m :: i < m < j ==> !tr.actions[m].LoopCall?
    requires g in tr.states[i].begun
    ensures g in tr.states[j + 1].cancelled || GivesUp(tr.states[j + 1], g)
  {
    Reachable(tr, i);
    Reachable(tr, j);
    Reachable(tr, j + 1);
    TraceGrows(tr);
    GrowsThrough(tr.states, i + 1, j + 1);
    assert AttemptOk(tr.states[i], g) && ReachedAt(tr.states[j + 1], g);
  }

  /** A stop that found installed providers closes their resources with its call. */
  lemma StopClosesInstalled(tr: Trace, i: nat, j: nat)
    requires IsTrace(tr) && i < j < |tr.actions|
    requires tr.actions[i].LoopStop? && tr.states[i].providers.Some? && tr.actions[j].LoopCall?
    requires forall m :: i < m < j ==> !ByLoop(tr.actions[m])
    ensures tr.states[i].providers.value in tr.states[j + 1].closes
  {
    Reachable(tr, i);
    assert tr.states[i + 1] == Do(tr.states[i], tr.actions[i]);
    LoopWaits(tr, i + 1, j);
  }

  // ---------------------------------------------------------------- leadership is acted on

  predicate ByLoop(a: Action) { a.LeaderChange? || a.LoopStop? || a.LoopCall? || a.SeeStop? }

  lemma LoopStays(s: State, a: Action)
    requires Enabled(s, a) && !ByLoop(a)
    ensures Do(s, a).loop == s.loop
  {
  }

  lemma {:induction false} LoopWaits(tr: Trace, i: nat, j: nat)
    requires IsTrace(tr) && i <= j < |tr.states| && forall m :: i <= m < j ==> !ByLoop(tr.actions[m])
    ensures tr.states[j].loop == tr.states[i].loop
    decreases j
  {
    if i < j {
      LoopWaits(tr, i, j - 1);
      LoopStays(tr.states[j - 1], tr.actions[j - 1]);
    }
  }

  /** The last leader change that was heard before state `i`. */
  function Heard(actions: seq<Action>, i: nat): bool
    requires i <= |actions|
  {
    if i == 0 then false
    else if actions[i - 1].LeaderChange? then actions[i - 1].isLeader
    else Heard(actions, i - 1)
  }

  /** One step, seen from leadership: until it is stopped the server does what it hears. */
  predicate Listens(s: State, a: Action, s': State) {
    && (s.stopped ==> s'.stopped)
    && (!s'.stopped ==> s'.leader == if a.LeaderChange? then a.isLeader else s.leader)
    && s'.queued + (if a.Acquire? then 1 else 0) == s.queued + (if !s.leader && s'.leader then 1 else 0)
  }

  lemma ListenStep(s: State, a: Action)
    requires Enabled(s, a)
    ensures Listens(s, a, Do(s, a))
  {
  }

  lemma {:induction false} ListensThrough(states: seq<State>, actions: seq<Action>, i: nat)
    requires |states| == |actions| + 1 && i < |states| && !states[0].leader
    requires forall m :: 0 <= m < |actions| ==> Listens(states[m], actions[m], states[m + 1])
    requires !states[i].stopped
    ensures states[i].leader == Heard(actions, i)
  {
    if i > 0 {
      assert Listens(states[i - 1], actions[i - 1], states[i]);
      ListensThrough(states, actions, i - 1);
    }
  }

  lemma ListensAlong(tr: Trace)
    requires IsTrace(tr)
    ensures forall m :: 0 <= m < |tr.actions| ==> Listens(tr.states[m], tr.actions[m], tr.states[m + 1])
  {
    forall m | 0 <= m < |tr.actions|
      ensures Listens(tr.states[m], tr.actions[m], tr.states[m + 1])
    {
      ListenStep(tr.states[m], tr.actions[m]);
    }
  }

  /** Until it is stopped, the server is leader iff the last change it heard made it leader. */
  lemma LeaderFollows(tr: Trace, i: nat)
    requires IsTrace(tr) && i < |tr.states| && !tr.states[i].stopped
    ensures tr.states[i].leader == Heard(tr.actions, i)
  {
    ListensAlong(tr);
    ListensThrough(tr.states, tr.actions, i);
  }

  function Gains(states: seq<State>, i: nat): nat
    requires i < |states|
  {
    if i == 0 then 0 else Gains(states, i - 1) + if !states[i - 1].leader && states[i].leader then 1 else 0
  }

  function Taken(actions: seq<Action>, i: nat): nat
    requires i <= |actions|
  {
    if i == 0 then 0 else Taken(actions, i - 1) + if actions[i - 1].Acquire? then 1 else 0
  }

  /** Every gain of leadership queues one start: the starts taken and those still queued are the gains. */
  lemma {:induction false} EveryGainStarts(tr: Trace, i: nat)
    requires IsTrace(tr) && i < |tr.states|
    ensures tr.states[i].queued + Taken(tr.actions, i) == Gains(tr.states, i)
  {
    if i > 0 {
      EveryGainStarts(tr, i - 1);
      ListenStep(tr.states[i - 1], tr.actions[i - 1]);
    }
  }

  /** A loss of leadership stops the providers: the next step of the main loop is the stop. */
  lemma EveryLossStops(tr: Trace, i: nat, j: nat)
    requires IsTrace(tr) && i < j < |tr.actions|
    requires tr.actions[i].LeaderChange? && tr.states[i].leader && !tr.states[i + 1].leader
    requires ByLoop(tr.actions[j]) && forall m :: i < m < j ==> !ByLoop(tr.actions[m])
    ensures tr.actions[j].LoopStop?
  {
    assert tr.states[i + 1] == Do(tr.states[i], tr.actions[i]);
    LoopWaits(tr, i + 1, j);
    assert Enabled(tr.states[j], tr.actions[j]);
  }

  /** Only attempts that began are ever cancelled. */
  predicate CancelsBegun(s: State) { s.cancelled <= s.begun }

  lemma CancelStep(s: State, a: Action)
    requires Inv(s) && CancelsBegun(s) && Enabled(s, a)
    ensures CancelsBegun(Do(s, a))
  {
    assert Starts(s) || AttemptOk(s, s.starter.g);
  }

  lemma {:induction false} CancelledBegan(tr: Trace, i: nat)
    requires IsTrace(tr) && i < |tr.states|
    ensures CancelsBegun(tr.states[i])
  {
    if i > 0 {
      CancelledBegan(tr, i - 1);
      Reachable(tr, i - 1);
      CancelStep(tr.states[i - 1], tr.actions[i - 1]);
    }
  }

  /** A start that nothing interferes with brings the providers up: from the point where the starter
      holds the mutex, as leader of an unstopped server, four steps install a new attempt. */
  lemma StartSucceeds(tr: Trace, i: nat) returns (s1: State, s2: State, s3: State, s4: State)
    requires IsTrace(tr) && i < |tr.states| && tr.states[i].starter.Begin?
    requires tr.states[i].leader && !tr.states[i].stopped
    ensures Enabled(tr.states[i], BeginStart) && s1 == Do(tr.states[i], BeginStart)
    ensures Enabled(s1, DialWorks) && s2 == Do(s1, DialWorks)
    ensures Enabled(s2, BuildWorks) && s3 == Do(s2, BuildWorks)
    ensures Enabled(s3, Install) && s4 == Do(s3, Install)
    ensures var g := tr.states[i].generation + 1;
      s4.starter == Running(g) && s4.providers == Some(g) && s4.handle == Some(Handle(g, true)) && g !in s4.cancelled
  {
    Reachable(tr, i);
    CancelledBegan(tr, i);
    var g := tr.states[i].generation + 1;
    assert AttemptOk(tr.states[i], g);
    s1 := Do(tr.states[i], BeginStart);
    s2 := Do(s1, DialWorks);
    s3 := Do(s2, BuildWorks);
    s4 := Do(s3, Install);
  }

  lemma StarterStays(s: State, a: Action)
    requires Enabled(s, a) && !ByStarter(a)
    ensures Do(s, a).starter == s.starter
  {
  }

  lemma {:induction false} StarterWaits(tr: Trace, i: nat, j: nat)
    requires IsTrace(tr) && i <= j < |tr.states| && forall m :: i <= m < j ==> !ByStarter(tr.actions[m])
    ensures tr.states[j].starter == tr.states[i].starter
    decreases j
  {
    if i < j {
      StarterWaits(tr, i, j - 1);
      StarterStays(tr.states[j - 1], tr.actions[j - 1]);
    }
  }

  /** An attempt that loses the installation check cleans up after itself, clears nothing, and is done. */
  lemma LoserClearsNothing(tr: Trace, i: nat, j: nat)
    requires IsTrace(tr) && i < j < |tr.actions|
    requires tr.actions[i].Install? && tr.states[i + 1].providers == tr.states[i].providers
    requires ByStarter(tr.actions[j]) && forall m :: i < m < j ==> !ByStarter(tr.actions[m])
    requires tr.states[i].providers.None?
    ensures tr.actions[j].Cleanup? && tr.states[i].starter.g in tr.states[j + 1].closes
    ensures tr.states[j + 1].starter.Idle?
    ensures tr.states[j + 1].handle == tr.states[j].handle && tr.states[j + 1].providers == tr.states[j].providers
  {
    assert tr.states[i + 1] == Do(tr.states[i], tr.actions[i]);
    StarterWaits(tr, i + 1, j);
    assert Enabled(tr.states[j], tr.actions[j]);
  }

  /** When the main loop sees the stop, its next two steps are a stop of the providers and the end. */
  lemma StoppedLoopEnds(tr: Trace, i: nat, j: nat, k: nat)
    requires IsTrace(tr) && i < j < k < |tr.actions| && tr.actions[i].SeeStop?
    requires ByLoop(tr.actions[j]) && forall m :: i < m < j ==> !ByLoop(tr.actions[m])
    requires ByLoop(tr.actions[k]) && forall m :: j < m < k ==> !ByLoop(tr.actions[m])
    ensures tr.actions[j].LoopStop? && tr.actions[k].LoopCall? && tr.states[k + 1].loop.Ended?
  {
    assert tr.states[i + 1] == Do(tr.states[i], tr.actions[i]);
    LoopWaits(tr, i + 1, j);
    assert Enabled(tr.states[j], tr.actions[j]);
    assert tr.states[j + 1] == Do(tr.states[j], tr.actions[j]);
    LoopWaits(tr, j + 1, k);
    assert Enabled(tr.states[k], tr.actions[k]);
  }

  /** A stop for lost leadership leaves the main loop waiting for the next change. */
  lemma LossLeavesWaiting(tr: Trace, i: nat, j: nat, k: nat)
    requires IsTrace(tr) && i < j < k < |tr.actions|
    requires tr.actions[i].LeaderChange? && tr.states[i].leader && !tr.states[i + 1].leader
    requires ByLoop(tr.actions[j]) && forall m :: i < m < j ==> !ByLoop(tr.actions[m])
    requires ByLoop(tr.actions[k]) && forall m :: j < m < k ==> !ByLoop(tr.actions[m])
    ensures tr.actions[k].LoopCall? && tr.states[k + 1].loop.Waiting?
  {
    assert tr.states[i + 1] == Do(tr.states[i], tr.actions[i]);
    LoopWaits(tr, i + 1, j);
    assert Enabled(tr.states[j], tr.actions[j]);
    assert tr.states[j + 1] == Do(tr.states[j], tr.actions[j]);
    LoopWaits(tr, j + 1, k);
    assert Enabled(tr.states[k], tr.actions[k]);
  }

  predicate ByStopper(a: Action) { a.StopCall? || a.StopCancel? || a.StopClose? }

  lemma StopperStays(s: State, a: Action)
    requires Enabled(s, a) && !ByStopper(a)
    ensures Do(s, a).stopper == s.stopper
  {
  }

  lemma {:induction false} StopperWaits(tr: Trace, i: nat, j: nat)
    requires IsTrace(tr) && i <= j < |tr.states| && forall m :: i <= m < j ==> !ByStopper(tr.actions[m])
    ensures tr.states[j].stopper == tr.states[i].stopper
    decreases j
  {
    if i < j {
      StopperWaits(tr, i, j - 1);
      StopperStays(tr.states[j - 1], tr.actions[j - 1]);
    }
  }

  /** Stop itself cancels the attempt whose handle is stored when it is called, and closes the resources of
      installed providers, before it signals the main loop. */
  lemma StopCancelsStored(tr: Trace, i: nat, j: nat)
    requires IsTrace(tr) && i < j < |tr.actions| && tr.actions[i].StopCall?
    requires ByStopper(tr.actions[j]) && forall m :: i < m < j ==> !ByStopper(tr.actions[m])
    ensures tr.actions[j].StopCancel? && tr.states[i + 1].stopped && !tr.states[i + 1].leader
    ensures tr.states[i].handle.Some? ==> tr.states[i].handle.value.attempt in tr.states[j + 1].cancelled
    ensures tr.states[i].providers.Some? ==> tr.states[i].providers.value in tr.states[j + 1].closes
  {
    Reachable(tr, i);
    Reachable(tr, j + 1);
    assert tr.states[i + 1] == Do(tr.states[i], tr.actions[i]);
    StopperWaits(tr, i + 1, j);
    assert Enabled(tr.states[j], tr.actions[j]);
    assert tr.states[i].handle.Some? ==> AttemptOk(tr.states[j + 1], tr.states[i].handle.value.attempt);
  }

  /** Nobody is ever stuck: whoever holds the mutex has a next step, a queued start can be taken when nobody
      does, and the main loop and Stop have theirs until they end. */
  lemma EverybodyMoves(s: State)
    ensures !s.starter.Idle? || s.queued > 0 ==> exists a :: ByStarter(a) && Enabled(s, a)
    ensures !s.loop.Ended? ==> exists a :: ByLoop(a) && Enabled(s, a)
    ensures !s.stopper.Closed? ==> exists a :: ByStopper(a) && Enabled(s, a)
  {
    if !s.starter.Idle? || s.queued > 0 {
      var a := StarterStep(s);
      assert ByStarter(a) && Enabled(s, a);
    }
    if !s.loop.Ended? {
      var a := if s.loop.Waiting? then LeaderChange(true) else if s.loop.Stopping? then LoopStop else LoopCall;
      assert ByLoop(a) && Enabled(s, a);
    }
    if !s.stopper.Closed? {
      var a := if s.stopper.Unused? then StopCall else if s.stopper.Cancelling? then StopCancel else StopClose;
      assert ByStopper(a) && Enabled(s, a);
    }
  }

  lemma StarterStep(s: State) returns (a: Action)
    requires !s.starter.Idle? || s.queued > 0
    ensures ByStarter(a) && Enabled(s, a)
  {
    match s.starter
    case Idle => a := Acquire;
    case StopFirst => a := StarterStop;
    case StopCalling(_) => a := StarterCall;
    case Begin => a := BeginStart;
    case Dialling(_) => a := DialWorks;
    case ClearFirst(_) => a := ClearStartup;
    case CancelOnly(_) => a := CancelContext;
    case Building(_) => a := BuildWorks;
    case Cleaning(_) => a := Cleanup;
    case Clearing(_) => a := ClearStartup;
    case Installing(_) => a := Install;
    case Losing(_) => a := Cleanup;
    case Running(_) => a := RunEnds;
    case Finishing(_) => a := Cleanup;
  }
}
