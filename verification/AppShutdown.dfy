// App.startServer and App.Shutdown (internal/app/app.go) under any number of
// concurrent calls, as a step relation. What runs under one mutex is one step.

module AppShutdown {
  import opened Prelude

  // ---- the runtime teardown order of internal/app/subsystems.go ----

  datatype Name =
    | LiveBroker | Storage | RuntimeSettings | Providers | RouteStrategies | Audit | Usage | Budgets | RateLimits
    | BatchStore | FileStore | ResponseStore | ConversationStore | ProviderCredentials | VirtualModels | Tagging
    | PricingOverrides | Guardrails | Workflows | AuthKeys | Users | McpGateway | ResponseCache | Telemetry

  const ShutdownOrder: seq<Name> := [
    RuntimeSettings, Providers, RouteStrategies, McpGateway, ProviderCredentials, VirtualModels, Tagging, Workflows,
    PricingOverrides, Guardrails, AuthKeys, Users, FileStore, BatchStore, Budgets, RateLimits, Usage, Audit,
    Telemetry, Storage]

  // ---- state ----

  datatype ServerResult = Graceful | Failed      // nil or ErrServerClosed; any other error

  // One startServer call; its done channel holds one result.
  datatype StarterPc =
    | Register
    | Serve                        // start(serverCtx) is running
    | Publish(result: ServerResult)
    | Stopped(result: ServerResult)
    | AlreadyRunning

  datatype Starter = Starter(pc: StarterPc, cancelled: bool, done: Option<ServerResult>, doneClosed: bool)

  // One Shutdown call. stop and done are its copies of serverStop and
  // serverDone; failures counts the steps of its own that failed.
  datatype CallerPc =
    | Check
    | Streams                      // close long-lived streams
    | ReadServer
    | CancelServer
    | AwaitServer
    | ForgetServer
    | CloseServerResources
    | Closers(next: nat)
    | Worked(failed: bool)
    | NoOp

  datatype Caller = Caller(pc: CallerPc, server: Option<nat>, received: Option<ServerResult>, timedOut: bool, failures: nat)

  // present says which subsystems of the order have something to close. server
  // is the starter registered in serverDone and serverStop. closed and failed
  // log the closers run and every step that failed.
  datatype State = State(
    present: seq<bool>, shutdown: bool, server: Option<nat>,
    starters: seq<Starter>, callers: seq<Caller>, closed: seq<nat>, failed: nat)

  predicate Init(s: State) {
    && |s.present| == |ShutdownOrder|
    && !s.shutdown && s.server == None && s.closed == [] && s.failed == 0
    && (forall i :: 0 <= i < |s.starters| ==> s.starters[i] == Starter(Register, false, None, false))
    && (forall i :: 0 <= i < |s.callers| ==> s.callers[i] == Caller(Check, None, None, false, 0))
  }

  // ok: the call made by the step succeeded; timeout: the deadline wins.
  datatype Step =
    | Start(i: nat, result: ServerResult)
    | Shut(i: nat, ok: bool, timeout: bool)

  predicate StartEnabled(s: State, i: nat)
    requires i < |s.starters|
  {
    match s.starters[i].pc
    case Register => true
    case Serve => true
    case Publish(_) => s.server == Some(i) ==> s.starters[i].done == None   // a full channel blocks, under the mutex
    case Stopped(_) => false
    case AlreadyRunning => false
  }

  predicate ShutEnabled(s: State, i: nat, timeout: bool)
    requires i < |s.callers|
  {
    var c := s.callers[i];
    match c.pc
    case AwaitServer =>
      c.server.None? || timeout
      || (c.server.value < |s.starters| &&
          (s.starters[c.server.value].done.Some? || s.starters[c.server.value].doneClosed))
    case Worked(_) => false
    case NoOp => false
    case _ => true
  }

  predicate Enabled(s: State, step: Step) {
    match step
    case Start(i, _) => i < |s.starters| && StartEnabled(s, i)
    case Shut(i, _, timeout) => i < |s.callers| && ShutEnabled(s, i, timeout)
  }

  function SetStarter(s: State, i: nat, t: Starter): State
    requires i < |s.starters|
  {
    s.(starters := s.starters[i := t])
  }

  function SetCaller(s: State, i: nat, c: Caller): State
    requires i < |s.callers|
  {
    s.(callers := s.callers[i := c])
  }

  function StartApply(s: State, i: nat, result: ServerResult): State
    requires i < |s.starters| && StartEnabled(s, i)
  {
    var t := s.starters[i];
    match t.pc
    case Register =>
      if s.server.Some? then SetStarter(s, i, t.(pc := AlreadyRunning))
      else SetStarter(s, i, t.(pc := Serve)).(server := Some(i))
    case Serve => SetStarter(s, i, t.(pc := Publish(result)))
    case Publish(r) =>
      if s.server == Some(i) then
        SetStarter(s, i, t.(pc := Stopped(r), done := Some(r), doneClosed := true, cancelled := true)).(server := None)
      else SetStarter(s, i, t.(pc := Stopped(r), cancelled := true))
  }

  // A step of the worker that failed is remembered and does not stop the rest.
  function Advance(s: State, i: nat, c: Caller, ok: bool): State
    requires i < |s.callers|
  {
    if ok then SetCaller(s, i, c)
    else SetCaller(s, i, c.(failures := c.failures + 1)).(failed := s.failed + 1)
  }

  function AwaitApply(s: State, i: nat, timeout: bool): State
    requires i < |s.callers| && s.callers[i].pc == AwaitServer && ShutEnabled(s, i, timeout)
  {
    var c := s.callers[i];
    if c.server.None? then SetCaller(s, i, c.(pc := CloseServerResources))
    else if timeout then Advance(s, i, c.(pc := CloseServerResources, timedOut := true), false)
    else
      var k := c.server.value;
      var result := if s.starters[k].done.Some? then s.starters[k].done.value else Graceful;
      var received := SetStarter(s, k, s.starters[k].(done := None));
      SetCaller(received, i, c.(pc := ForgetServer, received := Some(result)))
  }

  function ShutApply(s: State, i: nat, ok: bool, timeout: bool): State
    requires i < |s.callers| && ShutEnabled(s, i, timeout)
  {
    var c := s.callers[i];
    match c.pc
    case Check =>
      if s.shutdown then SetCaller(s, i, c.(pc := NoOp))
      else SetCaller(s, i, c.(pc := Streams)).(shutdown := true)
    case Streams => SetCaller(s, i, c.(pc := ReadServer))
    case ReadServer => SetCaller(s, i, c.(pc := CancelServer, server := s.server))
    case CancelServer =>
      var t := if c.server.Some? && c.server.value < |s.starters|
               then SetStarter(s, c.server.value, s.starters[c.server.value].(cancelled := true)) else s;
      SetCaller(t, i, c.(pc := AwaitServer))
    case AwaitServer => AwaitApply(s, i, timeout)
    case ForgetServer => Advance(s.(server := None), i, c.(pc := CloseServerResources), c.received != Some(Failed))
    case CloseServerResources => Advance(s, i, c.(pc := Closers(0)), ok)
    case Closers(n) =>
      if n < |ShutdownOrder| then
        if n < |s.present| && s.present[n] then
          Advance(s, i, c.(pc := Closers(n + 1)), ok).(closed := s.closed + [n])
        else SetCaller(s, i, c.(pc := Closers(n + 1)))
      else SetCaller(s, i, c.(pc := Worked(c.failures > 0)))
  }

  function Apply(s: State, step: Step): State
    requires Enabled(s, step)
  {
    match step
    case Start(i, result) => StartApply(s, i, result)
    case Shut(i, ok, timeout) => ShutApply(s, i, ok, timeout)
  }

  ghost predicate Run(states: seq<State>, steps: seq<Step>) {
    && |states| == |steps| + 1
    && Init(states[0])
    && (forall i {:trigger steps[i]} :: 0 <= i < |steps| ==> Enabled(states[i], steps[i]) && states[i + 1] == Apply(states[i], steps[i]))
  }

  // ---- invariant ----

  // The call that does the work, as opposed to one that returns at once.
  predicate Working(pc: CallerPc) {
    pc != Check && pc != NoOp
  }

  // The present closers among the first n of the order.
  function PresentUpTo(present: seq<bool>, n: nat): seq<nat>
    requires n <= |present|
  {
    if n == 0 then []
    else PresentUpTo(present, n - 1) + (if present[n - 1] then [n - 1] else [])
  }

  function Reached(pc: CallerPc): nat {
    match pc
    case Closers(n) => n
    case Worked(_) => |ShutdownOrder|
    case _ => 0
  }

  predicate AfterRead(pc: CallerPc) {
    Working(pc) && pc != Streams && pc != ReadServer
  }

  predicate AfterCancel(pc: CallerPc) {
    AfterRead(pc) && pc != CancelServer
  }

  predicate AfterAwait(pc: CallerPc) {
    AfterCancel(pc) && pc != AwaitServer
  }

  predicate SoundStarter(t: Starter, i: nat, server: Option<nat>) {
    && (t.pc == Register || t.pc == AlreadyRunning ==> server != Some(i) && !t.cancelled)
    && (t.done.Some? ==> t.doneClosed && t.pc == Stopped(t.done.value))
    && (t.doneClosed ==> t.pc.Stopped?)
    && (server == Some(i) ==> t.pc.Serve? || t.pc.Publish?)
  }

  // What the worker knows of the server it found registered.
  predicate SoundFound(c: Caller, t: Starter, registered: bool) {
    && t.pc != Register && t.pc != AlreadyRunning
    && (AfterCancel(c.pc) ==> t.cancelled)
    && (AfterAwait(c.pc) ==> c.timedOut || c.received.Some?)
    && (c.received.Some? ==> AfterAwait(c.pc) && t.pc == Stopped(c.received.value))
    && (AwaitsResult(c) && (t.pc.Serve? || t.pc.Publish?) ==> registered)
    && (AwaitsResult(c) && t.doneClosed ==> t.done.Some?)
  }

  predicate SoundCaller(c: Caller, s: State) {
    && (!Working(c.pc) ==> c.failures == 0)
    && (!AfterRead(c.pc) ==> c.server == None)
    && (Working(c.pc) ==> s.shutdown && c.failures == s.failed)
    && (c.server.None? ==> c.received == None)
    && (c.server.Some? ==>
         c.server.value < |s.starters| && SoundFound(c, s.starters[c.server.value], s.server == c.server))
    && (c.pc.Closers? ==> c.pc.next <= |ShutdownOrder|)
    && (c.pc.Worked? ==> c.pc.failed == (s.failed > 0))
    && (Working(c.pc) ==> Reached(c.pc) <= |s.present| && s.closed == PresentUpTo(s.present, Reached(c.pc)))
  }

  // Still to receive the server's result.
  predicate AwaitsResult(c: Caller) {
    c.server.Some? && (c.pc == CancelServer || c.pc == AwaitServer)
  }

  predicate OneWorker(s: State) {
    && (forall i, j ::
         0 <= i < |s.callers| && 0 <= j < |s.callers| && Working(s.callers[i].pc) && Working(s.callers[j].pc) ==>
         i == j)
    && (!s.shutdown ==> s.closed == [] && s.failed == 0)
  }

  predicate Inv(s: State) {
    && |s.present| == |ShutdownOrder|
    && (s.server.Some? ==> s.server.value < |s.starters|)
    && (forall i :: 0 <= i < |s.starters| ==> SoundStarter(s.starters[i], i, s.server))
    && (forall i :: 0 <= i < |s.callers| ==> SoundCaller(s.callers[i], s))
    && OneWorker(s)
  }

  lemma InitInv(s: State)
    requires Init(s)
    ensures Inv(s)
  {
  }

  lemma RegisterInv(s: State, i: nat, result: ServerResult)
    requires Inv(s) && Enabled(s, Start(i, result)) && s.starters[i].pc == Register
    ensures Inv(StartApply(s, i, result))
  {
  }

  lemma ServeInv(s: State, i: nat, result: ServerResult)
    requires Inv(s) && Enabled(s, Start(i, result)) && s.starters[i].pc == Serve
    ensures Inv(StartApply(s, i, result))
  {
  }

  lemma PublishInv(s: State, i: nat, result: ServerResult)
    requires Inv(s) && Enabled(s, Start(i, result)) && s.starters[i].pc.Publish?
    ensures Inv(StartApply(s, i, result))
  {
  }

  lemma CheckInv(s: State, i: nat, ok: bool, timeout: bool)
    requires Inv(s) && Enabled(s, Shut(i, ok, timeout)) && s.callers[i].pc == Check
    ensures Inv(ShutApply(s, i, ok, timeout))
  {
  }

  lemma ReadInv(s: State, i: nat, ok: bool, timeout: bool)
    requires Inv(s) && Enabled(s, Shut(i, ok, timeout))
    requires s.callers[i].pc == Streams || s.callers[i].pc == ReadServer
    ensures Inv(ShutApply(s, i, ok, timeout))
  {
  }

  lemma CancelInv(s: State, i: nat, ok: bool, timeout: bool)
    requires Inv(s) && Enabled(s, Shut(i, ok, timeout)) && s.callers[i].pc == CancelServer
    ensures Inv(ShutApply(s, i, ok, timeout))
  {
  }

  lemma AwaitInv(s: State, i: nat, ok: bool, timeout: bool)
    requires Inv(s) && Enabled(s, Shut(i, ok, timeout)) && s.callers[i].pc == AwaitServer
    ensures Inv(ShutApply(s, i, ok, timeout))
  {
  }

  lemma ForgetInv(s: State, i: nat, ok: bool, timeout: bool)
    requires Inv(s) && Enabled(s, Shut(i, ok, timeout)) && s.callers[i].pc == ForgetServer
    ensures Inv(ShutApply(s, i, ok, timeout))
  {
  }

  lemma ResourcesInv(s: State, i: nat, ok: bool, timeout: bool)
    requires Inv(s) && Enabled(s, Shut(i, ok, timeout)) && s.callers[i].pc == CloseServerResources
    ensures Inv(ShutApply(s, i, ok, timeout))
  {
  }

  lemma CloserInv(s: State, i: nat, n: nat, ok: bool, timeout: bool)
    requires Inv(s) && Enabled(s, Shut(i, ok, timeout)) && s.callers[i].pc == Closers(n) && n < |ShutdownOrder|
    ensures Inv(ShutApply(s, i, ok, timeout))
  {
    if s.present[n] {
      PresentCloserInv(s, i, n, ok, timeout);
    } else {
      AbsentCloserInv(s, i, n, ok, timeout);
    }
  }

  lemma PresentCloserInv(s: State, i: nat, n: nat, ok: bool, timeout: bool)
    requires Inv(s) && Enabled(s, Shut(i, ok, timeout)) && s.callers[i].pc == Closers(n) && n < |ShutdownOrder|
    requires s.present[n]
    ensures Inv(ShutApply(s, i, ok, timeout))
  {
    var t := ShutApply(s, i, ok, timeout);
    forall j | 0 <= j < |t.callers|
      ensures SoundCaller(t.callers[j], t)
    {
      if j == i { CloserRuns(s, i, n, ok, timeout); } else { CloserLeaves(s, i, n, ok, timeout, j); }
    }
  }

  lemma CloserRuns(s: State, i: nat, n: nat, ok: bool, timeout: bool)
    requires Inv(s) && Enabled(s, Shut(i, ok, timeout)) && s.callers[i].pc == Closers(n) && n < |ShutdownOrder|
    requires s.present[n]
    ensures SoundCaller(ShutApply(s, i, ok, timeout).callers[i], ShutApply(s, i, ok, timeout))
  {
    assert PresentUpTo(s.present, n + 1) == s.closed + [n];
  }

  lemma CloserLeaves(s: State, i: nat, n: nat, ok: bool, timeout: bool, j: nat)
    requires Inv(s) && Enabled(s, Shut(i, ok, timeout)) && s.callers[i].pc == Closers(n) && n < |ShutdownOrder|
    requires s.present[n] && j < |s.callers| && j != i
    ensures j < |ShutApply(s, i, ok, timeout).callers|
    ensures SoundCaller(ShutApply(s, i, ok, timeout).callers[j], ShutApply(s, i, ok, timeout))
  {
    assert SoundCaller(s.callers[j], s) && !Working(s.callers[j].pc);
  }

  lemma AbsentCloserInv(s: State, i: nat, n: nat, ok: bool, timeout: bool)
    requires Inv(s) && Enabled(s, Shut(i, ok, timeout)) && s.callers[i].pc == Closers(n) && n < |ShutdownOrder|
    requires !s.present[n]
    ensures Inv(ShutApply(s, i, ok, timeout))
  {
    assert s.closed + [] == s.closed;
    assert PresentUpTo(s.present, n + 1) == s.closed;
  }

  lemma FinishInv(s: State, i: nat, n: nat, ok: bool, timeout: bool)
    requires Inv(s) && Enabled(s, Shut(i, ok, timeout)) && s.callers[i].pc == Closers(n) && n >= |ShutdownOrder|
    ensures Inv(ShutApply(s, i, ok, timeout))
  {
  }

  lemma ClosersInv(s: State, i: nat, ok: bool, timeout: bool)
    requires Inv(s) && Enabled(s, Shut(i, ok, timeout)) && s.callers[i].pc.Closers?
    ensures Inv(ShutApply(s, i, ok, timeout))
  {
    if s.callers[i].pc.next < |ShutdownOrder| {
      CloserInv(s, i, s.callers[i].pc.next, ok, timeout);
    } else {
      FinishInv(s, i, s.callers[i].pc.next, ok, timeout);
    }
  }

  lemma StepInv(s: State, step: Step)
    requires Inv(s) && Enabled(s, step)
    ensures Inv(Apply(s, step))
  {
    match step
    case Start(i, result) =>
      match s.starters[i].pc {
        case Register => RegisterInv(s, i, result);
        case Serve => ServeInv(s, i, result);
        case Publish(_) => PublishInv(s, i, result);
      }
    case Shut(i, ok, timeout) =>
      match s.callers[i].pc {
        case Check => CheckInv(s, i, ok, timeout);
        case Streams => ReadInv(s, i, ok, timeout);
        case ReadServer => ReadInv(s, i, ok, timeout);
        case CancelServer => CancelInv(s, i, ok, timeout);
        case AwaitServer => AwaitInv(s, i, ok, timeout);
        case ForgetServer => ForgetInv(s, i, ok, timeout);
        case CloseServerResources => ResourcesInv(s, i, ok, timeout);
        case Closers(_) => ClosersInv(s, i, ok, timeout);
      }
  }

  lemma {:induction false} RunInv(states: seq<State>, steps: seq<Step>, m: nat)
    requires Run(states, steps) && m < |states|
    ensures Inv(states[m])
  {
    if m == 0 {
      InitInv(states[0]);
    } else {
      RunInv(states, steps, m - 1);
      StepInv(states[m - 1], steps[m - 1]);
    }
  }

  // ---- theorems over whole runs ----

  lemma {:induction false} PresentIncreases(present: seq<bool>, n: nat)
    requires n <= |present|
    ensures Lists(PresentUpTo(present, n), present, n)
  {
    if n > 0 {
      PresentIncreases(present, n - 1);
      ListsNext(PresentUpTo(present, n - 1), present, n - 1);
    }
  }

  // p lists the positions below n that are present, in order.
  predicate Lists(p: seq<nat>, present: seq<bool>, n: nat)
    requires n <= |present|
  {
    && (forall k :: 0 <= k < |p| ==> p[k] < n && present[p[k]])
    && (forall k, l :: 0 <= k < l < |p| ==> p[k] < p[l])
    && (forall x: nat :: x < n && present[x] ==> x in p)
  }

  lemma ListsNext(p: seq<nat>, present: seq<bool>, n: nat)
    requires n < |present| && Lists(p, present, n)
    ensures Lists(p + (if present[n] then [n] else []), present, n + 1)
  {
    var q := p + (if present[n] then [n] else []);
    assert present[n] ==> q[|p|] == n;
    forall x: nat | x < n + 1 && present[x]
      ensures x in q
    {
      if x < n {
        assert x in p;
      }
    }
  }

  // However many Shutdown calls run, at most one works, and every closer is run
  // at most once, in the order of shutdownOrder, failures notwithstanding; once
  // the work is done each subsystem there is was closed, storage last.
  lemma ClosedOnceInOrder(states: seq<State>, steps: seq<Step>, m: nat)
    requires Run(states, steps) && m < |states|
    ensures
      var s := states[m];
      && |s.present| == |ShutdownOrder|
      && (forall i, j ::
           0 <= i < |s.callers| && 0 <= j < |s.callers| && Working(s.callers[i].pc) && Working(s.callers[j].pc) ==>
           i == j)
      && InOrder(s.closed)
      && (forall i :: 0 <= i < |s.callers| && s.callers[i].pc.Worked? ==> ClosedAll(s))
  {
    RunInv(states, steps, m);
    NobodyWorked(states, steps, m);
    var s := states[m];
    ClosedSorted(s);
    forall i | 0 <= i < |s.callers| && s.callers[i].pc.Worked?
      ensures ClosedAll(s)
    {
      EverythingClosed(s, i);
    }
  }

  // Positions in the order of shutdownOrder, each at most once.
  predicate InOrder(closed: seq<nat>) {
    && (forall k :: 0 <= k < |closed| ==> closed[k] < |ShutdownOrder|)
    && (forall k, l :: 0 <= k < l < |closed| ==> closed[k] < closed[l])
  }

  // Each subsystem there is was closed, storage last.
  predicate ClosedAll(s: State) {
    && |s.present| == |ShutdownOrder|
    && (forall x: nat :: x < |ShutdownOrder| ==> (x in s.closed <==> s.present[x]))
    && (s.present[StoragePosition] ==> s.closed != [] && s.closed[|s.closed| - 1] == StoragePosition)
  }

  const StoragePosition: nat := |ShutdownOrder| - 1

  lemma StorageIsLast()
    ensures |ShutdownOrder| == StoragePosition + 1 && ShutdownOrder[StoragePosition] == Storage
  {
  }

  lemma ClosedIsPresent(s: State, i: nat)
    requires Inv(s) && i < |s.callers| && Working(s.callers[i].pc)
    ensures s.closed == PresentUpTo(s.present, Reached(s.callers[i].pc))
    ensures InOrder(s.closed)
  {
    assert SoundCaller(s.callers[i], s);
    PresentIncreases(s.present, Reached(s.callers[i].pc));
  }

  lemma ClosedSorted(s: State)
    requires Inv(s) && (s.shutdown ==> exists i :: 0 <= i < |s.callers| && Working(s.callers[i].pc))
    ensures InOrder(s.closed)
  {
    if s.shutdown {
      var i :| 0 <= i < |s.callers| && Working(s.callers[i].pc);
      ClosedIsPresent(s, i);
    }
  }

  lemma EverythingClosed(s: State, i: nat)
    requires Inv(s) && i < |s.callers| && s.callers[i].pc.Worked?
    ensures ClosedAll(s)
  {
    ClosedIsPresent(s, i);
    LastPresent(s.present, |ShutdownOrder|);
  }

  lemma LastPresent(present: seq<bool>, n: nat)
    requires 0 < n == |present|
    ensures var p := PresentUpTo(present, n);
      && (forall x: nat :: x < n ==> (x in p <==> present[x]))
      && (present[n - 1] ==> p != [] && p[|p| - 1] == n - 1)
  {
    PresentIncreases(present, n);
  }

  lemma {:induction false} NobodyWorked(states: seq<State>, steps: seq<Step>, m: nat)
    requires Run(states, steps) && m < |states|
    ensures states[m].shutdown ==> exists i :: 0 <= i < |states[m].callers| && Working(states[m].callers[i].pc)
  {
    if m > 0 {
      NobodyWorked(states, steps, m - 1);
      var s, step := states[m - 1], steps[m - 1];
      if s.shutdown {
        var i :| 0 <= i < |s.callers| && Working(s.callers[i].pc);
        assert Working(Apply(s, step).callers[i].pc);
      } else if step.Shut? && s.callers[step.i].pc == Check {
        assert Working(Apply(s, step).callers[step.i].pc);
      }
    }
  }

  // The call that did the work returns an error exactly when a step failed; the
  // others do nothing.
  lemma WorkerReports(states: seq<State>, steps: seq<Step>, m: nat, i: nat)
    requires Run(states, steps) && m < |states| && i < |states[m].callers|
    ensures states[m].callers[i].pc.Worked? ==> (states[m].callers[i].pc.failed <==> states[m].failed > 0)
    ensures states[m].callers[i].pc == NoOp ==> states[m].callers[i].failures == 0
  {
    RunInv(states, steps, m);
  }

  // A result is published into an empty, open channel.
  lemma PublishGoesThrough(states: seq<State>, steps: seq<Step>, m: nat, i: nat)
    requires Run(states, steps) && m < |states| && i < |states[m].starters|
    ensures states[m].starters[i].pc.Publish? ==> states[m].starters[i].done == None && !states[m].starters[i].doneClosed
  {
    RunInv(states, steps, m);
  }

  lemma {:induction false} SameCallers(states: seq<State>, steps: seq<Step>, m: nat)
    requires Run(states, steps) && m < |states|
    ensures |states[m].callers| == |states[0].callers| && |states[m].starters| == |states[0].starters|
  {
    if m > 0 {
      SameCallers(states, steps, m - 1);
      assert states[m] == Apply(states[m - 1], steps[m - 1]);
    }
  }

  // What the worker read stays with it.
  lemma ReadStep(s: State, step: Step, i: nat, k: nat)
    requires Enabled(s, step) && i < |s.callers| && AfterRead(s.callers[i].pc) && s.callers[i].server == Some(k)
    ensures |Apply(s, step).callers| == |s.callers|
    ensures AfterRead(Apply(s, step).callers[i].pc) && Apply(s, step).callers[i].server == Some(k)
  {
    match step
    case Start(_, _) =>
    case Shut(j, ok, timeout) => CallerStep(s, j, ok, timeout, i, k);
  }

  lemma CallerStep(s: State, j: nat, ok: bool, timeout: bool, i: nat, k: nat)
    requires j < |s.callers| && ShutEnabled(s, j, timeout)
    requires i < |s.callers| && AfterRead(s.callers[i].pc) && s.callers[i].server == Some(k)
    ensures |ShutApply(s, j, ok, timeout).callers| == |s.callers|
    ensures AfterRead(ShutApply(s, j, ok, timeout).callers[i].pc) && ShutApply(s, j, ok, timeout).callers[i].server == Some(k)
  {
  }

  lemma {:induction false} ReadIsKept(states: seq<State>, steps: seq<Step>, m: nat, n: nat, i: nat, k: nat)
    requires Run(states, steps) && m <= n < |states| && i < |states[m].callers|
    requires AfterRead(states[m].callers[i].pc) && states[m].callers[i].server == Some(k)
    ensures i < |states[n].callers|
    ensures AfterRead(states[n].callers[i].pc) && states[n].callers[i].server == Some(k)
  {
    if m < n {
      ReadIsKept(states, steps, m, n - 1, i, k);
      ReadStep(states[n - 1], steps[n - 1], i, k);
    }
  }

  // A Shutdown that finds a server registered cancels it, and by the time it
  // closes the server's resources it has that server's own result or has
  // timed out. Step m is the one that looks.
  lemma {:induction false} RegisteredServerStopped(states: seq<State>, steps: seq<Step>, m: nat, n: nat, i: nat, k: nat)
    requires Run(states, steps) && m < n < |states| && i < |states[m].callers| && i < |states[n].callers|
    requires steps[m].Shut? && steps[m].i == i && states[m].callers[i].pc == ReadServer && states[m].server == Some(k)
    requires AfterAwait(states[n].callers[i].pc)
    ensures
      var c := states[n].callers[i];
      && k < |states[n].starters| && states[n].starters[k].cancelled
      && (c.timedOut || (c.received.Some? && states[n].starters[k].pc == Stopped(c.received.value)))
  {
    ReadIsKept(states, steps, m + 1, n, i, k);
    RunInv(states, steps, n);
  }

  // ---- register, unwind and the ordered closers, as the object runs them ----

  // Which part of the runtime teardown releases a subsystem.
  datatype Owner = OwnedByShutdown | OwnedByPrologue | OwnedByServer

  datatype Subsystem = Subsystem(name: string, owner: Owner, closes: bool)

  function Closing(subsystems: seq<Subsystem>): seq<string> {
    if subsystems == [] then []
    else
      Closing(subsystems[..|subsystems| - 1])
      + (if subsystems[|subsystems| - 1].closes then [subsystems[|subsystems| - 1].name] else [])
  }

  function ClosingOne(subsystem: Subsystem): seq<string> {
    if subsystem.closes then [subsystem.name] else []
  }

  lemma ClosingNext(before: seq<string>, subsystems: seq<Subsystem>, n: nat)
    requires n < |subsystems|
    ensures before + Closing(subsystems[..n + 1]) == before + Closing(subsystems[..n]) + ClosingOne(subsystems[n])
  {
    assert subsystems[..n + 1][..n] == subsystems[..n];
    AppendThree(before, Closing(subsystems[..n]), ClosingOne(subsystems[n]));
  }

  // From position i on no closer returns an error.
  predicate NoneFails(subsystems: seq<Subsystem>, i: nat, fails: set<string>) {
    forall j :: i <= j < |subsystems| && subsystems[j].closes ==> subsystems[j].name !in fails
  }

  lemma NoneFailsNext(subsystems: seq<Subsystem>, i: nat, fails: set<string>)
    requires i < |subsystems|
    ensures NoneFails(subsystems, i, fails) <==>
      NoneFails(subsystems, i + 1, fails) && !(subsystems[i].closes && subsystems[i].name in fails)
  {
  }

  function Reversed<T>(s: seq<T>): (r: seq<T>)
    ensures |r| == |s| && forall i :: 0 <= i < |s| ==> r[i] == s[|s| - 1 - i]
  {
    seq(|s|, i requires 0 <= i < |s| => s[|s| - 1 - i])
  }

  class Registry {
    var registered: seq<Subsystem>
    // The closers called, in the order they were called.
    ghost var log: seq<string>

    constructor ()
      ensures registered == [] && log == []
    {
      registered, log := [], [];
    }

    method RegisterSubsystem(name: string, owner: Owner, closes: bool)
      modifies this`registered
      ensures registered == old(registered) + [Subsystem(name, owner, closes)]
    {
      registered := registered + [Subsystem(name, owner, closes)];
    }

    // The startup-failure path: what was built last is closed first, and a
    // closer that fails does not keep the others from running. fails names the
    // closers that return an error.
    method Unwind(fails: set<string>) returns (errors: seq<string>)
      modifies this`log
      ensures log == old(log) + Closing(Reversed(registered))
      ensures errors == [] <==> forall i :: 0 <= i < |registered| && registered[i].closes ==> registered[i].name !in fails
    {
      errors := [];
      var i := |registered|;
      ghost var back := Reversed(registered);
      assert back[..0] == [];
      while i > 0
        invariant 0 <= i <= |registered|
        invariant log == old(log) + Closing(back[..|registered| - i])
        invariant errors == [] <==> NoneFails(registered, i, fails)
      {
        i := i - 1;
        ghost var n := |registered| - i;
        ClosingNext(old(log), back, n - 1);
        NoneFailsNext(registered, i, fails);
        ghost var before := log;
        if registered[i].closes {
          log := log + [registered[i].name];
          if registered[i].name in fails {
            errors := errors + [registered[i].name];
          }
        }
        assert log == before + ClosingOne(back[n - 1]);
      }
      assert back[..|registered|] == back;
    }
  }
}
