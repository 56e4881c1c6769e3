// What the teardown order of App.Shutdown is for: which subsystem depends on
// which, by name, that no run closes one before those that depend on it, and
// that the call that works goes through every stage and reports every failure.

module AppTeardown {
  import opened Prelude
  import opened AppShutdown

  // ---- who depends on whom ----

  // Everything a fully wired application registers, in the order of
  // construction (internal/app/bootstrap.go, init_*.go).
  datatype Registration = Registration(name: Name, owner: Owner)

  const Registrations: seq<Registration> := [
    Registration(LiveBroker, OwnedByPrologue),
    Registration(Storage, OwnedByShutdown), Registration(RuntimeSettings, OwnedByShutdown),
    Registration(RouteStrategies, OwnedByShutdown), Registration(Telemetry, OwnedByShutdown),
    Registration(Providers, OwnedByShutdown), Registration(Audit, OwnedByShutdown),
    Registration(Usage, OwnedByShutdown), Registration(Budgets, OwnedByShutdown),
    Registration(RateLimits, OwnedByShutdown), Registration(BatchStore, OwnedByShutdown),
    Registration(FileStore, OwnedByShutdown), Registration(ResponseStore, OwnedByServer),
    Registration(ConversationStore, OwnedByServer), Registration(ProviderCredentials, OwnedByShutdown),
    Registration(VirtualModels, OwnedByShutdown), Registration(Users, OwnedByShutdown),
    Registration(Tagging, OwnedByShutdown), Registration(PricingOverrides, OwnedByShutdown),
    Registration(Guardrails, OwnedByShutdown), Registration(Workflows, OwnedByShutdown),
    Registration(AuthKeys, OwnedByShutdown), Registration(McpGateway, OwnedByShutdown),
    Registration(ResponseCache, OwnedByServer)]

  // Buffers what requests leave behind and flushes it.
  predicate Buffers(n: Name) {
    n == BatchStore || n == Budgets || n == RateLimits || n == Usage || n == Audit
  }

  // a produces what b holds: requests and refreshes fill the buffering stores,
  // and everything there is may write to the shared storage.
  predicate WritesTo(a: Name, b: Name) {
    || (b == Storage && a != Storage)
    || (Buffers(b) && !Buffers(a) && a != Storage && a != Telemetry)
    || (b == Usage && (a == Budgets || a == RateLimits))      // account for the usage recorded
  }

  // a changes the configuration of b while it runs.
  predicate Reconfigures(a: Name, b: Name) {
    a == RuntimeSettings && b != RuntimeSettings
  }

  // a calls on b to do its work.
  predicate Uses(a: Name, b: Name) {
    || (a == Providers && b == RouteStrategies)               // providers select through them
    || (a == VirtualModels && (b == Users || b == RateLimits))
    || (a == Workflows && b == Guardrails)
    || (a == RouteStrategies && b == Guardrails)
    || (a == McpGateway && (b == Usage || b == RateLimits))
  }

  // a may emit spans and metrics, which b exports.
  predicate EmitsTo(a: Name, b: Name) {
    b == Telemetry && a != Telemetry && a != Storage
  }

  // b may only be closed once a is.
  predicate Precedes(a: Name, b: Name) {
    WritesTo(a, b) || Reconfigures(a, b) || Uses(a, b) || EmitsTo(a, b)
  }

  lemma OrderRespects(x: nat, y: nat)
    requires x < |ShutdownOrder| && y < |ShutdownOrder| && Precedes(ShutdownOrder[x], ShutdownOrder[y])
    ensures x < y
  {
  }

  // Each subsystem App.Shutdown owns stands in its order once, and no other does.
  predicate Owned(n: Name) {
    exists r :: r in Registrations && r.name == n && r.owner == OwnedByShutdown
  }

  lemma OrderCovers(n: Name)
    ensures Owned(n) <==> n in ShutdownOrder
  {
    if Owned(n) {
      OwnedOrdered(n);
    }
    if n in ShutdownOrder {
      OrderedOwned(n);
    }
  }

  lemma OwnedOrdered(n: Name)
    requires Owned(n)
    ensures n in ShutdownOrder
  {
    var r :| r in Registrations && r.name == n && r.owner == OwnedByShutdown;
    OwnedIsOrdered(r);
  }

  lemma OrderedOwned(n: Name)
    requires n in ShutdownOrder
    ensures Owned(n)
  {
    OrderIsRegistered(n);
    var r := Registration(n, OwnedByShutdown);
    assert r in Registrations && r.name == n && r.owner == OwnedByShutdown;
  }

  lemma OwnedIsOrdered(r: Registration)
    requires r in Registrations && r.owner == OwnedByShutdown
    ensures r.name in ShutdownOrder
  {
  }

  lemma OrderIsRegistered(n: Name)
    requires n in ShutdownOrder
    ensures Registration(n, OwnedByShutdown) in Registrations
  {
  }

  lemma OrderOnce(x: nat, y: nat)
    requires x < |ShutdownOrder| && y < |ShutdownOrder| && ShutdownOrder[x] == ShutdownOrder[y]
    ensures x == y
  {
  }

  lemma RegisteredOnce(x: nat, y: nat)
    requires x < |Registrations| && y < |Registrations| && Registrations[x].name == Registrations[y].name
    ensures x == y
  {
    if x < 12 {
      RegisteredEarly(x, y);
    } else if y < 12 {
      RegisteredEarly(y, x);
    }
  }

  lemma RegisteredEarly(x: nat, y: nat)
    requires x < 12 && y < |Registrations| && Registrations[x].name == Registrations[y].name
    ensures x == y
  {
  }

  // ---- what a run closes, by name ----

  // Position k of what was closed.
  predicate ClosedAt(s: State, k: nat, n: Name) {
    k < |s.closed| && s.closed[k] < |ShutdownOrder| && ShutdownOrder[s.closed[k]] == n
  }

  // There is something of that name to close.
  predicate Present(s: State, n: Name) {
    exists x :: 0 <= x < |s.present| && x < |ShutdownOrder| && s.present[x] && ShutdownOrder[x] == n
  }

  lemma NeverAfter(s: State, a: Name, b: Name, k: nat, l: nat)
    requires InOrder(s.closed) && Precedes(a, b) && ClosedAt(s, k, a) && ClosedAt(s, l, b)
    ensures k < l
  {
    OrderRespects(s.closed[k], s.closed[l]);
  }

  lemma ClosedUpTo(s: State, i: nat, l: nat, x: nat)
    requires Inv(s) && i < |s.callers| && Working(s.callers[i].pc)
    requires l < |s.closed| && x < s.closed[l] && x < |s.present| && s.present[x]
    ensures x in s.closed
  {
    ClosedIsPresent(s, i);
    PresentIncreases(s.present, Reached(s.callers[i].pc));
  }

  lemma BeforeIt(s: State, i: nat, a: Name, b: Name, l: nat) returns (k: nat)
    requires Inv(s) && InOrder(s.closed) && i < |s.callers| && Working(s.callers[i].pc)
    requires Precedes(a, b) && ClosedAt(s, l, b) && Present(s, a)
    ensures k < l && ClosedAt(s, k, a)
  {
    var x :| 0 <= x < |s.present| && x < |ShutdownOrder| && s.present[x] && ShutdownOrder[x] == a;
    OrderRespects(x, s.closed[l]);
    ClosedUpTo(s, i, l, x);
    k :| 0 <= k < |s.closed| && s.closed[k] == x;
    NeverAfter(s, a, b, k, l);
  }

  // Before b is closed, everything that depends on b is, and nothing that
  // depends on b is closed after it, in every state of every run.
  lemma ClosedInDependencyOrder(states: seq<State>, steps: seq<Step>, m: nat, a: Name, b: Name, l: nat)
    requires Run(states, steps) && m < |states| && Precedes(a, b) && ClosedAt(states[m], l, b)
    ensures Present(states[m], a) ==> exists k: nat :: k < l && ClosedAt(states[m], k, a)
    ensures forall k: nat :: ClosedAt(states[m], k, a) ==> k < l
  {
    var s := states[m];
    ClosedOnceInOrder(states, steps, m);
    forall k: nat | ClosedAt(s, k, a)
      ensures k < l
    {
      NeverAfter(s, a, b, k, l);
    }
    if Present(s, a) {
      var i := Worker(states, steps, m);
      var k := BeforeIt(s, i, a, b, l);
    }
  }

  lemma Worker(states: seq<State>, steps: seq<Step>, m: nat) returns (i: nat)
    requires Run(states, steps) && m < |states| && states[m].closed != []
    ensures Inv(states[m]) && i < |states[m].callers| && Working(states[m].callers[i].pc)
  {
    NobodyWorked(states, steps, m);
    RunInv(states, steps, m);
    i :| 0 <= i < |states[m].callers| && Working(states[m].callers[i].pc);
  }

  lemma PresentIsClosed(s: State, n: Name) returns (k: nat)
    requires ClosedAll(s) && Present(s, n)
    ensures ClosedAt(s, k, n)
  {
    var x :| 0 <= x < |s.present| && x < |ShutdownOrder| && s.present[x] && ShutdownOrder[x] == n;
    assert x in s.closed;
    k :| 0 <= k < |s.closed| && s.closed[k] == x;
  }

  lemma ClosedWasPresent(s: State, k: nat, n: Name)
    requires ClosedAll(s) && ClosedAt(s, k, n)
    ensures Present(s, n) && n in ShutdownOrder
  {
    assert s.closed[k] in s.closed;
  }

  lemma ClosedOnce(s: State, k: nat, l: nat, n: Name)
    requires InOrder(s.closed) && ClosedAt(s, k, n) && ClosedAt(s, l, n)
    ensures k == l
  {
    OrderOnce(s.closed[k], s.closed[l]);
  }

  // When a Shutdown call has done the work, each subsystem App.Shutdown owns and
  // that is there was closed exactly once, and no other.
  lemma OwnedClosedOnce(states: seq<State>, steps: seq<Step>, m: nat, i: nat, n: Name)
    requires Run(states, steps) && m < |states| && i < |states[m].callers| && states[m].callers[i].pc.Worked?
    ensures Owned(n) && Present(states[m], n) <==> exists k: nat :: ClosedAt(states[m], k, n)
    ensures forall k: nat, l: nat :: ClosedAt(states[m], k, n) && ClosedAt(states[m], l, n) ==> k == l
  {
    ClosedOnceInOrder(states, steps, m);
    OwnedOnce(states[m], n);
  }

  lemma OwnedOnce(s: State, n: Name)
    requires InOrder(s.closed) && ClosedAll(s)
    ensures Owned(n) && Present(s, n) <==> exists k: nat :: ClosedAt(s, k, n)
    ensures forall k: nat, l: nat :: ClosedAt(s, k, n) && ClosedAt(s, l, n) ==> k == l
  {
    OrderCovers(n);
    if Present(s, n) {
      var k := PresentIsClosed(s, n);
    }
    forall k: nat | ClosedAt(s, k, n)
      ensures Present(s, n) && n in ShutdownOrder
    {
      ClosedWasPresent(s, k, n);
    }
    forall k: nat, l: nat | ClosedAt(s, k, n) && ClosedAt(s, l, n)
      ensures k == l
    {
      ClosedOnce(s, k, l, n);
    }
  }

  // ---- the stages of the call that works ----

  // Step m is one of call i, taken at the given place.
  ghost predicate Took(states: seq<State>, steps: seq<Step>, m: nat, i: nat, pc: CallerPc)
    requires |states| == |steps| + 1
  {
    && m < |steps| && steps[m].Shut? && steps[m].i == i
    && i < |states[m].callers| && states[m].callers[i].pc == pc
  }

  lemma OtherStep(s: State, step: Step, i: nat)
    requires Enabled(s, step) && i < |s.callers| && !(step.Shut? && step.i == i)
    ensures i < |Apply(s, step).callers| && Apply(s, step).callers[i] == s.callers[i]
  {
  }

  // The step that brought call i to where it is.
  lemma {:induction false} Came(states: seq<State>, steps: seq<Step>, n: nat, i: nat) returns (m: nat)
    requires Run(states, steps) && n < |states| && i < |states[n].callers| && states[n].callers[i].pc != Check
    ensures m < n && m < |steps| && steps[m].Shut? && steps[m].i == i && i < |states[m].callers|
    ensures states[m + 1].callers == Apply(states[m], steps[m]).callers && i < |states[m + 1].callers|
    ensures states[m + 1].callers[i] == states[n].callers[i]
  {
    assert n > 0;
    var s, step := states[n - 1], steps[n - 1];
    if step.Shut? && step.i == i {
      m := n - 1;
    } else {
      SameCallers(states, steps, n);
      SameCallers(states, steps, n - 1);
      OtherStep(s, step, i);
      m := Came(states, steps, n - 1, i);
    }
  }

  // The places a call can come from to a later one.
  predicate ComesFrom(to: CallerPc, from: CallerPc) {
    match to
    case ReadServer => from == Streams
    case CancelServer => from == ReadServer
    case AwaitServer => from == CancelServer
    case ForgetServer => from == AwaitServer
    case CloseServerResources => from == AwaitServer || from == ForgetServer
    case Closers(_) => from == CloseServerResources || from.Closers?
    case Worked(_) => from.Closers?
    case _ => true
  }

  lemma PreviousStage(s: State, i: nat, ok: bool, timeout: bool)
    requires i < |s.callers| && ShutEnabled(s, i, timeout)
    ensures var t := ShutApply(s, i, ok, timeout);
      |t.callers| == |s.callers| && ComesFrom(t.callers[i].pc, s.callers[i].pc)
  {
  }

  lemma CameFrom(states: seq<State>, steps: seq<Step>, n: nat, i: nat) returns (m: nat, from: CallerPc)
    requires Run(states, steps) && n < |states| && i < |states[n].callers| && states[n].callers[i].pc != Check
    ensures m < n && Took(states, steps, m, i, from) && ComesFrom(states[n].callers[i].pc, from)
  {
    m := Came(states, steps, n, i);
    from := states[m].callers[i].pc;
    PreviousStage(states[m], i, steps[m].ok, steps[m].timeout);
  }

  predicate AtClosers(pc: CallerPc) {
    pc.Closers? || pc.Worked?
  }

  lemma {:induction false} ClosedResources(states: seq<State>, steps: seq<Step>, n: nat, i: nat) returns (m: nat)
    requires Run(states, steps) && n < |states| && i < |states[n].callers| && AtClosers(states[n].callers[i].pc)
    ensures m < n && Took(states, steps, m, i, CloseServerResources)
    decreases n
  {
    var from;
    m, from := CameFrom(states, steps, n, i);
    if from.Closers? {
      m := ClosedResources(states, steps, m, i);
    }
  }

  lemma Awaited(states: seq<State>, steps: seq<Step>, n: nat, i: nat) returns (m: nat)
    requires Run(states, steps) && n < |states| && i < |states[n].callers|
    requires states[n].callers[i].pc == CloseServerResources
    ensures m < n && Took(states, steps, m, i, AwaitServer)
  {
    var from;
    m, from := CameFrom(states, steps, n, i);
    if from == ForgetServer {
      m, from := CameFrom(states, steps, m, i);
    }
  }

  // By the time the call that works comes to the closers it has, in this order,
  // ended the long-lived streams, looked up and cancelled the server, waited
  // for it and released its resources.
  lemma StagesInOrder(states: seq<State>, steps: seq<Step>, n: nat, i: nat)
    returns (a: nat, b: nat, c: nat, d: nat, e: nat)
    requires Run(states, steps) && n < |states| && i < |states[n].callers| && AtClosers(states[n].callers[i].pc)
    ensures a < b < c < d < e < n
    ensures Took(states, steps, a, i, Streams) && Took(states, steps, b, i, ReadServer)
    ensures Took(states, steps, c, i, CancelServer) && Took(states, steps, d, i, AwaitServer)
    ensures Took(states, steps, e, i, CloseServerResources)
  {
    e := ClosedResources(states, steps, n, i);
    d := Awaited(states, steps, e, i);
    a, b, c := BeforeWaiting(states, steps, d, i);
  }

  lemma BeforeWaiting(states: seq<State>, steps: seq<Step>, n: nat, i: nat) returns (a: nat, b: nat, c: nat)
    requires Run(states, steps) && n < |states| && i < |states[n].callers| && states[n].callers[i].pc == AwaitServer
    ensures a < b < c < n
    ensures Took(states, steps, a, i, Streams) && Took(states, steps, b, i, ReadServer)
    ensures Took(states, steps, c, i, CancelServer)
  {
    var from;
    c, from := CameFrom(states, steps, n, i);
    b, from := CameFrom(states, steps, c, i);
    a, from := CameFrom(states, steps, b, i);
  }

  // ---- what the call that works reports ----

  // The deadline passed while waiting, the server ended in error, its resources
  // or a subsystem could not be closed.
  predicate Fails(s: State, step: Step) {
    step.Shut? && step.i < |s.callers| &&
    match s.callers[step.i].pc
    case AwaitServer => s.callers[step.i].server.Some? && step.timeout
    case ForgetServer => s.callers[step.i].received == Some(Failed)
    case CloseServerResources => !step.ok
    case Closers(n) => n < |ShutdownOrder| && n < |s.present| && s.present[n] && !step.ok
    case _ => false
  }

  ghost predicate SomeFailed(states: seq<State>, steps: seq<Step>, n: nat, i: nat)
    requires |states| == |steps| + 1
  {
    exists m: nat :: m < n && m < |steps| && steps[m].Shut? && steps[m].i == i && Fails(states[m], steps[m])
  }

  lemma FailuresStep(s: State, step: Step, i: nat)
    requires Enabled(s, step) && i < |s.callers|
    ensures var t := Apply(s, step);
      && i < |t.callers|
      && (t.callers[i].failures > 0 <==> s.callers[i].failures > 0 || (step.Shut? && step.i == i && Fails(s, step)))
  {
    if !(step.Shut? && step.i == i) {
      OtherStep(s, step, i);
    }
  }

  ghost predicate FailuresCount(states: seq<State>, steps: seq<Step>, n: nat, i: nat)
    requires |states| == |steps| + 1 && n < |states| && i < |states[n].callers|
  {
    states[n].callers[i].failures > 0 <==> SomeFailed(states, steps, n, i)
  }

  lemma FailuresNext(states: seq<State>, steps: seq<Step>, n: nat, i: nat)
    requires |states| == |steps| + 1 && n < |steps| && i < |states[n].callers| && i < |states[n + 1].callers|
    requires Enabled(states[n], steps[n]) && states[n + 1] == Apply(states[n], steps[n])
    requires FailuresCount(states, steps, n, i)
    ensures FailuresCount(states, steps, n + 1, i)
  {
    FailuresStep(states[n], steps[n], i);
    MoreFailed(states, steps, n, i);
  }

  lemma {:induction false} FailuresAreSteps(states: seq<State>, steps: seq<Step>, n: nat, i: nat)
    requires Run(states, steps) && n < |states| && i < |states[n].callers|
    ensures FailuresCount(states, steps, n, i)
  {
    if n > 0 {
      SameCallers(states, steps, n);
      SameCallers(states, steps, n - 1);
      FailuresAreSteps(states, steps, n - 1, i);
      assert Enabled(states[n - 1], steps[n - 1]);
      FailuresNext(states, steps, n - 1, i);
    }
  }

  lemma MoreFailed(states: seq<State>, steps: seq<Step>, n: nat, i: nat)
    requires |states| == |steps| + 1 && n < |steps|
    ensures SomeFailed(states, steps, n + 1, i) <==>
      SomeFailed(states, steps, n, i) || (steps[n].Shut? && steps[n].i == i && Fails(states[n], steps[n]))
  {
  }

  lemma WorkedStep(s: State, step: Step, i: nat)
    requires Enabled(s, step) && i < |s.callers| && i < |Apply(s, step).callers|
    requires s.callers[i].pc.Worked? ==> s.callers[i].pc.failed == (s.callers[i].failures > 0)
    ensures var c := Apply(s, step).callers[i]; c.pc.Worked? ==> c.pc.failed == (c.failures > 0)
  {
    if !(step.Shut? && step.i == i) {
      OtherStep(s, step, i);
    }
  }

  lemma {:induction false} WorkedCounts(states: seq<State>, steps: seq<Step>, n: nat, i: nat)
    requires Run(states, steps) && n < |states| && i < |states[n].callers|
    ensures var c := states[n].callers[i]; c.pc.Worked? ==> c.pc.failed == (c.failures > 0)
  {
    if n > 0 {
      SameCallers(states, steps, n);
      SameCallers(states, steps, n - 1);
      WorkedCounts(states, steps, n - 1, i);
      WorkedStep(states[n - 1], steps[n - 1], i);
    }
  }

  // The call that worked returns an error exactly when one of its steps failed.
  lemma ReportsEveryFailure(states: seq<State>, steps: seq<Step>, n: nat, i: nat)
    requires Run(states, steps) && n < |states| && i < |states[n].callers| && states[n].callers[i].pc.Worked?
    ensures states[n].callers[i].pc.failed <==> SomeFailed(states, steps, n, i)
  {
    WorkedCounts(states, steps, n, i);
    FailuresAreSteps(states, steps, n, i);
  }

  // ---- nobody waits for what has happened ----

  // The server a call waits for has left its result when it has stopped.
  predicate LeftResult(c: Caller, starters: seq<Starter>) {
    AwaitsResult(c) && c.server.value < |starters| && starters[c.server.value].pc.Stopped? ==>
      starters[c.server.value].doneClosed
  }

  predicate ResultsLeft(s: State) {
    forall i :: 0 <= i < |s.callers| ==> LeftResult(s.callers[i], s.starters)
  }

  lemma StartLeaves(s: State, k: nat, result: ServerResult)
    requires Inv(s) && ResultsLeft(s) && Enabled(s, Start(k, result))
    ensures ResultsLeft(StartApply(s, k, result))
  {
    var t := StartApply(s, k, result);
    forall i | 0 <= i < |t.callers|
      ensures LeftResult(t.callers[i], t.starters)
    {
      assert LeftResult(s.callers[i], s.starters) && SoundCaller(s.callers[i], s);
    }
  }

  lemma ShutLeaves(s: State, j: nat, ok: bool, timeout: bool)
    requires Inv(s) && ResultsLeft(s) && Enabled(s, Shut(j, ok, timeout))
    ensures ResultsLeft(ShutApply(s, j, ok, timeout))
  {
    var t := ShutApply(s, j, ok, timeout);
    forall i | 0 <= i < |t.callers|
      ensures LeftResult(t.callers[i], t.starters)
    {
      assert LeftResult(s.callers[i], s.starters);
      StarterStays(s, j, ok, timeout);
      ReadIsRunning(s, j, ok, timeout);
    }
  }

  lemma StarterStays(s: State, j: nat, ok: bool, timeout: bool)
    requires Enabled(s, Shut(j, ok, timeout))
    ensures var t := ShutApply(s, j, ok, timeout);
      && |t.starters| == |s.starters| && |t.callers| == |s.callers|
      && (forall k :: 0 <= k < |s.starters| ==>
           t.starters[k].pc == s.starters[k].pc && t.starters[k].doneClosed == s.starters[k].doneClosed)
      && (forall i :: 0 <= i < |s.callers| && i != j ==> t.callers[i] == s.callers[i])
  {
  }

  lemma ReadIsRunning(s: State, j: nat, ok: bool, timeout: bool)
    requires Inv(s) && ResultsLeft(s) && Enabled(s, Shut(j, ok, timeout))
    ensures LeftResult(ShutApply(s, j, ok, timeout).callers[j], s.starters)
  {
    assert LeftResult(s.callers[j], s.starters);
    if s.callers[j].pc == ReadServer && s.server.Some? {
      assert SoundStarter(s.starters[s.server.value], s.server.value, s.server);
    }
  }

  lemma {:induction false} RunLeaves(states: seq<State>, steps: seq<Step>, n: nat)
    requires Run(states, steps) && n < |states|
    ensures ResultsLeft(states[n])
  {
    if n > 0 {
      RunLeaves(states, steps, n - 1);
      RunInv(states, steps, n - 1);
      match steps[n - 1]
      case Start(k, result) => StartLeaves(states[n - 1], k, result);
      case Shut(j, ok, timeout) => ShutLeaves(states[n - 1], j, ok, timeout);
    }
  }

  predicate StarterGoes(s: State, i: nat)
    requires i < |s.starters|
  {
    s.starters[i].pc.Stopped? || s.starters[i].pc == AlreadyRunning || StartEnabled(s, i)
  }

  // A call that has not ended goes on, at the deadline if nothing else; only
  // the wait for a server that still runs lasts until then.
  predicate CallerGoes(s: State, i: nat)
    requires i < |s.callers|
  {
    var c := s.callers[i];
    && (!c.pc.Worked? && c.pc != NoOp ==> ShutEnabled(s, i, true))
    && (!c.pc.Worked? && c.pc != NoOp && c.pc != AwaitServer ==> ShutEnabled(s, i, false))
    && (c.pc == AwaitServer && (c.server.None? || (c.server.value < |s.starters| && s.starters[c.server.value].pc.Stopped?)) ==>
         ShutEnabled(s, i, false))
  }

  // In every state of every run each call can take its next step as soon as what
  // it waits for has happened.
  lemma EveryoneGoes(states: seq<State>, steps: seq<Step>, n: nat)
    requires Run(states, steps) && n < |states|
    ensures forall i :: 0 <= i < |states[n].starters| ==> StarterGoes(states[n], i)
    ensures forall i :: 0 <= i < |states[n].callers| ==> CallerGoes(states[n], i)
  {
    var s := states[n];
    RunInv(states, steps, n);
    RunLeaves(states, steps, n);
    forall i | 0 <= i < |s.starters|
      ensures StarterGoes(s, i)
    {
      assert SoundStarter(s.starters[i], i, s.server);
    }
    forall i | 0 <= i < |s.callers|
      ensures CallerGoes(s, i)
    {
      assert LeftResult(s.callers[i], s.starters);
    }
  }
}
