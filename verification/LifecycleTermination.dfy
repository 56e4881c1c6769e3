// After a stop signal the reload protocol comes to an end.

module LifecycleTermination {
  import opened Prelude
  import opened Lifecycle

  function HelperWeight(pc: HelperPc): nat {
    match pc
    case CallShutdown => 3
    case InShutdown => 2
    case SendResult => 1
    case HelperDone => 0
  }

  function AsksWeight(asks: seq<Ask>): nat {
    if asks == [] then 0 else AsksWeight(asks[..|asks| - 1]) + HelperWeight(asks[|asks| - 1].pc)
  }

  function AppsWeight(apps: seq<App>): nat {
    if apps == [] then 0 else AppsWeight(apps[..|apps| - 1]) + AsksWeight(apps[|apps| - 1].asks)
  }

  function GenerationWeight(gen: Generation): nat {
    (match gen.watcher
     case Select => 5
     case Rebuilding => 14
     case SendReplacement(_) => 3
     case CancelGeneration => 2
     case CloseReplacement => 1
     case WatcherDone => 0)
    + (match gen.teardown
       case Waiting => 7
       case AskShutdown => 6
       case AwaitShutdown => 2
       case SendDone => 1
       case TeardownDone => 0)
    + (if gen.listenerOpen then 1 else 0)
  }

  function GenerationsWeight(generations: seq<Generation>): nat {
    if generations == [] then 0
    else GenerationsWeight(generations[..|generations| - 1]) + GenerationWeight(generations[|generations| - 1])
  }

  function MainWeight(main: MainPc): nat {
    match main
    case TakeListener => 27
    case Spawn => 26
    case CallStart => 12
    case InStart => 11
    case CloseReturned(_) => 10
    case AwaitTeardown(_) => 9
    case EndGeneration(_) => 8
    case AwaitReplacement(_) => 7
    case Decide(_, _) => 6
    case AskUnserved => 5
    case AskDropped(_, _) => 5
    case AwaitUnserved => 1
    case AwaitDropped(_, _) => 1
    case Returned(_) => 0
  }

  function Weight(s: State): nat {
    MainWeight(s.main) + (if s.reloadPending then 10 else 0) + GenerationsWeight(s.generations) + AppsWeight(s.apps)
  }

  // Steps of the protocol itself: all but the signals and the final Close.
  predicate Protocol(step: Step) {
    !step.SignalStop? && !step.SignalReload? && !step.CloseSocket?
  }

  lemma GenerationsUpdate(generations: seq<Generation>, g: nat, gen: Generation)
    requires g < |generations|
    ensures GenerationsWeight(generations[g := gen]) ==
            GenerationsWeight(generations) - GenerationWeight(generations[g]) + GenerationWeight(gen)
    ensures GenerationsWeight(generations) >= GenerationWeight(generations[g])
  {
    var n := |generations| - 1;
    if g == n {
      assert generations[g := gen][..n] == generations[..n];
    } else {
      assert generations[g := gen][..n] == generations[..n][g := gen];
      GenerationsUpdate(generations[..n], g, gen);
    }
  }

  lemma AsksUpdate(asks: seq<Ask>, k: nat, ask: Ask)
    requires k < |asks|
    ensures AsksWeight(asks[k := ask]) == AsksWeight(asks) - HelperWeight(asks[k].pc) + HelperWeight(ask.pc)
    ensures AsksWeight(asks) >= HelperWeight(asks[k].pc)
  {
    var n := |asks| - 1;
    if k == n {
      assert asks[k := ask][..n] == asks[..n];
    } else {
      assert asks[k := ask][..n] == asks[..n][k := ask];
      AsksUpdate(asks[..n], k, ask);
    }
  }

  lemma AppsUpdate(apps: seq<App>, a: nat, app: App)
    requires a < |apps|
    ensures AppsWeight(apps[a := app]) == AppsWeight(apps) - AsksWeight(apps[a].asks) + AsksWeight(app.asks)
    ensures AppsWeight(apps) >= AsksWeight(apps[a].asks)
  {
    var n := |apps| - 1;
    if a == n {
      assert apps[a := app][..n] == apps[..n];
    } else {
      assert apps[a := app][..n] == apps[..n][a := app];
      AppsUpdate(apps[..n], a, app);
    }
  }

  lemma AskAppWeight(s: State, a: nat)
    ensures AppsWeight(AskApp(s, a).apps) <= AppsWeight(s.apps) + 3
  {
    if a < |s.apps| {
      var asks := s.apps[a].asks;
      assert (asks + [NewAsk])[..|asks|] == asks;
      AppsUpdate(s.apps, a, s.apps[a].(asks := asks + [NewAsk]));
    }
  }

  lemma TakeResultWeight(s: State, a: nat)
    ensures AppsWeight(TakeResult(s, a).apps) == AppsWeight(s.apps)
  {
    if ResultReady(s, a) {
      var asks := s.apps[a].asks;
      var n := |asks| - 1;
      AsksUpdate(asks, n, asks[n].(done := false));
      AppsUpdate(s.apps, a, s.apps[a].(asks := asks[n := asks[n].(done := false)]));
    }
  }

  // A step of one generation, which may add the given weight to the applications.
  lemma GenerationWeighs(s: State, t: State, g: nat, gen: Generation, added: nat)
    requires g < |s.generations| && t.generations == s.generations[g := gen]
    requires t.main == s.main && t.reloadPending == s.reloadPending
    requires AppsWeight(t.apps) <= AppsWeight(s.apps) + added
    requires GenerationWeight(gen) + added < GenerationWeight(s.generations[g])
    ensures Weight(t) < Weight(s)
  {
    GenerationsUpdate(s.generations, g, gen);
  }

  // A step of the serve loop that leaves the newest generation's weight alone.
  lemma NewestWeighs(s: State, t: State, gen: Generation)
    requires s.generations != [] && t.generations == s.generations[|s.generations| - 1 := gen]
    requires GenerationWeight(gen) == GenerationWeight(s.generations[|s.generations| - 1])
    requires t.apps == s.apps && t.reloadPending == s.reloadPending && MainWeight(t.main) < MainWeight(s.main)
    ensures Weight(t) < Weight(s)
  {
    GenerationsUpdate(s.generations, |s.generations| - 1, gen);
  }

  lemma LoopWeighs(s: State, ok: bool)
    requires Inv(s) && Enabled(s, MainStep(ok))
    requires s.main.CloseReturned? || s.main.AwaitTeardown? || s.main.EndGeneration? || s.main.AwaitReplacement?
    ensures Weight(MainApply(s, ok)) < Weight(s)
  {
    if s.main.CloseReturned? || s.main.AwaitTeardown? {
      ClosingWeighs(s, ok);
    } else {
      EndingWeighs(s, ok);
    }
  }

  lemma ClosingWeighs(s: State, ok: bool)
    requires Inv(s) && Enabled(s, MainStep(ok)) && (s.main.CloseReturned? || s.main.AwaitTeardown?)
    ensures Weight(MainApply(s, ok)) < Weight(s)
  {
    var last := s.generations[|s.generations| - 1];
    NewestWeighs(s, MainApply(s, ok),
      if s.main.CloseReturned? then last.(serverReturned := true) else last.(shutdownDone := false));
  }

  lemma EndingWeighs(s: State, ok: bool)
    requires Inv(s) && Enabled(s, MainStep(ok)) && (s.main.EndGeneration? || s.main.AwaitReplacement?)
    ensures Weight(MainApply(s, ok)) < Weight(s)
  {
    var last := s.generations[|s.generations| - 1];
    NewestWeighs(s, MainApply(s, ok),
      if s.main.EndGeneration? then last.(cancelled := true) else last.(replacement := None));
  }

  lemma SpawnWeighs(s: State, ok: bool)
    requires s.main == Spawn
    ensures Weight(MainApply(s, ok)) < Weight(s)
  {
    assert (s.generations + [NewGeneration])[..|s.generations|] == s.generations;
  }

  lemma StartWeighs(s: State, ok: bool)
    requires Inv(s) && s.main == CallStart
    ensures Weight(MainApply(s, ok)) < Weight(s)
  {
    AppsUpdate(s.apps, s.application, s.apps[s.application].(starts := s.apps[s.application].starts + 1));
  }

  lemma AskWeighs(s: State, ok: bool)
    requires Enabled(s, MainStep(ok))
    requires s.main.AskUnserved? || s.main.AwaitUnserved? || s.main.AskDropped? || s.main.AwaitDropped?
    ensures Weight(MainApply(s, ok)) < Weight(s)
  {
    if s.main.AskUnserved? {
      UnservedAskedWeighs(s, ok);
    } else if s.main.AskDropped? {
      DroppedAskedWeighs(s, ok);
    } else {
      ReceivedWeighs(s, ok);
    }
  }

  lemma UnservedAskedWeighs(s: State, ok: bool)
    requires Enabled(s, MainStep(ok)) && s.main.AskUnserved?
    ensures Weight(MainApply(s, ok)) < Weight(s)
  {
    AskAppWeight(s, s.application);
  }

  lemma DroppedAskedWeighs(s: State, ok: bool)
    requires Enabled(s, MainStep(ok)) && s.main.AskDropped?
    ensures Weight(MainApply(s, ok)) < Weight(s)
  {
    AskAppWeight(s, s.main.dropped);
  }

  lemma ReceivedWeighs(s: State, ok: bool)
    requires Enabled(s, MainStep(ok)) && (s.main.AwaitUnserved? || s.main.AwaitDropped?)
    ensures Weight(MainApply(s, ok)) < Weight(s)
  {
    TakeResultWeight(s, if s.main.AwaitUnserved? then s.application else s.main.dropped);
  }

  lemma MainWeighs(s: State, ok: bool)
    requires Inv(s) && s.cancelled && Enabled(s, MainStep(ok))
    ensures Weight(MainApply(s, ok)) < Weight(s)
  {
    if s.main.CloseReturned? || s.main.AwaitTeardown? || s.main.EndGeneration? || s.main.AwaitReplacement? {
      LoopWeighs(s, ok);
    } else if s.main.AskUnserved? || s.main.AwaitUnserved? || s.main.AskDropped? || s.main.AwaitDropped? {
      AskWeighs(s, ok);
    } else if s.main == Spawn {
      SpawnWeighs(s, ok);
    } else if s.main == CallStart {
      StartWeighs(s, ok);
    } else {
      LeavesWeights(s, ok);
    }
  }

  // The steps of the main goroutine that touch no generation and no application.
  lemma LeavesWeights(s: State, ok: bool)
    requires s.cancelled && Enabled(s, MainStep(ok))
    requires !(s.main.CloseReturned? || s.main.AwaitTeardown? || s.main.EndGeneration? || s.main.AwaitReplacement?)
    requires !(s.main.AskUnserved? || s.main.AwaitUnserved? || s.main.AskDropped? || s.main.AwaitDropped?)
    requires s.main != Spawn && s.main != CallStart
    ensures Weight(MainApply(s, ok)) < Weight(s)
  {
  }

  lemma WatchWeighs(s: State, g: nat, ok: bool)
    requires Enabled(s, WatchStep(g, ok))
    ensures Weight(WatchApply(s, g, ok)) < Weight(s)
  {
    var t := WatchApply(s, g, ok);
    if s.generations[g].watcher == Rebuilding && ok {
      assert t.apps[..|s.apps|] == s.apps;
    }
    GenerationWeighs(s, t, g, t.generations[g], 0);
  }

  lemma TeardownAskWeighs(s: State, g: nat)
    requires Enabled(s, TeardownStep(g)) && s.generations[g].teardown == AskShutdown
    ensures Weight(TeardownApply(s, g)) < Weight(s)
  {
    var gen := s.generations[g].(teardown := AwaitShutdown);
    AskAppWeight(SetGeneration(s, g, gen), g);
    GenerationWeighs(s, TeardownApply(s, g), g, gen, 3);
  }

  lemma TeardownReceiveWeighs(s: State, g: nat)
    requires Enabled(s, TeardownStep(g)) && s.generations[g].teardown == AwaitShutdown
    ensures Weight(TeardownApply(s, g)) < Weight(s)
  {
    var gen := s.generations[g].(teardown := SendDone);
    TakeResultWeight(SetGeneration(s, g, gen), g);
    GenerationWeighs(s, TeardownApply(s, g), g, gen, 0);
  }

  lemma TeardownWeighs(s: State, g: nat)
    requires Enabled(s, TeardownStep(g))
    ensures Weight(TeardownApply(s, g)) < Weight(s)
  {
    var t := TeardownApply(s, g);
    match s.generations[g].teardown
    case Waiting => GenerationWeighs(s, t, g, t.generations[g], 0);
    case AskShutdown => TeardownAskWeighs(s, g);
    case AwaitShutdown => TeardownReceiveWeighs(s, g);
    case SendDone => GenerationWeighs(s, t, g, t.generations[g], 0);
  }

  lemma HelperWeighs(s: State, a: nat, k: nat)
    requires Enabled(s, HelperStep(a, k))
    ensures Weight(Apply(s, HelperStep(a, k))) < Weight(s)
  {
    var asks := s.apps[a].asks;
    AsksUpdate(asks, k, HelperApply(asks[k]));
    AppsUpdate(s.apps, a, s.apps[a].(asks := asks[k := HelperApply(asks[k])]));
  }

  lemma ReloadWeighs(s: State, g: nat)
    requires Enabled(s, WatchReload(g))
    ensures Weight(Apply(s, WatchReload(g))) < Weight(s)
  {
    GenerationsUpdate(s.generations, g, s.generations[g].(watcher := Rebuilding));
  }

  lemma OtherWeighs(s: State, step: Step)
    requires Enabled(s, step)
    requires step.WatchCancelled? || step.TeardownTimeout? || step.ServerClosesListener? || step.MainTimeout?
    ensures Weight(Apply(s, step)) < Weight(s)
  {
    if !step.MainTimeout? {
      GenerationWeighs(s, Apply(s, step), step.g, Apply(s, step).generations[step.g], 0);
    }
  }

  // After a stop signal every protocol step uses up some of the weight.
  lemma StepWeighs(s: State, step: Step)
    requires Inv(s) && s.cancelled && Enabled(s, step) && Protocol(step)
    ensures Weight(Apply(s, step)) < Weight(s)
  {
    match step
    case MainStep(ok) => MainWeighs(s, ok);
    case WatchReload(g) => ReloadWeighs(s, g);
    case WatchStep(g, ok) => WatchWeighs(s, g, ok);
    case TeardownStep(g) => TeardownWeighs(s, g);
    case HelperStep(a, k) => HelperWeighs(s, a, k);
    case _ => OtherWeighs(s, step);
  }

  // How many of the steps i to j are of the protocol, and how many reload signals.
  function ProtocolSteps(steps: seq<Step>, i: nat, j: nat): nat
    requires i <= j <= |steps|
  {
    if i == j then 0
    else ProtocolSteps(steps, i, j - 1) + (if Protocol(steps[j - 1]) then 1 else 0)
  }

  function ReloadSignals(steps: seq<Step>, i: nat, j: nat): nat
    requires i <= j <= |steps|
  {
    if i == j then 0
    else ReloadSignals(steps, i, j - 1) + (if steps[j - 1].SignalReload? then 1 else 0)
  }

  lemma SignalWeighs(s: State, step: Step)
    requires Enabled(s, step) && !Protocol(step)
    ensures Weight(Apply(s, step)) <= Weight(s) + (if step.SignalReload? then 10 else 0)
  {
  }

  lemma KeepsCancelled(s: State, step: Step)
    requires Enabled(s, step) && s.cancelled
    ensures Apply(s, step).cancelled
  {
  }

  lemma {:induction false} StaysCancelled(states: seq<State>, steps: seq<Step>, i: nat, j: nat)
    requires Run(states, steps) && i <= j < |states| && states[i].cancelled
    ensures states[j].cancelled
  {
    if i < j {
      StaysCancelled(states, steps, i, j - 1);
      KeepsCancelled(states[j - 1], steps[j - 1]);
    }
  }

  // A protocol step uses up weight, and a reload signal adds at most ten.
  predicate Spends(s: State, step: Step, t: State) {
    (if Protocol(step) then 1 else 0) + Weight(t) <= Weight(s) + 10 * (if step.SignalReload? then 1 else 0)
  }

  lemma BoundedStep(s: State, step: Step)
    requires Inv(s) && s.cancelled && Enabled(s, step)
    ensures Spends(s, step, Apply(s, step))
  {
    if Protocol(step) {
      StepWeighs(s, step);
    } else {
      SignalWeighs(s, step);
    }
  }

  lemma SpendsAt(states: seq<State>, steps: seq<Step>, i: nat)
    requires Run(states, steps) && i < |steps| && states[i].cancelled
    ensures Spends(states[i], steps[i], states[i + 1])
  {
    RunInv(states, steps, i);
    BoundedStep(states[i], steps[i]);
    assert states[i + 1] == Apply(states[i], steps[i]);
  }

  lemma {:induction false} SpentInAll(states: seq<State>, steps: seq<Step>, i: nat, j: nat)
    requires |states| == |steps| + 1 && i <= j < |states|
    requires forall m {:trigger steps[m]} :: i <= m < j ==> Spends(states[m], steps[m], states[m + 1])
    ensures ProtocolSteps(steps, i, j) + Weight(states[j]) <= Weight(states[i]) + 10 * ReloadSignals(steps, i, j)
  {
    if i < j {
      SpentInAll(states, steps, i, j - 1);
      assert Spends(states[j - 1], steps[j - 1], states[j]);
    }
  }

  // From a stop signal on, the whole process takes a bounded number of steps,
  // whatever the scheduling; each further reload signal adds a bounded number.
  lemma BoundedAfterStop(states: seq<State>, steps: seq<Step>, i: nat, j: nat)
    requires Run(states, steps) && i <= j < |states| && states[i].cancelled
    ensures states[j].cancelled
    ensures ProtocolSteps(steps, i, j) + Weight(states[j]) <= Weight(states[i]) + 10 * ReloadSignals(steps, i, j)
  {
    StaysCancelled(states, steps, i, j);
    forall m {:trigger steps[m]} | i <= m < j
      ensures Spends(states[m], steps[m], states[m + 1])
    {
      StaysCancelled(states, steps, i, m);
      SpendsAt(states, steps, m);
    }
    SpentInAll(states, steps, i, j);
  }

  // Until the loop has returned some goroutine can always take a step: with
  // BoundedAfterStop, every run that keeps going after a stop signal returns.
  lemma NeverStuck(states: seq<State>, steps: seq<Step>, i: nat) returns (step: Step)
    requires Run(states, steps) && i < |states| && !states[i].main.Returned?
    ensures Protocol(step) && Enabled(states[i], step)
  {
    var s := states[i];
    RunInv(states, steps, i);
    var last := |s.generations| - 1;
    match s.main
    case TakeListener =>
      ClosedLast(states, steps, i);
      step := MainStep(true);
    case AwaitUnserved => step := MainTimeout;
    case AwaitDropped(_, _) => step := MainTimeout;
    case AwaitTeardown(_) =>
      match s.generations[last].teardown {
        case AwaitShutdown => step := TeardownTimeout(last);
        case TeardownDone => step := MainStep(true);
        case _ => step := TeardownStep(last);
      }
    case AwaitReplacement(_) =>
      match s.generations[last].watcher {
        case Select => step := WatchCancelled(last);
        case WatcherDone => step := MainStep(true);
        case _ => step := WatchStep(last, true);
      }
    case _ => step := MainStep(true);
  }
}
