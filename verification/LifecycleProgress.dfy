// No goroutine of the reload protocol waits for something that has happened
// already, a built replacement ends its generation, and the calls the protocol
// makes may turn out either way.

module LifecycleProgress {
  import opened Prelude
  import opened Lifecycle
  import opened LifecycleResult

  // ---- what each goroutine waits for ----

  // A watcher is at rest only while there is no reload signal and its generation
  // goes on, or when it is done.
  predicate WatcherGoes(s: State, g: nat)
    requires g < |s.generations|
  {
    match s.generations[g].watcher
    case Select =>
      && (s.reloadPending ==> Enabled(s, WatchReload(g)))
      && (ContextDone(s, g) ==> Enabled(s, WatchCancelled(g)))
    case WatcherDone => true
    case _ => Enabled(s, WatchStep(g, true)) && Enabled(s, WatchStep(g, false))
  }

  // A teardown waits for the end of its generation, and then for the Shutdown of
  // its application or the deadline, and for nothing else.
  predicate TeardownGoes(s: State, g: nat)
    requires g < |s.generations|
  {
    match s.generations[g].teardown
    case Waiting => s.cancelled || s.generations[g].cancelled || s.generations[g].serverReturned ==> Enabled(s, TeardownStep(g))
    case AwaitShutdown => Enabled(s, TeardownTimeout(g)) && (ShutdownEnded(s, g) ==> Enabled(s, TeardownStep(g)))
    case TeardownDone => true
    case _ => Enabled(s, TeardownStep(g))
  }

  // The last Shutdown of application a has ended.
  predicate ShutdownEnded(s: State, a: nat) {
    && a < |s.apps| && s.apps[a].asks != []
    && s.apps[a].asks[|s.apps[a].asks| - 1].pc == HelperDone
  }

  // A Shutdown call that has not ended goes on.
  predicate HelperGoes(s: State, a: nat, k: nat)
    requires a < |s.apps| && k < |s.apps[a].asks|
  {
    s.apps[a].asks[k].pc != HelperDone ==> Enabled(s, HelperStep(a, k))
  }

  // The serve loop waits for a teardown, a watcher or a Shutdown that is not done.
  predicate MainGoes(s: State) {
    var last := |s.generations| - 1;
    match s.main
    case TakeListener => s.socket != Closed
    case AwaitTeardown(_) => last >= 0 && (s.generations[last].teardown == TeardownDone ==> Enabled(s, MainStep(true)))
    case AwaitReplacement(_) =>
      last >= 0 && (s.generations[last].watcher == WatcherDone || s.generations[last].replacement.Some? ==> Enabled(s, MainStep(true)))
    case AwaitUnserved => Enabled(s, MainTimeout) && (ShutdownEnded(s, s.application) ==> Enabled(s, MainStep(true)))
    case AwaitDropped(_, a) => Enabled(s, MainTimeout) && (ShutdownEnded(s, a) ==> Enabled(s, MainStep(true)))
    case Returned(_) => true
    case _ => Enabled(s, MainStep(true))
  }

  lemma WatchersGo(s: State, g: nat)
    requires Inv(s) && g < |s.generations|
    ensures WatcherGoes(s, g)
  {
  }

  lemma EndedIsReady(s: State, a: nat)
    requires Delivered(s) && Awaited(s, a) && ShutdownEnded(s, a)
    ensures ResultReady(s, a)
  {
    assert SentIsThere(s.apps[a]);
  }

  lemma TeardownsGo(s: State, g: nat)
    requires Inv(s) && Delivered(s) && g < |s.generations|
    ensures TeardownGoes(s, g)
  {
    if s.generations[g].teardown == AwaitShutdown && ShutdownEnded(s, g) {
      EndedIsReady(s, g);
    }
  }

  lemma HelpersGo(s: State, a: nat, k: nat)
    requires Inv(s) && a < |s.apps| && k < |s.apps[a].asks|
    ensures HelperGoes(s, a, k)
  {
    assert SoundAsk(s.apps[a].asks[k]);
  }

  lemma MainLoopGoes(s: State)
    requires Inv(s) && Delivered(s) && (s.socket == Closed ==> s.main.Returned?)
    ensures MainGoes(s)
  {
    if s.main.AwaitUnserved? && ShutdownEnded(s, s.application) {
      EndedIsReady(s, s.application);
    } else if s.main.AwaitDropped? && ShutdownEnded(s, s.main.dropped) {
      EndedIsReady(s, s.main.dropped);
    }
  }

  // In every state of every run each goroutine can take its next step as soon as
  // what it waits for has happened.
  lemma EveryoneGoes(states: seq<State>, steps: seq<Step>, i: nat)
    requires Run(states, steps) && i < |states|
    ensures var s := states[i];
      && MainGoes(s)
      && (forall g :: 0 <= g < |s.generations| ==> WatcherGoes(s, g) && TeardownGoes(s, g))
      && (forall a, k :: 0 <= a < |s.apps| && 0 <= k < |s.apps[a].asks| ==> HelperGoes(s, a, k))
  {
    var s := states[i];
    RunInv(states, steps, i);
    NoResultIsLost(states, steps, i);
    ClosedLast(states, steps, i);
    MainLoopGoes(s);
    forall g | 0 <= g < |s.generations|
      ensures WatcherGoes(s, g) && TeardownGoes(s, g)
    {
      WatchersGo(s, g);
      TeardownsGo(s, g);
    }
    forall a, k | 0 <= a < |s.apps| && 0 <= k < |s.apps[a].asks|
      ensures HelperGoes(s, a, k)
    {
      HelpersGo(s, a, k);
    }
  }

  // ---- a built replacement ends its generation ----

  predicate HandsOver(gen: Generation) {
    && (gen.built.Some? && (gen.watcher == CloseReplacement || gen.watcher == WatcherDone) ==> gen.cancelled)
  }

  predicate AllHandOver(s: State) {
    forall g :: 0 <= g < |s.generations| ==> HandsOver(s.generations[g])
  }

  lemma OneHandsOver(s: State, t: State, g: nat, gen: Generation)
    requires AllHandOver(s) && g < |s.generations| && t.generations == s.generations[g := gen] && HandsOver(gen)
    ensures AllHandOver(t)
  {
  }

  lemma MainHandsOver(s: State, ok: bool)
    requires Enabled(s, MainStep(ok)) && AllHandOver(s)
    ensures AllHandOver(MainApply(s, ok))
  {
    if s.main.CloseReturned? || s.main.AwaitTeardown? || s.main.EndGeneration? || s.main.AwaitReplacement? {
      MainChangesLast(s, ok);
    } else if s.main == Spawn {
      assert MainApply(s, ok).generations == s.generations + [NewGeneration];
    } else {
      OtherMainLeaves(s, ok);
    }
  }

  lemma MainChangesLast(s: State, ok: bool)
    requires Enabled(s, MainStep(ok)) && AllHandOver(s)
    requires s.main.CloseReturned? || s.main.AwaitTeardown? || s.main.EndGeneration? || s.main.AwaitReplacement?
    ensures AllHandOver(MainApply(s, ok))
  {
    if s.generations != [] {
      var last, t := |s.generations| - 1, MainApply(s, ok);
      assert HandsOver(s.generations[last]);
      OneHandsOver(s, t, last, t.generations[last]);
    }
  }

  lemma WatchStepHandsOver(s: State, g: nat, ok: bool)
    requires Inv(s) && Enabled(s, WatchStep(g, ok)) && AllHandOver(s)
    ensures AllHandOver(WatchApply(s, g, ok))
  {
    var gen, t := s.generations[g], WatchApply(s, g, ok);
    assert HandsOver(gen) && SoundGeneration(gen, g);
    match gen.watcher
    case Rebuilding =>
      OneHandsOver(s, t, g,
        if ok then gen.(watcher := SendReplacement(|s.apps|), built := Some(|s.apps|)) else gen.(watcher := Select));
    case SendReplacement(next) => OneHandsOver(s, t, g, gen.(replacement := Some(next), watcher := CancelGeneration));
    case CancelGeneration => OneHandsOver(s, t, g, gen.(cancelled := true, watcher := CloseReplacement));
    case CloseReplacement => OneHandsOver(s, t, g, gen.(replacementClosed := true, watcher := WatcherDone));
  }

  lemma SelectHandsOver(s: State, step: Step)
    requires Inv(s) && Enabled(s, step) && AllHandOver(s) && (step.WatchReload? || step.WatchCancelled?)
    ensures AllHandOver(Apply(s, step))
  {
    var gen, t := s.generations[step.g], Apply(s, step);
    assert HandsOver(gen) && SoundGeneration(gen, step.g);
    OneHandsOver(s, t, step.g, gen.(watcher := if step.WatchReload? then Rebuilding else CloseReplacement));
  }

  lemma AsksLeave(s: State, a: nat)
    ensures AskApp(s, a).generations == s.generations && TakeResult(s, a).generations == s.generations
  {
  }

  lemma TeardownStepHandsOver(s: State, g: nat)
    requires Enabled(s, TeardownStep(g)) && AllHandOver(s)
    ensures AllHandOver(TeardownApply(s, g))
  {
    var gen, t := s.generations[g], TeardownApply(s, g);
    assert HandsOver(gen);
    match gen.teardown
    case Waiting => OneHandsOver(s, t, g, gen.(teardown := AskShutdown));
    case AskShutdown =>
      AsksLeave(SetGeneration(s, g, gen.(teardown := AwaitShutdown)), g);
      OneHandsOver(s, t, g, gen.(teardown := AwaitShutdown));
    case AwaitShutdown =>
      AsksLeave(SetGeneration(s, g, gen.(teardown := SendDone)), g);
      OneHandsOver(s, t, g, gen.(teardown := SendDone));
    case SendDone => OneHandsOver(s, t, g, gen.(shutdownDone := true, teardown := TeardownDone));
  }

  lemma TeardownHandsOver(s: State, step: Step)
    requires Enabled(s, step) && AllHandOver(s)
    requires step.TeardownStep? || step.TeardownTimeout? || step.ServerClosesListener?
    ensures AllHandOver(Apply(s, step))
  {
    var gen := s.generations[step.g];
    assert HandsOver(gen);
    match step
    case TeardownStep(g) => TeardownStepHandsOver(s, g);
    case TeardownTimeout(g) => OneHandsOver(s, Apply(s, step), g, gen.(teardown := SendDone));
    case ServerClosesListener(g) => OneHandsOver(s, Apply(s, step), g, gen.(listenerOpen := false));
  }

  lemma OtherHandsOver(s: State, step: Step)
    requires Enabled(s, step) && AllHandOver(s)
    requires step.SignalStop? || step.SignalReload? || step.MainTimeout? || step.HelperStep? || step.CloseSocket?
    ensures AllHandOver(Apply(s, step))
  {
    assert Apply(s, step).generations == s.generations;
  }

  // A watcher that has built a replacement and is through has ended its
  // generation: the running server makes way for the new one.
  lemma {:induction false} ReloadEndsGeneration(states: seq<State>, steps: seq<Step>, i: nat)
    requires Run(states, steps) && i < |states|
    ensures AllHandOver(states[i])
  {
    if i > 0 {
      ReloadEndsGeneration(states, steps, i - 1);
      RunInv(states, steps, i - 1);
      var s, step := states[i - 1], steps[i - 1];
      match step
      case MainStep(ok) => MainHandsOver(s, ok);
      case WatchReload(_) => SelectHandsOver(s, step);
      case WatchCancelled(_) => SelectHandsOver(s, step);
      case WatchStep(g, ok) => WatchStepHandsOver(s, g, ok);
      case TeardownStep(_) => TeardownHandsOver(s, step);
      case TeardownTimeout(_) => TeardownHandsOver(s, step);
      case ServerClosesListener(_) => TeardownHandsOver(s, step);
      case _ => OtherHandsOver(s, step);
    }
  }

  // ---- the listener that is not duplicated ----

  predicate HeldForTheFirst(s: State) {
    s.socket == Direct(true) ==> s.main == TakeListener && s.generations == []
  }

  lemma MainHolds(s: State, ok: bool)
    requires Enabled(s, MainStep(ok)) && HeldForTheFirst(s)
    ensures HeldForTheFirst(MainApply(s, ok))
  {
  }

  // Without a duplicate the first generation takes the listener itself, and it
  // is handed out to no other.
  lemma {:induction false} HandedOutOnce(states: seq<State>, steps: seq<Step>, i: nat)
    requires Run(states, steps) && i < |states|
    ensures HeldForTheFirst(states[i])
  {
    if i > 0 {
      HandedOutOnce(states, steps, i - 1);
      var s, step := states[i - 1], steps[i - 1];
      match step
      case MainStep(ok) => MainHolds(s, ok);
      case MainTimeout =>
      case CloseSocket =>
      case _ => OthersLeaveMain(s, step); OthersLeaveSocket(s, step);
    }
  }

  // ---- what the environment may answer ----

  // Start calls and rebuilds may succeed or fail; so may taking a listener,
  // unless it is the one held since the start.
  lemma EitherWay(s: State, ok: bool)
    ensures s.main == InStart ==> Enabled(s, MainStep(ok))
    ensures s.main == TakeListener && s.socket != Closed ==>
      (Enabled(s, MainStep(ok)) <==> ok || s.socket != Direct(true))
    ensures forall g: nat :: g < |s.generations| && s.generations[g].watcher == Rebuilding ==> Enabled(s, WatchStep(g, ok))
    ensures Enabled(s, SignalStop) && Enabled(s, SignalReload)
    ensures Init(s) ==> s.socket == Duplicated || s.socket == Direct(true)
  {
  }
}
