// What serveUntilShutdown returns, and when it carries on with a replacement,
// told from what the start calls and the listener answered over the whole run.

module LifecycleResult {
  import opened Prelude
  import opened Lifecycle

  // ---- the answers that settle the result ----

  // The start call of a generation returns, or no listener can be taken.
  predicate Settles(s: State, step: Step) {
    step.MainStep? && (s.main == InStart || (s.main == TakeListener && !step.ok))
  }

  // Of the first i steps, step k is the last to settle the result.
  ghost predicate LastSettled(states: seq<State>, steps: seq<Step>, k: nat, i: nat)
    requires |states| == |steps| + 1 && i <= |steps|
  {
    && k < i && Settles(states[k], steps[k])
    && (forall m {:trigger steps[m]} :: k < m < i ==> !Settles(states[m], steps[m]))
  }

  // The current generation has ended, or never began for want of a listener.
  predicate Ended(main: MainPc) {
    !(main.TakeListener? || main.Spawn? || main.CallStart? || main.InStart?)
  }

  // Whether the loop is going to return an error.
  predicate Failing(main: MainPc) {
    match main
    case AskUnserved => true
    case AwaitUnserved => true
    case CloseReturned(failed) => failed
    case AwaitTeardown(failed) => failed
    case EndGeneration(failed) => failed
    case AwaitReplacement(failed) => failed
    case Decide(failed, _) => failed
    case AskDropped(failed, _) => failed
    case AwaitDropped(failed, _) => failed
    case Returned(failed) => failed
    case _ => false
  }

  lemma SettledStep(s: State, step: Step)
    requires Enabled(s, step) && Settles(s, step)
    ensures var t := Apply(s, step); Ended(t.main) && (Failing(t.main) <==> !step.ok)
  {
  }

  lemma UnsettledMain(s: State, ok: bool)
    requires Enabled(s, MainStep(ok)) && !Settles(s, MainStep(ok))
    ensures var t := MainApply(s, ok); Ended(t.main) ==> Ended(s.main) && Failing(t.main) == Failing(s.main)
  {
  }

  lemma UnsettledStep(s: State, step: Step)
    requires Enabled(s, step) && !Settles(s, step)
    ensures var t := Apply(s, step); Ended(t.main) ==> Ended(s.main) && Failing(t.main) == Failing(s.main)
  {
    match step
    case MainStep(ok) => UnsettledMain(s, ok);
    case MainTimeout =>
    case _ => OthersLeaveMain(s, step);
  }

  lemma OthersLeaveMain(s: State, step: Step)
    requires Enabled(s, step) && !step.MainStep? && !step.MainTimeout?
    ensures Apply(s, step).main == s.main && Apply(s, step).application == s.application
    ensures |Apply(s, step).generations| == |s.generations|
  {
  }

  lemma SettledLater(states: seq<State>, steps: seq<Step>, k: nat, i: nat)
    requires |states| == |steps| + 1 && i < |steps|
    requires LastSettled(states, steps, k, i) && !Settles(states[i], steps[i])
    ensures LastSettled(states, steps, k, i + 1)
  {
  }

  lemma {:induction false} FailingIsSettled(states: seq<State>, steps: seq<Step>, i: nat) returns (k: nat)
    requires Run(states, steps) && i < |states| && Ended(states[i].main)
    ensures LastSettled(states, steps, k, i)
    ensures Failing(states[i].main) <==> !steps[k].ok
  {
    assert i > 0;
    var s, step := states[i - 1], steps[i - 1];
    if Settles(s, step) {
      SettledStep(s, step);
      k := i - 1;
    } else {
      UnsettledStep(s, step);
      k := FailingIsSettled(states, steps, i - 1);
      SettledLater(states, steps, k, i - 1);
    }
  }

  // When the loop has returned, it returned an error exactly when the last start
  // call ended in one, or no listener could be taken after it.
  lemma ReturnsWhatStartReturned(states: seq<State>, steps: seq<Step>, i: nat)
    requires Run(states, steps) && i < |states| && states[i].main.Returned?
    ensures exists k: nat :: LastSettled(states, steps, k, i) && (states[i].main.failed <==> !steps[k].ok)
  {
    var k := FailingIsSettled(states, steps, i);
  }

  // ---- a failed generation is the last ----

  lemma FailingMain(s: State, ok: bool)
    requires Enabled(s, MainStep(ok)) && Ended(s.main) && Failing(s.main)
    ensures var t := MainApply(s, ok);
      Ended(t.main) && Failing(t.main) && t.application == s.application && |t.generations| == |s.generations|
  {
  }

  lemma FailingStep(s: State, step: Step)
    requires Enabled(s, step) && Ended(s.main) && Failing(s.main)
    ensures var t := Apply(s, step);
      Ended(t.main) && Failing(t.main) && t.application == s.application && |t.generations| == |s.generations|
  {
    match step
    case MainStep(ok) => FailingMain(s, ok);
    case MainTimeout =>
    case _ => OthersLeaveMain(s, step);
  }

  // Once a start call has failed, or no listener could be taken, no generation
  // follows, whatever was built in the meantime.
  lemma {:induction false} NothingFollowsFailure(states: seq<State>, steps: seq<Step>, k: nat, i: nat)
    requires Run(states, steps) && k < i < |states| && Settles(states[k], steps[k]) && !steps[k].ok
    ensures |states[i].generations| == |states[k].generations| && states[i].application == states[k].application
    ensures Ended(states[i].main) && Failing(states[i].main)
  {
    if i == k + 1 {
      FirstFailure(states[k], steps[k]);
    } else {
      NothingFollowsFailure(states, steps, k, i - 1);
      FailingStep(states[i - 1], steps[i - 1]);
    }
  }

  lemma FirstFailure(s: State, step: Step)
    requires Enabled(s, step) && Settles(s, step) && !step.ok
    ensures var t := Apply(s, step);
      Ended(t.main) && Failing(t.main) && t.application == s.application && |t.generations| == |s.generations|
  {
  }

  // ---- a reload goes on ----

  // The loop gives a replacement up only for an error or a stop signal, and ends
  // without either only when the last generation built none.
  predicate EndsForAReason(s: State) {
    && ((s.main.AskDropped? || s.main.AwaitDropped?) && !s.main.failed ==> s.cancelled)
    && (s.main.Returned? && !s.main.failed && !s.cancelled ==>
         s.generations != [] && s.generations[|s.generations| - 1].built == None)
  }

  lemma ReasonMain(s: State, ok: bool)
    requires Inv(s) && Enabled(s, MainStep(ok)) && EndsForAReason(s)
    ensures EndsForAReason(MainApply(s, ok))
  {
  }

  lemma ReasonTimeout(s: State)
    requires Inv(s) && Enabled(s, MainTimeout) && EndsForAReason(s)
    ensures EndsForAReason(Apply(s, MainTimeout))
  {
  }

  // Once the loop has returned no generation can build any more.
  lemma BuiltStays(s: State, step: Step)
    requires Inv(s) && Enabled(s, step) && s.main.Returned? && s.generations != []
    ensures var n, t := |s.generations| - 1, Apply(s, step);
      |t.generations| == n + 1 && t.generations[n].built == s.generations[n].built
  {
    if step.WatchStep? {
      assert Left(s.generations[step.g]);
    }
  }

  lemma ReasonOther(s: State, step: Step)
    requires Inv(s) && Enabled(s, step) && EndsForAReason(s) && !step.MainStep? && !step.MainTimeout?
    ensures EndsForAReason(Apply(s, step))
  {
    OthersLeaveMain(s, step);
    if s.main.Returned? && s.generations != [] {
      BuiltStays(s, step);
    }
    CancelledStays(s, step);
  }

  lemma CancelledStays(s: State, step: Step)
    requires Enabled(s, step)
    ensures s.cancelled ==> Apply(s, step).cancelled
  {
  }

  lemma {:induction false} RunEndsForAReason(states: seq<State>, steps: seq<Step>, i: nat)
    requires Run(states, steps) && i < |states|
    ensures EndsForAReason(states[i])
  {
    if i > 0 {
      RunEndsForAReason(states, steps, i - 1);
      RunInv(states, steps, i - 1);
      var s, step := states[i - 1], steps[i - 1];
      match step
      case MainStep(ok) => ReasonMain(s, ok);
      case MainTimeout => ReasonTimeout(s);
      case _ => ReasonOther(s, step);
    }
  }

  // A reload that built its replacement never ends the process: without a stop
  // signal, the loop returns without an error only when the last generation's
  // server ended on its own, with no replacement built.
  lemma ReloadCarriesOn(states: seq<State>, steps: seq<Step>, i: nat)
    requires Run(states, steps) && i < |states|
    requires states[i].main.Returned? && !states[i].main.failed && !states[i].cancelled
    ensures states[i].generations != [] && states[i].generations[|states[i].generations| - 1].built == None
  {
    RunEndsForAReason(states, steps, i);
  }

  // ---- a failed rebuild goes on ----

  predicate Watches(gen: Generation, cancelled: bool) {
    gen.built == None && !gen.cancelled && !cancelled ==> gen.watcher == Select || gen.watcher == Rebuilding
  }

  predicate Watching(s: State) {
    forall g :: 0 <= g < |s.generations| ==> Watches(s.generations[g], s.cancelled)
  }

  lemma OneChanges(s: State, t: State, g: nat, gen: Generation)
    requires Watching(s) && g < |s.generations| && t.generations == s.generations[g := gen]
    requires t.cancelled == s.cancelled && Watches(gen, s.cancelled)
    ensures Watching(t)
  {
  }

  lemma WatchingMain(s: State, ok: bool)
    requires Enabled(s, MainStep(ok)) && Watching(s)
    ensures Watching(MainApply(s, ok))
  {
    var t := MainApply(s, ok);
    if s.main.CloseReturned? || s.main.AwaitTeardown? || s.main.EndGeneration? || s.main.AwaitReplacement? {
      LastChanges(s, ok);
    } else if s.main == Spawn {
      assert t.generations == s.generations + [NewGeneration];
    } else {
      OtherMainLeaves(s, ok);
    }
  }

  lemma LastChanges(s: State, ok: bool)
    requires Enabled(s, MainStep(ok)) && Watching(s)
    requires s.main.CloseReturned? || s.main.AwaitTeardown? || s.main.EndGeneration? || s.main.AwaitReplacement?
    ensures Watching(MainApply(s, ok))
  {
    if s.generations != [] {
      var last := |s.generations| - 1;
      OneChanges(s, MainApply(s, ok), last, MainApply(s, ok).generations[last]);
    }
  }

  lemma OtherMainLeaves(s: State, ok: bool)
    requires Enabled(s, MainStep(ok)) && s.main != Spawn
    requires !(s.main.CloseReturned? || s.main.AwaitTeardown? || s.main.EndGeneration? || s.main.AwaitReplacement?)
    ensures MainApply(s, ok).generations == s.generations && MainApply(s, ok).cancelled == s.cancelled
  {
  }

  lemma WatchingWatch(s: State, step: Step)
    requires Inv(s) && Enabled(s, step) && Watching(s)
    requires step.WatchReload? || step.WatchCancelled? || step.WatchStep?
    ensures Watching(Apply(s, step))
  {
    assert Watches(s.generations[step.g], s.cancelled);
    OneChanges(s, Apply(s, step), step.g, Apply(s, step).generations[step.g]);
  }

  lemma WatchingTeardown(s: State, step: Step)
    requires Inv(s) && Enabled(s, step) && Watching(s)
    requires step.TeardownStep? || step.TeardownTimeout? || step.ServerClosesListener?
    ensures Watching(Apply(s, step))
  {
    assert Watches(s.generations[step.g], s.cancelled);
    OneChanges(s, Apply(s, step), step.g, Apply(s, step).generations[step.g]);
  }

  lemma WatchingOther(s: State, step: Step)
    requires Enabled(s, step) && Watching(s)
    requires step.SignalStop? || step.SignalReload? || step.MainTimeout? || step.HelperStep? || step.CloseSocket?
    ensures Watching(Apply(s, step))
  {
    assert forall g :: 0 <= g < |s.generations| ==> Watches(s.generations[g], s.cancelled);
  }

  lemma WatchingStep(s: State, step: Step)
    requires Inv(s) && Enabled(s, step) && Watching(s)
    ensures Watching(Apply(s, step))
  {
    match step
    case MainStep(ok) => WatchingMain(s, ok);
    case WatchReload(_) => WatchingWatch(s, step);
    case WatchCancelled(_) => WatchingWatch(s, step);
    case WatchStep(_, _) => WatchingWatch(s, step);
    case TeardownStep(_) => WatchingTeardown(s, step);
    case TeardownTimeout(_) => WatchingTeardown(s, step);
    case ServerClosesListener(_) => WatchingTeardown(s, step);
    case _ => WatchingOther(s, step);
  }

  // However many rebuilds failed, a generation that has built nothing and was
  // not ended is rebuilding or ready for the next reload signal.
  lemma {:induction false} StillWatching(states: seq<State>, steps: seq<Step>, i: nat)
    requires Run(states, steps) && i < |states|
    ensures Watching(states[i])
  {
    if i > 0 {
      StillWatching(states, steps, i - 1);
      RunInv(states, steps, i - 1);
      WatchingStep(states[i - 1], steps[i - 1]);
    }
  }

  // A pending reload signal stays until a watcher takes it.
  lemma {:induction false} ReloadStaysPending(states: seq<State>, steps: seq<Step>, k: nat, i: nat)
    requires Run(states, steps) && k < i < |states| && steps[k] == SignalReload
    requires forall m {:trigger steps[m]} :: k < m < i ==> !steps[m].WatchReload?
    ensures states[i].reloadPending
  {
    if i > k + 1 {
      ReloadStaysPending(states, steps, k, i - 1);
      PendingStep(states[i - 1], steps[i - 1]);
    } else {
      assert states[i] == Apply(states[k], steps[k]);
    }
  }

  lemma PendingStep(s: State, step: Step)
    requires Enabled(s, step) && s.reloadPending && !step.WatchReload?
    ensures Apply(s, step).reloadPending
  {
  }

  // ---- no result of a Shutdown is lost ----

  // Somebody waits for the result of shutting application a down.
  predicate Awaited(s: State, a: nat) {
    || (a < |s.generations| && s.generations[a].teardown == AwaitShutdown)
    || (s.main.AwaitUnserved? && a == s.application)
    || (s.main.AwaitDropped? && a == s.main.dropped)
  }

  predicate SentIsThere(app: App) {
    forall k :: 0 <= k < |app.asks| ==> (app.asks[k].pc == HelperDone ==> app.asks[k].done)
  }

  predicate Delivered(s: State) {
    forall a :: 0 <= a < |s.apps| ==> (Awaited(s, a) ==> SentIsThere(s.apps[a]))
  }

  // A step that asks nothing and takes no result, and after which nobody waits
  // who did not before.
  lemma DeliveredKept(s: State, t: State)
    requires Delivered(s)
    requires forall a :: 0 <= a < |t.apps| ==>
      (Awaited(t, a) ==> a < |s.apps| && Awaited(s, a) && t.apps[a].asks == s.apps[a].asks)
    ensures Delivered(t)
  {
  }

  // A step that asks application a, of which nothing was asked before.
  lemma DeliveredAsked(s: State, t: State, a: nat)
    requires Delivered(s) && a < |s.apps| && s.apps[a].asks == []
    requires t.apps == AskApp(s, a).apps
    requires forall b :: 0 <= b < |t.apps| && b != a ==> (Awaited(t, b) ==> Awaited(s, b))
    ensures Delivered(t)
  {
    assert t.apps[a].asks == [NewAsk];
  }

  // A step that takes the result of application a, for which nobody waits then.
  lemma DeliveredTaken(s: State, t: State, a: nat)
    requires Delivered(s) && t.apps == TakeResult(s, a).apps && !Awaited(t, a)
    requires forall b :: 0 <= b < |t.apps| && b != a ==> (Awaited(t, b) ==> Awaited(s, b))
    ensures Delivered(t)
  {
  }

  lemma DeliveredMainAsks(s: State, ok: bool)
    requires Inv(s) && Enabled(s, MainStep(ok)) && Delivered(s) && (s.main.AskUnserved? || s.main.AskDropped?)
    ensures Delivered(MainApply(s, ok))
  {
    DeliveredAsked(s, MainApply(s, ok), if s.main.AskUnserved? then s.application else s.main.dropped);
  }

  lemma DeliveredMainTakes(s: State, ok: bool)
    requires Inv(s) && Enabled(s, MainStep(ok)) && Delivered(s) && (s.main.AwaitUnserved? || s.main.AwaitDropped?)
    ensures Delivered(MainApply(s, ok))
  {
    DeliveredTaken(s, MainApply(s, ok), if s.main.AwaitUnserved? then s.application else s.main.dropped);
  }

  lemma DeliveredMainOther(s: State, ok: bool)
    requires Inv(s) && Enabled(s, MainStep(ok)) && Delivered(s)
    requires !(s.main.AskUnserved? || s.main.AskDropped? || s.main.AwaitUnserved? || s.main.AwaitDropped?)
    ensures Delivered(MainApply(s, ok))
  {
    if s.main.CloseReturned? || s.main.AwaitTeardown? || s.main.EndGeneration? || s.main.AwaitReplacement? {
      DeliveredMainEnds(s, ok);
    } else {
      DeliveredMainBegins(s, ok);
    }
  }

  lemma DeliveredMainEnds(s: State, ok: bool)
    requires Enabled(s, MainStep(ok)) && Delivered(s)
    requires s.main.CloseReturned? || s.main.AwaitTeardown? || s.main.EndGeneration? || s.main.AwaitReplacement?
    ensures Delivered(MainApply(s, ok))
  {
    DeliveredKept(s, MainApply(s, ok));
  }

  lemma DeliveredMainBegins(s: State, ok: bool)
    requires Enabled(s, MainStep(ok)) && Delivered(s)
    requires s.main.TakeListener? || s.main.Spawn? || s.main.CallStart? || s.main.InStart? || s.main.Decide?
    ensures Delivered(MainApply(s, ok))
  {
    DeliveredKept(s, MainApply(s, ok));
  }

  lemma DeliveredTeardown(s: State, g: nat)
    requires Inv(s) && Enabled(s, TeardownStep(g)) && Delivered(s)
    ensures Delivered(TeardownApply(s, g))
  {
    var t := TeardownApply(s, g);
    match s.generations[g].teardown
    case AskShutdown => DeliveredAsked(s, t, g);
    case AwaitShutdown => DeliveredTaken(s, t, g);
    case _ => DeliveredKept(s, t);
  }

  lemma DeliveredHelper(s: State, a: nat, k: nat)
    requires Enabled(s, HelperStep(a, k)) && Delivered(s)
    ensures Delivered(Apply(s, HelperStep(a, k)))
  {
    var t := Apply(s, HelperStep(a, k));
    forall b | 0 <= b < |t.apps|
      ensures Awaited(t, b) ==> SentIsThere(t.apps[b])
    {
      assert Awaited(t, b) ==> Awaited(s, b);
    }
  }

  lemma DeliveredWatch(s: State, g: nat, ok: bool)
    requires Inv(s) && Enabled(s, WatchStep(g, ok)) && Delivered(s)
    ensures Delivered(WatchApply(s, g, ok))
  {
    var t := WatchApply(s, g, ok);
    if s.generations[g].watcher == Rebuilding && ok {
      assert t.apps[|s.apps|].asks == [];
    } else {
      DeliveredKept(s, t);
    }
  }

  lemma DeliveredOther(s: State, step: Step)
    requires Enabled(s, step) && Delivered(s)
    requires !step.MainStep? && !step.TeardownStep? && !step.HelperStep? && !step.WatchStep?
    ensures Delivered(Apply(s, step))
  {
    DeliveredKept(s, Apply(s, step));
  }

  lemma DeliveredStep(s: State, step: Step)
    requires Inv(s) && Enabled(s, step) && Delivered(s)
    ensures Delivered(Apply(s, step))
  {
    match step
    case MainStep(ok) =>
      if s.main.AskUnserved? || s.main.AskDropped? {
        DeliveredMainAsks(s, ok);
      } else if s.main.AwaitUnserved? || s.main.AwaitDropped? {
        DeliveredMainTakes(s, ok);
      } else {
        DeliveredMainOther(s, ok);
      }
    case TeardownStep(g) => DeliveredTeardown(s, g);
    case HelperStep(a, k) => DeliveredHelper(s, a, k);
    case WatchStep(g, ok) => DeliveredWatch(s, g, ok);
    case _ => DeliveredOther(s, step);
  }

  // Whoever waits for a Shutdown that has ended finds its result.
  lemma {:induction false} NoResultIsLost(states: seq<State>, steps: seq<Step>, i: nat)
    requires Run(states, steps) && i < |states|
    ensures Delivered(states[i])
  {
    if i > 0 {
      NoResultIsLost(states, steps, i - 1);
      RunInv(states, steps, i - 1);
      DeliveredStep(states[i - 1], steps[i - 1]);
    }
  }
}
