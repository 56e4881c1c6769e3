// The reload protocol of run/run.go: the serve loop, one reload watcher and one
// teardown goroutine per generation, and one goroutine per Shutdown call, as a
// step relation. Every statement that touches shared state is a step of its
// own, so runs of the relation are the interleavings of the goroutines.

module Lifecycle {
  import opened Prelude

  // ---- state ----

  // serveUntilShutdown with serveGeneration inlined. failed records that the
  // call whose error is returned in the end did not succeed.
  datatype MainPc =
    | TakeListener
    | AskUnserved                              // no listener: tear the application down
    | AwaitUnserved
    | Spawn                                    // new context, watcher and teardown goroutine
    | CallStart
    | InStart
    | CloseReturned(failed: bool)              // close(serverReturned)
    | AwaitTeardown(failed: bool)              // <-shutdownDone
    | EndGeneration(failed: bool)
    | AwaitReplacement(failed: bool)           // <-replacement
    | Decide(failed: bool, next: Option<nat>)
    | AskDropped(failed: bool, dropped: nat)
    | AwaitDropped(failed: bool, dropped: nat)
    | Returned(failed: bool)

  datatype WatcherPc =
    | Select
    | Rebuilding
    | SendReplacement(next: nat)
    | CancelGeneration
    | CloseReplacement
    | WatcherDone

  datatype TeardownPc = Waiting | AskShutdown | AwaitShutdown | SendDone | TeardownDone

  // The goroutine of shutdownApplication; done is its one-slot channel.
  datatype HelperPc = CallShutdown | InShutdown | SendResult | HelperDone
  datatype Ask = Ask(pc: HelperPc, done: bool)

  datatype App = App(starts: nat, asks: seq<Ask>)

  // replacement and shutdownDone are one-slot channels. built is the
  // application this generation's watcher built, for reasoning only.
  datatype Generation = Generation(
    cancelled: bool, serverReturned: bool, listenerOpen: bool,
    watcher: WatcherPc, replacement: Option<nat>, replacementClosed: bool,
    teardown: TeardownPc, shutdownDone: bool, built: Option<nat>)

  // Whether boundSocket holds a duplicate descriptor, or the listener itself
  // until the first generation takes it.
  datatype Socket = Duplicated | Direct(held: bool) | Closed

  datatype State = State(
    cancelled: bool, reloadPending: bool, socket: Socket, main: MainPc, application: nat,
    generations: seq<Generation>, apps: seq<App>)

  predicate Init(s: State) {
    && s.main == TakeListener && s.application == 0
    && s.generations == [] && s.apps == [App(0, [])]
    && (s.socket == Duplicated || s.socket == Direct(true))
  }

  // ---- steps ----

  datatype Step =
    | SignalStop                 // SIGINT, SIGTERM or the caller's context
    | SignalReload               // SIGHUP; lost when one is already pending
    | MainStep(ok: bool)         // ok: the call returned without an error
    | MainTimeout                // the shutdown budget of a direct teardown ran out
    | WatchReload(g: nat)        // select picks the reload channel
    | WatchCancelled(g: nat)     // select picks ctx.Done()
    | WatchStep(g: nat, ok: bool)
    | TeardownStep(g: nat)
    | TeardownTimeout(g: nat)
    | HelperStep(a: nat, k: nat)
    | ServerClosesListener(g: nat)
    | CloseSocket                // deferred in Run

  predicate ContextDone(s: State, g: nat)
    requires g < |s.generations|
  {
    s.cancelled || s.generations[g].cancelled
  }

  // Shutdown was asked of a and its result is there to receive.
  predicate ResultReady(s: State, a: nat) {
    a < |s.apps| && s.apps[a].asks != [] && s.apps[a].asks[|s.apps[a].asks| - 1].done
  }

  predicate MainEnabled(s: State, ok: bool) {
    match s.main
    case TakeListener => s.socket != Closed && (s.socket == Direct(true) ==> ok)
    case AskUnserved => true
    case AwaitUnserved => ResultReady(s, s.application)
    case Spawn => true
    case CallStart => true
    case InStart => true
    case CloseReturned(_) => true
    case AwaitTeardown(_) => s.generations != [] && s.generations[|s.generations| - 1].shutdownDone
    case EndGeneration(_) => true
    case AwaitReplacement(_) =>
      s.generations != [] &&
      (var g := s.generations[|s.generations| - 1]; g.replacement.Some? || g.replacementClosed)
    case Decide(_, _) => true
    case AskDropped(_, _) => true
    case AwaitDropped(_, a) => ResultReady(s, a)
    case Returned(_) => false
  }

  predicate WatchEnabled(s: State, g: nat)
    requires g < |s.generations|
  {
    match s.generations[g].watcher
    case Select => false
    case Rebuilding => true
    case SendReplacement(_) => s.generations[g].replacement == None   // a full channel blocks
    case CancelGeneration => true
    case CloseReplacement => true
    case WatcherDone => false
  }

  predicate TeardownEnabled(s: State, g: nat)
    requires g < |s.generations|
  {
    match s.generations[g].teardown
    case Waiting => ContextDone(s, g) || s.generations[g].serverReturned
    case AskShutdown => true
    case AwaitShutdown => ResultReady(s, g)
    case SendDone => !s.generations[g].shutdownDone                   // a full channel blocks
    case TeardownDone => false
  }

  predicate HelperEnabled(ask: Ask) {
    match ask.pc
    case CallShutdown => true
    case InShutdown => true
    case SendResult => !ask.done                                      // a full channel blocks
    case HelperDone => false
  }

  predicate Enabled(s: State, step: Step) {
    match step
    case SignalStop => true
    case SignalReload => true
    case MainStep(ok) => MainEnabled(s, ok)
    case MainTimeout => s.main.AwaitUnserved? || s.main.AwaitDropped?
    case WatchReload(g) => g < |s.generations| && s.generations[g].watcher == Select && s.reloadPending
    case WatchCancelled(g) => g < |s.generations| && s.generations[g].watcher == Select && ContextDone(s, g)
    case WatchStep(g, _) => g < |s.generations| && WatchEnabled(s, g)
    case TeardownStep(g) => g < |s.generations| && TeardownEnabled(s, g)
    case TeardownTimeout(g) => g < |s.generations| && s.generations[g].teardown == AwaitShutdown
    case HelperStep(a, k) => a < |s.apps| && k < |s.apps[a].asks| && HelperEnabled(s.apps[a].asks[k])
    case ServerClosesListener(g) => g < |s.generations| && s.generations[g].listenerOpen && g < |s.apps| && s.apps[g].starts > 0
    case CloseSocket => s.main.Returned?
  }

  const NewAsk := Ask(CallShutdown, false)

  // go func() { done <- application.Shutdown(ctx) }()
  function AskApp(s: State, a: nat): State {
    if a < |s.apps| then s.(apps := s.apps[a := s.apps[a].(asks := s.apps[a].asks + [NewAsk])]) else s
  }

  // Receiving the result empties the channel.
  function TakeResult(s: State, a: nat): State {
    if ResultReady(s, a) then
      var asks := s.apps[a].asks;
      s.(apps := s.apps[a := s.apps[a].(asks := asks[|asks| - 1 := asks[|asks| - 1].(done := false)])])
    else s
  }

  function SetGeneration(s: State, g: nat, gen: Generation): State
    requires g < |s.generations|
  {
    s.(generations := s.generations[g := gen])
  }

  const NewGeneration := Generation(false, false, true, Select, None, false, Waiting, false, None)

  function MainApply(s: State, ok: bool): State
    requires MainEnabled(s, ok)
  {
    var last := |s.generations| - 1;
    match s.main
    case TakeListener =>
      var t := if s.socket == Direct(true) then s.(socket := Direct(false)) else s;
      if ok then t.(main := Spawn) else t.(main := AskUnserved)
    case AskUnserved => AskApp(s, s.application).(main := AwaitUnserved)
    case AwaitUnserved => TakeResult(s, s.application).(main := Returned(true))
    case Spawn => s.(generations := s.generations + [NewGeneration], main := CallStart)
    case CallStart =>
      if s.application < |s.apps| then
        s.(main := InStart,
           apps := s.apps[s.application := s.apps[s.application].(starts := s.apps[s.application].starts + 1)])
      else s
    case InStart => s.(main := CloseReturned(!ok))
    case CloseReturned(failed) =>
      if last >= 0 then
        SetGeneration(s, last, s.generations[last].(serverReturned := true)).(main := AwaitTeardown(failed))
      else s
    case AwaitTeardown(failed) =>
      SetGeneration(s, last, s.generations[last].(shutdownDone := false)).(main := EndGeneration(failed))
    case EndGeneration(failed) =>
      if last >= 0 then
        SetGeneration(s, last, s.generations[last].(cancelled := true)).(main := AwaitReplacement(failed))
      else s
    case AwaitReplacement(failed) =>
      SetGeneration(s, last, s.generations[last].(replacement := None))
        .(main := Decide(failed, s.generations[last].replacement))
    case Decide(failed, next) =>
      if next == None then s.(main := Returned(failed))
      else if failed || s.cancelled then s.(main := AskDropped(failed, next.value))
      else s.(application := next.value, main := TakeListener)
    case AskDropped(failed, a) => AskApp(s, a).(main := AwaitDropped(failed, a))
    case AwaitDropped(failed, a) => TakeResult(s, a).(main := Returned(failed))
  }

  function WatchApply(s: State, g: nat, ok: bool): State
    requires g < |s.generations| && WatchEnabled(s, g)
  {
    var gen := s.generations[g];
    match gen.watcher
    case Rebuilding =>
      if ok then
        SetGeneration(s, g, gen.(watcher := SendReplacement(|s.apps|), built := Some(|s.apps|)))
          .(apps := s.apps + [App(0, [])])
      else SetGeneration(s, g, gen.(watcher := Select))
    case SendReplacement(next) => SetGeneration(s, g, gen.(replacement := Some(next), watcher := CancelGeneration))
    case CancelGeneration => SetGeneration(s, g, gen.(cancelled := true, watcher := CloseReplacement))
    case CloseReplacement => SetGeneration(s, g, gen.(replacementClosed := true, watcher := WatcherDone))
  }

  function TeardownApply(s: State, g: nat): State
    requires g < |s.generations| && TeardownEnabled(s, g)
  {
    var gen := s.generations[g];
    match gen.teardown
    case Waiting => SetGeneration(s, g, gen.(teardown := AskShutdown))
    case AskShutdown => AskApp(SetGeneration(s, g, gen.(teardown := AwaitShutdown)), g)
    case AwaitShutdown => TakeResult(SetGeneration(s, g, gen.(teardown := SendDone)), g)
    case SendDone => SetGeneration(s, g, gen.(shutdownDone := true, teardown := TeardownDone))
  }

  function HelperApply(ask: Ask): Ask
    requires HelperEnabled(ask)
  {
    match ask.pc
    case CallShutdown => ask.(pc := InShutdown)
    case InShutdown => ask.(pc := SendResult)
    case SendResult => Ask(HelperDone, true)
  }

  function Apply(s: State, step: Step): State
    requires Enabled(s, step)
  {
    match step
    case SignalStop => s.(cancelled := true)
    case SignalReload => s.(reloadPending := true)
    case MainStep(ok) => MainApply(s, ok)
    case MainTimeout =>
      if s.main.AwaitUnserved? then s.(main := Returned(true)) else s.(main := Returned(s.main.failed))
    case WatchReload(g) =>
      SetGeneration(s, g, s.generations[g].(watcher := Rebuilding)).(reloadPending := false)
    case WatchCancelled(g) => SetGeneration(s, g, s.generations[g].(watcher := CloseReplacement))
    case WatchStep(g, ok) => WatchApply(s, g, ok)
    case TeardownStep(g) => TeardownApply(s, g)
    case TeardownTimeout(g) => SetGeneration(s, g, s.generations[g].(teardown := SendDone))
    case HelperStep(a, k) =>
      s.(apps := s.apps[a := s.apps[a].(asks := s.apps[a].asks[k := HelperApply(s.apps[a].asks[k])])])
    case ServerClosesListener(g) => SetGeneration(s, g, s.generations[g].(listenerOpen := false))
    case CloseSocket => s.(socket := Closed)
  }

  // ---- runs ----

  // The states of a run, first to last.
  ghost predicate Run(states: seq<State>, steps: seq<Step>) {
    && |states| == |steps| + 1
    && Init(states[0])
    && (forall i {:trigger steps[i]} :: 0 <= i < |steps| ==> Enabled(states[i], steps[i]) && states[i + 1] == Apply(states[i], steps[i]))
  }

  // ---- the invariant ----

  predicate AskSent(t: TeardownPc) {
    t == AwaitShutdown || t == SendDone || t == TeardownDone
  }

  // The watcher has built a replacement; it is past rebuilding for good.
  predicate Handing(w: WatcherPc) {
    w.SendReplacement? || w == CancelGeneration || w == CloseReplacement || w == WatcherDone
  }

  // What holds of every generation, whatever the serve loop does. g is its number.
  predicate SoundGeneration(gen: Generation, g: nat) {
    && (gen.watcher.SendReplacement? ==> gen.watcher.next == g + 1 && gen.replacement == None && gen.built.Some?)
    && (gen.watcher == CancelGeneration ==> gen.built.Some?)
    && (gen.built.Some? ==> gen.built == Some(g + 1) && Handing(gen.watcher))
    && (gen.replacement.Some? ==>
         gen.replacement == Some(g + 1) && gen.built.Some? && !gen.watcher.SendReplacement?)
    && (gen.replacementClosed <==> gen.watcher == WatcherDone)
    && (gen.shutdownDone ==> gen.teardown == TeardownDone)
  }

  // A generation the serve loop has left behind.
  predicate Past(gen: Generation) {
    && gen.teardown == TeardownDone && gen.serverReturned && !gen.shutdownDone && gen.cancelled
    && gen.built.Some? && gen.replacement == None && !gen.watcher.SendReplacement?
  }

  // Nothing of the generation can build or hand over an application any more.
  predicate Left(gen: Generation) {
    gen.teardown == TeardownDone && gen.serverReturned && Handing(gen.watcher) && !gen.watcher.SendReplacement?
  }

  predicate NotServing(main: MainPc) {
    main.TakeListener? || main.AskUnserved? || main.AwaitUnserved? || main.Spawn?
  }

  predicate BeforeServerReturned(main: MainPc) {
    main.CallStart? || main.InStart? || main.CloseReturned?
  }

  // The serve loop is done with the replacement channel.
  predicate Decided(main: MainPc) {
    main.Decide? || main.AskDropped? || main.AwaitDropped?
  }

  // What the serve loop's position says about the newest generation.
  predicate SoundLast(main: MainPc, gen: Generation, g: nat) {
    && (gen.serverReturned <==> !BeforeServerReturned(main))
    && (gen.teardown == TeardownDone && !gen.shutdownDone ==>
         main.EndGeneration? || main.AwaitReplacement? || Decided(main))
    && (main.EndGeneration? || main.AwaitReplacement? || Decided(main) ==>
         gen.teardown == TeardownDone && !gen.shutdownDone)
    && (main.AwaitReplacement? || Decided(main) ==> gen.cancelled)
    && (gen.cancelled && !(main.AwaitReplacement? || Decided(main)) ==> gen.built.Some?)
    && (!Decided(main) && gen.built.Some? && !gen.watcher.SendReplacement? ==> gen.replacement.Some?)
    && (main.Decide? && main.next.Some? ==> main.next == Some(g + 1) && Past(gen))
    && (main.Decide? && main.next.None? ==> gen.built == None && gen.watcher == WatcherDone)
    && (main.AskDropped? || main.AwaitDropped? ==> main.dropped == g + 1 && Past(gen))
  }

  // Generation g serves application g, and its watcher may build application
  // g + 1; there is never an application that is not accounted for.
  predicate Accounted(s: State) {
    var n := |s.generations|;
    if s.main.Returned? then
      && (forall g :: 0 <= g < n ==> Left(s.generations[g]))
      && n <= |s.apps| <= n + 1
    else if NotServing(s.main) then
      && s.application == n && |s.apps| == n + 1
      && (forall g :: 0 <= g < n ==> Past(s.generations[g]))
    else
      && n > 0 && s.application == n - 1
      && |s.apps| == (if s.generations[n - 1].built.Some? then n + 1 else n)
      && (forall g :: 0 <= g < n - 1 ==> Past(s.generations[g]))
      && SoundLast(s.main, s.generations[n - 1], n - 1)
  }

  // The application that never served is asked by the serve loop itself.
  predicate UnservedAsked(main: MainPc) {
    main.AwaitUnserved? || main.AwaitDropped? || main.Returned?
  }

  predicate SoundAsk(ask: Ask) {
    ask.done ==> ask.pc == HelperDone
  }

  predicate SoundApps(s: State) {
    && (forall a :: 0 <= a < |s.apps| ==>
         |s.apps[a].asks| == (if a < |s.generations| then (if AskSent(s.generations[a].teardown) then 1 else 0)
                              else if UnservedAsked(s.main) then 1 else 0))
    && (forall a, k :: 0 <= a < |s.apps| && 0 <= k < |s.apps[a].asks| ==> SoundAsk(s.apps[a].asks[k]))
    && (forall a :: 0 <= a < |s.apps| ==>
         s.apps[a].starts == (if a < |s.generations| && !(a == |s.generations| - 1 && s.main == CallStart) then 1 else 0))
  }

  predicate SoundGenerations(s: State) {
    forall g :: 0 <= g < |s.generations| ==> SoundGeneration(s.generations[g], g)
  }

  predicate Inv(s: State) {
    && SoundGenerations(s)
    && Accounted(s)
    && SoundApps(s)
  }

  // ---- every step keeps the invariant ----

  lemma InitInv(s: State)
    requires Init(s)
    ensures Inv(s)
  {
  }

  // A step that changes one generation and neither the serve loop nor the
  // applications.
  lemma GenerationInv(s: State, t: State, g: nat, gen: Generation)
    requires Inv(s) && g < |s.generations|
    requires t.generations == s.generations[g := gen]
    requires t.main == s.main && t.application == s.application && t.apps == s.apps
    requires SoundGeneration(gen, g) && AskSent(gen.teardown) == AskSent(s.generations[g].teardown)
    requires gen.built == s.generations[g].built
    requires Past(s.generations[g]) ==> Past(gen)
    requires Left(s.generations[g]) ==> Left(gen)
    requires SoundLast(s.main, s.generations[g], g) ==> SoundLast(s.main, gen, g)
    ensures Inv(t)
  {
  }

  lemma HandInv(s: State, g: nat)
    requires Inv(s) && g < |s.generations| && s.generations[g].watcher.SendReplacement?
    ensures s.generations[g].replacement == None && Inv(WatchApply(s, g, true))
  {
    var t := WatchApply(s, g, true);
    GenerationInv(s, t, g, t.generations[g]);
  }

  lemma CancelInv(s: State, g: nat)
    requires Inv(s) && g < |s.generations| && s.generations[g].watcher == CancelGeneration
    ensures Inv(WatchApply(s, g, true))
  {
    var t := WatchApply(s, g, true);
    GenerationInv(s, t, g, t.generations[g]);
  }

  lemma CloseInv(s: State, g: nat)
    requires Inv(s) && g < |s.generations| && s.generations[g].watcher == CloseReplacement
    ensures Inv(WatchApply(s, g, true))
  {
    var t := WatchApply(s, g, true);
    GenerationInv(s, t, g, t.generations[g]);
  }

  lemma RejectedInv(s: State, g: nat)
    requires Inv(s) && g < |s.generations| && s.generations[g].watcher == Rebuilding
    ensures Inv(WatchApply(s, g, false))
  {
    var t := WatchApply(s, g, false);
    GenerationInv(s, t, g, t.generations[g]);
  }

  lemma WatchInv(s: State, g: nat, ok: bool)
    requires Inv(s) && Enabled(s, WatchStep(g, ok))
    ensures Inv(Apply(s, WatchStep(g, ok)))
  {
    match s.generations[g].watcher
    case Rebuilding => if ok { RebuiltInv(s, g); } else { RejectedInv(s, g); }
    case SendReplacement(_) => HandInv(s, g);
    case CancelGeneration => CancelInv(s, g);
    case CloseReplacement => CloseInv(s, g);
  }

  lemma RebuiltInv(s: State, g: nat)
    requires Inv(s) && g < |s.generations| && s.generations[g].watcher == Rebuilding
    ensures SoundGenerations(WatchApply(s, g, true))
    ensures Accounted(WatchApply(s, g, true))
    ensures SoundApps(WatchApply(s, g, true))
  {
    assert g == |s.generations| - 1 && !NotServing(s.main) && !s.main.Returned?;
    assert s.generations[g].built == None;
    var t := WatchApply(s, g, true);
    assert t.apps[..|s.apps|] == s.apps;
  }

  lemma SelectInv(s: State, step: Step)
    requires Inv(s) && Enabled(s, step) && (step.WatchReload? || step.WatchCancelled?)
    ensures Inv(Apply(s, step))
  {
    var g := step.g;
    var t := Apply(s, step);
    GenerationInv(s, t, g, t.generations[g]);
  }

  // Teardown happens only in the newest generation, while the loop waits for it.
  lemma TeardownIsLast(s: State, g: nat)
    requires Inv(s) && g < |s.generations| && s.generations[g].teardown != TeardownDone
    ensures g == |s.generations| - 1 && !NotServing(s.main) && !s.main.Returned?
  {
  }

  lemma TeardownWakesInv(s: State, g: nat)
    requires Inv(s) && Enabled(s, TeardownStep(g))
    requires s.generations[g].teardown == Waiting || s.generations[g].teardown == SendDone
    ensures Inv(TeardownApply(s, g))
  {
    TeardownIsLast(s, g);
    var t := TeardownApply(s, g);
    GenerationInv(s, t, g, t.generations[g]);
  }

  lemma TeardownAsksInv(s: State, g: nat)
    requires Inv(s) && Enabled(s, TeardownStep(g)) && s.generations[g].teardown == AskShutdown
    ensures SoundGenerations(TeardownApply(s, g))
    ensures Accounted(TeardownApply(s, g))
    ensures SoundApps(TeardownApply(s, g))
  {
    TeardownAsksGenerations(s, g);
    TeardownAsksAccount(s, g);
    TeardownAsksApps(s, g);
  }

  lemma TeardownAsksGenerations(s: State, g: nat)
    requires Inv(s) && Enabled(s, TeardownStep(g)) && s.generations[g].teardown == AskShutdown
    ensures SoundGenerations(TeardownApply(s, g))
  {
    TeardownIsLast(s, g);
  }

  lemma TeardownAsksAccount(s: State, g: nat)
    requires Inv(s) && Enabled(s, TeardownStep(g)) && s.generations[g].teardown == AskShutdown
    ensures Accounted(TeardownApply(s, g))
  {
    TeardownIsLast(s, g);
  }

  lemma TeardownAsksApps(s: State, g: nat)
    requires Inv(s) && Enabled(s, TeardownStep(g)) && s.generations[g].teardown == AskShutdown
    ensures SoundApps(TeardownApply(s, g))
  {
    TeardownIsLast(s, g);
  }

  lemma TeardownReceivesInv(s: State, g: nat)
    requires Inv(s) && Enabled(s, TeardownStep(g)) && s.generations[g].teardown == AwaitShutdown
    ensures SoundGenerations(TeardownApply(s, g))
    ensures Accounted(TeardownApply(s, g))
    ensures SoundApps(TeardownApply(s, g))
  {
    TeardownReceivesGenerations(s, g);
    TeardownReceivesAccount(s, g);
    TeardownReceivesApps(s, g);
  }

  lemma TeardownReceivesGenerations(s: State, g: nat)
    requires Inv(s) && Enabled(s, TeardownStep(g)) && s.generations[g].teardown == AwaitShutdown
    ensures SoundGenerations(TeardownApply(s, g))
  {
    TeardownIsLast(s, g);
  }

  lemma TeardownReceivesAccount(s: State, g: nat)
    requires Inv(s) && Enabled(s, TeardownStep(g)) && s.generations[g].teardown == AwaitShutdown
    ensures Accounted(TeardownApply(s, g))
  {
    TeardownIsLast(s, g);
  }

  lemma TeardownReceivesApps(s: State, g: nat)
    requires Inv(s) && Enabled(s, TeardownStep(g)) && s.generations[g].teardown == AwaitShutdown
    ensures SoundApps(TeardownApply(s, g))
  {
    TeardownIsLast(s, g);
  }

  lemma TeardownInv(s: State, g: nat)
    requires Inv(s) && Enabled(s, TeardownStep(g))
    ensures Inv(Apply(s, TeardownStep(g)))
  {
    match s.generations[g].teardown
    case Waiting => TeardownWakesInv(s, g);
    case AskShutdown => TeardownAsksInv(s, g);
    case AwaitShutdown => TeardownReceivesInv(s, g);
    case SendDone => TeardownWakesInv(s, g);
  }

  lemma TimeoutInv(s: State, g: nat)
    requires Inv(s) && Enabled(s, TeardownTimeout(g))
    ensures Inv(Apply(s, TeardownTimeout(g)))
  {
    var t := Apply(s, TeardownTimeout(g));
    GenerationInv(s, t, g, t.generations[g]);
  }

  lemma HelperInv(s: State, a: nat, k: nat)
    requires Inv(s) && Enabled(s, HelperStep(a, k))
    ensures Inv(Apply(s, HelperStep(a, k)))
  {
  }

  lemma SignalInv(s: State, step: Step)
    requires Inv(s) && Enabled(s, step) && (step.SignalStop? || step.SignalReload? || step.CloseSocket?)
    ensures Inv(Apply(s, step))
  {
  }

  lemma ListenerInv(s: State, g: nat)
    requires Inv(s) && Enabled(s, ServerClosesListener(g))
    ensures Inv(Apply(s, ServerClosesListener(g)))
  {
    var t := Apply(s, ServerClosesListener(g));
    GenerationInv(s, t, g, t.generations[g]);
  }

  lemma MainTimeoutInv(s: State)
    requires Inv(s) && Enabled(s, MainTimeout)
    ensures Inv(Apply(s, MainTimeout))
  {
  }

  lemma TakeListenerInv(s: State, ok: bool)
    requires Inv(s) && Enabled(s, MainStep(ok)) && s.main.TakeListener?
    ensures SoundGenerations(MainApply(s, ok))
    ensures Accounted(MainApply(s, ok))
    ensures SoundApps(MainApply(s, ok))
  {
  }

  lemma AskUnservedInv(s: State, ok: bool)
    requires Inv(s) && Enabled(s, MainStep(ok)) && s.main.AskUnserved?
    ensures SoundGenerations(MainApply(s, ok))
    ensures Accounted(MainApply(s, ok))
    ensures SoundApps(MainApply(s, ok))
  {
  }

  lemma AwaitUnservedInv(s: State, ok: bool)
    requires Inv(s) && Enabled(s, MainStep(ok)) && s.main.AwaitUnserved?
    ensures SoundGenerations(MainApply(s, ok))
    ensures Accounted(MainApply(s, ok))
    ensures SoundApps(MainApply(s, ok))
  {
  }

  lemma SpawnInv(s: State, ok: bool)
    requires Inv(s) && Enabled(s, MainStep(ok)) && s.main.Spawn?
    ensures SoundGenerations(MainApply(s, ok))
    ensures Accounted(MainApply(s, ok))
    ensures SoundApps(MainApply(s, ok))
  {
  }

  lemma CallStartInv(s: State, ok: bool)
    requires Inv(s) && Enabled(s, MainStep(ok)) && s.main.CallStart?
    ensures SoundGenerations(MainApply(s, ok))
    ensures Accounted(MainApply(s, ok))
    ensures SoundApps(MainApply(s, ok))
  {
  }

  lemma InStartInv(s: State, ok: bool)
    requires Inv(s) && Enabled(s, MainStep(ok)) && s.main.InStart?
    ensures SoundGenerations(MainApply(s, ok))
    ensures Accounted(MainApply(s, ok))
    ensures SoundApps(MainApply(s, ok))
  {
  }

  lemma CloseReturnedInv(s: State, ok: bool)
    requires Inv(s) && Enabled(s, MainStep(ok)) && s.main.CloseReturned?
    ensures SoundGenerations(MainApply(s, ok))
    ensures Accounted(MainApply(s, ok))
    ensures SoundApps(MainApply(s, ok))
  {
    CloseReturnedGenerations(s, ok);
    CloseReturnedAccount(s, ok);
    CloseReturnedApps(s, ok);
  }

  lemma CloseReturnedGenerations(s: State, ok: bool)
    requires SoundGenerations(s) && Accounted(s) && Enabled(s, MainStep(ok)) && s.main.CloseReturned?
    ensures SoundGenerations(MainApply(s, ok))
  {
  }

  lemma CloseReturnedAccount(s: State, ok: bool)
    requires Accounted(s) && Enabled(s, MainStep(ok)) && s.main.CloseReturned?
    ensures Accounted(MainApply(s, ok))
  {
  }

  lemma CloseReturnedApps(s: State, ok: bool)
    requires Accounted(s) && SoundApps(s) && Enabled(s, MainStep(ok)) && s.main.CloseReturned?
    ensures SoundApps(MainApply(s, ok))
  {
  }

  lemma AwaitTeardownInv(s: State, ok: bool)
    requires Inv(s) && Enabled(s, MainStep(ok)) && s.main.AwaitTeardown?
    ensures SoundGenerations(MainApply(s, ok))
    ensures Accounted(MainApply(s, ok))
    ensures SoundApps(MainApply(s, ok))
  {
  }

  lemma EndGenerationInv(s: State, ok: bool)
    requires Inv(s) && Enabled(s, MainStep(ok)) && s.main.EndGeneration?
    ensures SoundGenerations(MainApply(s, ok))
    ensures Accounted(MainApply(s, ok))
    ensures SoundApps(MainApply(s, ok))
  {
    EndGenerationGenerations(s, ok);
    EndGenerationAccount(s, ok);
    EndGenerationApps(s, ok);
  }

  lemma EndGenerationGenerations(s: State, ok: bool)
    requires Inv(s) && Enabled(s, MainStep(ok)) && s.main.EndGeneration?
    ensures SoundGenerations(MainApply(s, ok))
  {
  }

  lemma EndGenerationAccount(s: State, ok: bool)
    requires Inv(s) && Enabled(s, MainStep(ok)) && s.main.EndGeneration?
    ensures Accounted(MainApply(s, ok))
  {
  }

  lemma EndGenerationApps(s: State, ok: bool)
    requires Inv(s) && Enabled(s, MainStep(ok)) && s.main.EndGeneration?
    ensures SoundApps(MainApply(s, ok))
  {
  }

  lemma AwaitReplacementInv(s: State, ok: bool)
    requires Inv(s) && Enabled(s, MainStep(ok)) && s.main.AwaitReplacement?
    ensures SoundGenerations(MainApply(s, ok))
    ensures Accounted(MainApply(s, ok))
    ensures SoundApps(MainApply(s, ok))
  {
  }

  lemma DecideInv(s: State, ok: bool)
    requires Inv(s) && Enabled(s, MainStep(ok)) && s.main.Decide?
    ensures SoundGenerations(MainApply(s, ok))
    ensures Accounted(MainApply(s, ok))
    ensures SoundApps(MainApply(s, ok))
  {
    if s.main.next.None? {
      LeaveInv(s, ok);
    } else {
      TakeOverInv(s, ok);
    }
  }

  lemma LeaveInv(s: State, ok: bool)
    requires Inv(s) && Enabled(s, MainStep(ok)) && s.main.Decide? && s.main.next.None?
    ensures SoundGenerations(MainApply(s, ok))
    ensures Accounted(MainApply(s, ok))
    ensures SoundApps(MainApply(s, ok))
  {
  }

  lemma TakeOverInv(s: State, ok: bool)
    requires Inv(s) && Enabled(s, MainStep(ok)) && s.main.Decide? && s.main.next.Some?
    ensures SoundGenerations(MainApply(s, ok))
    ensures Accounted(MainApply(s, ok))
    ensures SoundApps(MainApply(s, ok))
  {
  }

  lemma AskDroppedInv(s: State, ok: bool)
    requires Inv(s) && Enabled(s, MainStep(ok)) && s.main.AskDropped?
    ensures SoundGenerations(MainApply(s, ok))
    ensures Accounted(MainApply(s, ok))
    ensures SoundApps(MainApply(s, ok))
  {
  }

  lemma AwaitDroppedInv(s: State, ok: bool)
    requires Inv(s) && Enabled(s, MainStep(ok)) && s.main.AwaitDropped?
    ensures SoundGenerations(MainApply(s, ok))
    ensures Accounted(MainApply(s, ok))
    ensures SoundApps(MainApply(s, ok))
  {
  }

  lemma MainInv(s: State, ok: bool)
    requires Inv(s) && Enabled(s, MainStep(ok))
    ensures Inv(MainApply(s, ok))
  {
    match s.main
    case TakeListener => TakeListenerInv(s, ok);
    case AskUnserved => AskUnservedInv(s, ok);
    case AwaitUnserved => AwaitUnservedInv(s, ok);
    case Spawn => SpawnInv(s, ok);
    case CallStart => CallStartInv(s, ok);
    case InStart => InStartInv(s, ok);
    case CloseReturned(_) => CloseReturnedInv(s, ok);
    case AwaitTeardown(_) => AwaitTeardownInv(s, ok);
    case EndGeneration(_) => EndGenerationInv(s, ok);
    case AwaitReplacement(_) => AwaitReplacementInv(s, ok);
    case Decide(_, _) => DecideInv(s, ok);
    case AskDropped(_, _) => AskDroppedInv(s, ok);
    case AwaitDropped(_, _) => AwaitDroppedInv(s, ok);
  }

  lemma StepInv(s: State, step: Step)
    requires Inv(s) && Enabled(s, step)
    ensures Inv(Apply(s, step))
  {
    match step
    case SignalStop => SignalInv(s, step);
    case SignalReload => SignalInv(s, step);
    case CloseSocket => SignalInv(s, step);
    case MainStep(ok) => MainInv(s, ok);
    case MainTimeout => MainTimeoutInv(s);
    case WatchReload(_) => SelectInv(s, step);
    case WatchCancelled(_) => SelectInv(s, step);
    case WatchStep(g, ok) => WatchInv(s, g, ok);
    case TeardownStep(g) => TeardownInv(s, g);
    case TeardownTimeout(g) => TimeoutInv(s, g);
    case HelperStep(a, k) => HelperInv(s, a, k);
    case ServerClosesListener(g) => ListenerInv(s, g);
  }

  // ---- safety over whole runs ----

  lemma {:induction false} RunInv(states: seq<State>, steps: seq<Step>, i: nat)
    requires Run(states, steps) && i < |states|
    ensures Inv(states[i])
  {
    if i == 0 {
      InitInv(states[0]);
    } else {
      RunInv(states, steps, i - 1);
      StepInv(states[i - 1], steps[i - 1]);
    }
  }

  // When serveUntilShutdown has returned, the initial application and every
  // application a rebuild returned was asked to shut down exactly once; and at
  // no time is any application asked twice.
  lemma ShutDownExactlyOnce(states: seq<State>, steps: seq<Step>, i: nat)
    requires Run(states, steps) && i < |states|
    ensures forall a :: 0 <= a < |states[i].apps| ==> |states[i].apps[a].asks| <= 1
    ensures states[i].main.Returned? ==> forall a :: 0 <= a < |states[i].apps| ==> |states[i].apps[a].asks| == 1
    ensures states[i].main.Returned? ==> forall g :: 0 <= g < |states[i].generations| ==>
      states[i].generations[g].watcher != Rebuilding && states[i].generations[g].watcher != Select
  {
    RunInv(states, steps, i);
  }

  // A goroutine that is about to send finds the channel empty and open, and a
  // channel about to be closed is still open.
  predicate SendsGoThrough(s: State) {
    && (forall g :: 0 <= g < |s.generations| ==>
         && (s.generations[g].watcher.SendReplacement? ==>
              s.generations[g].replacement == None && !s.generations[g].replacementClosed)
         && (s.generations[g].teardown == SendDone ==> !s.generations[g].shutdownDone)
         && (s.generations[g].watcher == CloseReplacement ==> !s.generations[g].replacementClosed))
    && (forall a, k :: 0 <= a < |s.apps| && 0 <= k < |s.apps[a].asks| && s.apps[a].asks[k].pc == SendResult ==>
         !s.apps[a].asks[k].done)
    && (s.main.CloseReturned? ==>
         s.generations != [] && !s.generations[|s.generations| - 1].serverReturned)
  }

  lemma NoSendBlocks(states: seq<State>, steps: seq<Step>, i: nat)
    requires Run(states, steps) && i < |states|
    ensures SendsGoThrough(states[i])
  {
    RunInv(states, steps, i);
  }

  // No application is started twice; one is started only after every earlier
  // generation's server has returned and its teardown is over.
  lemma OneGenerationAtATime(states: seq<State>, steps: seq<Step>, i: nat)
    requires Run(states, steps) && i < |states|
    ensures forall a :: 0 <= a < |states[i].apps| ==> states[i].apps[a].starts <= 1
    ensures forall a, g :: 0 <= g < a < |states[i].apps| && states[i].apps[a].starts > 0 ==>
      g < |states[i].generations| && states[i].generations[g].serverReturned
      && states[i].generations[g].teardown == TeardownDone
  {
    RunInv(states, steps, i);
  }

  // While its server runs, a generation is ended from inside only by a reload
  // whose replacement was built before.
  lemma ReloadBuildsFirst(states: seq<State>, steps: seq<Step>, i: nat)
    requires Run(states, steps) && i < |states| && BeforeServerReturned(states[i].main)
    ensures
      var s := states[i];
      s.generations != [] &&
      (var g := |s.generations| - 1;
       s.generations[g].cancelled ==> s.generations[g].built == Some(g + 1) && |s.apps| == g + 2)
  {
    RunInv(states, steps, i);
  }

  // Rebuilds never overlap: they share the process environment and appCfg.
  lemma RebuildsDoNotOverlap(states: seq<State>, steps: seq<Step>, i: nat)
    requires Run(states, steps) && i < |states|
    ensures
      var gens := states[i].generations;
      forall g, h :: 0 <= g < |gens| && 0 <= h < |gens| && gens[g].watcher == Rebuilding && gens[h].watcher == Rebuilding
        ==> g == h
  {
    RunInv(states, steps, i);
  }

  // ---- the socket ----

  function OpenListeners(generations: seq<Generation>): nat {
    if generations == [] then 0
    else OpenListeners(generations[..|generations| - 1]) + (if generations[|generations| - 1].listenerOpen then 1 else 0)
  }

  // Open descriptors of the listening socket: boundSocket's own, the listener
  // just taken from it, and those the servers have not closed yet.
  function Descriptors(s: State): nat {
    (if s.socket == Duplicated || s.socket == Direct(true) then 1 else 0)
    + (if s.main == Spawn then 1 else 0)
    + OpenListeners(s.generations)
  }

  // With a duplicated descriptor the socket is open until Close, which comes
  // after the loop has returned.
  lemma {:induction false} SocketStaysBound(states: seq<State>, steps: seq<Step>, i: nat)
    requires Run(states, steps) && i < |states| && states[0].socket == Duplicated
    ensures states[i].socket == Duplicated || (states[i].socket == Closed && states[i].main.Returned?)
    ensures !states[i].main.Returned? ==> Descriptors(states[i]) >= 1
  {
    if i > 0 {
      SocketStaysBound(states, steps, i - 1);
      SocketStep(states[i - 1], steps[i - 1]);
    }
  }

  lemma {:induction false} ClosedLast(states: seq<State>, steps: seq<Step>, i: nat)
    requires Run(states, steps) && i < |states|
    ensures states[i].socket == Closed ==> states[i].main.Returned?
  {
    if i > 0 {
      ClosedLast(states, steps, i - 1);
      SocketStep(states[i - 1], steps[i - 1]);
    }
  }

  lemma SocketStep(s: State, step: Step)
    requires Enabled(s, step)
    ensures s.main.Returned? ==> Apply(s, step).main.Returned?
    ensures s.socket == Duplicated ==> Apply(s, step).socket == if step == CloseSocket then Closed else Duplicated
    ensures s.socket == Closed ==> Apply(s, step).socket == Closed
    ensures step == CloseSocket ==> s.main.Returned?
    ensures Apply(s, step).socket == Closed ==> s.socket == Closed || step == CloseSocket
  {
    match step
    case MainStep(ok) => MainSocketStep(s, ok);
    case MainTimeout =>
    case CloseSocket =>
    case _ => OthersLeaveSocket(s, step);
  }

  lemma MainSocketStep(s: State, ok: bool)
    requires Enabled(s, MainStep(ok))
    ensures !s.main.Returned?
    ensures s.socket == Duplicated || s.socket == Closed ==> MainApply(s, ok).socket == s.socket
    ensures MainApply(s, ok).socket == Closed ==> s.socket == Closed
  {
  }

  lemma OthersLeaveSocket(s: State, step: Step)
    requires Enabled(s, step) && !step.MainStep? && !step.MainTimeout? && !step.CloseSocket?
    ensures Apply(s, step).main == s.main && Apply(s, step).socket == s.socket
  {
  }
}
