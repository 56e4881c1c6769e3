// The .env overlay of run/reload.go and the rollback of a rejected rebuild in
// run/run.go. The process environment is a map; failing set and unset calls are
// inputs.

module Dotenv {
  import opened Prelude

  type Vars = map<string, string>

  class Environment {
    var vars: Vars

    constructor (vars: Vars)
      ensures this.vars == vars
    {
      this.vars := vars;
    }
  }

  // What godotenv.Read returns: the file's variables, no file, or an error.
  datatype FileRead = Contents(values: Vars) | Missing | Unreadable

  // The keys whose os.Setenv or os.Unsetenv fails during one call.
  datatype Faults = Faults(set_: set<string>, unset: set<string>)

  const NoFaults := Faults({}, {})

  // The changes one apply made: the value each touched key had before, None
  // for a key that was not set, and the ownership before.
  datatype Undo = Nothing | Restore(previous: map<string, Option<string>>, appliedBefore: Vars)

  // ---- the meaning of one apply, free of any iteration order ----

  // A variable set by someone else wins over the file.
  predicate Skipped(env: Vars, applied: Vars, key: string) {
    key !in applied && key in env
  }

  // The file's keys this call sets.
  function Sets(env: Vars, applied: Vars, values: Vars, faults: Faults): set<string> {
    set key | key in values && !Skipped(env, applied, key) && key !in faults.set_
  }

  // The keys this call gives up: owned, and gone from the file.
  function Drops(applied: Vars, values: Vars, faults: Faults): set<string> {
    set key | key in applied && key !in values && key !in faults.unset
  }

  function Overlay(env: Vars, applied: Vars, values: Vars, faults: Faults): Vars {
    var sets := Sets(env, applied, values, faults);
    (env + (map key | key in sets :: values[key])) - Drops(applied, values, faults)
  }

  function Owned(env: Vars, applied: Vars, values: Vars, faults: Faults): Vars {
    var sets := Sets(env, applied, values, faults);
    (applied + (map key | key in sets :: values[key])) - Drops(applied, values, faults)
  }

  class DotenvFile {
    const environment: Environment
    var applied: Vars

    constructor (environment: Environment)
      ensures this.environment == environment && applied == map[]
    {
      this.environment, applied := environment, map[];
    }

    // Both range loops visit the keys in an arbitrary order.
    method Apply(file: FileRead, faults: Faults) returns (undo: Undo)
      modifies this`applied, environment
      ensures file.Unreadable? ==>
        undo == Nothing && applied == old(applied) && environment.vars == old(environment.vars)
      ensures !file.Unreadable? ==>
        var values := if file.Contents? then file.values else map[];
        && environment.vars == Overlay(old(environment.vars), old(applied), values, faults)
        && applied == Owned(old(environment.vars), old(applied), values, faults)
        && undo.Restore? && undo.appliedBefore == old(applied)
        && Records(old(environment.vars), environment.vars, undo.previous)
    {
      if file.Unreadable? { return Nothing; }
      var values: Vars := if file.Contents? then file.values else map[];
      var appliedBefore := applied;
      ghost var before := environment.vars;
      var previous := SetAll(values, faults);
      ghost var sets := Sets(before, appliedBefore, values, faults);
      ghost var mid, taken := environment.vars, applied;
      SameDrops(appliedBefore, applied, values, sets, faults);
      previous := UnsetAll(values, faults, previous, before);
      ghost var drops := Drops(appliedBefore, values, faults);
      OverlayIs(before, mid, environment.vars, values, sets, drops);
      OverlayIs(appliedBefore, taken, applied, values, sets, drops);
      undo := Restore(previous, appliedBefore);
    }

    method SetAll(values: Vars, faults: Faults) returns (previous: map<string, Option<string>>)
      modifies this`applied, environment
      ensures Written(old(environment.vars), environment.vars, values, Sets(old(environment.vars), old(applied), values, faults))
      ensures Written(old(applied), applied, values, Sets(old(environment.vars), old(applied), values, faults))
      ensures Records(old(environment.vars), environment.vars, previous)
    {
      ghost var before, owned := environment.vars, applied;
      ghost var sets := Sets(before, owned, values, faults);
      previous := map[];
      var todo := values.Keys;
      while todo != {}
        invariant todo <= values.Keys
        invariant Written(before, environment.vars, values, sets - todo)
        invariant Written(owned, applied, values, sets - todo)
        invariant Records(before, environment.vars, previous)
        decreases todo
      {
        var key :| key in todo;
        NextKey(sets, todo, key);
        ghost var done := sets - todo;
        todo := todo - {key};
        if key !in applied && key in environment.vars { continue; }
        previous := Record(previous, key);
        if key in faults.set_ { continue; }
        WriteOne(before, environment.vars, values, done, key);
        WriteOne(owned, applied, values, done, key);
        environment.vars := environment.vars[key := values[key]];
        applied := applied[key := values[key]];
      }
    }

    // record, the closure both loops share.
    method Record(previous: map<string, Option<string>>, key: string) returns (r: map<string, Option<string>>)
      ensures r == if key in previous then previous
                   else previous[key := if key in environment.vars then Some(environment.vars[key]) else None]
    {
      if key in previous { return previous; }
      if key in environment.vars { return previous[key := Some(environment.vars[key])]; }
      return previous[key := None];
    }

    method UnsetAll(values: Vars, faults: Faults, recorded: map<string, Option<string>>, ghost before: Vars)
      returns (previous: map<string, Option<string>>)
      requires Records(before, environment.vars, recorded)
      modifies this`applied, environment
      ensures Erased(old(environment.vars), environment.vars, Drops(old(applied), values, faults))
      ensures Erased(old(applied), applied, Drops(old(applied), values, faults))
      ensures Records(before, environment.vars, previous)
    {
      ghost var env, all := environment.vars, applied;
      ghost var drops := Drops(all, values, faults);
      previous := recorded;
      var todo := applied.Keys;
      while todo != {}
        invariant todo <= all.Keys
        invariant Erased(env, environment.vars, drops - todo)
        invariant Erased(all, applied, drops - todo)
        invariant Records(before, environment.vars, previous)
        decreases todo
      {
        var key :| key in todo;
        NextKey(drops, todo, key);
        ghost var done := drops - todo;
        todo := todo - {key};
        if key in values { continue; }
        previous := Record(previous, key);
        if key in faults.unset { continue; }
        EraseOne(env, environment.vars, done, key);
        EraseOne(all, applied, done, key);
        environment.vars := environment.vars - {key};
        applied := applied - {key};
      }
    }

    // The closure apply returns. A set or unset that fails leaves its key as it
    // is and the others are restored all the same.
    method UndoApply(undo: Undo, faults: Faults)
      modifies this`applied, environment
      ensures undo == Nothing ==> applied == old(applied) && environment.vars == old(environment.vars)
      ensures undo.Restore? ==>
        && applied == undo.appliedBefore
        && environment.vars == Restored(old(environment.vars), undo.previous, faults)
    {
      if undo == Nothing { return; }
      var todo := undo.previous.Keys;
      ghost var env := environment.vars;
      while todo != {}
        invariant todo <= undo.previous.Keys
        invariant forall key :: key !in undo.previous || key in todo ==> SameAt(env, environment.vars, key)
        invariant forall key :: key in undo.previous && key !in todo ==>
          PutBack(env, environment.vars, undo.previous, key, faults)
        decreases todo
      {
        var key :| key in todo;
        todo := todo - {key};
        if undo.previous[key] == None {
          if key !in faults.unset { environment.vars := environment.vars - {key}; }
          continue;
        }
        if key !in faults.set_ { environment.vars := environment.vars[key := undo.previous[key].value]; }
      }
      AllPutBack(env, environment.vars, undo.previous, faults);
      applied := undo.appliedBefore;
    }
  }

  // Taking a key off the list of those still to visit.
  lemma NextKey(chosen: set<string>, todo: set<string>, key: string)
    requires key in todo
    ensures chosen - (todo - {key}) == if key in chosen then chosen - todo + {key} else chosen - todo
  {
  }

  // Both have the key with the same value, or neither has it.
  predicate SameAt(a: Vars, b: Vars, key: string) {
    (key in a <==> key in b) && (key in a ==> a[key] == b[key])
  }

  // Writing back this key fails.
  predicate Stuck(previous: map<string, Option<string>>, key: string, faults: Faults) {
    key in previous && if previous[key] == None then key in faults.unset else key in faults.set_
  }

  predicate PutBack(env: Vars, now: Vars, previous: map<string, Option<string>>, key: string, faults: Faults)
    requires key in previous
  {
    if Stuck(previous, key, faults) then SameAt(env, now, key)
    else if previous[key] == None then key !in now
    else key in now && now[key] == previous[key].value
  }

  lemma AllPutBack(env: Vars, now: Vars, previous: map<string, Option<string>>, faults: Faults)
    requires forall key :: key !in previous ==> SameAt(env, now, key)
    requires forall key :: key in previous ==> PutBack(env, now, previous, key, faults)
    ensures now == Restored(env, previous, faults)
  {
    var spec := Restored(env, previous, faults);
    assert forall key :: key in now <==> key in spec;
    assert forall key :: key in now ==> now[key] == spec[key];
  }

  // now is before with the chosen keys written from values.
  ghost predicate Written(before: Vars, now: Vars, values: Vars, chosen: set<string>) {
    && (forall key :: key in now <==> key in before || key in chosen)
    && (forall key :: key in chosen ==> key in values && key in now && now[key] == values[key])
    && (forall key :: key in before && key !in chosen ==> key in now && now[key] == before[key])
  }

  ghost predicate Erased(before: Vars, now: Vars, chosen: set<string>) {
    && (forall key :: key in now <==> key in before && key !in chosen)
    && (forall key :: key in now ==> key in before && now[key] == before[key])
  }

  lemma OverlayIs(before: Vars, mid: Vars, now: Vars, values: Vars, chosen: set<string>, gone: set<string>)
    requires forall key :: key in chosen ==> key in values
    requires Written(before, mid, values, chosen) && Erased(mid, now, gone)
    ensures now == (before + (map key | key in chosen :: values[key])) - gone
  {
    var spec := (before + (map key | key in chosen :: values[key])) - gone;
    assert forall key :: key in now <==> key in spec;
    assert forall key :: key in now ==> now[key] == spec[key];
  }

  lemma WriteOne(before: Vars, now: Vars, values: Vars, chosen: set<string>, key: string)
    requires Written(before, now, values, chosen) && key in values
    ensures Written(before, now[key := values[key]], values, chosen + {key})
  {
  }

  lemma EraseOne(before: Vars, now: Vars, chosen: set<string>, key: string)
    requires Erased(before, now, chosen)
    ensures Erased(before, now - {key}, chosen + {key})
  {
  }

  // Taking keys over from the file does not change which ones are given up.
  lemma SameDrops(applied: Vars, now: Vars, values: Vars, chosen: set<string>, faults: Faults)
    requires Written(applied, now, values, chosen)
    ensures Drops(now, values, faults) == Drops(applied, values, faults)
  {
  }

  // previous holds what before held for a key, and covers every key on which
  // before and after differ.
  ghost predicate Records(before: Vars, after: Vars, previous: map<string, Option<string>>) {
    && (forall key :: key in previous ==>
         previous[key] == if key in before then Some(before[key]) else None)
    && (forall key :: key !in previous ==>
         (key in before <==> key in after) && (key in before ==> before[key] == after[key]))
  }

  // The recorded keys as they were, but for those that are stuck; the rest of env.
  function Restored(env: Vars, previous: map<string, Option<string>>, faults: Faults): Vars {
    map key | key in env.Keys + previous.Keys
        && (if key in previous && !Stuck(previous, key, faults) then previous[key].Some? else key in env) ::
      if key in previous && !Stuck(previous, key, faults) then previous[key].value else env[key]
  }

  // Restoring what was recorded gives back the environment, whatever the call
  // did, except for keys whose write fails: those stay as the call left them.
  lemma RestoredIsBefore(before: Vars, after: Vars, previous: map<string, Option<string>>, faults: Faults)
    requires Records(before, after, previous)
    ensures forall key :: SameAt(if Stuck(previous, key, faults) then after else before, Restored(after, previous, faults), key)
    ensures faults == NoFaults ==> Restored(after, previous, faults) == before
  {
    var r := Restored(after, previous, faults);
    if faults == NoFaults {
      assert forall key :: key in r <==> key in before;
      assert forall key :: key in before ==> r[key] == before[key];
    }
  }

  // ---- any sequence of reloads ----

  // A reload whose configuration was used, or one that was rejected and undone.
  datatype Reload = Accepted(file: FileRead) | Rejected(file: FileRead)

  function Values(file: FileRead): Vars {
    if file.Contents? then file.values else map[]
  }

  // What the environment and the ownership become.
  function After(env: Vars, applied: Vars, r: Reload): (Vars, Vars) {
    if r.Rejected? || r.file.Unreadable? then (env, applied)
    else (Overlay(env, applied, Values(r.file), NoFaults), Owned(env, applied, Values(r.file), NoFaults))
  }

  function AfterAll(env: Vars, reloads: seq<Reload>): (Vars, Vars) {
    if reloads == [] then (env, map[])
    else
      var before := AfterAll(env, reloads[..|reloads| - 1]);
      After(before.0, before.1, reloads[|reloads| - 1])
  }

  // The latest file that was read and used; none is like an empty one.
  function Latest(reloads: seq<Reload>): Vars {
    if reloads == [] then map[]
    else
      var r := reloads[|reloads| - 1];
      if r.Rejected? || r.file.Unreadable? then Latest(reloads[..|reloads| - 1]) else Values(r.file)
  }

  // The part of a file the startup environment leaves room for.
  function Room(env: Vars, values: Vars): Vars {
    map key | key in values && key !in env :: values[key]
  }

  lemma SetsAre(env0: Vars, applied: Vars, values: Vars)
    requires applied.Keys !! env0.Keys
    ensures Sets(env0 + applied, applied, values, NoFaults) == Room(env0, values).Keys
  {
  }

  lemma WrittenOver(start: Vars, applied: Vars, values: Vars, chosen: Vars, gone: set<string>)
    requires chosen.Keys <= values.Keys && forall key :: key in chosen ==> chosen[key] == values[key]
    requires applied.Keys !! start.Keys && chosen.Keys !! start.Keys
    requires forall key :: key in gone <==> key in applied && key !in values
    requires forall key :: key in applied && key in values ==> key in chosen
    ensures (start + applied + (map key | key in chosen.Keys :: values[key])) - gone == start + chosen
  {
    var now := (start + applied + (map key | key in chosen.Keys :: values[key])) - gone;
    assert forall key :: key in now <==> key in start + chosen;
    assert forall key :: key in now ==> now[key] == (start + chosen)[key];
  }

  lemma OverlayForgets(env0: Vars, latest: Vars, values: Vars)
    ensures
      var applied := Room(env0, latest);
      && Overlay(env0 + applied, applied, values, NoFaults) == env0 + Room(env0, values)
      && Owned(env0 + applied, applied, values, NoFaults) == Room(env0, values)
  {
    var applied := Room(env0, latest);
    var gone := Drops(applied, values, NoFaults);
    SetsAre(env0, applied, values);
    WrittenOver(env0, applied, values, Room(env0, values), gone);
    WrittenOver(map[], applied, values, Room(env0, values), gone);
    assert map[] + applied == applied && map[] + Room(env0, values) == Room(env0, values);
  }

  // The overlay has no memory: only the startup environment and the latest
  // accepted file matter, not the files before it nor the rejected ones.
  lemma {:induction false} NoMemory(env: Vars, reloads: seq<Reload>)
    ensures AfterAll(env, reloads) == (env + Room(env, Latest(reloads)), Room(env, Latest(reloads)))
  {
    if reloads == [] {
      assert Room(env, map[]) == map[];
      assert env + map[] == env;
    } else {
      var n := |reloads| - 1;
      NoMemory(env, reloads[..n]);
      if reloads[n].Accepted? && !reloads[n].file.Unreadable? {
        OverlayForgets(env, Latest(reloads[..n]), Values(reloads[n].file));
      }
    }
  }

  // The object run through the reloads, undoing every rejected one.
  method RunReloads(d: DotenvFile, reloads: seq<Reload>)
    requires d.applied == map[]
    modifies d`applied, d.environment
    ensures (d.environment.vars, d.applied) == AfterAll(old(d.environment.vars), reloads)
    ensures d.environment.vars == old(d.environment.vars) + Room(old(d.environment.vars), Latest(reloads))
  {
    ghost var start := d.environment.vars;
    for i := 0 to |reloads|
      invariant (d.environment.vars, d.applied) == AfterAll(start, reloads[..i])
    {
      assert reloads[..i + 1][..i] == reloads[..i];
      ghost var before := d.environment.vars;
      var undo := d.Apply(reloads[i].file, NoFaults);
      if reloads[i].Rejected? {
        if undo.Restore? {
          RestoredIsBefore(before, d.environment.vars, undo.previous, NoFaults);
        }
        d.UndoApply(undo, NoFaults);
      }
    }
    assert reloads[..|reloads|] == reloads;
    NoMemory(start, reloads);
  }

  // ---- rebuild ----

  datatype Hook = SetupConfig | ReloadConfig

  // What each fallible part of one build does; config is the configuration
  // that was loaded.
  datatype Build<C> = Build(loads: bool, hookAccepts: bool, constructs: bool, config: C)

  datatype Rebuilt = Replacement | LoggingRejected | LoadFailed | HookRejected | ConstructionFailed

  // The same but for keys whose set or unset fails.
  ghost predicate RolledBack(before: Vars, now: Vars, faults: Faults) {
    forall key :: key !in faults.set_ && key !in faults.unset ==> SameAt(before, now, key)
  }

  class Process<C, Logger> {
    const dotenv: DotenvFile
    var logger: Logger
    var appCfg: C
    // configHooks: first is the closure's variable, due the hooks run so far.
    var first: bool
    ghost var due: seq<Hook>

    // SetupConfig is due once, first of all; every later generation is ReloadConfig's.
    ghost predicate HooksInOrder()
      reads this
    {
      && (first <==> due == [])
      && (forall i :: 0 <= i < |due| ==> due[i] == if i == 0 then SetupConfig else ReloadConfig)
    }

    constructor (dotenv: DotenvFile, logger: Logger, appCfg: C)
      ensures this.dotenv == dotenv && this.logger == logger && this.appCfg == appCfg && HooksInOrder() && due == []
    {
      this.dotenv, this.logger, this.appCfg, first, due := dotenv, logger, appCfg, true, [];
    }

    method Configure(build: Build<C>) returns (ok: bool)
      requires HooksInOrder()
      modifies this`first, this`due
      ensures HooksInOrder() && |due| == |old(due)| + 1 && ok == build.hookAccepts
    {
      if first {
        first := false;
        due := due + [SetupConfig];
        return build.hookAccepts;
      }
      due := due + [ReloadConfig];
      return build.hookAccepts;
    }

    // A rejected rebuild leaves the environment, the ownership of its
    // variables, the default logger and appCfg as they were; only a key whose
    // write fails during the rollback keeps what the rebuild gave it.
    method Rebuild(file: FileRead, faults: Faults, undoFaults: Faults, newLogger: Option<Logger>, build: Build<C>)
      returns (r: Rebuilt)
      requires HooksInOrder()
      modifies this`logger, this`appCfg, this`first, this`due, dotenv`applied, dotenv.environment
      ensures HooksInOrder()
      ensures r == if newLogger.None? then LoggingRejected else if !build.loads then LoadFailed
                   else if !build.hookAccepts then HookRejected else if !build.constructs then ConstructionFailed
                   else Replacement
      ensures r != Replacement ==>
        && RolledBack(old(dotenv.environment.vars), dotenv.environment.vars, undoFaults)
        && dotenv.applied == old(dotenv.applied)
        && logger == old(logger) && appCfg == old(appCfg)
      ensures r != Replacement && undoFaults == NoFaults ==> dotenv.environment.vars == old(dotenv.environment.vars)
      ensures r == Replacement ==> logger == newLogger.value && appCfg == build.config
      ensures r == Replacement && !file.Unreadable? ==>
        dotenv.environment.vars == Overlay(old(dotenv.environment.vars), old(dotenv.applied), Values(file), faults)
      ensures r == Replacement && file.Unreadable? ==>
        dotenv.environment.vars == old(dotenv.environment.vars) && dotenv.applied == old(dotenv.applied)
    {
      ghost var before := dotenv.environment.vars;
      var undo := dotenv.Apply(file, faults);
      var previousLogger := logger;
      if newLogger.None? {
        Rollback(previousLogger, undo, undoFaults, before);
        return LoggingRejected;
      }
      logger := newLogger.value;
      r := BuildNext(build);
      if r != Replacement {
        Rollback(previousLogger, undo, undoFaults, before);
        return;
      }
      appCfg := build.config;
    }

    method BuildNext(build: Build<C>) returns (r: Rebuilt)
      requires HooksInOrder()
      modifies this`first, this`due
      ensures HooksInOrder()
      ensures r == if !build.loads then LoadFailed else if !build.hookAccepts then HookRejected
                   else if !build.constructs then ConstructionFailed else Replacement
    {
      if !build.loads {
        return LoadFailed;
      }
      var accepted := Configure(build);
      return if !accepted then HookRejected else if !build.constructs then ConstructionFailed else Replacement;
    }

    // The rollback closure: the logger, then the environment.
    method Rollback(previousLogger: Logger, undo: Undo, faults: Faults, ghost before: Vars)
      requires undo == Nothing ==> dotenv.environment.vars == before
      requires undo.Restore? ==> Records(before, dotenv.environment.vars, undo.previous)
      modifies this`logger, dotenv`applied, dotenv.environment
      ensures logger == previousLogger
      ensures dotenv.applied == if undo.Restore? then undo.appliedBefore else old(dotenv.applied)
      ensures RolledBack(before, dotenv.environment.vars, faults)
      ensures faults == NoFaults ==> dotenv.environment.vars == before
    {
      logger := previousLogger;
      if undo.Restore? {
        RestoredIsBefore(before, dotenv.environment.vars, undo.previous, faults);
        RestoredRollsBack(before, dotenv.environment.vars, undo.previous, faults);
      }
      dotenv.UndoApply(undo, faults);
    }
  }

  lemma RestoredRollsBack(before: Vars, after: Vars, previous: map<string, Option<string>>, faults: Faults)
    requires Records(before, after, previous)
    ensures RolledBack(before, Restored(after, previous, faults), faults)
  {
    RestoredIsBefore(before, after, previous, faults);
    forall key | key !in faults.set_ && key !in faults.unset
      ensures SameAt(before, Restored(after, previous, faults), key)
    {
      assert !Stuck(previous, key, faults);
    }
  }
}
