/**
 * Trainer.__init__ (trainer.py:88-120).  The trainer keeps the caller's own
 * hook list object, not a copy, and appends a StopAtTimeHook to it when a
 * positive maximum run time is given.  The `hooks=[]` and
 * `chief_only_hooks=[]` defaults are single list objects created once, with
 * the method, so every construction that omits them shares them.
 */
module Training {
  import opened Hooks

  const DefaultMaxTime: int := -1
  const DefaultSaveCheckpointSecs: int := 600
  const DefaultSaveSummariesSteps: int := 100
  const DefaultLogStepCountSteps: int := 100

  /** `hooks` is `before` with one new, not yet begun StopAtTimeHook of
      duration `maxTime` at its end. */
  predicate AppendedStopHook(before: seq<Hook>, hooks: seq<Hook>, maxTime: int) {
    && |hooks| == |before| + 1
    && hooks[..|before|] == before
    && hooks[|before|].StopAtTime?
    && hooks[|before|].hook.timeRunning == maxTime
  }

  class Trainer {
    /** The dataset and log directories, as the path resolvers returned them. */
    const dataDir: string
    const logDir: string
    const saveCheckpointSecs: int
    const saveSummariesSteps: int
    const logStepCountSteps: int
    const hooks: HookList
    const chiefOnlyHooks: HookList

    constructor (dataDir: string, logDir: string, maxTime: int,
                 saveCheckpointSecs: int, saveSummariesSteps: int, logStepCountSteps: int,
                 hooks: HookList, chiefOnlyHooks: HookList)
      modifies hooks
      ensures this.dataDir == dataDir && this.logDir == logDir
      ensures this.saveCheckpointSecs == saveCheckpointSecs
      ensures this.saveSummariesSteps == saveSummariesSteps
      ensures this.logStepCountSteps == logStepCountSteps
      ensures this.hooks == hooks && this.chiefOnlyHooks == chiefOnlyHooks
      ensures maxTime <= 0 ==> hooks.items == old(hooks.items)
      ensures maxTime > 0 ==> AppendedStopHook(old(hooks.items), hooks.items, maxTime)
      ensures maxTime > 0 ==> fresh(hooks.items[|old(hooks.items)|].hook)
      ensures maxTime > 0 ==> hooks.items[|old(hooks.items)|].hook.endTime.None?
      ensures chiefOnlyHooks != hooks ==> chiefOnlyHooks.items == old(chiefOnlyHooks.items)
    {
      this.dataDir := dataDir;
      this.logDir := logDir;
      this.saveCheckpointSecs := saveCheckpointSecs;
      this.saveSummariesSteps := saveSummariesSteps;
      this.logStepCountSteps := logStepCountSteps;
      this.hooks := hooks;
      this.chiefOnlyHooks := chiefOnlyHooks;
      new;
      if maxTime > 0 {
        var stop := new StopAtTimeHook(maxTime);
        hooks.Append(StopAtTime(stop));
      }
    }
  }

  /** The default values of `hooks` and `chief_only_hooks`: two empty lists
      made once, when the method is defined. */
  class InitDefaults {
    const hooks: HookList
    const chiefOnlyHooks: HookList

    constructor ()
      ensures fresh(hooks) && fresh(chiefOnlyHooks) && hooks != chiefOnlyHooks
      ensures hooks.items == [] && chiefOnlyHooks.items == []
    {
      hooks := new HookList([]);
      chiefOnlyHooks := new HookList([]);
    }
  }

  /** `Trainer(dataset_spec, log_dir, max_time)` leaving every other argument
      at its default: the trainer gets the shared default lists. */
  method NewTrainerWithDefaults(defaults: InitDefaults, dataDir: string, logDir: string, maxTime: int)
    returns (t: Trainer)
    modifies defaults.hooks
    ensures fresh(t)
    ensures t.hooks == defaults.hooks && t.chiefOnlyHooks == defaults.chiefOnlyHooks
    ensures t.saveCheckpointSecs == DefaultSaveCheckpointSecs
    ensures t.saveSummariesSteps == DefaultSaveSummariesSteps
    ensures t.logStepCountSteps == DefaultLogStepCountSteps
    ensures maxTime <= 0 ==> defaults.hooks.items == old(defaults.hooks.items)
    ensures maxTime > 0 ==> AppendedStopHook(old(defaults.hooks.items), defaults.hooks.items, maxTime)
    ensures maxTime > 0 ==> fresh(defaults.hooks.items[|old(defaults.hooks.items)|].hook)
  {
    t := new Trainer(dataDir, logDir, maxTime, DefaultSaveCheckpointSecs,
                     DefaultSaveSummariesSteps, DefaultLogStepCountSteps,
                     defaults.hooks, defaults.chiefOnlyHooks);
  }

  /** Two constructions on the default lists share one hook list, and each
      positive maximum run time leaves its own StopAtTimeHook in it. */
  method TwoTrainersWithDefaults(defaults: InitDefaults, dataDir: string, logDir: string,
                                 maxTime1: int, maxTime2: int)
    returns (first: Trainer, second: Trainer)
    requires defaults.hooks != defaults.chiefOnlyHooks
    requires maxTime1 > 0 && maxTime2 > 0
    modifies defaults.hooks
    ensures first.hooks == second.hooks == defaults.hooks
    ensures first != second
    ensures var n := |old(defaults.hooks.items)|;
      && |defaults.hooks.items| == n + 2
      && defaults.hooks.items[..n] == old(defaults.hooks.items)
      && defaults.hooks.items[n].StopAtTime? && defaults.hooks.items[n].hook.timeRunning == maxTime1
      && defaults.hooks.items[n + 1].StopAtTime? && defaults.hooks.items[n + 1].hook.timeRunning == maxTime2
      && defaults.hooks.items[n].hook != defaults.hooks.items[n + 1].hook
    ensures defaults.chiefOnlyHooks.items == old(defaults.chiefOnlyHooks.items)
  {
    ghost var before := defaults.hooks.items;
    first := NewTrainerWithDefaults(defaults, dataDir, logDir, maxTime1);
    ghost var afterFirst := defaults.hooks.items;
    second := NewTrainerWithDefaults(defaults, dataDir, logDir, maxTime2);
    assert defaults.hooks.items[..|afterFirst|] == afterFirst;
    assert defaults.hooks.items[..|before|] == afterFirst[..|before|];
  }

  /** With the default maximum run time, nothing is appended. */
  method DefaultMaxTimeAddsNothing(dataDir: string, logDir: string, hooks: HookList, chiefOnlyHooks: HookList)
    returns (t: Trainer)
    modifies hooks
    ensures t.hooks == hooks && hooks.items == old(hooks.items)
  {
    t := new Trainer(dataDir, logDir, DefaultMaxTime, DefaultSaveCheckpointSecs,
                     DefaultSaveSummariesSteps, DefaultLogStepCountSteps, hooks, chiefOnlyHooks);
  }
}
