/**
 * StopAtTimeHook (trainer.py:177-191) and the hook lists it is put in.
 * Wall-clock time is an integer `now` passed to each callback.
 */
module Hooks {
  import opened PyValues

  /** The session's run context as a hook sees it: it counts the stop requests
      it has received (request_stop). */
  class RunContext {
    var stopRequests: nat

    constructor ()
      ensures stopRequests == 0
    {
      stopRequests := 0;
    }

    predicate StopRequested()
      reads this
    {
      stopRequests > 0
    }

    method RequestStop()
      modifies this
      ensures stopRequests == old(stopRequests) + 1
    {
      stopRequests := stopRequests + 1;
    }
  }

  /** The hook's condition for stopping: strictly past the deadline. */
  predicate Expired(endTime: int, now: int) {
    now > endTime
  }

  /** A hook that requests a stop once `timeRunning` time units have passed
      since the session began. */
  class StopAtTimeHook {
    const timeRunning: int
    /** `_end_time`: absent until begin() sets it. */
    var endTime: Option<int>

    constructor (timeRunning: int)
      ensures this.timeRunning == timeRunning && endTime.None?
    {
      this.timeRunning := timeRunning;
      endTime := None;
    }

    /** begin(): the deadline is `timeRunning` after now. */
    method Begin(now: int)
      modifies this
      ensures endTime == Some(now + timeRunning)
    {
      endTime := Some(now + timeRunning);
    }

    /** after_run(): one stop request when now is past the deadline, none
        otherwise; before begin() the deadline attribute does not exist. */
    method AfterRun(context: RunContext, now: int) returns (r: Outcome)
      modifies context
      ensures endTime.None? ==> r == Fail(AttributeError("_end_time")) && context.stopRequests == old(context.stopRequests)
      ensures endTime.Some? ==> r == Pass
      ensures endTime.Some? && Expired(endTime.value, now) ==> context.stopRequests == old(context.stopRequests) + 1
      ensures endTime.Some? && Expired(endTime.value, now) ==> context.StopRequested()
      ensures endTime.Some? && !Expired(endTime.value, now) ==> context.stopRequests == old(context.stopRequests)
    {
      if endTime.None? {
        return Fail(AttributeError("_end_time"));
      }
      if now > endTime.value {
        context.RequestStop();
      }
      r := Pass;
    }
  }

  /** One session run with a hook of duration `timeRunning` begun at `start`:
      after_run at `start`, at the deadline, and at two later moments. */
  method DeadlineRun(timeRunning: int, start: int, later: int) returns (atStart: nat, atDeadline: nat, past: nat, afterAgain: nat,
                                                                  stoppedAtDeadline: bool, stoppedAfterDeadline: bool)
    requires timeRunning > 0 && later > start + timeRunning
    ensures atStart == 0 && atDeadline == 0
    ensures past == 1 && afterAgain == 2
    ensures !stoppedAtDeadline && stoppedAfterDeadline
  {
    var hook := new StopAtTimeHook(timeRunning);
    var context := new RunContext();
    hook.Begin(start);
    var outcome := hook.AfterRun(context, start);
    atStart := context.stopRequests;
    outcome := hook.AfterRun(context, start + timeRunning);
    atDeadline := context.stopRequests;
    stoppedAtDeadline := context.StopRequested();
    outcome := hook.AfterRun(context, start + timeRunning + 1);
    past := context.stopRequests;
    stoppedAfterDeadline := context.StopRequested();
    outcome := hook.AfterRun(context, later);
    afterAgain := context.stopRequests;
  }

  /** A hook begun at `start` and called once at `now`: a stop is requested
      exactly when `now` is strictly after `start + timeRunning`. */
  method StopIffPastDeadline(timeRunning: int, start: int, now: int) returns (requests: nat)
    ensures requests == 1 <==> now > start + timeRunning
    ensures requests == 0 <==> now <= start + timeRunning
  {
    var hook := new StopAtTimeHook(timeRunning);
    var context := new RunContext();
    hook.Begin(start);
    var outcome := hook.AfterRun(context, now);
    requests := context.stopRequests;
  }

  /** A hook begun at `start`, called at the deadline and then at any later
      time: the first call requests nothing, the second requests one stop. */
  method DeadlineThenLater(timeRunning: int, start: int, now: int) returns (atDeadline: nat, later: nat)
    requires now > start + timeRunning
    ensures atDeadline == 0 && later == 1
  {
    var hook := new StopAtTimeHook(timeRunning);
    var context := new RunContext();
    hook.Begin(start);
    var outcome := hook.AfterRun(context, start + timeRunning);
    atDeadline := context.stopRequests;
    outcome := hook.AfterRun(context, now);
    later := context.stopRequests;
  }

  /** An entry of a hook list: a StopAtTimeHook, or a hook the caller made
      (opaque here, told apart by an identity). */
  datatype Hook = StopAtTime(hook: StopAtTimeHook) | Supplied(id: nat)

  /** A Python list of hooks, shared by reference. */
  class HookList {
    var items: seq<Hook>

    constructor (items: seq<Hook>)
      ensures this.items == items
    {
      this.items := items;
    }

    /** `list.append(h)`. */
    method Append(h: Hook)
      modifies this
      ensures items == old(items) + [h]
    {
      items := items + [h];
    }
  }
}
