/** The scenario engine (pkg/engine/engine.go): it starts, checks and cleans
    up one scenario at a time. A scenario's Setup, Validate and Cleanup act
    on the cluster; here their outcomes are parameters, and the calls made
    on scenarios are recorded in a ghost log. The wall clock is a parameter
    too. */
module Engine {
  import opened Common
  import opened ScenarioTypes
  import opened Registry

  datatype State = Idle | Running | Validated | Cleaning

  /** A call the engine makes on a scenario, by the scenario's ID. */
  datatype ScenarioCall = SetupCall(id: string) | ValidateCall(id: string) | CleanupCall(id: string)

  class Engine {
    const registry: Registry
    var current: Option<Entry>
    var state: State
    /** The start time, None standing for Go's zero time. */
    var startTime: Option<int>
    ghost var log: seq<ScenarioCall>

    /** The engine is idle exactly when no scenario is current; a current
        scenario is a registered one with a recorded start time. */
    ghost predicate Valid()
      reads this
    {
      (state == Idle <==> current.None?) &&
      (current.Some? ==> current.value in registry.scenarios && startTime.Some?)
    }

    constructor (r: Registry)
      ensures Valid()
      ensures registry == r && current == None && state == Idle && startTime == None && log == []
    {
      registry := r;
      current := None;
      state := Idle;
      startTime := None;
      log := [];
    }

    /** Starts the scenario `id`. Its Cleanup runs first with its error
        ignored, then its Setup, whose error `setupErr` is the outcome. */
    method StartScenario(id: string, setupErr: Option<string>, now: int) returns (err: Option<string>)
      requires Valid()
      modifies this
      ensures Valid()
      ensures Get(registry, id).None? ==>
        err == Some("scenario not found: " + id) && unchanged(this)
      ensures Get(registry, id).Some? ==> log == old(log) + [CleanupCall(id), SetupCall(id)]
      ensures Get(registry, id).Some? && setupErr.Some? ==>
        err == Some("failed to setup scenario: " + setupErr.value) &&
        current == old(current) && state == old(state) && startTime == old(startTime)
      ensures Get(registry, id).Some? && setupErr.None? ==>
        err.None? && current == Get(registry, id) && state == Running && startTime == Some(now)
    {
      var s := Get(registry, id);
      if s.None? {
        return Some("scenario not found: " + id);
      }
      log := log + [CleanupCall(id)];
      log := log + [SetupCall(id)];
      if setupErr.Some? {
        return Some("failed to setup scenario: " + setupErr.value);
      }
      current := s;
      state := Running;
      startTime := Some(now);
      return None;
    }

    /** Validates the current scenario; `outcome` is what its Validate returns. */
    method Check(outcome: Result) returns (r: Result, err: Option<string>)
      requires Valid()
      modifies this
      ensures Valid()
      ensures old(current).None? ==> r == Result(false, "") && err == Some("no scenario is running") && unchanged(this)
      ensures old(current).Some? ==> r == outcome && err.None? && log == old(log) + [ValidateCall(old(current).value.id)]
      ensures old(current).Some? ==> state == (if outcome.solved then Validated else old(state))
      ensures current == old(current) && startTime == old(startTime)
    {
      if current.None? {
        return Result(false, ""), Some("no scenario is running");
      }
      log := log + [ValidateCall(current.value.id)];
      if outcome.solved {
        state := Validated;
      }
      return outcome, None;
    }

    /** Cleans up the current scenario; `cleanupErr` is what its Cleanup returns. */
    method Cleanup(cleanupErr: Option<string>) returns (err: Option<string>)
      requires Valid()
      modifies this
      ensures Valid()
      ensures old(current).None? ==> err.None? && unchanged(this)
      ensures old(current).Some? ==> log == old(log) + [CleanupCall(old(current).value.id)]
      ensures old(current).Some? && cleanupErr.Some? ==>
        err == Some("failed to cleanup scenario: " + cleanupErr.value) &&
        state == Cleaning && current == old(current)
      ensures old(current).Some? && cleanupErr.None? ==> err.None? && state == Idle && current.None?
      ensures startTime == old(startTime)
    {
      if current.None? {
        return None;
      }
      state := Cleaning;
      log := log + [CleanupCall(current.value.id)];
      if cleanupErr.Some? {
        return Some("failed to cleanup scenario: " + cleanupErr.value);
      }
      current := None;
      state := Idle;
      return None;
    }

    /** How long the current scenario has been running at time `now`. */
    function ElapsedTime(now: int): (d: int)
      reads this
      ensures state == Idle || startTime.None? ==> d == 0
      ensures state != Idle && startTime.Some? ==> d + startTime.value == now
    {
      if state == Idle || startTime.None? then 0 else now - startTime.value
    }
  }

  /** Starting a registered scenario and solving it: the engine ends in the
      Validated state with that scenario current, after the calls Cleanup,
      Setup, Validate on it, in that order. */
  method StartThenSolve(e: Engine, i: nat, now: int, msg: string)
    requires e.Valid() && IdsDistinct(e.registry.scenarios) && i < |e.registry.scenarios|
    modifies e
    ensures e.Valid() && e.state == Validated && e.current == Some(e.registry.scenarios[i])
    ensures e.log == old(e.log) + [CleanupCall(e.registry.scenarios[i].id), SetupCall(e.registry.scenarios[i].id),
                                    ValidateCall(e.registry.scenarios[i].id)]
  {
    var id := e.registry.scenarios[i].id;
    GetFindsEveryRegistered(e.registry, i);
    var err := e.StartScenario(id, None, now);
    var r, cerr := e.Check(Result(true, msg));
  }
}
