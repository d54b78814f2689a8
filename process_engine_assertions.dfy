/** ProcessEngineAssertions: the engine slot and last-asserts record of one
    test thread, updated in place by init, reset and processEngine, and the
    assertThat entry points that resolve through them. */
module Assertions {
  import opened Registry
  import opened Binding
  import opened Facade

  class ProcessEngineAssertions {
    /** The engine bound to this thread, if any. */
    var processEngine: Option<Engine>
    /** The record of the last asserts made on this thread. */
    var lastAsserts: seq<AssertRecord>

    /** The thread's binding as a value. */
    function Current(): State
      reads this
    {
      State(processEngine, lastAsserts)
    }

    /** A thread before its first init: nothing bound, nothing recorded. */
    constructor ()
      ensures Current() == Fresh
    {
      processEngine := None;
      lastAsserts := [];
    }

    /** reset(): back to the state before the first init. */
    method Reset()
      modifies this
      ensures processEngine == None && lastAsserts == []
      ensures Current() == Binding.Reset(old(Current()))
    {
      processEngine := None;
      lastAsserts := [];
    }

    /** init(engine): bind the engine and clear the last-asserts record. */
    method Init(engine: Engine)
      modifies this
      ensures processEngine == Some(engine) && lastAsserts == []
      ensures Current() == Binding.Init(old(Current()), engine)
    {
      processEngine := Some(engine);
      lastAsserts := [];
    }

    /** processEngine(): the bound engine; otherwise bind and return the
        registry's only engine; otherwise fail with the binding error. */
    method ProcessEngine(registry: Registry) returns (r: Result<Engine>)
      modifies this
      ensures (r, Current()) == Binding.ProcessEngine(old(Current()), registry)
      ensures old(processEngine).Some? ==> r == Ok(old(processEngine).value) && unchanged(this)
      ensures r.Err? ==> unchanged(this)
    {
      if processEngine.Some? {
        return Ok(processEngine.value);
      }
      if |registry| == 1 {
        var name :| name in registry;
        var engine := registry[name];
        assert engine in registry.Values;
        Init(engine);
        return Ok(engine);
      }
      return Err(ErrorFor(registry));
    }

    /** assertThat(actual), for every entity kind: resolve the engine first,
        then build the kind's assert object on it. */
    method AssertThat(actual: Entity, registry: Registry) returns (r: Result<Wrapper>)
      modifies this
      ensures (r, Current()) == Facade.AssertThat(old(Current()), registry, actual)
      ensures r.Err? ==> unchanged(this)
    {
      var resolved := ProcessEngine(registry);
      match resolved
      case Ok(engine) =>
        r := Ok(Wrapper(AssertKindFor(actual.kind), engine, actual));
      case Err(error) =>
        r := Err(error);
    }
  }

  /** A thread that never calls init, with one registered engine: the first
      assertThat binds that engine, and later calls keep using it even after
      another engine has been registered. */
  method SingleEngineThread(engine: Engine, other: Engine, instance: Entity, task: Entity)
    returns (first: Result<Wrapper>, second: Result<Wrapper>)
    ensures first.Ok? && first.value.engine == engine && first.value.actual == instance
    ensures second.Ok? && second.value.engine == engine && second.value.actual == task
  {
    var assertions := new ProcessEngineAssertions();
    first := assertions.AssertThat(instance, map["default" := engine]);
    second := assertions.AssertThat(task, map["default" := engine, "other" := other]);
  }

  /** After reset, a thread with several registered engines and no explicit
      init is told how many there are, and stays unbound. */
  method ResetThenAmbiguous(engine: Engine, other: Engine, instance: Entity)
    returns (before: Result<Wrapper>, after: Result<Wrapper>, bound: Option<Engine>)
    ensures before.Ok? && before.value.engine == engine
    ensures after == Err(MultipleEngines(2))
    ensures bound == None
  {
    var assertions := new ProcessEngineAssertions();
    assertions.Init(engine);
    before := assertions.AssertThat(instance, map[]);
    assertions.Reset();
    after := assertions.AssertThat(instance, map["one" := engine, "two" := other]);
    bound := assertions.processEngine;
  }
}
