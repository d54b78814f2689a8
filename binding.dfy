/** The per-thread engine binding of ProcessEngineAssertions as a state
    machine on values: the bound engine slot, the last-asserts record, and the
    three operations init, reset and processEngine. */
module Binding {
  import opened Registry

  datatype Option<T> = None | Some(value: T)

  /** Why processEngine() could not hand out an engine (its IllegalStateException). */
  datatype BindingError =
    | NoEngineFound                // nothing registered: "No ProcessEngine found ..."
    | MultipleEngines(count: nat)  // several registered: "<count> ProcessEngines initialized ..."

  /** An operation's outcome: a value, or the binding error it throws. */
  datatype Result<T> = Ok(value: T) | Err(error: BindingError)

  /** One entry of the record of the last asserts made; only its presence matters here. */
  type AssertRecord

  /** What one test thread holds: the bound engine, if any, and the last-asserts record. */
  datatype State = State(bound: Option<Engine>, lastAsserts: seq<AssertRecord>)

  /** A thread that has never called init: nothing bound, nothing recorded. */
  const Fresh: State := State(None, [])

  /** The error processEngine() throws when nothing is bound and the registry
      does not hold exactly one engine. */
  function ErrorFor(registry: Registry): (err: BindingError)
    requires |registry| != 1
    ensures err == NoEngineFound <==> |registry| == 0
    ensures err.MultipleEngines? ==> err.count == |registry| && err.count > 1
  {
    if |registry| == 0 then NoEngineFound else MultipleEngines(|registry|)
  }

  /** init(engine): bind the engine and clear the last-asserts record. */
  function Init(s: State, engine: Engine): (t: State)
    ensures t.bound == Some(engine) && t.lastAsserts == []
  {
    State(Some(engine), [])
  }

  /** reset(): unbind and clear the last-asserts record, which is the state
      of a thread that never called init. */
  function Reset(s: State): (t: State)
    ensures t == Fresh
  {
    State(None, [])
  }

  /** processEngine(): the bound engine; otherwise the registry's only engine,
      which is then bound through init; otherwise a binding error. */
  ghost function ProcessEngine(s: State, registry: Registry): (out: (Result<Engine>, State))
    // an engine is handed out exactly when one is bound or exactly one is registered
    ensures out.0.Ok? <==> s.bound.Some? || |registry| == 1
    // a bound engine is returned as it is, and nothing changes
    ensures s.bound.Some? ==> out == (Ok(s.bound.value), s)
    // the engine handed out is the one bound afterwards
    ensures out.0.Ok? ==> out.1.bound == Some(out.0.value)
    // an implicitly resolved engine is the registry's only one, and the record is cleared
    ensures s.bound.None? && out.0.Ok? ==> registry.Values == {out.0.value} && out.1.lastAsserts == []
    // a failure names the number of engines and leaves the state as it was
    ensures out.0.Err? ==> out.1 == s && s.bound.None?
    ensures out.0 == Err(NoEngineFound) <==> s.bound.None? && |registry| == 0
    ensures out.0.Err? && out.0.error.MultipleEngines? ==> out.0.error.count == |registry| > 1
  {
    match s.bound
    case Some(engine) => (Ok(engine), s)
    case None =>
      if |registry| == 1 then
        var engine := SoleEngine(registry);
        (Ok(engine), Init(s, engine))
      else
        (Err(ErrorFor(registry)), s)
  }

  /** Once an engine is bound, processEngine() does not consult the registry at all. */
  lemma BoundIgnoresRegistry(s: State, registry: Registry, other: Registry)
    requires s.bound.Some?
    ensures ProcessEngine(s, registry) == ProcessEngine(s, other)
  {
  }

  /** Two processEngine() calls with no init or reset between them return the
      same engine, even if the registry changed in between. */
  lemma ProcessEngineIdempotent(s: State, registry: Registry, later: Registry)
    requires ProcessEngine(s, registry).0.Ok?
    ensures ProcessEngine(ProcessEngine(s, registry).1, later) == ProcessEngine(s, registry)
  {
  }

  /** Implicit resolution is an init with the registry's only engine. */
  lemma ImplicitResolutionIsInit(s: State, registry: Registry)
    requires s.bound.None? && |registry| == 1
    ensures ProcessEngine(s, registry) == (Ok(SoleEngine(registry)), Init(s, SoleEngine(registry)))
  {
  }

  /** After init(e), whatever came before, e is bound, the record is empty and
      every processEngine() returns e. */
  lemma InitBinds(s: State, engine: Engine, registry: Registry)
    ensures Init(s, engine).bound == Some(engine) && Init(s, engine).lastAsserts == []
    ensures ProcessEngine(Init(s, engine), registry) == (Ok(engine), Init(s, engine))
  {
  }

  /** After reset(), whatever came before, processEngine() behaves as on a fresh thread. */
  lemma ResetForgets(s: State, registry: Registry)
    ensures Reset(s).bound.None? && Reset(s).lastAsserts == []
    ensures ProcessEngine(Reset(s), registry) == ProcessEngine(Fresh, registry)
  {
  }
}
