# Engine binding of camunda BPM Assert

camunda BPM Assert offers `assertThat(...)` entry points that wrap process
engine entities (process definitions and instances, tasks, jobs, case
definitions, CMMN tasks, stages and milestones) in fluent assert objects. Every
such assert object queries a process engine, and which engine that is is decided
by a small per-thread binding kept by `ProcessEngineAssertions`:

- `init(engine)` binds an engine to the current thread and clears the record of
  the last asserts made;
- `reset()` unbinds it and clears that record;
- `processEngine()` returns the bound engine; with none bound it consults the
  registry of named engines: with exactly one registered engine it binds it
  (through `init`) and returns it; with none it fails with "no engine found";
  with several it fails, naming how many, and asks for an explicit `init`;
- each `assertThat` overload calls `processEngine()` first and builds its assert
  object on the engine it gets.

This project models that binding and proves what it promises.

- `registry.dfy` (module `Registry`): the opaque `Engine` type, the registry as a
  `map<string, Engine>`, and the sole engine of a one-entry registry.
- `binding.dfy` (module `Binding`): the thread's state (`bound: Option<Engine>`,
  `lastAsserts: seq<AssertRecord>`), the binding errors, and `Init`, `Reset` and
  `ProcessEngine` as functions on that state, with lemmas for the properties of
  a single call.
- `facade.dfy` (module `Facade`): entity kinds, the assert class each overload
  builds, and `AssertThat` as a function on the state.
- `traces.dfy` (module `Traces`): whole sequences of calls on one thread, and
  lemmas, proved by induction, about a binding that sticks until the next
  `init` or `reset`, about runs that can never resolve an engine, and about
  `reset` and `init` erasing a run's history.
- `process_engine_assertions.dfy` (module `Assertions`): the class
  `ProcessEngineAssertions`, whose fields are the thread's slot and record,
  updated in place by `Init`, `Reset`, `ProcessEngine` and `AssertThat`. Each
  method is proved to leave exactly the state (and return exactly the result)
  the functions of `Binding` and `Facade` give. Two client methods state the
  documented scenarios against the class.

The registry (`ProcessEngines.getProcessEngines()`) is a global outside the
core. Here it is a parameter of each call that may consult it, so it can differ
from one call to the next.

## Model

| member | source | states |
|---|---|---|
| Registry.SingleEntry | camunda-bpm-assert/src/main/java/org/camunda/bpm/engine/test/assertions/ProcessEngineAssertions.java:68-70 | a registry of size one holds exactly one name and exactly one engine |
| Registry.SoleEngine | camunda-bpm-assert/src/main/java/org/camunda/bpm/engine/test/assertions/ProcessEngineAssertions.java:70 | the engine picked from a one-entry registry is its only value |
| Binding.ErrorFor | camunda-bpm-assert/src/main/java/org/camunda/bpm/engine/test/assertions/ProcessEngineAssertions.java:74-78 | with no engine registered the error is "no engine found"; otherwise it carries the number of registered engines, which is more than one |
| Binding.ProcessEngine | camunda-bpm-assert/src/main/java/org/camunda/bpm/engine/test/assertions/ProcessEngineAssertions.java:64-79 | an engine is returned exactly when one is bound or exactly one is registered; a bound engine is returned with nothing changed; an implicitly resolved engine is the registry's only one, is bound afterwards, and the record is cleared; a failure leaves the state unchanged and is "no engine found" exactly when the registry is empty, otherwise it carries the registry's size |
| Binding.Init | camunda-bpm-assert/src/main/java/org/camunda/bpm/engine/test/assertions/ProcessEngineAssertions.java:88-91 | init(e) binds e and clears the record, whatever the prior state; that processEngine() then returns e unchanged is stated by Binding.InitBinds |
| Binding.Reset | camunda-bpm-assert/src/main/java/org/camunda/bpm/engine/test/assertions/ProcessEngineAssertions.java:34-41 | reset() leaves exactly the state of a thread that never called init; that processEngine() then behaves as on a fresh thread is stated by Binding.ResetForgets |
| Facade.AssertKindFor | camunda-bpm-assert/src/main/java/org/camunda/bpm/engine/test/assertions/ProcessEngineAssertions.java:49-162 | each overload builds an assert class about its own entity kind, so no two kinds share an assert class |
| Binding.BoundIgnoresRegistry | camunda-bpm-assert/src/main/java/org/camunda/bpm/engine/test/assertions/ProcessEngineAssertions.java:65-67 | with an engine bound, the outcome of processEngine() does not depend on the registry |
| Binding.ProcessEngineIdempotent | camunda-bpm-assert/src/main/java/org/camunda/bpm/engine/test/assertions/ProcessEngineAssertions.java:64-72 | after a successful processEngine(), a second call returns the same engine and leaves the same state, whatever the registry then holds |
| Binding.ImplicitResolutionIsInit | camunda-bpm-assert/src/main/java/org/camunda/bpm/engine/test/assertions/ProcessEngineAssertions.java:68-72 | implicit resolution returns the registry's only engine and leaves exactly the state init with that engine leaves |
| Binding.InitBinds | camunda-bpm-assert/src/main/java/org/camunda/bpm/engine/test/assertions/ProcessEngineAssertions.java:88-91 | after init(e), whatever the prior state, e is bound, the record is empty, and processEngine() returns e without changing anything |
| Binding.ResetForgets | camunda-bpm-assert/src/main/java/org/camunda/bpm/engine/test/assertions/ProcessEngineAssertions.java:34-41 | after reset(), whatever the prior state, nothing is bound, the record is empty, and processEngine() behaves exactly as on a fresh thread |
| Facade.AssertThat | camunda-bpm-assert/src/main/java/org/camunda/bpm/engine/test/assertions/ProcessEngineAssertions.java:49-162 | for every entity kind, an assert object is built exactly when an engine can be resolved; it wraps the given entity, has that entity kind's assert class and queries the engine bound afterwards; otherwise the binding error is raised and the state is unchanged |
| Facade.AssertThatResolvesFirst | camunda-bpm-assert/src/main/java/org/camunda/bpm/engine/test/assertions/ProcessEngineAssertions.java:49-162 | for every entity kind, assertThat leaves the state processEngine() leaves, fails with its error, and wraps the engine it returns |
| Facade.AssertKindsDistinct | camunda-bpm-assert/src/main/java/org/camunda/bpm/engine/test/assertions/ProcessEngineAssertions.java:93-162 | the overloads build a different assert class for each entity kind |
| Traces.StickyBinding | camunda-bpm-assert/src/main/java/org/camunda/bpm/engine/test/assertions/ProcessEngineAssertions.java:64-67 | once an engine is bound, every processEngine() and assertThat until the next init or reset hands out that engine, whatever the registry, and the state does not change |
| Traces.FirstResolutionSticks | camunda-bpm-assert/src/main/java/org/camunda/bpm/engine/test/assertions/ProcessEngineAssertions.java:68-72 | the engine the first resolving call hands out is handed out by every later call until the next init or reset |
| Traces.UnresolvableStaysUnbound | camunda-bpm-assert/src/main/java/org/camunda/bpm/engine/test/assertions/ProcessEngineAssertions.java:74-78 | with nothing bound and no registry holding exactly one engine, no call hands out an engine and nothing becomes bound |
| Traces.ResetErasesHistory | camunda-bpm-assert/src/main/java/org/camunda/bpm/engine/test/assertions/ProcessEngineAssertions.java:34-41 | after a reset in a run, the remaining calls reply and end exactly as they would on a fresh thread |
| Traces.InitPinsEngine | camunda-bpm-assert/src/main/java/org/camunda/bpm/engine/test/assertions/ProcessEngineAssertions.java:81-91 | after an init(e) in a run, the thread ends bound to e with an empty record (nothing in this model records asserts) and every later call hands out e until the next init or reset |
| Assertions.ProcessEngineAssertions.constructor | camunda-bpm-assert/src/main/java/org/camunda/bpm/engine/test/assertions/ProcessEngineAssertions.java:29 | a new thread has nothing bound and an empty record |
| Assertions.ProcessEngineAssertions.Reset | camunda-bpm-assert/src/main/java/org/camunda/bpm/engine/test/assertions/ProcessEngineAssertions.java:38-41 | the slot is emptied and the record cleared, as Binding.Reset |
| Assertions.ProcessEngineAssertions.Init | camunda-bpm-assert/src/main/java/org/camunda/bpm/engine/test/assertions/ProcessEngineAssertions.java:88-91 | the engine is bound and the record cleared, as Binding.Init |
| Assertions.ProcessEngineAssertions.ProcessEngine | camunda-bpm-assert/src/main/java/org/camunda/bpm/engine/test/assertions/ProcessEngineAssertions.java:64-79 | result and new state are those of Binding.ProcessEngine; a bound engine is returned with the object unchanged; a failure leaves the object unchanged |
| Assertions.ProcessEngineAssertions.AssertThat | camunda-bpm-assert/src/main/java/org/camunda/bpm/engine/test/assertions/ProcessEngineAssertions.java:49-162 | result and new state are those of Facade.AssertThat, for every entity kind; a failure leaves the object unchanged |
| Assertions.SingleEngineThread | camunda-bpm-assert/src/main/java/org/camunda/bpm/engine/test/assertions/ProcessEngineAssertions.java:53-72 | on a thread with no init and one registered engine, assertThat uses that engine, and keeps using it after a second, possibly different, engine is registered |
| Assertions.ResetThenAmbiguous | camunda-bpm-assert/src/main/java/org/camunda/bpm/engine/test/assertions/ProcessEngineAssertions.java:74-78 | after init, assertThat uses the initialised engine; after reset with two registered engines (possibly different ones), assertThat fails naming two engines and nothing is bound |

## Left out

- Binding.Init: `init(null)` is not modelled; in the source it stores null, so the next `processEngine()` sees no bound engine and consults the registry, as after `reset()` (except that `reset()` also removes the slot). `Engine` has no null value here, so `InitBinds`, `InitPinsEngine` and the class's `Init` hold for non-null engines only. Likewise a registry whose only value is null is not modelled.
- The `ThreadLocal` holding the slot (line 29): one thread's slot is modelled as a field of one object; isolation between threads is not modelled.
- The internals of `ProcessEngines.getProcessEngines()`: the registry is an input map, and `values().iterator().next()` on a one-entry map is its only value.
- The exception messages and `String.format` (lines 74-77): the two messages are the error variants `NoEngineFound` and `MultipleEngines(count)`, and the count is kept.
- The assert classes the overloads construct (`ProcessDefinitionAssert`, `ProcessInstanceAssert`, `TaskAssert`, `JobAssert`, the CMMN `TaskAssert`, `StageAssert`, `MilestoneAssert` and `CaseDefinitionAssert`) and their predicates: they query the engine, which is outside this model. An assert object is modelled as its class, its engine and the entity it wraps.
- `AbstractProcessAssert.resetLastAsserts` and the recording of asserts are not part of this model: the last-asserts record is an opaque sequence, and only its clearing by init, reset and implicit resolution is modelled. Nothing in the model appends to it.
- `CaseInstanceAssert`: no `assertThat` overload of `ProcessEngineAssertions` builds it; it consists of covariant overrides delegating to its superclass and of engine queries, so it has no behaviour of its own to model.
- The protected constructor of `ProcessEngineAssertions` (lines 31-32) and the empty subclass `ProcessEngineTests` have no behaviour.
