/** The assertThat entry points: one per entity kind, each resolving the
    thread's engine first and then building the kind's assert object on it. */
module Facade {
  import opened Registry
  import opened Binding

  /** The kinds of engine entity that have an assertThat overload. */
  datatype EntityKind =
    | ProcessDefinition
    | ProcessInstance
    | Task
    | Job
    | CmmnTask        // a CMMN TaskHolder
    | Stage           // a CMMN StageHolder
    | Milestone       // a CMMN MilestoneHolder
    | CaseDefinition

  /** An entity under test, known by its kind and identity only. */
  datatype Entity = Entity(kind: EntityKind, id: string)

  /** The assert classes the overloads construct. */
  datatype AssertKind =
    | ProcessDefinitionAssert
    | ProcessInstanceAssert
    | TaskAssert
    | JobAssert
    | CmmnTaskAssert
    | StageAssert
    | MilestoneAssert
    | CaseDefinitionAssert

  /** An assert object: its class, the engine it queries and the entity it wraps. */
  datatype Wrapper = Wrapper(kind: AssertKind, engine: Engine, actual: Entity)

  /** The entity kind an assert class is about. */
  function SubjectOf(a: AssertKind): EntityKind
  {
    match a
    case ProcessDefinitionAssert => ProcessDefinition
    case ProcessInstanceAssert => ProcessInstance
    case TaskAssert => Task
    case JobAssert => Job
    case CmmnTaskAssert => CmmnTask
    case StageAssert => Stage
    case MilestoneAssert => Milestone
    case CaseDefinitionAssert => CaseDefinition
  }

  /** Which assert class the overload for an entity kind builds: one about
      that very kind, so no two kinds share a class. */
  function AssertKindFor(kind: EntityKind): (a: AssertKind)
    ensures SubjectOf(a) == kind
  {
    match kind
    case ProcessDefinition => ProcessDefinitionAssert
    case ProcessInstance => ProcessInstanceAssert
    case Task => TaskAssert
    case Job => JobAssert
    case CmmnTask => CmmnTaskAssert
    case Stage => StageAssert
    case Milestone => MilestoneAssert
    case CaseDefinition => CaseDefinitionAssert
  }

  /** Each entity kind has an assert class of its own. */
  lemma AssertKindsDistinct(k: EntityKind, l: EntityKind)
    ensures AssertKindFor(k) == AssertKindFor(l) <==> k == l
  {
  }

  /** assertThat(actual): processEngine() first, then the kind's assert object on that engine. */
  ghost function AssertThat(s: State, registry: Registry, actual: Entity): (out: (Result<Wrapper>, State))
    // an assert object is built exactly when an engine can be resolved
    ensures out.0.Ok? <==> s.bound.Some? || |registry| == 1
    // it wraps the entity, has the entity kind's class, and queries the engine now bound
    ensures out.0.Ok? ==> out.0.value.actual == actual && out.0.value.kind == AssertKindFor(actual.kind)
    ensures out.0.Ok? ==> out.1.bound == Some(out.0.value.engine)
    ensures out.0.Ok? && s.bound.Some? ==> out.0.value.engine == s.bound.value && out.1 == s
    // without a resolvable engine it fails with the binding error and changes nothing
    ensures out.0.Err? ==> out.1 == s && out.0.error == ErrorFor(registry)
  {
    var (resolved, t) := ProcessEngine(s, registry);
    match resolved
    case Ok(engine) => (Ok(Wrapper(AssertKindFor(actual.kind), engine, actual)), t)
    case Err(error) => (Err(error), t)
  }

  /** assertThat leaves the thread exactly as processEngine() would, fails with
      exactly its error, and wraps exactly the engine it returns. */
  lemma AssertThatResolvesFirst(s: State, registry: Registry, actual: Entity)
    ensures AssertThat(s, registry, actual).1 == ProcessEngine(s, registry).1
    ensures ProcessEngine(s, registry).0.Err? ==>
              AssertThat(s, registry, actual).0 == Err(ProcessEngine(s, registry).0.error)
    ensures ProcessEngine(s, registry).0.Ok? ==>
              AssertThat(s, registry, actual).0.Ok? &&
              AssertThat(s, registry, actual).0.value.engine == ProcessEngine(s, registry).0.value
  {
  }
}
