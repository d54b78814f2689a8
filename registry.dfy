/** The directory of named process engines that implicit resolution consults
    (ProcessEngines.getProcessEngines()), seen as a value handed to each call. */
module Registry {

  /** A process engine. Nothing about it is inspected here: it is only bound,
      looked up and passed on. */
  type Engine(==)

  /** The registered engines, by name. */
  type Registry = map<string, Engine>

  /** A registry with exactly one entry has exactly one engine, the one under its name. */
  lemma SingleEntry(registry: Registry, name: string)
    requires |registry| == 1 && name in registry
    ensures registry.Keys == {name}
    ensures registry.Values == {registry[name]}
  {
    var others := registry.Keys - {name};
    assert |others| == 0;
    assert others == {};
    forall e | e in registry.Values
      ensures e == registry[name]
    {
      var n :| n in registry && registry[n] == e;
      assert n !in others;
    }
  }

  /** The one engine of a one-entry registry: what values().iterator().next()
      yields when size() is 1. */
  ghost function SoleEngine(registry: Registry): (e: Engine)
    requires |registry| == 1
    ensures registry.Values == {e}
  {
    var name :| name in registry;
    SingleEntry(registry, name);
    registry[name]
  }
}
