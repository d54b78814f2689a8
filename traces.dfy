/** Sequences of calls one test thread makes on ProcessEngineAssertions, and
    what the binding guarantees over a whole sequence. */
module Traces {
  import opened Registry
  import opened Binding
  import opened Facade

  /** A call into ProcessEngineAssertions; the resolving ones see the registry
      as it is at that moment. */
  datatype Call =
    | InitCall(engine: Engine)
    | ResetCall
    | ProcessEngineCall(registry: Registry)
    | AssertThatCall(actual: Entity, registry: Registry)

  /** What a call returned: nothing (init, reset), an engine, or an assert object. */
  datatype Reply =
    | Done
    | Resolved(engine: Result<Engine>)
    | Asserted(wrapper: Result<Wrapper>)

  /** A whole run: one reply per call, and the thread's state at the end. */
  datatype Run = Run(replies: seq<Reply>, final: State)

  ghost function Step(s: State, c: Call): (Reply, State)
  {
    match c
    case InitCall(engine) => (Done, Init(s, engine))
    case ResetCall => (Done, Reset(s))
    case ProcessEngineCall(registry) =>
      var (r, t) := ProcessEngine(s, registry);
      (Resolved(r), t)
    case AssertThatCall(actual, registry) =>
      var (r, t) := AssertThat(s, registry, actual);
      (Asserted(r), t)
  }

  /** The calls made one after another from state s. */
  ghost function Execute(s: State, calls: seq<Call>): (run: Run)
    ensures |run.replies| == |calls|
    decreases |calls|
  {
    if calls == [] then Run([], s)
    else
      var (reply, t) := Step(s, calls[0]);
      var rest := Execute(t, calls[1..]);
      Run([reply] + rest.replies, rest.final)
  }

  /** Calls that establish a new binding, or none. */
  predicate Rebinds(c: Call)
  {
    c.InitCall? || c.ResetCall?
  }

  /** The reply handed out the given engine (as such, or inside an assert object). */
  predicate ServedBy(reply: Reply, engine: Engine)
  {
    match reply
    case Done => false
    case Resolved(r) => r == Ok(engine)
    case Asserted(r) => r.Ok? && r.value.engine == engine
  }

  /** The reply handed out no engine. */
  predicate Unserved(reply: Reply)
  {
    match reply
    case Done => true
    case Resolved(r) => r.Err?
    case Asserted(r) => r.Err?
  }

  /** A call that cannot bind anything when nothing is bound. */
  predicate Unresolvable(c: Call)
  {
    match c
    case InitCall(_) => false
    case ResetCall => true
    case ProcessEngineCall(registry) => |registry| != 1
    case AssertThatCall(_, registry) => |registry| != 1
  }

  /** Running two call sequences one after the other is running their concatenation. */
  lemma {:induction false} ExecuteAppend(s: State, first: seq<Call>, second: seq<Call>)
    ensures Execute(s, first + second) ==
            Run(Execute(s, first).replies + Execute(Execute(s, first).final, second).replies,
                Execute(Execute(s, first).final, second).final)
    decreases |first|
  {
    if first == [] {
      assert first + second == second;
    } else {
      assert (first + second)[0] == first[0];
      assert (first + second)[1..] == first[1..] + second;
      var t := Step(s, first[0]).1;
      ExecuteAppend(t, first[1..], second);
    }
  }

  /** Once an engine is bound, and as long as no init or reset follows, every
      call returns that engine whatever the registry holds, and the state does
      not change. */
  lemma {:induction false} StickyBinding(s: State, calls: seq<Call>)
    requires s.bound.Some?
    requires forall i :: 0 <= i < |calls| ==> !Rebinds(calls[i])
    ensures Execute(s, calls).final == s
    ensures forall i :: 0 <= i < |calls| ==> ServedBy(Execute(s, calls).replies[i], s.bound.value)
    decreases |calls|
  {
    if calls != [] {
      assert Step(s, calls[0]).1 == s;
      StickyBinding(s, calls[1..]);
      var run := Execute(s, calls);
      var rest := Execute(s, calls[1..]);
      assert run.replies == [Step(s, calls[0]).0] + rest.replies;
      forall i | 0 <= i < |calls|
        ensures ServedBy(run.replies[i], s.bound.value)
      {
        if i > 0 {
          assert run.replies[i] == rest.replies[i - 1];
        }
      }
    }
  }

  /** Idempotence over a run: the engine the first resolving call hands out is
      the engine every later call hands out until the next init or reset. */
  lemma FirstResolutionSticks(s: State, c: Call, later: seq<Call>, engine: Engine)
    requires ServedBy(Step(s, c).0, engine)
    requires forall i :: 0 <= i < |later| ==> !Rebinds(later[i])
    ensures forall i :: 1 <= i <= |later| ==>
              ServedBy(Execute(s, [c] + later).replies[i], engine)
  {
    var t := Step(s, c).1;
    assert t.bound == Some(engine);
    assert ([c] + later)[0] == c && ([c] + later)[1..] == later;
    StickyBinding(t, later);
  }

  /** With nothing bound and no registry offering exactly one engine, no call
      hands out an engine and nothing ever becomes bound. */
  lemma {:induction false} UnresolvableStaysUnbound(s: State, calls: seq<Call>)
    requires s.bound.None?
    requires forall i :: 0 <= i < |calls| ==> Unresolvable(calls[i])
    ensures Execute(s, calls).final.bound.None?
    ensures forall i :: 0 <= i < |calls| ==> Unserved(Execute(s, calls).replies[i])
    decreases |calls|
  {
    if calls != [] {
      var t := Step(s, calls[0]).1;
      assert t.bound.None?;
      UnresolvableStaysUnbound(t, calls[1..]);
      var run := Execute(s, calls);
      var rest := Execute(t, calls[1..]);
      forall i | 0 <= i < |calls|
        ensures Unserved(run.replies[i])
      {
        if i > 0 {
          assert run.replies[i] == rest.replies[i - 1];
        }
      }
    }
  }

  /** A reset in the middle of a run erases the run's history: what follows
      behaves exactly as on a fresh thread. */
  lemma ResetErasesHistory(s: State, before: seq<Call>, after: seq<Call>)
    ensures var run := Execute(s, before + [ResetCall] + after);
            run.final == Execute(Fresh, after).final &&
            run.replies[|before| + 1..] == Execute(Fresh, after).replies
  {
    ExecuteAppend(s, before + [ResetCall], after);
    ExecuteAppend(s, before, [ResetCall]);
    assert Execute(s, before + [ResetCall]).final == Fresh;
  }

  /** An init in the middle of a run pins the engine: until the next init or
      reset, every later call hands out that engine. */
  lemma InitPinsEngine(s: State, before: seq<Call>, engine: Engine, after: seq<Call>)
    requires forall i :: 0 <= i < |after| ==> !Rebinds(after[i])
    ensures var run := Execute(s, before + [InitCall(engine)] + after);
            run.final == State(Some(engine), []) &&
            forall i :: |before| < i < |run.replies| ==> ServedBy(run.replies[i], engine)
  {
    var pinned := State(Some(engine), []);
    ExecuteAppend(s, before + [InitCall(engine)], after);
    ExecuteAppend(s, before, [InitCall(engine)]);
    assert Execute(s, before + [InitCall(engine)]).final == pinned;
    StickyBinding(pinned, after);
    var run := Execute(s, before + [InitCall(engine)] + after);
    assert run.replies[|before| + 1..] == Execute(pinned, after).replies;
    forall i | |before| < i < |run.replies|
      ensures ServedBy(run.replies[i], engine)
    {
      assert run.replies[i] == Execute(pinned, after).replies[i - |before| - 1];
    }
  }
}
