/**
 * ResourceImpl: a resource's declared graph together with the engine that
 * drives an instance through it (state lookups, assertState, migrate,
 * jumpstate and the path search).
 */
module Resources {
  import opened Wrappers
  import opened Model
  import opened Lookup
  import opened Paths
  import opened Engine
  import opened Plugins

  /**
   * The result of migrate once the target id is known: read the current
   * state, require exactly one path from it to the target, then run that
   * path step by step. `d` tells the two copies apart (direct calls and an
   * argument check in ResourceImpl, plugin lookup and a null dereference in
   * WildebeestApiImpl).
   */
  ghost function MigrateSpec(d: Dispatch, g: Graph, rank: map<Option<Uuid>, nat>, env: Environment, b: Backend,
                             target: Option<Uuid>): Run
    requires WellFormed(g, rank)
  {
    match CurrentStateOf(g.states, b.marker)
    case Failure(e) => Run(Fail(e), b)
    case Success(current) =>
      var paths := PathsBetween(g, rank, IdOf(current), target);
      if |paths| != 1 then Run(Fail(PathNotUnique), b)
      else
        RecordedPathsAreDeclared(g, rank, IdOf(current), target);
        RunPath(d, StateCheck(g.states, env, d.NullStateError()), env, b, paths[0])
  }

  /**
   * The result of jumpstate: look the target up, evaluate the target
   * state's own assertions, and write the marker only if every one passed.
   */
  function JumpstateSpec(states: seq<State>, env: Environment, b: Backend, target: Uuid): Run {
    match FirstWithId(states, target)
    case None => Run(Fail(JumpStateFailed(target)), b)
    case Some(s) =>
      var results := Evaluate(s.assertions, env.oracle, b);
      match ThrowIfFailed(s.stateId, results)
      case Fail(e) => Run(Fail(e), b)
      case Pass => Run(Pass, b.(marker := Some(target)))
  }

  /** The current state can be read and exactly one path leads from it to the target. */
  ghost predicate PastGate(g: Graph, rank: map<Option<Uuid>, nat>, b: Backend, target: Option<Uuid>)
    requires WellFormed(g, rank)
  {
    CurrentStateOf(g.states, b.marker).Success? && |PathsBetween(g, rank, b.marker, target)| == 1
  }

  /**
   * The gate of migrate: it fails with PathNotUnique exactly when the current
   * state can be read but the number of paths from it to the target is not
   * one, and then nothing has been performed or written. An undeclared
   * marker stops it before the search, also with nothing changed.
   */
  lemma MigrateGate(d: Dispatch, g: Graph, rank: map<Option<Uuid>, nat>, env: Environment, b: Backend, target: Option<Uuid>)
    requires WellFormed(g, rank)
    ensures var r := MigrateSpec(d, g, rank, env, b, target);
            && (r.outcome == Fail(PathNotUnique) <==>
                  CurrentStateOf(g.states, b.marker).Success? && |PathsBetween(g, rank, b.marker, target)| != 1)
            && (r.outcome == Fail(PathNotUnique) ==> r.backend == b)
            && (CurrentStateOf(g.states, b.marker).Failure? ==> r == Run(Fail(IndeterminateState(b.marker.value)), b))
  {
    var current := CurrentStateOf(g.states, b.marker);
    if current.Success? {
      var paths := PathsBetween(g, rank, IdOf(current.value), target);
      assert IdOf(current.value) == b.marker;
      if |paths| == 1 {
        RecordedPathsAreDeclared(g, rank, b.marker, target);
        RunPathFailures(d, StateCheck(g.states, env, d.NullStateError()), env, b, paths[0]);
      }
    }
  }

  /**
   * Past the gate, migrate is the run of the one path found; a migrate that
   * completes, or stops on failed assertions, got past the gate.
   */
  lemma MigrateRunsPath(d: Dispatch, g: Graph, rank: map<Option<Uuid>, nat>, env: Environment, b: Backend, target: Option<Uuid>)
    requires WellFormed(g, rank)
    ensures var r := MigrateSpec(d, g, rank, env, b, target);
            r.outcome.Pass? || (r.outcome.Fail? && r.outcome.error.AssertionFailed?) ==> PastGate(g, rank, b, target)
    ensures PastGate(g, rank, b, target) ==>
              && Targets(PathsBetween(g, rank, b.marker, target)[0])
              && MigrateSpec(d, g, rank, env, b, target) == RunPath(d, StateCheck(g.states, env, d.NullStateError()), env, b, PathsBetween(g, rank, b.marker, target)[0])
  {
    var current := CurrentStateOf(g.states, b.marker);
    if current.Success? {
      assert IdOf(current.value) == b.marker;
      RecordedPathsAreDeclared(g, rank, b.marker, target);
    }
  }

  /**
   * Conversely, when no migration is declared twice, an instance whose
   * current state can be read and from which exactly one route leads to the
   * target gets past the gate, and migrate runs that route.
   */
  lemma UniqueRoutePassesGate(d: Dispatch, g: Graph, rank: map<Option<Uuid>, nat>, env: Environment, b: Backend,
                              target: Option<Uuid>, q: Path)
    requires WellFormed(g, rank) && DistinctMigrations(g)
    requires CurrentStateOf(g.states, b.marker).Success?
    requires IsRoute(g, q, b.marker, target)
    requires forall q' :: IsRoute(g, q', b.marker, target) ==> q' == q
    ensures PastGate(g, rank, b, target)
    ensures Targets(q) && MigrateSpec(d, g, rank, env, b, target) == RunPath(d, StateCheck(g.states, env, d.NullStateError()), env, b, q)
  {
    UniqueRouteIsFound(g, rank, b.marker, target, q);
    MigrateRunsPath(d, g, rank, env, b, target);
  }

  /**
   * A migrate that completes has carried out, in order, the one route from
   * the state the instance was in to the target, and leaves the instance
   * marked as being in the target state.
   */
  lemma MigrateReachesTarget(d: Dispatch, g: Graph, rank: map<Option<Uuid>, nat>, env: Environment, b: Backend, target: Option<Uuid>)
    requires WellFormed(g, rank)
    ensures var r := MigrateSpec(d, g, rank, env, b, target);
            r.outcome.Pass? ==>
              && r.backend.marker == target
              && exists q :: && IsRoute(g, q, b.marker, target)
                             && r.backend.performed == b.performed + q
                             && forall q' :: IsRoute(g, q', b.marker, target) ==> q' == q
  {
    var r := MigrateSpec(d, g, rank, env, b, target);
    MigrateRunsPath(d, g, rank, env, b, target);
    if r.outcome.Pass? {
      var q := PathsBetween(g, rank, b.marker, target)[0];
      RunPathSteps(d, StateCheck(g.states, env, d.NullStateError()), env, b, q);
      RunPathMarker(d, StateCheck(g.states, env, d.NullStateError()), env, b, q);
      UniquePathIsOnlyRoute(g, rank, b.marker, target);
      RouteIffChain(g, q, b.marker, target);
      assert q[..|q|] == q;
    }
  }

  /**
   * Nothing is rolled back: when the re-check after a step fails, the
   * migrations carried out so far are a non-empty prefix of the route, and
   * the instance stays marked with the state the last of them reached,
   * which is the state whose assertions failed.
   */
  lemma MigrateKeepsFailedStep(d: Dispatch, g: Graph, rank: map<Option<Uuid>, nat>, env: Environment, b: Backend, target: Option<Uuid>)
    requires WellFormed(g, rank)
    ensures var r := MigrateSpec(d, g, rank, env, b, target);
            r.outcome.Fail? && r.outcome.error.AssertionFailed? ==>
              && r.backend.marker == Some(r.outcome.error.stateId)
              && 0 < Carried(b, r) <= |PathsBetween(g, rank, b.marker, target)[0]|
              && r.backend.performed == b.performed + PathsBetween(g, rank, b.marker, target)[0][..Carried(b, r)]
  {
    var r := MigrateSpec(d, g, rank, env, b, target);
    MigrateRunsPath(d, g, rank, env, b, target);
    if r.outcome.Fail? && r.outcome.error.AssertionFailed? {
      var q := PathsBetween(g, rank, b.marker, target)[0];
      RunPathSteps(d, StateCheck(g.states, env, d.NullStateError()), env, b, q);
      RunPathMarker(d, StateCheck(g.states, env, d.NullStateError()), env, b, q);
      RunPathFailures(d, StateCheck(g.states, env, d.NullStateError()), env, b, q);
    }
  }

  /**
   * jumpstate writes the marker only when the target is declared and every
   * assertion of that state passes, and then writes exactly the target;
   * otherwise the instance is left as it was.
   */
  lemma JumpstateWritesOnlyIfAllPass(states: seq<State>, env: Environment, b: Backend, target: Uuid)
    ensures var r := JumpstateSpec(states, env, b, target);
            && (r.outcome.Pass? <==>
                  && Declared(states, target)
                  && forall i :: 0 <= i < |FirstWithId(states, target).value.assertions| ==>
                       ResultOf(FirstWithId(states, target).value.assertions[i], env.oracle, b).result)
            && (r.outcome.Pass? ==> r.backend == b.(marker := Some(target)))
            && (r.outcome.Fail? ==> r.backend == b)
            && (r.outcome == Fail(JumpStateFailed(target)) <==> !Declared(states, target))
            && (Declared(states, target) && r.outcome.Fail? ==>
                  r.outcome.error == AssertionFailed(target, Evaluate(FirstWithId(states, target).value.assertions, env.oracle, b)))
  {
    match FirstWithId(states, target)
    case None =>
    case Some(s) =>
      assert Declared(states, target) by {
        var i :| 0 <= i < |states| && states[i] == s;
      }
      var results := Evaluate(s.assertions, env.oracle, b);
      assert (forall i :: 0 <= i < |results| ==> results[i].result)
         <==> (forall i :: 0 <= i < |s.assertions| ==> ResultOf(s.assertions[i], env.oracle, b).result);
      assert FirstWithId(states, target).value == s;
  }

  /** The run of a path's suffix from position `i` takes step `i` first. */
  lemma RunPathFrom(d: Dispatch, check: Check, env: Environment, b: Backend, path: Path, i: nat)
    requires Targets(path) && i < |path|
    ensures Targets(path[i..]) && Targets(path[i + 1..])
    ensures var s := Step(d, check, env, b, path[i]);
            RunPath(d, check, env, b, path[i..])
            == if s.outcome.Fail? then s else RunPath(d, check, env, s.backend, path[i + 1..])
  {
    assert path[i..][0] == path[i] && path[i..][1..] == path[i + 1..];
  }

  /** One more declared migration considered by the search from `frontier`, after the paths already found. */
  lemma BranchesStep(g: Graph, rank: map<Option<Uuid>, nat>, paths: seq<Path>, prefix: Path,
                     frontier: Option<Uuid>, target: Option<Uuid>, i: nat)
    requires Ranked(g, rank) && i < |g.migrations|
    ensures var m := g.migrations[i];
      paths + Branches(g, rank, Intended, prefix, frontier, target, i + 1)
      == (paths + Branches(g, rank, Intended, prefix, frontier, target, i))
         + (if m.fromStateId == frontier then Explore(g, rank, Intended, prefix + [m], m.toStateId, target) else [])
  {
  }

  class ResourceImpl {
    const resourceId: Uuid
    const resourceType: ResourceType
    const name: string
    const plugin: ResourcePlugin
    var states: seq<State>
    var migrations: seq<Migration>
    /** The target used when none is given (read by WildebeestApiImpl through the Resource interface). */
    var defaultTarget: Option<string>

    /** A new resource declares no states and no migrations. */
    constructor (resourceId: Uuid, resourceType: ResourceType, name: string, plugin: ResourcePlugin)
      ensures this.resourceId == resourceId && this.resourceType == resourceType
      ensures this.name == name && this.plugin == plugin
      ensures states == [] && migrations == [] && defaultTarget == None
    {
      this.resourceId := resourceId;
      this.resourceType := resourceType;
      this.name := name;
      this.plugin := plugin;
      this.states := [];
      this.migrations := [];
      this.defaultTarget := None;
    }

    /** The declared graph as a value. */
    function AsGraph(): Graph
      reads this
    {
      Graph(states, migrations)
    }

    /** stateForId: the first declared state with that id, or None. */
    method StateForId(stateId: Uuid) returns (r: Option<State>)
      ensures r == FirstWithId(states, stateId)
    {
      r := None;
      var i := 0;
      while i < |states|
        invariant 0 <= i <= |states|
        invariant r == None
        invariant FirstWithId(states, stateId) == FirstWithId(states[i..], stateId)
      {
        if stateId == states[i].stateId {
          r := Some(states[i]);
          break;
        }
        assert states[i..][1..] == states[i + 1..];
        i := i + 1;
      }
    }

    /** stateIdForLabel: the id of the last declared state with that label, or None; an empty label is refused. */
    method StateIdForLabel(wanted: string) returns (r: Result<Option<Uuid>, Error>)
      ensures r.Failure? <==> wanted == ""
      ensures r.Failure? ==> r.error == IllegalArgument("label cannot be empty")
      ensures r.Success? ==> r.value == IdForLabel(states, wanted)
    {
      if wanted == "" {
        return Failure(IllegalArgument("label cannot be empty"));
      }
      var result: Option<State> := None;
      var i := 0;
      while i < |states|
        invariant 0 <= i <= |states|
        invariant IdOf(result) == IdForLabel(states[..i], wanted)
      {
        assert states[..i + 1][..i] == states[..i];
        if states[i].stateLabel == Some(wanted) {
          result := Some(states[i]);
        }
        i := i + 1;
      }
      assert states[..i] == states;
      r := Success(IdOf(result));
    }

    /** assertState(logger, instance): the assertions of the plugin-reported current state. */
    method AssertState(instance: Instance) returns (r: Result<seq<AssertionResult>, Error>)
      ensures r == AssertStateSpec(states, instance.env, instance.View(), IllegalArgument("state cannot be null"))
    {
      var current := plugin.CurrentState(states, instance);
      match current {
        case Failure(e) =>
          r := Failure(e);
        case Success(None) =>
          r := Failure(IllegalArgument("state cannot be null"));
        case Success(Some(state)) =>
          var results := AssertStateOf(instance, state);
          r := Success(results);
      }
    }

    /** The private assertState(logger, instance, state): perform each of the state's assertions in order. */
    method AssertStateOf(instance: Instance, state: State) returns (results: seq<AssertionResult>)
      ensures results == Evaluate(state.assertions, instance.env.oracle, instance.View())
    {
      results := [];
      var i := 0;
      while i < |state.assertions|
        invariant 0 <= i <= |state.assertions|
        invariant |results| == i
        invariant forall j :: 0 <= j < i ==> results[j] == ResultOf(state.assertions[j], instance.env.oracle, instance.View())
      {
        var assertion := state.assertions[i];
        var response := instance.env.oracle(assertion, instance.View());
        results := results + [AssertionResult(assertion.assertionId, response.result, response.message)];
        i := i + 1;
      }
    }

    /**
     * migrate: move the instance along the unique path from its current
     * state to `targetStateId`, re-asserting after every step.
     */
    method Migrate(instance: Instance, targetStateId: Option<Uuid>, ghost rank: map<Option<Uuid>, nat>)
      returns (outcome: Outcome<Error>)
      requires WellFormed(AsGraph(), rank)
      modifies instance
      ensures Run(outcome, instance.View()) == MigrateSpec(Direct, AsGraph(), rank, instance.env, old(instance.View()), targetStateId)
    {
      var currentState := plugin.CurrentState(states, instance);
      match currentState {
        case Failure(e) =>
          return Fail(e);
        case Success(current) =>
          var currentStateId := IdOf(current);
          var paths := FindPaths(this, [], [], currentStateId, targetStateId, rank);
          if |paths| != 1 {
            return Fail(PathNotUnique);
          }
          var path := paths[0];
          RecordedPathsAreDeclared(AsGraph(), rank, currentStateId, targetStateId);
          assert Targets(path);
          outcome := PerformPath(instance, path);
      }
    }

    /**
     * The loop of migrate over the chosen path: perform each migration, write
     * its toStateId, re-assert the current state, and stop at the first
     * failure without undoing anything.
     */
    method PerformPath(instance: Instance, path: Path) returns (outcome: Outcome<Error>)
      requires Targets(path)
      modifies instance
      ensures Run(outcome, instance.View()) == RunPath(Direct, StateCheck(states, instance.env, Direct.NullStateError()), instance.env, old(instance.View()), path)
    {
      ghost var spec := RunPath(Direct, StateCheck(states, instance.env, Direct.NullStateError()), instance.env, instance.View(), path);
      assert path[0..] == path;
      var i := 0;
      while i < |path|
        invariant 0 <= i <= |path|
        invariant spec == RunPath(Direct, StateCheck(states, instance.env, Direct.NullStateError()), instance.env, instance.View(), path[i..])
      {
        var migration := path[i];
        RunPathFrom(Direct, StateCheck(states, instance.env, Direct.NullStateError()), instance.env, instance.View(), path, i);
        var performed := PerformMigration(migration, instance);
        if performed.Fail? {
          return performed;
        }
        plugin.SetStateId(instance, migration.toStateId.value);
        var assertionResults := AssertState(instance);
        match assertionResults {
          case Failure(e) =>
            return Fail(e);
          case Success(results) =>
            var thrown := ThrowIfFailed(migration.toStateId.value, results);
            if thrown.Fail? {
              return thrown;
            }
        }
        i := i + 1;
      }
      return Pass;
    }

    /**
     * jumpstate: declare the instance to be in `targetStateId` without
     * migrating, after checking that state's assertions.
     */
    method Jumpstate(instance: Instance, targetStateId: Option<Uuid>) returns (outcome: Outcome<Error>)
      modifies instance
      ensures targetStateId.None? ==>
        outcome == Fail(IllegalArgument("targetStateId cannot be null")) && instance.View() == old(instance.View())
      ensures targetStateId.Some? ==>
        Run(outcome, instance.View()) == JumpstateSpec(states, instance.env, old(instance.View()), targetStateId.value)
    {
      if targetStateId.None? {
        return Fail(IllegalArgument("targetStateId cannot be null"));
      }
      var targetState := StateForId(targetStateId.value);
      match targetState {
        case None =>
          return Fail(JumpStateFailed(targetStateId.value));
        case Some(state) =>
          var assertionResults := AssertStateOf(instance, state);
          var thrown := ThrowIfFailed(state.stateId, assertionResults);
          if thrown.Fail? {
            return thrown;
          }
          plugin.SetStateId(instance, targetStateId.value);
          return Pass;
      }
    }

    /**
     * findPaths: append to `paths` every path from `fromStateId` to
     * `targetStateId`, each beginning with `thisPath`.
     */
    static method FindPaths(resource: ResourceImpl, paths: seq<Path>, thisPath: Path,
                            fromStateId: Option<Uuid>, targetStateId: Option<Uuid>,
                            ghost rank: map<Option<Uuid>, nat>)
      returns (found: seq<Path>)
      requires WellFormed(resource.AsGraph(), rank)
      ensures found == paths + Explore(resource.AsGraph(), rank, Intended, thisPath, fromStateId, targetStateId)
      decreases Height(rank, fromStateId)
    {
      ghost var g := resource.AsGraph();
      if fromStateId == targetStateId {
        found := paths + [thisPath];
      } else {
        found := paths;
        var i := 0;
        while i < |resource.migrations|
          invariant 0 <= i <= |resource.migrations|
          invariant found == paths + Branches(g, rank, Intended, thisPath, fromStateId, targetStateId, i)
        {
          var migration := resource.migrations[i];
          assert migration == g.migrations[i];
          if migration.fromStateId == fromStateId {
            var toState := resource.StateForId(migration.toStateId.value);
            assert toState.Some? && Some(toState.value.stateId) == migration.toStateId by {
              NextIsToState(g, migration);
            }
            match toState {
              case Some(state) =>
                assert Height(rank, migration.toStateId) < Height(rank, fromStateId);
                var thisPathCopy := thisPath + [migration];
                BranchesStep(g, rank, paths, thisPath, fromStateId, targetStateId, i);
                found := FindPaths(resource, found, thisPathCopy, Some(state.stateId), targetStateId, rank);
            }
          } else {
            BranchesStep(g, rank, paths, thisPath, fromStateId, targetStateId, i);
          }
          i := i + 1;
        }
      }
    }
  }
}
