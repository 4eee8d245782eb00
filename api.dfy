/**
 * WildebeestApiImpl: the API-level orchestrator. It resolves a target given
 * as text (an id or a label, falling back to the resource's default
 * target), looks plugins up by resource type and by migration class, and
 * drives migrate, jumpstate, state and assertState through them.
 */
module Api {
  import opened Wrappers
  import opened Model
  import opened Lookup
  import opened Paths
  import opened Engine
  import opened Plugins
  import opened Resources

  predicate IsAlphanumeric(c: char) {
    'a' <= c <= 'z' || 'A' <= c <= 'Z' || '0' <= c <= '9'
  }

  /**
   * The whole string matches [a-zA-Z0-9][a-zA-Z0-9\-\_ ]+[a-zA-Z0-9]: at
   * least three characters, alphanumeric at both ends, and alphanumerics,
   * hyphens, underscores or spaces in between.
   */
  predicate ValidStateSpec(s: string) {
    && |s| >= 3
    && IsAlphanumeric(s[0])
    && IsAlphanumeric(s[|s| - 1])
    && forall i :: 0 < i < |s| - 1 ==> IsAlphanumeric(s[i]) || s[i] == '-' || s[i] == '_' || s[i] == ' '
  }

  /** Java's trim() leaves the empty string: every character is at or below U+0020. */
  predicate IsBlank(s: string) {
    forall i :: 0 <= i < |s| ==> s[i] <= ' '
  }

  /** getResourcePlugin: the plugin registered for a resource type, or a failure naming the type. */
  function GetResourcePlugin(plugins: map<ResourceType, ResourcePlugin>, resourceType: ResourceType)
    : (r: Result<ResourcePlugin, Error>)
    ensures r.Success? <==> resourceType in plugins
    ensures r.Success? ==> r.value == plugins[resourceType]
    ensures r.Failure? ==> r.error == NoResourcePlugin(resourceType)
  {
    if resourceType in plugins then Success(plugins[resourceType]) else Failure(NoResourcePlugin(resourceType))
  }

  /**
   * getTargetStateId: no target gives no id; a target that does not match
   * the pattern is invalid; a valid one is read as an id if `parseUuid`
   * accepts it (whether or not a state has that id), else as a label, and
   * is unknown when no state carries that label.
   */
  function TargetStateIdOf(states: seq<State>, targetState: Option<string>, parseUuid: string -> Option<Uuid>)
    : (r: Result<Option<Uuid>, Error>)
    ensures targetState.None? <==> r == Success(None)
    ensures r.Failure? ==>
      r.error == InvalidStateSpecified(targetState.value) || r.error == UnknownStateSpecified(targetState.value)
    ensures targetState.Some? && |targetState.value| < 3 ==> r == Failure(InvalidStateSpecified(targetState.value))
    ensures targetState.Some? ==>
      (r == Failure(InvalidStateSpecified(targetState.value)) <==> !ValidStateSpec(targetState.value))
    ensures targetState.Some? && ValidStateSpec(targetState.value) && parseUuid(targetState.value).Some? ==>
      r == Success(parseUuid(targetState.value))
  {
    match targetState
    case None => Success(None)
    case Some(s) =>
      if !ValidStateSpec(s) then Failure(InvalidStateSpecified(s))
      else
        match parseUuid(s)
        case Some(id) => Success(Some(id))
        case None =>
          match IdForLabel(states, s)
          case None => Failure(UnknownStateSpecified(s))
          case Some(id) => Success(Some(id))
  }

  /**
   * A valid target that is not an id resolves to the last state carrying it
   * as a label, and is unknown exactly when no state carries that label.
   */
  lemma {:induction false} TargetByLabel(states: seq<State>, s: string, parseUuid: string -> Option<Uuid>)
    requires ValidStateSpec(s) && parseUuid(s).None?
    ensures TargetStateIdOf(states, Some(s), parseUuid) == Failure(UnknownStateSpecified(s))
            <==> forall i :: 0 <= i < |states| ==> states[i].stateLabel != Some(s)
    ensures forall i :: LastAt(states, i, s) ==> TargetStateIdOf(states, Some(s), parseUuid) == Success(Some(states[i].stateId))
  {
    forall i | LastAt(states, i, s) ensures TargetStateIdOf(states, Some(s), parseUuid) == Success(Some(states[i].stateId)) {
      IdForLabelIsLastMatch(states, s, i);
    }
  }

  /** What state reports: no current state, or the current state and the results of its assertions. */
  datatype StateReport = NonExistent | Current(state: State, results: seq<AssertionResult>)

  class WildebeestApiImpl {
    const resourcePlugins: map<ResourceType, ResourcePlugin>
    const migrationPlugins: map<MigrationClass, MigrationPlugin>
    /** UUID.fromString: the id a string denotes, or None where it throws. */
    const parseUuid: string -> Option<Uuid>

    constructor (resourcePlugins: map<ResourceType, ResourcePlugin>,
                 migrationPlugins: map<MigrationClass, MigrationPlugin>,
                 parseUuid: string -> Option<Uuid>)
      ensures this.resourcePlugins == resourcePlugins && this.migrationPlugins == migrationPlugins
      ensures this.parseUuid == parseUuid
    {
      this.resourcePlugins := resourcePlugins;
      this.migrationPlugins := migrationPlugins;
      this.parseUuid := parseUuid;
    }

    /** How this copy of migrate carries out migrations: through the plugin registered for each class. */
    function Plugged(): Dispatch {
      Registry(migrationPlugins.Keys)
    }

    /** The result of assertState: find the resource plugin, then assert the current state. */
    function AssertStateResult(resourceType: ResourceType, states: seq<State>, env: Environment, b: Backend)
      : Result<seq<AssertionResult>, Error>
    {
      match GetResourcePlugin(resourcePlugins, resourceType)
      case Failure(e) => Failure(e)
      case Success(_) => AssertStateSpec(states, env, b, NullDereference)
    }

    /** The result of state: find the resource plugin, then report the current state and its assertions. */
    function StateResult(resourceType: ResourceType, states: seq<State>, env: Environment, b: Backend)
      : (r: Result<StateReport, Error>)
      ensures r.Success? && r.value.NonExistent? <==> resourceType in resourcePlugins && b.marker.None?
      ensures r.Success? && r.value.Current? ==>
        && b.marker == Some(r.value.state.stateId)
        && r.value.state in states
        && AssertStateResult(resourceType, states, env, b) == Success(r.value.results)
      ensures resourceType in resourcePlugins && b.marker.Some? && Declared(states, b.marker.value) ==>
        r.Success? && r.value.Current?
      ensures r.Failure? <==> resourceType !in resourcePlugins || (b.marker.Some? && !Declared(states, b.marker.value))
    {
      match GetResourcePlugin(resourcePlugins, resourceType)
      case Failure(e) => Failure(e)
      case Success(_) =>
        match CurrentStateOf(states, b.marker)
        case Failure(e) => Failure(e)
        case Success(None) => Success(NonExistent)
        case Success(Some(s)) => Success(Current(s, Evaluate(s.assertions, env.oracle, b)))
    }

    /**
     * The result of migrate: find the resource plugin, take the explicit
     * target or else the resource's default target (failing before the
     * current state is read when there is neither), resolve it to an id,
     * then migrate along the one path to it.
     */
    ghost function MigrateResult(g: Graph, rank: map<Option<Uuid>, nat>, resourceType: ResourceType,
                                 defaultTarget: Option<string>, env: Environment, b: Backend,
                                 targetState: Option<string>): Run
      requires WellFormed(g, rank)
    {
      match GetResourcePlugin(resourcePlugins, resourceType)
      case Failure(e) => Run(Fail(e), b)
      case Success(_) =>
        var ts := if targetState.Some? then targetState else defaultTarget;
        if ts.None? then Run(Fail(TargetNotSpecified), b)
        else
          match TargetStateIdOf(g.states, ts, parseUuid)
          case Failure(e) => Run(Fail(e), b)
          case Success(target) => MigrateSpec(Plugged(), g, rank, env, b, target)
    }

    /**
     * The result of jumpstate as written: it evaluates the assertions of the
     * state the instance is in, not of the target; and its "no such state"
     * guard tests the input text, so a target id that no state declares is
     * dereferenced as a null state once the assertions have run.
     */
    function JumpstateResult(resourceType: ResourceType, states: seq<State>, env: Environment, b: Backend,
                             targetState: Option<string>): Run
    {
      if targetState.Some? && IsBlank(targetState.value) then Run(Fail(IllegalArgument("targetState cannot be empty")), b)
      else
        match GetResourcePlugin(resourcePlugins, resourceType)
        case Failure(e) => Run(Fail(e), b)
        case Success(_) =>
          match TargetStateIdOf(states, targetState, parseUuid)
          case Failure(e) => Run(Fail(e), b)
          case Success(None) => Run(Fail(NullDereference), b)
          case Success(Some(id)) =>
            match AssertStateSpec(states, env, b, NullDereference)
            case Failure(e) => Run(Fail(e), b)
            case Success(results) =>
              match FirstWithId(states, id)
              case None => Run(Fail(NullDereference), b)
              case Some(s) =>
                match ThrowIfFailed(s.stateId, results)
                case Fail(e) => Run(Fail(e), b)
                case Pass => Run(Pass, b.(marker := Some(id)))
    }

    /**
     * jumpstate as evidently intended, and as ResourceImpl does it: once the
     * target id is resolved, an undeclared id fails with JumpStateFailed and
     * only the target state's own assertions decide whether it is written.
     */
    function JumpstateIntended(resourceType: ResourceType, states: seq<State>, env: Environment, b: Backend,
                               targetState: Option<string>): Run
    {
      if targetState.Some? && IsBlank(targetState.value) then Run(Fail(IllegalArgument("targetState cannot be empty")), b)
      else
        match GetResourcePlugin(resourcePlugins, resourceType)
        case Failure(e) => Run(Fail(e), b)
        case Success(_) =>
          match TargetStateIdOf(states, targetState, parseUuid)
          case Failure(e) => Run(Fail(e), b)
          case Success(None) => Run(Fail(NullDereference), b)
          case Success(Some(id)) => JumpstateSpec(states, env, b, id)
    }

    /** assertState(resource, instance): perform each assertion of the current state, in order. */
    method AssertState(resource: ResourceImpl, instance: Instance) returns (r: Result<seq<AssertionResult>, Error>)
      ensures r == AssertStateResult(resource.resourceType, resource.states, instance.env, instance.View())
    {
      var lookup := GetResourcePlugin(resourcePlugins, resource.resourceType);
      if lookup.Failure? {
        return Failure(lookup.error);
      }
      var current := lookup.value.CurrentState(resource.states, instance);
      match current {
        case Failure(e) =>
          r := Failure(e);
        case Success(None) =>
          r := Failure(NullDereference);
        case Success(Some(state)) =>
          ghost var view := instance.View();
          var assertions := state.assertions;
          var oracle := instance.env.oracle;
          var result: seq<AssertionResult> := [];
          var i := 0;
          while i < |assertions|
            invariant 0 <= i <= |assertions|
            invariant |result| == i
            invariant forall j :: 0 <= j < i ==> result[j] == ResultOf(assertions[j], oracle, view)
          {
            var assertion := assertions[i];
            var response := oracle(assertion, instance.View());
            result := result + [AssertionResult(assertion.assertionId, response.result, response.message)];
            i := i + 1;
          }
          assert result == Evaluate(assertions, oracle, view);
          r := Success(result);
      }
    }

    /** state(resource, instance): report the current state, asserting it when there is one. */
    method State(resource: ResourceImpl, instance: Instance) returns (r: Result<StateReport, Error>)
      ensures r == StateResult(resource.resourceType, resource.states, instance.env, instance.View())
    {
      var lookup := GetResourcePlugin(resourcePlugins, resource.resourceType);
      if lookup.Failure? {
        return Failure(lookup.error);
      }
      var current := lookup.value.CurrentState(resource.states, instance);
      match current {
        case Failure(e) =>
          r := Failure(e);
        case Success(None) =>
          r := Success(NonExistent);
        case Success(Some(state)) =>
          var results := AssertState(resource, instance);
          assert results.Success?;
          r := Success(Current(state, results.value));
      }
    }

    /** getTargetStateId(resource, targetState), with the label lookup done by stateIdForLabel. */
    method GetTargetStateId(resource: ResourceImpl, targetState: Option<string>) returns (r: Result<Option<Uuid>, Error>)
      ensures r == TargetStateIdOf(resource.states, targetState, parseUuid)
    {
      match targetState {
        case None =>
          r := Success(None);
        case Some(s) =>
          if !ValidStateSpec(s) {
            return Failure(InvalidStateSpecified(s));
          }
          var targetStateId := parseUuid(s);
          if targetStateId.None? {
            var byLabel := resource.StateIdForLabel(s);
            targetStateId := byLabel.value;
          }
          r := if targetStateId.None? then Failure(UnknownStateSpecified(s)) else Success(targetStateId);
      }
    }

    /**
     * migrate(resource, instance, targetState): resolve the target, require
     * exactly one path to it, then carry the path out.
     */
    method Migrate(resource: ResourceImpl, instance: Instance, targetState: Option<string>,
                   ghost rank: map<Option<Uuid>, nat>)
      returns (outcome: Outcome<Error>)
      requires WellFormed(resource.AsGraph(), rank)
      modifies instance
      ensures Run(outcome, instance.View())
           == MigrateResult(resource.AsGraph(), rank, resource.resourceType, resource.defaultTarget,
                            instance.env, old(instance.View()), targetState)
    {
      var lookup := GetResourcePlugin(resourcePlugins, resource.resourceType);
      if lookup.Failure? {
        return Fail(lookup.error);
      }
      var resourcePlugin := lookup.value;
      var ts := if targetState.Some? then targetState else resource.defaultTarget;
      if ts.None? {
        return Fail(TargetNotSpecified);
      }
      var target := GetTargetStateId(resource, ts);
      if target.Failure? {
        return Fail(target.error);
      }
      var targetStateId := target.value;
      var currentState := resourcePlugin.CurrentState(resource.states, instance);
      match currentState {
        case Failure(e) =>
          return Fail(e);
        case Success(current) =>
          var currentStateId := IdOf(current);
          var paths := ResourceImpl.FindPaths(resource, [], [], currentStateId, targetStateId, rank);
          if |paths| != 1 {
            return Fail(PathNotUnique);
          }
          RecordedPathsAreDeclared(resource.AsGraph(), rank, currentStateId, targetStateId);
          assert Targets(paths[0]);
          outcome := PerformPath(resource, resourcePlugin, instance, paths[0]);
      }
    }

    /**
     * The loop of migrate over the chosen path: find each migration's plugin,
     * perform it, write its toStateId, re-assert the current state, and stop
     * at the first failure without undoing anything.
     */
    method PerformPath(resource: ResourceImpl, resourcePlugin: ResourcePlugin, instance: Instance, path: Path)
      returns (outcome: Outcome<Error>)
      requires Targets(path)
      requires resource.resourceType in resourcePlugins
      modifies instance
      ensures Run(outcome, instance.View())
           == RunPath(Plugged(), StateCheck(resource.states, instance.env, NullDereference), instance.env, old(instance.View()), path)
    {
      ghost var check := StateCheck(resource.states, instance.env, NullDereference);
      ghost var spec := RunPath(Plugged(), check, instance.env, instance.View(), path);
      assert path[0..] == path;
      var i := 0;
      while i < |path|
        invariant 0 <= i <= |path|
        invariant spec == RunPath(Plugged(), check, instance.env, instance.View(), path[i..])
      {
        var migration := path[i];
        RunPathFrom(Plugged(), check, instance.env, instance.View(), path, i);
        if migration.migrationClass !in migrationPlugins {
          return Fail(NoMigrationPlugin(migration.migrationClass));
        }
        var migrationPlugin := migrationPlugins[migration.migrationClass];
        var performed := migrationPlugin.Perform(migration, instance);
        if performed.Fail? {
          return performed;
        }
        resourcePlugin.SetStateId(instance, migration.toStateId.value);
        var assertionResults := AssertState(resource, instance);
        match assertionResults {
          case Failure(e) =>
            return Fail(e);
          case Success(results) =>
            var thrown := ThrowIfFailed(migration.toStateId.value, results);
            if thrown.Fail? {
              return thrown;
            }
        }
        i := i + 1;
      }
      return Pass;
    }

    /** jumpstate(resource, instance, targetState), as written. */
    method Jumpstate(resource: ResourceImpl, instance: Instance, targetState: Option<string>)
      returns (outcome: Outcome<Error>)
      modifies instance
      ensures Run(outcome, instance.View())
           == JumpstateResult(resource.resourceType, resource.states, instance.env, old(instance.View()), targetState)
    {
      if targetState.Some? && IsBlank(targetState.value) {
        return Fail(IllegalArgument("targetState cannot be empty"));
      }
      var lookup := GetResourcePlugin(resourcePlugins, resource.resourceType);
      if lookup.Failure? {
        return Fail(lookup.error);
      }
      var resourcePlugin := lookup.value;
      var target := GetTargetStateId(resource, targetState);
      if target.Failure? {
        return Fail(target.error);
      }
      var state: Option<State> := None;
      match target.value {
        case None =>
          return Fail(NullDereference);
        case Some(id) =>
          state := resource.StateForId(id);
      }
      var targetStateId := target.value.value;
      var assertionResults := AssertState(resource, instance);
      if assertionResults.Failure? {
        return Fail(assertionResults.error);
      }
      if state.None? {
        return Fail(NullDereference);
      }
      var thrown := ThrowIfFailed(state.value.stateId, assertionResults.value);
      if thrown.Fail? {
        return thrown;
      }
      resourcePlugin.SetStateId(instance, targetStateId);
      return Pass;
    }

    /**
     * The target of migrate: with no explicit target it is the resource's
     * default target, and with neither it fails with TargetNotSpecified
     * before the current state is read, so even an instance whose marker
     * names an undeclared state is left as it was.
     */
    lemma MigrateTargetFallback(g: Graph, rank: map<Option<Uuid>, nat>, resourceType: ResourceType,
                                defaultTarget: Option<string>, env: Environment, b: Backend)
      requires WellFormed(g, rank)
      requires resourceType in resourcePlugins
      ensures defaultTarget.None? ==>
        MigrateResult(g, rank, resourceType, defaultTarget, env, b, None) == Run(Fail(TargetNotSpecified), b)
      ensures MigrateResult(g, rank, resourceType, defaultTarget, env, b, None)
           == MigrateResult(g, rank, resourceType, None, env, b, defaultTarget)
      ensures forall t :: MigrateResult(g, rank, resourceType, defaultTarget, env, b, Some(t))
                        == MigrateResult(g, rank, resourceType, None, env, b, Some(t))
    {
    }

    /**
     * A migrate that completes had a resource plugin, a target that resolved
     * to an id, and a plugin for every migration class on the way; it has
     * carried out, in order, the one route from the state the instance was
     * in to that id, and leaves the instance marked with it.
     */
    lemma MigrateCompletesAlongRoute(g: Graph, rank: map<Option<Uuid>, nat>, resourceType: ResourceType,
                                     defaultTarget: Option<string>, env: Environment, b: Backend,
                                     targetState: Option<string>)
      requires WellFormed(g, rank)
      ensures var r := MigrateResult(g, rank, resourceType, defaultTarget, env, b, targetState);
              var ts := if targetState.Some? then targetState else defaultTarget;
              var t := TargetStateIdOf(g.states, ts, parseUuid);
              r.outcome.Pass? ==>
                && resourceType in resourcePlugins
                && ts.Some? && t.Success? && t.value.Some?
                && r.backend.marker == t.value
                && exists q: Path :: && IsRoute(g, q, b.marker, t.value)
                               && r.backend.performed == b.performed + q
                               && (forall q' :: IsRoute(g, q', b.marker, t.value) ==> q' == q)
                               && forall i :: 0 <= i < |q| ==> q[i].migrationClass in migrationPlugins
    {
      var r := MigrateResult(g, rank, resourceType, defaultTarget, env, b, targetState);
      var ts := if targetState.Some? then targetState else defaultTarget;
      if r.outcome.Pass? {
        var t := TargetStateIdOf(g.states, ts, parseUuid).value;
        assert r == MigrateSpec(Plugged(), g, rank, env, b, t);
        MigrateRunsPath(Plugged(), g, rank, env, b, t);
        var path := PathsBetween(g, rank, b.marker, t)[0];
        ghost var check := StateCheck(g.states, env, NullDereference);
        assert r == RunPath(Plugged(), check, env, b, path);
        UniquePathIsOnlyRoute(g, rank, b.marker, t);
        RunPathSteps(Plugged(), check, env, b, path);
        RunPathMarker(Plugged(), check, env, b, path);
        assert path[..|path|] == path;
        RouteIffChain(g, path, b.marker, t);
        RunPathCompleted(Plugged(), StateCheck(g.states, env, NullDereference), env, b, path);
      }
    }

    /**
     * A target text that parses as an id no state declares is accepted by
     * getTargetStateId, but migrate then finds no path to it and fails
     * (with the "multiple possible paths" error) without changing anything,
     * unless the instance's own state is already unreadable.
     */
    lemma MigrateToUndeclaredId(g: Graph, rank: map<Option<Uuid>, nat>, resourceType: ResourceType,
                                defaultTarget: Option<string>, env: Environment, b: Backend, s: string, id: Uuid)
      requires WellFormed(g, rank)
      requires resourceType in resourcePlugins
      requires ValidStateSpec(s) && parseUuid(s) == Some(id) && !Declared(g.states, id)
      ensures MigrateResult(g, rank, resourceType, defaultTarget, env, b, Some(s))
           == Run(Fail(if b.marker.Some? && !Declared(g.states, b.marker.value) then IndeterminateState(b.marker.value)
                       else PathNotUnique), b)
    {
      MigrateGate(Plugged(), g, rank, env, b, Some(id));
      if CurrentStateOf(g.states, b.marker).Success? {
        assert b.marker.Some? ==> Declared(g.states, b.marker.value);
        var paths := PathsBetween(g, rank, b.marker, Some(id));
        if |paths| > 0 {
          var q := paths[0];
          PathsBetweenExactly(g, rank, b.marker, Some(id), q);
          RouteIffChain(g, q, b.marker, Some(id));
          assert false;
        }
      }
    }

    /**
     * jumpstate as written succeeds exactly when the target resolves to a
     * declared id and every assertion of the state the instance is in now
     * passes; it then writes that id and nothing else. The target state's
     * own assertions play no part. A blank target is never a valid state
     * specification, so the empty-target guard only changes the error.
     */
    lemma JumpstateChecksCurrentState(resourceType: ResourceType, states: seq<State>, env: Environment, b: Backend,
                                      targetState: Option<string>)
      ensures var r := JumpstateResult(resourceType, states, env, b, targetState);
              var t := TargetStateIdOf(states, targetState, parseUuid);
              var c := CurrentStateOf(states, b.marker);
              && (r.outcome.Pass? <==>
                    && resourceType in resourcePlugins
                    && t.Success? && t.value.Some? && Declared(states, t.value.value)
                    && c.Success? && c.value.Some?
                    && forall i :: 0 <= i < |c.value.value.assertions| ==>
                         ResultOf(c.value.value.assertions[i], env.oracle, b).result)
              && (r.outcome.Pass? ==> r.backend == b.(marker := t.value))
              && (r.outcome.Fail? ==> r.backend == b)
    {
      if targetState.Some? && IsBlank(targetState.value) {
        assert !ValidStateSpec(targetState.value) by {
          if |targetState.value| >= 3 {
            assert targetState.value[0] <= ' ';
          }
        }
      }
      var t := TargetStateIdOf(states, targetState, parseUuid);
      var c := CurrentStateOf(states, b.marker);
      if t.Success? && t.value.Some? && c.Success? && c.value.Some? {
        assert Declared(states, t.value.value) <==> FirstWithId(states, t.value.value).Some? by {
          if Declared(states, t.value.value) {
            var k :| 0 <= k < |states| && states[k].stateId == t.value.value;
          }
        }
      }
    }

    /**
     * jumpstate as evidently intended succeeds exactly when the target
     * resolves to a declared id whose state's own assertions all pass, and
     * then writes that id and nothing else.
     */
    lemma JumpstateIntendedChecksTarget(resourceType: ResourceType, states: seq<State>, env: Environment, b: Backend,
                                        targetState: Option<string>)
      ensures var r := JumpstateIntended(resourceType, states, env, b, targetState);
              var t := TargetStateIdOf(states, targetState, parseUuid);
              && (r.outcome.Pass? <==>
                    && resourceType in resourcePlugins
                    && t.Success? && t.value.Some? && Declared(states, t.value.value)
                    && forall i :: 0 <= i < |FirstWithId(states, t.value.value).value.assertions| ==>
                         ResultOf(FirstWithId(states, t.value.value).value.assertions[i], env.oracle, b).result)
              && (r.outcome.Pass? ==> r.backend == b.(marker := t.value))
              && (r.outcome.Fail? ==> r.backend == b)
    {
      if targetState.Some? && IsBlank(targetState.value) {
        assert !ValidStateSpec(targetState.value) by {
          if |targetState.value| >= 3 {
            assert targetState.value[0] <= ' ';
          }
        }
      }
      var t := TargetStateIdOf(states, targetState, parseUuid);
      if t.Success? && t.value.Some? {
        JumpstateWritesOnlyIfAllPass(states, env, b, t.value.value);
      }
    }

    /**
     * A jumpstate to an id no state declares: as written it fails on a null
     * state (or on the instance's own unreadable state) and never reports
     * JumpStateFailed; as intended it fails with JumpStateFailed. Neither
     * changes the instance.
     */
    lemma JumpstateToUndeclaredId(resourceType: ResourceType, states: seq<State>, env: Environment, b: Backend,
                                  s: string, id: Uuid)
      requires resourceType in resourcePlugins
      requires ValidStateSpec(s) && parseUuid(s) == Some(id) && !Declared(states, id)
      ensures JumpstateResult(resourceType, states, env, b, Some(s))
           == Run(Fail(if b.marker.Some? && !Declared(states, b.marker.value) then IndeterminateState(b.marker.value)
                       else NullDereference), b)
      ensures JumpstateIntended(resourceType, states, env, b, Some(s)) == Run(Fail(JumpStateFailed(id)), b)
    {
      assert !IsBlank(s) by {
        assert !(s[0] <= ' ');
      }
      if b.marker.Some? && Declared(states, b.marker.value) {
        var k :| 0 <= k < |states| && states[k].stateId == b.marker.value;
      }
    }
  }
}
