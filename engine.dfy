/**
 * The orchestration protocol shared by ResourceImpl and WildebeestApiImpl:
 * evaluating a state's assertions, the fail-on-any-false check, reading the
 * current state through the resource plugin, and running a path of
 * migrations step by step with a re-check after every step.
 */
module Engine {
  import opened Wrappers
  import opened Model
  import opened Lookup

  /** The result recorded for one assertion: its id with the response's verdict and message. */
  function ResultOf(a: Assertion, oracle: Oracle, b: Backend): AssertionResult {
    var response := oracle(a, b);
    AssertionResult(a.assertionId, response.result, response.message)
  }

  /**
   * The results of performing a state's assertions against the backend: one
   * per assertion, in the state's order, none skipped after a failure.
   */
  function Evaluate(assertions: seq<Assertion>, oracle: Oracle, b: Backend): (rs: seq<AssertionResult>)
    ensures |rs| == |assertions|
    ensures forall i :: 0 <= i < |rs| ==> rs[i] == ResultOf(assertions[i], oracle, b)
  {
    if assertions == [] then []
    else [ResultOf(assertions[0], oracle, b)] + Evaluate(assertions[1..], oracle, b)
  }

  /** Whether every result passed. */
  function AllPassed(results: seq<AssertionResult>): (ok: bool)
    ensures ok <==> forall i :: 0 <= i < |results| ==> results[i].result
  {
    results == [] || (results[0].result && AllPassed(results[1..]))
  }

  /** Raise AssertionFailed, carrying every result, as soon as one result is false. */
  function ThrowIfFailed(stateId: Uuid, results: seq<AssertionResult>): (r: Outcome<Error>)
    ensures r.Pass? <==> forall i :: 0 <= i < |results| ==> results[i].result
    ensures r.Fail? ==> r.error == AssertionFailed(stateId, results)
  {
    if AllPassed(results) then Pass else Fail(AssertionFailed(stateId, results))
  }

  /**
   * The resource plugin's currentState: no state when there is no marker,
   * the declared state the marker names, or IndeterminateState when the
   * marker names a state the resource does not declare.
   */
  function CurrentStateOf(states: seq<State>, marker: Option<Uuid>): (r: Result<Option<State>, Error>)
    ensures r == Success(None) <==> marker.None?
    ensures r.Success? && r.value.Some? ==> marker == Some(r.value.value.stateId) && r.value.value in states
    ensures r.Failure? <==> marker.Some? && forall i :: 0 <= i < |states| ==> states[i].stateId != marker.value
    ensures r.Failure? ==> r.error == IndeterminateState(marker.value)
  {
    match marker
    case None => Success(None)
    case Some(id) =>
      match FirstWithId(states, id)
      case None => Failure(IndeterminateState(id))
      case Some(s) => Success(Some(s))
  }

  /** The id of the current state, absent when the resource does not exist. */
  function IdOf(current: Option<State>): Option<Uuid> {
    match current
    case None => None
    case Some(s) => Some(s.stateId)
  }

  /**
   * assertState: read the current state through the plugin and evaluate its
   * assertions. When there is no current state the copy in use raises
   * `nullError` (an argument check in ResourceImpl, a null dereference in
   * WildebeestApiImpl).
   */
  function AssertStateSpec(states: seq<State>, env: Environment, b: Backend, nullError: Error)
    : (r: Result<seq<AssertionResult>, Error>)
    ensures r.Failure? ==> r.error == nullError || (b.marker.Some? && r.error == IndeterminateState(b.marker.value))
    ensures b.marker.None? ==> r == Failure(nullError)
    ensures r.Success? <==> b.marker.Some? && Declared(states, b.marker.value)
    ensures r.Success? ==> r.value == Evaluate(FirstWithId(states, b.marker.value).value.assertions, env.oracle, b)
  {
    match CurrentStateOf(states, b.marker)
    case Failure(e) => Failure(e)
    case Success(None) => Failure(nullError)
    case Success(Some(s)) => Success(Evaluate(s.assertions, env.oracle, b))
  }

  /** The re-check the migrate loop runs against the backend after each step. */
  type Check = Backend -> Result<seq<AssertionResult>, Error>

  /** The re-check of a copy of migrate: its assertState over the resource's declared states. */
  function StateCheck(states: seq<State>, env: Environment, nullError: Error): Check {
    b => AssertStateSpec(states, env, b, nullError)
  }

  /**
   * How a migration's side effect is carried out: ResourceImpl calls the
   * migration directly; WildebeestApiImpl looks its plugin up by class.
   */
  datatype Dispatch = Direct | Registry(plugins: set<MigrationClass>) {
    /** What the re-check raises when the plugin reports no current state. */
    function NullStateError(): Error {
      if Direct? then IllegalArgument("state cannot be null") else NullDereference
    }
  }

  /** Every migration of the path names the state it leads to. */
  ghost predicate Targets(path: Path) {
    forall i :: 0 <= i < |path| ==> path[i].toStateId.Some?
  }

  /**
   * Whether one iteration of the migrate loop gets through `m` from a
   * backend whose record of performed migrations is `log`: the migration
   * has a plugin (when plugins are looked up), does not fail, and the
   * re-check of the state it writes succeeds with every assertion passing.
   */
  predicate Clears(d: Dispatch, check: Check, env: Environment, log: seq<Migration>, m: Migration) {
    && (d.Registry? ==> m.migrationClass in d.plugins)
    && m.migrationId !in env.rejects
    && var c := check(Backend(m.toStateId, log + [m]));
       c.Success? && AllPassed(c.value)
  }

  /**
   * One iteration of the migrate loop: find the migration's plugin, perform
   * it, write its toStateId as the new marker, run the re-check and fail if
   * any assertion failed. Pass means the loop goes on from the returned
   * backend.
   */
  function Step(d: Dispatch, check: Check, env: Environment, b: Backend, m: Migration): (s: Run)
    requires m.toStateId.Some?
    ensures var next := Backend(m.toStateId, b.performed + [m]);
            s.backend == b || s.backend == next
    ensures s.outcome.Pass? ==> s.backend == Backend(m.toStateId, b.performed + [m])
    ensures s.outcome.Pass? <==> Clears(d, check, env, b.performed, m)
    ensures s.backend == b && s.outcome.Fail? ==>
      || (s.outcome.error == NoMigrationPlugin(m.migrationClass) && d.Registry? && m.migrationClass !in d.plugins)
      || (s.outcome.error == MigrationFailed(m.migrationId) && m.migrationId in env.rejects)
    ensures s.backend != b && s.outcome.Fail? ==>
      || check(s.backend) == Failure(s.outcome.error)
      || (&& check(s.backend).Success?
          && s.outcome.error == AssertionFailed(m.toStateId.value, check(s.backend).value)
          && exists i :: 0 <= i < |check(s.backend).value| && !check(s.backend).value[i].result)
  {
    if d.Registry? && m.migrationClass !in d.plugins then Run(Fail(NoMigrationPlugin(m.migrationClass)), b)
    else if m.migrationId in env.rejects then Run(Fail(MigrationFailed(m.migrationId)), b)
    else
      var next := Backend(m.toStateId, b.performed + [m]);
      match check(next)
      case Failure(e) => Run(Fail(e), next)
      case Success(results) => Run(ThrowIfFailed(m.toStateId.value, results), next)
  }

  /**
   * The migrate loop over a path: take the steps in order and stop at the
   * first failure. Nothing is rolled back.
   */
  function RunPath(d: Dispatch, check: Check, env: Environment, b: Backend, path: Path): Run
    requires Targets(path)
    decreases |path|
  {
    if path == [] then Run(Pass, b)
    else
      var s := Step(d, check, env, b, path[0]);
      if s.outcome.Fail? then s else RunPath(d, check, env, s.backend, path[1..])
  }

  /** How many migrations a run starting from `b` carried out. */
  function Carried(b: Backend, r: Run): int {
    |r.backend.performed| - |b.performed|
  }

  /** Carrying out one more migration of the path extends the log by it. */
  lemma Extend(log: seq<Migration>, path: Path, k: nat)
    requires 0 < |path| && k <= |path|
    ensures k == 0 ==> log + path[..k] == log
    ensures k > 0 ==> log + path[..k] == (log + [path[0]]) + path[1..][..k - 1]
  {
    if k > 0 {
      assert path[..k] == [path[0]] + path[1..][..k - 1];
    }
  }

  /**
   * Step ordering and no rollback: if the run carried out `k` migrations,
   * they are the first `k` of the path, in order.
   */
  lemma {:induction false} RunPathSteps(d: Dispatch, check: Check, env: Environment, b: Backend, path: Path)
    requires Targets(path)
    ensures var r := RunPath(d, check, env, b, path);
            var k := Carried(b, r);
            && 0 <= k <= |path|
            && r.backend.performed == b.performed + path[..k]
    decreases |path|
  {
    if path != [] {
      var s := Step(d, check, env, b, path[0]);
      if s.backend == b {
        Extend(b.performed, path, 0);
      } else if s.outcome.Fail? {
        Extend(b.performed, path, 1);
      } else {
        RunPathSteps(d, check, env, s.backend, path[1..]);
        var r := RunPath(d, check, env, s.backend, path[1..]);
        Extend(b.performed, path, Carried(s.backend, r) + 1);
      }
    }
  }

  /**
   * The marker a run leaves: the toStateId of the last migration it carried
   * out, or the marker it started from when it carried out none. A
   * completed run carried out every migration of the path.
   */
  lemma {:induction false} RunPathMarker(d: Dispatch, check: Check, env: Environment, b: Backend, path: Path)
    requires Targets(path)
    ensures var r := RunPath(d, check, env, b, path);
            var k := Carried(b, r);
            && 0 <= k <= |path|
            && r.backend.marker == (if k == 0 then b.marker else path[k - 1].toStateId)
            && (r.outcome.Pass? ==> k == |path|)
    decreases |path|
  {
    if path != [] {
      var s := Step(d, check, env, b, path[0]);
      if s.outcome.Pass? {
        RunPathMarker(d, check, env, s.backend, path[1..]);
      }
    }
  }

  /**
   * Fail-fast: a run that fails after carrying out `k` migrations failed on
   * migration k+1 (no plugin for its class, or the migration itself
   * failed, and its marker was never written), or in the re-check after
   * migration k (the re-check itself failed, or it returned results of which
   * one is false, raised as AssertionFailed on migration k's toStateId).
   */
  lemma {:induction false} RunPathFailures(d: Dispatch, check: Check, env: Environment, b: Backend, path: Path)
    requires Targets(path)
    ensures var r := RunPath(d, check, env, b, path);
            var k := Carried(b, r);
            r.outcome.Fail? ==>
              || (&& 0 <= k < |path| && d.Registry? && path[k].migrationClass !in d.plugins
                  && r.outcome.error == NoMigrationPlugin(path[k].migrationClass))
              || (&& 0 <= k < |path| && path[k].migrationId in env.rejects
                  && r.outcome.error == MigrationFailed(path[k].migrationId))
              || (0 < k <= |path| && check(r.backend) == Failure(r.outcome.error))
              || (&& 0 < k <= |path| && check(r.backend).Success?
                  && r.outcome.error == AssertionFailed(path[k - 1].toStateId.value, check(r.backend).value)
                  && exists i :: 0 <= i < |check(r.backend).value| && !check(r.backend).value[i].result)
    decreases |path|
  {
    if path != [] {
      var s := Step(d, check, env, b, path[0]);
      if s.outcome.Pass? {
        var tail := path[1..];
        RunPathFailures(d, check, env, s.backend, tail);
        var r := RunPath(d, check, env, s.backend, tail);
        var k' := Carried(s.backend, r);
        assert Carried(b, r) == k' + 1;
      }
    }
  }

  /**
   * A run completes exactly when every step clears: each migration has a
   * plugin (when plugins are looked up), none fails, and the re-check after
   * each one passes every assertion. So a false result after any step
   * stops the run there.
   */
  lemma {:induction false} RunPathCompleted(d: Dispatch, check: Check, env: Environment, b: Backend, path: Path)
    requires Targets(path)
    ensures RunPath(d, check, env, b, path).outcome.Pass? <==>
      forall i :: 0 <= i < |path| ==> Clears(d, check, env, b.performed + path[..i], path[i])
    ensures RunPath(d, check, env, b, path).outcome.Pass? ==>
      forall i :: 0 <= i < |path| ==>
        (d.Registry? ==> path[i].migrationClass in d.plugins) && path[i].migrationId !in env.rejects
    decreases |path|
  {
    if path != [] {
      var s := Step(d, check, env, b, path[0]);
      assert b.performed + path[..0] == b.performed;
      if s.outcome.Pass? {
        assert RunPath(d, check, env, b, path) == RunPath(d, check, env, s.backend, path[1..]);
        RunPathCompleted(d, check, env, s.backend, path[1..]);
        forall i | 1 <= i < |path|
          ensures path[i] == path[1..][i - 1]
          ensures b.performed + path[..i] == s.backend.performed + path[1..][..i - 1]
        {
          assert path[..i] == [path[0]] + path[1..][..i - 1];
        }
      }
    }
  }
}
