/**
 * Concrete resources that exhibit how the code as written differs from
 * what it evidently intends: a database resource whose schema is created
 * in two steps ("Created", then "SchemaLoaded").
 */
module Scenarios {
  import opened Wrappers
  import opened Model
  import opened Lookup
  import opened Paths
  import opened Engine
  import opened Resources
  import opened Api

  const created := State(1, Some("Created"), [Assertion(10)])
  const loaded := State(2, Some("SchemaLoaded"), [Assertion(20)])
  const create := Migration(100, "SqlScriptMigration", None, Some(1))
  const load := Migration(101, "SqlScriptMigration", Some(1), Some(2))

  /** "does not exist" -> Created -> SchemaLoaded. */
  function TwoStep(): Graph {
    Graph([created, loaded], [create, load])
  }

  function TwoStepRank(): map<Option<Uuid>, nat> {
    map[None := 2, Some(1) := 1, Some(2) := 0]
  }

  /** An instance on which the schema assertion (id 20) fails and every other assertion passes. */
  function SchemaMissing(): Environment {
    Environment((a: Assertion, b: Backend) => AssertionResponse(a.assertionId != 20, ""), {})
  }

  /** The two-step resource meets findPaths' preconditions: declared targets and no cycle. */
  lemma TwoStepWellFormed()
    ensures WellFormed(TwoStep(), TwoStepRank())
  {
    var g := TwoStep();
    assert Declared(g.states, 1) && Declared(g.states, 2) by {
      assert g.states[0].stateId == 1 && g.states[1].stateId == 2;
    }
  }

  /**
   * As written, findPaths finds no way from "does not exist" to
   * SchemaLoaded, nor from Created to SchemaLoaded, although the resource
   * declares the route create, load.
   */
  lemma AsWrittenMissesTwoStepPath()
    ensures WellFormed(TwoStep(), TwoStepRank())
    ensures Explore(TwoStep(), TwoStepRank(), AsWritten, [], None, Some(2)) == []
    ensures Explore(TwoStep(), TwoStepRank(), AsWritten, [], Some(1), Some(2)) == []
  {
    TwoStepWellFormed();
    var g, rank := TwoStep(), TwoStepRank();
    assert Explore(g, rank, AsWritten, [create], Some(1), Some(2)) == [] by {
      assert Branches(g, rank, AsWritten, [create], Some(1), Some(2), 1) == [];
    }
    assert Branches(g, rank, AsWritten, [], None, Some(2), 1) == [];
    assert Branches(g, rank, AsWritten, [], Some(1), Some(2), 1) == [];
  }

  /** The intended search finds the route create, load, and only it. */
  lemma IntendedFindsTwoStepPath()
    ensures WellFormed(TwoStep(), TwoStepRank())
    ensures PathsBetween(TwoStep(), TwoStepRank(), None, Some(2)) == [[create, load]]
  {
    TwoStepWellFormed();
    var g, rank := TwoStep(), TwoStepRank();
    assert [create] + [load] == [create, load];
    assert Explore(g, rank, Intended, [create, load], Some(2), Some(2)) == [[create, load]];
    assert Explore(g, rank, Intended, [create], Some(1), Some(2)) == [[create, load]] by {
      assert Branches(g, rank, Intended, [create], Some(1), Some(2), 1) == [];
      assert Branches(g, rank, Intended, [create], Some(1), Some(2), 2) == [[create, load]];
    }
    assert [] + [create] == [create];
    assert Branches(g, rank, Intended, [], None, Some(2), 1) == [[create, load]];
    assert Branches(g, rank, Intended, [], None, Some(2), 2) == [[create, load]];
  }

  /**
   * With the instance in Created and the schema assertion failing, the API
   * jumpstate as written moves the instance to SchemaLoaded, because it
   * checks Created's assertions; the intended jumpstate refuses.
   */
  lemma JumpstateWritesFailingTarget(api: WildebeestApiImpl)
    requires "db" in api.resourcePlugins
    requires api.parseUuid("SchemaLoaded") == None
    ensures var b := Backend(Some(1), []);
            api.JumpstateResult("db", TwoStep().states, SchemaMissing(), b, Some("SchemaLoaded"))
              == Run(Pass, Backend(Some(2), []))
    ensures var b := Backend(Some(1), []);
            api.JumpstateIntended("db", TwoStep().states, SchemaMissing(), b, Some("SchemaLoaded"))
              == Run(Fail(AssertionFailed(2, [AssertionResult(20, false, "")])), b)
  {
    var states := TwoStep().states;
    assert ValidStateSpec("SchemaLoaded");
    assert IdForLabel(states, "SchemaLoaded") == Some(2);
    assert FirstWithId(states, 2) == Some(loaded);
    var b := Backend(Some(1), []);
    assert Evaluate(loaded.assertions, SchemaMissing().oracle, b) == [AssertionResult(20, false, "")];
    assert Evaluate(created.assertions, SchemaMissing().oracle, b) == [AssertionResult(10, true, "")];
    assert !IsBlank("SchemaLoaded") by {
      assert !("SchemaLoaded"[0] <= ' ');
    }
  }
}
