# Wildebeest migration engine: a Dafny model

Wildebeest manages a *resource*, such as a database, as a graph of declared
*states* and *migrations*. Each state has an id, an optional label and an
ordered list of assertions. Each migration leads from one state (or from
"does not exist") to another.

A live *instance* of the resource carries a state marker, which its resource
plugin reads and writes.

- **migrate** reads the current state and searches for every migration chain
  to the target. It requires exactly one, then performs the migrations in
  order. After each one it writes the new marker and re-asserts the state,
  and it stops at the first failure without rolling back.
- **jumpstate** declares the instance to be in a state without migrating,
  after checking assertions.
- **state** and **assertState** report the current state and its assertion
  results.

There are two copies of this engine, and the model covers both:

- `ResourceImpl` works with ids and calls migrations directly.
- `WildebeestApiImpl` adds the following:
  - a target given as text, an id or a label, or else the resource's
    default target;
  - plugin lookup by resource type and by migration class.

Layout:

- `wrappers.dfy` holds Option, Result and Outcome. These stand in for null
  and for exceptions.
- `model.dfy` holds states, migrations, assertions, the backend view and
  the exception taxonomy (`Error`).
- `lookup.dfy` looks states up by id (first match) and by label (last match).
- `paths.dfy` holds the findPaths search as a function:
  - `Explore`, parameterised by the filter that picks the migrations leaving
    the frontier;
  - the route predicate the search is proved against.
- `engine.dfy` holds assertion evaluation, throwIfFailed, one step of the
  migrate loop and the whole loop (`RunPath`).
- `plugins.dfy` holds the instance (a class with the marker and the record of
  performed migrations), the resource plugin and migration plugins.
- `resource.dfy` holds `ResourceImpl` (a class), the functions specifying
  its migrate and jumpstate, and their properties.
- `api.dfy` holds `WildebeestApiImpl` (a class over the plugin maps), the
  target resolution, and properties of the API-level operations.
- `scenarios.dfy` holds concrete resources that exhibit the findings below.

An instance's behaviour is the `Environment`, fixed for the instance:

- an oracle answers each assertion given the backend, which is the marker
  plus the migrations performed so far;
- a set of migration ids fails when performed.

The corrected search (below) terminates only on an acyclic graph. The
acyclicity it relies on is a ghost `rank` on state ids that strictly
decreases along every migration.

Both copies of findPaths, and the two migrate methods that call them, are
modelled with the corrected filter, which follows the migrations whose
fromStateId equals the frontier. The filter as written is kept beside it
(`Paths.Explore` with `AsWritten`). It is shown to miss every path longer
than one step (see Findings and "## Left out").

The API's jumpstate is modelled as written, with the corrected version
beside it.

## Model

| member | source | states |
|---|---|---|
| Lookup.FirstWithId | MV.Wildebeest.Core/source/core/java/co/mv/wb/plugin/base/ResourceImpl.java:483-499 | None exactly when no declared state has the id; otherwise a declared state with that id, and the first one (`FirstAt`) |
| Lookup.IdForLabel | MV.Wildebeest.Core/source/core/java/co/mv/wb/plugin/base/ResourceImpl.java:501-517 | None exactly when no declared state carries the label; otherwise the id of a state that carries it |
| Lookup.IdForLabelIsLastMatch | MV.Wildebeest.Core/source/core/java/co/mv/wb/plugin/base/ResourceImpl.java:506-516 | when several states carry the label, the id returned is that of the last one declared |
| Lookup.StateForIdRoundTrip | MV.Wildebeest.Core/source/core/java/co/mv/wb/plugin/base/ResourceImpl.java:483-499 | with unique ids, looking a declared state up by its own id returns that state |
| Lookup.LabelRoundTrip | MV.Wildebeest.Core/source/core/java/co/mv/wb/plugin/base/ResourceImpl.java:501-517 | with unique labels, looking a labelled state up by its label returns its id |
| Lookup.LastLabelFirstId | MV.Wildebeest.Core/source/core/java/co/mv/wb/plugin/base/ResourceImpl.java:487-513 | an example, on two concrete two-state lists: a shared label resolves to the later state, while a shared id resolves to the earlier one (the general facts are the `FirstAt` clause of `FirstWithId` and `IdForLabelIsLastMatch`) |
| Engine.Evaluate | MV.Wildebeest.Core/source/core/java/co/mv/wb/plugin/base/ResourceImpl.java:324-339 | one result per assertion, in the state's order, each the instance's answer to that assertion; none skipped after a failure |
| Engine.AllPassed | MV.Wildebeest.Core/source/core/java/co/mv/wb/plugin/base/ResourceImpl.java:437-443 | true exactly when every result passed |
| Engine.ThrowIfFailed | MV.Wildebeest.Core/source/core/java/co/mv/wb/plugin/base/ResourceImpl.java:429-444 | Pass exactly when every result passed; otherwise AssertionFailed carrying the state id and all the results |
| Engine.CurrentStateOf | MV.Wildebeest.Core/source/core/java/co/mv/wb/plugin/base/ResourceImpl.java:354-357 | no state exactly when there is no marker; IndeterminateState exactly when the marker names an undeclared id; otherwise the declared state the marker names |
| Engine.AssertStateSpec | MV.Wildebeest.Core/source/core/java/co/mv/wb/plugin/base/ResourceImpl.java:299-313 | no marker gives the no-current-state error; it succeeds exactly when the marker names a declared state, and then returns `Evaluate` of that state's assertions; its only errors are the no-current-state error and IndeterminateState |
| Engine.Step | MV.Wildebeest.Core/source/core/java/co/mv/wb/plugin/base/ResourceImpl.java:372-392 | one loop iteration either changes nothing and fails (no plugin for the class, or the migration failed), or performs the migration and writes its toStateId; it passes exactly when the step clears (`Clears`: plugin found, migration does not fail, re-check succeeds with every result true); otherwise it fails with the re-check's own error, or with AssertionFailed on the new state when some result is false |
| Engine.RunPathSteps | MV.Wildebeest.Core/source/core/java/co/mv/wb/plugin/base/ResourceImpl.java:372-392 | after the loop, the migrations performed are the path's first k, in order, for some k |
| Engine.RunPathMarker | MV.Wildebeest.Core/source/core/java/co/mv/wb/plugin/base/ResourceImpl.java:380-384 | the marker is the toStateId of the last migration performed (unchanged if none was); a loop that passes performed the whole path |
| Engine.RunPathFailures | MV.Wildebeest.Core/source/core/java/co/mv/wb/plugin/base/ResourceImpl.java:372-392 | a failing loop failed at step k: the plugin was missing or the migration failed with nothing more done, or the re-check after step k-1 failed or reported a false assertion for that migration's toStateId |
| Engine.RunPathCompleted | MV.Wildebeest.Core/source/core/java/co/mv/wb/impl/WildebeestApiImpl.java:396-443 | the loop passes exactly when every step clears: each migration has a plugin, none fails, and the re-check after each one passes every assertion; so a false result after any step stops the loop there |
| Plugins.ResourcePlugin.CurrentState | MV.Wildebeest.Core/source/core/java/co/mv/wb/plugin/base/ResourceImpl.java:306-308 | the current state is `CurrentStateOf` the marker |
| Plugins.ResourcePlugin.SetStateId | MV.Wildebeest.Core/source/core/java/co/mv/wb/plugin/base/ResourceImpl.java:380-384 | the marker becomes the id and nothing else changes |
| Plugins.MigrationPlugin.Perform | MV.Wildebeest.Core/source/core/java/co/mv/wb/impl/WildebeestApiImpl.java:421-424 | passes exactly when the migration does not fail; on failure the instance is unchanged, on success the migration is appended to the performed record |
| Plugins.PerformMigration | MV.Wildebeest.Core/source/core/java/co/mv/wb/plugin/base/ResourceImpl.java:376-376 | the same for a migration performed directly |
| Paths.NextIsToState | MV.Wildebeest.Core/source/core/java/co/mv/wb/plugin/base/ResourceImpl.java:475-478 | for a declared migration, the state looked up by its toStateId exists and has that id, so the search moves on to the toStateId |
| Paths.RouteIffChain | MV.Wildebeest.Core/source/core/java/co/mv/wb/plugin/base/ResourceImpl.java:446-481 | a route (recursive) is exactly a connected chain of declared migrations from the start to the target that touches the target only at its end |
| Paths.ExploreSound | MV.Wildebeest.Core/source/core/java/co/mv/wb/plugin/base/ResourceImpl.java:446-481 | every path the search records is the prefix followed by a route from the frontier to the target |
| Paths.ExploreComplete | MV.Wildebeest.Core/source/core/java/co/mv/wb/plugin/base/ResourceImpl.java:446-481 | every route from the frontier to the target, after the prefix, is recorded |
| Paths.PathsBetweenExactly | MV.Wildebeest.Core/source/core/java/co/mv/wb/plugin/base/ResourceImpl.java:446-481 | the paths migrate chooses from are exactly the routes from the current state to the target |
| Paths.UniquePathIsOnlyRoute | MV.Wildebeest.Core/source/core/java/co/mv/wb/plugin/base/ResourceImpl.java:363-370 | when exactly one path is found it is a route and every route equals it; when none is found there is no route |
| Paths.ExploreNoDuplicates | MV.Wildebeest.Core/source/core/java/co/mv/wb/plugin/base/ResourceImpl.java:446-481 | when no migration is declared twice, the search records no path twice: paths through different leaving migrations differ right after the prefix |
| Paths.UniqueRouteIsFound | MV.Wildebeest.Core/source/core/java/co/mv/wb/plugin/base/ResourceImpl.java:342-370 | when no migration is declared twice and exactly one route leads from the current state to the target, the search records exactly that route, once (the converse of the gate) |
| Paths.AtTargetRecordsPrefix | MV.Wildebeest.Core/source/core/java/co/mv/wb/plugin/base/ResourceImpl.java:458-462 | at the target the search records the prefix and nothing else, and two absent ids count as equal |
| Paths.BranchesInDeclarationOrder | MV.Wildebeest.Core/source/core/java/co/mv/wb/plugin/base/ResourceImpl.java:467-479 | paths through earlier-declared migrations come first and are kept when later ones are explored |
| Paths.BranchesFirstStep | MV.Wildebeest.Core/source/core/java/co/mv/wb/plugin/base/ResourceImpl.java:467-479 | every path found among the first k migrations continues the prefix with one of those k |
| Paths.AsWrittenAtMostOneStep | MV.Wildebeest.Core/source/core/java/co/mv/wb/plugin/base/ResourceImpl.java:469-471 | with the filter as written, no recorded path is longer than the prefix plus one, and a one-step path only from "does not exist" |
| Paths.RecordedPathsAreDeclared | MV.Wildebeest.Core/source/core/java/co/mv/wb/plugin/base/ResourceImpl.java:475-478 | every migration on a recorded path is declared and leads to a declared state |
| Resources.MigrateGate | MV.Wildebeest.Core/source/core/java/co/mv/wb/plugin/base/ResourceImpl.java:354-368 | migrate fails with PathNotUnique exactly when the current state is readable and the number of paths is not one, and then nothing has changed; an undeclared marker fails with IndeterminateState before the search |
| Resources.UniqueRoutePassesGate | MV.Wildebeest.Core/source/core/java/co/mv/wb/plugin/base/ResourceImpl.java:342-392 | when no migration is declared twice, an instance whose current state is declared (or absent) and from which exactly one route leads to the target gets past the gate, and migrate runs that route |
| Resources.MigrateRunsPath | MV.Wildebeest.Core/source/core/java/co/mv/wb/plugin/base/ResourceImpl.java:363-372 | a migrate that completes or fails on assertions got past the gate, and past the gate it is the loop over the one path |
| Resources.MigrateReachesTarget | MV.Wildebeest.Core/source/core/java/co/mv/wb/plugin/base/ResourceImpl.java:342-393 | a migrate that completes leaves the marker at the target and has performed, in order, the one route from the original state to the target |
| Resources.MigrateKeepsFailedStep | MV.Wildebeest.Core/source/core/java/co/mv/wb/plugin/base/ResourceImpl.java:372-392 | when a re-check fails, a non-empty prefix of the route has been performed and is not rolled back, and the marker names the state whose assertions failed |
| Resources.JumpstateWritesOnlyIfAllPass | MV.Wildebeest.Core/source/core/java/co/mv/wb/plugin/base/ResourceImpl.java:395-427 | jumpstate passes exactly when the target is declared and all of its assertions pass, and then writes only the marker; it fails with JumpStateFailed exactly when the target is undeclared; a declared target whose assertions fail gives AssertionFailed carrying the target id and every result; on failure nothing changes |
| Resources.ResourceImpl.constructor | MV.Wildebeest.Core/source/core/java/co/mv/wb/plugin/base/ResourceImpl.java:55-67 | a new resource has its id, type, name and plugin, and no states or migrations |
| Resources.ResourceImpl.StateForId | MV.Wildebeest.Core/source/core/java/co/mv/wb/plugin/base/ResourceImpl.java:483-499 | the loop with its early exit returns `FirstWithId` |
| Resources.ResourceImpl.StateIdForLabel | MV.Wildebeest.Core/source/core/java/co/mv/wb/plugin/base/ResourceImpl.java:501-517 | an empty label is refused with IllegalArgument; otherwise the loop returns `IdForLabel` |
| Resources.ResourceImpl.AssertState | MV.Wildebeest.Core/source/core/java/co/mv/wb/plugin/base/ResourceImpl.java:299-313 | equals `AssertStateSpec` with IllegalArgument for a missing current state |
| Resources.ResourceImpl.AssertStateOf | MV.Wildebeest.Core/source/core/java/co/mv/wb/plugin/base/ResourceImpl.java:315-340 | the loop returns `Evaluate` of the state's assertions |
| Resources.ResourceImpl.Migrate | MV.Wildebeest.Core/source/core/java/co/mv/wb/plugin/base/ResourceImpl.java:342-370 | the method's outcome and new instance are `MigrateSpec` of the old instance |
| Resources.ResourceImpl.PerformPath | MV.Wildebeest.Core/source/core/java/co/mv/wb/plugin/base/ResourceImpl.java:372-392 | the loop's outcome and new instance are `RunPath` over the path |
| Resources.ResourceImpl.Jumpstate | MV.Wildebeest.Core/source/core/java/co/mv/wb/plugin/base/ResourceImpl.java:395-427 | a null target is refused with IllegalArgument and nothing changes; otherwise the outcome and new instance are `JumpstateSpec` |
| Resources.ResourceImpl.FindPaths | MV.Wildebeest.Core/source/core/java/co/mv/wb/plugin/base/ResourceImpl.java:446-481 | the accumulator method appends exactly `Explore` from the given prefix and state to the paths given |
| Api.GetResourcePlugin | MV.Wildebeest.Core/source/core/java/co/mv/wb/impl/WildebeestApiImpl.java:600-617 | succeeds exactly when a plugin is registered for the type, returning it; otherwise NoResourcePlugin |
| Api.TargetStateIdOf | MV.Wildebeest.Core/source/core/java/co/mv/wb/impl/WildebeestApiImpl.java:516-552 | no target gives no id; failures are InvalidStateSpecified or UnknownStateSpecified; InvalidStateSpecified exactly when the text does not match the state pattern (so text shorter than three characters is invalid); a valid text that parses as an id gives that id whether or not it is declared |
| Api.TargetByLabel | MV.Wildebeest.Core/source/core/java/co/mv/wb/impl/WildebeestApiImpl.java:537-548 | a valid text that is not an id is unknown exactly when no state carries it as a label, and otherwise resolves to the last state carrying it |
| Api.WildebeestApiImpl.constructor | MV.Wildebeest.Core/source/core/java/co/mv/wb/impl/WildebeestApiImpl.java:122-197 | a new API object holds exactly the resource-plugin map, the migration-plugin map (the two setters) and the uuid parser it is given |
| Api.WildebeestApiImpl.StateResult | MV.Wildebeest.Core/source/core/java/co/mv/wb/impl/WildebeestApiImpl.java:307-342 | fails exactly when no plugin is registered for the type or the marker names an undeclared state; "non-existent" exactly when the plugin is found and there is no marker; with a plugin and a declared marker, the state the marker names together with its assertState results |
| Api.WildebeestApiImpl.AssertState | MV.Wildebeest.Core/source/core/java/co/mv/wb/impl/WildebeestApiImpl.java:269-305 | the loop returns the assertState result: plugin lookup, then the current state's results |
| Api.WildebeestApiImpl.State | MV.Wildebeest.Core/source/core/java/co/mv/wb/impl/WildebeestApiImpl.java:307-342 | the method returns `StateResult` |
| Api.WildebeestApiImpl.GetTargetStateId | MV.Wildebeest.Core/source/core/java/co/mv/wb/impl/WildebeestApiImpl.java:516-552 | the method returns `TargetStateIdOf`, doing the label lookup by the resource's loop |
| Api.WildebeestApiImpl.Migrate | MV.Wildebeest.Core/source/core/java/co/mv/wb/impl/WildebeestApiImpl.java:344-394 | the method's outcome and new instance are `MigrateResult` of the old instance |
| Api.WildebeestApiImpl.PerformPath | MV.Wildebeest.Core/source/core/java/co/mv/wb/impl/WildebeestApiImpl.java:396-443 | the loop's outcome and new instance are `RunPath` with plugin lookup by class |
| Api.WildebeestApiImpl.Jumpstate | MV.Wildebeest.Core/source/core/java/co/mv/wb/impl/WildebeestApiImpl.java:446-493 | the method's outcome and new instance are `JumpstateResult` (as written) |
| Api.WildebeestApiImpl.MigrateTargetFallback | MV.Wildebeest.Core/source/core/java/co/mv/wb/impl/WildebeestApiImpl.java:363-372 | with no explicit target, migrate behaves as if the default target had been given; with neither it fails with TargetNotSpecified and changes nothing, whatever the instance's marker (the current state is not read) |
| Api.WildebeestApiImpl.MigrateCompletesAlongRoute | MV.Wildebeest.Core/source/core/java/co/mv/wb/impl/WildebeestApiImpl.java:344-444 | a completed migrate had a resource plugin, a resolved target and a plugin for every migration class; it performed the one route to that target and left the marker there |
| Api.WildebeestApiImpl.MigrateToUndeclaredId | MV.Wildebeest.Core/source/core/java/co/mv/wb/impl/WildebeestApiImpl.java:533-536 | a target text that parses as an undeclared id is accepted, but migrate then fails with PathNotUnique (or IndeterminateState) and changes nothing |
| Api.WildebeestApiImpl.JumpstateChecksCurrentState | MV.Wildebeest.Core/source/core/java/co/mv/wb/impl/WildebeestApiImpl.java:446-493 | jumpstate as written passes exactly when the target resolves to a declared id and every assertion of the CURRENT state passes; then it writes that id only, and on failure nothing changes |
| Api.WildebeestApiImpl.JumpstateIntendedChecksTarget | MV.Wildebeest.Core/source/core/java/co/mv/wb/impl/WildebeestApiImpl.java:471-486 | the corrected jumpstate passes exactly when the target resolves to a declared id whose own assertions all pass |
| Api.WildebeestApiImpl.JumpstateToUndeclaredId | MV.Wildebeest.Core/source/core/java/co/mv/wb/impl/WildebeestApiImpl.java:471-486 | for an undeclared id, the jumpstate as written fails with a null dereference (or IndeterminateState) and the corrected one with JumpStateFailed |
| Scenarios.AsWrittenMissesTwoStepPath | MV.Wildebeest.Core/source/core/java/co/mv/wb/plugin/base/ResourceImpl.java:469-471 | with the filter as written, no path is found from "does not exist" or from Created to SchemaLoaded |
| Scenarios.IntendedFindsTwoStepPath | MV.Wildebeest.Core/source/core/java/co/mv/wb/plugin/base/ResourceImpl.java:446-481 | the intended search finds exactly the route create, load |
| Scenarios.JumpstateWritesFailingTarget | MV.Wildebeest.Core/source/core/java/co/mv/wb/impl/WildebeestApiImpl.java:481-486 | the API jumpstate as written moves an instance to a state whose assertion fails; the corrected one refuses with AssertionFailed |

## Left out

- Output, the logger and the OutputFormatter messages are not modelled. This includes how state() prints the label (through Optional's toString) or the id, and readAllText and XML loading.
- `UUID.fromString` is the parameter `parseUuid` of `WildebeestApiImpl`.
- The plugins' own work is reduced to their effect on the instance: the state-tracking table, JDBC and SQL scripts of the resource and migration plugins. The marker stands for the table. Assertions are answered by an oracle over the marker and the performed migrations. Failing migrations are a fixed set of ids.
- Plugins.PerformMigration, Plugins.MigrationPlugin.Perform: a migration that fails with MigrationFailed is taken to leave no trace on the instance. Its `performed` record is unchanged, so later assertions never see a partial effect. In the source, a failing migration may have changed the instance partly or wholly before it threw. The model does not capture that.
- Argument null checks on references (resource, instance, logger, paths, thisPath, plugin maps) are not modelled, because Dafny references are never null. The null label of stateIdForLabel (ResourceImpl.java:503, WildebeestApiImpl.java:500) is not modelled either: a label is a string here and is never null. The null target of ResourceImpl.jumpstate and the empty label of stateIdForLabel are modelled.
- `Wildebeest.stateForId` is not part of this model. It is used by the API's findPaths and by the API's jumpstate (WildebeestApiImpl.java:471). It is taken to be the same first-match lookup as `ResourceImpl.stateForId` for a present id. For a null id it is taken to return null rather than throw. `ResourceImpl.stateForId` throws IllegalArgument on a null id (ResourceImpl.java:485). Under this assumption, the API jumpstate's outcome for a missing target (`NullDereference` from the message at WildebeestApiImpl.java:477-478) holds.
- The API's private `stateIdForLabel` (WildebeestApiImpl.java:495-514) is the same loop as `ResourceImpl.stateIdForLabel`, and the model calls the latter.
- The API's private `findPaths` (WildebeestApiImpl.java:636-673) is the same search as `ResourceImpl.findPaths` apart from the lookup it calls, and the model uses `Resources.ResourceImpl.FindPaths` for both.
- `getDefaultTarget` belongs to the Resource interface, which is not part of this model. It is a field of `ResourceImpl` here.
- Resources.ResourceImpl.FindPaths, Resources.ResourceImpl.Migrate, Api.WildebeestApiImpl.Migrate, Resources.MigrateSpec, and the lemmas about them (Resources.MigrateGate, Resources.MigrateRunsPath, Resources.MigrateReachesTarget, Resources.MigrateKeepsFailedStep, Api.WildebeestApiImpl.MigrateCompletesAlongRoute, Api.WildebeestApiImpl.MigrateToUndeclaredId) use the corrected filter of the first finding, not the code as written.
  - As written, findPaths follows only migrations out of "does not exist".
  - So migrate as written succeeds only on an empty path, or on one migration out of "does not exist".
  - On any longer route it throws "multiple possible paths found" with nothing performed. The two-step resource is an example (Scenarios.AsWrittenMissesTwoStepPath).
  - The search as written is `Paths.Explore` with `AsWritten`. Its behaviour is stated by Paths.AsWrittenAtMostOneStep.
- Resources.ResourceImpl.FindPaths and the migrate members above require `WellFormed`: every migration names a declared toStateId, and the graph has no cycle. This is what the corrected search needs.
  - With the corrected filter, a cyclic graph would make the recursion run until the stack overflows.
  - A missing or undeclared toStateId on a followed migration would throw from `Optional.get`, or from a null dereference.
  - Neither behaviour is modelled.
  - As written, the recursion goes at most one level deep, so cycles do not matter there. Only a migration out of "does not exist" whose toStateId is missing or undeclared throws.
- Paths.AsWrittenAtMostOneStep, Scenarios.AsWrittenMissesTwoStepPath: the search as written is `Paths.Explore` with `AsWritten`, and `Explore` is defined only on ranked (acyclic) graphs whatever the filter. So what is proved of the search as written holds for acyclic graphs only, although the search as written goes at most one level deep and would terminate on a cyclic graph too.
- The set-once setters and the clear/has methods of ResourceImpl's fields are not modelled. The states and migrations lists are fields that the loader fills.
- Api.WildebeestApiImpl.constructor: the two plugin maps, which the source sets through `setResourcePlugins` and `setMigrationPlugins` after construction, are constant fields given to the constructor. Setting them again, clearing them, and the IllegalState a getter throws while a map is unset are not modelled. The output stream the source constructor takes is not modelled.
- Paths.ExploreNoDuplicates, Paths.UniqueRouteIsFound, Resources.UniqueRoutePassesGate require that no migration is declared twice (`DistinctMigrations`). Two equal entries in the migrations list would make the search record each route through them twice, and migrate would then refuse it as not unique.
- Assertions run in the order of the state's list, as both assertState loops iterate it. Assertion attributes other than the id, such as the sequence number, are not modelled, because the core never reads them.
- Exceptions thrown by an assertion's perform are not modelled. A migration's failure is MigrationFailed only.
- Resources.ResourceImpl.StateForId takes a non-null id: every caller passes one, so its IllegalArgument path is not modelled.
- Zero paths and several paths raise the same "multiple possible paths found" exception in the code, and the model has one error for both.

## Findings

| source | as written | input that shows it | evidently intended | confidence | as-written member | corrected member |
|---|---|---|---|---|---|---|
| MV.Wildebeest.Core/source/core/java/co/mv/wb/plugin/base/ResourceImpl.java:469-471 | the filter tests `m.getFromStateId().equals(fromStateId)`, which compares an `Optional<UUID>` with a `UUID` and is never true; the same test is at WildebeestApiImpl.java:659-661. Only migrations from "does not exist" are ever followed | states Created, SchemaLoaded; migrations create (none to Created) and load (Created to SchemaLoaded); migrate from "does not exist" or from Created to SchemaLoaded finds no path | follow the migrations whose fromStateId is the frontier, so migrate performs create, load | high; not executed | Scenarios.AsWrittenMissesTwoStepPath | Paths.PathsBetweenExactly |
| MV.Wildebeest.Core/source/core/java/co/mv/wb/impl/WildebeestApiImpl.java:481-486 | jumpstate asserts the state the instance is in now (`assertState(resource, instance)`), not the target, before writing the target | instance in Created, target "SchemaLoaded" whose assertion fails on the instance: jumpstate succeeds and marks the instance SchemaLoaded | check the target state's assertions, as ResourceImpl.jumpstate does | high; not executed | Scenarios.JumpstateWritesFailingTarget | Api.WildebeestApiImpl.JumpstateIntendedChecksTarget |
| MV.Wildebeest.Core/source/core/java/co/mv/wb/impl/WildebeestApiImpl.java:475-479 | the "no such state" guard tests the input text `targetState` instead of the looked-up `state`, and its message dereferences the null id | a target text that parses as an id no state declares: a NullPointerException at line 486 instead of JumpStateFailedException | fail with JumpStateFailed when the looked-up state is null | high; not executed | Api.WildebeestApiImpl.JumpstateToUndeclaredId | Api.WildebeestApiImpl.JumpstateIntendedChecksTarget |
