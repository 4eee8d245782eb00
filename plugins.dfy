/**
 * The backend as the engine sees it through its plugins. A live instance
 * keeps the state marker and the record of the migrations carried out on
 * it; the resource plugin reads and writes the marker, and a migration's
 * side effect appends the migration to the record (or fails, leaving the
 * instance as it was).
 */
module Plugins {
  import opened Wrappers
  import opened Model
  import opened Lookup
  import opened Engine

  /** A live instance of a resource: the mutable backend state and its fixed behaviour. */
  class Instance {
    var marker: Option<Uuid>
    var performed: seq<Migration>
    const env: Environment

    constructor (marker: Option<Uuid>, performed: seq<Migration>, env: Environment)
      ensures this.marker == marker && this.performed == performed && this.env == env
    {
      this.marker := marker;
      this.performed := performed;
      this.env := env;
    }

    /** The backend as a value. */
    function View(): Backend
      reads this
    {
      Backend(marker, performed)
    }
  }

  /** A resource plugin: reads and writes the state marker of an instance. */
  datatype ResourcePlugin = ResourcePlugin(name: string) {

    /**
     * currentState: the declared state the marker names, if any. The
     * backend's own bookkeeping (a tracking table) is reduced to the marker.
     */
    method CurrentState(states: seq<State>, instance: Instance) returns (r: Result<Option<State>, Error>)
      ensures r == CurrentStateOf(states, instance.marker)
    {
      match instance.marker {
        case None =>
          r := Success(None);
        case Some(id) =>
          var found := FirstWithId(states, id);
          r := if found.None? then Failure(IndeterminateState(id)) else Success(found);
      }
    }

    /** setStateId: record `id` as the instance's state marker. */
    method SetStateId(instance: Instance, id: Uuid)
      modifies instance
      ensures instance.View() == old(instance.View()).(marker := Some(id))
    {
      instance.marker := Some(id);
    }
  }

  /** A migration plugin, registered for one migration class. */
  datatype MigrationPlugin = MigrationPlugin(name: string) {

    /** perform: carry out the migration's side effect on the instance. */
    method Perform(m: Migration, instance: Instance) returns (r: Outcome<Error>)
      modifies instance
      ensures r.Pass? <==> m.migrationId !in instance.env.rejects
      ensures r.Fail? ==> r.error == MigrationFailed(m.migrationId) && instance.View() == old(instance.View())
      ensures r.Pass? ==> instance.View() == old(instance.View()).(performed := old(instance.performed) + [m])
    {
      r := PerformMigration(m, instance);
    }
  }

  /** Migration.perform: the side effect of one migration on the instance. */
  method PerformMigration(m: Migration, instance: Instance) returns (r: Outcome<Error>)
    modifies instance
    ensures r.Pass? <==> m.migrationId !in instance.env.rejects
    ensures r.Fail? ==> r.error == MigrationFailed(m.migrationId) && instance.View() == old(instance.View())
    ensures r.Pass? ==> instance.View() == old(instance.View()).(performed := old(instance.performed) + [m])
  {
    if m.migrationId in instance.env.rejects {
      r := Fail(MigrationFailed(m.migrationId));
    } else {
      instance.performed := instance.performed + [m];
      r := Pass;
    }
  }
}
